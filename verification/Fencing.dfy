/** What a run can no longer do: change the record of an ended or outdated attempt, lose a recorded
    submission, or publish a result twice. */
module Fencing {
  import opened Basics
  import opened Board
  import opened AuthorityProofs
  import opened Evolution
  import opened RuntimeTables
  import opened RuntimeSafety
  import opened Publication
  import opened RuntimeConsistency
  import opened RuntimeRuns

  /** The region of the attempt's execution has moved to a later epoch. */
  predicate Outdated(t: Tables, a: Id) {
    && a in t.board.attempts && t.board.attempts[a].execution in t.board.executions
    && var e := t.board.executions[t.board.attempts[a].execution];
       e.region in t.regions && e.epoch < t.regions[e.region].epoch
  }

  predicate Fenced(t: Tables, a: Id) {
    a in t.board.attempts && (!Live(t.board.attempts[a].status) || Outdated(t, a))
  }

  ghost predicate EpochsRise(t: Tables, s: Tables) {
    forall region :: region in t.regions ==> region in s.regions && t.regions[region].epoch <= s.regions[region].epoch
  }

  /** Committed submissions stay as they are; others keep what they record or disappear. */
  ghost predicate RecordsKept(t: Tables, s: Tables) {
    forall a :: a in t.submissions ==>
      && (t.submissions[a].committed ==> a in s.submissions && s.submissions[a] == t.submissions[a])
      && (a in s.submissions ==> s.submissions[a].digest == t.submissions[a].digest
                                 && s.submissions[a].result == t.submissions[a].result)
  }

  // ---------------------------------------------------------------- one transaction

  lemma FencedOn(t: Tables, s: Tables, a: Id)
    requires Evolves(t.board, s.board) && EpochsRise(t, s) && Fenced(t, a)
    ensures Fenced(s, a)
  {
  }

  /** Whoever presents a fenced attempt, with whatever token, epoch and digest, is turned away. */
  lemma FencedRefused(t: Tables, r: Result, digest: Id, allowExpired: bool, verdict: Verdict)
    requires Fenced(t, r.attemptId)
    ensures CommitTransaction(t, r, digest, allowExpired, verdict).0 == t
    ensures CommitTransaction(t, r, digest, allowExpired, verdict).1.Rejected?
            || CommitTransaction(t, r, digest, allowExpired, verdict).1.Duplicate?
  {
    hide Complete, FailOrRetry, UsageRows, RefsDistinct, OutputsDistinct, UsageValid;
    RefusalOfFenced(t, r, digest, allowExpired, verdict);
  }

  lemma RefusalOfFenced(t: Tables, r: Result, digest: Id, allowExpired: bool, verdict: Verdict)
    requires Fenced(t, r.attemptId)
    ensures var refusal := Refusal(t, r, digest, allowExpired, verdict);
            refusal.Some? && (refusal.value.Rejected? || refusal.value.Duplicate?)
  {
  }

  lemma FencedIdle(t: Tables, r: Result, digest: Id, stagedValid: bool, ms: int)
    requires Fenced(t, r.attemptId)
    ensures Heartbeat(t, r.executionId, r.attemptId, r.leaseToken, r.epoch, ms) == t
    ensures Handoff(t, r, digest, stagedValid) == t
  {
  }

  lemma CommitQuiet(t: Tables, r: Result, digest: Id, allowExpired: bool, verdict: Verdict)
    requires Published(t)
    ensures QuietExcept(t, CommitTransaction(t, r, digest, allowExpired, verdict).0, r.attemptId)
  {
    hide Published, Refusal, PublishResult, UsageRows, OutputsBy, AnnouncedBy, Publishes, UsageValid, Close, Retry;
    if Refusal(t, r, digest, allowExpired, verdict).None? {
      AdmittedIsActive(t, r, digest, allowExpired, verdict);
      var u := t.(ledger := t.ledger + UsageRows(t.board.executions[r.executionId].region, r, |COUNTERS|));
      if r.status.Completed? {
        Unpublished(t, r.attemptId);
        PublishResultPublishes(u, r);
      }
    }
  }

  lemma CommitKeepsRecords(t: Tables, r: Result, digest: Id, allowExpired: bool, verdict: Verdict)
    ensures RecordsKept(t, CommitTransaction(t, r, digest, allowExpired, verdict).0)
  {
    hide Refusal, PublishResult, UsageRows, UsageValid, Close, Retry;
    if Refusal(t, r, digest, allowExpired, verdict).None? {
      AdmittedIsActive(t, r, digest, allowExpired, verdict);
      PublishResultElsewhere(t.(ledger := t.ledger
                                + UsageRows(t.board.executions[r.executionId].region, r, |COUNTERS|)), r);
    }
  }

  lemma CommitKeepsRows(t: Tables, r: Result, digest: Id, allowExpired: bool, verdict: Verdict, a: Id)
    requires a in t.submissions
    ensures a in CommitTransaction(t, r, digest, allowExpired, verdict).0.submissions
  {
    hide Refusal, PublishResult, UsageRows, UsageValid, Close, Retry;
    if Refusal(t, r, digest, allowExpired, verdict).None? {
      AdmittedIsActive(t, r, digest, allowExpired, verdict);
      PublishResultElsewhere(t.(ledger := t.ledger
                                + UsageRows(t.board.executions[r.executionId].region, r, |COUNTERS|)), r);
    }
  }

  // ---------------------------------------------------------------- one step

  /** Steps that leave submissions alone. */
  predicate Records(step: Step) { Commits(step) || step.HandOff? || step.DropSubmission? }

  lemma StepElsewhere(w: World, step: Step)
    requires !Commits(step)
    ensures Quiet(w.tables, Effect(w, step)) && EpochsRise(w.tables, Effect(w, step))
    ensures !Records(step) ==> Effect(w, step).submissions == w.tables.submissions
  {
    hide Effect, Quiet, EpochsRise;
    StepQuiet(w, step);
    StepRises(w, step);
    if !Records(step) { StepSubmissions(w, step); }
  }

  lemma StepQuiet(w: World, step: Step)
    requires !Commits(step)
    ensures Quiet(w.tables, Effect(w, step))
  {
    hide OutputsBy, AnnouncedBy, Route, CancelAll, LeaseNew, LeaseAgain, Heartbeat, AbandonExpired, ExposeOrphans,
      SettleRegion;
    if OnBoard(step) {
      StepBeside(w, step);
      return;
    }
    match step
    case AcceptCommand(region, correlation, targets) =>
      var s := InsertEvent(w.tables, region, CommandAccepted, CommandStream(region), correlation, None);
      QuietInsert(w.tables, region, CommandAccepted, CommandStream(region), correlation, None);
      RouteSilent(s, region, correlation, targets, |targets|);
    case CancelOperatorRun(region, correlation, key, digest) =>
      var u := w.tables.(cancellations := w.tables.cancellations[(region, key) := digest]);
      QuietInsert(u, region, CancelRequested, CommandStream(region), correlation, None);
    case Report(root) =>
      if root.Some? { QuietInsert(w.tables, root.value, RecoveryReported, RecoveryStream, w.tables.nextId, None); }
    case _ =>
  }

  lemma StepRises(w: World, step: Step)
    requires !Commits(step)
    ensures EpochsRise(w.tables, Effect(w, step))
  {
    hide Route, CancelAll, Extend, LeasePending, StartExecution, Close, Retry, Presents, Available, Claimed;
    if step.AcceptCommand? {
      var s := InsertEvent(w.tables, step.region, CommandAccepted, CommandStream(step.region), step.correlation, None);
      RouteSilent(s, step.region, step.correlation, step.targets, |step.targets|);
    }
  }

  lemma StepSubmissions(w: World, step: Step)
    requires !Records(step)
    ensures Effect(w, step).submissions == w.tables.submissions
  {
    hide Route, CancelAll, LeaseNew, LeaseAgain, Heartbeat, AbandonExpired, ExposeOrphans, SettleRegion;
    if OnBoard(step) {
      StepBeside(w, step);
      return;
    }
    if step.AcceptCommand? {
      var s := InsertEvent(w.tables, step.region, CommandAccepted, CommandStream(step.region), step.correlation, None);
      RouteSilent(s, step.region, step.correlation, step.targets, |step.targets|);
    }
  }

  lemma StepEpochs(w: World, step: Step)
    ensures EpochsRise(w.tables, Effect(w, step))
  {
    hide EpochsRise, CommitTransaction, Effect;
    if Commits(step) { CommitEpochs(w, step); } else { StepElsewhere(w, step); }
  }

  lemma CommitEpochs(w: World, step: Step)
    requires Commits(step)
    ensures EpochsRise(w.tables, Effect(w, step))
  {
    hide CommitTransaction;
    match step
    case CommitResult(r, digest, allowExpired, verdict) => CommitElsewhere(w.tables, r, digest, allowExpired, verdict);
    case CommitStored(a, allowExpired, verdict) =>
      if a in w.tables.submissions {
        CommitElsewhere(w.tables, w.tables.submissions[a].result, w.tables.submissions[a].digest, allowExpired,
          verdict);
      }
  }

  lemma StepRecords(w: World, step: Step)
    ensures RecordsKept(w.tables, Effect(w, step))
  {
    hide CommitTransaction;
    match step
    case CommitResult(r, digest, allowExpired, verdict) =>
      CommitKeepsRecords(w.tables, r, digest, allowExpired, verdict);
    case CommitStored(a, allowExpired, verdict) =>
      if a in w.tables.submissions {
        CommitKeepsRecords(w.tables, w.tables.submissions[a].result, w.tables.submissions[a].digest, allowExpired,
          verdict);
      }
    case HandOff(r, digest, stagedValid) =>
    case DropSubmission(a, digest) =>
    case _ => StepElsewhere(w, step);
  }

  /** A step publishes nothing for a fenced attempt. */
  lemma StepFenced(w: World, step: Step, a: Id)
    requires Published(w.tables) && SubmissionsValid(w.tables) && Fenced(w.tables, a)
    ensures OutputsBy(Effect(w, step).outputs, a) == OutputsBy(w.tables.outputs, a)
    ensures AnnouncedBy(Effect(w, step).events, a) == AnnouncedBy(w.tables.events, a)
  {
    hide Published, SubmissionsValid, OutputsBy, AnnouncedBy, Fenced, CommitTransaction;
    var t := w.tables;
    if !Commits(step) {
      hide Effect;
      StepElsewhere(w, step);
    } else {
      match step
      case CommitResult(r, digest, allowExpired, verdict) =>
        if r.attemptId == a { FencedRefused(t, r, digest, allowExpired, verdict); } else {
          CommitQuiet(t, r, digest, allowExpired, verdict);
        }
      case CommitStored(c, allowExpired, verdict) =>
        if c in t.submissions {
          StoredIsSame(t, c);
          var r := t.submissions[c].result;
          if c == a { FencedRefused(t, r, t.submissions[c].digest, allowExpired, verdict); } else {
            CommitQuiet(t, r, t.submissions[c].digest, allowExpired, verdict);
          }
        }
    }
  }

  // ---------------------------------------------------------------- whole runs

  lemma {:induction false} RunEpochs(w: World, steps: seq<Step>)
    ensures EpochsRise(w.tables, Execute(w, steps).tables)
  {
    hide Effect;
    if |steps| > 0 {
      RunEpochs(w, steps[..|steps| - 1]);
      StepEpochs(Execute(w, steps[..|steps| - 1]), steps[|steps| - 1]);
    }
  }

  lemma {:induction false} RunRecords(w: World, steps: seq<Step>)
    ensures forall a :: a in w.tables.submissions && w.tables.submissions[a].committed ==>
              a in Execute(w, steps).tables.submissions
                && Execute(w, steps).tables.submissions[a] == w.tables.submissions[a]
  {
    hide Effect;
    if |steps| > 0 {
      RunRecords(w, steps[..|steps| - 1]);
      StepRecords(Execute(w, steps[..|steps| - 1]), steps[|steps| - 1]);
    }
  }

  /** An ended or outdated attempt stays fenced, and no later step publishes anything for it. */
  lemma {:induction false} RunFenced(w: World, steps: seq<Step>, a: Id)
    requires Reliable(w) && Fenced(w.tables, a)
    ensures Fenced(Execute(w, steps).tables, a)
    ensures OutputsBy(Execute(w, steps).tables.outputs, a) == OutputsBy(w.tables.outputs, a)
    ensures AnnouncedBy(Execute(w, steps).tables.events, a) == AnnouncedBy(w.tables.events, a)
  {
    hide Sound, WinnerLast, SubmissionsValid, Published, Sequenced, Accounted, Effect, Fenced, Sweeping, OutputsBy,
      AnnouncedBy, Evolves, EpochsRise;
    if |steps| > 0 {
      var mid := Execute(w, steps[..|steps| - 1]);
      RunFenced(w, steps[..|steps| - 1], a);
      RunReliable(w, steps[..|steps| - 1]);
      StepFenced(mid, steps[|steps| - 1], a);
      RunEvolves(w, steps);
      RunEpochs(w, steps);
      FencedOn(w.tables, Execute(w, steps).tables, a);
    }
  }

  /** Fencing over whole runs: after any run, presenting the attempt changes nothing durable, except
      that a rejected commit deletes its own uncommitted submission. */
  lemma FencedForever(w: World, steps: seq<Step>, r: Result, digest: Id, allowExpired: bool, verdict: Verdict)
    requires Reliable(w) && Fenced(w.tables, r.attemptId)
    ensures var t := Execute(w, steps).tables;
            var (s, outcome) := Commit(t, r, digest, allowExpired, verdict);
            && (outcome.Rejected? || outcome.Duplicate?)
            && (forall c :: c in t.submissions
                            && !(c == r.attemptId && t.submissions[c].digest == digest
                                 && !t.submissions[c].committed) ==>
                  c in s.submissions && s.submissions[c] == t.submissions[c])
            && (forall c :: c in s.submissions ==> c in t.submissions)
            && s == t.(submissions := s.submissions)
    ensures OutputsBy(Execute(w, steps).tables.outputs, r.attemptId) == OutputsBy(w.tables.outputs, r.attemptId)
  {
    hide Reliable, Execute, Fenced, OutputsBy, AnnouncedBy, CommitTransaction;
    RunFenced(w, steps, r.attemptId);
    FencedRefused(Execute(w, steps).tables, r, digest, allowExpired, verdict);
  }

  /** A commit with another digest than the recorded one is rejected and erases nothing. */
  lemma ConflictErasesNothing(t: Tables, r: Result, digest: Id, allowExpired: bool, verdict: Verdict)
    requires r.attemptId in t.submissions && t.submissions[r.attemptId].digest != digest
    ensures Commit(t, r, digest, allowExpired, verdict).0 == t
    ensures Commit(t, r, digest, allowExpired, verdict).1
            == Rejected(if Attached(t.board, r.attemptId, r.executionId) then DuplicateConflictingResult
              else InactiveAttempt)
  {
  }

  /** Step `i` of the run is a commit of attempt `a` with this digest, and it is rejected. */
  ghost predicate RejectedAt(w: World, steps: seq<Step>, i: nat, a: Id, digest: Id)
    requires i < |steps|
  {
    var commit := CommitOf(Execute(w, steps[..i]), steps[i]);
    commit.Some? && commit.value.0 == a && commit.value.1 == digest && commit.value.2.Rejected?
  }

  /** A recorded submission is lost only after a commit of its own digest was rejected. */
  lemma {:induction false} RecordedSurvives(w: World, steps: seq<Step>, a: Id)
    requires a in w.tables.submissions && (a, w.tables.submissions[a].digest) !in w.rejections
    requires forall i :: 0 <= i < |steps| ==> !RejectedAt(w, steps, i, a, w.tables.submissions[a].digest)
    ensures a in Execute(w, steps).tables.submissions
    ensures Execute(w, steps).tables.submissions[a].digest == w.tables.submissions[a].digest
    ensures Execute(w, steps).tables.submissions[a].result == w.tables.submissions[a].result
    ensures (a, w.tables.submissions[a].digest) !in Execute(w, steps).rejections
  {
    hide Effect, CommitOf;
    if |steps| > 0 {
      var init, digest := steps[..|steps| - 1], w.tables.submissions[a].digest;
      forall i | 0 <= i < |init| ensures !RejectedAt(w, init, i, a, digest) {
        assert init[..i] == steps[..i] && !RejectedAt(w, steps, i, a, digest);
      }
      RecordedSurvives(w, init, a);
      assert !RejectedAt(w, steps, |init|, a, digest);
      StepRecords(Execute(w, init), steps[|init|]);
      StepKeepsRow(Execute(w, init), steps[|init|], a);
    }
  }

  lemma StepKeepsRow(w: World, step: Step, a: Id)
    requires a in w.tables.submissions
    requires step != DropSubmission(a, w.tables.submissions[a].digest) || (step.attempt, step.digest) !in w.rejections
    ensures a in Effect(w, step).submissions
  {
    hide CommitTransaction;
    match step
    case CommitResult(r, digest, allowExpired, verdict) =>
      CommitKeepsRows(w.tables, r, digest, allowExpired, verdict, a);
    case CommitStored(c, allowExpired, verdict) =>
      if c in w.tables.submissions {
        CommitKeepsRows(w.tables, w.tables.submissions[c].result, w.tables.submissions[c].digest, allowExpired, verdict,
          a);
      }
    case HandOff(r, digest, stagedValid) =>
    case DropSubmission(c, digest) =>
    case _ => StepElsewhere(w, step);
  }

  predicate Applied(outcome: Outcome) { outcome.Committed? || outcome.RetryScheduled? || outcome.DeadLettered? }

  /** After a result was applied, presenting it again at any later time is a duplicate that changes
      nothing. */
  lemma RepeatIsDuplicate(w: World, r: Result, digest: Id, allowExpired: bool, verdict: Verdict,
                          steps: seq<Step>, allowExpiredLater: bool, verdictLater: Verdict)
    requires Reliable(w) && SameDigestSameResult(w.tables, r, digest)
    requires Applied(CommitTransaction(w.tables, r, digest, allowExpired, verdict).1)
    ensures var t := Execute(Apply(w, CommitResult(r, digest, allowExpired, verdict)), steps).tables;
            Commit(t, r, digest, allowExpiredLater, verdictLater) == (t, Duplicate)
  {
    hide Reliable, Execute, CommitTransaction, Evolves, Sweeps;
    var v := Apply(w, CommitResult(r, digest, allowExpired, verdict));
    ReliableSound(w);
    AppliedRecords(w.tables, r, digest, allowExpired, verdict);
    StepReliable(w, CommitResult(r, digest, allowExpired, verdict));
    RunRecords(v, steps);
    RunEvolves(v, steps);
    AttachedOn(v.tables.board, Execute(v, steps).tables.board, r.attemptId, r.executionId);
    RecordedIsDuplicate(Execute(v, steps).tables, r, digest, allowExpiredLater, verdictLater);
  }

  lemma ReliableSound(w: World)
    requires Reliable(w)
    ensures Sound(w.tables)
  {
    hide Sound, WinnerLast, SubmissionsValid, Published, Sequenced, Accounted, Sweeping;
  }

  lemma AttachedOn(b: Board, c: Board, a: Id, e: Id)
    requires Evolves(b, c) && Attached(b, a, e)
    ensures Attached(c, a, e)
  {
  }

  lemma AppliedRecords(t: Tables, r: Result, digest: Id, allowExpired: bool, verdict: Verdict)
    requires Sound(t) && Applied(CommitTransaction(t, r, digest, allowExpired, verdict).1)
    ensures var s := CommitTransaction(t, r, digest, allowExpired, verdict).0;
            && Attached(s.board, r.attemptId, r.executionId)
            && r.attemptId in s.submissions && s.submissions[r.attemptId].digest == digest
            && s.submissions[r.attemptId].committed
  {
    hide Sound, CommitTransaction, StepsTo;
    AppliedRow(t, r, digest, allowExpired, verdict);
    CommitSound(t, r, digest, allowExpired, verdict);
    AppliedBoard(t, r, digest, allowExpired, verdict);
  }

  lemma AppliedRow(t: Tables, r: Result, digest: Id, allowExpired: bool, verdict: Verdict)
    requires Applied(CommitTransaction(t, r, digest, allowExpired, verdict).1)
    ensures Attached(t.board, r.attemptId, r.executionId)
    ensures var s := CommitTransaction(t, r, digest, allowExpired, verdict).0;
            r.attemptId in s.submissions && s.submissions[r.attemptId].digest == digest
              && s.submissions[r.attemptId].committed
  {
    hide PublishResult, UsageRows, UsageValid, Close, Retry, Refusal;
    AppliedAdmitted(t, r, digest, allowExpired, verdict);
    AdmittedIsActive(t, r, digest, allowExpired, verdict);
    PublishResultElsewhere(t.(ledger := t.ledger + UsageRows(t.board.executions[r.executionId].region, r, |COUNTERS|)),
      r);
  }

  lemma AppliedAdmitted(t: Tables, r: Result, digest: Id, allowExpired: bool, verdict: Verdict)
    requires Applied(CommitTransaction(t, r, digest, allowExpired, verdict).1)
    ensures Refusal(t, r, digest, allowExpired, verdict).None?
  {
    hide Complete, FailOrRetry, UsageRows, UsageValid;
  }

  lemma AppliedBoard(t: Tables, r: Result, digest: Id, allowExpired: bool, verdict: Verdict)
    requires StepsTo(t, CommitTransaction(t, r, digest, allowExpired, verdict).0)
             && Attached(t.board, r.attemptId, r.executionId)
    ensures Attached(CommitTransaction(t, r, digest, allowExpired, verdict).0.board, r.attemptId, r.executionId)
  {
    hide CommitTransaction, Sound, AddsQueued, LeasesAhead;
    AttachedOn(t.board, CommitTransaction(t, r, digest, allowExpired, verdict).0.board, r.attemptId, r.executionId);
  }

  lemma RecordedIsDuplicate(t: Tables, r: Result, digest: Id, allowExpired: bool, verdict: Verdict)
    requires Attached(t.board, r.attemptId, r.executionId)
    requires r.attemptId in t.submissions && t.submissions[r.attemptId].digest == digest
             && t.submissions[r.attemptId].committed
    ensures Commit(t, r, digest, allowExpired, verdict) == (t, Duplicate)
  {
  }

  // ---------------------------------------------------------------- exactly once

  lemma {:induction false} RowListed(xs: seq<Output>, o: Output)
    requires o in xs
    ensures o in OutputsBy(xs, o.attempt)
  {
    if xs[|xs| - 1] != o { RowListed(xs[..|xs| - 1], o); }
  }

  lemma OutputHasWinner(t: Tables, o: Output)
    requires Published(t) && SubmissionsValid(t) && o in t.outputs
    ensures Won(t.board, o.attempt) && t.board.attempts[o.attempt].execution == o.execution
  {
    RowListed(t.outputs, o);
    PublisherWon(t, o.attempt);
    hide OutputsBy, AnnouncedBy, Published, SubmissionsValid;
    SubmissionOf(t, o.attempt);
    RowsOf(OutputsBy(t.outputs, o.attempt), AnnouncedBy(t.events, o.attempt), t.submissions[o.attempt].result);
  }

  lemma PublisherWon(t: Tables, a: Id)
    requires Published(t) && OutputsBy(t.outputs, a) != []
    ensures Won(t.board, a) && a in t.submissions
            && Publishes(OutputsBy(t.outputs, a), AnnouncedBy(t.events, a), t.submissions[a].result)
  {
    hide OutputsBy, AnnouncedBy, Publishes;
  }

  lemma SubmissionOf(t: Tables, a: Id)
    requires SubmissionsValid(t) && a in t.submissions
    ensures a in t.board.attempts && t.submissions[a].result.executionId == t.board.attempts[a].execution
  {
  }

  lemma RowsOf(rows: seq<Output>, events: seq<Event>, r: Result)
    requires Publishes(rows, events, r)
    ensures forall row :: row in rows ==> row.execution == r.executionId
  {
    assert forall i :: 0 <= i < |rows| ==> rows[i].execution == r.executionId;
  }

  /** In every reachable state each execution has at most one completed attempt, every output row
      belongs to it, and its outputs and `component.output` events are exactly those of its result. */
  lemma ExactlyOnce(w: World, steps: seq<Step>)
    requires Reliable(w)
    ensures var t := Execute(w, steps).tables;
            && (forall a, c :: Won(t.board, a) && Won(t.board, c)
                               && t.board.attempts[a].execution == t.board.attempts[c].execution ==>
                                 a == c)
            && (forall o :: o in t.outputs ==>
               Won(t.board, o.attempt) && t.board.attempts[o.attempt].execution == o.execution)
            && (forall a :: Won(t.board, a) ==>
                  && CommittedAs(t, a, ResultStatus.Completed)
                  && Publishes(OutputsBy(t.outputs, a), AnnouncedBy(t.events, a), t.submissions[a].result)
                  && |AnnouncedBy(t.events, a)| == |t.submissions[a].result.staged|)
  {
    RunReliable(w, steps);
    StateExactlyOnce(Execute(w, steps).tables);
  }

  lemma StateExactlyOnce(t: Tables)
    requires WinnerLast(t.board) && Published(t) && SubmissionsValid(t)
    ensures forall a, c :: Won(t.board, a) && Won(t.board, c)
                           && t.board.attempts[a].execution == t.board.attempts[c].execution ==>
                             a == c
    ensures forall o :: o in t.outputs ==>
            Won(t.board, o.attempt) && t.board.attempts[o.attempt].execution == o.execution
    ensures forall a :: Won(t.board, a) ==>
              && CommittedAs(t, a, ResultStatus.Completed)
              && Publishes(OutputsBy(t.outputs, a), AnnouncedBy(t.events, a), t.submissions[a].result)
              && |AnnouncedBy(t.events, a)| == |t.submissions[a].result.staged|
  {
    hide OutputsBy, AnnouncedBy, SubmissionsValid;
    forall a, c | Won(t.board, a) && Won(t.board, c) && t.board.attempts[a].execution == t.board.attempts[c].execution
      ensures a == c {
      OneWinner(t.board, a, c);
    }
    forall o | o in t.outputs ensures Won(t.board, o.attempt) && t.board.attempts[o.attempt].execution == o.execution {
      OutputHasWinner(t, o);
    }
  }

  /** The attempt, its execution, region and inputs and the reported counters allow the result. */
  predicate Authorized(t: Tables, r: Result, allowExpired: bool) {
    && Attached(t.board, r.attemptId, r.executionId)
    && Active(t.board.attempts[r.attemptId].status)
    && t.board.executions[r.executionId].status.Running?
    && t.board.executions[r.executionId].inputs != {}
    && FirstRefusal(t, r, t.board.attempts[r.attemptId], t.board.executions[r.executionId], allowExpired).None?
    && UsageValid(r.usage)
    && (r.status.Completed? || r.requests == [])
  }

  /** The exact condition under which a result is applied. */
  lemma AppliedIff(t: Tables, r: Result, digest: Id, allowExpired: bool, verdict: Verdict)
    ensures Applied(CommitTransaction(t, r, digest, allowExpired, verdict).1)
            <==> Authorized(t, r, allowExpired) && RefsDistinct(AllStaged(r))
                 && (r.attemptId in t.submissions ==>
                    t.submissions[r.attemptId].digest == digest && !t.submissions[r.attemptId].committed)
                 && !verdict.Inadmissible? && !r.status.Cancelled?
                 && (r.status.Completed? ==> verdict.Admissible? && !Conflicted(t.artifacts, ArtifactsOf(r))
                                             && OutputsDistinct(AllStaged(r)))
  {
    hide Complete, FailOrRetry, UsageRows, UsageValid, FirstRefusal, RefsDistinct, OutputsDistinct;
    if Refusal(t, r, digest, allowExpired, verdict).None? && !r.status.Completed? {
      FailedOutcome(t.(ledger := t.ledger + UsageRows(t.board.executions[r.executionId].region, r, |COUNTERS|)), r);
    }
  }

  /** A result is applied only for the attempt that holds the current lease of a running execution
      under the current epoch of a running region. */
  lemma AppliedUnderAuthority(t: Tables, r: Result, digest: Id, allowExpired: bool, verdict: Verdict)
    requires Applied(CommitTransaction(t, r, digest, allowExpired, verdict).1)
    ensures Attached(t.board, r.attemptId, r.executionId)
    ensures var row := t.board.attempts[r.attemptId];
            var e := t.board.executions[r.executionId];
            && Active(row.status) && row.lease.Some? && row.lease.value.token == r.leaseToken
            && (allowExpired || t.clock < row.lease.value.expires)
            && e.status.Running? && e.epoch == r.epoch
            && RunningAt(t, e.region) && t.regions[e.region].epoch == r.epoch
            && forall d :: d in e.inputs ==> LeasedUnder(t.board, d, r.leaseToken)
  {
    AppliedAdmitted(t, r, digest, allowExpired, verdict);
    AdmittedHolds(t, r, digest, allowExpired, verdict);
  }

  lemma AdmittedHolds(t: Tables, r: Result, digest: Id, allowExpired: bool, verdict: Verdict)
    requires Refusal(t, r, digest, allowExpired, verdict).None?
    ensures Attached(t.board, r.attemptId, r.executionId)
    ensures Active(t.board.attempts[r.attemptId].status) && t.board.executions[r.executionId].status.Running?
    ensures FirstRefusal(t, r, t.board.attempts[r.attemptId], t.board.executions[r.executionId], allowExpired).None?
  {
    hide UsageValid, RefsDistinct, OutputsDistinct, FirstRefusal;
  }
}
