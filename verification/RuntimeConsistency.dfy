/** The full invariant of the durable tables, kept by every transaction. */
module RuntimeConsistency {
  import opened Basics
  import opened Board
  import opened AuthorityProofs
  import opened Evolution
  import opened RuntimeTables
  import opened RuntimeSafety
  import opened Publication

  ghost predicate Consistent(t: Tables) {
    && Sound(t)
    && WinnerLast(t.board)
    && SubmissionsValid(t)
    && Published(t)
    && Sequenced(t.events, t.streams)
    && Accounted(t)
  }

  /** Equal submission digests come from equal results: the digest is taken to be collision-free. */
  predicate SameDigestSameResult(t: Tables, r: Result, digest: Id) {
    r.attemptId in t.submissions && t.submissions[r.attemptId].digest == digest ==>
      t.submissions[r.attemptId].result == r
  }

  lemma QueuedRuns(b: Board, c: Board)
    requires ExecutionsEvolve(b, c) && LiveHolds(c) && AddsQueued(b, c)
    ensures forall a :: a in c.attempts && a !in b.attempts && c.attempts[a].execution in b.executions ==>
              b.executions[c.attempts[a].execution].status.Running?
  {
  }

  lemma WinnerStep(b: Board, c: Board, clock: Time)
    requires WinnerLast(b) && Authority(c) && Advances(b, c, clock) && CompletesNothing(b, c)
    ensures WinnerLast(c)
  {
    hide RowsValid, Numbered, InputsOwned, LiveHolds, RunningLives, InputsSettled, UnclaimedIdle, WinnerLast;
    hide ExecutionsEvolve, AttemptsEvolve, DeliveriesEvolve, AddsQueued, LeasesAhead, CompletesNothing;
    QueuedRuns(b, c);
    WinnerKept(b, c);
  }

  /** A transaction that publishes nothing and leaves submissions and ledger alone. */
  lemma BoardOnly(t: Tables, s: Tables)
    requires Consistent(t) && StepsTo(t, s) && CompletesNothing(t.board, s.board)
    requires Quiet(t, s) && Sequenced(s.events, s.streams)
    requires s.submissions == t.submissions && s.ledger == t.ledger && s.nextId >= t.nextId
    ensures Consistent(s)
  {
    hide Sound, WinnerLast, SubmissionsValid, Published, Sequenced, CompletesNothing, LeasesAhead, AddsQueued;
    hide ExecutionsEvolve, AttemptsEvolve, DeliveriesEvolve, Quiet, Authority;
    WinnerStepOf(t, s);
    PublishedKept(t, s);
    SubmissionsKept(t, s);
    AccountedKept(t, s);
  }

  lemma WinnerStepOf(t: Tables, s: Tables)
    requires WinnerLast(t.board) && StepsTo(t, s) && CompletesNothing(t.board, s.board)
    ensures WinnerLast(s.board)
  {
    hide Advances, Authority, Allocated, WinnerLast, CompletesNothing;
    WinnerStep(t.board, s.board, t.clock);
  }

  lemma QuietWhenEqual(t: Tables, s: Tables)
    requires s.outputs == t.outputs && s.events == t.events
    ensures Quiet(t, s)
  {
  }

  lemma QuietInsert(t: Tables, region: Id, kind: EventKind, stream: Stream, correlation: Id, attempt: Option<Id>)
    requires !kind.ComponentOutput?
    ensures Quiet(t, InsertEvent(t, region, kind, stream, correlation, attempt))
  {
    var s := InsertEvent(t, region, kind, stream, correlation, attempt);
    forall a: Id ensures AnnouncedBy(s.events, a) == AnnouncedBy(t.events, a) {
      AnnouncedByAdded(t.events, s.events[|t.events|], a);
    }
  }

  lemma LeaseNewConsistent(t: Tables, ids: set<Id>, trigger: Id, region: Id, component: Id, correlation: Id, ms: int)
    requires Consistent(t)
    ensures Consistent(LeaseNew(t, ids, trigger, region, component, correlation, ms))
  {
    hide Sound, WinnerLast, SubmissionsValid, Published, Sequenced, Accounted, StepsTo, CompletesNothing, Quiet,
      StartExecution, Available, Claimed;
    LeaseNewSound(t, ids, trigger, region, component, correlation, ms);
    QuietWhenEqual(t, LeaseNew(t, ids, trigger, region, component, correlation, ms));
    BoardOnly(t, LeaseNew(t, ids, trigger, region, component, correlation, ms));
  }

  lemma LeaseAgainConsistent(t: Tables, a: Id, ms: int)
    requires Consistent(t)
    ensures Consistent(LeaseAgain(t, a, ms))
  {
    hide Sound, WinnerLast, SubmissionsValid, Published, Sequenced, Accounted, StepsTo, CompletesNothing, Quiet,
      LeasePending, Available;
    LeaseAgainSound(t, a, ms);
    QuietWhenEqual(t, LeaseAgain(t, a, ms));
    BoardOnly(t, LeaseAgain(t, a, ms));
  }

  lemma HeartbeatConsistent(t: Tables, e: Id, a: Id, token: Id, epoch: int, ms: int)
    requires Consistent(t)
    ensures Consistent(Heartbeat(t, e, a, token, epoch, ms))
  {
    hide Sound, WinnerLast, SubmissionsValid, Published, Sequenced, Accounted, StepsTo, CompletesNothing, Quiet, Extend;
    HeartbeatSound(t, e, a, token, epoch, ms);
    QuietWhenEqual(t, Heartbeat(t, e, a, token, epoch, ms));
    BoardOnly(t, Heartbeat(t, e, a, token, epoch, ms));
  }

  lemma IngressConsistent(t: Tables, region: Id, correlation: Id, targets: seq<Id>)
    requires Consistent(t)
    ensures Consistent(Ingress(t, region, correlation, targets))
  {
    hide Sound, WinnerLast, SubmissionsValid, Published, Sequenced, Accounted, StepsTo, CompletesNothing, Route;
    IngressSound(t, region, correlation, targets);
    var s := InsertEvent(t, region, CommandAccepted, CommandStream(region), correlation, None);
    InsertSequenced(t, region, CommandAccepted, CommandStream(region), correlation, None);
    QuietInsert(t, region, CommandAccepted, CommandStream(region), correlation, None);
    RouteSilent(s, region, correlation, targets, |targets|);
    BoardOnly(t, Ingress(t, region, correlation, targets));
  }

  lemma CancelRunConsistent(t: Tables, region: Id, correlation: Id, key: Id, digest: Id)
    requires Consistent(t)
    ensures Consistent(CancelRun(t, region, correlation, key, digest).0)
  {
    hide Sound, WinnerLast, SubmissionsValid, Published, Sequenced, Accounted, StepsTo, CompletesNothing, CancelAll,
      RunExecutions, RunDeliveries;
    CancelRunSound(t, region, correlation, key, digest);
    var u := t.(cancellations := t.cancellations[(region, key) := digest]);
    InsertSequenced(u, region, CancelRequested, CommandStream(region), correlation, None);
    QuietInsert(u, region, CancelRequested, CommandStream(region), correlation, None);
    QuietWhenEqual(t, t);
    BoardOnly(t, CancelRun(t, region, correlation, key, digest).0);
  }

  lemma SettleRegionConsistent(t: Tables, region: Id)
    requires Consistent(t)
    ensures Consistent(SettleRegion(t, region))
  {
    hide Sound, WinnerLast, SubmissionsValid, Published, Sequenced, Accounted, StepsTo, CompletesNothing, Quiet,
      CancelAll, RegionExecutions, RegionDeliveries;
    SettleRegionSound(t, region);
    QuietWhenEqual(t, SettleRegion(t, region));
    BoardOnly(t, SettleRegion(t, region));
  }

  lemma AbandonConsistent(t: Tables, a: Id, now: Time)
    requires Consistent(t)
    ensures Consistent(AbandonExpired(t, a, now).0)
  {
    hide Sound, WinnerLast, SubmissionsValid, Published, Sequenced, Accounted, StepsTo, CompletesNothing, Quiet, Close,
      Retry;
    AbandonSound(t, a, now);
    QuietWhenEqual(t, AbandonExpired(t, a, now).0);
    BoardOnly(t, AbandonExpired(t, a, now).0);
  }

  lemma PresentsActive(t: Tables, r: Result)
    requires Presents(t, r.executionId, r.attemptId, r.leaseToken, r.epoch)
    ensures r.attemptId in t.board.attempts && t.board.attempts[r.attemptId].execution == r.executionId
  {
  }

  lemma UsageUncommitted(m: map<Id, Submission>, a: Id, x: Submission, k: Id, c: Counter)
    requires a !in m && !x.committed
    ensures UsageOf(m[a := x], k, c) == UsageOf(m, k, c)
  {
  }

  lemma UsageDiscarded(m: map<Id, Submission>, a: Id, k: Id, c: Counter)
    requires a in m && !m[a].committed
    ensures UsageOf(m - {a}, k, c) == UsageOf(m, k, c)
  {
  }

  lemma AttemptBelow(t: Tables, a: Id)
    requires Sound(t) && a in t.board.attempts
    ensures a < t.nextId
  {
    hide Authority;
  }

  lemma HandoffParts(t: Tables, r: Result, digest: Id, stagedValid: bool)
    requires Sound(t) && Published(t)
    ensures Sound(Handoff(t, r, digest, stagedValid)) && Published(Handoff(t, r, digest, stagedValid))
  {
    hide Authority, Allocated, OutputsBy, AnnouncedBy, Publishes;
    Unmoved(t, t);
  }

  lemma HandoffRecords(t: Tables, r: Result, digest: Id, stagedValid: bool)
    requires SubmissionsValid(t)
    ensures SubmissionsValid(Handoff(t, r, digest, stagedValid))
  {
  }

  lemma HandoffAccounts(t: Tables, r: Result, digest: Id, stagedValid: bool)
    requires Sound(t) && Accounted(t)
    ensures Accounted(Handoff(t, r, digest, stagedValid))
  {
    hide Authority, Allocated, Total, Owed, UsageOf;
    var s := Handoff(t, r, digest, stagedValid);
    if s != t {
      PresentsActive(t, r);
      AttemptBelow(t, r.attemptId);
      forall k: Id, c ensures UsageOf(s.submissions, k, c) == UsageOf(t.submissions, k, c) {
        UsageUncommitted(t.submissions, r.attemptId, Submission(digest, r, false), k, c);
      }
      AccountedKept(t, s);
    }
  }

  lemma HandoffConsistent(t: Tables, r: Result, digest: Id, stagedValid: bool)
    requires Consistent(t)
    ensures Consistent(Handoff(t, r, digest, stagedValid))
  {
    hide Sound, WinnerLast, Sequenced, Published, SubmissionsValid, Accounted, Presents;
    HandoffParts(t, r, digest, stagedValid);
    HandoffRecords(t, r, digest, stagedValid);
    HandoffAccounts(t, r, digest, stagedValid);
  }

  lemma DiscardParts(t: Tables, a: Id, digest: Id)
    requires Sound(t) && Published(t) && SubmissionsValid(t)
    ensures Sound(Discard(t, a, digest)) && Published(Discard(t, a, digest)) && SubmissionsValid(Discard(t, a, digest))
  {
    hide Authority, Allocated, OutputsBy, AnnouncedBy, Publishes;
  }

  lemma DiscardAccounts(t: Tables, a: Id, digest: Id)
    requires Accounted(t)
    ensures Accounted(Discard(t, a, digest))
  {
    hide Total, Owed, UsageOf;
    var s := Discard(t, a, digest);
    if s != t {
      forall k: Id, c ensures UsageOf(s.submissions, k, c) == UsageOf(t.submissions, k, c) {
        UsageDiscarded(t.submissions, a, k, c);
      }
      AccountedKept(t, s);
    }
  }

  lemma DiscardConsistent(t: Tables, a: Id, digest: Id)
    requires Consistent(t)
    ensures Consistent(Discard(t, a, digest))
  {
    hide Sound, WinnerLast, Sequenced, Published, SubmissionsValid, Accounted;
    DiscardParts(t, a, digest);
    DiscardAccounts(t, a, digest);
  }

  // ---------------------------------------------------------------- the commit

  lemma FailKeepsOthers(t: Tables, r: Result)
    requires Attached(t.board, r.attemptId, r.executionId)
    ensures var s := FailOrRetry(t, r).0;
            && s.outputs == t.outputs && s.events == t.events && s.streams == t.streams && s.ledger == t.ledger
            && s.submissions == t.submissions && s.regions == t.regions && s.nextId >= t.nextId
            && r.attemptId in s.board.attempts
            && (t.nextId != r.attemptId ==> s.board.attempts[r.attemptId].status.Failed?)
  {
  }

  lemma CompleteRow(t: Tables, r: Result)
    requires Attached(t.board, r.attemptId, r.executionId)
    ensures var s := Complete(t, r);
            && s.board.attempts == t.board.attempts[r.attemptId :=
               Ended(t.board.attempts[r.attemptId], AttemptStatus.Completed, None)]
            && s.board.executions == t.board.executions[r.executionId :=
               t.board.executions[r.executionId].(status := ExecutionStatus.Completed, failure := None)]
  {
    PublishResultKeepsRows(t, r);
  }

  lemma WinnerCloses(b: Board, c: Board, a: Id)
    requires WinnerLast(b) && RowsValid(b) && Numbered(b.attempts) && a in b.attempts && Live(b.attempts[a].status)
    requires b.attempts[a].execution in b.executions && b.executions[b.attempts[a].execution].status.Running?
    requires c.attempts == b.attempts[a := Ended(b.attempts[a], AttemptStatus.Completed, None)]
    requires c.executions == b.executions[b.attempts[a].execution :=
               b.executions[b.attempts[a].execution].(status := ExecutionStatus.Completed, failure := None)]
    ensures WinnerLast(c)
  {
    LiveAlone(b, a);
    forall x | Won(c, x)
      ensures c.attempts[x].execution in c.executions && c.executions[c.attempts[x].execution].status.Completed?
      ensures forall y :: y in c.attempts && y != x && c.attempts[y].execution == c.attempts[x].execution ==>
              c.attempts[y].number < c.attempts[x].number
    {
      if x != a { assert Won(b, x); }
    }
  }

  /** The submission row a commit leaves. */
  function RecordOf(t: Tables, r: Result, digest: Id): Submission {
    if r.attemptId in t.submissions then t.submissions[r.attemptId].(committed := true) else Submission(digest, r, true)
  }

  ghost predicate Admitted(t: Tables, r: Result, digest: Id) {
    && Attached(t.board, r.attemptId, r.executionId) && Active(t.board.attempts[r.attemptId].status)
    && t.board.executions[r.executionId].status.Running? && UsageValid(r.usage) && !r.status.Cancelled?
    && (r.attemptId in t.submissions ==>
       !t.submissions[r.attemptId].committed && t.submissions[r.attemptId].result == r)
  }

  /** What every commit does to submissions and ledger. */
  ghost predicate Books(t: Tables, s: Tables, r: Result, digest: Id, region: Id) {
    && UsageValid(r.usage)
    && s.submissions == t.submissions[r.attemptId := RecordOf(t, r, digest)]
    && s.ledger == t.ledger + UsageRows(region, r, |COUNTERS|)
    && s.nextId >= t.nextId
  }

  lemma CommitRecords(t: Tables, s: Tables, r: Result, digest: Id, region: Id)
    requires SubmissionsValid(t) && AttemptsEvolve(t.board, s.board) && Admitted(t, r, digest)
             && Books(t, s, r, digest, region)
    requires r.attemptId in s.board.attempts
    requires s.board.attempts[r.attemptId].status
             == (if r.status.Completed? then AttemptStatus.Completed else AttemptStatus.Failed)
    ensures SubmissionsValid(s)
  {
    hide UsageRows, UsageValid;
  }

  lemma CommittedStay(t: Tables, s: Tables, r: Result, digest: Id, region: Id)
    requires Admitted(t, r, digest) && Books(t, s, r, digest, region)
    ensures forall a :: a in t.submissions && t.submissions[a].committed ==>
            a in s.submissions && s.submissions[a] == t.submissions[a]
    ensures CommittedAs(s, r.attemptId, r.status) && s.submissions[r.attemptId].result == r
  {
    hide UsageRows, UsageValid;
  }

  lemma CommitAccounts(t: Tables, s: Tables, r: Result, digest: Id, region: Id)
    requires Sound(t) && Accounted(t) && Admitted(t, r, digest) && Books(t, s, r, digest, region)
    ensures Accounted(s)
  {
    hide Authority, Allocated, Accounted, UsageRows, UsageValid;
    AttemptBelow(t, r.attemptId);
    AccountedByCommit(t, s, r, RecordOf(t, r, digest), region);
  }

  lemma CompleteBooks(t: Tables, s: Tables, r: Result, digest: Id, region: Id)
    requires UsageValid(r.usage) && Attached(t.board, r.attemptId, r.executionId)
    requires s == Recorded(Complete(t.(ledger := t.ledger + UsageRows(region, r, |COUNTERS|)), r), r, digest)
    requires OutputsBy(t.outputs, r.attemptId) == [] && AnnouncedBy(t.events, r.attemptId) == []
    ensures Books(t, s, r, digest, region)
    ensures Publishes(OutputsBy(s.outputs, r.attemptId), AnnouncedBy(s.events, r.attemptId), r)
            && QuietExcept(t, s, r.attemptId)
  {
    hide UsageRows, UsageValid, PublishResult, OutputsBy, AnnouncedBy, Publishes, Close;
    var u := t.(ledger := t.ledger + UsageRows(region, r, |COUNTERS|));
    PublishResultPublishes(u, r);
  }

  lemma CompletePublishes(t: Tables, s: Tables, r: Result, digest: Id, region: Id)
    requires Published(t) && Admitted(t, r, digest) && AttemptsEvolve(t.board, s.board)
             && Books(t, s, r, digest, region) && r.status.Completed?
    requires Publishes(OutputsBy(s.outputs, r.attemptId), AnnouncedBy(s.events, r.attemptId), r)
             && QuietExcept(t, s, r.attemptId)
    requires s.board.attempts == t.board.attempts[r.attemptId :=
               Ended(t.board.attempts[r.attemptId], AttemptStatus.Completed, None)]
    ensures Published(s)
  {
    CommittedStay(t, s, r, digest, region);
    hide Published, Books, OutputsBy, AnnouncedBy, Publishes, QuietExcept, CommittedAs, AttemptsEvolve;
    PublishedByCommit(t, s, r);
  }

  lemma CompleteSequenced(t: Tables, s: Tables, r: Result, digest: Id, region: Id)
    requires UsageValid(r.usage) && Attached(t.board, r.attemptId, r.executionId) && Sequenced(t.events, t.streams)
    requires s == Recorded(Complete(t.(ledger := t.ledger + UsageRows(region, r, |COUNTERS|)), r), r, digest)
    ensures Sequenced(s.events, s.streams)
  {
    hide UsageRows, UsageValid, PublishResult, Sequenced, Close;
    PublishResultSequenced(t.(ledger := t.ledger + UsageRows(region, r, |COUNTERS|)), r);
  }

  lemma CompletedRows(t: Tables, s: Tables, r: Result, digest: Id, region: Id)
    requires UsageValid(r.usage) && Attached(t.board, r.attemptId, r.executionId)
    requires s == Recorded(Complete(t.(ledger := t.ledger + UsageRows(region, r, |COUNTERS|)), r), r, digest)
    ensures s.board.attempts == t.board.attempts[r.attemptId :=
               Ended(t.board.attempts[r.attemptId], AttemptStatus.Completed, None)]
    ensures s.board.executions == t.board.executions[r.executionId :=
               t.board.executions[r.executionId].(status := ExecutionStatus.Completed, failure := None)]
  {
    hide UsageRows, UsageValid, Complete;
    CompleteRow(t.(ledger := t.ledger + UsageRows(region, r, |COUNTERS|)), r);
  }

  lemma StepEvolves(t: Tables, s: Tables)
    requires StepsTo(t, s)
    ensures Sound(s) && AttemptsEvolve(t.board, s.board)
  {
    hide Sound, ExecutionsEvolve, AttemptsEvolve, DeliveriesEvolve, AddsQueued, LeasesAhead;
  }

  lemma CommitCompletedConsistent(t: Tables, s: Tables, r: Result, digest: Id, region: Id)
    requires Consistent(t) && Admitted(t, r, digest) && r.status.Completed?
    requires StepsTo(t, s)
    requires s == Recorded(Complete(t.(ledger := t.ledger + UsageRows(region, r, |COUNTERS|)), r), r, digest)
    ensures Consistent(s)
  {
    hide Sound, Published, Sequenced, WinnerLast, SubmissionsValid, Accounted, StepsTo, AttemptsEvolve;
    hide UsageRows, Complete, Recorded, UsageValid, OutputsBy, AnnouncedBy, Publishes, QuietExcept, Books;
    StepEvolves(t, s);
    Unpublished(t, r.attemptId);
    CompleteBooks(t, s, r, digest, region);
    CompletedRows(t, s, r, digest, region);
    CompletePublishes(t, s, r, digest, region);
    CompleteSequenced(t, s, r, digest, region);
    CommitAccounts(t, s, r, digest, region);
    CommitRecords(t, s, r, digest, region);
    CompletedWins(t, s, r);
  }

  lemma Unpublished(t: Tables, a: Id)
    requires Published(t) && a in t.board.attempts && Active(t.board.attempts[a].status)
    ensures OutputsBy(t.outputs, a) == [] && AnnouncedBy(t.events, a) == []
  {
    assert !Won(t.board, a);
  }

  lemma CompletedWins(t: Tables, s: Tables, r: Result)
    requires Sound(t) && WinnerLast(t.board) && Attached(t.board, r.attemptId, r.executionId)
    requires Active(t.board.attempts[r.attemptId].status) && t.board.executions[r.executionId].status.Running?
    requires s.board.attempts == t.board.attempts[r.attemptId :=
               Ended(t.board.attempts[r.attemptId], AttemptStatus.Completed, None)]
    requires s.board.executions == t.board.executions[r.executionId :=
               t.board.executions[r.executionId].(status := ExecutionStatus.Completed, failure := None)]
    ensures WinnerLast(s.board)
  {
    hide WinnerLast, RowsValid, Numbered, InputsOwned, LiveHolds, RunningLives, InputsSettled, UnclaimedIdle, Allocated;
    WinnerCloses(t.board, s.board, r.attemptId);
  }

  lemma FailedBooks(t: Tables, s: Tables, r: Result, digest: Id, region: Id)
    requires Sound(t) && Admitted(t, r, digest)
    requires s == Recorded(FailOrRetry(t.(ledger := t.ledger + UsageRows(region, r, |COUNTERS|)), r).0, r, digest)
    ensures Books(t, s, r, digest, region)
    ensures s.outputs == t.outputs && s.events == t.events && s.streams == t.streams
    ensures r.attemptId in s.board.attempts && s.board.attempts[r.attemptId].status.Failed?
  {
    hide Sound, UsageRows, UsageValid, FailOrRetry;
    FailKeepsOthers(t.(ledger := t.ledger + UsageRows(region, r, |COUNTERS|)), r);
    AttemptBelow(t, r.attemptId);
  }

  lemma FailedPublishes(t: Tables, s: Tables, r: Result, digest: Id, region: Id)
    requires Published(t) && Admitted(t, r, digest) && AttemptsEvolve(t.board, s.board)
             && CompletesNothing(t.board, s.board)
    requires Books(t, s, r, digest, region) && s.outputs == t.outputs && s.events == t.events
    ensures Published(s)
  {
    hide Published, Books, Admitted, AttemptsEvolve, CompletesNothing, Quiet;
    CommittedStay(t, s, r, digest, region);
    QuietWhenEqual(t, s);
    PublishedKept(t, s);
  }

  lemma CommitFailedConsistent(t: Tables, s: Tables, r: Result, digest: Id, region: Id)
    requires Consistent(t) && Admitted(t, r, digest) && r.status.Failed?
    requires StepsTo(t, s) && CompletesNothing(t.board, s.board)
    requires s == Recorded(FailOrRetry(t.(ledger := t.ledger + UsageRows(region, r, |COUNTERS|)), r).0, r, digest)
    ensures Consistent(s)
  {
    hide Sound, Published, Sequenced, WinnerLast, SubmissionsValid, Accounted, StepsTo, AttemptsEvolve,
      CompletesNothing;
    hide UsageRows, FailOrRetry, Recorded, UsageValid, Books;
    StepEvolves(t, s);
    FailedBooks(t, s, r, digest, region);
    FailedPublishes(t, s, r, digest, region);
    CommitAccounts(t, s, r, digest, region);
    CommitRecords(t, s, r, digest, region);
    WinnerStepOf(t, s);
  }

  lemma CommitConsistent(t: Tables, r: Result, digest: Id, allowExpired: bool, verdict: Verdict)
    requires Consistent(t) && SameDigestSameResult(t, r, digest)
    ensures Consistent(CommitTransaction(t, r, digest, allowExpired, verdict).0)
  {
    hide Sound, Published, Sequenced, WinnerLast, SubmissionsValid, Accounted, StepsTo, CompletesNothing, UsageRows,
      FailOrRetry, Complete, Refusal, UsageValid;
    if Refusal(t, r, digest, allowExpired, verdict).None? {
      AdmittedIsActive(t, r, digest, allowExpired, verdict);
      CommitSound(t, r, digest, allowExpired, verdict);
      var region := t.board.executions[r.executionId].region;
      var s := CommitTransaction(t, r, digest, allowExpired, verdict).0;
      if r.status.Completed? {
        CommitCompletedConsistent(t, s, r, digest, region);
      } else {
        FailedOutcome(t.(ledger := t.ledger + UsageRows(region, r, |COUNTERS|)), r);
        CommitFailedConsistent(t, s, r, digest, region);
      }
    }
  }

  lemma FailedOutcome(t: Tables, r: Result)
    requires Attached(t.board, r.attemptId, r.executionId)
    ensures FailOrRetry(t, r).1 in {RetryScheduled, Outcome.DeadLettered}
  {
  }
}
