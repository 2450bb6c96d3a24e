/** What startup recovery does to the tables, as one sequential pass: replay a batch of submitted
    results, abandon what is expired, expose orphaned deliveries, settle cancelling regions. */
module Recovery {
  import opened Basics
  import opened Board
  import opened AuthorityProofs
  import opened Evolution
  import opened RuntimeTables
  import opened RuntimeSafety
  import opened Publication
  import opened RuntimeConsistency
  import opened RuntimeRuns
  import opened RuntimeGuarantees
  import opened Fencing
  import opened Ordering

  predicate Distinct(xs: seq<Id>) { forall i, j :: 0 <= i < j < |xs| ==> xs[i] != xs[j] }

  function Pending(t: Tables): set<Id> {
    set a | a in t.submissions && !t.submissions[a].committed
  }

  /** `xs` lists the uncommitted submissions, in whatever order they were created. */
  ghost predicate Lists(xs: seq<Id>, t: Tables) {
    Distinct(xs) && forall a :: a in xs <==> a in Pending(t)
  }

  function Batch(xs: seq<Id>, limit: nat): seq<Id> {
    if |xs| <= limit then xs else xs[..limit]
  }

  // ---------------------------------------------------------------- replaying submitted results

  datatype Progress = Progress(tables: Tables, committed: nat, rejected: nat, thrown: bool)

  /** One submission.  A rejected one is counted and skipped; any other error ends the recovery. */
  function ReplayAttempt(p: Progress, a: Id, verdict: Verdict): Progress {
    if p.thrown || a !in p.tables.submissions then p.(thrown := true)
    else
      var x := p.tables.submissions[a];
      var (s, outcome) := Commit(p.tables, x.result, x.digest, true, verdict);
      if outcome.Aborted? then p.(tables := s, thrown := true)
      else if outcome.Rejected? then p.(tables := s, rejected := p.rejected + 1)
      else p.(tables := s, committed := p.committed + 1)
  }

  /** The first `n` submissions of the batch. */
  function Replay(t: Tables, batch: seq<Id>, n: nat, verdicts: Id -> Verdict): Progress
    requires n <= |batch|
  {
    if n == 0 then Progress(t, 0, 0, false)
    else ReplayAttempt(Replay(t, batch, n - 1, verdicts), batch[n - 1], verdicts(batch[n - 1]))
  }

  /** What the checks say about a stored submission when an expired lease is allowed. */
  function Fate(t: Tables, a: Id, verdicts: Id -> Verdict): Option<Outcome>
    requires a in t.submissions
  {
    Refusal(t, t.submissions[a].result, t.submissions[a].digest, true, verdicts(a))
  }

  /** The same with other artifact rows. */
  function FateWith(t: Tables, artifacts: map<Id, ArtifactKind>, a: Id, verdicts: Id -> Verdict): Option<Outcome>
    requires a in t.submissions
  {
    Fate(t.(artifacts := artifacts), a, verdicts)
  }

  /** Everything `Fate` looks at is the same in `s`, but for the artifact rows. */
  ghost predicate Undisturbed(t: Tables, s: Tables, a: Id) {
    && s.regions == t.regions && s.clock == t.clock
    && a in t.submissions && a in s.submissions && s.submissions[a] == t.submissions[a]
    && a in t.board.attempts && a in s.board.attempts && s.board.attempts[a] == t.board.attempts[a]
    && var e := t.board.attempts[a].execution;
       && e in t.board.executions && e in s.board.executions
       && (Active(t.board.attempts[a].status) ==>
             && s.board.executions[e] == t.board.executions[e]
             && forall d :: d in t.board.executions[e].inputs ==>
                  d in t.board.deliveries && d in s.board.deliveries && s.board.deliveries[d] == t.board.deliveries[d])
  }

  lemma UndisturbedOn(t: Tables, u: Tables, s: Tables, a: Id)
    requires Undisturbed(t, u, a) && Undisturbed(u, s, a)
    ensures Undisturbed(t, s, a)
  {
  }

  lemma UndisturbedKnown(t: Tables, s: Tables, a: Id)
    requires Undisturbed(t, s, a)
    ensures a in t.submissions && a in s.submissions && s.submissions[a] == t.submissions[a]
  {
  }

  lemma UndisturbedAtRest(t: Tables, a: Id)
    requires Sound(t) && SubmissionsValid(t) && a in t.submissions
    ensures Undisturbed(t, t, a)
  {
    hide Numbered, LiveHolds, RunningLives, InputsSettled, UnclaimedIdle, Allocated;
  }

  lemma SameFate(t: Tables, s: Tables, a: Id, verdicts: Id -> Verdict)
    requires Undisturbed(t, s, a) && SubmissionsValid(t)
    ensures a in s.submissions && Fate(s, a, verdicts) == FateWith(t, s.artifacts, a, verdicts)
  {
    hide UsageValid, RefsDistinct, OutputsDistinct, Conflicted;
    var r := t.submissions[a].result;
    if Active(t.board.attempts[a].status) {
      var e := t.board.executions[r.executionId];
      assert forall d :: d in e.inputs ==>
        LeasedUnder(s.board, d, r.leaseToken) == LeasedUnder(t.board, d, r.leaseToken);
    }
  }

  /** A commit changes the rows of its own attempt, execution and inputs and adds new rows. */
  ghost predicate Touches(t: Tables, s: Tables, a: Id, e: Id) {
    && s.regions == t.regions && s.clock == t.clock
    && e in t.board.executions
    && (forall x :: x in t.board.attempts && x != a ==>
       x in s.board.attempts && s.board.attempts[x] == t.board.attempts[x])
    && (forall x :: x in t.board.executions && x != e ==>
       x in s.board.executions && s.board.executions[x] == t.board.executions[x])
    && (forall d :: d in t.board.deliveries && d !in t.board.executions[e].inputs ==>
       d in s.board.deliveries && s.board.deliveries[d] == t.board.deliveries[d])
    && (forall x :: x in t.submissions && x != a ==> x in s.submissions && s.submissions[x] == t.submissions[x])
    && (forall x :: x in s.submissions && x != a ==> x in t.submissions)
  }

  lemma CompleteTouches(t: Tables, r: Result, digest: Id)
    requires Sound(t) && Attached(t.board, r.attemptId, r.executionId)
    ensures Touches(t, Recorded(Complete(t, r), r, digest), r.attemptId, r.executionId)
  {
    hide Sound, PublishResult;
    PublishResultSound(t, r);
    PublishResultElsewhere(t, r);
    PublishResultKeepsRows(t, r);
  }

  lemma FailTouches(t: Tables, r: Result, digest: Id)
    requires Sound(t) && Attached(t.board, r.attemptId, r.executionId)
    ensures Touches(t, Recorded(FailOrRetry(t, r).0, r, digest), r.attemptId, r.executionId)
  {
    hide Authority;
    assert t.nextId !in t.board.attempts;
  }

  lemma CommitTouches(t: Tables, r: Result, digest: Id, allowExpired: bool, verdict: Verdict)
    requires Sound(t) && Refusal(t, r, digest, allowExpired, verdict).None?
    ensures Touches(t, CommitTransaction(t, r, digest, allowExpired, verdict).0, r.attemptId, r.executionId)
    ensures Applied(CommitTransaction(t, r, digest, allowExpired, verdict).1)
  {
    hide Sound, Complete, FailOrRetry, Refusal, UsageRows, UsageValid, Touches, Recorded;
    AdmittedIsActive(t, r, digest, allowExpired, verdict);
    var u := t.(ledger := t.ledger + UsageRows(t.board.executions[r.executionId].region, r, |COUNTERS|));
    LedgerAside(t, u);
    if r.status.Completed? {
      CompleteTouches(u, r, digest);
      TouchesAside(t, u, Recorded(Complete(u, r), r, digest), r.attemptId, r.executionId);
    } else {
      FailedOutcome(u, r);
      FailTouches(u, r, digest);
      TouchesAside(t, u, Recorded(FailOrRetry(u, r).0, r, digest), r.attemptId, r.executionId);
    }
  }

  lemma LedgerAside(t: Tables, u: Tables)
    requires Sound(t) && u.board == t.board && u.nextId == t.nextId
    ensures Sound(u)
  {
    hide Authority, Allocated;
  }

  lemma TouchesAside(t: Tables, u: Tables, s: Tables, a: Id, e: Id)
    requires Touches(u, s, a, e) && u.board == t.board && u.submissions == t.submissions && u.regions == t.regions
             && u.clock == t.clock
    ensures Touches(t, s, a, e)
  {
  }

  /** The inputs of an execution are deliveries no other execution has. */
  lemma InputsApart(b: Board, e: Id, f: Id)
    requires InputsOwned(b) && e in b.executions && f in b.executions && e != f
    ensures forall d :: d in b.executions[e].inputs ==> d in b.deliveries && d !in b.executions[f].inputs
  {
  }

  /** Replaying one submission does not disturb another. */
  lemma OthersUndisturbed(t: Tables, s: Tables, a: Id, x: Id)
    requires Sound(t) && SubmissionsValid(t) && x in t.submissions && x != a
    requires a in t.board.attempts && Active(t.board.attempts[a].status) && Evolves(t.board, s.board)
    requires Touches(t, s, a, t.board.attempts[a].execution)
    ensures Undisturbed(t, s, x)
  {
    hide Sound, Evolves, SubmissionsValid, Touches, Undisturbed;
    UndisturbedAtRest(t, x);
    ActiveApart(t, a, x);
    TouchedApart(t, s, a, x);
  }

  lemma ActiveApart(t: Tables, a: Id, x: Id)
    requires Sound(t) && Undisturbed(t, t, x) && x != a && a in t.board.attempts && Active(t.board.attempts[a].status)
    ensures t.board.attempts[a].execution in t.board.executions
    ensures Active(t.board.attempts[x].status) ==>
              && t.board.attempts[x].execution != t.board.attempts[a].execution
              && InputsOf(t.board, x) !! InputsOf(t.board, a)
  {
    hide InputsOwned, LiveHolds, RunningLives, InputsSettled, UnclaimedIdle, Allocated, Numbered;
    if Active(t.board.attempts[x].status) {
      LiveAlone(t.board, a);
      InputsApart(t.board, t.board.attempts[x].execution, t.board.attempts[a].execution);
    }
  }

  lemma TouchedApart(t: Tables, s: Tables, a: Id, x: Id)
    requires Undisturbed(t, t, x) && x != a && a in t.board.attempts && Evolves(t.board, s.board)
    requires Touches(t, s, a, t.board.attempts[a].execution)
    requires Active(t.board.attempts[x].status) ==>
               && t.board.attempts[x].execution != t.board.attempts[a].execution
               && InputsOf(t.board, x) !! InputsOf(t.board, a)
    ensures Undisturbed(t, s, x)
  {
    hide Evolves;
    StaysKnown(t.board, s.board, t.board.attempts[x].execution);
  }

  lemma StaysKnown(b: Board, c: Board, f: Id)
    requires Evolves(b, c) && f in b.executions
    ensures f in c.executions
  {
  }

  lemma DiscardUndisturbed(t: Tables, a: Id, digest: Id, x: Id)
    requires Undisturbed(t, t, x) && x != a
    ensures Undisturbed(t, Discard(t, a, digest), x)
  {
  }

  // ---------------------------------------------------------------- one replayed submission

  /** One stored submission, presented with its own digest: applied, or rejected and deleted, or
      aborted with nothing changed, exactly as its fate says. */
  lemma ReplayOne(t: Tables, a: Id, verdicts: Id -> Verdict)
    requires Consistent(t) && a in Pending(t)
    ensures var x := t.submissions[a];
            var (s, outcome) := Commit(t, x.result, x.digest, true, verdicts(a));
            && Consistent(s)
            && (if Fate(t, a, verdicts).None? then Applied(outcome) && a in s.submissions && s.submissions[a].committed
                else outcome == Fate(t, a, verdicts).value && (outcome.Rejected? || outcome.Aborted?))
            && (outcome.Rejected? ==> a !in s.submissions)
            && (outcome.Aborted? ==> s == t)
            && Evolves(t.board, s.board)
            && (forall c :: c in t.submissions && c != a ==> Undisturbed(t, s, c))
            && (forall c :: c in s.submissions ==> c in t.submissions)
  {
    hide Sound, WinnerLast, Published, Sequenced, Accounted, SubmissionsValid, CommitTransaction, Undisturbed, Evolves,
      Refusal;
    var x := t.submissions[a];
    StoredIsSame(t, a);
    CommitConsistent(t, x.result, x.digest, true, verdicts(a));
    ReplayFate(t, a, verdicts);
    var s := CommitTransaction(t, x.result, x.digest, true, verdicts(a)).0;
    DiscardConsistent(s, a, x.digest);
    CommitEvolves(t, x.result, x.digest, true, verdicts(a));
    ReplayOthers(t, a, verdicts);
  }

  lemma CommitEvolves(t: Tables, r: Result, digest: Id, allowExpired: bool, verdict: Verdict)
    requires Sound(t)
    ensures Evolves(t.board, CommitTransaction(t, r, digest, allowExpired, verdict).0.board)
  {
    hide CommitTransaction, Sound, Evolves, AddsQueued, LeasesAhead;
    CommitSound(t, r, digest, allowExpired, verdict);
  }

  lemma ReplayFate(t: Tables, a: Id, verdicts: Id -> Verdict)
    requires Sound(t) && SubmissionsValid(t) && a in Pending(t)
    ensures var x := t.submissions[a];
            var (s, outcome) := CommitTransaction(t, x.result, x.digest, true, verdicts(a));
            && (if Fate(t, a, verdicts).None? then Applied(outcome) && a in s.submissions && s.submissions[a].committed
                else s == t && outcome == Fate(t, a, verdicts).value && (outcome.Rejected? || outcome.Aborted?))
            && (outcome.Rejected? ==> a !in Discard(s, a, x.digest).submissions)
  {
    hide Sound, CommitTransaction;
    var x := t.submissions[a];
    if Fate(t, a, verdicts).None? {
      hide SubmissionsValid, Refusal;
      StoredIsSameAttempt(t, a);
      CommitTouches(t, x.result, x.digest, true, verdicts(a));
      AppliedRecords(t, x.result, x.digest, true, verdicts(a));
    } else {
      RefusedUnchanged(t, x.result, x.digest, true, verdicts(a));
    }
  }

  lemma StoredIsSameAttempt(t: Tables, a: Id)
    requires SubmissionsValid(t) && a in t.submissions
    ensures t.submissions[a].result.attemptId == a
  {
  }

  lemma RefusedUnchanged(t: Tables, r: Result, digest: Id, allowExpired: bool, verdict: Verdict)
    requires Refusal(t, r, digest, allowExpired, verdict).Some?
    ensures CommitTransaction(t, r, digest, allowExpired, verdict)
            == (t, Refusal(t, r, digest, allowExpired, verdict).value)
  {
    hide Refusal, Complete, FailOrRetry, UsageRows, UsageValid;
  }

  lemma ReplayOthers(t: Tables, a: Id, verdicts: Id -> Verdict)
    requires Sound(t) && SubmissionsValid(t) && a in Pending(t)
    ensures var x := t.submissions[a];
            var s := Commit(t, x.result, x.digest, true, verdicts(a)).0;
            && (forall c :: c in t.submissions && c != a ==> Undisturbed(t, s, c))
            && (forall c :: c in s.submissions ==> c in t.submissions)
  {
    hide Sound, CommitTransaction, Undisturbed, Evolves, Refusal, SubmissionsValid;
    var x := t.submissions[a];
    StoredIsSameAttempt(t, a);
    if Fate(t, a, verdicts).None? {
      CommitTouches(t, x.result, x.digest, true, verdicts(a));
      CommitEvolves(t, x.result, x.digest, true, verdicts(a));
      AdmittedIsActive(t, x.result, x.digest, true, verdicts(a));
      hide Touches;
      var s := CommitTransaction(t, x.result, x.digest, true, verdicts(a)).0;
      forall c | c in t.submissions && c != a ensures Undisturbed(t, s, c) {
        OthersUndisturbed(t, s, a, c);
      }
      TouchedKeys(t, s, a, x.result.executionId);
    } else {
      RefusedUnchanged(t, x.result, x.digest, true, verdicts(a));
      forall c | c in t.submissions && c != a
        ensures Undisturbed(t, t, c) && Undisturbed(t, Discard(t, a, x.digest), c) {
        UndisturbedAtRest(t, c);
        DiscardUndisturbed(t, a, x.digest, c);
      }
    }
  }

  lemma TouchedKeys(t: Tables, s: Tables, a: Id, e: Id)
    requires Touches(t, s, a, e) && a in t.submissions
    ensures forall c :: c in s.submissions ==> c in t.submissions
  {
  }

  // ---------------------------------------------------------------- the whole batch

  /** The fate of a batched submission at its turn: its own rows as they were at the start, and the
      artifact rows that the earlier submissions of the batch have left. */
  function Met(t: Tables, batch: seq<Id>, n: nat, verdicts: Id -> Verdict): Option<Outcome>
    requires n < |batch| && batch[n] in t.submissions
  {
    FateWith(t, Replay(t, batch, n, verdicts).tables.artifacts, batch[n], verdicts)
  }

  /** Where a batch stands after `n` submissions. */
  ghost predicate Replayed(t: Tables, s: Tables, batch: seq<Id>, n: nat, verdicts: Id -> Verdict) {
    && n <= |batch|
    && Consistent(s) && Evolves(t.board, s.board)
    && (forall i :: 0 <= i < n ==>
          && batch[i] in t.submissions
          && (if Met(t, batch, i, verdicts).None? then batch[i] in s.submissions && s.submissions[batch[i]].committed
              else Met(t, batch, i, verdicts).value.Rejected? && batch[i] !in s.submissions))
    && (forall c :: c in t.submissions && c !in batch[..n] ==> Undisturbed(t, s, c))
    && (forall c :: c in s.submissions ==> c in t.submissions)
  }

  /** Replaying it now would abort. */
  ghost predicate Poisoned(t: Tables, a: Id, verdicts: Id -> Verdict) {
    a in t.submissions && Fate(t, a, verdicts) == Some(Aborted)
  }

  /** Replaying it at its turn aborts. */
  ghost predicate PoisonedAt(t: Tables, batch: seq<Id>, n: nat, verdicts: Id -> Verdict) {
    n < |batch| && batch[n] in t.submissions && Met(t, batch, n, verdicts) == Some(Aborted)
  }

  lemma BatchApart(batch: seq<Id>, n: nat)
    requires Distinct(batch) && n < |batch|
    ensures batch[n] !in batch[..n]
    ensures forall c :: c in batch[..n + 1] <==> c in batch[..n] || c == batch[n]
  {
  }

  lemma ReplayedFirst(t: Tables, batch: seq<Id>, verdicts: Id -> Verdict)
    requires Consistent(t)
    ensures Replayed(t, t, batch, 0, verdicts)
  {
    hide WinnerLast, Published, Sequenced, Accounted, Sound, Undisturbed, Evolves, SubmissionsValid, AddsQueued,
      LeasesAhead;
    ConsistentSound(t);
    forall c | c in t.submissions ensures Undisturbed(t, t, c) { UndisturbedAtRest(t, c); }
  }

  lemma ReplayedOn(t: Tables, u: Tables, s: Tables, batch: seq<Id>, n: nat, verdicts: Id -> Verdict)
    requires n < |batch| && Distinct(batch) && Replayed(t, u, batch, n, verdicts) && batch[n] in t.submissions
    requires Consistent(s) && Evolves(u.board, s.board)
    requires if Met(t, batch, n, verdicts).None? then batch[n] in s.submissions && s.submissions[batch[n]].committed
             else Met(t, batch, n, verdicts).value.Rejected? && batch[n] !in s.submissions
    requires forall c :: c in u.submissions && c != batch[n] ==> Undisturbed(u, s, c)
    requires forall c :: c in s.submissions ==> c in u.submissions
    ensures Replayed(t, s, batch, n + 1, verdicts)
  {
    hide Consistent, Evolves, Met, Undisturbed;
    BatchApart(batch, n);
    EvolvesOn(t.board, u.board, s.board);
    forall c | c in t.submissions && c !in batch[..n + 1] ensures Undisturbed(t, s, c) {
      UndisturbedKnown(t, u, c);
      UndisturbedOn(t, u, s, c);
    }
    forall c | c in u.submissions && c != batch[n] ensures c in s.submissions && s.submissions[c] == u.submissions[c] {
      UndisturbedKnown(u, s, c);
    }
    forall i | 0 <= i < n
      ensures if Met(t, batch, i, verdicts).None? then batch[i] in s.submissions && s.submissions[batch[i]].committed
              else Met(t, batch, i, verdicts).value.Rejected? && batch[i] !in s.submissions
    {
      assert batch[i] != batch[n];
    }
  }

  /** Replay ends early exactly when it meets a poisoned submission; otherwise every submission of the
      batch met its fate, and nothing the others depend on has changed but the artifact rows. */
  lemma {:induction false} ReplaySettles(t: Tables, batch: seq<Id>, n: nat, verdicts: Id -> Verdict)
    requires Consistent(t) && n <= |batch| && Distinct(batch) && forall a :: a in batch ==> a in Pending(t)
    ensures var p := Replay(t, batch, n, verdicts);
            && (p.thrown <==> exists i :: 0 <= i < n && PoisonedAt(t, batch, i, verdicts))
            && (!p.thrown ==> Replayed(t, p.tables, batch, n, verdicts) && p.committed + p.rejected == n)
            && (p.thrown ==> exists k :: 0 <= k < n && p.tables == Replay(t, batch, k, verdicts).tables
                                          && Replayed(t, p.tables, batch, k, verdicts)
                                          && PoisonedAt(t, batch, k, verdicts))
  {
    hide Consistent, Commit, Fate, Replayed, PoisonedAt;
    if n == 0 {
      ReplayedFirst(t, batch, verdicts);
    } else {
      ReplaySettles(t, batch, n - 1, verdicts);
      var p := Replay(t, batch, n - 1, verdicts);
      if !p.thrown { ReplayNext(t, p.tables, batch, n - 1, verdicts); }
    }
  }

  lemma ReplayNext(t: Tables, u: Tables, batch: seq<Id>, n: nat, verdicts: Id -> Verdict)
    requires n < |batch| && u == Replay(t, batch, n, verdicts).tables
    requires Replayed(t, u, batch, n, verdicts) && Distinct(batch) && batch[n] in Pending(t) && Consistent(t)
    ensures batch[n] in u.submissions
    ensures var x := u.submissions[batch[n]];
            var (s, outcome) := Commit(u, x.result, x.digest, true, verdicts(batch[n]));
            && (outcome.Aborted? <==> PoisonedAt(t, batch, n, verdicts))
            && (if outcome.Aborted? then s == u else Replayed(t, s, batch, n + 1, verdicts))
  {
    hide Commit, FateWith, Fate, Sound, WinnerLast, Published, Sequenced, Accounted, SubmissionsValid, Evolves, Replay;
    var a := batch[n];
    BatchApart(batch, n);
    assert Undisturbed(t, u, a);
    SameFate(t, u, a, verdicts);
    ReplayOne(u, a, verdicts);
    hide Undisturbed, Consistent, Replayed;
    var x := u.submissions[a];
    var (s, outcome) := Commit(u, x.result, x.digest, true, verdicts(a));
    if !outcome.Aborted? { ReplayedOn(t, u, s, batch, n, verdicts); }
  }

  // ---------------------------------------------------------------- abandoning, exposing, settling

  function Add(x: Recovered, y: Recovered): Recovered {
    Recovered(x.abandoned + y.abandoned, x.replacement + y.replacement, x.exposed + y.exposed, x.terminal + y.terminal)
  }

  /** One transaction for each of the first `n` listed attempts. */
  function AbandonEach(t: Tables, ids: seq<Id>, n: nat, now: Time): (Tables, Recovered)
    requires n <= |ids|
  {
    if n == 0 then (t, Recovered(0, 0, 0, 0))
    else
      var (u, sum) := AbandonEach(t, ids, n - 1, now);
      var (s, one) := AbandonExpired(u, ids[n - 1], now);
      (s, Add(sum, one))
  }

  lemma AbandonKeepsOthers(t: Tables, a: Id, now: Time, x: Id)
    requires Sound(t) && x in t.board.attempts && x != a
    ensures x in AbandonExpired(t, a, now).0.board.attempts
    ensures AbandonExpired(t, a, now).0.board.attempts[x] == t.board.attempts[x]
  {
    hide Authority, Settle, Release, RunningAt;
    assert t.nextId !in t.board.attempts;
  }

  lemma AbandonElsewhere(t: Tables, a: Id, now: Time)
    ensures var s := AbandonExpired(t, a, now).0;
            s.clock == t.clock && s.regions == t.regions && s.submissions == t.submissions
  {
    hide AbandonExpired;
    AbandonBeside(t, a, now);
  }

  lemma StepsEvolve(t: Tables, s: Tables)
    requires StepsTo(t, s)
    ensures Sound(s) && Evolves(t.board, s.board)
  {
    hide Sound, Evolves, AddsQueued, LeasesAhead;
  }

  /** Each listed attempt is abandoned once, and is replaced or fails its execution; no attempt becomes
      expired meanwhile. */
  lemma {:induction false} AbandonsEach(t: Tables, ids: seq<Id>, n: nat, now: Time)
    requires Consistent(t) && n <= |ids| && now <= t.clock && Distinct(ids)
    requires forall a :: a in ids ==> Expired(t.board, a, now)
    ensures var (s, sum) := AbandonEach(t, ids, n, now);
            && Consistent(s) && Evolves(t.board, s.board)
            && s.clock == t.clock && s.regions == t.regions && s.submissions == t.submissions
            && sum.abandoned == n == sum.replacement + sum.terminal
            && ExpiredAt(s.board, now) <= ExpiredAt(t.board, now) - (set i | 0 <= i < n :: ids[i])
            && (forall i :: n <= i < |ids| ==> Expired(s.board, ids[i], now))
            && (forall i :: 0 <= i < n ==> ids[i] in s.board.attempts && s.board.attempts[ids[i]].status.Abandoned?)
  {
    hide Consistent, Expired, AbandonExpired, Evolves;
    if n == 0 {
      EvolvesHere(t);
    } else {
      AbandonsEach(t, ids, n - 1, now);
      var u := AbandonEach(t, ids, n - 1, now).0;
      AbandonsNext(u, ids, n - 1, now);
      EvolvesOn(t.board, u.board, AbandonExpired(u, ids[n - 1], now).0.board);
    }
  }

  lemma EvolvesHere(t: Tables)
    requires Consistent(t)
    ensures Evolves(t.board, t.board)
  {
    hide Consistent, Evolves, AddsQueued, LeasesAhead;
    ConsistentSound(t);
  }

  lemma AbandonsNext(u: Tables, ids: seq<Id>, n: nat, now: Time)
    requires Consistent(u) && n < |ids| && now <= u.clock && Distinct(ids)
    requires forall i :: n <= i < |ids| ==> Expired(u.board, ids[i], now)
    requires forall i :: 0 <= i < n ==> ids[i] in u.board.attempts && u.board.attempts[ids[i]].status.Abandoned?
    ensures var (s, one) := AbandonExpired(u, ids[n], now);
            && Consistent(s) && Evolves(u.board, s.board)
            && s.clock == u.clock && s.regions == u.regions && s.submissions == u.submissions
            && one.abandoned == 1 == one.replacement + one.terminal
            && ExpiredAt(s.board, now) <= ExpiredAt(u.board, now) - {ids[n]}
            && (forall i :: n < i < |ids| ==> Expired(s.board, ids[i], now))
            && (forall i :: 0 <= i <= n ==> ids[i] in s.board.attempts && s.board.attempts[ids[i]].status.Abandoned?)
  {
    hide WinnerLast, SubmissionsValid, Published, Sequenced, Accounted, AbandonExpired, Sound, Evolves, AddsQueued,
      LeasesAhead;
    var a := ids[n];
    AbandonConsistent(u, a, now);
    AbandonSound(u, a, now);
    AbandonElsewhere(u, a, now);
    StepsEvolve(u, AbandonExpired(u, a, now).0);
    AbandonedIsGone(u, a, now);
    AbandonEnds(u, a, now);
    ExpiredOnlyShrinks(u.board, AbandonExpired(u, a, now).0.board, u.clock, now);
    forall i | 0 <= i < |ids| && i != n
      ensures ids[i] in AbandonExpired(u, a, now).0.board.attempts
      && AbandonExpired(u, a, now).0.board.attempts[ids[i]] == u.board.attempts[ids[i]] {
      AbandonKeepsOthers(u, a, now, ids[i]);
    }
  }

  function CancellingRegions(t: Tables): set<Id> {
    set region | region in t.regions && t.regions[region].status.Cancelling?
  }

  function SettleEach(t: Tables, ids: seq<Id>, n: nat): Tables
    requires n <= |ids|
  {
    if n == 0 then t else SettleRegion(SettleEach(t, ids, n - 1), ids[n - 1])
  }

  lemma SettleElsewhere(t: Tables, region: Id)
    ensures var s := SettleRegion(t, region);
            && s.clock == t.clock && s.submissions == t.submissions
            && CancellingRegions(s) == CancellingRegions(t) - {region}
  {
    hide CancelAll;
  }

  /** Settling ends every live attempt of the region. */
  lemma {:induction false} SettlesEach(t: Tables, ids: seq<Id>, n: nat, now: Time)
    requires Consistent(t) && n <= |ids| && now <= t.clock && ExpiredAt(t.board, now) == {}
    ensures var s := SettleEach(t, ids, n);
            && Consistent(s) && Evolves(t.board, s.board)
            && s.clock == t.clock && s.submissions == t.submissions
            && ExpiredAt(s.board, now) == {}
            && CancellingRegions(s) == CancellingRegions(t) - (set i | 0 <= i < n :: ids[i])
  {
    hide Consistent, ExpiredAt, SettleRegion, Evolves, CancellingRegions;
    if n == 0 {
      EvolvesHere(t);
    } else {
      SettlesEach(t, ids, n - 1, now);
      var u := SettleEach(t, ids, n - 1);
      SettlesNext(u, ids[n - 1], now);
      EvolvesOn(t.board, u.board, SettleRegion(u, ids[n - 1]).board);
      assert (set i | 0 <= i < n :: ids[i]) == (set i | 0 <= i < n - 1 :: ids[i]) + {ids[n - 1]};
    }
  }

  lemma SettlesNext(u: Tables, region: Id, now: Time)
    requires Consistent(u) && now <= u.clock && ExpiredAt(u.board, now) == {}
    ensures var s := SettleRegion(u, region);
            && Consistent(s) && Evolves(u.board, s.board) && ExpiredAt(s.board, now) == {}
            && s.clock == u.clock && s.submissions == u.submissions
            && CancellingRegions(s) == CancellingRegions(u) - {region}
  {
    hide WinnerLast, SubmissionsValid, Published, Sequenced, Accounted, SettleRegion, Sound, Evolves, AddsQueued,
      LeasesAhead, ExpiredAt;
    SettleRegionConsistent(u, region);
    SettleRegionSound(u, region);
    SettleElsewhere(u, region);
    StepsEvolve(u, SettleRegion(u, region));
    ExpiredOnlyShrinks(u.board, SettleRegion(u, region).board, u.clock, now);
  }

  // ---------------------------------------------------------------- the recovery

  datatype Summary = Summary(tables: Tables, thrown: bool, scanned: nat, committed: nat, rejected: nat,
      recovered: Recovered, orphans: nat, settled: nat)

  /** The phases of `run` over these tables: `pending` is the answer to the query for uncommitted
      submissions. */
  ghost function Repair(t: Tables, now: Time, pending: seq<Id>, limit: nat, verdicts: Id -> Verdict): Summary {
    var batch := Batch(pending, limit);
    var p := Replay(t, batch, |batch|, verdicts);
    if p.thrown then Summary(p.tables, true, |batch|, p.committed, p.rejected, Recovered(0, 0, 0, 0), 0, 0)
    else
      var (s, sum, orphans, settled) := RepairRest(p.tables, now);
      Summary(s, false, |batch|, p.committed, p.rejected, sum, orphans, settled)
  }

  /** The phases behind the replay. */
  ghost function RepairRest(t: Tables, now: Time): (Tables, Recovered, nat, nat) {
    var expired := Sorted(ExpiredAt(t.board, now));
    var (u, sum) := AbandonEach(t, expired, |expired|, now);
    var v := ExposeOrphans(u, now);
    var regions := Sorted(CancellingRegions(v));
    (SettleEach(v, regions, |regions|), sum, |Orphans(u, now)|, |regions|)
  }

  lemma BatchListed(t: Tables, pending: seq<Id>, limit: nat)
    requires Lists(pending, t)
    ensures Distinct(Batch(pending, limit)) && forall a :: a in Batch(pending, limit) ==> a in Pending(t)
  {
  }

  lemma SortedAll(s: set<Id>)
    ensures Distinct(Sorted(s))
    ensures (set i | 0 <= i < |Sorted(s)| :: Sorted(s)[i]) == s
  {
    SortedLists(s);
    forall x | x in s ensures x in (set i | 0 <= i < |Sorted(s)| :: Sorted(s)[i]) {
      assert x in Sorted(s);
    }
  }

  lemma NoneExpired(t: Tables, now: Time)
    requires ExpiredAt(t.board, now) == {}
    ensures forall a :: a in t.board.attempts ==> !Expired(t.board, a, now)
  {
    forall a | a in t.board.attempts ensures !Expired(t.board, a, now) {
      assert a !in ExpiredAt(t.board, now);
    }
  }

  lemma ExposesNothing(t: Tables, now: Time)
    requires Consistent(t) && ExpiredAt(t.board, now) == {}
    ensures Orphans(t, now) == {} && ExposeOrphans(t, now) == t
  {
    hide WinnerLast, SubmissionsValid, Published, Sequenced, Accounted, Sound, Expired, ExpiredAt, Orphans,
      ExposeOrphans;
    NoneExpired(t, now);
    NoOrphans(t, now);
  }

  /** Abandoning all expired attempts leaves none expired and no orphan to expose. */
  lemma AbandonPhase(t: Tables, now: Time)
    requires Consistent(t) && now <= t.clock
    ensures var ids := Sorted(ExpiredAt(t.board, now));
            var (s, sum) := AbandonEach(t, ids, |ids|, now);
            && Consistent(s) && Evolves(t.board, s.board) && s.clock == t.clock && s.regions == t.regions
            && s.submissions == t.submissions
            && ExpiredAt(s.board, now) == {}
            && sum.abandoned == |ids| == sum.replacement + sum.terminal
            && Orphans(s, now) == {} && ExposeOrphans(s, now) == s
            && (forall a :: a in ExpiredAt(t.board, now) ==>
               a in s.board.attempts && s.board.attempts[a].status.Abandoned?)
  {
    hide Consistent, AbandonEach, Evolves, Expired, Orphans, ExposeOrphans;
    var ids := Sorted(ExpiredAt(t.board, now));
    SortedAll(ExpiredAt(t.board, now));
    SortedLists(ExpiredAt(t.board, now));
    AbandonsEach(t, ids, |ids|, now);
    ExposesNothing(AbandonEach(t, ids, |ids|, now).0, now);
  }

  /** What the phases leave behind when the replay does not throw. */
  lemma RepairStages(t: Tables, now: Time, pending: seq<Id>, limit: nat, verdicts: Id -> Verdict)
    requires Consistent(t) && now <= t.clock && Lists(pending, t)
    ensures var batch := Batch(pending, limit);
            var p := Replay(t, batch, |batch|, verdicts);
            var s := Repair(t, now, pending, limit, verdicts);
            && s.thrown == p.thrown
            && (!s.thrown ==>
                  && Replayed(t, p.tables, batch, |batch|, verdicts)
                  && Consistent(s.tables) && Evolves(p.tables.board, s.tables.board)
                  && s.tables.submissions == p.tables.submissions && s.tables.clock == p.tables.clock == t.clock
                  && ExpiredAt(s.tables.board, now) == {}
                  && CancellingRegions(s.tables) == {}
                  && s.orphans == 0
                  && s.recovered.abandoned == s.recovered.replacement + s.recovered.terminal
                  && s.recovered.abandoned == |Sorted(ExpiredAt(p.tables.board, now))|
                  && s.committed + s.rejected == s.scanned == |batch|
                  && (forall a :: a in ExpiredAt(p.tables.board, now) ==>
                        a in s.tables.board.attempts && s.tables.board.attempts[a].status.Abandoned?))
  {
    hide Consistent, Replay, AbandonEach, SettleEach, ExposeOrphans, Evolves, Lists, Distinct, ExpiredAt,
      CancellingRegions, Orphans;
    var batch := Batch(pending, limit);
    BatchListed(t, pending, limit);
    ReplaySettles(t, batch, |batch|, verdicts);
    var p := Replay(t, batch, |batch|, verdicts);
    if !p.thrown {
      ReplayedConsistent(t, p.tables, batch, |batch|, verdicts);
      ClockStays(t, batch, |batch|, verdicts);
      AbandonPhase(p.tables, now);
      var ids := Sorted(ExpiredAt(p.tables.board, now));
      var u := AbandonEach(p.tables, ids, |ids|, now).0;
      SettlePhase(u, now);
      var regions := Sorted(CancellingRegions(u));
      EvolvesOn(p.tables.board, u.board, SettleEach(u, regions, |regions|).board);
      AbandonedStay(u.board, SettleEach(u, regions, |regions|).board);
    }
  }

  lemma AbandonedStay(b: Board, c: Board)
    requires Evolves(b, c)
    ensures forall a :: a in b.attempts && b.attempts[a].status.Abandoned? ==>
            a in c.attempts && c.attempts[a].status.Abandoned?
  {
  }

  lemma ReplayedConsistent(t: Tables, s: Tables, batch: seq<Id>, n: nat, verdicts: Id -> Verdict)
    requires Replayed(t, s, batch, n, verdicts)
    ensures Consistent(s)
  {
    hide Consistent, Evolves, Undisturbed, Fate;
  }

  lemma {:induction false} ClockStays(t: Tables, batch: seq<Id>, n: nat, verdicts: Id -> Verdict)
    requires n <= |batch|
    ensures Replay(t, batch, n, verdicts).tables.clock == t.clock
  {
    hide CommitTransaction;
    if n > 0 {
      ClockStays(t, batch, n - 1, verdicts);
      var p := Replay(t, batch, n - 1, verdicts);
      if !p.thrown && batch[n - 1] in p.tables.submissions {
        var x := p.tables.submissions[batch[n - 1]];
        CommitElsewhere(p.tables, x.result, x.digest, true, verdicts(batch[n - 1]));
      }
    }
  }

  lemma SettlePhase(u: Tables, now: Time)
    requires Consistent(u) && now <= u.clock && ExpiredAt(u.board, now) == {}
    ensures var regions := Sorted(CancellingRegions(u));
            var s := SettleEach(u, regions, |regions|);
            && Consistent(s) && Evolves(u.board, s.board) && s.submissions == u.submissions && s.clock == u.clock
            && ExpiredAt(s.board, now) == {} && CancellingRegions(s) == {}
  {
    hide Consistent, SettleEach, Evolves, ExpiredAt;
    var regions := Sorted(CancellingRegions(u));
    SortedAll(CancellingRegions(u));
    SettlesEach(u, regions, |regions|, now);
  }

  // ---------------------------------------------------------------- what the phases amount to

  /** Nothing is left to repair at `now`. */
  ghost predicate Mended(t: Tables, now: Time) {
    && Consistent(t)
    && (forall a :: a in t.board.attempts ==> !Expired(t.board, a, now))
    && Orphans(t, now) == {} && ExposeOrphans(t, now) == t
    && (forall region :: region in t.regions ==> !t.regions[region].status.Cancelling?)
  }

  lemma RepairMends(t: Tables, now: Time, pending: seq<Id>, limit: nat, verdicts: Id -> Verdict)
    requires Consistent(t) && now <= t.clock && Lists(pending, t)
    ensures var s := Repair(t, now, pending, limit, verdicts);
            !s.thrown ==>
              && Mended(s.tables, now) && s.tables.clock == t.clock
              && s.recovered.abandoned == s.recovered.replacement + s.recovered.terminal
              && s.orphans == 0
              && s.committed + s.rejected == s.scanned
  {
    hide Consistent, Repair, Replay, Replayed, Expired, Orphans, Evolves, Lists, ExpiredAt;
    RepairStages(t, now, pending, limit, verdicts);
    var s := Repair(t, now, pending, limit, verdicts);
    if !s.thrown {
      NoneExpired(s.tables, now);
      ExposesNothing(s.tables, now);
      forall region | region in s.tables.regions ensures !s.tables.regions[region].status.Cancelling? {
        assert region !in CancellingRegions(s.tables);
      }
    }
  }

  /** A batched submission that can be committed at its turn is committed, even under an expired lease:
      its attempt is not abandoned. */
  lemma MetIsCommitted(t: Tables, now: Time, pending: seq<Id>, limit: nat, verdicts: Id -> Verdict, i: nat)
    requires Consistent(t) && now <= t.clock && Lists(pending, t)
    requires var batch := Batch(pending, limit);
             i < |batch| && batch[i] in t.submissions && Met(t, batch, i, verdicts).None?
    ensures var s, a := Repair(t, now, pending, limit, verdicts), Batch(pending, limit)[i];
            !s.thrown ==>
              && a in s.tables.submissions && s.tables.submissions[a].committed
              && a in s.tables.board.attempts
              && (s.tables.board.attempts[a].status.Completed? || s.tables.board.attempts[a].status.Failed?)
  {
    hide Sound, WinnerLast, Published, Sequenced, Accounted, SubmissionsValid, Repair, Replay, Met, ExpiredAt,
      CancellingRegions, Evolves, Lists, Undisturbed;
    RepairStages(t, now, pending, limit, verdicts);
    if !Repair(t, now, pending, limit, verdicts).thrown {
      CommittedEnded(Repair(t, now, pending, limit, verdicts).tables, Batch(pending, limit)[i]);
    }
  }

  lemma CommittedEnded(t: Tables, a: Id)
    requires SubmissionsValid(t) && Sound(t)
    ensures a in t.submissions && t.submissions[a].committed ==>
              a in t.board.attempts && (t.board.attempts[a].status.Completed? || t.board.attempts[a].status.Failed?)
  {
    hide Authority, Allocated;
  }

  /** When the batch holds all pending submissions, none is left. */
  lemma RepairEmpties(t: Tables, now: Time, pending: seq<Id>, limit: nat, verdicts: Id -> Verdict)
    requires Consistent(t) && now <= t.clock && Lists(pending, t) && |pending| <= limit
    ensures var s := Repair(t, now, pending, limit, verdicts); !s.thrown ==> Pending(s.tables) == {}
  {
    hide Consistent, Repair, Replay, ExpiredAt, CancellingRegions, Evolves, Met, Undisturbed;
    RepairStages(t, now, pending, limit, verdicts);
    var s := Repair(t, now, pending, limit, verdicts);
    assert Batch(pending, limit) == pending;
    if !s.thrown { NothingPending(t, s.tables, pending, verdicts); }
  }

  lemma NothingPending(t: Tables, s: Tables, pending: seq<Id>, verdicts: Id -> Verdict)
    requires Lists(pending, t)
    requires exists u :: Replayed(t, u, pending, |pending|, verdicts) && u.submissions == s.submissions
    ensures Pending(s) == {}
  {
    hide Consistent, Evolves, Met;
    var u :| Replayed(t, u, pending, |pending|, verdicts) && u.submissions == s.submissions;
    assert pending[..|pending|] == pending;
    forall a | a in s.submissions ensures s.submissions[a].committed {
      if a in pending {
        var i :| 0 <= i < |pending| && pending[i] == a;
        assert a in u.submissions;
      } else {
        assert a !in Pending(t);
        assert Undisturbed(t, u, a);
      }
    }
  }

  lemma EmptyListing(s: Tables, a: Id)
    requires Pending(s) == {}
    ensures a !in Pending(s)
  {
  }

  /** On mended tables without pending submissions the phases do nothing. */
  lemma QuietRepair(s: Tables, now: Time, pending: seq<Id>, limit: nat, verdicts: Id -> Verdict)
    requires Lists(pending, s) && Pending(s) == {} && Mended(s, now)
    ensures Repair(s, now, pending, limit, verdicts) == Summary(s, false, 0, 0, 0, Recovered(0, 0, 0, 0), 0, 0)
  {
    hide Consistent, Orphans, ExposeOrphans, Expired;
    assert forall a :: a in pending ==> a in Pending(s);
    assert pending == [] by { if pending != [] { EmptyListing(s, pending[0]); } }
    assert ExpiredAt(s.board, now) == {};
    assert CancellingRegions(s) == {};
  }

  // ---------------------------------------------------------------- when the replay fails

  lemma PoisonedPlace(t: Tables, batch: seq<Id>, i: nat, verdicts: Id -> Verdict)
    requires PoisonedAt(t, batch, i, verdicts)
    ensures i < |batch|
  {
  }

  /** The replay throws exactly when a submission of the batch is poisoned at its turn. */
  lemma RepairThrowsIff(t: Tables, now: Time, pending: seq<Id>, limit: nat, verdicts: Id -> Verdict)
    requires Consistent(t) && Lists(pending, t)
    ensures Repair(t, now, pending, limit, verdicts).thrown
            <==> exists i: nat :: PoisonedAt(t, Batch(pending, limit), i, verdicts)
  {
    hide Consistent, AbandonEach, SettleEach, ExposeOrphans, Replayed, Lists, Distinct, Replay, Met;
    var batch := Batch(pending, limit);
    BatchListed(t, pending, limit);
    ReplaySettles(t, batch, |batch|, verdicts);
    if exists i: nat :: PoisonedAt(t, batch, i, verdicts) {
      var i: nat :| PoisonedAt(t, batch, i, verdicts);
      PoisonedPlace(t, batch, i, verdicts);
    }
  }

  /** A stored result poisons the replay exactly when it is authorized and its references are
      admissible, but it completes with the blob store missing; or it names no staged artifact twice and
      reports a cancellation, or completes, without an artifact conflict, with one artifact twice on one
      port. */
  lemma PoisonedIff(t: Tables, a: Id, verdicts: Id -> Verdict)
    requires SubmissionsValid(t) && a in Pending(t)
    ensures var r := t.submissions[a].result;
            Poisoned(t, a, verdicts)
            <==> Authorized(t, r, true) && !verdicts(a).Inadmissible?
                 && ((r.status.Completed? && verdicts(a).Unavailable?)
                     || (RefsDistinct(AllStaged(r))
                         && (r.status.Cancelled?
                             || (r.status.Completed? && !Conflicted(t.artifacts, ArtifactsOf(r))
                                 && !OutputsDistinct(AllStaged(r))))))
  {
    hide FirstRefusal, UsageValid, RefsDistinct, OutputsDistinct, Conflicted;
  }

  /** A thrown replay changes nothing about the submission it choked on: the next one throws again as
      long as that submission is in its batch. */
  lemma PoisonStays(t: Tables, now: Time, pending: seq<Id>, limit: nat, verdicts: Id -> Verdict)
    requires Consistent(t) && Lists(pending, t) && Repair(t, now, pending, limit, verdicts).thrown
    ensures var s := Repair(t, now, pending, limit, verdicts).tables;
            && Consistent(s)
            && exists a :: a in Batch(pending, limit) && a in Pending(s) && Poisoned(s, a, verdicts)
  {
    hide Consistent, AbandonEach, SettleEach, ExposeOrphans, Replayed, Poisoned, PoisonedAt, Lists, Replay, Distinct;
    var batch := Batch(pending, limit);
    BatchListed(t, pending, limit);
    ReplaySettles(t, batch, |batch|, verdicts);
    var s := Replay(t, batch, |batch|, verdicts).tables;
    var k :| 0 <= k < |batch| && s == Replay(t, batch, k, verdicts).tables && Replayed(t, s, batch, k, verdicts)
      && PoisonedAt(t, batch, k, verdicts);
    assert batch[k] in batch;
    PoisonCarries(t, s, batch, k, verdicts);
  }

  lemma PoisonCarries(t: Tables, s: Tables, batch: seq<Id>, k: nat, verdicts: Id -> Verdict)
    requires Distinct(batch) && k < |batch| && s == Replay(t, batch, k, verdicts).tables
    requires Replayed(t, s, batch, k, verdicts) && batch[k] in Pending(t) && PoisonedAt(t, batch, k, verdicts)
    requires Consistent(t)
    ensures batch[k] in Pending(s) && Poisoned(s, batch[k], verdicts) && Consistent(s)
  {
    hide Sound, WinnerLast, Published, Sequenced, Accounted, SubmissionsValid, FateWith, Fate, Evolves, Replay;
    BatchApart(batch, k);
    assert Undisturbed(t, s, batch[k]);
    SameFate(t, s, batch[k], verdicts);
  }

  // ---------------------------------------------------------------- conflicts between batched results

  /** No artifact of the first is recorded otherwise by the second. */
  predicate Compatible(x: Result, y: Result) {
    forall i, j :: 0 <= i < |ArtifactsOf(x)| && 0 <= j < |ArtifactsOf(y)|
                   && ArtifactsOf(x)[i].digest == ArtifactsOf(y)[j].digest ==>
      ArtifactsOf(x)[i].kind == ArtifactsOf(y)[j].kind
  }

  /** The artifact rows after part of a batch come from the start or from a result of that part. */
  lemma {:induction false} ReplayCollects(t: Tables, batch: seq<Id>, n: nat, verdicts: Id -> Verdict, d: Id)
    requires n <= |batch| && (forall a :: a in batch ==> a in t.submissions) && Distinct(batch)
    requires Consistent(t) && forall a :: a in batch ==> a in Pending(t)
    ensures ArtifactsStay(t.artifacts, Replay(t, batch, n, verdicts).tables.artifacts)
    ensures d in Replay(t, batch, n, verdicts).tables.artifacts && d !in t.artifacts ==>
              exists i, j :: 0 <= i < n && 0 <= j < |ArtifactsOf(t.submissions[batch[i]].result)|
                && ArtifactsOf(t.submissions[batch[i]].result)[j].digest == d
                && ArtifactsOf(t.submissions[batch[i]].result)[j].kind
                   == Replay(t, batch, n, verdicts).tables.artifacts[d]
  {
    hide Commit, Consistent, ArtifactsOf;
    if n > 0 {
      ReplayCollects(t, batch, n - 1, verdicts, d);
      var p := Replay(t, batch, n - 1, verdicts);
      if !p.thrown && batch[n - 1] in p.tables.submissions {
        TurnStored(t, batch, n - 1, verdicts);
        CommitCollects(p.tables, batch[n - 1], verdicts(batch[n - 1]), d);
      }
    }
  }

  lemma TurnStored(t: Tables, batch: seq<Id>, n: nat, verdicts: Id -> Verdict)
    requires n < |batch| && Distinct(batch) && Consistent(t) && (forall a :: a in batch ==> a in Pending(t))
    requires !Replay(t, batch, n, verdicts).thrown
    ensures batch[n] in Replay(t, batch, n, verdicts).tables.submissions && batch[n] in t.submissions
    ensures Replay(t, batch, n, verdicts).tables.submissions[batch[n]] == t.submissions[batch[n]]
  {
    hide Consistent, Evolves, Met, Replay;
    ReplaySettles(t, batch, n, verdicts);
    BatchApart(batch, n);
    assert batch[n] in batch;
    assert Undisturbed(t, Replay(t, batch, n, verdicts).tables, batch[n]);
  }

  lemma CommitCollects(t: Tables, a: Id, verdict: Verdict, d: Id)
    requires a in t.submissions
    ensures var x := t.submissions[a];
            var m := Commit(t, x.result, x.digest, true, verdict).0.artifacts;
            && ArtifactsStay(t.artifacts, m)
            && (d in m && d !in t.artifacts ==>
                  exists j :: 0 <= j < |ArtifactsOf(x.result)| && ArtifactsOf(x.result)[j].digest == d
                              && ArtifactsOf(x.result)[j].kind == m[d])
  {
    hide CommitTransaction, Collected;
    var x := t.submissions[a];
    CommitElsewhere(t, x.result, x.digest, true, verdict);
    CollectedStays(t.artifacts, ArtifactsOf(x.result));
    if d in Collected(t.artifacts, ArtifactsOf(x.result)) && d !in t.artifacts {
      CollectedFrom(t.artifacts, ArtifactsOf(x.result), d);
    }
  }

  /** A submission that is compatible with the earlier ones of its batch meets the fate it had at the
      start. */
  lemma CompatibleMeetsFate(t: Tables, batch: seq<Id>, n: nat, verdicts: Id -> Verdict)
    requires n < |batch| && Distinct(batch) && Consistent(t) && batch[n] in t.submissions && forall a :: a in batch ==>
             a in Pending(t)
    requires forall i :: 0 <= i < n ==>
             batch[i] in t.submissions && Compatible(t.submissions[batch[i]].result, t.submissions[batch[n]].result)
    ensures Met(t, batch, n, verdicts) == Fate(t, batch[n], verdicts)
  {
    hide Consistent, Replay, FirstRefusal, UsageValid, RefsDistinct, OutputsDistinct, Conflicted;
    assert batch[n] in batch;
    var r := t.submissions[batch[n]].result;
    var m := Replay(t, batch, n, verdicts).tables.artifacts;
    forall i | 0 <= i < |ArtifactsOf(r)|
      ensures ArtifactsOf(r)[i].digest in t.artifacts ==>
      ArtifactsOf(r)[i].digest in m && m[ArtifactsOf(r)[i].digest] == t.artifacts[ArtifactsOf(r)[i].digest]
      ensures ArtifactsOf(r)[i].digest in m && ArtifactsOf(r)[i].digest !in t.artifacts ==>
              m[ArtifactsOf(r)[i].digest] == ArtifactsOf(r)[i].kind
    {
      ReplayCollects(t, batch, n, verdicts, ArtifactsOf(r)[i].digest);
    }
    SameConflict(t.artifacts, m, ArtifactsOf(r));
    ConflictDecides(t, m, batch[n], verdicts);
  }

  lemma ConflictDecides(t: Tables, m: map<Id, ArtifactKind>, a: Id, verdicts: Id -> Verdict)
    requires a in t.submissions && Conflicted(m, ArtifactsOf(t.submissions[a].result))
             == Conflicted(t.artifacts, ArtifactsOf(t.submissions[a].result))
    ensures FateWith(t, m, a, verdicts) == Fate(t, a, verdicts)
  {
    hide UsageValid, RefsDistinct, OutputsDistinct, Conflicted;
  }

  lemma SameConflict(m: map<Id, ArtifactKind>, n: map<Id, ArtifactKind>, xs: seq<Staged>)
    requires forall i :: 0 <= i < |xs| && xs[i].digest in m ==> xs[i].digest in n && n[xs[i].digest] == m[xs[i].digest]
    requires forall i :: 0 <= i < |xs| && xs[i].digest in n && xs[i].digest !in m ==> n[xs[i].digest] == xs[i].kind
    ensures Conflicted(m, xs) == Conflicted(n, xs)
  {
    ConflictedIff(m, xs);
    ConflictedIff(n, xs);
  }
}
