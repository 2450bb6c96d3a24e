/** Cancelling a run ends everything in it, for good: unless a new command enters the same run,
    no later step reopens a row, publishes an output or routes a delivery for it. */
module Cancellation {
  import opened Basics
  import opened Board
  import opened AuthorityProofs
  import opened Evolution
  import opened RuntimeTables
  import opened RuntimeSafety
  import opened Publication
  import opened RuntimeConsistency
  import opened RuntimeRuns
  import opened Fencing

  ghost predicate DeliveriesClosed(b: Board, region: Id, correlation: Id) {
    forall d :: d in b.deliveries && b.deliveries[d].region == region && b.deliveries[d].correlation == correlation ==>
      !Open(b.deliveries[d].status)
  }

  /** Every delivery, execution and attempt of the run is terminal. */
  ghost predicate RunClosed(b: Board, region: Id, correlation: Id) {
    && DeliveriesClosed(b, region, correlation)
    && (forall e :: e in RunExecutions(b, region, correlation) ==> !b.executions[e].status.Running?)
    && (forall a :: a in b.attempts && b.attempts[a].execution in RunExecutions(b, region, correlation) ==>
       !Live(b.attempts[a].status))
  }

  /** A running execution belongs to a run with an open delivery. */
  lemma RunningIsOpen(b: Board, e: Id)
    requires Authority(b) && e in b.executions && b.executions[e].status.Running?
    ensures !DeliveriesClosed(b, b.executions[e].region, CorrelationOf(b, b.executions[e]))
  {
    var a :| a in b.attempts && b.attempts[a].execution == e && Live(b.attempts[a].status);
    LiveIsOpen(b, a);
    assert b.executions[e].trigger in b.executions[e].inputs;
  }

  /** Terminal deliveries alone close a run. */
  lemma ClosedByDeliveries(b: Board, region: Id, correlation: Id)
    requires Authority(b) && DeliveriesClosed(b, region, correlation)
    ensures RunClosed(b, region, correlation)
  {
    forall a | a in b.attempts && b.attempts[a].execution in RunExecutions(b, region, correlation)
      ensures !Live(b.attempts[a].status)
    {
      if Live(b.attempts[a].status) { LiveIsOpen(b, a); }
    }
    forall e | e in RunExecutions(b, region, correlation) ensures !b.executions[e].status.Running? {
      if b.executions[e].status.Running? { RunningIsOpen(b, e); }
    }
  }

  lemma LiveIsOpen(b: Board, a: Id)
    requires InputsOwned(b) && LiveHolds(b) && a in b.attempts && Live(b.attempts[a].status)
    ensures b.attempts[a].execution in b.executions
    ensures b.executions[b.attempts[a].execution].trigger in b.deliveries
    ensures Open(b.deliveries[b.executions[b.attempts[a].execution].trigger].status)
  {
    var e := b.attempts[a].execution;
    assert b.executions[e].trigger in b.executions[e].inputs;
    assert Holds(b.attempts[a], b.deliveries[b.executions[e].trigger]);
  }

  /** An accepted cancellation ends exactly the live rows of the run and leaves all others alone. */
  lemma CancelCloses(t: Tables, region: Id, correlation: Id, key: Id, digest: Id)
    requires Sound(t) && CancelRun(t, region, correlation, key, digest).1.Accepted?
    ensures var b, c := t.board, CancelRun(t, region, correlation, key, digest).0.board;
            && RunClosed(c, region, correlation)
            && c.executions.Keys == b.executions.Keys && c.attempts.Keys == b.attempts.Keys
            && c.deliveries.Keys == b.deliveries.Keys
            && (forall e :: e in b.executions
                            && (e !in RunExecutions(b, region, correlation) || !b.executions[e].status.Running?) ==>
                  c.executions[e] == b.executions[e])
            && (forall a :: a in b.attempts
                            && (b.attempts[a].execution !in RunExecutions(b, region, correlation)
                                || !Live(b.attempts[a].status)) ==>
                  c.attempts[a] == b.attempts[a])
            && (forall d :: d in b.deliveries
                            && (d !in RunDeliveries(b, region, correlation) || !Open(b.deliveries[d].status)) ==>
                  c.deliveries[d] == b.deliveries[d])
    ensures CancelRun(t, region, correlation, key, digest).0.outputs == t.outputs
    ensures CancelRun(t, region, correlation, key, digest).0.submissions == t.submissions
  {
    hide Sound, Authority, Advances;
    CancelRunSound(t, region, correlation, key, digest);
    SoundAuthority(CancelRun(t, region, correlation, key, digest).0);
    CancelsDeliveries(t.board, region, correlation);
    ClosedByDeliveries(CancelRun(t, region, correlation, key, digest).0.board, region, correlation);
  }

  lemma SoundAuthority(t: Tables)
    requires Sound(t)
    ensures Authority(t.board)
  {
    hide Authority, Allocated;
  }

  lemma CancelsDeliveries(b: Board, region: Id, correlation: Id)
    ensures DeliveriesClosed(CancelAll(b, RunExecutions(b, region, correlation), RunDeliveries(b, region, correlation),
            OperatorCancelled), region, correlation)
  {
    hide RunExecutions;
  }

  // ---------------------------------------------------------------- who adds deliveries

  /** New deliveries of `c` belong to the given run. */
  ghost predicate RoutesInto(b: Board, c: Board, region: Id, correlation: Id) {
    && b.deliveries.Keys <= c.deliveries.Keys
    && forall d :: d in c.deliveries && d !in b.deliveries ==>
       c.deliveries[d].region == region && c.deliveries[d].correlation == correlation
  }

  lemma {:induction false} RouteInto(t: Tables, region: Id, correlation: Id, targets: seq<Id>, n: nat)
    requires n <= |targets|
    ensures RoutesInto(t.board, Route(t, region, correlation, targets, n).board, region, correlation)
  {
    if n > 0 { RouteInto(t, region, correlation, targets, n - 1); }
  }

  lemma RoutesIntoOn(b: Board, c: Board, d: Board, region: Id, correlation: Id)
    requires RoutesInto(b, c, region, correlation) && RoutesInto(c, d, region, correlation) && DeliveriesEvolve(c, d)
    ensures RoutesInto(b, d, region, correlation)
  {
  }

  lemma PublishOneInto(t: Tables, r: Result, e: Execution, correlation: Id, x: Staged)
    requires Sound(t)
    ensures var s := PublishOne(t, r, e, correlation, x);
            RoutesInto(t.board, s.board, e.region, correlation) && DeliveriesEvolve(t.board, s.board)
  {
    hide Authority, Allocated, Route;
    var u := InsertEvent(t, e.region, ComponentOutput(x.port, x.digest), ComponentStream(e.component, x.port),
      correlation, Some(r.attemptId));
    var v := u.(outputs := u.outputs + [Output(r.executionId, r.attemptId, x.port, x.digest, Some(t.nextId))]);
    var targets := TargetsOf(v, e.component, x.port);
    AllocatedMore(t.board, t.nextId, v.nextId);
    RouteSound(v, e.region, correlation, targets, |targets|);
    RouteInto(v, e.region, correlation, targets, |targets|);
  }

  lemma {:induction false} PublishInto(t: Tables, r: Result, e: Execution, correlation: Id, n: nat)
    requires Sound(t) && n <= |r.staged|
    ensures RoutesInto(t.board, Publish(t, r, e, correlation, n).board, e.region, correlation)
  {
    hide Sound, PublishOne;
    if n > 0 {
      PublishInto(t, r, e, correlation, n - 1);
      PublishSound(t, r, e, correlation, n - 1);
      PublishOneInto(Publish(t, r, e, correlation, n - 1), r, e, correlation, r.staged[n - 1]);
      RoutesIntoOn(t.board, Publish(t, r, e, correlation, n - 1).board, Publish(t, r, e, correlation, n).board,
        e.region, correlation);
    }
  }

  lemma PublishResultInto(t: Tables, r: Result)
    requires Sound(t) && Attached(t.board, r.attemptId, r.executionId)
    ensures var e := t.board.executions[r.executionId];
            RoutesInto(t.board, PublishResult(t, r).board, e.region, CorrelationOf(t.board, e))
  {
    hide Sound, Publish;
    var e := t.board.executions[r.executionId];
    var c := CorrelationOf(t.board, e);
    PublishInto(t, r, e, c, |r.staged|);
    AnnounceKeepsRows(PublishState(Publish(t, r, e, c, |r.staged|), r), r, e, c, |r.events|);
  }

  lemma SameKeysInto(b: Board, c: Board, d: Board, region: Id, correlation: Id)
    requires RoutesInto(b, c, region, correlation) && d.deliveries.Keys == c.deliveries.Keys
    requires forall x :: x in c.deliveries ==>
             d.deliveries[x].region == c.deliveries[x].region
             && d.deliveries[x].correlation == c.deliveries[x].correlation
    ensures RoutesInto(b, d, region, correlation)
  {
  }

  lemma CloseColumns(b: Board, a: Id)
    requires a in b.attempts && b.attempts[a].execution in b.executions
    ensures var c := CloseCompleted(b, a);
            && c.deliveries.Keys == b.deliveries.Keys
            && forall x :: x in b.deliveries ==>
               c.deliveries[x].region == b.deliveries[x].region
               && c.deliveries[x].correlation == b.deliveries[x].correlation
  {
  }

  /** An applied result routes only into the run of its own execution. */
  lemma CommitInto(t: Tables, r: Result, digest: Id, allowExpired: bool, verdict: Verdict)
    requires Sound(t) && Refusal(t, r, digest, allowExpired, verdict).None?
    ensures Attached(t.board, r.attemptId, r.executionId) && t.board.executions[r.executionId].status.Running?
    ensures var e := t.board.executions[r.executionId];
            RoutesInto(t.board, CommitTransaction(t, r, digest, allowExpired, verdict).0.board, e.region,
              CorrelationOf(t.board, e))
  {
    hide Sound, Refusal, UsageRows, UsageValid, PublishResult, CloseCompleted;
    AdmittedIsActive(t, r, digest, allowExpired, verdict);
    var e := t.board.executions[r.executionId];
    var u := t.(ledger := t.ledger + UsageRows(e.region, r, |COUNTERS|));
    if r.status.Completed? {
      SoundLedger(t, u);
      PublishResultInto(u, r);
      PublishResultKeepsRows(u, r);
      var s := PublishResult(u, r);
      CloseColumns(s.board, r.attemptId);
      SameKeysInto(t.board, s.board, CloseCompleted(s.board, r.attemptId), e.region, CorrelationOf(t.board, e));
    }
  }

  lemma SoundLedger(t: Tables, u: Tables)
    requires Sound(t) && u.board == t.board && u.nextId == t.nextId
    ensures Sound(u)
  {
    hide Authority, Allocated;
  }

  predicate Enters(step: Step, region: Id, correlation: Id) {
    step.AcceptCommand? && step.region == region && step.correlation == correlation
  }

  lemma LeaseKeys(t: Tables, ids: set<Id>, trigger: Id, region: Id, component: Id, correlation: Id, a: Id, ms: int)
    ensures LeaseNew(t, ids, trigger, region, component, correlation, ms).board.deliveries.Keys
            == t.board.deliveries.Keys
    ensures LeaseAgain(t, a, ms).board.deliveries.Keys == t.board.deliveries.Keys
  {
    hide Available, Claimed;
  }

  lemma AbandonKeys(t: Tables, a: Id, now: Time)
    ensures AbandonExpired(t, a, now).0.board.deliveries.Keys == t.board.deliveries.Keys
  {
    hide RunningAt, Retry, CloseDeadLettered, NumberTaken, AbandonAttempt;
    if a in t.board.attempts && t.board.attempts[a].execution in t.board.executions {
      EndKeys(t.board, a, t.nextId, now);
    }
  }

  lemma EndKeys(b: Board, a: Id, next: Id, now: Time)
    requires a in b.attempts && b.attempts[a].execution in b.executions
    ensures Retry(b, a, AttemptStatus.Abandoned, None, next, now).deliveries.Keys == b.deliveries.Keys
    ensures CloseDeadLettered(b, a, AttemptStatus.Abandoned, None, RecoveryTerminal).deliveries.Keys
            == b.deliveries.Keys
    ensures AbandonAttempt(b, a).deliveries.Keys == b.deliveries.Keys
  {
  }

  lemma StepRoutes(w: World, step: Step)
    requires !Commits(step) && !step.AcceptCommand? && Reliable(w)
    ensures Effect(w, step).board.deliveries.Keys == w.tables.board.deliveries.Keys
  {
    hide Reliable, ExposeOrphans, LeaseNew, LeaseAgain, AbandonExpired, Presents, RunExecutions, RunDeliveries;
    match step
    case FirstLease(ids, trigger, region, component, correlation, ms) =>
      LeaseKeys(w.tables, ids, trigger, region, component, correlation, 0, ms);
    case RepeatedLease(a, ms) => LeaseKeys(w.tables, {}, 0, 0, 0, 0, a, ms);
    case AbandonOne(p, a) => if p in w.sweeps { AbandonKeys(w.tables, a, w.sweeps[p].now); }
    case ExposeSweep(p) => if p in w.sweeps && w.sweeps[p].todo == {} { SweepFindsNoOrphan(w, p); }
    case _ =>
  }

  /** In a closed run a step adds no delivery unless it is a new command for the run. */
  lemma StepAddsNone(w: World, step: Step, region: Id, correlation: Id)
    requires Reliable(w) && DeliveriesClosed(w.tables.board, region, correlation) && !Enters(step, region, correlation)
    ensures forall d :: d in Effect(w, step).board.deliveries && d !in w.tables.board.deliveries ==>
              Effect(w, step).board.deliveries[d].region != region
                || Effect(w, step).board.deliveries[d].correlation != correlation
  {
    hide Reliable, DeliveriesClosed, CommitTransaction;
    var t := w.tables;
    match step
    case AcceptCommand(reg, corr, targets) =>
      hide Route;
      RouteInto(InsertEvent(t, reg, CommandAccepted, CommandStream(reg), corr, None), reg, corr, targets, |targets|);
    case CommitResult(r, digest, allowExpired, verdict) =>
      CommitAddsNone(w, r, digest, allowExpired, verdict, region, correlation);
    case CommitStored(a, allowExpired, verdict) =>
      if a in t.submissions {
        CommitAddsNone(w, t.submissions[a].result, t.submissions[a].digest, allowExpired, verdict, region, correlation);
      }
    case _ => hide Effect; StepRoutes(w, step);
  }

  lemma CommitAddsNone(w: World, r: Result, digest: Id, allowExpired: bool, verdict: Verdict, region: Id,
      correlation: Id)
    requires Reliable(w) && DeliveriesClosed(w.tables.board, region, correlation)
    ensures var c := CommitTransaction(w.tables, r, digest, allowExpired, verdict).0.board;
            forall d :: d in c.deliveries && d !in w.tables.board.deliveries ==>
              c.deliveries[d].region != region || c.deliveries[d].correlation != correlation
  {
    hide Reliable, DeliveriesClosed, Refusal, Complete, FailOrRetry, UsageRows, UsageValid, Sound, Authority,
      CorrelationOf;
    ReliableSound(w);
    var t := w.tables;
    if Refusal(t, r, digest, allowExpired, verdict).None? {
      hide CommitTransaction;
      CommitInto(t, r, digest, allowExpired, verdict);
      SoundAuthority(t);
      RunningIsOpen(t.board, r.executionId);
    }
  }

  lemma StillClosed(b: Board, c: Board, region: Id, correlation: Id)
    requires Evolves(b, c) && DeliveriesClosed(b, region, correlation)
    requires forall d :: d in c.deliveries && d !in b.deliveries ==>
             c.deliveries[d].region != region || c.deliveries[d].correlation != correlation
    ensures DeliveriesClosed(c, region, correlation)
  {
  }

  lemma {:induction false} DeliveriesStayClosed(w: World, steps: seq<Step>, region: Id, correlation: Id)
    requires Reliable(w) && DeliveriesClosed(w.tables.board, region, correlation)
    requires forall step :: step in steps ==> !Enters(step, region, correlation)
    ensures DeliveriesClosed(Execute(w, steps).tables.board, region, correlation)
  {
    hide Reliable, Effect, DeliveriesClosed, Evolves, AddsQueued, LeasesAhead, Enters;
    if |steps| > 0 {
      var mid := Execute(w, steps[..|steps| - 1]);
      var step := steps[|steps| - 1];
      assert step in steps;
      DeliveriesStayClosed(w, steps[..|steps| - 1], region, correlation);
      RunReliable(w, steps[..|steps| - 1]);
      StepAdvances(mid, step);
      StepAddsNone(mid, step, region, correlation);
      StillClosed(mid.tables.board, Effect(mid, step).board, region, correlation);
    }
  }

  // ---------------------------------------------------------------- the main results

  /** A closed run stays closed, and nothing is ever published for it again. */
  lemma ClosedRunStaysClosed(w: World, steps: seq<Step>, region: Id, correlation: Id)
    requires Reliable(w) && RunClosed(w.tables.board, region, correlation)
    requires forall step :: step in steps ==> !Enters(step, region, correlation)
    ensures RunClosed(Execute(w, steps).tables.board, region, correlation)
    ensures forall a ::
              a in w.tables.board.attempts
              && w.tables.board.attempts[a].execution in RunExecutions(w.tables.board, region, correlation) ==>
              OutputsBy(Execute(w, steps).tables.outputs, a) == OutputsBy(w.tables.outputs, a)
  {
    hide Reliable, Execute, DeliveriesClosed, OutputsBy, AnnouncedBy, RunExecutions, Enters, Authority;
    DeliveriesStayClosed(w, steps, region, correlation);
    RunReliable(w, steps);
    ReliableSound(Execute(w, steps));
    SoundAuthority(Execute(w, steps).tables);
    ClosedByDeliveries(Execute(w, steps).tables.board, region, correlation);
    forall a | a in w.tables.board.attempts
           && w.tables.board.attempts[a].execution in RunExecutions(w.tables.board, region, correlation)
      ensures OutputsBy(Execute(w, steps).tables.outputs, a) == OutputsBy(w.tables.outputs, a)
    {
      RunFenced(w, steps, a);
    }
  }

  /** Any result for an attempt of a closed run is turned away. */
  lemma ClosedRunRefuses(t: Tables, r: Result, digest: Id, allowExpired: bool, verdict: Verdict, region: Id,
      correlation: Id)
    requires RunClosed(t.board, region, correlation) && r.attemptId in t.board.attempts
    requires t.board.attempts[r.attemptId].execution in RunExecutions(t.board, region, correlation)
    ensures CommitTransaction(t, r, digest, allowExpired, verdict).0 == t
    ensures CommitTransaction(t, r, digest, allowExpired, verdict).1 == Duplicate
            || CommitTransaction(t, r, digest, allowExpired, verdict).1.Rejected?
  {
    hide CommitTransaction;
    FencedRefused(t, r, digest, allowExpired, verdict);
  }

  lemma StepCancellations(w: World, step: Step, region: Id, key: Id)
    requires (region, key) in w.tables.cancellations
    ensures (region, key) in Effect(w, step).cancellations
            && Effect(w, step).cancellations[(region, key)] == w.tables.cancellations[(region, key)]
  {
    hide CommitTransaction;
    var t := w.tables;
    match step
    case AcceptCommand(reg, corr, targets) =>
      RouteSilent(InsertEvent(t, reg, CommandAccepted, CommandStream(reg), corr, None), reg, corr, targets, |targets|);
    case CommitResult(r, digest, allowExpired, verdict) => CommitElsewhere(t, r, digest, allowExpired, verdict);
    case CommitStored(a, allowExpired, verdict) =>
      if a in t.submissions {
        CommitElsewhere(t, t.submissions[a].result, t.submissions[a].digest, allowExpired, verdict);
      }
    case _ =>
  }

  lemma {:induction false} RunCancellations(w: World, steps: seq<Step>, region: Id, key: Id)
    requires (region, key) in w.tables.cancellations
    ensures (region, key) in Execute(w, steps).tables.cancellations
    ensures Execute(w, steps).tables.cancellations[(region, key)] == w.tables.cancellations[(region, key)]
  {
    hide Effect;
    if |steps| > 0 {
      RunCancellations(w, steps[..|steps| - 1], region, key);
      StepCancellations(Execute(w, steps[..|steps| - 1]), steps[|steps| - 1], region, key);
    }
  }

  /** After an accepted cancellation, and any steps that bring no new command for the run: the run is
      closed, repeating the request changes no row, and reusing its key for another request is a
      conflict that changes no row. */
  lemma CancelledForGood(w: World, region: Id, correlation: Id, key: Id, digest: Id, steps: seq<Step>, other: Id,
      otherCorrelation: Id)
    requires Reliable(w) && CancelRun(w.tables, region, correlation, key, digest).1.Accepted?
    requires forall step :: step in steps ==> !Enters(step, region, correlation)
    ensures var t := Execute(Apply(w, CancelOperatorRun(region, correlation, key, digest)), steps).tables;
            && RunClosed(t.board, region, correlation)
            && CancelRun(t, region, correlation, key, digest) == (t, Replayed)
            && (other != digest ==> CancelRun(t, region, otherCorrelation, key, other) == (t, Conflict))
  {
    hide Reliable, Execute, RunClosed, Enters, Sweeps, Sound;
    var v := Apply(w, CancelOperatorRun(region, correlation, key, digest));
    ReliableSound(w);
    CancelCloses(w.tables, region, correlation, key, digest);
    StepReliable(w, CancelOperatorRun(region, correlation, key, digest));
    ClosedRunStaysClosed(v, steps, region, correlation);
    RunCancellations(v, steps, region, key);
  }
}
