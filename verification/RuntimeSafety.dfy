/** Every transaction keeps the authority invariant and only advances the board. */
module RuntimeSafety {
  import opened Basics
  import opened Board
  import opened AuthorityProofs
  import opened Evolution
  import opened RuntimeTables

  /** Ids in use lie below the generator. */
  ghost predicate Allocated(b: Board, next: nat) {
    && (forall e :: e in b.executions ==> e < next)
    && (forall a :: a in b.attempts ==> a < next)
    && (forall d :: d in b.deliveries ==> d < next)
  }

  ghost predicate Sound(t: Tables) {
    Authority(t.board) && Allocated(t.board, t.nextId)
  }

  /** A transaction from `t` to `s`. */
  ghost predicate StepsTo(t: Tables, s: Tables) {
    Sound(s) && Advances(t.board, s.board, t.clock)
  }

  /** Deliveries were added and no execution or attempt row changed. */
  ghost predicate OnlyRouted(b: Board, c: Board) {
    && c.executions == b.executions && c.attempts == b.attempts
    && forall d :: d in b.deliveries ==> d in c.deliveries && c.deliveries[d] == b.deliveries[d]
  }

  lemma AllocatedDelivery(b: Board, next: nat, row: Delivery)
    requires Allocated(b, next)
    ensures next !in b.deliveries && Allocated(AddDelivery(b, next, row), next + 1)
  {
  }

  lemma OnlyRoutedOn(b: Board, c: Board, d: Id, row: Delivery)
    requires OnlyRouted(b, c) && d !in c.deliveries
    ensures OnlyRouted(b, AddDelivery(c, d, row))
  {
  }

  lemma RouteSound(t: Tables, region: Id, correlation: Id, targets: seq<Id>, n: nat)
    requires Sound(t) && n <= |targets|
    ensures Sound(Route(t, region, correlation, targets, n))
    ensures OnlyRouted(t.board, Route(t, region, correlation, targets, n).board)
  {
    hide Authority, Allocated, AddDelivery;
    if n > 0 {
      RouteSound(t, region, correlation, targets, n - 1);
      var s := Route(t, region, correlation, targets, n - 1);
      var row := NewDelivery(region, targets[n - 1], correlation, s.clock);
      AllocatedDelivery(s.board, s.nextId, row);
      AddDeliveryKeeps(s.board, s.nextId, row);
      OnlyRoutedOn(t.board, s.board, s.nextId, row);
    }
  }

  lemma AllocatedMore(b: Board, next: nat, more: nat)
    requires Allocated(b, next) && next <= more
    ensures Allocated(b, more)
  {
  }

  lemma OnlyRoutedAll(b: Board, c: Board, d: Board)
    requires OnlyRouted(b, c) && OnlyRouted(c, d)
    ensures OnlyRouted(b, d)
  {
  }

  lemma PublishSound(t: Tables, r: Result, e: Execution, correlation: Id, n: nat)
    requires Sound(t) && n <= |r.staged|
    ensures Sound(Publish(t, r, e, correlation, n))
    ensures OnlyRouted(t.board, Publish(t, r, e, correlation, n).board)
  {
    hide Authority, Allocated, Route;
    if n > 0 {
      PublishSound(t, r, e, correlation, n - 1);
      var s := Publish(t, r, e, correlation, n - 1);
      var x := r.staged[n - 1];
      var u := InsertEvent(s, e.region, ComponentOutput(x.port, x.digest), ComponentStream(e.component, x.port),
        correlation, Some(r.attemptId));
      var v := u.(outputs := u.outputs + [Output(r.executionId, r.attemptId, x.port, x.digest, Some(s.nextId))]);
      var targets := TargetsOf(v, e.component, x.port);
      AllocatedMore(s.board, s.nextId, v.nextId);
      RouteSound(v, e.region, correlation, targets, |targets|);
      OnlyRoutedAll(t.board, s.board, Publish(t, r, e, correlation, n).board);
    }
  }

  lemma AnnounceSound(t: Tables, r: Result, e: Execution, correlation: Id, n: nat)
    requires n <= |r.events|
    ensures Announce(t, r, e, correlation, n).board == t.board
    ensures Announce(t, r, e, correlation, n).nextId >= t.nextId
    ensures Announce(t, r, e, correlation, n).clock == t.clock
  {
  }

  lemma PublishResultSound(t: Tables, r: Result)
    requires Sound(t) && Attached(t.board, r.attemptId, r.executionId)
    ensures Sound(PublishResult(t, r)) && OnlyRouted(t.board, PublishResult(t, r).board)
  {
    hide Authority, Allocated, Publish, Announce, OnlyRouted;
    var e := t.board.executions[r.executionId];
    var c := CorrelationOf(t.board, e);
    PublishSound(t, r, e, c, |r.staged|);
    var s := PublishState(Publish(t, r, e, c, |r.staged|), r);
    AnnounceSound(s, r, e, c, |r.events|);
    AllocatedMore(s.board, s.nextId, PublishResult(t, r).nextId);
  }

  lemma AdvancesAfterRouting(b: Board, c: Board, d: Board, clock: Time)
    requires OnlyRouted(b, c) && Advances(c, d, clock)
    ensures Advances(b, d, clock)
    ensures CompletesNothing(c, d) ==> CompletesNothing(b, d)
  {
  }

  /** An active attempt of a sound board runs for a running execution of the tables. */
  lemma ActiveRow(b: Board, a: Id)
    requires Authority(b) && a in b.attempts && Active(b.attempts[a].status)
    ensures b.attempts[a].execution in b.executions && b.executions[b.attempts[a].execution].status.Running?
    ensures b.attempts[a].lease.Some? && 1 <= b.attempts[a].number <= MAX_ATTEMPTS
    ensures InputsOf(b, a) <= b.deliveries.Keys
    ensures forall d :: d in InputsOf(b, a) ==>
              d in b.deliveries && b.deliveries[d].status.Leased? && b.deliveries[d].lease == b.attempts[a].lease
  {
    assert forall d :: d in InputsOf(b, a) && d in b.deliveries ==> Holds(b.attempts[a], b.deliveries[d]);
  }

  lemma CloseAllocated(b: Board, next: nat, a: Id, status: AttemptStatus, failure: Option<Failure>,
                       outcome: ExecutionStatus, cause: Option<Failure>, fate: DeliveryStatus)
    requires Allocated(b, next) && a in b.attempts && b.attempts[a].execution in b.executions
    ensures Allocated(Close(b, a, status, failure, outcome, cause, fate), next)
  {
  }

  lemma CloseSound(b: Board, next: nat, a: Id, status: AttemptStatus, failure: Option<Failure>,
                   outcome: ExecutionStatus, cause: Option<Failure>, fate: DeliveryStatus, clock: Time)
    requires Authority(b) && Allocated(b, next) && a in b.attempts && Active(b.attempts[a].status)
    requires ClosesProperly(status, failure, outcome, cause, fate)
    ensures b.attempts[a].execution in b.executions
    ensures var c := Close(b, a, status, failure, outcome, cause, fate);
            Authority(c) && Allocated(c, next) && Advances(b, c, clock)
              && (!status.Completed? ==> CompletesNothing(b, c))
  {
    hide RowsValid, Numbered, InputsOwned, LiveHolds, RunningLives, InputsSettled, UnclaimedIdle;
    hide Evolves, AddsQueued, LeasesAhead, CompletesNothing, Allocated, ClosesProperly, Close;
    CloseKeeps(b, a, status, failure, outcome, cause, fate);
    CloseAdvances(b, a, status, failure, outcome, cause, fate, clock);
    CloseAllocated(b, next, a, status, failure, outcome, cause, fate);
  }

  lemma RetryAllocated(b: Board, next: nat, a: Id, status: AttemptStatus, failure: Option<Failure>, at: Time)
    requires Allocated(b, next) && a in b.attempts && b.attempts[a].execution in b.executions
    ensures next !in b.attempts && Allocated(Retry(b, a, status, failure, next, at), next + 1)
  {
  }

  lemma RetrySound(b: Board, next: nat, a: Id, status: AttemptStatus, failure: Option<Failure>, at: Time, clock: Time)
    requires Authority(b) && Allocated(b, next) && a in b.attempts && Active(b.attempts[a].status)
    requires b.attempts[a].number < MAX_ATTEMPTS && !Live(status) && (status.Failed? <==> failure.Some?)
    ensures b.attempts[a].execution in b.executions
    ensures var c := Retry(b, a, status, failure, next, at);
            && Authority(c) && Allocated(c, next + 1) && Advances(b, c, clock) && next in c.attempts
            && (!status.Completed? ==> CompletesNothing(b, c))
  {
    hide RowsValid, Numbered, InputsOwned, LiveHolds, RunningLives, InputsSettled, UnclaimedIdle;
    hide Evolves, AddsQueued, LeasesAhead, CompletesNothing, Allocated, Retry;
    ActiveRow(b, a);
    RetryAllocated(b, next, a, status, failure, at);
    RetryKeeps(b, a, status, failure, next, at);
    RetryAdvances(b, a, status, failure, next, at, clock);
  }

  lemma CompleteSound(t: Tables, r: Result)
    requires Sound(t) && Attached(t.board, r.attemptId, r.executionId) && Active(t.board.attempts[r.attemptId].status)
    ensures StepsTo(t, Complete(t, r))
  {
    hide Authority, Advances, OnlyRouted, Allocated, CompletesNothing, Close, PublishResult;
    PublishResultKeepsRows(t, r);
    PublishResultSound(t, r);
    var s := PublishResult(t, r);
    CloseSound(s.board, s.nextId, r.attemptId, AttemptStatus.Completed, None, ExecutionStatus.Completed, None,
      DeliveryStatus.Completed, t.clock);
    AdvancesAfterRouting(t.board, s.board, Complete(t, r).board, t.clock);
  }

  lemma FailOrRetrySound(t: Tables, r: Result)
    requires Sound(t) && Attached(t.board, r.attemptId, r.executionId) && Active(t.board.attempts[r.attemptId].status)
    ensures StepsTo(t, FailOrRetry(t, r).0) && CompletesNothing(t.board, FailOrRetry(t, r).0.board)
  {
    hide Authority, Advances, CompletesNothing, Allocated, Close, Retry;
    var n := t.board.attempts[r.attemptId].number;
    if r.retryable && 1 <= n <= |RETRY_BACKOFF_MS| {
      RetrySound(t.board, t.nextId, r.attemptId, AttemptStatus.Failed, Some(WorkerFailure),
        t.clock + RETRY_BACKOFF_MS[n - 1], t.clock);
    } else {
      CloseSound(t.board, t.nextId, r.attemptId, AttemptStatus.Failed, Some(WorkerFailure), ExecutionStatus.Failed,
        Some(WorkerFailure), DeliveryStatus.DeadLettered, t.clock);
    }
  }

  lemma AdvancesNowhere(b: Board, clock: Time)
    requires RowsValid(b)
    ensures Advances(b, b, clock) && CompletesNothing(b, b)
  {
  }

  lemma Unmoved(t: Tables, s: Tables)
    requires Sound(t) && s.board == t.board && s.nextId >= t.nextId
    ensures StepsTo(t, s) && CompletesNothing(t.board, s.board)
  {
    hide RowsValid, Numbered, InputsOwned, LiveHolds, RunningLives, InputsSettled, UnclaimedIdle, Allocated, Advances,
      CompletesNothing;
    AdvancesNowhere(t.board, t.clock);
    AllocatedMore(t.board, t.nextId, s.nextId);
  }

  /** A result that passes every check belongs to an active attempt. */
  lemma AdmittedIsActive(t: Tables, r: Result, digest: Id, allowExpired: bool, verdict: Verdict)
    requires Refusal(t, r, digest, allowExpired, verdict).None?
    ensures Attached(t.board, r.attemptId, r.executionId) && Active(t.board.attempts[r.attemptId].status)
    ensures t.board.executions[r.executionId].status.Running? && UsageValid(r.usage) && !r.status.Cancelled?
    ensures r.status.Completed? ==> RefsDistinct(AllStaged(r)) && OutputsDistinct(AllStaged(r))
    ensures r.attemptId in t.submissions ==>
            t.submissions[r.attemptId].digest == digest && !t.submissions[r.attemptId].committed
  {
  }

  lemma CommitSound(t: Tables, r: Result, digest: Id, allowExpired: bool, verdict: Verdict)
    requires Sound(t)
    ensures StepsTo(t, CommitTransaction(t, r, digest, allowExpired, verdict).0)
    ensures !CommitTransaction(t, r, digest, allowExpired, verdict).1.Committed? ==>
              CompletesNothing(t.board, CommitTransaction(t, r, digest, allowExpired, verdict).0.board)
  {
    hide Authority, Advances, CompletesNothing, Allocated, Complete, FailOrRetry, UsageRows, Refusal;
    Unmoved(t, t);
    if Refusal(t, r, digest, allowExpired, verdict).None? {
      AdmittedIsActive(t, r, digest, allowExpired, verdict);
      var s := t.(ledger := t.ledger + UsageRows(t.board.executions[r.executionId].region, r, |COUNTERS|));
      if r.status.Completed? {
        CompleteSound(s, r);
      } else {
        FailOrRetrySound(s, r);
      }
    }
  }

  lemma StartAllocated(b: Board, next: nat, row: Execution, lease: Lease, now: Time)
    requires Allocated(b, next)
    ensures Allocated(StartExecution(b, next, next + 1, row, lease, now), next + 3)
  {
  }

  /** What the scheduler's queries make sure of. */
  lemma SelectionStartable(t: Tables, ids: set<Id>, trigger: Id, region: Id, component: Id, correlation: Id)
    requires Allocated(t.board, t.nextId) && trigger in ids && Available(t, ids, region, component, correlation)
             && RunningAt(t, region)
    requires forall d :: d in ids ==> !Claimed(t.board, d)
    ensures Startable(t.board, t.nextId, t.nextId + 1,
                      Execution(region, component, t.regions[region].epoch, trigger, ids,
                                ExecutionStatus.Running, None))
  {
  }

  lemma LeaseNewSound(t: Tables, ids: set<Id>, trigger: Id, region: Id, component: Id, correlation: Id, ms: int)
    requires Sound(t)
    ensures StepsTo(t, LeaseNew(t, ids, trigger, region, component, correlation, ms))
    ensures CompletesNothing(t.board, LeaseNew(t, ids, trigger, region, component, correlation, ms).board)
  {
    hide RowsValid, Numbered, InputsOwned, LiveHolds, RunningLives, InputsSettled, UnclaimedIdle;
    hide Evolves, AddsQueued, LeasesAhead, CompletesNothing, Allocated, Startable, StartExecution, Available, Claimed;
    Unmoved(t, t);
    if trigger in ids && Available(t, ids, region, component, correlation) && RunningAt(t, region) && LeaseDuration(ms)
       && forall d :: d in ids ==> !Claimed(t.board, d)
    {
      SelectionStartable(t, ids, trigger, region, component, correlation);
      var row := Execution(region, component, t.regions[region].epoch, trigger, ids, ExecutionStatus.Running, None);
      StartExecutionKeeps(t.board, t.nextId, t.nextId + 1, row, Lease(t.nextId + 2, t.clock + ms), t.clock);
      StartAdvances(t.board, t.nextId, t.nextId + 1, row, Lease(t.nextId + 2, t.clock + ms), t.clock);
      StartAllocated(t.board, t.nextId, row, Lease(t.nextId + 2, t.clock + ms), t.clock);
    }
  }

  lemma LeasePendingAllocated(b: Board, next: nat, a: Id, lease: Lease, now: Time)
    requires Allocated(b, next) && a in b.attempts && b.attempts[a].execution in b.executions
    ensures Allocated(LeasePending(b, a, lease, now), next + 1)
  {
  }

  lemma LeaseAgainSound(t: Tables, a: Id, ms: int)
    requires Sound(t)
    ensures StepsTo(t, LeaseAgain(t, a, ms)) && CompletesNothing(t.board, LeaseAgain(t, a, ms).board)
  {
    hide RowsValid, Numbered, InputsOwned, LiveHolds, RunningLives, InputsSettled, UnclaimedIdle;
    hide Evolves, AddsQueued, LeasesAhead, CompletesNothing, Allocated, LeasePending, Available;
    Unmoved(t, t);
    if Due(t, a) && LeaseDuration(ms) {
      var lease := Lease(t.nextId, t.clock + ms);
      LeasePendingKeeps(t.board, a, lease, t.clock);
      LeasePendingAdvances(t.board, a, lease, t.clock);
      LeasePendingAllocated(t.board, t.nextId, a, lease, t.clock);
    }
  }

  lemma ExtendAllocated(b: Board, next: nat, a: Id, expires: Time)
    requires Allocated(b, next) && a in b.attempts && b.attempts[a].execution in b.executions
             && b.attempts[a].lease.Some?
    ensures Allocated(Extend(b, a, expires), next)
  {
  }

  lemma HeartbeatSound(t: Tables, e: Id, a: Id, token: Id, epoch: int, ms: int)
    requires Sound(t)
    ensures StepsTo(t, Heartbeat(t, e, a, token, epoch, ms))
            && CompletesNothing(t.board, Heartbeat(t, e, a, token, epoch, ms).board)
  {
    hide RowsValid, Numbered, InputsOwned, LiveHolds, RunningLives, InputsSettled, UnclaimedIdle;
    hide Evolves, AddsQueued, LeasesAhead, CompletesNothing, Allocated, Extend;
    Unmoved(t, t);
    if Presents(t, e, a, token, epoch) && LeaseDuration(ms) {
      ExtendKeeps(t.board, a, t.clock + ms);
      ExtendAdvances(t.board, a, t.clock + ms, t.clock);
      ExtendAllocated(t.board, t.nextId, a, t.clock + ms);
    }
  }

  lemma RoutedAdvances(b: Board, c: Board, clock: Time)
    requires RowsValid(b) && OnlyRouted(b, c)
    ensures Advances(b, c, clock) && CompletesNothing(b, c)
  {
  }

  lemma IngressSound(t: Tables, region: Id, correlation: Id, targets: seq<Id>)
    requires Sound(t)
    ensures StepsTo(t, Ingress(t, region, correlation, targets))
            && CompletesNothing(t.board, Ingress(t, region, correlation, targets).board)
  {
    hide RowsValid, Numbered, InputsOwned, LiveHolds, RunningLives, InputsSettled, UnclaimedIdle;
    hide Evolves, AddsQueued, LeasesAhead, CompletesNothing, Allocated, OnlyRouted, Route;
    var s := InsertEvent(t, region, CommandAccepted, CommandStream(region), correlation, None);
    AllocatedMore(t.board, t.nextId, s.nextId);
    RouteSound(s, region, correlation, targets, |targets|);
    RoutedAdvances(t.board, Ingress(t, region, correlation, targets).board, t.clock);
  }

  lemma RunCancelsWhole(b: Board, region: Id, correlation: Id)
    requires InputsOwned(b)
    ensures CancelsWhole(b, RunExecutions(b, region, correlation), RunDeliveries(b, region, correlation))
  {
  }

  lemma RegionCancelsWhole(b: Board, region: Id)
    requires InputsOwned(b)
    ensures CancelsWhole(b, RegionExecutions(b, region), RegionDeliveries(b, region))
  {
  }

  lemma CancelAllocated(b: Board, next: nat, es: set<Id>, ds: set<Id>, cause: Failure)
    requires Allocated(b, next)
    ensures Allocated(CancelAll(b, es, ds, cause), next)
  {
  }

  lemma CancelSound(b: Board, next: nat, es: set<Id>, ds: set<Id>, cause: Failure, clock: Time)
    requires Authority(b) && Allocated(b, next) && CancelsWhole(b, es, ds)
    ensures Authority(CancelAll(b, es, ds, cause)) && Allocated(CancelAll(b, es, ds, cause), next)
    ensures Advances(b, CancelAll(b, es, ds, cause), clock) && CompletesNothing(b, CancelAll(b, es, ds, cause))
  {
    hide RowsValid, Numbered, InputsOwned, LiveHolds, RunningLives, InputsSettled, UnclaimedIdle;
    hide Evolves, AddsQueued, LeasesAhead, CompletesNothing, Allocated, CancelsWhole, CancelAll;
    CancelAllKeeps(b, es, ds, cause);
    CancelAdvances(b, es, ds, cause, clock);
    CancelAllocated(b, next, es, ds, cause);
  }

  lemma CancelRunSound(t: Tables, region: Id, correlation: Id, key: Id, digest: Id)
    requires Sound(t)
    ensures StepsTo(t, CancelRun(t, region, correlation, key, digest).0)
    ensures CompletesNothing(t.board, CancelRun(t, region, correlation, key, digest).0.board)
  {
    hide RowsValid, Numbered, InputsOwned, LiveHolds, RunningLives, InputsSettled, UnclaimedIdle;
    hide Evolves, AddsQueued, LeasesAhead, CompletesNothing, Allocated, CancelsWhole, CancelAll, RunExecutions,
      RunDeliveries;
    Unmoved(t, t);
    RunCancelsWhole(t.board, region, correlation);
    AllocatedMore(t.board, t.nextId, t.nextId + 1);
    CancelSound(t.board, t.nextId + 1, RunExecutions(t.board, region, correlation),
      RunDeliveries(t.board, region, correlation), OperatorCancelled, t.clock);
  }

  lemma SettleRegionSound(t: Tables, region: Id)
    requires Sound(t)
    ensures StepsTo(t, SettleRegion(t, region)) && CompletesNothing(t.board, SettleRegion(t, region).board)
  {
    hide RowsValid, Numbered, InputsOwned, LiveHolds, RunningLives, InputsSettled, UnclaimedIdle;
    hide Evolves, AddsQueued, LeasesAhead, CompletesNothing, Allocated, CancelsWhole, CancelAll, RegionExecutions,
      RegionDeliveries;
    Unmoved(t, t);
    RegionCancelsWhole(t.board, region);
    CancelSound(t.board, t.nextId, RegionExecutions(t.board, region), RegionDeliveries(t.board, region),
      RegionCancelled, t.clock);
  }

  /** Abandoning reports one abandonment and exactly one of replacement and terminal failure. */
  lemma AbandonSound(t: Tables, a: Id, now: Time)
    requires Sound(t)
    ensures StepsTo(t, AbandonExpired(t, a, now).0) && CompletesNothing(t.board, AbandonExpired(t, a, now).0.board)
    ensures var c := AbandonExpired(t, a, now).1;
            c.abandoned == c.replacement + c.terminal && (Expired(t.board, a, now) ==> c.abandoned == 1)
  {
    hide RowsValid, Numbered, InputsOwned, LiveHolds, RunningLives, InputsSettled, UnclaimedIdle;
    hide Evolves, AddsQueued, LeasesAhead, CompletesNothing, Allocated, Close, Retry;
    Unmoved(t, t);
    if Expired(t.board, a, now) {
      ActiveRow(t.board, a);
      var row := t.board.attempts[a];
      var e := t.board.executions[row.execution];
      if e.status.Running? && RunningAt(t, e.region) && row.number < MAX_ATTEMPTS {
        RetrySound(t.board, t.nextId, a, AttemptStatus.Abandoned, None, now, t.clock);
        NextNumberFree(t.board, a, AttemptStatus.Abandoned, None);
      } else {
        CloseSound(t.board, t.nextId, a, AttemptStatus.Abandoned, None, ExecutionStatus.Failed, Some(RecoveryTerminal),
                   DeliveryStatus.DeadLettered, t.clock);
      }
    }
  }

  /** Once no active attempt is expired, no delivery is an orphan: exposing orphans changes nothing. */
  lemma NoOrphans(t: Tables, now: Time)
    requires Sound(t)
    requires forall a :: a in t.board.attempts ==> !Expired(t.board, a, now)
    ensures Orphans(t, now) == {} && ExposeOrphans(t, now) == t
  {
    var b := t.board;
    forall d | d in b.deliveries && b.deliveries[d].status.Leased? && b.deliveries[d].lease.Some?
      ensures b.deliveries[d].lease.value.expires > now
    {
      LeasedHasAttempt(b, d);
      var a :| a in b.attempts && Active(b.attempts[a].status) && b.attempts[a].lease == b.deliveries[d].lease;
      assert !Expired(b, a, now);
    }
    assert Release(b.deliveries, {}, now) == b.deliveries;
  }

  /** A leased delivery is an input of an active attempt under the same lease. */
  lemma LeasedHasAttempt(b: Board, d: Id)
    requires Authority(b) && d in b.deliveries && b.deliveries[d].status.Leased?
    ensures exists a :: a in b.attempts && Active(b.attempts[a].status) && b.attempts[a].lease == b.deliveries[d].lease
  {
    assert Claimed(b, d);
    var e :| e in b.executions && d in b.executions[e].inputs;
    assert SettledWith(b.executions[e].status, b.deliveries[d]);
    assert HasLive(b.attempts, e);
    var a :| a in b.attempts && b.attempts[a].execution == e && Live(b.attempts[a].status);
    assert Holds(b.attempts[a], b.deliveries[d]);
  }
}
