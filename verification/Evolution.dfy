/** What no transaction ever undoes: ended rows stay as they are, identity columns never change,
    and an attempt keeps the token of its one lease. */
module Evolution {
  import opened Basics
  import opened Board
  import opened AuthorityProofs

  predicate AttemptEvolves(x: Attempt, y: Attempt) {
    && y.execution == x.execution && y.number == x.number
    && (!Live(x.status) ==> y == x)
    && (Active(x.status) && Live(y.status) ==>
          Active(y.status) && x.lease.Some? && y.lease.Some? && y.lease.value.token == x.lease.value.token)
  }

  predicate ExecutionEvolves(x: Execution, y: Execution) {
    && y == x.(status := y.status, failure := y.failure)
    && (!x.status.Running? ==> y == x)
  }

  predicate DeliveryEvolves(x: Delivery, y: Delivery) {
    && y.region == x.region && y.component == x.component && y.correlation == x.correlation
    && x.leases <= y.leases
    && (!Open(x.status) ==> y == x)
  }

  ghost predicate ExecutionsEvolve(b: Board, c: Board) {
    forall e :: e in b.executions ==> e in c.executions && ExecutionEvolves(b.executions[e], c.executions[e])
  }

  ghost predicate AttemptsEvolve(b: Board, c: Board) {
    forall a :: a in b.attempts ==> a in c.attempts && AttemptEvolves(b.attempts[a], c.attempts[a])
  }

  ghost predicate DeliveriesEvolve(b: Board, c: Board) {
    forall d :: d in b.deliveries ==> d in c.deliveries && DeliveryEvolves(b.deliveries[d], c.deliveries[d])
  }

  ghost predicate Evolves(b: Board, c: Board) {
    ExecutionsEvolve(b, c) && AttemptsEvolve(b, c) && DeliveriesEvolve(b, c)
  }

  /** What one transaction may add: attempts of known executions are queued, never leased. */
  ghost predicate AddsQueued(b: Board, c: Board) {
    forall a :: a in c.attempts && a !in b.attempts ==>
      c.attempts[a].execution !in b.executions || c.attempts[a].status.Pending?
  }

  /** Active attempts whose lease ends by `clock` held that lease before. */
  ghost predicate LeasesAhead(b: Board, c: Board, clock: Time) {
    forall a :: a in c.attempts && Active(c.attempts[a].status) && c.attempts[a].lease.Some?
                && c.attempts[a].lease.value.expires <= clock ==>
      a in b.attempts && Active(b.attempts[a].status) && b.attempts[a].lease == c.attempts[a].lease
  }

  ghost predicate CompletesNothing(b: Board, c: Board) {
    forall a :: a in c.attempts && c.attempts[a].status.Completed? ==>
      a in b.attempts && b.attempts[a].status.Completed?
  }

  /** One transaction's effect on the board. */
  ghost predicate Advances(b: Board, c: Board, clock: Time) {
    Evolves(b, c) && AddsQueued(b, c) && LeasesAhead(b, c, clock)
  }

  lemma EvolvesOn(b: Board, c: Board, d: Board)
    requires Evolves(b, c) && Evolves(c, d)
    ensures Evolves(b, d)
  {
  }

  lemma StartAdvances(b: Board, e: Id, a: Id, row: Execution, lease: Lease, now: Time)
    requires RowsValid(b) && Startable(b, e, a, row) && now < lease.expires
    ensures Advances(b, StartExecution(b, e, a, row, lease, now), now)
            && CompletesNothing(b, StartExecution(b, e, a, row, lease, now))
  {
  }

  /** A live attempt moves to another live state under the same token or its first one. */
  lemma MovedAdvances(b: Board, a: Id, row: Attempt, ds: map<Id, Delivery>, now: Time)
    requires RowsValid(b) && Moves(b, a, row, ds)
    requires Active(row.status) && row.lease.Some? && now < row.lease.value.expires
    requires b.attempts[a].lease.Some? ==> row.lease.value.token == b.attempts[a].lease.value.token
    requires forall d :: d in ds ==> DeliveryEvolves(b.deliveries[d], ds[d])
    ensures Advances(b, Moved(b, a, row, ds), now) && CompletesNothing(b, Moved(b, a, row, ds))
  {
  }

  lemma LeasePendingAdvances(b: Board, a: Id, lease: Lease, now: Time)
    requires RowsValid(b) && LiveHolds(b) && a in b.attempts && b.attempts[a].status.Pending? && now < lease.expires
    ensures b.attempts[a].execution in b.executions
    ensures Advances(b, LeasePending(b, a, lease, now), now) && CompletesNothing(b, LeasePending(b, a, lease, now))
  {
    InputsOpen(b, a);
    LeasePendingMoves(b, a, lease, now);
    hide LiveHolds, Moves;
    MovedAdvances(b, a, b.attempts[a].(status := AttemptStatus.Leased, lease := Some(lease), startedAt := now),
                  Grant(b.deliveries, InputsOf(b, a), lease), now);
  }

  lemma InputsOpen(b: Board, a: Id)
    requires LiveHolds(b) && a in b.attempts && Live(b.attempts[a].status)
    ensures b.attempts[a].execution in b.executions
    ensures b.executions[b.attempts[a].execution].status.Running?
    ensures forall d :: d in InputsOf(b, a) && d in b.deliveries ==> Open(b.deliveries[d].status)
  {
    assert forall d :: d in InputsOf(b, a) && d in b.deliveries ==> Holds(b.attempts[a], b.deliveries[d]);
  }

  lemma ExtendEvolves(b: Board, a: Id, expires: Time)
    requires a in b.attempts && b.attempts[a].execution in b.executions && b.attempts[a].lease.Some?
    ensures forall d :: d in b.deliveries ==>
            d in Extend(b, a, expires).deliveries
            && DeliveryEvolves(b.deliveries[d], Extend(b, a, expires).deliveries[d])
  {
  }

  lemma ExtendAdvances(b: Board, a: Id, expires: Time, now: Time)
    requires RowsValid(b) && InputsOwned(b) && LiveHolds(b) && a in b.attempts && Active(b.attempts[a].status)
             && now < expires
    ensures b.attempts[a].lease.Some? && b.attempts[a].execution in b.executions
    ensures Advances(b, Extend(b, a, expires), now) && CompletesNothing(b, Extend(b, a, expires))
  {
    hide InputsOwned, LiveHolds, Moves, Extend, Moved, DeliveryEvolves, Advances, CompletesNothing;
    ExtendMoves(b, a, expires);
    ExtendEvolves(b, a, expires);
    var lease := b.attempts[a].lease.value.(expires := expires);
    MovedAdvances(b, a, b.attempts[a].(status := AttemptStatus.Running, lease := Some(lease)),
      Extend(b, a, expires).deliveries, now);
  }

  /** Ending attempt `a` with its execution and open inputs, possibly queueing one more attempt. */
  lemma EndAdvances(b: Board, c: Board, a: Id, now: Time)
    requires RowsValid(b) && a in b.attempts && Around(b, c, b.attempts[a].execution)
    requires Live(b.attempts[a].status) && b.executions[b.attempts[a].execution].status.Running?
    requires ExecutionEvolves(b.executions[b.attempts[a].execution], c.executions[b.attempts[a].execution])
    requires forall d :: d in b.deliveries ==> DeliveryEvolves(b.deliveries[d], c.deliveries[d])
    requires forall x :: x in c.attempts ==>
               if x == a then !Live(c.attempts[x].status) && c.attempts[x].number == b.attempts[x].number
               else if x in b.attempts then c.attempts[x] == b.attempts[x]
               else c.attempts[x].status.Pending?
    ensures Advances(b, c, now)
    ensures !c.attempts[a].status.Completed? ==> CompletesNothing(b, c)
  {
  }

  lemma CloseAdvances(b: Board, a: Id, status: AttemptStatus, failure: Option<Failure>,
                      outcome: ExecutionStatus, cause: Option<Failure>, fate: DeliveryStatus, now: Time)
    requires RowsValid(b) && LiveHolds(b) && a in b.attempts && Active(b.attempts[a].status)
    requires ClosesProperly(status, failure, outcome, cause, fate)
    ensures b.attempts[a].execution in b.executions
    ensures Advances(b, Close(b, a, status, failure, outcome, cause, fate), now)
    ensures !status.Completed? ==> CompletesNothing(b, Close(b, a, status, failure, outcome, cause, fate))
  {
    hide LiveHolds, Around, Advances, CompletesNothing, RowsValid;
    CloseRows(b, a, status, failure, outcome, cause, fate);
    InputsOpen(b, a);
    EndAdvances(b, Close(b, a, status, failure, outcome, cause, fate), a, now);
  }

  lemma RetryAdvances(b: Board, a: Id, status: AttemptStatus, failure: Option<Failure>, next: Id, at: Time, now: Time)
    requires RowsValid(b) && LiveHolds(b) && Retryable(b, a, status, failure, next)
    ensures Advances(b, Retry(b, a, status, failure, next, at), now)
    ensures !status.Completed? ==> CompletesNothing(b, Retry(b, a, status, failure, next, at))
  {
    hide LiveHolds, Around, Advances, CompletesNothing, RowsValid;
    RetryRows(b, a, status, failure, next, at);
    InputsOpen(b, a);
    EndAdvances(b, Retry(b, a, status, failure, next, at), a, now);
  }

  lemma CancelAdvances(b: Board, es: set<Id>, ds: set<Id>, cause: Failure, now: Time)
    requires RowsValid(b)
    ensures Advances(b, CancelAll(b, es, ds, cause), now) && CompletesNothing(b, CancelAll(b, es, ds, cause))
  {
  }
}
