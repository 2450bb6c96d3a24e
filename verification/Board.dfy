/** The rows that leases, results, recovery and cancellation all rewrite: executions, attempts
    and deliveries.  This module holds the row types with the check constraints of the schema,
    the row updates the services share, and the authority invariant that ties the three tables
    together. */
module Board {
  import opened Basics

  /** Both attempts and deliveries hold their lease as owner, token and expiry that are all null
      or all set; an `Option<Lease>` is that check constraint. */
  datatype Lease = Lease(token: Id, expires: Time)

  datatype Failure =
    | WorkerFailure
    | RecoveryTerminal
    | RegionCancelled
    | OperatorCancelled

  datatype ExecutionStatus = Running | Completed | Failed

  datatype Execution = Execution(
    region: Id,
    component: Id,
    epoch: nat,
    trigger: Id,
    inputs: set<Id>,
    status: ExecutionStatus,
    failure: Option<Failure>)

  datatype AttemptStatus = Pending | Leased | Running | Completed | Failed | Cancelled | Abandoned

  datatype Attempt = Attempt(
    execution: Id,
    number: nat,
    status: AttemptStatus,
    lease: Option<Lease>,
    startedAt: Time,
    failure: Option<Failure>)

  datatype DeliveryStatus = Ready | Leased | Completed | DeadLettered | Cancelled

  datatype Delivery = Delivery(
    region: Id,
    component: Id,
    correlation: Id,
    status: DeliveryStatus,
    lease: Option<Lease>,
    availableAt: Time,
    leases: nat)

  datatype Board = Board(
    executions: map<Id, Execution>,
    attempts: map<Id, Attempt>,
    deliveries: map<Id, Delivery>)

  const MAX_ATTEMPTS := 4

  predicate Active(status: AttemptStatus) { status.Leased? || status.Running? }

  predicate Live(status: AttemptStatus) { status.Pending? || Active(status) }

  predicate Open(status: DeliveryStatus) { status.Ready? || status.Leased? }

  // ---------------------------------------------------------------- check constraints

  predicate AttemptChecks(row: Attempt) {
    && (Active(row.status) <==> row.lease.Some?)
    && (row.status.Failed? <==> row.failure.Some?)
    && 1 <= row.number
  }

  predicate ExecutionChecks(row: Execution) {
    row.status.Failed? <==> row.failure.Some?
  }

  predicate DeliveryChecks(row: Delivery) {
    row.status.Leased? <==> row.lease.Some?
  }

  // ---------------------------------------------------------------- shared row updates

  function Release(ds: map<Id, Delivery>, ids: set<Id>, at: Time): map<Id, Delivery> {
    map d | d in ds ::
      if d in ids then ds[d].(status := DeliveryStatus.Ready, lease := None, availableAt := at) else ds[d]
  }

  function Settle(ds: map<Id, Delivery>, ids: set<Id>, status: DeliveryStatus): map<Id, Delivery> {
    map d | d in ds :: if d in ids then ds[d].(status := status, lease := None) else ds[d]
  }

  function Grant(ds: map<Id, Delivery>, ids: set<Id>, lease: Lease): map<Id, Delivery> {
    map d | d in ds ::
      if d in ids
      then ds[d].(status := DeliveryStatus.Leased, lease := Some(lease), leases := ds[d].leases + 1)
      else ds[d]
  }

  function Ended(row: Attempt, status: AttemptStatus, failure: Option<Failure>): Attempt {
    row.(status := status, lease := None, failure := failure)
  }

  function InputsOf(b: Board, a: Id): set<Id>
    requires a in b.attempts && b.attempts[a].execution in b.executions
  {
    b.executions[b.attempts[a].execution].inputs
  }

  /** Ends the attempt, its execution and all inputs. */
  function Close(b: Board, a: Id, status: AttemptStatus, failure: Option<Failure>,
                 outcome: ExecutionStatus, cause: Option<Failure>, fate: DeliveryStatus): Board
    requires a in b.attempts && b.attempts[a].execution in b.executions
  {
    var e := b.attempts[a].execution;
    Board(
      b.executions[e := b.executions[e].(status := outcome, failure := cause)],
      b.attempts[a := Ended(b.attempts[a], status, failure)],
      Settle(b.deliveries, b.executions[e].inputs, fate))
  }

  predicate NumberTaken(attempts: map<Id, Attempt>, e: Id, n: nat) {
    exists a :: a in attempts && attempts[a].execution == e && attempts[a].number == n
  }

  /** Ends the attempt, queues attempt `number + 1` unless that number is taken, and hands the
      inputs back. */
  function Retry(b: Board, a: Id, status: AttemptStatus, failure: Option<Failure>,
                       next: Id, at: Time): Board
    requires a in b.attempts && b.attempts[a].execution in b.executions
  {
    var row := b.attempts[a];
    var ended := b.attempts[a := Ended(row, status, failure)];
    Board(
      b.executions,
      if NumberTaken(ended, row.execution, row.number + 1) then ended
      else ended[next := Attempt(row.execution, row.number + 1, AttemptStatus.Pending, None, at, None)],
      Release(b.deliveries, b.executions[row.execution].inputs, at))
  }

  /** The trigger `sync_attempt_delivery_lease`: after an update of an attempt row, the inputs
      leased under the same token take over its expiry. */
  function SyncLease(b: Board, before: Attempt, after: Attempt): map<Id, Delivery>
    requires after.execution in b.executions
  {
    if Active(after.status) && after.lease.Some?
       && (before.lease.None? || before.lease.value.expires != after.lease.value.expires
           || before.status != after.status)
    then
      map d | d in b.deliveries ::
        if d in b.executions[after.execution].inputs && b.deliveries[d].status.Leased?
           && b.deliveries[d].lease.Some? && b.deliveries[d].lease.value.token == after.lease.value.token
        then b.deliveries[d].(lease := after.lease)
        else b.deliveries[d]
    else b.deliveries
  }

  /** Updates one attempt row and fires the trigger. */
  function UpdateAttempt(b: Board, a: Id, row: Attempt): Board
    requires a in b.attempts && row.execution in b.executions
  {
    b.(attempts := b.attempts[a := row], deliveries := SyncLease(b, b.attempts[a], row))
  }

  /** Leases a queued attempt and its inputs. */
  function LeasePending(b: Board, a: Id, lease: Lease, now: Time): Board
    requires a in b.attempts && b.attempts[a].execution in b.executions
  {
    var updated := UpdateAttempt(b, a,
      b.attempts[a].(status := AttemptStatus.Leased, lease := Some(lease), startedAt := now));
    updated.(deliveries := Grant(updated.deliveries, InputsOf(b, a), lease))
  }

  /** Creates an execution over ready deliveries with its first attempt leased at once. */
  function StartExecution(b: Board, e: Id, a: Id, row: Execution, lease: Lease, now: Time): Board {
    Board(
      b.executions[e := row],
      b.attempts[a := Attempt(e, 1, AttemptStatus.Leased, Some(lease), now, None)],
      Grant(b.deliveries, row.inputs, lease))
  }

  /** A heartbeat: the attempt runs on under a later expiry. */
  function Extend(b: Board, a: Id, expires: Time): Board
    requires a in b.attempts && b.attempts[a].execution in b.executions && b.attempts[a].lease.Some?
  {
    var row := b.attempts[a];
    UpdateAttempt(b, a, row.(status := AttemptStatus.Running, lease := Some(row.lease.value.(expires := expires))))
  }

  function AddDelivery(b: Board, d: Id, row: Delivery): Board {
    b.(deliveries := b.deliveries[d := row])
  }

  /** Cancels the live attempts of `es`, fails those of `es` that run, cancels the open
      deliveries among `ds`. */
  function CancelAll(b: Board, es: set<Id>, ds: set<Id>, cause: Failure): Board {
    Board(
      map e | e in b.executions ::
        if e in es && b.executions[e].status.Running?
        then b.executions[e].(status := ExecutionStatus.Failed, failure := Some(cause))
        else b.executions[e],
      map a | a in b.attempts ::
        if b.attempts[a].execution in es && Live(b.attempts[a].status)
        then Ended(b.attempts[a], AttemptStatus.Cancelled, None)
        else b.attempts[a],
      map d | d in b.deliveries ::
        if d in ds && Open(b.deliveries[d].status)
        then b.deliveries[d].(status := DeliveryStatus.Cancelled, lease := None)
        else b.deliveries[d])
  }

  // ---------------------------------------------------------------- the authority invariant

  /** Foreign keys, check constraints and the retry bound. */
  ghost predicate RowsValid(b: Board) {
    && (forall e :: e in b.executions ==> ExecutionChecks(b.executions[e]))
    && (forall d :: d in b.deliveries ==> DeliveryChecks(b.deliveries[d]))
    && (forall a :: a in b.attempts ==>
          && AttemptChecks(b.attempts[a])
          && b.attempts[a].number <= MAX_ATTEMPTS
          && b.attempts[a].execution in b.executions)
  }

  /** Attempts of one execution carry distinct numbers without gaps, and a live one is the last. */
  ghost predicate Numbered(attempts: map<Id, Attempt>) {
    && (forall a, c :: a in attempts && c in attempts && a != c && attempts[a].execution == attempts[c].execution
          ==> attempts[a].number != attempts[c].number
              && (Live(attempts[a].status) ==> attempts[c].number < attempts[a].number))
    && (forall a, n :: a in attempts && 1 <= n <= attempts[a].number ==>
       NumberTaken(attempts, attempts[a].execution, n))
  }

  /** Each delivery feeds at most one execution; inputs share region and correlation. */
  ghost predicate InputsOwned(b: Board) {
    && (forall e :: e in b.executions ==>
          b.executions[e].trigger in b.executions[e].inputs && b.executions[e].inputs <= b.deliveries.Keys)
    && (forall e, d :: e in b.executions && d in b.executions[e].inputs ==>
          && d in b.deliveries
          && b.executions[e].trigger in b.deliveries
          && b.deliveries[d].region == b.executions[e].region
          && b.deliveries[d].correlation == b.deliveries[b.executions[e].trigger].correlation)
    && (forall e, f, d :: e in b.executions && f in b.executions && d in b.executions[e].inputs
                          && d in b.executions[f].inputs
          ==> e == f)
  }

  /** What the state of an attempt says about one of its inputs. */
  predicate Holds(row: Attempt, input: Delivery) {
    && (row.status.Pending? ==> input.status.Ready? && input.leases + 1 == row.number)
    && (Active(row.status) ==> input.status.Leased? && input.lease == row.lease && input.leases == row.number)
  }

  /** A live attempt belongs to a running execution and holds all its inputs. */
  ghost predicate LiveHolds(b: Board) {
    forall a :: a in b.attempts && Live(b.attempts[a].status) ==>
      && b.attempts[a].execution in b.executions
      && b.executions[b.attempts[a].execution].status.Running?
      && forall d :: d in b.executions[b.attempts[a].execution].inputs && d in b.deliveries ==>
         Holds(b.attempts[a], b.deliveries[d])
  }

  ghost predicate HasLive(attempts: map<Id, Attempt>, e: Id) {
    exists a :: a in attempts && attempts[a].execution == e && Live(attempts[a].status)
  }

  ghost predicate RunningLives(b: Board) {
    forall e :: e in b.executions && b.executions[e].status.Running? ==> HasLive(b.attempts, e)
  }

  /** What the state of an execution says about one of its inputs. */
  predicate SettledWith(status: ExecutionStatus, input: Delivery) {
    && input.leases <= MAX_ATTEMPTS
    && (status.Completed? ==> input.status.Completed?)
    && (status.Failed? ==> input.status.DeadLettered? || input.status.Cancelled?)
  }

  /** An ended execution has settled all its inputs, and no input is leased more than four times. */
  ghost predicate InputsSettled(b: Board) {
    forall e, d :: e in b.executions && d in b.executions[e].inputs && d in b.deliveries ==>
      SettledWith(b.executions[e].status, b.deliveries[d])
  }

  ghost predicate Claimed(b: Board, d: Id) {
    exists e :: e in b.executions && d in b.executions[e].inputs
  }

  /** A delivery no execution has taken was never leased. */
  ghost predicate UnclaimedIdle(b: Board) {
    forall d :: d in b.deliveries && !Claimed(b, d) ==>
      b.deliveries[d].leases == 0 && (b.deliveries[d].status.Ready? || b.deliveries[d].status.Cancelled?)
  }

  ghost predicate Authority(b: Board) {
    && RowsValid(b)
    && Numbered(b.attempts)
    && InputsOwned(b)
    && LiveHolds(b)
    && RunningLives(b)
    && InputsSettled(b)
    && UnclaimedIdle(b)
  }
}
