/** Every row update the services make keeps the authority invariant.  One lemma per conjunct of
    the invariant, so that each proof sees only the conjuncts it needs. */
module AuthorityProofs {
  import opened Basics
  import opened Board

  // ---------------------------------------------------------------- shared facts

  lemma TakenStays(before: map<Id, Attempt>, after: map<Id, Attempt>, e: Id, n: nat)
    requires NumberTaken(before, e, n)
    requires forall a :: a in before ==>
             a in after && after[a].execution == before[a].execution && after[a].number == before[a].number
    ensures NumberTaken(after, e, n)
  {
    var w :| w in before && before[w].execution == e && before[w].number == n;
    assert w in after;
  }

  lemma LiveStays(before: map<Id, Attempt>, after: map<Id, Attempt>, e: Id)
    requires HasLive(before, e)
    requires forall a :: a in before && before[a].execution == e && Live(before[a].status) ==>
               a in after && after[a].execution == e && Live(after[a].status)
    ensures HasLive(after, e)
  {
    var w :| w in before && before[w].execution == e && Live(before[w].status);
    assert w in after;
  }

  /** Changing a row without changing its number, and without reviving it, keeps the numbering. */
  lemma NumbersKept(attempts: map<Id, Attempt>, a: Id, row: Attempt)
    requires Numbered(attempts) && a in attempts
    requires row.execution == attempts[a].execution && row.number == attempts[a].number
    requires Live(row.status) ==> Live(attempts[a].status)
    ensures Numbered(attempts[a := row])
  {
    var after := attempts[a := row];
    forall x, n | x in after && 1 <= n <= after[x].number
      ensures NumberTaken(after, after[x].execution, n)
    {
      TakenStays(attempts, after, attempts[x].execution, n);
    }
  }

  lemma NumbersAppended(attempts: map<Id, Attempt>, next: Id, row: Attempt)
    requires Numbered(attempts) && next !in attempts && 1 <= row.number
    requires forall c :: c in attempts && attempts[c].execution == row.execution ==>
               !Live(attempts[c].status) && attempts[c].number < row.number
    requires row.number == 1 || NumberTaken(attempts, row.execution, row.number - 1)
    ensures Numbered(attempts[next := row])
  {
    var after := attempts[next := row];
    forall x, n | x in after && 1 <= n <= after[x].number
      ensures NumberTaken(after, after[x].execution, n)
    {
      if x == next && n == row.number {
        assert next in after && after[next].number == n;
      } else if x == next {
        var w :| w in attempts && attempts[w].execution == row.execution && attempts[w].number == row.number - 1;
        assert NumberTaken(attempts, attempts[w].execution, n);
        TakenStays(attempts, after, row.execution, n);
      } else {
        TakenStays(attempts, after, attempts[x].execution, n);
      }
    }
  }

  lemma ClaimsAlike(b: Board, c: Board)
    requires b.executions.Keys == c.executions.Keys
    requires forall e :: e in b.executions ==> b.executions[e].inputs == c.executions[e].inputs
    ensures forall d :: Claimed(c, d) <==> Claimed(b, d)
  {
    forall d ensures Claimed(c, d) <==> Claimed(b, d) {
      if Claimed(c, d) {
        var e :| e in c.executions && d in c.executions[e].inputs;
        assert e in b.executions && d in b.executions[e].inputs;
      }
      if Claimed(b, d) {
        var e :| e in b.executions && d in b.executions[e].inputs;
        assert e in c.executions && d in c.executions[e].inputs;
      }
    }
  }

  /** The immutable columns. */
  ghost predicate Stable(b: Board, c: Board) {
    && b.executions.Keys == c.executions.Keys
    && b.deliveries.Keys == c.deliveries.Keys
    && (forall e :: e in b.executions ==>
          && c.executions[e].region == b.executions[e].region
          && c.executions[e].inputs == b.executions[e].inputs
          && c.executions[e].trigger == b.executions[e].trigger)
    && (forall d :: d in b.deliveries ==>
          && c.deliveries[d].region == b.deliveries[d].region
          && c.deliveries[d].correlation == b.deliveries[d].correlation)
  }

  lemma OwnershipKept(b: Board, c: Board)
    requires InputsOwned(b) && Stable(b, c)
    ensures InputsOwned(c)
  {
  }

  /** Deliveries outside every execution's inputs are as they were. */
  lemma IdleKept(b: Board, c: Board)
    requires UnclaimedIdle(b) && Stable(b, c)
    requires forall d :: d in b.deliveries && !Claimed(b, d) ==>
               c.deliveries[d] == b.deliveries[d]
                 || (c.deliveries[d].leases == b.deliveries[d].leases && c.deliveries[d].status.Cancelled?)
    ensures UnclaimedIdle(c)
  {
    ClaimsAlike(b, c);
  }

  /** The inputs of a live attempt belong to no other live attempt and no other execution. */
  lemma LiveAlone(b: Board, a: Id)
    requires RowsValid(b) && Numbered(b.attempts)
    requires a in b.attempts && Live(b.attempts[a].status)
    ensures forall c :: c in b.attempts && c != a && Live(b.attempts[c].status) ==>
            b.attempts[c].execution != b.attempts[a].execution
    ensures forall c :: c in b.attempts && c != a && b.attempts[c].execution == b.attempts[a].execution ==>
            b.attempts[c].number < b.attempts[a].number
  {
  }

  // ---------------------------------------------------------------- a change around one execution

  /** `c` differs from `b` only in execution `e`, its attempts and its inputs. */
  ghost predicate Around(b: Board, c: Board, e: Id) {
    && Stable(b, c)
    && e in b.executions
    && (forall f :: f in b.executions && f != e ==> c.executions[f] == b.executions[f])
    && (forall a :: a in b.attempts ==> a in c.attempts && c.attempts[a].execution == b.attempts[a].execution)
    && (forall a :: a in b.attempts && b.attempts[a].execution != e ==> c.attempts[a] == b.attempts[a])
    && (forall a :: a in c.attempts && c.attempts[a].execution != e ==>
       a in b.attempts && c.attempts[a] == b.attempts[a])
    && (forall d :: d in b.deliveries && d !in b.executions[e].inputs ==> c.deliveries[d] == b.deliveries[d])
  }

  lemma AroundHolds(b: Board, c: Board, e: Id)
    requires InputsOwned(b) && LiveHolds(b) && Around(b, c, e)
    requires forall a :: a in c.attempts && c.attempts[a].execution == e && Live(c.attempts[a].status) ==>
               && c.executions[e].status.Running?
               && forall d :: d in c.executions[e].inputs && d in c.deliveries ==> Holds(c.attempts[a], c.deliveries[d])
    ensures LiveHolds(c)
  {
    forall a | a in c.attempts && Live(c.attempts[a].status)
      ensures c.attempts[a].execution in c.executions && c.executions[c.attempts[a].execution].status.Running?
      ensures forall d :: d in c.executions[c.attempts[a].execution].inputs && d in c.deliveries ==>
              Holds(c.attempts[a], c.deliveries[d])
    {
      var f := c.attempts[a].execution;
      if f != e {
        assert b.attempts[a] == c.attempts[a] && f in b.executions;
        forall d | d in c.executions[f].inputs && d in c.deliveries ensures Holds(c.attempts[a], c.deliveries[d]) {
          assert d in b.executions[f].inputs;
          assert d !in b.executions[e].inputs;
        }
      }
    }
  }

  lemma AroundLives(b: Board, c: Board, e: Id)
    requires RunningLives(b) && Around(b, c, e)
    requires c.executions[e].status.Running? ==> HasLive(c.attempts, e)
    ensures RunningLives(c)
  {
    forall f | f in c.executions && f != e && c.executions[f].status.Running? ensures HasLive(c.attempts, f) {
      LiveStays(b.attempts, c.attempts, f);
    }
  }

  lemma AroundSettled(b: Board, c: Board, e: Id)
    requires InputsOwned(b) && InputsSettled(b) && Around(b, c, e)
    requires forall d :: d in c.executions[e].inputs && d in c.deliveries ==>
             SettledWith(c.executions[e].status, c.deliveries[d])
    ensures InputsSettled(c)
  {
    forall f, d | f in c.executions && d in c.executions[f].inputs && d in c.deliveries
      ensures SettledWith(c.executions[f].status, c.deliveries[d])
    {
      if f != e { assert d !in b.executions[e].inputs; }
    }
  }

  lemma AroundIdle(b: Board, c: Board, e: Id)
    requires UnclaimedIdle(b) && Around(b, c, e)
    ensures UnclaimedIdle(c)
  {
    forall d | d in b.deliveries && !Claimed(b, d) ensures c.deliveries[d] == b.deliveries[d] {
      assert d !in b.executions[e].inputs;
    }
    IdleKept(b, c);
  }

  // ---------------------------------------------------------------- leasing and heartbeats

  predicate Newborn(row: Delivery) { row.status.Ready? && row.lease.None? && row.leases == 0 }

  lemma AddedRows(b: Board, d: Id, row: Delivery)
    requires RowsValid(b) && d !in b.deliveries && Newborn(row)
    ensures RowsValid(AddDelivery(b, d, row))
  {
  }

  lemma AddedOwned(b: Board, d: Id, row: Delivery)
    requires InputsOwned(b) && d !in b.deliveries && Newborn(row)
    ensures InputsOwned(AddDelivery(b, d, row))
  {
  }

  lemma AddedLives(b: Board, d: Id, row: Delivery)
    requires RunningLives(b)
    ensures RunningLives(AddDelivery(b, d, row))
  {
  }

  lemma AddedInputs(b: Board, d: Id, row: Delivery)
    requires InputsOwned(b) && LiveHolds(b) && InputsSettled(b) && d !in b.deliveries
    ensures LiveHolds(AddDelivery(b, d, row)) && InputsSettled(AddDelivery(b, d, row))
  {
  }

  lemma AddedIdle(b: Board, d: Id, row: Delivery)
    requires UnclaimedIdle(b) && d !in b.deliveries && Newborn(row)
    ensures UnclaimedIdle(AddDelivery(b, d, row))
  {
    ClaimsAlike(b, AddDelivery(b, d, row));
  }

  lemma AddDeliveryKeeps(b: Board, d: Id, row: Delivery)
    requires Authority(b) && d !in b.deliveries && Newborn(row)
    ensures Authority(AddDelivery(b, d, row))
  {
    hide RowsValid, Numbered, InputsOwned, LiveHolds, RunningLives, InputsSettled, UnclaimedIdle, Newborn;
    AddedRows(b, d, row);
    AddedOwned(b, d, row);
    AddedLives(b, d, row);
    AddedInputs(b, d, row);
    AddedIdle(b, d, row);
  }

  /** The scheduler's choice of inputs for a new execution. */
  ghost predicate Startable(b: Board, e: Id, a: Id, row: Execution) {
    && e !in b.executions && a !in b.attempts
    && row.status.Running? && row.failure.None?
    && row.trigger in row.inputs && row.inputs <= b.deliveries.Keys
    && forall d :: d in row.inputs ==>
         && d in b.deliveries
         && b.deliveries[d].status.Ready?
         && !Claimed(b, d)
         && b.deliveries[d].region == row.region
         && b.deliveries[d].correlation == b.deliveries[row.trigger].correlation
  }

  lemma StartOwned(b: Board, e: Id, a: Id, row: Execution, lease: Lease, now: Time)
    requires InputsOwned(b) && Startable(b, e, a, row)
    ensures InputsOwned(StartExecution(b, e, a, row, lease, now))
  {
    forall d, f | d in row.inputs && f in b.executions ensures d !in b.executions[f].inputs {
      assert !Claimed(b, d);
    }
  }

  lemma StartNumbered(b: Board, e: Id, a: Id, row: Execution, lease: Lease, now: Time)
    requires RowsValid(b) && Numbered(b.attempts) && Startable(b, e, a, row)
    ensures Numbered(StartExecution(b, e, a, row, lease, now).attempts)
  {
    NumbersAppended(b.attempts, a, Attempt(e, 1, AttemptStatus.Leased, Some(lease), now, None));
  }

  lemma StartHolds(b: Board, e: Id, a: Id, row: Execution, lease: Lease, now: Time)
    requires RowsValid(b) && UnclaimedIdle(b) && LiveHolds(b) && Startable(b, e, a, row)
    ensures LiveHolds(StartExecution(b, e, a, row, lease, now))
  {
    var c := StartExecution(b, e, a, row, lease, now);
    forall x, d | x in b.attempts && d in row.inputs && b.attempts[x].execution in b.executions
      ensures d !in b.executions[b.attempts[x].execution].inputs
    {
      assert !Claimed(b, d);
    }
    forall x | x in c.attempts && Live(c.attempts[x].status)
      ensures c.attempts[x].execution in c.executions && c.executions[c.attempts[x].execution].status.Running?
      ensures forall d :: d in c.executions[c.attempts[x].execution].inputs && d in c.deliveries ==>
              Holds(c.attempts[x], c.deliveries[d])
    {
      if x != a {
        assert b.attempts[x].execution != e;
      }
    }
  }

  lemma StartLives(b: Board, e: Id, a: Id, row: Execution, lease: Lease, now: Time)
    requires RunningLives(b) && Startable(b, e, a, row)
    ensures RunningLives(StartExecution(b, e, a, row, lease, now))
  {
    var c := StartExecution(b, e, a, row, lease, now);
    forall f | f in c.executions && c.executions[f].status.Running? ensures HasLive(c.attempts, f) {
      if f == e { assert a in c.attempts && c.attempts[a].execution == e; }
      else { LiveStays(b.attempts, c.attempts, f); }
    }
  }

  lemma StartSettled(b: Board, e: Id, a: Id, row: Execution, lease: Lease, now: Time)
    requires UnclaimedIdle(b) && InputsSettled(b) && Startable(b, e, a, row)
    ensures InputsSettled(StartExecution(b, e, a, row, lease, now))
  {
    forall f, d | f in b.executions && d in b.executions[f].inputs ensures d !in row.inputs {
      assert Claimed(b, d);
    }
  }

  lemma StartIdle(b: Board, e: Id, a: Id, row: Execution, lease: Lease, now: Time)
    requires UnclaimedIdle(b) && Startable(b, e, a, row)
    ensures UnclaimedIdle(StartExecution(b, e, a, row, lease, now))
  {
    var c := StartExecution(b, e, a, row, lease, now);
    forall d | Claimed(b, d) ensures Claimed(c, d) {
      var f :| f in b.executions && d in b.executions[f].inputs;
      assert f in c.executions && d in c.executions[f].inputs;
    }
    forall d | d in row.inputs ensures Claimed(c, d) {
      assert e in c.executions && d in c.executions[e].inputs;
    }
  }

  lemma StartExecutionKeeps(b: Board, e: Id, a: Id, row: Execution, lease: Lease, now: Time)
    requires Authority(b) && Startable(b, e, a, row)
    ensures Authority(StartExecution(b, e, a, row, lease, now))
  {
    hide Numbered, InputsOwned, LiveHolds, RunningLives, InputsSettled, UnclaimedIdle;
    StartOwned(b, e, a, row, lease, now);
    StartNumbered(b, e, a, row, lease, now);
    StartHolds(b, e, a, row, lease, now);
    StartLives(b, e, a, row, lease, now);
    StartSettled(b, e, a, row, lease, now);
    StartIdle(b, e, a, row, lease, now);
  }

  /** The rows of execution `e` and its live attempts and inputs agree with each other. */
  ghost predicate Agrees(c: Board, e: Id) {
    && e in c.executions
    && (c.executions[e].status.Running? ==> HasLive(c.attempts, e))
    && (forall a :: a in c.attempts && c.attempts[a].execution == e && Live(c.attempts[a].status) ==>
          && c.executions[e].status.Running?
          && forall d :: d in c.executions[e].inputs && d in c.deliveries ==> Holds(c.attempts[a], c.deliveries[d]))
    && (forall d :: d in c.executions[e].inputs && d in c.deliveries ==>
       SettledWith(c.executions[e].status, c.deliveries[d]))
  }

  /** A change around one execution whose rows then agree keeps authority. */
  lemma AroundKeeps(b: Board, c: Board, e: Id)
    requires Authority(b) && Around(b, c, e) && RowsValid(c) && Numbered(c.attempts) && Agrees(c, e)
    ensures Authority(c)
  {
    hide Numbered, InputsOwned, LiveHolds, RunningLives, InputsSettled, UnclaimedIdle, RowsValid, HasLive, Holds,
      SettledWith;
    OwnershipKept(b, c);
    AroundHolds(b, c, e);
    AroundLives(b, c, e);
    AroundSettled(b, c, e);
    AroundIdle(b, c, e);
  }

  /** Attempt `a` takes another live state and its inputs move with it. */
  ghost predicate Moves(b: Board, a: Id, row: Attempt, ds: map<Id, Delivery>) {
    && a in b.attempts && Live(b.attempts[a].status) && b.attempts[a].execution in b.executions
    && row.execution == b.attempts[a].execution && row.number == b.attempts[a].number
    && AttemptChecks(row) && Live(row.status)
    && ds.Keys == b.deliveries.Keys
    && (forall d :: d in ds && d !in InputsOf(b, a) ==> ds[d] == b.deliveries[d])
    && (forall d :: d in ds ==> ds[d].region == b.deliveries[d].region
                                && ds[d].correlation == b.deliveries[d].correlation)
    && (forall d :: d in InputsOf(b, a) && d in ds ==>
       DeliveryChecks(ds[d]) && Holds(row, ds[d]) && ds[d].leases <= MAX_ATTEMPTS)
  }

  function Moved(b: Board, a: Id, row: Attempt, ds: map<Id, Delivery>): Board {
    b.(attempts := b.attempts[a := row], deliveries := ds)
  }

  lemma MovedRows(b: Board, a: Id, row: Attempt, ds: map<Id, Delivery>)
    requires RowsValid(b) && Moves(b, a, row, ds)
    ensures RowsValid(Moved(b, a, row, ds)) && Around(b, Moved(b, a, row, ds), row.execution)
  {
  }

  lemma MovedAgrees(b: Board, a: Id, row: Attempt, ds: map<Id, Delivery>)
    requires RowsValid(b) && Numbered(b.attempts) && LiveHolds(b) && Moves(b, a, row, ds)
    ensures Numbered(Moved(b, a, row, ds).attempts) && Agrees(Moved(b, a, row, ds), row.execution)
  {
    LiveAlone(b, a);
    NumbersKept(b.attempts, a, row);
    var c := Moved(b, a, row, ds);
    assert a in c.attempts && c.attempts[a].execution == row.execution;
  }

  lemma MoveKeeps(b: Board, a: Id, row: Attempt, ds: map<Id, Delivery>)
    requires Authority(b) && Moves(b, a, row, ds)
    ensures Authority(Moved(b, a, row, ds))
  {
    hide Numbered, InputsOwned, LiveHolds, RunningLives, InputsSettled, UnclaimedIdle, RowsValid, Agrees, Around, Moved;
    MovedRows(b, a, row, ds);
    MovedAgrees(b, a, row, ds);
    AroundKeeps(b, Moved(b, a, row, ds), row.execution);
  }

  lemma LeasePendingMoves(b: Board, a: Id, lease: Lease, now: Time)
    requires RowsValid(b) && LiveHolds(b) && a in b.attempts && b.attempts[a].status.Pending?
    ensures b.attempts[a].execution in b.executions
    ensures var row := b.attempts[a].(status := AttemptStatus.Leased, lease := Some(lease), startedAt := now);
            var ds := Grant(b.deliveries, InputsOf(b, a), lease);
            Moves(b, a, row, ds) && LeasePending(b, a, lease, now) == Moved(b, a, row, ds)
  {
    var row := b.attempts[a].(status := AttemptStatus.Leased, lease := Some(lease), startedAt := now);
    // The inputs are ready, so the trigger finds no leased delivery to update.
    assert SyncLease(b, b.attempts[a], row) == b.deliveries;
  }

  lemma LeasePendingKeeps(b: Board, a: Id, lease: Lease, now: Time)
    requires Authority(b) && a in b.attempts && b.attempts[a].status.Pending?
    ensures b.attempts[a].execution in b.executions
    ensures Authority(LeasePending(b, a, lease, now))
  {
    hide Numbered, InputsOwned, LiveHolds, RunningLives, InputsSettled, UnclaimedIdle, RowsValid, Moves, LeasePending;
    LeasePendingMoves(b, a, lease, now);
    MoveKeeps(b, a, b.attempts[a].(status := AttemptStatus.Leased, lease := Some(lease), startedAt := now),
              Grant(b.deliveries, InputsOf(b, a), lease));
  }

  /** The trigger carries a heartbeat's expiry to every input. */
  lemma ExtendMoves(b: Board, a: Id, expires: Time)
    requires RowsValid(b) && InputsOwned(b) && LiveHolds(b) && a in b.attempts && Active(b.attempts[a].status)
    ensures b.attempts[a].execution in b.executions && b.attempts[a].lease.Some?
    ensures var lease := b.attempts[a].lease.value.(expires := expires);
            var row := b.attempts[a].(status := AttemptStatus.Running, lease := Some(lease));
            && Moves(b, a, row, Extend(b, a, expires).deliveries)
            && Extend(b, a, expires) == Moved(b, a, row, Extend(b, a, expires).deliveries)
            && forall d :: d in InputsOf(b, a) ==>
                 d in b.deliveries && Extend(b, a, expires).deliveries[d] == b.deliveries[d].(lease := Some(lease))
  {
    assert InputsOf(b, a) <= b.deliveries.Keys;
  }

  lemma ExtendKeeps(b: Board, a: Id, expires: Time)
    requires Authority(b) && a in b.attempts && Active(b.attempts[a].status)
    ensures b.attempts[a].lease.Some? && b.attempts[a].execution in b.executions
    ensures Authority(Extend(b, a, expires))
  {
    hide Numbered, InputsOwned, LiveHolds, RunningLives, InputsSettled, UnclaimedIdle, RowsValid, Moves, Extend;
    ExtendMoves(b, a, expires);
    var lease := b.attempts[a].lease.value.(expires := expires);
    MoveKeeps(b, a, b.attempts[a].(status := AttemptStatus.Running, lease := Some(lease)),
      Extend(b, a, expires).deliveries);
  }

  // ---------------------------------------------------------------- ending an attempt

  predicate ClosesProperly(status: AttemptStatus, failure: Option<Failure>, outcome: ExecutionStatus,
                           cause: Option<Failure>, fate: DeliveryStatus)
  {
    && !Live(status) && (status.Failed? <==> failure.Some?)
    && ((outcome.Completed? && cause.None? && fate.Completed?)
        || (outcome.Failed? && cause.Some? && fate.DeadLettered?))
  }

  lemma CloseRows(b: Board, a: Id, status: AttemptStatus, failure: Option<Failure>,
                  outcome: ExecutionStatus, cause: Option<Failure>, fate: DeliveryStatus)
    requires RowsValid(b) && a in b.attempts && ClosesProperly(status, failure, outcome, cause, fate)
    ensures RowsValid(Close(b, a, status, failure, outcome, cause, fate))
    ensures Around(b, Close(b, a, status, failure, outcome, cause, fate), b.attempts[a].execution)
  {
  }

  lemma CloseAgrees(b: Board, a: Id, status: AttemptStatus, failure: Option<Failure>,
                    outcome: ExecutionStatus, cause: Option<Failure>, fate: DeliveryStatus)
    requires RowsValid(b) && Numbered(b.attempts) && InputsSettled(b) && a in b.attempts && Live(b.attempts[a].status)
    requires ClosesProperly(status, failure, outcome, cause, fate)
    ensures Numbered(Close(b, a, status, failure, outcome, cause, fate).attempts)
    ensures Agrees(Close(b, a, status, failure, outcome, cause, fate), b.attempts[a].execution)
  {
    LiveAlone(b, a);
    NumbersKept(b.attempts, a, Ended(b.attempts[a], status, failure));
    var c := Close(b, a, status, failure, outcome, cause, fate);
    var e := b.attempts[a].execution;
    forall d | d in c.executions[e].inputs && d in c.deliveries ensures SettledWith(outcome, c.deliveries[d]) {
      assert SettledWith(b.executions[e].status, b.deliveries[d]);
    }
  }

  lemma CloseKeeps(b: Board, a: Id, status: AttemptStatus, failure: Option<Failure>,
                   outcome: ExecutionStatus, cause: Option<Failure>, fate: DeliveryStatus)
    requires Authority(b) && a in b.attempts && Active(b.attempts[a].status)
    requires ClosesProperly(status, failure, outcome, cause, fate)
    ensures b.attempts[a].execution in b.executions
    ensures Authority(Close(b, a, status, failure, outcome, cause, fate))
  {
    CloseRows(b, a, status, failure, outcome, cause, fate);
    hide Numbered, InputsOwned, LiveHolds, RunningLives, InputsSettled, UnclaimedIdle, Agrees, Around, Close,
      ClosesProperly;
    CloseAgrees(b, a, status, failure, outcome, cause, fate);
    AroundKeeps(b, Close(b, a, status, failure, outcome, cause, fate), b.attempts[a].execution);
  }

  /** The number after a live attempt is always free, so a replacement row is always inserted. */
  lemma NextNumberFree(b: Board, a: Id, status: AttemptStatus, failure: Option<Failure>)
    requires Authority(b) && a in b.attempts && Live(b.attempts[a].status)
    ensures !NumberTaken(b.attempts[a := Ended(b.attempts[a], status, failure)], b.attempts[a].execution,
            b.attempts[a].number + 1)
  {
    LiveAlone(b, a);
  }

  ghost predicate Retryable(b: Board, a: Id, status: AttemptStatus, failure: Option<Failure>, next: Id) {
    && a in b.attempts && Active(b.attempts[a].status) && b.attempts[a].execution in b.executions
    && b.attempts[a].number < MAX_ATTEMPTS && next !in b.attempts
    && !Live(status) && (status.Failed? <==> failure.Some?)
  }

  lemma RetryRows(b: Board, a: Id, status: AttemptStatus, failure: Option<Failure>, next: Id, at: Time)
    requires RowsValid(b) && Retryable(b, a, status, failure, next)
    ensures RowsValid(Retry(b, a, status, failure, next, at))
    ensures Around(b, Retry(b, a, status, failure, next, at), b.attempts[a].execution)
  {
  }

  lemma RetryNumbers(b: Board, a: Id, status: AttemptStatus, failure: Option<Failure>, next: Id, at: Time)
    requires RowsValid(b) && Numbered(b.attempts) && Retryable(b, a, status, failure, next)
    ensures Numbered(Retry(b, a, status, failure, next, at).attempts)
    ensures next in Retry(b, a, status, failure, next, at).attempts
  {
    var row := b.attempts[a];
    var ended := b.attempts[a := Ended(row, status, failure)];
    LiveAlone(b, a);
    NumbersKept(b.attempts, a, Ended(row, status, failure));
    assert NumberTaken(ended, row.execution, row.number) by { assert a in ended; }
    NumbersAppended(ended, next, Attempt(row.execution, row.number + 1, AttemptStatus.Pending, None, at, None));
  }

  lemma RetryAgrees(b: Board, a: Id, status: AttemptStatus, failure: Option<Failure>, next: Id, at: Time)
    requires RowsValid(b) && Numbered(b.attempts) && LiveHolds(b) && Retryable(b, a, status, failure, next)
    requires next in Retry(b, a, status, failure, next, at).attempts
    ensures Agrees(Retry(b, a, status, failure, next, at), b.attempts[a].execution)
  {
    var c := Retry(b, a, status, failure, next, at);
    LiveAlone(b, a);
    forall d | d in InputsOf(b, a) && d in b.deliveries ensures b.deliveries[d].leases == b.attempts[a].number {
      assert Holds(b.attempts[a], b.deliveries[d]);
    }
    assert c.attempts[next].execution == b.attempts[a].execution;
  }

  lemma RetryKeeps(b: Board, a: Id, status: AttemptStatus, failure: Option<Failure>, next: Id, at: Time)
    requires Authority(b) && Retryable(b, a, status, failure, next)
    ensures Authority(Retry(b, a, status, failure, next, at))
    ensures next in Retry(b, a, status, failure, next, at).attempts
  {
    hide Numbered, InputsOwned, LiveHolds, RunningLives, InputsSettled, UnclaimedIdle, Agrees, Around, Retry, RowsValid;
    RetryRows(b, a, status, failure, next, at);
    RetryNumbers(b, a, status, failure, next, at);
    RetryAgrees(b, a, status, failure, next, at);
    AroundKeeps(b, Retry(b, a, status, failure, next, at), b.attempts[a].execution);
  }

  // ---------------------------------------------------------------- cancellation

  /** `ds` holds all inputs of the executions in `es` and none of the others. */
  ghost predicate CancelsWhole(b: Board, es: set<Id>, ds: set<Id>) {
    forall e, d :: e in b.executions && d in b.executions[e].inputs ==> (e in es <==> d in ds)
  }

  lemma CancelNumbers(b: Board, es: set<Id>, ds: set<Id>, cause: Failure)
    requires Numbered(b.attempts)
    ensures Numbered(CancelAll(b, es, ds, cause).attempts)
  {
    var after := CancelAll(b, es, ds, cause).attempts;
    forall x, n | x in after && 1 <= n <= after[x].number
      ensures NumberTaken(after, after[x].execution, n)
    {
      TakenStays(b.attempts, after, b.attempts[x].execution, n);
    }
  }

  lemma CancelHolds(b: Board, es: set<Id>, ds: set<Id>, cause: Failure)
    requires LiveHolds(b) && CancelsWhole(b, es, ds)
    ensures LiveHolds(CancelAll(b, es, ds, cause))
  {
    var c := CancelAll(b, es, ds, cause);
    forall a | a in c.attempts && Live(c.attempts[a].status)
      ensures c.attempts[a].execution in c.executions && c.executions[c.attempts[a].execution].status.Running?
      ensures forall d :: d in c.executions[c.attempts[a].execution].inputs && d in c.deliveries ==>
              Holds(c.attempts[a], c.deliveries[d])
    {
      assert c.attempts[a] == b.attempts[a] && b.attempts[a].execution !in es;
    }
  }

  lemma CancelLives(b: Board, es: set<Id>, ds: set<Id>, cause: Failure)
    requires RunningLives(b)
    ensures RunningLives(CancelAll(b, es, ds, cause))
  {
    var c := CancelAll(b, es, ds, cause);
    forall f | f in c.executions && c.executions[f].status.Running? ensures HasLive(c.attempts, f) {
      LiveStays(b.attempts, c.attempts, f);
    }
  }

  lemma CancelSettled(b: Board, es: set<Id>, ds: set<Id>, cause: Failure)
    requires RunningLives(b) && InputsSettled(b) && LiveHolds(b) && CancelsWhole(b, es, ds)
    ensures InputsSettled(CancelAll(b, es, ds, cause))
  {
    var c := CancelAll(b, es, ds, cause);
    forall f, d | f in c.executions && d in c.executions[f].inputs && d in c.deliveries
      ensures SettledWith(c.executions[f].status, c.deliveries[d])
    {
      if b.executions[f].status.Running? && f in es {
        var w :| w in b.attempts && b.attempts[w].execution == f && Live(b.attempts[w].status);
        assert Holds(b.attempts[w], b.deliveries[d]);
      }
    }
  }

  lemma CancelAllKeeps(b: Board, es: set<Id>, ds: set<Id>, cause: Failure)
    requires Authority(b) && CancelsWhole(b, es, ds)
    ensures Authority(CancelAll(b, es, ds, cause))
  {
    hide Numbered, InputsOwned, LiveHolds, RunningLives, InputsSettled, UnclaimedIdle, CancelsWhole;
    var c := CancelAll(b, es, ds, cause);
    assert RowsValid(c);
    assert Stable(b, c);
    CancelNumbers(b, es, ds, cause);
    CancelHolds(b, es, ds, cause);
    CancelLives(b, es, ds, cause);
    CancelSettled(b, es, ds, cause);
    OwnershipKept(b, c);
    IdleKept(b, c);
  }
}
