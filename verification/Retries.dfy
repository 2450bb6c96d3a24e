/** No execution is leased more than four times, and only finitely often does its authority move:
    a measure on its live attempt falls with every lease, commit, abandonment and cancellation. */
module Retries {
  import opened Basics
  import opened Board
  import opened AuthorityProofs
  import opened Evolution
  import opened RuntimeTables
  import opened RuntimeSafety
  import opened Publication
  import opened RuntimeConsistency
  import opened RuntimeRuns

  /** How often the trigger delivery of execution `e` was leased. */
  ghost function LeasesOf(b: Board, e: Id): nat {
    if e in b.executions && b.executions[e].trigger in b.deliveries
    then b.deliveries[b.executions[e].trigger].leases
    else 0
  }

  /** Between `b` and `c` an attempt of `e` acquires a lease. */
  ghost predicate Grants(b: Board, c: Board, e: Id) {
    exists a :: a in c.attempts && c.attempts[a].execution == e && Active(c.attempts[a].status)
                && !(a in b.attempts && Active(b.attempts[a].status))
  }

  lemma LeasesRise(b: Board, c: Board, e: Id)
    requires InputsOwned(b) && Evolves(b, c)
    ensures LeasesOf(b, e) <= LeasesOf(c, e)
  {
  }

  lemma LeasesBounded(b: Board, e: Id)
    requires InputsOwned(b) && InputsSettled(b)
    ensures LeasesOf(b, e) <= MAX_ATTEMPTS
  {
    if e in b.executions {
      assert b.executions[e].trigger in b.executions[e].inputs;
      assert SettledWith(b.executions[e].status, b.deliveries[b.executions[e].trigger]);
    }
  }

  /** The lease count of an active attempt's trigger is the attempt number. */
  lemma ActiveCounts(b: Board, a: Id)
    requires InputsOwned(b) && LiveHolds(b) && a in b.attempts && Live(b.attempts[a].status)
    ensures LeasesOf(b, b.attempts[a].execution)
            == b.attempts[a].number - (if Active(b.attempts[a].status) then 0 else 1)
  {
    var e := b.attempts[a].execution;
    assert b.executions[e].trigger in b.executions[e].inputs;
    assert Holds(b.attempts[a], b.deliveries[b.executions[e].trigger]);
  }

  lemma GrantCounts(b: Board, c: Board, e: Id, clock: Time)
    requires Authority(b) && Authority(c) && Advances(b, c, clock)
    ensures LeasesOf(b, e) + (if Grants(b, c, e) then 1 else 0) <= LeasesOf(c, e) <= MAX_ATTEMPTS
  {
    hide InputsOwned, LiveHolds, InputsSettled, Numbered, LeasesOf, RunningLives, UnclaimedIdle, ExecutionsEvolve,
      DeliveriesEvolve, LeasesAhead;
    LeasesRise(b, c, e);
    LeasesBounded(c, e);
    if Grants(b, c, e) {
      var a :| a in c.attempts && c.attempts[a].execution == e && Active(c.attempts[a].status)
               && !(a in b.attempts && Active(b.attempts[a].status));
      ActiveCounts(c, a);
      if a in b.attempts {
        ActiveCounts(b, a);
      } else {
        NoLeases(b, e);
      }
    }
  }

  lemma NoLeases(b: Board, e: Id)
    requires e !in b.executions
    ensures LeasesOf(b, e) == 0
  {
  }

  /** How many steps of a run lease an attempt of `e`. */
  ghost function LeaseCount(w: World, steps: seq<Step>, e: Id): nat {
    if |steps| == 0 then 0
    else
      LeaseCount(w, steps[..|steps| - 1], e)
      + (if Grants(Execute(w, steps[..|steps| - 1]).tables.board, Execute(w, steps).tables.board, e) then 1 else 0)
  }

  lemma ReliableBoard(w: World)
    requires Reliable(w)
    ensures Authority(w.tables.board)
  {
    hide Authority, Allocated, WinnerLast, SubmissionsValid, Published, Sequenced, Accounted, Sweeping;
  }

  lemma StepGrants(w: World, step: Step, e: Id)
    requires Reliable(w)
    ensures var c := Apply(w, step).tables.board;
            LeasesOf(w.tables.board, e) + (if Grants(w.tables.board, c, e) then 1 else 0)
            <= LeasesOf(c, e) <= MAX_ATTEMPTS
  {
    hide Reliable, Effect, Authority, Advances, LeasesOf, Grants;
    StepReliable(w, step);
    ReliableBoard(w);
    ReliableBoard(Apply(w, step));
    StepAdvances(w, step);
    GrantCounts(w.tables.board, Apply(w, step).tables.board, e, w.tables.clock);
  }

  /** In any run no execution is leased more than four times. */
  lemma {:induction false} AtMostFourLeases(w: World, steps: seq<Step>, e: Id)
    requires Reliable(w)
    ensures LeasesOf(w.tables.board, e)
            + LeaseCount(w, steps, e) <= LeasesOf(Execute(w, steps).tables.board, e) <= MAX_ATTEMPTS
  {
    hide Reliable, Apply, LeasesOf, Grants;
    if |steps| > 0 {
      AtMostFourLeases(w, steps[..|steps| - 1], e);
      RunReliable(w, steps[..|steps| - 1]);
      StepGrants(Execute(w, steps[..|steps| - 1]), steps[|steps| - 1], e);
    } else {
      LeasesWithin(w, e);
    }
  }

  lemma LeasesWithin(w: World, e: Id)
    requires Reliable(w)
    ensures LeasesOf(w.tables.board, e) <= MAX_ATTEMPTS
  {
    hide Reliable, LeasesOf, InputsOwned, LiveHolds, InputsSettled, Numbered, RunningLives, UnclaimedIdle, RowsValid;
    ReliableBoard(w);
    LeasesBounded(w.tables.board, e);
  }

  // ---------------------------------------------------------------- the measure

  /** The pair (4 - number, pending > active > ended) as one number. */
  function Rank(row: Attempt): int {
    3 * (MAX_ATTEMPTS - row.number) + (if row.status.Pending? then 2 else 1)
  }

  /** The rank of the live attempt of `e`, and nothing once `e` has ended. */
  ghost function Budget(b: Board, e: Id): int {
    if HasLive(b.attempts, e)
    then var a :| a in b.attempts && b.attempts[a].execution == e && Live(b.attempts[a].status); Rank(b.attempts[a])
    else 0
  }

  lemma BudgetOfLive(b: Board, a: Id)
    requires RowsValid(b) && Numbered(b.attempts) && a in b.attempts && Live(b.attempts[a].status)
    ensures Budget(b, b.attempts[a].execution) == Rank(b.attempts[a]) && 1 <= Rank(b.attempts[a]) <= 11
  {
    LiveAlone(b, a);
    assert HasLive(b.attempts, b.attempts[a].execution);
  }

  /** Authority over `e` moves: its live attempt is leased or ends. */
  ghost predicate Moving(b: Board, c: Board, e: Id) {
    exists a :: a in b.attempts && b.attempts[a].execution == e && Live(b.attempts[a].status)
                && a in c.attempts && (!Live(c.attempts[a].status)
                                       || (b.attempts[a].status.Pending? && Active(c.attempts[a].status)))
  }

  lemma EndedStaysEnded(b: Board, c: Board, e: Id)
    requires e in b.executions && ExecutionsEvolve(b, c) && RunningLives(b) && LiveHolds(c) && !HasLive(b.attempts, e)
    ensures !HasLive(c.attempts, e)
  {
  }

  /** Each step lowers the budget or leaves it; whenever authority moves, it falls. */
  lemma BudgetFalls(b: Board, c: Board, e: Id, clock: Time)
    requires Authority(b) && Authority(c) && Advances(b, c, clock) && e in b.executions
    ensures 0 <= Budget(c, e) <= Budget(b, e) <= 11
    ensures Moving(b, c, e) ==> Budget(c, e) < Budget(b, e)
  {
    hide InputsOwned, LiveHolds, InputsSettled, Numbered, RunningLives, UnclaimedIdle, Budget, RowsValid, LeasesAhead,
      AddsQueued, DeliveriesEvolve;
    hide ExecutionsEvolve, Rank;
    if !HasLive(b.attempts, e) {
      EndedStaysEnded(b, c, e);
      NoBudget(b, e);
      NoBudget(c, e);
    } else {
      var a :| a in b.attempts && b.attempts[a].execution == e && Live(b.attempts[a].status);
      BudgetOfLive(b, a);
      if HasLive(c.attempts, e) {
        var x :| x in c.attempts && c.attempts[x].execution == e && Live(c.attempts[x].status);
        BudgetOfLive(c, x);
        Falls(b, c, a, x);
        OnlyLive(b, a);
      } else {
        NoBudget(c, e);
      }
    }
  }

  lemma NoBudget(b: Board, e: Id)
    requires !HasLive(b.attempts, e)
    ensures Budget(b, e) == 0
  {
  }

  lemma OnlyLive(b: Board, a: Id)
    requires RowsValid(b) && Numbered(b.attempts) && a in b.attempts && Live(b.attempts[a].status)
    ensures forall x :: x in b.attempts && b.attempts[x].execution == b.attempts[a].execution
                        && Live(b.attempts[x].status) ==>
                          x == a
  {
  }

  lemma Falls(b: Board, c: Board, a: Id, x: Id)
    requires AttemptsEvolve(b, c) && RowsValid(c) && Numbered(c.attempts)
    requires a in b.attempts && Live(b.attempts[a].status)
    requires x in c.attempts && Live(c.attempts[x].status) && c.attempts[x].execution == b.attempts[a].execution
    ensures Rank(c.attempts[x]) <= Rank(b.attempts[a])
    ensures a in c.attempts && (!Live(c.attempts[a].status) ==> x != a)
    ensures x != a || (!c.attempts[a].status.Pending? && b.attempts[a].status.Pending?) ==>
            Rank(c.attempts[x]) < Rank(b.attempts[a])
  {
    assert a in c.attempts;
  }

  ghost function MoveCount(w: World, steps: seq<Step>, e: Id): nat {
    if |steps| == 0 then 0
    else
      MoveCount(w, steps[..|steps| - 1], e)
      + (if Moving(Execute(w, steps[..|steps| - 1]).tables.board, Execute(w, steps).tables.board, e) then 1 else 0)
  }

  lemma StepBudget(w: World, step: Step, e: Id)
    requires Reliable(w)
    ensures var b := w.tables.board;
            var c := Apply(w, step).tables.board;
            && (e in b.executions ==> e in c.executions
                                      && Budget(c, e) + (if Moving(b, c, e) then 1 else 0) <= Budget(b, e))
            && (e !in b.executions ==> !Moving(b, c, e))
            && 0 <= Budget(c, e) <= 11
  {
    hide Reliable, Effect, Authority, Advances, Budget, Moving;
    StepReliable(w, step);
    ReliableBoard(w);
    ReliableBoard(Apply(w, step));
    StepAdvances(w, step);
    BudgetBounds(Apply(w, step).tables.board, e);
    UnknownRests(w.tables.board, Apply(w, step).tables.board, e);
    if e in w.tables.board.executions {
      KnownStays(w.tables.board, Apply(w, step).tables.board, e, w.tables.clock);
      BudgetFalls(w.tables.board, Apply(w, step).tables.board, e, w.tables.clock);
    }
  }

  lemma KnownStays(b: Board, c: Board, e: Id, clock: Time)
    requires Advances(b, c, clock) && e in b.executions
    ensures e in c.executions
  {
  }

  lemma UnknownRests(b: Board, c: Board, e: Id)
    requires Authority(b)
    ensures e !in b.executions ==> !Moving(b, c, e)
  {
  }

  lemma BudgetBounds(b: Board, e: Id)
    requires Authority(b)
    ensures 0 <= Budget(b, e) <= 11
  {
    hide InputsOwned, LiveHolds, InputsSettled, Numbered, RunningLives, UnclaimedIdle, Budget, RowsValid, Rank;
    if HasLive(b.attempts, e) {
      var a :| a in b.attempts && b.attempts[a].execution == e && Live(b.attempts[a].status);
      BudgetOfLive(b, a);
    } else {
      NoBudget(b, e);
    }
  }

  /** In any run the authority over one execution moves at most eleven times. */
  lemma {:induction false} AuthorityMovesRarely(w: World, steps: seq<Step>, e: Id)
    requires Reliable(w)
    ensures var start := if e in w.tables.board.executions then Budget(w.tables.board, e) else 11;
            MoveCount(w, steps, e) + (if e in Execute(w, steps).tables.board.executions
              then Budget(Execute(w, steps).tables.board, e) else 11) <= start <= 11
    ensures MoveCount(w, steps, e) <= 11
  {
    hide Reliable, Apply, Budget, Moving;
    BudgetFrom(w, e);
    if |steps| > 0 {
      AuthorityMovesRarely(w, steps[..|steps| - 1], e);
      RunReliable(w, steps[..|steps| - 1]);
      StepBudget(Execute(w, steps[..|steps| - 1]), steps[|steps| - 1], e);
    }
  }

  lemma BudgetFrom(w: World, e: Id)
    requires Reliable(w)
    ensures 0 <= Budget(w.tables.board, e) <= 11
  {
    hide Reliable, Authority, Budget;
    ReliableBoard(w);
    BudgetBounds(w.tables.board, e);
  }
}
