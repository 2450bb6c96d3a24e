/** The dispatcher, the reconciler, the approval decision and the draft pull request adapter as they
    run, updating rows in place. */
module ExternalActionService {
  import opened Basics
  import opened Ordering
  import opened ExternalActions
  import opened ExternalReconciliation

  class Service {
    var actions: map<Id, Action>
    var tries: map<Id, Try>
    var approvals: map<Id, Approval>
    var nextId: nat

    constructor (rows: Rows)
      ensures Contents() == rows
    {
      actions, tries, approvals, nextId := rows.actions, rows.tries, rows.approvals, rows.nextId;
    }

    function Contents(): Rows
      reads this
    {
      Rows(actions, tries, approvals, nextId)
    }

    method MaxNumber(a: Id) returns (n: nat)
      ensures n == HighestNumber(tries, a)
    {
      var rest := tries.Keys;
      n := 0;
      while rest != {}
        invariant rest <= tries.Keys
        invariant forall x :: x in tries.Keys - rest && tries[x].action == a ==> tries[x].number <= n
        invariant n == 0 || exists x :: x in tries && tries[x].action == a && tries[x].number == n
        decreases |rest|
      {
        var x :| x in rest;
        if tries[x].action == a && n < tries[x].number {
          n := tries[x].number;
        }
        rest := rest - {x};
      }
      ghost var numbers := set x | x in tries && tries[x].action == a :: tries[x].number;
      assert n == 0 || n in numbers;
      assert forall m :: m in numbers ==> m <= n;
      if numbers != {} { assert MaxOf(numbers) in numbers; }
    }

    method PrepareDispatch(a: Id, current: bool, admitted: bool) returns (outcome: Preparation)
      modifies this
      ensures (Contents(), outcome) == Prepare(old(Contents()), a, current, admitted)
    {
      if a !in actions {
        return Missing;
      }
      if Uncertain(actions[a].status) {
        return UncertainAlready;
      }
      if !actions[a].status.Authorized? {
        return TerminalAlready;
      }
      if !current {
        actions := actions[a := actions[a].(status := ActionStatus.Cancelled)];
        return CancelledNow;
      }
      if !admitted {
        return Deferred;
      }
      var previous := MaxNumber(a);
      var id := nextId;
      nextId := nextId + 1;
      tries := tries[id := Try(a, previous + 1, TryStatus.Dispatching)];
      actions := actions[a := actions[a].(status := ActionStatus.Dispatching)];
      return Dispatch(id);
    }

    /** Returns false for a state conflict. */
    method PersistResult(a: Id, x: Id, status: ActionStatus) returns (ok: bool)
      requires a in actions && x in tries
      modifies this`actions, this`tries
      ensures var s := Persist(old(Contents()), a, x, status);
              ok == s.Some? && Contents() == (if s.Some? then s.value else old(Contents()))
    {
      if actions[a].status.Reconciled? {
        return true;
      }
      if !Uncertain(actions[a].status) || tries[x].status.Failed? {
        return false;
      }
      tries := tries[x := tries[x].(status := TryStatusFor(status))];
      actions := actions[a := actions[a].(status := status)];
      return true;
    }

    method DecideApproval(approval: Id, decision: Decision, operator: Id, request: Id, digest: Id)
        returns (outcome: DecisionOutcome)
      modifies this`actions, this`approvals
      ensures (Contents(), outcome) == Decide(old(Contents()), approval, decision, operator, request, digest)
    {
      var reused := exists other | other in approvals ::
        other != approval && approvals[other].Decided? && approvals[other].operator == operator
          && approvals[other].request == request;
      if reused {
        return IdempotencyConflict;
      }
      if approval !in approvals {
        return NotFound;
      }
      if approvals[approval].Decided? {
        if approvals[approval].operator == operator && approvals[approval].request == request
           && approvals[approval].digest == digest {
          return Replayed;
        }
        return NotPending;
      }
      var changed := exists a | a in ActionsUnder(Contents(), approval) :: !actions[a].status.AwaitingApproval?;
      if changed {
        return ContextChanged;
      }
      approvals := approvals[approval := Decided(decision, operator, request, digest)];
      actions := map a | a in actions ::
        if actions[a].approval == Some(approval)
          then actions[a].(status := if decision.Approve? then Authorized else Denied) else actions[a];
      return Accepted;
    }

    method FindLatest(a: Id) returns (x: Option<Id>)
      requires RowsValid(Contents())
      ensures x == LatestTry(Contents(), a)
    {
      hide ApprovalsValid, SentHaveTries, Corresponds;
      var n := MaxNumber(a);
      if exists y | y in tries :: tries[y].action == a && tries[y].number == n {
        var y :| y in tries && tries[y].action == a && tries[y].number == n;
        return Some(y);
      }
      return None;
    }

    /** Asks the provider and records what it says; `None` is an error. */
    method Reconcile(a: Id, answer: Answer) returns (status: Option<ActionStatus>)
      requires RowsValid(Contents())
      modifies this`actions, this`tries
      ensures RowsValid(Contents()) && (status.None? ==> Contents() == old(Contents()))
      ensures forall p: Pass :: p.rows == old(Contents()) && !p.thrown ==>
                ReconcileNext(p, a, answer)
                == (if status.None? then p.(scanned := p.scanned + 1, thrown := true)
                    else Tally(p.(scanned := p.scanned + 1, rows := Contents()), status.value))
    {
      hide RowsValid, LatestTry, TryStatusFor, StatusFor;
      NextValid(Start(Contents()), a, answer);
      if a !in actions {
        return None;
      }
      if !Uncertain(actions[a].status) {
        return Some(actions[a].status);
      }
      var x := FindLatest(a);
      UncertainTry(Contents(), a);
      if x.None? || answer.Threw? {
        return None;
      }
      var recorded := StatusFor(answer.result, true);
      var ok := PersistResult(a, x.value, recorded);
      if !ok {
        return None;
      }
      return Some(recorded);
    }

    /** One pass over the uncertain actions; `answers` is what the provider does for each. */
    method ReconcilePending(candidates: seq<Id>, limit: nat, answers: Id -> Answer)
      returns (scanned: nat, reconciled: nat, failed: nat, indeterminate: nat, thrown: bool)
      requires RowsValid(Contents())
      modifies this`actions, this`tries
      ensures RowsValid(Contents())
      ensures Pass(Contents(), scanned, reconciled, failed, indeterminate, thrown)
              == ExternalReconciliation.ReconcilePending(old(Contents()), candidates, limit, answers)
    {
      hide RowsValid, ReconcileNext;
      scanned, reconciled, failed, indeterminate, thrown := 0, 0, 0, 0, false;
      if limit == 0 {
        thrown := true;
        return;
      }
      var n := Selected(candidates, limit);
      for i := 0 to n
        invariant RowsValid(Contents())
        invariant Pass(Contents(), scanned, reconciled, failed, indeterminate, false)
                  == ReconcileFirst(old(Contents()), candidates, i, answers)
      {
        ghost var p := ReconcileFirst(old(Contents()), candidates, i, answers);
        var status := Reconcile(candidates[i], answers(candidates[i]));
        scanned := scanned + 1;
        if status.None? {
          thrown := true;
          assert Pass(Contents(), scanned, reconciled, failed, indeterminate, true)
            == ReconcileFirst(old(Contents()), candidates, i + 1, answers);
          PassEnds(old(Contents()), candidates, i + 1, n, answers);
          return;
        }
        match status.value
        case Reconciled => reconciled := reconciled + 1;
        case Failed => failed := failed + 1;
        case Indeterminate => indeterminate := indeterminate + 1;
        case _ =>
      }
    }
  }

  /** Once thrown, no later candidate is looked at. */
  lemma {:induction false} PassEnds(r: Rows, candidates: seq<Id>, i: nat, n: nat, answers: Id -> Answer)
    requires i <= n <= |candidates| && ReconcileFirst(r, candidates, i, answers).thrown
    ensures ReconcileFirst(r, candidates, n, answers) == ReconcileFirst(r, candidates, i, answers)
  {
    if i < n { PassEnds(r, candidates, i, n - 1, answers); }
  }

  /** The adapter against the server, whose replies are given. */
  class Adapter {
    var visible: set<Id>
    var creates: nat

    constructor (visible: set<Id>)
      ensures this.visible == visible && creates == 0
    {
      this.visible, this.creates := visible, 0;
    }

    /** Looks before it creates, so a visible draft is never created again. */
    method Dispatch(key: Id, inScope: bool, lookup: Reply, create: Reply, applied: bool) returns (result: ResultStatus)
      requires CreateResult(create).Acknowledged? ==> applied
      modifies this
      ensures creates == old(creates) + (if inScope && lookup.Answer? && key !in old(visible) then 1 else 0)
      ensures creates == old(creates) ==> visible == old(visible)
      ensures visible == old(visible) || visible == old(visible) + {key}
      ensures result.Acknowledged? ==> key in visible
      ensures key in old(visible) && inScope && lookup.Answer? ==> result.Acknowledged?
    {
      if !inScope {
        return ResultStatus.Failed;
      }
      match LookUp(visible, key, lookup)
      case Stopped(stop) =>
        result := stop;
        if lookup.Http? { LookupFailsOnly(lookup.status); }
      case Found =>
        result := ResultStatus.Acknowledged;
      case NotThere =>
        creates := creates + 1;
        if applied {
          visible := visible + {key};
        }
        result := CreateResult(create);
    }

    method Reconcile(key: Id, inScope: bool, lookup: Reply) returns (result: ResultStatus)
      ensures result.Acknowledged? <==> inScope && lookup.Answer? && key in visible
    {
      if !inScope {
        return ResultStatus.Failed;
      }
      result := ReconcileResult(LookUp(visible, key, lookup));
      if lookup.Http? { LookupFailsOnly(lookup.status); }
    }
  }

  lemma LookupFailsOnly(status: nat)
    ensures !FailureFor(status).Acknowledged?
  {
  }
}
