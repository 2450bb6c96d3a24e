/** The reconciliation pass over the uncertain external actions, as startup recovery runs it.  An error
    of the provider ends it: what was recorded before stays. */
module ExternalReconciliation {
  import opened Basics
  import opened ExternalActions

  /** What the provider does when asked about an action. */
  datatype Answer = Replied(result: ResultStatus) | Threw

  /** A thrown pass has no report. */
  datatype Pass = Pass(rows: Rows, scanned: nat, reconciled: nat, failed: nat, indeterminate: nat, thrown: bool)

  function Start(r: Rows): Pass { Pass(r, 0, 0, 0, 0, false) }

  function Tally(p: Pass, status: ActionStatus): Pass {
    match status
    case Reconciled => p.(reconciled := p.reconciled + 1)
    case Failed => p.(failed := p.failed + 1)
    case Indeterminate => p.(indeterminate := p.indeterminate + 1)
    case _ => p
  }

  /** One candidate.  An action that is no longer uncertain is counted by its status. */
  ghost function ReconcileNext(p: Pass, a: Id, answer: Answer): Pass {
    if p.thrown then p
    else
      var q := p.(scanned := p.scanned + 1);
      if a !in p.rows.actions then q.(thrown := true)
      else if !Uncertain(p.rows.actions[a].status) then Tally(q, p.rows.actions[a].status)
      else if LatestTry(p.rows, a).None? || LatestTry(p.rows, a).value !in p.rows.tries
           || answer.Threw? then q.(thrown := true)
      else
        var status := StatusFor(answer.result, true);
        var s := Persist(p.rows, a, LatestTry(p.rows, a).value, status);
        if s.None? then q.(thrown := true) else Tally(q.(rows := s.value), status)
  }

  /** The first `n` candidates. */
  ghost function ReconcileFirst(r: Rows, candidates: seq<Id>, n: nat, answers: Id -> Answer): Pass
    requires n <= |candidates|
  {
    if n == 0 then Start(r) else ReconcileNext(ReconcileFirst(r, candidates, n - 1, answers), candidates[n - 1],
      answers(candidates[n - 1]))
  }

  function Selected(candidates: seq<Id>, limit: nat): nat { if |candidates| <= limit then |candidates| else limit }

  /** `reconcilePending`; the limit must be positive. */
  ghost function ReconcilePending(r: Rows, candidates: seq<Id>, limit: nat, answers: Id -> Answer): Pass {
    if limit == 0 then Start(r).(thrown := true)
      else ReconcileFirst(r, candidates, Selected(candidates, limit), answers)
  }

  /** How many of the first `n` candidates get this answer. */
  function Answered(candidates: seq<Id>, n: nat, answers: Id -> Answer, result: ResultStatus): nat
    requires n <= |candidates|
  {
    if n == 0 then 0
    else Answered(candidates, n - 1, answers, result) + (if answers(candidates[n - 1]) == Replied(result) then 1 else 0)
  }

  /** The candidates of the query: distinct uncertain actions. */
  ghost predicate Candidates(r: Rows, candidates: seq<Id>) {
    && (forall i, j :: 0 <= i < j < |candidates| ==> candidates[i] != candidates[j])
    && (forall a :: a in candidates ==> a in r.actions && Uncertain(r.actions[a].status))
  }

  /** An uncertain action has exactly one attempt, and it can take a result. */
  lemma UncertainTry(r: Rows, a: Id)
    requires RowsValid(r) && a in r.actions && Uncertain(r.actions[a].status)
    ensures LatestTry(r, a).Some? && LatestTry(r, a).value in r.tries
    ensures r.tries[LatestTry(r, a).value].action == a && !r.tries[LatestTry(r, a).value].status.Failed?
  {
    assert HasTry(r, a);
    var x :| x in r.tries && r.tries[x].action == a;
    assert (set y | y in r.tries && r.tries[y].action == a :: r.tries[y].number) == {1} by {
      assert r.tries[x].number == 1;
    }
    assert r.tries[x].number == HighestNumber(r.tries, a);
  }

  /** One uncertain candidate takes the status its answer calls for; a provider error changes nothing. */
  lemma NextDecides(p: Pass, a: Id, answer: Answer)
    requires RowsValid(p.rows) && !p.thrown && a in p.rows.actions && Uncertain(p.rows.actions[a].status)
    ensures var q := ReconcileNext(p, a, answer);
            && RowsValid(q.rows) && q.scanned == p.scanned + 1
            && (q.thrown <==> answer.Threw?)
            && (answer.Threw? ==> q == p.(scanned := p.scanned + 1, thrown := true))
            && (answer.Replied? ==>
                  && q.rows.actions == p.rows.actions[a := p.rows.actions[a].(status := StatusFor(answer.result, true))]
                  && q.reconciled == p.reconciled + (if answer.result.Acknowledged? then 1 else 0)
                  && q.failed == p.failed + (if answer.result.Failed? then 1 else 0)
                  && q.indeterminate == p.indeterminate + (if answer.result.Indeterminate? then 1 else 0))
  {
    hide RowsValid, LatestTry, TryStatusFor;
    UncertainTry(p.rows, a);
    if answer.Replied? { PersistValid(p.rows, a, LatestTry(p.rows, a).value, answer.result, true); }
  }

  lemma NextValid(p: Pass, a: Id, answer: Answer)
    requires RowsValid(p.rows)
    ensures RowsValid(ReconcileNext(p, a, answer).rows)
  {
    hide RowsValid, LatestTry, TryStatusFor;
    if !p.thrown && a in p.rows.actions && Uncertain(p.rows.actions[a].status) && answer.Replied? {
      UncertainTry(p.rows, a);
      PersistValid(p.rows, a, LatestTry(p.rows, a).value, answer.result, true);
    }
  }

  /** Where the pass stands when the first `n` candidates were answered. */
  ghost predicate Answers(r: Rows, p: Pass, candidates: seq<Id>, n: nat, answers: Id -> Answer) {
    && n <= |candidates| && RowsValid(p.rows)
    && p.rows.actions.Keys == r.actions.Keys
    && p.reconciled == Answered(candidates, n, answers, ResultStatus.Acknowledged)
    && p.failed == Answered(candidates, n, answers, ResultStatus.Failed)
    && p.indeterminate == Answered(candidates, n, answers, ResultStatus.Indeterminate)
    && (forall i :: 0 <= i < n ==>
          answers(candidates[i]).Replied? && candidates[i] in p.rows.actions
          && p.rows.actions[candidates[i]].status == StatusFor(answers(candidates[i]).result, true))
    && (forall a :: a in r.actions && a !in candidates[..n] ==> p.rows.actions[a] == r.actions[a])
  }

  /** The pass stops exactly at the first candidate whose provider call throws; until then each candidate
      takes the status of its answer, each count is the number of such answers, and all other actions are
      as before. */
  lemma {:induction false} PassDecides(r: Rows, candidates: seq<Id>, n: nat, answers: Id -> Answer)
    requires RowsValid(r) && Candidates(r, candidates) && n <= |candidates|
    ensures var p := ReconcileFirst(r, candidates, n, answers);
            && (p.thrown <==> exists i :: 0 <= i < n && answers(candidates[i]).Threw?)
            && (!p.thrown ==> p.scanned == n && Answers(r, p, candidates, n, answers))
            && (p.thrown ==> 0 < p.scanned <= n && answers(candidates[p.scanned - 1]).Threw?
                             && Answers(r, p, candidates, p.scanned - 1, answers))
  {
    hide RowsValid, ReconcileNext, StatusFor, Uncertain, Answers;
    if n == 0 {
      NoAnswers(r, candidates, answers);
    } else {
      PassDecides(r, candidates, n - 1, answers);
      var p := ReconcileFirst(r, candidates, n - 1, answers);
      if p.thrown {
        ThrownStays(p, candidates[n - 1], answers(candidates[n - 1]));
      } else {
        StillUncertain(r, p, candidates, n - 1, answers);
        NextDecides(p, candidates[n - 1], answers(candidates[n - 1]));
        AnswersNext(r, p, candidates, n - 1, answers);
      }
    }
  }

  lemma NoAnswers(r: Rows, candidates: seq<Id>, answers: Id -> Answer)
    requires RowsValid(r)
    ensures Answers(r, Start(r), candidates, 0, answers)
  {
    hide RowsValid;
  }

  lemma ThrownStays(p: Pass, a: Id, answer: Answer)
    requires p.thrown
    ensures ReconcileNext(p, a, answer) == p
  {
  }

  lemma StillUncertain(r: Rows, p: Pass, candidates: seq<Id>, n: nat, answers: Id -> Answer)
    requires Answers(r, p, candidates, n, answers) && Candidates(r, candidates) && n < |candidates|
    ensures RowsValid(p.rows) && candidates[n] in p.rows.actions && Uncertain(p.rows.actions[candidates[n]].status)
    ensures candidates[n] !in candidates[..n]
  {
    hide RowsValid, Uncertain, StatusFor;
    assert candidates[n] in candidates;
  }

  lemma AnswersNext(r: Rows, p: Pass, candidates: seq<Id>, n: nat, answers: Id -> Answer)
    requires Answers(r, p, candidates, n, answers) && n < |candidates| && candidates[n] !in candidates[..n]
    requires candidates[n] in p.rows.actions
    requires forall i, j :: 0 <= i < j < |candidates| ==> candidates[i] != candidates[j]
    ensures var a, q := candidates[n], ReconcileNext(p, candidates[n], answers(candidates[n]));
            && (answers(a).Threw? && q == p.(scanned := p.scanned + 1, thrown := true) ==>
               Answers(r, q, candidates, n, answers))
            && (answers(a).Replied? && RowsValid(q.rows)
                && q.rows.actions == p.rows.actions[a :=
                     p.rows.actions[a].(status := StatusFor(answers(a).result, true))]
                && q.reconciled == p.reconciled + (if answers(a).result.Acknowledged? then 1 else 0)
                && q.failed == p.failed + (if answers(a).result.Failed? then 1 else 0)
                && q.indeterminate == p.indeterminate + (if answers(a).result.Indeterminate? then 1 else 0)
                ==> Answers(r, q, candidates, n + 1, answers))
  {
    hide RowsValid, ReconcileNext, StatusFor;
    assert forall i :: 0 <= i < n ==> candidates[i] != candidates[n];
    assert candidates[..n + 1] == candidates[..n] + [candidates[n]];
  }

  /** The whole pass throws exactly when its limit is zero or one of the selected candidates makes the
      provider throw. */
  lemma PendingThrowsIff(r: Rows, candidates: seq<Id>, limit: nat, answers: Id -> Answer)
    requires RowsValid(r) && Candidates(r, candidates)
    ensures ReconcilePending(r, candidates, limit, answers).thrown
            <==> limit == 0 || exists i :: 0 <= i < Selected(candidates, limit) && answers(candidates[i]).Threw?
  {
    hide ReconcileFirst, RowsValid;
    if limit > 0 { PassDecides(r, candidates, Selected(candidates, limit), answers); }
  }
}
