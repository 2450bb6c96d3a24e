/** External actions: approval, dispatch and reconciliation by any number of processes, against a
    server that loses replies, with crashes between any two steps.  The provider is the draft pull
    request adapter: it looks for a draft carrying the idempotency key before it creates one. */
module ExternalActions {
  import opened Basics
  import opened Ordering

  datatype ActionStatus =
    | Proposed | AwaitingApproval | Authorized | Dispatching | Indeterminate | Acknowledged | Reconciled | Failed
      | Denied | Cancelled

  datatype Action = Action(status: ActionStatus, key: Id, approval: Option<Id>)

  datatype TryStatus = Dispatching | Indeterminate | Acknowledged | Failed

  /** A row of the attempts of an action. */
  datatype Try = Try(action: Id, number: nat, status: TryStatus)

  datatype ResultStatus = Acknowledged | Failed | Indeterminate

  datatype Decision = Approve | Reject

  datatype Approval = Requested | Decided(decision: Decision, operator: Id, request: Id, digest: Id)

  /** The database rows the services change. */
  datatype Rows = Rows(actions: map<Id, Action>, tries: map<Id, Try>, approvals: map<Id, Approval>, nextId: nat)

  // ---------------------------------------------------------------- transactions

  /** An outcome the provider may or may not have brought about. */
  predicate Uncertain(status: ActionStatus) { status.Dispatching? || status.Indeterminate? || status.Acknowledged? }

  predicate Terminal(status: ActionStatus) {
    status.Reconciled? || status.Failed? || status.Denied? || status.Cancelled?
  }

  /** `max(attempt_number)`, 0 without attempts. */
  ghost function HighestNumber(tries: map<Id, Try>, action: Id): nat {
    var numbers := set x | x in tries && tries[x].action == action :: tries[x].number;
    if numbers == {} then 0 else MaxOf(numbers)
  }

  datatype Preparation = Dispatch(attempt: Id) | Deferred | UncertainAlready | TerminalAlready | CancelledNow | Missing

  /** `prepareDispatch`: `current` says that the region runs under the epoch of the execution,
      `admitted` that the resource admission admits the call. */
  ghost function Prepare(r: Rows, a: Id, current: bool, admitted: bool): (Rows, Preparation) {
    if a !in r.actions then (r, Missing)
    else if Uncertain(r.actions[a].status) then (r, UncertainAlready)
    else if !r.actions[a].status.Authorized? then (r, TerminalAlready)
    else if !current then (r.(actions := r.actions[a := r.actions[a].(status := ActionStatus.Cancelled)]), CancelledNow)
    else if !admitted then (r, Deferred)
    else
      var number := HighestNumber(r.tries, a) + 1;
      (r.(actions := r.actions[a := r.actions[a].(status := ActionStatus.Dispatching)],
          tries := r.tries[r.nextId := Try(a, number, TryStatus.Dispatching)],
          nextId := r.nextId + 1),
       Dispatch(r.nextId))
  }

  /** The status a provider result gives the action: only a reconciliation can end it well. */
  function StatusFor(result: ResultStatus, reconciling: bool): ActionStatus {
    match result
    case Acknowledged => if reconciling then Reconciled else ActionStatus.Acknowledged
    case Failed => ActionStatus.Failed
    case Indeterminate => ActionStatus.Indeterminate
  }

  function TryStatusFor(status: ActionStatus): TryStatus {
    match status
    case Failed => TryStatus.Failed
    case Indeterminate => TryStatus.Indeterminate
    case _ => TryStatus.Acknowledged
  }

  /** `persistResult`; `None` is a state conflict, which changes nothing. */
  function Persist(r: Rows, a: Id, x: Id, status: ActionStatus): Option<Rows>
    requires a in r.actions && x in r.tries
  {
    if r.actions[a].status.Reconciled? then Some(r)
    else if !Uncertain(r.actions[a].status) || r.tries[x].status.Failed? then None
    else Some(r.(actions := r.actions[a := r.actions[a].(status := status)],
                 tries := r.tries[x := r.tries[x].(status := TryStatusFor(status))]))
  }

  /** The attempt a reconciliation works on: the one with the highest number. */
  ghost function LatestTry(r: Rows, a: Id): Option<Id> {
    if exists x :: x in r.tries && r.tries[x].action == a && r.tries[x].number == HighestNumber(r.tries, a) then
      var x :| x in r.tries && r.tries[x].action == a && r.tries[x].number == HighestNumber(r.tries, a);
      Some(x)
    else None
  }

  datatype DecisionOutcome = Accepted | Replayed | NotFound | IdempotencyConflict | NotPending | ContextChanged

  function ActionsUnder(r: Rows, approval: Id): set<Id> {
    set a | a in r.actions && r.actions[a].approval == Some(approval)
  }

  /** `decideApproval` by one operator under one client request id. */
  function Decide(r: Rows, approval: Id, decision: Decision, operator: Id, request: Id, digest: Id)
    : (Rows, DecisionOutcome)
  {
    if exists other | other in r.approvals ::
         other != approval && r.approvals[other].Decided? && r.approvals[other].operator == operator
           && r.approvals[other].request == request
    then (r, IdempotencyConflict)
    else if approval !in r.approvals then (r, NotFound)
    else if r.approvals[approval].Decided? then
      (r, if r.approvals[approval].operator == operator && r.approvals[approval].request == request
        && r.approvals[approval].digest == digest
          then Replayed else NotPending)
    else if exists a | a in ActionsUnder(r, approval) :: !r.actions[a].status.AwaitingApproval? then (r, ContextChanged)
    else
      (r.(approvals := r.approvals[approval := Decided(decision, operator, request, digest)],
          actions := map a | a in r.actions ::
            if r.actions[a].approval == Some(approval)
            then r.actions[a].(status := if decision.Approve? then Authorized else Denied)
            else r.actions[a]),
       Accepted)
  }

  // ---------------------------------------------------------------- the provider

  /** What comes back from the server: nothing, an HTTP error, or an answer that may be malformed. */
  datatype Reply = Lost | Http(status: nat) | Malformed | Answer

  /** `providerFailure`. */
  function FailureFor(status: nat): ResultStatus {
    if status == 408 || status == 429 || status >= 500 then ResultStatus.Indeterminate else ResultStatus.Failed
  }

  datatype Lookup = Found | NotThere | Stopped(result: ResultStatus)

  /** `lookup` on the drafts the server shows. */
  function LookUp(visible: set<Id>, key: Id, reply: Reply): Lookup {
    match reply
    case Lost => Stopped(ResultStatus.Indeterminate)
    case Http(status) => Stopped(FailureFor(status))
    case Malformed => Stopped(ResultStatus.Indeterminate)
    case Answer => if key in visible then Found else NotThere
  }

  /** The reply to the create request. */
  function CreateResult(reply: Reply): ResultStatus {
    match reply
    case Lost => ResultStatus.Indeterminate
    case Http(status) => FailureFor(status)
    case Malformed => ResultStatus.Indeterminate
    case Answer => ResultStatus.Acknowledged
  }

  function ReconcileResult(lookup: Lookup): ResultStatus {
    match lookup
    case Found => ResultStatus.Acknowledged
    case NotThere => ResultStatus.Indeterminate
    case Stopped(result) => result
  }

  // ---------------------------------------------------------------- processes

  datatype Stage = Prepared | Creating | Done(result: ResultStatus)

  datatype Process = Process(action: Id, attempt: Id, reconciling: bool, stage: Stage)

  /** `dispatches` and `creates` count provider calls and create requests, `confirmed` holds the actions
      whose draft the server has shown or returned. */
  datatype World = World(
    rows: Rows,
    processes: map<Id, Process>,
    visible: set<Id>,
    dispatches: map<Id, nat>,
    creates: map<Id, nat>,
    confirmed: set<Id>)

  datatype Step =
    | Propose(key: Id)
    | CheckPolicy(action: Id, outcome: ActionStatus, needed: Option<Id>)
    | RequestApproval(approval: Id)
    | DecideApproval(approval: Id, decision: Decision, operator: Id, request: Id, digest: Id)
    | BeginDispatch(process: Id, action: Id, current: bool, admitted: bool)
    | BeginReconcile(process: Id, action: Id)
    | CallLookup(process: Id, inScope: bool, reply: Reply)
    | CallCreate(process: Id, applied: bool, reply: Reply)
    | PersistOutcome(process: Id)
    | Crash(process: Id)
    | Elsewhere(visible: set<Id>)

  function Count(m: map<Id, nat>, a: Id): nat { if a in m then m[a] else 0 }

  ghost function Apply(w: World, step: Step): World {
    var r := w.rows;
    match step
    case Propose(key) =>
      w.(rows := r.(actions := r.actions[r.nextId := Action(Proposed, key, None)], nextId := r.nextId + 1))
    case CheckPolicy(a, outcome, approval) =>
      if a in r.actions && r.actions[a].status.Proposed?
         && (outcome.AwaitingApproval? || outcome.Authorized? || outcome.Denied?)
         && (outcome.AwaitingApproval? <==> approval.Some?)
         && (approval.Some? ==> approval.value in r.approvals && r.approvals[approval.value].Requested?)
      then w.(rows := r.(actions := r.actions[a := r.actions[a].(status := outcome, approval := approval)]))
      else w
    case RequestApproval(approval) =>
      if approval !in r.approvals then w.(rows := r.(approvals := r.approvals[approval := Requested])) else w
    case DecideApproval(approval, decision, operator, request, digest) =>
      w.(rows := Decide(r, approval, decision, operator, request, digest).0)
    case BeginDispatch(p, a, current, admitted) =>
      if p in w.processes then w
      else
        var (s, outcome) := Prepare(r, a, current, admitted);
        if outcome.Dispatch?
        then w.(rows := s, processes := w.processes[p := Process(a, outcome.attempt, false, Prepared)])
        else w.(rows := s)
    case BeginReconcile(p, a) =>
      if p !in w.processes && a in r.actions && Uncertain(r.actions[a].status) && LatestTry(r, a).Some?
      then w.(processes := w.processes[p := Process(a, LatestTry(r, a).value, true, Prepared)]) else w
    case CallLookup(p, inScope, reply) =>
      if p in w.processes && w.processes[p].stage.Prepared? && w.processes[p].action in r.actions then
        var x := w.processes[p];
        var found := if inScope then LookUp(w.visible, r.actions[x.action].key, reply)
          else Stopped(ResultStatus.Failed);
        var next :=
          if x.reconciling then Done(ReconcileResult(found))
          else match found case Found => Done(ResultStatus.Acknowledged) case NotThere =>
            Creating case Stopped(result) => Done(result);
        w.(processes := w.processes[p := x.(stage := next)],
           dispatches := if x.reconciling then w.dispatches
             else w.dispatches[x.action := Count(w.dispatches, x.action) + 1],
           confirmed := if found.Found? then w.confirmed + {x.action} else w.confirmed)
      else w
    case CallCreate(p, applied, reply) =>
      if p in w.processes && w.processes[p].stage.Creating? && w.processes[p].action in r.actions
         && (CreateResult(reply).Acknowledged? ==> applied) then
        var x := w.processes[p];
        w.(processes := w.processes[p := x.(stage := Done(CreateResult(reply)))],
           creates := w.creates[x.action := Count(w.creates, x.action) + 1],
           visible := if applied then w.visible + {r.actions[x.action].key} else w.visible,
           confirmed := if CreateResult(reply).Acknowledged? then w.confirmed + {x.action} else w.confirmed)
      else w
    case PersistOutcome(p) =>
      if p in w.processes && w.processes[p].stage.Done? && w.processes[p].action in r.actions
         && w.processes[p].attempt in r.tries then
        var x := w.processes[p];
        var s := Persist(r, x.action, x.attempt, StatusFor(x.stage.result, x.reconciling));
        w.(rows := if s.Some? then s.value else r, processes := w.processes - {p})
      else w
    case Crash(p) => w.(processes := w.processes - {p})
    case Elsewhere(visible) => w.(visible := visible)
  }

  ghost function Run(w: World, steps: seq<Step>): World {
    if |steps| == 0 then w else Apply(Run(w, steps[..|steps| - 1]), steps[|steps| - 1])
  }

  function Initial(): World {
    World(Rows(map[], map[], map[], 0), map[], {}, map[], map[], {})
  }

  // ---------------------------------------------------------------- the invariant

  /** Nothing has been sent yet, and nothing ever will be for the last two. */
  predicate Unsent(status: ActionStatus) {
    status.Proposed? || status.AwaitingApproval? || status.Authorized? || status.Denied? || status.Cancelled?
  }

  predicate Corresponds(status: ActionStatus, attempt: TryStatus) {
    match status
    case Dispatching => attempt.Dispatching?
    case Indeterminate => attempt.Indeterminate?
    case Acknowledged => attempt.Acknowledged?
    case Reconciled => attempt.Acknowledged?
    case Failed => attempt.Failed?
    case _ => false
  }

  predicate TriesMatch(r: Rows) {
    && (forall x :: x in r.tries ==>
          && r.tries[x].action in r.actions && x < r.nextId && r.tries[x].number == 1
          && Corresponds(r.actions[r.tries[x].action].status, r.tries[x].status))
    && (forall x, y :: x in r.tries && y in r.tries && r.tries[x].action == r.tries[y].action ==> x == y)
    && (forall a :: a in r.actions ==> a < r.nextId)
  }

  ghost predicate HasTry(r: Rows, a: Id) { exists x :: x in r.tries && r.tries[x].action == a }

  ghost predicate SentHaveTries(r: Rows) {
    forall a :: a in r.actions && !Unsent(r.actions[a].status) ==> HasTry(r, a)
  }

  predicate ProcessValid(w: World, x: Process) {
    && x.attempt in w.rows.tries && w.rows.tries[x.attempt].action == x.action && x.action in w.rows.actions
    && (x.reconciling ==> !x.stage.Creating?)
    && (!x.reconciling && x.stage.Prepared? ==> Count(w.dispatches, x.action) == 0)
    && (!x.reconciling && x.stage.Creating? ==> Count(w.creates, x.action) == 0 && Count(w.dispatches, x.action) == 1)
    && (x.stage.Done? && x.stage.result.Acknowledged? ==> x.action in w.confirmed)
  }

  predicate ProcessesValid(w: World) {
    && (forall p :: p in w.processes ==> ProcessValid(w, w.processes[p]))
    && (forall p, q ::
          (p in w.processes && q in w.processes && !w.processes[p].reconciling && !w.processes[q].reconciling
           && w.processes[p].action == w.processes[q].action) ==> p == q)
  }

  /** At most one dispatch and one create, and none before the action was sent. */
  ghost predicate CallsValid(w: World) {
    forall a: Id ::
      && Count(w.creates, a) <= Count(w.dispatches, a) <= 1
      && (Count(w.dispatches, a) > 0 ==> a in w.rows.actions && !Unsent(w.rows.actions[a].status))
  }

  predicate ConfirmedValid(w: World) {
    forall a :: a in w.rows.actions
                && (w.rows.actions[a].status.Acknowledged? || w.rows.actions[a].status.Reconciled?) ==>
                  a in w.confirmed
  }

  /** Actions wait exactly as long as their approval is undecided. */
  predicate ApprovalsValid(r: Rows) {
    forall a :: a in r.actions ==>
      match r.actions[a].approval
      case None => !r.actions[a].status.AwaitingApproval?
      case Some(approval) =>
        && approval in r.approvals && !r.actions[a].status.Proposed?
        && (r.approvals[approval].Requested? <==> r.actions[a].status.AwaitingApproval?)
        && (r.approvals[approval].Decided? && r.approvals[approval].decision.Reject? ==> r.actions[a].status.Denied?)
        && (r.approvals[approval].Decided? && r.approvals[approval].decision.Approve? ==> !r.actions[a].status.Denied?)
  }

  ghost predicate Consistent(w: World) {
    && TriesMatch(w.rows) && SentHaveTries(w.rows) && ProcessesValid(w) && CallsValid(w) && ConfirmedValid(w)
    && ApprovalsValid(w.rows)
  }

  // ---------------------------------------------------------------- the transactions keep it

  /** What no step ever undoes: terminal statuses, and having been sent. */
  predicate StatusEvolves(x: ActionStatus, y: ActionStatus) {
    && (Terminal(x) ==> y == x)
    && (!Unsent(x) ==> !Unsent(y))
    && (Uncertain(x) ==> y.Indeterminate? || y.Acknowledged? || y.Reconciled? || y.Failed? || y == x)
    && (y.Authorized? ==> x.Authorized? || x.AwaitingApproval? || x.Proposed?)
  }

  ghost predicate ActionsEvolve(r: Rows, s: Rows) {
    forall a :: a in r.actions ==>
      a in s.actions && s.actions[a].key == r.actions[a].key && StatusEvolves(r.actions[a].status, s.actions[a].status)
  }

  ghost predicate TriesStay(r: Rows, s: Rows) {
    forall x :: x in r.tries ==> x in s.tries && s.tries[x].action == r.tries[x].action
                                 && s.tries[x].number == r.tries[x].number
  }

  ghost predicate RowsValid(r: Rows) { TriesMatch(r) && SentHaveTries(r) && ApprovalsValid(r) }

  lemma FirstNumber(r: Rows, a: Id)
    requires TriesMatch(r) && a in r.actions && Unsent(r.actions[a].status)
    ensures HighestNumber(r.tries, a) == 0
  {
    assert forall x :: x in r.tries ==> r.tries[x].action != a;
  }

  lemma SentKept(r: Rows, s: Rows)
    requires SentHaveTries(r) && TriesStay(r, s)
    requires forall a :: a in s.actions && !Unsent(s.actions[a].status) ==>
             (a in r.actions && !Unsent(r.actions[a].status)) || HasTry(s, a)
    ensures SentHaveTries(s)
  {
    forall a | a in s.actions && !Unsent(s.actions[a].status) ensures HasTry(s, a) {
      if a in r.actions && !Unsent(r.actions[a].status) { TryKept(r, s, a); }
    }
  }

  lemma TryKept(r: Rows, s: Rows, a: Id)
    requires TriesStay(r, s) && HasTry(r, a)
    ensures HasTry(s, a)
  {
    var x :| x in r.tries && r.tries[x].action == a;
    assert x in s.tries;
  }

  lemma PrepareMatch(r: Rows, a: Id, current: bool, admitted: bool)
    requires TriesMatch(r)
    ensures TriesMatch(Prepare(r, a, current, admitted).0)
  {
    hide HighestNumber;
    if a in r.actions && r.actions[a].status.Authorized? { FirstNumber(r, a); }
  }

  lemma PrepareEvolves(r: Rows, a: Id, current: bool, admitted: bool)
    requires TriesMatch(r)
    ensures var s := Prepare(r, a, current, admitted).0;
            && ActionsEvolve(r, s) && TriesStay(r, s)
            && forall x :: x in s.actions && !Unsent(s.actions[x].status) ==>
               (x in r.actions && !Unsent(r.actions[x].status)) || HasTry(s, x)
  {
    hide HighestNumber, Corresponds;
    var (s, outcome) := Prepare(r, a, current, admitted);
    if outcome.Dispatch? { assert s.tries[r.nextId].action == a; }
  }

  lemma PrepareApprovals(r: Rows, a: Id, current: bool, admitted: bool)
    requires ApprovalsValid(r)
    ensures ApprovalsValid(Prepare(r, a, current, admitted).0)
  {
    hide HighestNumber;
  }

  lemma PrepareValid(r: Rows, a: Id, current: bool, admitted: bool)
    requires RowsValid(r)
    ensures RowsValid(Prepare(r, a, current, admitted).0)
    ensures ActionsEvolve(r, Prepare(r, a, current, admitted).0) && TriesStay(r, Prepare(r, a, current, admitted).0)
  {
    hide Prepare, SentHaveTries, TriesMatch, ApprovalsValid, ActionsEvolve, TriesStay, HasTry;
    PrepareMatch(r, a, current, admitted);
    PrepareEvolves(r, a, current, admitted);
    PrepareApprovals(r, a, current, admitted);
    SentKept(r, Prepare(r, a, current, admitted).0);
  }

  lemma PersistMatch(r: Rows, a: Id, x: Id, result: ResultStatus, reconciling: bool)
    requires TriesMatch(r) && a in r.actions && x in r.tries && r.tries[x].action == a
    ensures var s := Persist(r, a, x, StatusFor(result, reconciling)); s.Some? ==> TriesMatch(s.value)
  {
    assert Corresponds(StatusFor(result, reconciling), TryStatusFor(StatusFor(result, reconciling)));
    hide Corresponds, StatusFor, TryStatusFor;
  }

  lemma PersistEvolves(r: Rows, a: Id, x: Id, result: ResultStatus, reconciling: bool)
    requires a in r.actions && x in r.tries && r.tries[x].action == a
    ensures var s := Persist(r, a, x, StatusFor(result, reconciling));
            s.Some? ==>
              && ActionsEvolve(r, s.value) && TriesStay(r, s.value)
              && forall y :: y in s.value.actions && !Unsent(s.value.actions[y].status) ==>
                 y in r.actions && !Unsent(r.actions[y].status)
  {
    hide TryStatusFor;
  }

  lemma PersistApprovals(r: Rows, a: Id, x: Id, result: ResultStatus, reconciling: bool)
    requires ApprovalsValid(r) && a in r.actions && x in r.tries
    ensures var s := Persist(r, a, x, StatusFor(result, reconciling)); s.Some? ==> ApprovalsValid(s.value)
  {
  }

  lemma PersistValid(r: Rows, a: Id, x: Id, result: ResultStatus, reconciling: bool)
    requires RowsValid(r) && a in r.actions && x in r.tries && r.tries[x].action == a
    ensures var s := Persist(r, a, x, StatusFor(result, reconciling));
            s.Some? ==> RowsValid(s.value) && ActionsEvolve(r, s.value) && TriesStay(r, s.value)
  {
    hide Persist, SentHaveTries, TriesMatch, ApprovalsValid, ActionsEvolve, TriesStay, HasTry;
    PersistMatch(r, a, x, result, reconciling);
    PersistEvolves(r, a, x, result, reconciling);
    PersistApprovals(r, a, x, result, reconciling);
    var s := Persist(r, a, x, StatusFor(result, reconciling));
    if s.Some? { SentKept(r, s.value); }
  }

  lemma DecideTries(r: Rows, approval: Id, decision: Decision, operator: Id, request: Id, digest: Id)
    requires TriesMatch(r)
    ensures var s := Decide(r, approval, decision, operator, request, digest).0;
            && TriesMatch(s) && ActionsEvolve(r, s) && s.tries == r.tries
            && forall y :: y in s.actions && !Unsent(s.actions[y].status) ==>
               y in r.actions && !Unsent(r.actions[y].status)
  {
    var (s, outcome) := Decide(r, approval, decision, operator, request, digest);
    if outcome.Accepted? {
      forall a | a in ActionsUnder(r, approval) ensures r.actions[a].status.AwaitingApproval? {}
    }
  }

  lemma DecideApprovals(r: Rows, approval: Id, decision: Decision, operator: Id, request: Id, digest: Id)
    requires ApprovalsValid(r)
    ensures ApprovalsValid(Decide(r, approval, decision, operator, request, digest).0)
  {
  }

  lemma DecideValid(r: Rows, approval: Id, decision: Decision, operator: Id, request: Id, digest: Id)
    requires RowsValid(r)
    ensures var s := Decide(r, approval, decision, operator, request, digest).0;
            RowsValid(s) && ActionsEvolve(r, s) && TriesStay(r, s)
  {
    hide Decide, SentHaveTries, TriesMatch, ApprovalsValid, ActionsEvolve, HasTry;
    DecideTries(r, approval, decision, operator, request, digest);
    DecideApprovals(r, approval, decision, operator, request, digest);
    SentKept(r, Decide(r, approval, decision, operator, request, digest).0);
  }

  lemma LatestIsTheOne(r: Rows, a: Id)
    ensures LatestTry(r, a).Some? ==> LatestTry(r, a).value in r.tries && r.tries[LatestTry(r, a).value].action == a
  {
    hide HighestNumber;
  }

  // ---------------------------------------------------------------- one step

  lemma StepRows(w: World, step: Step)
    requires RowsValid(w.rows) && ProcessesValid(w)
    ensures RowsValid(Apply(w, step).rows) && ActionsEvolve(w.rows, Apply(w, step).rows)
            && TriesStay(w.rows, Apply(w, step).rows)
  {
    hide Prepare, Persist, Decide, LatestTry, SentHaveTries, LookUp, CreateResult;
    match step
    case BeginDispatch(p, a, current, admitted) => PrepareValid(w.rows, a, current, admitted);
    case DecideApproval(approval, decision, operator, request, digest) =>
      DecideValid(w.rows, approval, decision, operator, request, digest);
    case PersistOutcome(p) => PersistStep(w, p);
    case _ => OtherRows(w, step);
  }

  lemma PersistStep(w: World, p: Id)
    requires RowsValid(w.rows) && ProcessesValid(w)
    ensures RowsValid(Apply(w, PersistOutcome(p)).rows) && ActionsEvolve(w.rows, Apply(w, PersistOutcome(p)).rows)
    ensures TriesStay(w.rows, Apply(w, PersistOutcome(p)).rows)
  {
    hide Persist, RowsValid;
    if p in w.processes && w.processes[p].stage.Done? {
      var x := w.processes[p];
      assert ProcessValid(w, x);
      PersistValid(w.rows, x.action, x.attempt, x.stage.result, x.reconciling);
    }
  }

  lemma OtherMatch(w: World, step: Step)
    requires TriesMatch(w.rows) && !step.BeginDispatch? && !step.DecideApproval? && !step.PersistOutcome?
    ensures TriesMatch(Apply(w, step).rows)
  {
    hide LatestTry, LookUp, CreateResult, ReconcileResult, Count;
    if step.CheckPolicy? && step.action in w.rows.actions && w.rows.actions[step.action].status.Proposed? {
      assert forall x :: x in w.rows.tries ==> w.rows.tries[x].action != step.action;
    }
    hide Corresponds;
  }

  lemma OtherEvolves(w: World, step: Step)
    requires TriesMatch(w.rows) && !step.BeginDispatch? && !step.DecideApproval? && !step.PersistOutcome?
    ensures var s := Apply(w, step).rows;
            && ActionsEvolve(w.rows, s) && s.tries == w.rows.tries
            && forall y :: y in s.actions && !Unsent(s.actions[y].status) ==>
               y in w.rows.actions && !Unsent(w.rows.actions[y].status)
  {
    hide LatestTry, LookUp, CreateResult, ReconcileResult, Count, Corresponds;
  }

  lemma OtherApprovals(w: World, step: Step)
    requires TriesMatch(w.rows) && ApprovalsValid(w.rows) && !step.BeginDispatch? && !step.DecideApproval?
             && !step.PersistOutcome?
    ensures ApprovalsValid(Apply(w, step).rows)
  {
    hide LatestTry, LookUp, CreateResult, ReconcileResult, Count, Corresponds;
  }

  lemma OtherRows(w: World, step: Step)
    requires RowsValid(w.rows) && !step.BeginDispatch? && !step.DecideApproval? && !step.PersistOutcome?
    ensures RowsValid(Apply(w, step).rows) && ActionsEvolve(w.rows, Apply(w, step).rows)
            && TriesStay(w.rows, Apply(w, step).rows)
  {
    hide Apply, SentHaveTries, TriesMatch, ApprovalsValid, ActionsEvolve, HasTry;
    OtherMatch(w, step);
    OtherEvolves(w, step);
    OtherApprovals(w, step);
    SentKept(w.rows, Apply(w, step).rows);
  }

  /** A process works on an action that was sent. */
  lemma SentActions(w: World)
    requires ProcessesValid(w) && TriesMatch(w.rows)
    ensures forall p :: p in w.processes ==>
            w.processes[p].action in w.rows.actions && !Unsent(w.rows.actions[w.processes[p].action].status)
  {
    forall p | p in w.processes ensures w.processes[p].action in w.rows.actions
           && !Unsent(w.rows.actions[w.processes[p].action].status) {
      assert ProcessValid(w, w.processes[p]);
      assert w.processes[p].attempt in w.rows.tries;
    }
  }

  /** Provider calls come from processes, one lookup opens a dispatch and one create may follow it. */
  lemma CallsOf(w: World, step: Step, a: Id)
    requires CallsValid(w) && ProcessesValid(w)
    ensures Count(Apply(w, step).creates, a) <= Count(Apply(w, step).dispatches, a) <= 1
    ensures Count(Apply(w, step).dispatches, a) > Count(w.dispatches, a) ==>
            exists p :: p in w.processes && w.processes[p].action == a
  {
    hide LookUp, CreateResult, ReconcileResult, Prepare, Persist, Decide, LatestTry, Unsent;
    if (step.CallLookup? || step.CallCreate?) && step.process in w.processes {
      assert ProcessValid(w, w.processes[step.process]);
    }
  }

  lemma StepCalls(w: World, step: Step)
    requires CallsValid(w) && ProcessesValid(w) && RowsValid(w.rows)
    ensures CallsValid(Apply(w, step))
  {
    hide Apply, RowsValid, TriesMatch, ProcessesValid, Count, SentHaveTries, ApprovalsValid;
    StepRows(w, step);
    RowsMatch(w.rows);
    SentActions(w);
    forall a: Id
      ensures Count(Apply(w, step).creates, a) <= Count(Apply(w, step).dispatches, a) <= 1
      ensures Count(Apply(w, step).dispatches, a) > 0 ==>
              a in Apply(w, step).rows.actions && !Unsent(Apply(w, step).rows.actions[a].status)
    {
      CallsOf(w, step, a);
    }
  }

  lemma RowsMatch(r: Rows)
    requires RowsValid(r)
    ensures TriesMatch(r)
  {
    hide TriesMatch;
  }

  lemma StepProcess(w: World, step: Step, p: Id)
    requires ProcessesValid(w) && CallsValid(w) && p in Apply(w, step).processes && p in w.processes
    requires TriesStay(w.rows, Apply(w, step).rows) && ActionsEvolve(w.rows, Apply(w, step).rows)
    ensures ProcessValid(Apply(w, step), Apply(w, step).processes[p])
  {
    hide TriesStay, ActionsEvolve, ProcessesValid, Apply;
    ProcessIsValid(w, p);
    if step.CallLookup? {
      OnlyDispatcher(w, step.process, p);
      LookupProcess(w, step.process, step.inScope, step.reply, p);
    }
    else if step.CallCreate? {
      OnlyDispatcher(w, step.process, p);
      CreateProcess(w, step.process, step.applied, step.reply, p);
    }
    else { OtherProcess(w, step, p); }
  }

  lemma ProcessIsValid(w: World, p: Id)
    requires ProcessesValid(w) && p in w.processes
    ensures ProcessValid(w, w.processes[p])
  {
  }

  lemma LookupProcess(w: World, c: Id, inScope: bool, reply: Reply, p: Id)
    requires p in w.processes && ProcessValid(w, w.processes[p]) && CallsValid(w)
    requires c in w.processes && c != p && !w.processes[c].reconciling && !w.processes[p].reconciling ==>
             w.processes[c].action != w.processes[p].action
    ensures p in Apply(w, CallLookup(c, inScope, reply)).processes
    ensures ProcessValid(Apply(w, CallLookup(c, inScope, reply)), Apply(w, CallLookup(c, inScope, reply)).processes[p])
  {
    assert Count(w.creates, w.processes[p].action) <= Count(w.dispatches, w.processes[p].action);
    hide CallsValid;
  }

  lemma CreateProcess(w: World, c: Id, applied: bool, reply: Reply, p: Id)
    requires p in w.processes && ProcessValid(w, w.processes[p])
    requires c in w.processes && c != p && !w.processes[c].reconciling && !w.processes[p].reconciling ==>
             w.processes[c].action != w.processes[p].action
    requires ProcessesValid(w)
    ensures p in Apply(w, CallCreate(c, applied, reply)).processes
    ensures ProcessValid(Apply(w, CallCreate(c, applied, reply)), Apply(w, CallCreate(c, applied, reply)).processes[p])
  {
    if c in w.processes { ProcessIsValid(w, c); }
    hide ProcessesValid;
  }

  lemma OtherProcess(w: World, step: Step, p: Id)
    requires p in w.processes && p in Apply(w, step).processes && ProcessValid(w, w.processes[p]) && !step.CallLookup?
             && !step.CallCreate?
    requires TriesStay(w.rows, Apply(w, step).rows) && ActionsEvolve(w.rows, Apply(w, step).rows)
    ensures ProcessValid(Apply(w, step), Apply(w, step).processes[p])
  {
    OtherWorld(w, step, p);
    hide Apply, StatusEvolves;
  }

  lemma OtherWorld(w: World, step: Step, p: Id)
    requires p in w.processes && p in Apply(w, step).processes && !step.CallLookup? && !step.CallCreate?
    ensures Apply(w, step).dispatches == w.dispatches && Apply(w, step).creates == w.creates
            && Apply(w, step).confirmed == w.confirmed
    ensures Apply(w, step).processes[p] == w.processes[p]
  {
    hide Prepare, Persist, Decide, LatestTry;
  }

  lemma OnlyDispatcher(w: World, p: Id, q: Id)
    requires ProcessesValid(w)
    ensures p in w.processes && q in w.processes && p != q && !w.processes[p].reconciling
            && !w.processes[q].reconciling ==>
              w.processes[p].action != w.processes[q].action
  {
  }

  lemma DispatchStarts(w: World, p: Id, a: Id, current: bool, admitted: bool)
    requires ProcessesValid(w) && TriesMatch(w.rows) && CallsValid(w) && p !in w.processes
             && p in Apply(w, BeginDispatch(p, a, current, admitted)).processes
    ensures ProcessValid(Apply(w, BeginDispatch(p, a, current, admitted)),
            Apply(w, BeginDispatch(p, a, current, admitted)).processes[p])
    ensures Apply(w, BeginDispatch(p, a, current, admitted)).processes
            == w.processes[p := Process(a, w.rows.nextId, false, Prepared)]
    ensures forall q :: q in w.processes ==> w.processes[q].action != a
  {
    hide HighestNumber;
    SentActions(w);
  }

  lemma ReconcileStarts(w: World, p: Id, a: Id)
    requires ProcessesValid(w) && p !in w.processes && p in Apply(w, BeginReconcile(p, a)).processes
    ensures ProcessValid(Apply(w, BeginReconcile(p, a)), Apply(w, BeginReconcile(p, a)).processes[p])
    ensures Apply(w, BeginReconcile(p, a)).processes[p].reconciling
    ensures Apply(w, BeginReconcile(p, a)).processes == w.processes[p := Apply(w, BeginReconcile(p, a)).processes[p]]
  {
    LatestIsTheOne(w.rows, a);
    hide LatestTry;
  }

  lemma NewProcess(w: World, step: Step, p: Id)
    requires ProcessesValid(w) && TriesMatch(w.rows) && CallsValid(w) && p in Apply(w, step).processes
             && p !in w.processes
    ensures ProcessValid(Apply(w, step), Apply(w, step).processes[p])
    ensures Apply(w, step).processes == w.processes[p := Apply(w, step).processes[p]]
    ensures !Apply(w, step).processes[p].reconciling ==> forall q :: q in w.processes ==>
            w.processes[q].action != Apply(w, step).processes[p].action
  {
    hide Prepare, Persist, Decide, LatestTry, LookUp, CreateResult, ReconcileResult, ProcessValid, ProcessesValid,
      TriesMatch, CallsValid;
    match step
    case BeginDispatch(q, a, current, admitted) => if q == p { DispatchStarts(w, p, a, current, admitted); }
    case BeginReconcile(q, a) => if q == p { ReconcileStarts(w, p, a); }
    case _ =>
  }

  lemma SameProcess(w: World, step: Step, p: Id)
    requires p in w.processes && p in Apply(w, step).processes
    ensures Apply(w, step).processes[p].action == w.processes[p].action
            && Apply(w, step).processes[p].reconciling == w.processes[p].reconciling
  {
    hide Prepare, Persist, Decide, LatestTry, LookUp, CreateResult, ReconcileResult;
  }

  lemma StepProcesses(w: World, step: Step)
    requires ProcessesValid(w) && RowsValid(w.rows) && CallsValid(w)
    ensures ProcessesValid(Apply(w, step))
  {
    hide Apply, RowsValid, ProcessValid, CallsValid, TriesMatch;
    var v := Apply(w, step);
    StepRows(w, step);
    RowsMatch(w.rows);
    forall p | p in v.processes ensures ProcessValid(v, v.processes[p]) {
      if p in w.processes { StepProcess(w, step, p); } else { NewProcess(w, step, p); }
    }
    forall p, q | p in v.processes && q in v.processes && !v.processes[p].reconciling && !v.processes[q].reconciling
                  && v.processes[p].action == v.processes[q].action
      ensures p == q
    {
      if p !in w.processes { NewProcess(w, step, p); }
      else if q !in w.processes { NewProcess(w, step, q); }
      else { SameProcess(w, step, p); SameProcess(w, step, q); }
    }
  }

  lemma StepConfirmed(w: World, step: Step)
    requires ConfirmedValid(w) && ProcessesValid(w)
    ensures ConfirmedValid(Apply(w, step))
  {
    hide HighestNumber, LatestTry, LookUp, CreateResult, ReconcileResult;
    match step
    case PersistOutcome(p) => if p in w.processes { assert ProcessValid(w, w.processes[p]); }
    case _ =>
  }

  lemma StepConsistent(w: World, step: Step)
    requires Consistent(w)
    ensures Consistent(Apply(w, step)) && ActionsEvolve(w.rows, Apply(w, step).rows)
  {
    hide Apply, TriesMatch, SentHaveTries, ProcessesValid, CallsValid, ConfirmedValid, ApprovalsValid, ActionsEvolve,
      TriesStay;
    StepRows(w, step);
    StepProcesses(w, step);
    StepCalls(w, step);
    StepConfirmed(w, step);
  }

  // ---------------------------------------------------------------- whole runs

  lemma {:induction false} RunConsistent(w: World, steps: seq<Step>)
    requires Consistent(w)
    ensures Consistent(Run(w, steps))
  {
    hide Consistent, Apply;
    if |steps| > 0 {
      RunConsistent(w, steps[..|steps| - 1]);
      StepConsistent(Run(w, steps[..|steps| - 1]), steps[|steps| - 1]);
    }
  }

  lemma InitialConsistent()
    ensures Consistent(Initial())
  {
  }

  lemma EvolveOn(x: ActionStatus, y: ActionStatus, z: ActionStatus)
    requires StatusEvolves(x, y) && StatusEvolves(y, z)
    ensures StatusEvolves(x, z)
  {
  }

  /** Reconciled, failed, denied and cancelled are final, and what was sent never becomes authorized
      again. */
  lemma {:induction false} RunEvolves(w: World, steps: seq<Step>, a: Id)
    requires Consistent(w) && a in w.rows.actions
    ensures a in Run(w, steps).rows.actions
            && StatusEvolves(w.rows.actions[a].status, Run(w, steps).rows.actions[a].status)
  {
    hide Consistent, Apply, StatusEvolves;
    if |steps| == 0 {
      StatusRests(w.rows.actions[a].status);
    } else {
      RunEvolves(w, steps[..|steps| - 1], a);
      RunConsistent(w, steps[..|steps| - 1]);
      StepConsistent(Run(w, steps[..|steps| - 1]), steps[|steps| - 1]);
      EvolveOn(w.rows.actions[a].status, Run(w, steps[..|steps| - 1]).rows.actions[a].status,
        Run(w, steps).rows.actions[a].status);
    }
  }

  lemma StatusRests(x: ActionStatus)
    ensures StatusEvolves(x, x)
  {
  }

  /** In every run, for every action: the provider's dispatch is called at most once and at most one
      create request is sent; exactly one attempt row exists once the action was sent and none before;
      its status corresponds to that of the action; and an action counts as acknowledged or reconciled
      only after the server showed its draft. */
  lemma DispatchedAtMostOnce(steps: seq<Step>, a: Id)
    ensures var w := Run(Initial(), steps);
            && Count(w.creates, a) <= Count(w.dispatches, a) <= 1
            && (Count(w.dispatches, a) == 1 ==> a in w.rows.actions && !Unsent(w.rows.actions[a].status))
            && (a in w.rows.actions ==>
                  && (HasTry(w.rows, a) <==> !Unsent(w.rows.actions[a].status))
                  && (w.rows.actions[a].status.Acknowledged? || w.rows.actions[a].status.Reconciled? ==>
                     a in w.confirmed))
            && (forall x, y :: x in w.rows.tries && y in w.rows.tries
                               && w.rows.tries[x].action == a == w.rows.tries[y].action ==>
                  x == y && w.rows.tries[x].number == 1)
            && (forall x :: x in w.rows.tries && w.rows.tries[x].action == a ==>
                  a in w.rows.actions && Corresponds(w.rows.actions[a].status, w.rows.tries[x].status))
  {
    hide Run, Initial, SentHaveTries, ProcessesValid, ApprovalsValid, Corresponds;
    InitialConsistent();
    RunConsistent(Initial(), steps);
    if a in Run(Initial(), steps).rows.actions { TriesIffSent(Run(Initial(), steps).rows, a); }
  }

  lemma TriesIffSent(r: Rows, a: Id)
    requires TriesMatch(r) && SentHaveTries(r) && a in r.actions
    ensures HasTry(r, a) <==> !Unsent(r.actions[a].status)
  {
  }

  /** A reconciling process never sends a create request. */
  lemma ReconcilerCreatesNothing(steps: seq<Step>, p: Id, applied: bool, reply: Reply)
    requires p in Run(Initial(), steps).processes && Run(Initial(), steps).processes[p].reconciling
    ensures Apply(Run(Initial(), steps), CallCreate(p, applied, reply)) == Run(Initial(), steps)
  {
    hide Run, Initial, Apply, TriesMatch, SentHaveTries, CallsValid, ConfirmedValid, ApprovalsValid, ProcessesValid;
    InitialConsistent();
    RunConsistent(Initial(), steps);
    CreatesNothing(Run(Initial(), steps), p, applied, reply);
  }

  lemma CreatesNothing(w: World, p: Id, applied: bool, reply: Reply)
    requires ProcessesValid(w) && p in w.processes && w.processes[p].reconciling
    ensures Apply(w, CallCreate(p, applied, reply)) == w
  {
    ProcessIsValid(w, p);
  }

  // ---------------------------------------------------------------- approvals

  lemma DecidedStays(r: Rows, approval: Id, decision: Decision, operator: Id, request: Id, digest: Id, other: Id)
    requires other in r.approvals && r.approvals[other].Decided?
    ensures other in Decide(r, approval, decision, operator, request, digest).0.approvals
    ensures Decide(r, approval, decision, operator, request, digest).0.approvals[other] == r.approvals[other]
  {
  }

  lemma StepDecided(w: World, step: Step, approval: Id)
    requires approval in w.rows.approvals && w.rows.approvals[approval].Decided?
    ensures approval in Apply(w, step).rows.approvals
            && Apply(w, step).rows.approvals[approval] == w.rows.approvals[approval]
  {
    hide HighestNumber, LatestTry, LookUp, CreateResult, Decide;
    match step
    case DecideApproval(x, decision, operator, request, digest) =>
      DecidedStays(w.rows, x, decision, operator, request, digest, approval);
    case _ =>
  }

  lemma {:induction false} RunDecided(w: World, steps: seq<Step>, approval: Id)
    requires approval in w.rows.approvals && w.rows.approvals[approval].Decided?
    ensures approval in Run(w, steps).rows.approvals
            && Run(w, steps).rows.approvals[approval] == w.rows.approvals[approval]
  {
    hide Apply;
    if |steps| > 0 {
      RunDecided(w, steps[..|steps| - 1], approval);
      StepDecided(Run(w, steps[..|steps| - 1]), steps[|steps| - 1], approval);
    }
  }

  /** A decision is made once: at any later time the same request is a replay, and any other request for
      the approval is turned away, without a change. */
  lemma DecidedOnce(w: World, approval: Id, decision: Decision, operator: Id, request: Id, digest: Id, steps: seq<Step>,
                    again: Decision, operatorAgain: Id, requestAgain: Id, digestAgain: Id)
    requires Decide(w.rows, approval, decision, operator, request, digest).1.Accepted?
    ensures var r := Run(Apply(w, DecideApproval(approval, decision, operator, request, digest)), steps).rows;
            var (s, outcome) := Decide(r, approval, again, operatorAgain, requestAgain, digestAgain);
            && s == r
            && outcome != Accepted
            && (operatorAgain == operator && requestAgain == request && digestAgain == digest ==>
               outcome in {Replayed, IdempotencyConflict})
            && (operatorAgain != operator || requestAgain != request || digestAgain != digest ==>
               outcome in {NotPending, IdempotencyConflict})
  {
    var v := Apply(w, DecideApproval(approval, decision, operator, request, digest));
    assert v.rows.approvals[approval] == Decided(decision, operator, request, digest);
    hide Apply, Run;
    RunDecided(v, steps, approval);
  }

  /** Whatever was sent under an approval was approved, and a rejected approval leaves its actions
      denied. */
  lemma SentWasApproved(steps: seq<Step>, a: Id)
    ensures var r := Run(Initial(), steps).rows;
            a in r.actions && r.actions[a].approval.Some? ==>
              && r.actions[a].approval.value in r.approvals
              && (!Unsent(r.actions[a].status) || r.actions[a].status.Authorized? ==>
                    r.approvals[r.actions[a].approval.value].Decided?
                      && r.approvals[r.actions[a].approval.value].decision.Approve?)
              && (r.approvals[r.actions[a].approval.value].Decided?
                  && r.approvals[r.actions[a].approval.value].decision.Reject? ==>
                    r.actions[a].status.Denied?)
  {
    hide Run, Initial, TriesMatch, SentHaveTries, ProcessesValid, CallsValid, ConfirmedValid;
    InitialConsistent();
    RunConsistent(Initial(), steps);
  }

  // ---------------------------------------------------------------- what reconciling can lose

  /** A reconciliation that looked before the create request arrived reports after it, and what it
      reports replaces the acknowledgement. */
  function Opening(): seq<Step> {
    [Propose(7), CheckPolicy(0, Authorized, None), BeginDispatch(1, 0, true, true), CallLookup(1, true, Answer)]
  }

  function Overtaken(reply: Reply): seq<Step> {
    [BeginReconcile(2, 0), CallLookup(2, true, reply), CallCreate(1, true, Answer), PersistOutcome(1)]
  }

  lemma {:induction false} RunJoins(w: World, xs: seq<Step>, ys: seq<Step>)
    ensures Run(w, xs + ys) == Run(Run(w, xs), ys)
  {
    hide Apply;
    if |ys| == 0 {
      assert xs + ys == xs;
    } else {
      assert (xs + ys)[..|xs + ys| - 1] == xs + ys[..|ys| - 1];
      RunJoins(w, xs, ys[..|ys| - 1]);
    }
  }

  lemma OneTry(tries: map<Id, Try>, x: Id, a: Id)
    requires tries.Keys == {x} && tries[x].action == a
    ensures HighestNumber(tries, a) == tries[x].number
  {
    assert (set y | y in tries && tries[y].action == a :: tries[y].number) == {tries[x].number};
  }

  lemma LateStart()
    ensures var w := Apply(Apply(Apply(Apply(Initial(), Propose(7)), CheckPolicy(0, Authorized, None)),
            BeginDispatch(1, 0, true, true)), CallLookup(1, true, Answer));
            && w.rows == Rows(map[0 := Action(ActionStatus.Dispatching, 7, None)],
               map[1 := Try(0, 1, TryStatus.Dispatching)], map[], 2)
            && w.processes == map[1 := Process(0, 1, false, Creating)] && w.visible == {} && w.creates == map[]
            && w.confirmed == {}
  {
    var v := Apply(Apply(Initial(), Propose(7)), CheckPolicy(0, Authorized, None));
    assert v.rows.actions == map[0 := Action(Authorized, 7, None)] && v.rows.nextId == 1;
    assert HighestNumber(v.rows.tries, 0) == 0;
  }

  /** The world in which the draft may still be created. */
  predicate Halfway(w: World) {
    && w.rows == Rows(map[0 := Action(ActionStatus.Dispatching, 7, None)], map[1 := Try(0, 1, TryStatus.Dispatching)],
       map[], 2)
    && w.processes == map[1 := Process(0, 1, false, Creating)] && w.visible == {} && w.creates == map[]
    && w.confirmed == {}
  }

  lemma LateLookup(w: World, reply: Reply)
    requires Halfway(w)
    ensures var v := Apply(Apply(w, BeginReconcile(2, 0)), CallLookup(2, true, reply));
            && v.rows == w.rows && v.visible == {} && v.creates == map[]
            && v.processes == map[1 := Process(0, 1, false, Creating),
               2 := Process(0, 1, true, Done(ReconcileResult(LookUp({}, 7, reply))))]
  {
    OneTry(w.rows.tries, 1, 0);
    assert LatestTry(w.rows, 0) == Some(1);
    hide HighestNumber, LatestTry, LookUp, ReconcileResult;
  }

  lemma LateCreate(w: World, result: ResultStatus)
    requires w.rows == Rows(map[0 := Action(ActionStatus.Dispatching, 7, None)],
             map[1 := Try(0, 1, TryStatus.Dispatching)], map[], 2)
    requires w.processes == map[1 := Process(0, 1, false, Creating), 2 := Process(0, 1, true, Done(result))]
             && w.visible == {} && w.creates == map[]
    ensures var v := Apply(Apply(w, CallCreate(1, true, Answer)), PersistOutcome(1));
            && v.rows.actions == map[0 := Action(ActionStatus.Acknowledged, 7, None)]
            && v.rows.tries == map[1 := Try(0, 1, TryStatus.Acknowledged)]
            && v.processes == map[2 := Process(0, 1, true, Done(result))] && v.visible == {7}
            && Count(v.creates, 0) == 1 && 0 in v.confirmed
  {
    var u := Apply(w, CallCreate(1, true, Answer));
    assert u.rows == w.rows && u.visible == {7} && Count(u.creates, 0) == 1 && 0 in u.confirmed;
    assert u.processes == map[1 := Process(0, 1, false, Done(ResultStatus.Acknowledged)),
      2 := Process(0, 1, true, Done(result))];
    LatePersistFirst(u, result);
  }

  lemma LatePersistFirst(u: World, result: ResultStatus)
    requires u.rows == Rows(map[0 := Action(ActionStatus.Dispatching, 7, None)],
             map[1 := Try(0, 1, TryStatus.Dispatching)], map[], 2)
    requires u.processes == map[1 := Process(0, 1, false, Done(ResultStatus.Acknowledged)),
             2 := Process(0, 1, true, Done(result))]
    ensures var v := Apply(u, PersistOutcome(1));
            && v.rows.actions == map[0 := Action(ActionStatus.Acknowledged, 7, None)]
            && v.rows.tries == map[1 := Try(0, 1, TryStatus.Acknowledged)]
            && v.processes == map[2 := Process(0, 1, true, Done(result))] && v.visible == u.visible
            && v.creates == u.creates && v.confirmed == u.confirmed
  {
  }

  lemma LatePersist(w: World, result: ResultStatus)
    requires w.rows.actions == map[0 := Action(ActionStatus.Acknowledged, 7, None)]
             && w.rows.tries == map[1 := Try(0, 1, TryStatus.Acknowledged)]
    requires w.processes == map[2 := Process(0, 1, true, Done(result))]
    ensures var v := Apply(w, PersistOutcome(2));
            && v.rows.actions.Keys == {0} && v.rows.actions[0].status == StatusFor(result, true)
            && v.visible == w.visible && v.creates == w.creates && v.confirmed == w.confirmed
  {
  }

  lemma RunFour(w: World, a: Step, b: Step, c: Step, d: Step)
    ensures Run(w, [a, b, c, d]) == Apply(Apply(Apply(Apply(w, a), b), c), d)
  {
    hide Apply;
    assert [a, b, c, d][..3] == [a, b, c] && [a, b, c][..2] == [a, b] && [a, b][..1] == [a] && [a][..0] == [];
    assert Run(w, [a]) == Apply(w, a);
    assert Run(w, [a, b]) == Apply(Run(w, [a]), b);
    assert Run(w, [a, b, c]) == Apply(Run(w, [a, b]), c);
  }

  lemma RunOne(w: World, a: Step)
    ensures Run(w, [a]) == Apply(w, a)
  {
    assert [a][..0] == [];
  }

  lemma LateWorld()
    ensures var w := Run(Initial(), Opening() + Overtaken(Http(403)));
            && w.rows.actions == map[0 := Action(ActionStatus.Acknowledged, 7, None)]
            && w.rows.tries == map[1 := Try(0, 1, TryStatus.Acknowledged)]
            && w.processes == map[2 := Process(0, 1, true, Done(ResultStatus.Failed))] && w.visible == {7}
            && Count(w.creates, 0) == 1 && 0 in w.confirmed
  {
    LateStart();
    hide Apply, Run, Initial, Count;
    RunFour(Initial(), Propose(7), CheckPolicy(0, Authorized, None), BeginDispatch(1, 0, true, true),
      CallLookup(1, true, Answer));
    RunJoins(Initial(), Opening(), Overtaken(Http(403)));
    LateOvertaken(Run(Initial(), Opening()));
  }

  lemma LateOvertaken(w: World)
    requires Halfway(w)
    ensures var v := Run(w, Overtaken(Http(403)));
            && v.rows.actions == map[0 := Action(ActionStatus.Acknowledged, 7, None)]
            && v.rows.tries == map[1 := Try(0, 1, TryStatus.Acknowledged)]
            && v.processes == map[2 := Process(0, 1, true, Done(ResultStatus.Failed))] && v.visible == {7}
            && Count(v.creates, 0) == 1 && 0 in v.confirmed
  {
    hide Apply, Run, Count;
    LateLookup(w, Http(403));
    LateCreate(Apply(Apply(w, BeginReconcile(2, 0)), CallLookup(2, true, Http(403))), ResultStatus.Failed);
    RunFour(w, BeginReconcile(2, 0), CallLookup(2, true, Http(403)), CallCreate(1, true, Answer), PersistOutcome(1));
  }

  /** An acknowledged action is not safe from a late reconciliation: a run in which the draft was created
      and acknowledged, and the action ends `failed` for good because an earlier lookup was refused. */
  lemma AcknowledgedCanFail()
    ensures var w := Run(Initial(), Opening() + Overtaken(Http(403)));
            0 in w.rows.actions && w.rows.actions[0].status.Acknowledged?
    ensures var w := Run(Initial(), Opening() + Overtaken(Http(403)) + [PersistOutcome(2)]);
            0 in w.rows.actions && w.rows.actions[0].status.Failed? && 7 in w.visible && Count(w.creates, 0) == 1
              && 0 in w.confirmed
  {
    LateWorld();
    hide Apply, Run, Initial, Count, Opening, Overtaken;
    var w8 := Run(Initial(), Opening() + Overtaken(Http(403)));
    LatePersist(w8, ResultStatus.Failed);
    RunJoins(Initial(), Opening() + Overtaken(Http(403)), [PersistOutcome(2)]);
    RunOne(w8, PersistOutcome(2));
  }

  /** What a step records for the action, if it records a result. */
  ghost function Persisted(w: World, step: Step, a: Id): Option<ActionStatus> {
    if step.PersistOutcome? && step.process in w.processes && w.processes[step.process].action == a
       && w.processes[step.process].stage.Done?
    then Some(StatusFor(w.processes[step.process].stage.result, w.processes[step.process].reconciling))
    else None
  }

  /** Whether the acknowledgement still stands. */
  ghost predicate Stands(w: World, a: Id) {
    a in w.rows.actions && (w.rows.actions[a].status.Acknowledged? || w.rows.actions[a].status.Reconciled?)
  }

  /** An acknowledged or reconciled action takes a recorded result unless it is reconciled already. */
  lemma StepRecords(w: World, step: Step, a: Id)
    requires Consistent(w) && Stands(w, a)
    ensures a in Apply(w, step).rows.actions
    ensures Apply(w, step).rows.actions[a].status
            == (if Persisted(w, step, a).Some?
                && w.rows.actions[a].status.Acknowledged? then Persisted(w, step, a).value
              else w.rows.actions[a].status)
  {
    hide HighestNumber, LatestTry, LookUp, CreateResult, SentHaveTries, CallsValid, ConfirmedValid, ApprovalsValid;
    if step.PersistOutcome? && step.process in w.processes {
      ProcessIsValid(w, step.process);
      OnlyTry(w.rows, w.processes[step.process].attempt);
    }
    hide TriesMatch, ProcessesValid;
  }

  /** The step at place `i` of the run records another result than an acknowledgement. */
  ghost predicate Overwrites(w: World, steps: seq<Step>, a: Id, i: nat)
    requires i < |steps|
  {
    var x := Persisted(Run(w, steps[..i]), steps[i], a);
    x.Some? && !x.value.Acknowledged? && !x.value.Reconciled?
  }

  /** The step at place `i` of the run records a reconciliation. */
  ghost predicate Reconciles(w: World, steps: seq<Step>, a: Id, i: nat)
    requires i < |steps|
  {
    Persisted(Run(w, steps[..i]), steps[i], a) == Some(Reconciled)
  }

  /** Another result is recorded before any reconciliation. */
  ghost predicate Overtaking(w: World, steps: seq<Step>, a: Id) {
    exists i :: 0 <= i < |steps| && Overwrites(w, steps, a, i) && forall j :: 0 <= j < i ==> !Reconciles(w, steps, a, j)
  }

  ghost predicate StandsThroughout(w: World, steps: seq<Step>, a: Id) {
    forall n :: 0 <= n <= |steps| ==> Stands(Run(w, steps[..n]), a)
  }

  lemma PlacesKept(w: World, steps: seq<Step>, a: Id, i: nat)
    requires i < |steps| - 1
    ensures Overwrites(w, steps, a, i) == Overwrites(w, steps[..|steps| - 1], a, i)
    ensures Reconciles(w, steps, a, i) == Reconciles(w, steps[..|steps| - 1], a, i)
  {
    hide Persisted, Run;
    assert steps[..|steps| - 1][..i] == steps[..i];
  }

  lemma OvertakingNext(w: World, steps: seq<Step>, a: Id)
    requires |steps| > 0
    ensures var init := steps[..|steps| - 1];
            Overtaking(w, steps, a)
            <==> Overtaking(w, init, a)
                 || (Overwrites(w, steps, a, |init|) && forall j :: 0 <= j < |init| ==> !Reconciles(w, init, a, j))
  {
    hide Overwrites, Reconciles;
    var init := steps[..|steps| - 1];
    forall i | 0 <= i < |init|
      ensures Overwrites(w, steps, a, i) == Overwrites(w, init, a, i)
              && Reconciles(w, steps, a, i) == Reconciles(w, init, a, i)
    {
      PlacesKept(w, steps, a, i);
    }
  }

  lemma ThroughoutNext(w: World, steps: seq<Step>, a: Id)
    requires |steps| > 0
    ensures StandsThroughout(w, steps, a) <==> StandsThroughout(w, steps[..|steps| - 1], a) && Stands(Run(w, steps), a)
  {
    hide Stands, Run;
    var init := steps[..|steps| - 1];
    assert steps[..|steps|] == steps;
    forall n | 0 <= n <= |init| ensures init[..n] == steps[..n] {}
    if StandsThroughout(w, steps, a) { assert Stands(Run(w, steps[..|steps|]), a); }
  }

  /** While it stands, the action is reconciled exactly once some step has recorded a reconciliation. */
  lemma {:induction false} ReconciledIff(w: World, steps: seq<Step>, a: Id)
    requires Consistent(w) && a in w.rows.actions && w.rows.actions[a].status.Acknowledged?
             && StandsThroughout(w, steps, a)
    ensures a in Run(w, steps).rows.actions
    ensures Run(w, steps).rows.actions[a].status.Reconciled?
            <==> exists j :: 0 <= j < |steps| && Reconciles(w, steps, a, j)
  {
    hide Consistent, Apply, Persisted, Overwrites, StandsThroughout;
    if |steps| > 0 {
      var init := steps[..|steps| - 1];
      ThroughoutNext(w, steps, a);
      ReconciledIff(w, init, a);
      RunConsistent(w, init);
      ThroughoutLast(w, init, a);
      StepRecords(Run(w, init), steps[|steps| - 1], a);
      forall j | 0 <= j < |init| ensures Reconciles(w, steps, a, j) == Reconciles(w, init, a, j) {
        PlacesKept(w, steps, a, j);
      }
      assert Reconciles(w, steps, a, |init|) <==> Persisted(Run(w, init), steps[|steps| - 1], a) == Some(Reconciled);
      hide Reconciles;
    }
  }

  lemma ThroughoutLast(w: World, steps: seq<Step>, a: Id)
    requires StandsThroughout(w, steps, a)
    ensures Stands(Run(w, steps), a)
  {
    assert steps[..|steps|] == steps;
  }

  /** An acknowledgement stands throughout a run exactly when no process records another result for the
      action before one records a reconciliation. */
  lemma {:induction false} AcknowledgementSurvivesIff(w: World, steps: seq<Step>, a: Id)
    requires Consistent(w) && a in w.rows.actions && w.rows.actions[a].status.Acknowledged?
    ensures StandsThroughout(w, steps, a) <==> !Overtaking(w, steps, a)
  {
    hide Consistent, Apply, Persisted, Reconciles, StandsThroughout, Overtaking;
    if |steps| == 0 {
      NoSteps(w, steps, a);
    } else {
      var init := steps[..|steps| - 1];
      AcknowledgementSurvivesIff(w, init, a);
      OvertakingNext(w, steps, a);
      ThroughoutNext(w, steps, a);
      if StandsThroughout(w, init, a) {
        ReconciledIff(w, init, a);
        RunConsistent(w, init);
        ThroughoutLast(w, init, a);
        StepRecords(Run(w, init), steps[|steps| - 1], a);
      }
    }
  }

  lemma NoSteps(w: World, steps: seq<Step>, a: Id)
    requires |steps| == 0 && a in w.rows.actions && w.rows.actions[a].status.Acknowledged?
    ensures StandsThroughout(w, steps, a) && !Overtaking(w, steps, a)
  {
  }

  lemma OnlyTry(r: Rows, x: Id)
    requires TriesMatch(r) && x in r.tries
    ensures Corresponds(r.actions[r.tries[x].action].status, r.tries[x].status)
  {
  }
}
