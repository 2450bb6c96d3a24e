/** The durable tables and the transactions over them, one function per transaction.  Every
    transaction is one serializable step: it returns the new tables and what the service reports.
    `nextId` stands for the id and token generators, which never repeat a value. */
module RuntimeTables {
  import opened Basics
  import opened Board

  datatype Lifecycle =
    | Declared | Starting | Ready | Running | Completing | Completed
    | Blocked | Suspended | Cancelling | Cancelled | Failed

  datatype Region = Region(status: Lifecycle, epoch: nat)

  // ---------------------------------------------------------------- worker results

  datatype ResultStatus = Completed | Failed | Cancelled

  /** What is recorded about an artifact beside its digest. */
  datatype ArtifactKind = ArtifactKind(size: nat, schema: Id, media: Id)

  /** A staged artifact named by a result.  Committed artifacts are unique by digest, so the digest
      also names the artifact. */
  datatype Staged = Staged(ref: Id, port: Id, digest: Id, kind: ArtifactKind)

  datatype WorkerEvent = WorkerEvent(eventType: Id, subject: Id)

  datatype Counter = CpuMilliseconds | WallMilliseconds | InputBytes | OutputBytes | ExternalCalls
      | UnknownCounter(name: Id)

  const COUNTERS: seq<Counter> := [CpuMilliseconds, WallMilliseconds, InputBytes, OutputBytes, ExternalCalls]

  const MAX_SAFE_INTEGER := 0x1F_FFFF_FFFF_FFFF

  datatype Result = Result(
    executionId: Id,
    attemptId: Id,
    leaseToken: Id,
    epoch: int,
    status: ResultStatus,
    staged: seq<Staged>,
    state: Option<Staged>,
    events: seq<WorkerEvent>,
    requests: seq<Staged>,
    usage: map<Counter, int>,
    retryable: bool)

  datatype Submission = Submission(digest: Id, result: Result, committed: bool)

  // ---------------------------------------------------------------- append-only tables

  datatype EventKind =
    | ComponentOutput(port: Id, digest: Id)
    | Proposed(eventType: Id)
    | CommandAccepted
    | CancelRequested
    | RecoveryReported

  datatype Stream = ComponentStream(component: Id, port: Id) | SubjectStream(subject: Id) | CommandStream(region: Id)
      | RecoveryStream

  datatype Event = Event(id: Id, region: Id, kind: EventKind, stream: Stream, sequence: nat, correlation: Id,
      attempt: Option<Id>)

  datatype Output = Output(execution: Id, attempt: Id, port: Id, digest: Id, event: Option<Id>)

  datatype Entry = Entry(region: Id, execution: Id, attempt: Id, counter: Counter, quantity: int)

  datatype Tables = Tables(
    nextId: nat,
    clock: Time,
    regions: map<Id, Region>,
    board: Board,
    submissions: map<Id, Submission>,
    outputs: seq<Output>,
    events: seq<Event>,
    streams: map<Stream, nat>,
    ledger: seq<Entry>,
    routes: map<(Id, Id), seq<Id>>,
    cancellations: map<(Id, Id), Id>,
    artifacts: map<Id, ArtifactKind>)

  // ---------------------------------------------------------------- events and routing

  /** The number the next event of a stream takes; a stream without a counter row starts at 1. */
  function NextSequence(streams: map<Stream, nat>, stream: Stream): nat {
    if stream in streams then streams[stream] else 1
  }

  function InsertEvent(t: Tables, region: Id, kind: EventKind, stream: Stream, correlation: Id,
      attempt: Option<Id>): Tables {
    var n := NextSequence(t.streams, stream);
    t.(nextId := t.nextId + 1,
       streams := t.streams[stream := n + 1],
       events := t.events + [Event(t.nextId, region, kind, stream, n, correlation, attempt)])
  }

  function NewDelivery(region: Id, component: Id, correlation: Id, at: Time): Delivery {
    Delivery(region, component, correlation, DeliveryStatus.Ready, None, at, 0)
  }

  /** One ready delivery for each of the first `n` targets. */
  function Route(t: Tables, region: Id, correlation: Id, targets: seq<Id>, n: nat): Tables
    requires n <= |targets|
  {
    if n == 0 then t
    else
      var s := Route(t, region, correlation, targets, n - 1);
      s.(nextId := s.nextId + 1,
         board := AddDelivery(s.board, s.nextId, NewDelivery(region, targets[n - 1], correlation, s.clock)))
  }

  function TargetsOf(t: Tables, component: Id, port: Id): seq<Id> {
    if (component, port) in t.routes then t.routes[(component, port)] else []
  }

  // ---------------------------------------------------------------- committing a result

  datatype RejectCode =
    | InactiveAttempt
    | DuplicateConflictingResult
    | StaleLeaseToken
    | LeaseExpired
    | StaleLifecycleEpoch
    | InvalidResourceUsage
    | ExternalActionUnauthorized
    | InvalidStagedArtifact
    | ArtifactConflict

  /** `Rejected` is an error below 500; `Aborted` is any other error: rolled back and thrown on. */
  datatype Outcome = Committed | RetryScheduled | DeadLettered | Duplicate | Rejected(code: RejectCode) | Aborted

  /** What the checks outside these tables say about a result: schemas, ports, staging rows, blob
      bytes and capability grants.  `Unavailable` is the missing blob store, met at the first staged
      artifact. */
  datatype Verdict = Admissible | Inadmissible | Unavailable

  const RETRY_BACKOFF_MS: seq<int> := [1_000, 5_000, 30_000]

  predicate LeasedUnder(b: Board, d: Id, token: Id) {
    d in b.deliveries && b.deliveries[d].status.Leased? && b.deliveries[d].lease.Some?
      && b.deliveries[d].lease.value.token == token
  }

  /** `assertAuthority`. */
  function FirstRefusal(t: Tables, r: Result, row: Attempt, e: Execution, allowExpired: bool): Option<RejectCode> {
    if row.lease.None? || row.lease.value.token != r.leaseToken then Some(StaleLeaseToken)
    else if !allowExpired && row.lease.value.expires <= t.clock then Some(LeaseExpired)
    else if e.epoch != r.epoch || e.region !in t.regions || t.regions[e.region].epoch != r.epoch
            || !t.regions[e.region].status.Running? then Some(StaleLifecycleEpoch)
    else if exists d | d in e.inputs :: !LeasedUnder(t.board, d, r.leaseToken) then Some(StaleLeaseToken)
    else None
  }

  predicate UsageValid(usage: map<Counter, int>) {
    && usage.Keys == (set c | c in COUNTERS)
    && forall c :: c in usage ==> 0 <= usage[c] <= MAX_SAFE_INTEGER
  }

  function AllStaged(r: Result): seq<Staged> {
    r.staged + (if r.state.Some? then [r.state.value] else [])
  }

  predicate Names(xs: seq<Staged>, ref: Id) { exists i :: 0 <= i < |xs| && xs[i].ref == ref }

  /** The artifacts with the request artifacts of the external action proposals: a reference that was named
      before is not published again. */
  function Gathered(xs: seq<Staged>, requests: seq<Staged>): seq<Staged> {
    if |requests| == 0 then xs
    else
      var ys, x := Gathered(xs, requests[..|requests| - 1]), requests[|requests| - 1];
      if Names(ys, x.ref) then ys else ys + [x]
  }

  function ArtifactsOf(r: Result): seq<Staged> { Gathered(AllStaged(r), r.requests) }

  predicate RefsDistinct(xs: seq<Staged>) {
    forall i, j :: 0 <= i < j < |xs| ==> xs[i].ref != xs[j].ref
  }

  /** The unique constraint on (execution, port, artifact) of the output rows. */
  predicate OutputsDistinct(xs: seq<Staged>) {
    forall i, j :: 0 <= i < j < |xs| ==> xs[i].port != xs[j].port || xs[i].digest != xs[j].digest
  }

  /** Ledger rows of the first `n` counters; a zero quantity writes no row. */
  function UsageRows(region: Id, r: Result, n: nat): seq<Entry>
    requires n <= |COUNTERS| && UsageValid(r.usage)
  {
    if n == 0 then []
    else
      var c := COUNTERS[n - 1];
      UsageRows(region, r, n - 1)
      + (if r.usage[c] == 0 then [] else [Entry(region, r.executionId, r.attemptId, c, r.usage[c])])
  }

  /** Event, output row and routed deliveries of one staged artifact. */
  function PublishOne(t: Tables, r: Result, e: Execution, correlation: Id, x: Staged): Tables {
    var id := t.nextId;
    var s := InsertEvent(t, e.region, ComponentOutput(x.port, x.digest), ComponentStream(e.component, x.port),
      correlation, Some(r.attemptId));
    var u := s.(outputs := s.outputs + [Output(r.executionId, r.attemptId, x.port, x.digest, Some(id))]);
    var targets := TargetsOf(u, e.component, x.port);
    Route(u, e.region, correlation, targets, |targets|)
  }

  function Publish(t: Tables, r: Result, e: Execution, correlation: Id, n: nat): Tables
    requires n <= |r.staged|
  {
    if n == 0 then t else PublishOne(Publish(t, r, e, correlation, n - 1), r, e, correlation, r.staged[n - 1])
  }

  function PublishState(t: Tables, r: Result): Tables {
    if r.state.None? then t
    else t.(outputs := t.outputs + [Output(r.executionId, r.attemptId, r.state.value.port, r.state.value.digest, None)])
  }

  function Announce(t: Tables, r: Result, e: Execution, correlation: Id, n: nat): Tables
    requires n <= |r.events|
  {
    if n == 0 then t
    else InsertEvent(Announce(t, r, e, correlation, n - 1), e.region, Proposed(r.events[n - 1].eventType),
                     SubjectStream(r.events[n - 1].subject), correlation, Some(r.attemptId))
  }

  predicate Attached(b: Board, a: Id, e: Id) {
    a in b.attempts && e in b.executions && b.attempts[a].execution == e
  }

  function CorrelationOf(b: Board, e: Execution): Id {
    if e.trigger in b.deliveries then b.deliveries[e.trigger].correlation else 0
  }

  function PublishResult(t: Tables, r: Result): Tables
    requires Attached(t.board, r.attemptId, r.executionId)
  {
    var e := t.board.executions[r.executionId];
    var c := CorrelationOf(t.board, e);
    Announce(PublishState(Publish(t, r, e, c, |r.staged|), r), r, e, c, |r.events|)
  }

  /** `publishArtifact` for each staged artifact: a digest that is not there yet becomes an artifact. */
  function Collected(artifacts: map<Id, ArtifactKind>, xs: seq<Staged>): map<Id, ArtifactKind> {
    if |xs| == 0 then artifacts
    else
      var m := Collected(artifacts, xs[..|xs| - 1]);
      var x := xs[|xs| - 1];
      if x.digest in m then m else m[x.digest := x.kind]
  }

  /** One of them meets an artifact of its digest that is recorded differently. */
  predicate Conflicted(artifacts: map<Id, ArtifactKind>, xs: seq<Staged>) {
    |xs| > 0
    && (Conflicted(artifacts, xs[..|xs| - 1])
        || (var m := Collected(artifacts, xs[..|xs| - 1]);
            var x := xs[|xs| - 1];
            x.digest in m && m[x.digest] != x.kind))
  }

  function CloseCompleted(b: Board, a: Id): Board
    requires a in b.attempts && b.attempts[a].execution in b.executions
  {
    Close(b, a, AttemptStatus.Completed, None, ExecutionStatus.Completed, None, DeliveryStatus.Completed)
  }

  function CloseDeadLettered(b: Board, a: Id, status: AttemptStatus, failure: Option<Failure>, cause: Failure): Board
    requires a in b.attempts && b.attempts[a].execution in b.executions
  {
    Close(b, a, status, failure, ExecutionStatus.Failed, Some(cause), DeliveryStatus.DeadLettered)
  }

  lemma RouteKeepsRows(t: Tables, region: Id, correlation: Id, targets: seq<Id>, n: nat)
    requires n <= |targets|
    ensures Route(t, region, correlation, targets, n).board.attempts == t.board.attempts
    ensures Route(t, region, correlation, targets, n).board.executions == t.board.executions
  {
  }

  lemma PublishKeepsRows(t: Tables, r: Result, e: Execution, correlation: Id, n: nat)
    requires n <= |r.staged|
    ensures Publish(t, r, e, correlation, n).board.attempts == t.board.attempts
    ensures Publish(t, r, e, correlation, n).board.executions == t.board.executions
  {
    if n > 0 {
      PublishKeepsRows(t, r, e, correlation, n - 1);
      var s := Publish(t, r, e, correlation, n - 1);
      var x := r.staged[n - 1];
      var u := InsertEvent(s, e.region, ComponentOutput(x.port, x.digest), ComponentStream(e.component, x.port),
        correlation, Some(r.attemptId));
      var v := u.(outputs := u.outputs + [Output(r.executionId, r.attemptId, x.port, x.digest, Some(s.nextId))]);
      var targets := TargetsOf(v, e.component, x.port);
      RouteKeepsRows(v, e.region, correlation, targets, |targets|);
    }
  }

  lemma AnnounceKeepsRows(t: Tables, r: Result, e: Execution, correlation: Id, n: nat)
    requires n <= |r.events|
    ensures Announce(t, r, e, correlation, n).board == t.board
  {
  }

  lemma PublishResultKeepsRows(t: Tables, r: Result)
    requires Attached(t.board, r.attemptId, r.executionId)
    ensures PublishResult(t, r).board.attempts == t.board.attempts
    ensures PublishResult(t, r).board.executions == t.board.executions
  {
    var e := t.board.executions[r.executionId];
    var c := CorrelationOf(t.board, e);
    PublishKeepsRows(t, r, e, c, |r.staged|);
    AnnounceKeepsRows(PublishState(Publish(t, r, e, c, |r.staged|), r), r, e, c, |r.events|);
  }

  function Complete(t: Tables, r: Result): Tables
    requires Attached(t.board, r.attemptId, r.executionId)
  {
    PublishResultKeepsRows(t, r);
    var s := PublishResult(t, r);
    s.(board := CloseCompleted(s.board, r.attemptId), artifacts := Collected(s.artifacts, ArtifactsOf(r)))
  }

  function FailOrRetry(t: Tables, r: Result): (Tables, Outcome)
    requires Attached(t.board, r.attemptId, r.executionId)
  {
    var n := t.board.attempts[r.attemptId].number;
    if r.retryable && 1 <= n <= |RETRY_BACKOFF_MS| then
      (t.(nextId := t.nextId + 1,
          board := Retry(t.board, r.attemptId, AttemptStatus.Failed, Some(WorkerFailure), t.nextId,
            t.clock + RETRY_BACKOFF_MS[n - 1])),
       RetryScheduled)
    else
      (t.(board := CloseDeadLettered(t.board, r.attemptId, AttemptStatus.Failed, Some(WorkerFailure), WorkerFailure)),
        Outcome.DeadLettered)
  }

  /** The checks in the order the service makes them; `None` lets the result through. */
  function Refusal(t: Tables, r: Result, digest: Id, allowExpired: bool, verdict: Verdict): Option<Outcome> {
    if !Attached(t.board, r.attemptId, r.executionId) then Some(Rejected(InactiveAttempt))
    else
      var row := t.board.attempts[r.attemptId];
      var e := t.board.executions[r.executionId];
      if r.attemptId in t.submissions
         && t.submissions[r.attemptId].digest != digest then Some(Rejected(DuplicateConflictingResult))
      else if r.attemptId in t.submissions && t.submissions[r.attemptId].committed then Some(Duplicate)
      else if !Active(row.status) then Some(Rejected(InactiveAttempt))
      else if !e.status.Running? then Some(Rejected(InactiveAttempt))
      else if e.inputs == {} then Some(Rejected(InactiveAttempt))
      else
        var refused := FirstRefusal(t, r, row, e, allowExpired);
        if refused.Some? then Some(Rejected(refused.value))
        else if !UsageValid(r.usage) then Some(Rejected(InvalidResourceUsage))
        else if !r.status.Completed? && |r.requests| > 0 then Some(Rejected(ExternalActionUnauthorized))
        else if verdict.Inadmissible? then Some(Rejected(InvalidStagedArtifact))
        else if r.status.Completed? && verdict.Unavailable? then Some(Aborted)
        else if !RefsDistinct(AllStaged(r)) then Some(Rejected(InvalidStagedArtifact))
        else if r.status.Completed? && Conflicted(t.artifacts, ArtifactsOf(r)) then Some(Rejected(ArtifactConflict))
        else if r.status.Completed? && !OutputsDistinct(AllStaged(r)) then Some(Aborted)
        // A worker-reported cancellation writes a failure onto a cancelled attempt row, which the
        // check constraint on attempt failures forbids: the database aborts the transaction.
        else if r.status.Cancelled? then Some(Aborted)
        else None
  }

  function Recorded(t: Tables, r: Result, digest: Id): Tables {
    t.(submissions := t.submissions[r.attemptId :=
         if r.attemptId in t.submissions then t.submissions[r.attemptId].(committed := true)
         else Submission(digest, r, true)])
  }

  /** The commit transaction. */
  function CommitTransaction(t: Tables, r: Result, digest: Id, allowExpired: bool, verdict: Verdict)
    : (Tables, Outcome)
  {
    var refusal := Refusal(t, r, digest, allowExpired, verdict);
    if refusal.Some? then (t, refusal.value)
    else
      var s := t.(ledger := t.ledger + UsageRows(t.board.executions[r.executionId].region, r, |COUNTERS|));
      if r.status.Completed? then (Recorded(Complete(s, r), r, digest), Committed)
      else
        var (u, outcome) := FailOrRetry(s, r);
        (Recorded(u, r, digest), outcome)
  }

  /** The separate delete that follows a rejected commit. */
  function Discard(t: Tables, a: Id, digest: Id): Tables {
    if a in t.submissions && t.submissions[a].digest == digest && !t.submissions[a].committed
    then t.(submissions := t.submissions - {a})
    else t
  }

  /** `commit`: the transaction, then the delete when it was rejected. */
  function Commit(t: Tables, r: Result, digest: Id, allowExpired: bool, verdict: Verdict): (Tables, Outcome) {
    var (s, outcome) := CommitTransaction(t, r, digest, allowExpired, verdict);
    if outcome.Rejected? then (Discard(s, r.attemptId, digest), outcome) else (s, outcome)
  }

  // ---------------------------------------------------------------- worker protocol and leases

  /** `activeAttempt` of the worker protocol. */
  predicate Presents(t: Tables, executionId: Id, a: Id, token: Id, epoch: int) {
    && Attached(t.board, a, executionId)
    && Active(t.board.attempts[a].status)
    && t.board.attempts[a].lease.Some?
    && t.board.attempts[a].lease.value.token == token
    && t.board.executions[executionId].epoch == epoch
    && t.board.executions[executionId].region in t.regions
    && t.regions[t.board.executions[executionId].region].epoch == epoch
    && t.clock < t.board.attempts[a].lease.value.expires
  }

  /** The durable hand-off of a result before it is committed. */
  function Handoff(t: Tables, r: Result, digest: Id, stagedValid: bool): Tables {
    if r.attemptId in t.submissions || !Presents(t, r.executionId, r.attemptId, r.leaseToken, r.epoch)
       || !stagedValid then t
    else t.(submissions := t.submissions[r.attemptId := Submission(digest, r, false)])
  }

  const MAX_LEASE_MS := 15 * 60_000

  predicate LeaseDuration(ms: int) { 0 < ms <= MAX_LEASE_MS }

  function Heartbeat(t: Tables, executionId: Id, a: Id, token: Id, epoch: int, ms: int): Tables {
    if Presents(t, executionId, a, token, epoch) && LeaseDuration(ms)
    then t.(board := Extend(t.board, a, t.clock + ms))
    else t
  }

  predicate RunningAt(t: Tables, region: Id) {
    region in t.regions && t.regions[region].status.Running?
  }

  /** Deliveries the scheduler may take for `component` now. */
  predicate Available(t: Tables, ids: set<Id>, region: Id, component: Id, correlation: Id) {
    forall d :: d in ids ==>
      && d in t.board.deliveries
      && t.board.deliveries[d].status.Ready?
      && t.board.deliveries[d].availableAt <= t.clock
      && t.board.deliveries[d].region == region
      && t.board.deliveries[d].component == component
      && t.board.deliveries[d].correlation == correlation
  }

  /** A first lease: the scheduler selected ready deliveries that no execution has taken. */
  ghost function LeaseNew(t: Tables, ids: set<Id>, trigger: Id, region: Id, component: Id, correlation: Id, ms: int)
    : Tables
  {
    if trigger in ids && Available(t, ids, region, component, correlation) && RunningAt(t, region) && LeaseDuration(ms)
       && forall d :: d in ids ==> !Claimed(t.board, d)
    then
      var e, a, token := t.nextId, t.nextId + 1, t.nextId + 2;
      t.(nextId := t.nextId + 3,
         board := StartExecution(t.board, e, a,
                    Execution(region, component, t.regions[region].epoch, trigger, ids, ExecutionStatus.Running, None),
                    Lease(token, t.clock + ms), t.clock))
    else t
  }

  predicate Due(t: Tables, a: Id) {
    && a in t.board.attempts && t.board.attempts[a].status.Pending? && t.board.attempts[a].startedAt <= t.clock
    && t.board.attempts[a].execution in t.board.executions
    && var e := t.board.executions[t.board.attempts[a].execution];
    && e.status.Running?
    && RunningAt(t, e.region) && t.regions[e.region].epoch == e.epoch
    && Available(t, e.inputs, e.region, e.component, CorrelationOf(t.board, e))
  }

  /** A repeated lease: the scheduler found the execution of the same inputs and its due attempt. */
  function LeaseAgain(t: Tables, a: Id, ms: int): Tables {
    if Due(t, a) && LeaseDuration(ms) then
      t.(nextId := t.nextId + 1, board := LeasePending(t.board, a, Lease(t.nextId, t.clock + ms), t.clock))
    else t
  }

  /** An accepted command: its event and one ready delivery for each target. */
  function Ingress(t: Tables, region: Id, correlation: Id, targets: seq<Id>): Tables {
    Route(InsertEvent(t, region, CommandAccepted, CommandStream(region), correlation, None), region, correlation,
      targets, |targets|)
  }

  // ---------------------------------------------------------------- operator cancellation

  datatype CancelOutcome = Accepted | Replayed | Conflict

  function RunDeliveries(b: Board, region: Id, correlation: Id): set<Id> {
    set d | d in b.deliveries && b.deliveries[d].region == region && b.deliveries[d].correlation == correlation
  }

  /** Executions are found through their trigger delivery. */
  function RunExecutions(b: Board, region: Id, correlation: Id): set<Id> {
    set e | e in b.executions && b.executions[e].trigger in RunDeliveries(b, region, correlation)
  }

  function CancelRun(t: Tables, region: Id, correlation: Id, key: Id, digest: Id): (Tables, CancelOutcome) {
    if (region, key) in t.cancellations then
      (t, if t.cancellations[(region, key)] == digest then Replayed else Conflict)
    else
      var s := InsertEvent(t.(cancellations := t.cancellations[(region, key) := digest]),
                           region, CancelRequested, CommandStream(region), correlation, None);
      (s.(board := CancelAll(s.board, RunExecutions(s.board, region, correlation),
        RunDeliveries(s.board, region, correlation), OperatorCancelled)),
       Accepted)
  }

  // ---------------------------------------------------------------- startup recovery

  datatype Recovered = Recovered(abandoned: nat, replacement: nat, exposed: nat, terminal: nat)

  predicate Expired(b: Board, a: Id, now: Time) {
    a in b.attempts && Active(b.attempts[a].status) && b.attempts[a].lease.Some?
      && b.attempts[a].lease.value.expires <= now
  }

  function AbandonAttempt(b: Board, a: Id): Board
    requires a in b.attempts
  {
    b.(attempts := b.attempts[a := Ended(b.attempts[a], AttemptStatus.Abandoned, None)])
  }

  /** The transaction that abandons one expired attempt. */
  function AbandonExpired(t: Tables, a: Id, now: Time): (Tables, Recovered) {
    if !Expired(t.board, a, now) || t.board.attempts[a].execution !in t.board.executions then (t, Recovered(0, 0, 0, 0))
    else
      var row := t.board.attempts[a];
      var e := t.board.executions[row.execution];
      if e.status.Running? && RunningAt(t, e.region) && row.number < MAX_ATTEMPTS then
        var b := Retry(t.board, a, AttemptStatus.Abandoned, None, t.nextId, now);
        (t.(nextId := t.nextId + 1, board := b),
         Recovered(1,
           if NumberTaken(t.board.attempts[a := Ended(row, AttemptStatus.Abandoned, None)],
                          row.execution, row.number + 1) then 0 else 1,
           |e.inputs|, 0))
      else if e.status.Running? then
        (t.(board := CloseDeadLettered(t.board, a, AttemptStatus.Abandoned, None, RecoveryTerminal)),
          Recovered(1, 0, 0, 1))
      else
        (t.(board := AbandonAttempt(t.board, a)), Recovered(1, 0, 0, 0))
  }

  /** Deliveries leased beyond `now` in a running region. */
  function Orphans(t: Tables, now: Time): set<Id> {
    set d | d in t.board.deliveries && t.board.deliveries[d].status.Leased? && t.board.deliveries[d].lease.Some?
            && t.board.deliveries[d].lease.value.expires <= now && RunningAt(t, t.board.deliveries[d].region)
  }

  function ExposeOrphans(t: Tables, now: Time): Tables {
    t.(board := t.board.(deliveries := Release(t.board.deliveries, Orphans(t, now), now)))
  }

  /** The closing event of a recovery, in the root region when there is one; an event without a
      correlation of its own correlates with itself. */
  function ReportRecovery(t: Tables, root: Option<Id>): Tables {
    if root.None? then t else InsertEvent(t, root.value, RecoveryReported, RecoveryStream, t.nextId, None)
  }

  function RegionDeliveries(b: Board, region: Id): set<Id> {
    set d | d in b.deliveries && b.deliveries[d].region == region
  }

  function RegionExecutions(b: Board, region: Id): set<Id> {
    set e | e in b.executions && b.executions[e].region == region
  }

  /** The transaction that settles one cancelling region. */
  function SettleRegion(t: Tables, region: Id): Tables {
    if region in t.regions && t.regions[region].status.Cancelling? then
      t.(board := CancelAll(t.board, RegionExecutions(t.board, region), RegionDeliveries(t.board, region),
        RegionCancelled),
         regions := t.regions[region := Region(Lifecycle.Cancelled, t.regions[region].epoch + 1)])
    else t
  }
}
