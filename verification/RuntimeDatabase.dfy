/** The services as they run: a database object whose tables the transactions update in place,
    statement by statement and loop by loop.  Each method ends in exactly the state its transaction
    function describes. */
module RuntimeDatabase {
  import opened Basics
  import opened Board
  import B = Board
  import opened RuntimeTables
  import T = RuntimeTables
  import opened RuntimeRuns
  import R = Recovery
  import opened Ordering

  lemma SameSizeSubset<A>(x: set<A>, y: set<A>)
    requires x <= y && |x| == |y|
    ensures x == y
  {
    if x != y {
      var a :| a in y && a !in x;
      SubsetSmaller(x, y - {a});
    }
  }

  lemma {:induction false} SubsetSmaller<A>(x: set<A>, y: set<A>)
    requires x <= y
    ensures |x| <= |y|
  {
    if x != {} {
      var a :| a in x;
      SubsetSmaller(x - {a}, y - {a});
    }
  }

  lemma CounterCount()
    ensures |set c | c in COUNTERS| == |COUNTERS|
  {
    assert (set c | c in COUNTERS) == {CpuMilliseconds, WallMilliseconds, InputBytes, OutputBytes, ExternalCalls};
  }

  /** Counts the keys and looks each one up, then checks each canonical counter. */
  method ValidateUsage(usage: map<Counter, int>) returns (ok: bool)
    ensures ok <==> UsageValid(usage)
  {
    CounterCount();
    ghost var expected := set c | c in COUNTERS;
    if |usage.Keys| != |COUNTERS| || exists key :: key in usage && key !in COUNTERS {
      return false;
    }
    assert usage.Keys <= expected;
    SameSizeSubset(usage.Keys, expected);
    for i := 0 to |COUNTERS|
      invariant forall j :: 0 <= j < i ==> COUNTERS[j] in usage && 0 <= usage[COUNTERS[j]] <= MAX_SAFE_INTEGER
    {
      assert COUNTERS[i] in expected;
      if usage[COUNTERS[i]] < 0 || usage[COUNTERS[i]] > MAX_SAFE_INTEGER {
        return false;
      }
    }
    return true;
  }

  /** The `seen` set over the staged artifacts of a result. */
  method ReferencesOnce(xs: seq<Staged>) returns (ok: bool)
    ensures ok <==> RefsDistinct(xs)
  {
    var seen: set<Id> := {};
    for i := 0 to |xs|
      invariant forall ref :: ref in seen <==> exists j :: 0 <= j < i && xs[j].ref == ref
      invariant RefsDistinct(xs[..i])
    {
      if xs[i].ref in seen {
        return false;
      }
      seen := seen + {xs[i].ref};
    }
    assert xs[..|xs|] == xs;
    return true;
  }

  /** The loop over the proposals, with the references that have an artifact already. */
  method GatherArtifacts(staged: seq<Staged>, requests: seq<Staged>) returns (xs: seq<Staged>)
    ensures xs == Gathered(staged, requests)
  {
    xs := staged;
    var known := set x | x in staged :: x.ref;
    for i := 0 to |requests|
      invariant xs == Gathered(staged, requests[..i])
      invariant forall ref :: ref in known <==> Names(xs, ref)
    {
      assert requests[..i + 1][..i] == requests[..i];
      if requests[i].ref !in known {
        AddsName(xs, requests[i]);
        xs := xs + [requests[i]];
        known := known + {requests[i].ref};
      }
    }
    assert requests[..|requests|] == requests;
  }

  lemma AddsName(xs: seq<Staged>, x: Staged)
    ensures forall ref :: Names(xs + [x], ref) <==> Names(xs, ref) || ref == x.ref
  {
    forall ref ensures Names(xs + [x], ref) <==> Names(xs, ref) || ref == x.ref {
      if Names(xs, ref) {
        var i :| 0 <= i < |xs| && xs[i].ref == ref;
        assert (xs + [x])[i] == xs[i];
      }
      assert (xs + [x])[|xs|] == x;
    }
  }

  /** The loop that locks or creates one artifact after the other, until one is recorded differently. */
  method ArtifactsAgree(artifacts: map<Id, ArtifactKind>, xs: seq<Staged>) returns (ok: bool)
    ensures ok <==> !Conflicted(artifacts, xs)
  {
    var m := artifacts;
    for i := 0 to |xs|
      invariant m == Collected(artifacts, xs[..i]) && !Conflicted(artifacts, xs[..i])
    {
      assert xs[..i + 1][..i] == xs[..i];
      if xs[i].digest in m && m[xs[i].digest] != xs[i].kind {
        ConflictStays(artifacts, xs, i + 1);
        return false;
      }
      if xs[i].digest !in m {
        m := m[xs[i].digest := xs[i].kind];
      }
    }
    assert xs[..|xs|] == xs;
    return true;
  }

  lemma {:induction false} ConflictStays(artifacts: map<Id, ArtifactKind>, xs: seq<Staged>, n: nat)
    requires n <= |xs| && Conflicted(artifacts, xs[..n])
    ensures Conflicted(artifacts, xs)
    decreases |xs| - n
  {
    if n < |xs| {
      assert xs[..n + 1][..n] == xs[..n];
      ConflictStays(artifacts, xs, n + 1);
    } else {
      assert xs[..n] == xs;
    }
  }

  class Database {
    var nextId: nat
    var clock: Time
    var regions: map<Id, Region>
    var executions: map<Id, Execution>
    var attempts: map<Id, Attempt>
    var deliveries: map<Id, Delivery>
    var submissions: map<Id, Submission>
    var outputs: seq<Output>
    var events: seq<Event>
    var streams: map<Stream, nat>
    var ledger: seq<Entry>
    var routes: map<(Id, Id), seq<Id>>
    var cancellations: map<(Id, Id), Id>
    var artifacts: map<Id, ArtifactKind>

    constructor (clock: Time, regions: map<Id, Region>, routes: map<(Id, Id), seq<Id>>)
      ensures Snapshot() == Initial(regions, routes, clock).tables
    {
      this.clock, this.regions, this.routes := clock, regions, routes;
      nextId, executions, attempts, deliveries, submissions := 0, map[], map[], map[], map[];
      outputs, events, streams, ledger, cancellations, artifacts := [], [], map[], [], map[], map[];
    }

    function Rows(): Board
      reads this
    {
      B.Board.Board(executions, attempts, deliveries)
    }

    function Snapshot(): Tables
      reads this
    {
      Tables(nextId, clock, regions, Rows(), submissions, outputs, events, streams, ledger, routes, cancellations,
        artifacts)
    }

    method FreshId() returns (id: Id)
      modifies this`nextId
      ensures id == old(nextId) && nextId == old(nextId) + 1
    {
      id := nextId;
      nextId := nextId + 1;
    }

    /** The upsert of the stream counter, which starts at 2 and returns one less than it stores. */
    method AllocateSequence(stream: Stream) returns (sequence: int)
      modifies this`streams
      ensures sequence == NextSequence(old(streams), stream)
      ensures streams == old(streams)[stream := NextSequence(old(streams), stream) + 1]
    {
      if stream in streams {
        streams := streams[stream := streams[stream] + 1];
      } else {
        streams := streams[stream := 2];
      }
      sequence := streams[stream] - 1;
    }

    method InsertEvent(region: Id, kind: EventKind, stream: Stream, correlation: Id, attempt: Option<Id>)
        returns (id: Id)
      modifies this`nextId, this`streams, this`events
      ensures id == old(nextId)
      ensures Snapshot() == T.InsertEvent(old(Snapshot()), region, kind, stream, correlation, attempt)
    {
      id := FreshId();
      var sequence := AllocateSequence(stream);
      events := events + [Event(id, region, kind, stream, sequence, correlation, attempt)];
    }

    /** One delivery for each connection. */
    method RouteEvent(region: Id, correlation: Id, targets: seq<Id>)
      modifies this`nextId, this`deliveries
      ensures Snapshot() == T.Route(old(Snapshot()), region, correlation, targets, |targets|)
    {
      for i := 0 to |targets|
        invariant Snapshot() == T.Route(old(Snapshot()), region, correlation, targets, i)
      {
        var id := FreshId();
        deliveries := deliveries[id := NewDelivery(region, targets[i], correlation, clock)];
      }
    }

    method AcceptCommand(region: Id, correlation: Id, targets: seq<Id>)
      modifies this`nextId, this`streams, this`events, this`deliveries
      ensures Snapshot() == T.Ingress(old(Snapshot()), region, correlation, targets)
    {
      var id := InsertEvent(region, CommandAccepted, CommandStream(region), correlation, None);
      RouteEvent(region, correlation, targets);
    }

    /** An update of one attempt row, followed by the trigger on it. */
    method UpdateAttempt(a: Id, row: Attempt)
      requires a in attempts && row.execution in executions
      modifies this`attempts, this`deliveries
      ensures Rows() == B.UpdateAttempt(old(Rows()), a, row)
    {
      var before := attempts[a];
      attempts := attempts[a := row];
      if Active(row.status) && row.lease.Some?
         && (before.lease.None? || before.lease.value.expires != row.lease.value.expires || before.status != row.status)
      {
        var inputs := executions[row.execution].inputs;
        deliveries := map d | d in deliveries ::
          if d in inputs && deliveries[d].status.Leased? && deliveries[d].lease.Some?
             && deliveries[d].lease.value.token == row.lease.value.token
          then deliveries[d].(lease := row.lease)
          else deliveries[d];
      }
    }

    method Heartbeat(executionId: Id, a: Id, token: Id, epoch: int, ms: int)
      modifies this`attempts, this`deliveries
      ensures Snapshot() == T.Heartbeat(old(Snapshot()), executionId, a, token, epoch, ms)
    {
      if Presents(Snapshot(), executionId, a, token, epoch) && LeaseDuration(ms) {
        var row := attempts[a];
        UpdateAttempt(a, row.(status := AttemptStatus.Running, lease := Some(row.lease.value.(expires := clock + ms))));
      }
    }

    // -------------------------------------------------------------- committing a result

    method WriteResourceUsage(region: Id, r: Result)
      requires UsageValid(r.usage)
      modifies this`ledger
      ensures ledger == old(ledger) + UsageRows(region, r, |COUNTERS|)
    {
      for i := 0 to |COUNTERS|
        invariant ledger == old(ledger) + UsageRows(region, r, i)
      {
        assert COUNTERS[i] in r.usage.Keys;
        var quantity := r.usage[COUNTERS[i]];
        if quantity != 0 {
          ledger := ledger + [Entry(region, r.executionId, r.attemptId, COUNTERS[i], quantity)];
        }
      }
    }

    method PublishStaged(r: Result, e: Execution, correlation: Id)
      modifies this`nextId, this`streams, this`events, this`outputs, this`deliveries
      ensures Snapshot() == T.Publish(old(Snapshot()), r, e, correlation, |r.staged|)
    {
      for i := 0 to |r.staged|
        invariant Snapshot() == T.Publish(old(Snapshot()), r, e, correlation, i)
      {
        var x := r.staged[i];
        var id := InsertEvent(e.region, ComponentOutput(x.port, x.digest), ComponentStream(e.component, x.port),
          correlation, Some(r.attemptId));
        outputs := outputs + [Output(r.executionId, r.attemptId, x.port, x.digest, Some(id))];
        RouteEvent(e.region, correlation, TargetsOf(Snapshot(), e.component, x.port));
      }
    }

    method AnnounceProposed(r: Result, e: Execution, correlation: Id)
      modifies this`nextId, this`streams, this`events
      ensures Snapshot() == T.Announce(old(Snapshot()), r, e, correlation, |r.events|)
    {
      for i := 0 to |r.events|
        invariant Snapshot() == T.Announce(old(Snapshot()), r, e, correlation, i)
      {
        var id := InsertEvent(e.region, Proposed(r.events[i].eventType), SubjectStream(r.events[i].subject),
          correlation, Some(r.attemptId));
      }
    }

    method PublishResult(r: Result)
      requires Attached(Rows(), r.attemptId, r.executionId)
      modifies this`nextId, this`streams, this`events, this`outputs, this`deliveries
      ensures Snapshot() == T.PublishResult(old(Snapshot()), r)
    {
      hide T.Publish, T.Announce;
      var e := executions[r.executionId];
      var correlation := CorrelationOf(Rows(), e);
      PublishStaged(r, e, correlation);
      if r.state.Some? {
        outputs := outputs + [Output(r.executionId, r.attemptId, r.state.value.port, r.state.value.digest, None)];
      }
      AnnounceProposed(r, e, correlation);
    }

    /** Each digest that has no artifact yet gets one. */
    method CollectArtifacts(xs: seq<Staged>)
      modifies this`artifacts
      ensures artifacts == Collected(old(artifacts), xs)
    {
      for i := 0 to |xs|
        invariant artifacts == Collected(old(artifacts), xs[..i])
      {
        assert xs[..i + 1][..i] == xs[..i];
        if xs[i].digest !in artifacts {
          artifacts := artifacts[xs[i].digest := xs[i].kind];
        }
      }
      assert xs[..|xs|] == xs;
    }

    method Complete(r: Result)
      requires Attached(Rows(), r.attemptId, r.executionId)
      modifies this`nextId, this`streams, this`events, this`outputs, this`executions, this`attempts, this`deliveries,
        this`artifacts
      ensures Snapshot() == T.Complete(old(Snapshot()), r)
    {
      hide T.PublishResult, Collected;
      PublishResult(r);
      var xs := GatherArtifacts(AllStaged(r), r.requests);
      CollectArtifacts(xs);
      attempts := attempts[r.attemptId := Ended(attempts[r.attemptId], AttemptStatus.Completed, None)];
      executions := executions[r.executionId :=
                               executions[r.executionId].(status := ExecutionStatus.Completed, failure := None)];
      deliveries := Settle(deliveries, executions[r.executionId].inputs, DeliveryStatus.Completed);
    }

    /** Queues the next attempt unless its number is taken, and hands the inputs back. */
    method Requeue(a: Id, at: Time) returns (inserted: bool)
      requires a in attempts && attempts[a].execution in executions
      modifies this`nextId, this`attempts, this`deliveries
      ensures nextId == old(nextId) + 1
      ensures inserted == !NumberTaken(old(attempts), old(attempts[a].execution), old(attempts[a].number) + 1)
      ensures attempts == if inserted
                then old(attempts)[old(nextId) :=
                                   Attempt(old(attempts[a].execution), old(attempts[a].number) + 1,
                  AttemptStatus.Pending, None, at, None)]
                else old(attempts)
      ensures deliveries == Release(old(deliveries), executions[old(attempts[a].execution)].inputs, at)
    {
      var row := attempts[a];
      var id := FreshId();
      inserted := !NumberTaken(attempts, row.execution, row.number + 1);
      if inserted {
        attempts := attempts[id := Attempt(row.execution, row.number + 1, AttemptStatus.Pending, None, at, None)];
      }
      deliveries := Release(deliveries, executions[row.execution].inputs, at);
    }

    method DeadLetter(e: Id, cause: Failure)
      requires e in executions
      modifies this`executions, this`deliveries
      ensures executions == old(executions)[e :=
                old(executions)[e].(status := ExecutionStatus.Failed, failure := Some(cause))]
      ensures deliveries == Settle(old(deliveries), old(executions)[e].inputs, DeliveryStatus.DeadLettered)
    {
      executions := executions[e := executions[e].(status := ExecutionStatus.Failed, failure := Some(cause))];
      deliveries := Settle(deliveries, executions[e].inputs, DeliveryStatus.DeadLettered);
    }

    method FailOrRetry(r: Result) returns (outcome: Outcome)
      requires Attached(Rows(), r.attemptId, r.executionId)
      modifies this`nextId, this`executions, this`attempts, this`deliveries
      ensures (Snapshot(), outcome) == T.FailOrRetry(old(Snapshot()), r)
    {
      var n := attempts[r.attemptId].number;
      attempts := attempts[r.attemptId := Ended(attempts[r.attemptId], AttemptStatus.Failed, Some(WorkerFailure))];
      if r.retryable && 1 <= n <= |RETRY_BACKOFF_MS| {
        var inserted := Requeue(r.attemptId, clock + RETRY_BACKOFF_MS[n - 1]);
        outcome := RetryScheduled;
      } else {
        DeadLetter(r.executionId, WorkerFailure);
        outcome := Outcome.DeadLettered;
      }
    }

    /** The checks in their order, without effect on the tables. */
    method Check(r: Result, digest: Id, allowExpired: bool, verdict: Verdict) returns (refusal: Option<Outcome>)
      ensures refusal == T.Refusal(Snapshot(), r, digest, allowExpired, verdict)
    {
      if r.attemptId !in attempts || r.executionId !in executions || attempts[r.attemptId].execution != r.executionId {
        return Some(Rejected(InactiveAttempt));
      }
      if r.attemptId in submissions && submissions[r.attemptId].digest != digest {
        return Some(Rejected(DuplicateConflictingResult));
      }
      if r.attemptId in submissions && submissions[r.attemptId].committed {
        return Some(Duplicate);
      }
      if !Active(attempts[r.attemptId].status) || !executions[r.executionId].status.Running?
         || executions[r.executionId].inputs == {} {
        return Some(Rejected(InactiveAttempt));
      }
      var refused := FirstRefusal(Snapshot(), r, attempts[r.attemptId], executions[r.executionId], allowExpired);
      if refused.Some? {
        return Some(Rejected(refused.value));
      }
      var usageOk := ValidateUsage(r.usage);
      if !usageOk {
        return Some(Rejected(InvalidResourceUsage));
      }
      if !r.status.Completed? && |r.requests| > 0 {
        return Some(Rejected(ExternalActionUnauthorized));
      }
      if verdict.Inadmissible? {
        return Some(Rejected(InvalidStagedArtifact));
      }
      if r.status.Completed? && verdict.Unavailable? {
        return Some(Aborted);
      }
      var once := ReferencesOnce(AllStaged(r));
      if !once {
        return Some(Rejected(InvalidStagedArtifact));
      }
      var xs := GatherArtifacts(AllStaged(r), r.requests);
      var agrees := ArtifactsAgree(artifacts, xs);
      if r.status.Completed? && !agrees {
        return Some(Rejected(ArtifactConflict));
      }
      if r.status.Cancelled? || (r.status.Completed? && !OutputsDistinct(AllStaged(r))) {
        return Some(Aborted);
      }
      return None;
    }

    method CommitTransaction(r: Result, digest: Id, allowExpired: bool, verdict: Verdict) returns (outcome: Outcome)
      modifies this
      ensures (Snapshot(), outcome) == T.CommitTransaction(old(Snapshot()), r, digest, allowExpired, verdict)
    {
      hide T.FirstRefusal, UsageValid, RefsDistinct, OutputsDistinct, T.UsageRows, T.PublishResult, Settle, Release;
      var refusal := Check(r, digest, allowExpired, verdict);
      if refusal.Some? {
        return refusal.value;
      }
      WriteResourceUsage(executions[r.executionId].region, r);
      if r.status.Completed? {
        Complete(r);
        outcome := Committed;
      } else {
        outcome := FailOrRetry(r);
      }
      if r.attemptId in submissions {
        submissions := submissions[r.attemptId := submissions[r.attemptId].(committed := true)];
      } else {
        submissions := submissions[r.attemptId := Submission(digest, r, true)];
      }
    }

    /** The transaction, and after a rejection the delete of the uncommitted submission. */
    method Commit(r: Result, digest: Id, allowExpired: bool, verdict: Verdict) returns (outcome: Outcome)
      modifies this
      ensures (Snapshot(), outcome) == T.Commit(old(Snapshot()), r, digest, allowExpired, verdict)
    {
      hide T.CommitTransaction;
      outcome := CommitTransaction(r, digest, allowExpired, verdict);
      if outcome.Rejected? && r.attemptId in submissions && submissions[r.attemptId].digest == digest
         && !submissions[r.attemptId].committed {
        submissions := submissions - {r.attemptId};
      }
    }

    // -------------------------------------------------------------- operator cancellation

    /** Cancels live attempts, then running executions, then open deliveries. */
    method CancelRows(es: set<Id>, ds: set<Id>, cause: Failure)
      modifies this`executions, this`attempts, this`deliveries
      ensures Rows() == CancelAll(old(Rows()), es, ds, cause)
    {
      attempts := map a | a in attempts ::
        if attempts[a].execution in es
           && Live(attempts[a].status) then Ended(attempts[a], AttemptStatus.Cancelled, None) else attempts[a];
      executions := map e | e in executions ::
        if e in es && executions[e].status.Running?
          then executions[e].(status := ExecutionStatus.Failed, failure := Some(cause)) else executions[e];
      deliveries := map d | d in deliveries ::
        if d in ds && Open(deliveries[d].status) then deliveries[d].(status := DeliveryStatus.Cancelled, lease := None)
          else deliveries[d];
    }

    method CancelRun(region: Id, correlation: Id, key: Id, digest: Id) returns (outcome: CancelOutcome)
      modifies this
      ensures (Snapshot(), outcome) == T.CancelRun(old(Snapshot()), region, correlation, key, digest)
    {
      if (region, key) in cancellations {
        return if cancellations[(region, key)] == digest then Replayed else Conflict;
      }
      cancellations := cancellations[(region, key) := digest];
      var id := InsertEvent(region, CancelRequested, CommandStream(region), correlation, None);
      CancelRows(RunExecutions(Rows(), region, correlation), RunDeliveries(Rows(), region, correlation),
        OperatorCancelled);
      outcome := Accepted;
    }

    // -------------------------------------------------------------- startup recovery

    method AbandonExpired(a: Id, now: Time) returns (recovered: Recovered)
      modifies this`nextId, this`executions, this`attempts, this`deliveries
      ensures (Snapshot(), recovered) == T.AbandonExpired(old(Snapshot()), a, now)
    {
      if !Expired(Rows(), a, now) || attempts[a].execution !in executions {
        return Recovered(0, 0, 0, 0);
      }
      var row := attempts[a];
      var e := executions[row.execution];
      attempts := attempts[a := Ended(row, AttemptStatus.Abandoned, None)];
      if e.status.Running? && RunningAt(Snapshot(), e.region) && row.number < MAX_ATTEMPTS {
        var inserted := Requeue(a, now);
        recovered := Recovered(1, if inserted then 1 else 0, |e.inputs|, 0);
      } else if e.status.Running? {
        DeadLetter(row.execution, RecoveryTerminal);
        recovered := Recovered(1, 0, 0, 1);
      } else {
        recovered := Recovered(1, 0, 0, 0);
      }
    }

    /** One statement over all leased deliveries beyond `now` in running regions. */
    method ExposeOrphans(now: Time) returns (updated: nat)
      modifies this`deliveries
      ensures Snapshot() == T.ExposeOrphans(old(Snapshot()), now)
      ensures updated == |Orphans(old(Snapshot()), now)|
    {
      var ids := Orphans(Snapshot(), now);
      updated := |ids|;
      deliveries := Release(deliveries, ids, now);
    }

    method SettleRegion(region: Id)
      modifies this
      ensures Snapshot() == T.SettleRegion(old(Snapshot()), region)
    {
      if region in regions && regions[region].status.Cancelling? {
        CancelRows(RegionExecutions(Rows(), region), RegionDeliveries(Rows(), region), RegionCancelled);
        regions := regions[region := Region(Lifecycle.Cancelled, regions[region].epoch + 1)];
      }
    }

    method ReportRecovery(root: Option<Id>)
      modifies this
      ensures Snapshot() == T.ReportRecovery(old(Snapshot()), root)
    {
      if root.Some? {
        var id := InsertEvent(root.value, RecoveryReported, RecoveryStream, nextId, None);
      }
    }

    method AbandonEach(ids: seq<Id>, now: Time) returns (total: Recovered)
      modifies this
      ensures (Snapshot(), total) == R.AbandonEach(old(Snapshot()), ids, |ids|, now)
    {
      hide T.AbandonExpired;
      total := Recovered(0, 0, 0, 0);
      for i := 0 to |ids|
        invariant (Snapshot(), total) == R.AbandonEach(old(Snapshot()), ids, i, now)
      {
        var one := AbandonExpired(ids[i], now);
        total := R.Add(total, one);
      }
    }

    method SettleEach(ids: seq<Id>)
      modifies this
      ensures Snapshot() == R.SettleEach(old(Snapshot()), ids, |ids|)
    {
      hide T.SettleRegion;
      for i := 0 to |ids|
        invariant Snapshot() == R.SettleEach(old(Snapshot()), ids, i)
      {
        SettleRegion(ids[i]);
      }
    }

    /** The phases of the startup recovery behind the replay: abandon, expose, settle. */
    method RepairRest(now: Time) returns (recovered: Recovered, orphans: nat, settled: nat)
      modifies this
      ensures (Snapshot(), recovered, orphans, settled) == R.RepairRest(old(Snapshot()), now)
    {
      hide T.ExposeOrphans, R.AbandonEach, R.SettleEach, Sorted;
      var expired := OrderById(ExpiredAt(Rows(), now));
      recovered := AbandonEach(expired, now);
      orphans := ExposeOrphans(now);
      var cancelling := OrderById(R.CancellingRegions(Snapshot()));
      settled := |cancelling|;
      SettleEach(cancelling);
    }
  }
}
