/** What committed results leave in the append-only tables: outputs and announcements exactly once,
    numbered event streams, and a ledger that adds up. */
module Publication {
  import opened Basics
  import opened Board
  import opened Evolution
  import opened RuntimeTables

  // ---------------------------------------------------------------- exactly-once publication

  function OutputsBy(xs: seq<Output>, a: Id): seq<Output> {
    if |xs| == 0 then []
    else OutputsBy(xs[..|xs| - 1], a) + (if xs[|xs| - 1].attempt == a then [xs[|xs| - 1]] else [])
  }

  /** The `component.output` events of an attempt. */
  function AnnouncedBy(xs: seq<Event>, a: Id): seq<Event> {
    if |xs| == 0 then []
    else AnnouncedBy(xs[..|xs| - 1], a)
         + (if xs[|xs| - 1].kind.ComponentOutput? && xs[|xs| - 1].attempt == Some(a) then [xs[|xs| - 1]] else [])
  }

  /** One row and one event for each of the first `n` staged artifacts, in order and linked. */
  predicate Announces(rows: seq<Output>, events: seq<Event>, r: Result, n: nat) {
    && n <= |r.staged| && n <= |rows| && |events| == n
    && forall i :: 0 <= i < n ==>
         && rows[i] == Output(r.executionId, r.attemptId, r.staged[i].port, r.staged[i].digest, Some(events[i].id))
         && events[i].kind == ComponentOutput(r.staged[i].port, r.staged[i].digest)
         && events[i].attempt == Some(r.attemptId)
  }

  /** Exactly the outputs of `r`: its staged artifacts, then its state. */
  predicate Publishes(rows: seq<Output>, events: seq<Event>, r: Result) {
    && Announces(rows, events, r, |r.staged|)
    && |rows| == |AllStaged(r)|
    && (r.state.Some? ==>
          rows[|r.staged|] == Output(r.executionId, r.attemptId, r.state.value.port, r.state.value.digest, None))
  }

  predicate Won(b: Board, a: Id) { a in b.attempts && b.attempts[a].status.Completed? }

  predicate CommittedAs(t: Tables, a: Id, status: ResultStatus) {
    a in t.submissions && t.submissions[a].committed && t.submissions[a].result.status == status
  }

  /** A completed attempt has published exactly its committed result; no other attempt published. */
  ghost predicate Published(t: Tables) {
    forall a: Id ::
      if Won(t.board, a)
      then CommittedAs(t, a, ResultStatus.Completed)
        && Publishes(OutputsBy(t.outputs, a), AnnouncedBy(t.events, a), t.submissions[a].result)
      else OutputsBy(t.outputs, a) == [] && AnnouncedBy(t.events, a) == []
  }

  /** A submission belongs to its attempt; a committed one decided how the attempt ended. */
  ghost predicate SubmissionsValid(t: Tables) {
    forall a :: a in t.submissions ==>
      && a in t.board.attempts
      && t.submissions[a].result.attemptId == a
      && t.submissions[a].result.executionId == t.board.attempts[a].execution
      && (t.submissions[a].committed ==>
            && !Live(t.board.attempts[a].status) && !t.submissions[a].result.status.Cancelled?
            && (t.board.attempts[a].status.Completed? <==> t.submissions[a].result.status.Completed?)
            && (t.board.attempts[a].status.Failed? <==> t.submissions[a].result.status.Failed?))
  }

  /** A completed attempt completed its execution and is the last attempt of it. */
  ghost predicate WinnerLast(b: Board) {
    forall a :: Won(b, a) ==>
      && b.attempts[a].execution in b.executions
      && b.executions[b.attempts[a].execution].status.Completed?
      && forall c :: c in b.attempts && c != a && b.attempts[c].execution == b.attempts[a].execution ==>
         b.attempts[c].number < b.attempts[a].number
  }

  lemma OutputsByAdded(xs: seq<Output>, x: Output, a: Id)
    ensures OutputsBy(xs + [x], a) == OutputsBy(xs, a) + (if x.attempt == a then [x] else [])
  {
    assert (xs + [x])[..|xs|] == xs;
  }

  lemma AnnouncedByAdded(xs: seq<Event>, x: Event, a: Id)
    ensures AnnouncedBy(xs + [x], a) == AnnouncedBy(xs, a)
            + (if x.kind.ComponentOutput? && x.attempt == Some(a) then [x] else [])
  {
    assert (xs + [x])[..|xs|] == xs;
  }

  /** Outside attempt `a` nothing is published between `t` and `s`. */
  ghost predicate QuietExcept(t: Tables, s: Tables, a: Id) {
    forall x: Id :: x != a ==> OutputsBy(s.outputs, x) == OutputsBy(t.outputs, x)
                               && AnnouncedBy(s.events, x) == AnnouncedBy(t.events, x)
  }

  ghost predicate Quiet(t: Tables, s: Tables) {
    forall x: Id :: OutputsBy(s.outputs, x) == OutputsBy(t.outputs, x)
                    && AnnouncedBy(s.events, x) == AnnouncedBy(t.events, x)
  }

  lemma RouteSilent(t: Tables, region: Id, correlation: Id, targets: seq<Id>, n: nat)
    requires n <= |targets|
    ensures var s := Route(t, region, correlation, targets, n);
            && s.outputs == t.outputs && s.events == t.events && s.streams == t.streams && s.ledger == t.ledger
            && s.submissions == t.submissions && s.regions == t.regions && s.clock == t.clock && s.routes == t.routes
            && s.cancellations == t.cancellations && s.nextId >= t.nextId && s.artifacts == t.artifacts
  {
  }

  /** The tables a publication leaves alone. */
  ghost predicate Elsewhere(t: Tables, s: Tables) {
    && s.submissions == t.submissions && s.ledger == t.ledger && s.regions == t.regions && s.clock == t.clock
    && s.cancellations == t.cancellations && s.routes == t.routes && s.nextId >= t.nextId && s.artifacts == t.artifacts
  }

  lemma PublishOneAdds(t: Tables, r: Result, e: Execution, correlation: Id, x: Staged)
    ensures var s := PublishOne(t, r, e, correlation, x);
            && Elsewhere(t, s)
            && s.outputs == t.outputs + [Output(r.executionId, r.attemptId, x.port, x.digest, Some(t.nextId))]
            && s.events == t.events + [Event(t.nextId, e.region, ComponentOutput(x.port, x.digest),
                 ComponentStream(e.component, x.port), NextSequence(t.streams, ComponentStream(e.component, x.port)),
                   correlation, Some(r.attemptId))]
  {
    var u := InsertEvent(t, e.region, ComponentOutput(x.port, x.digest), ComponentStream(e.component, x.port),
      correlation, Some(r.attemptId));
    var v := u.(outputs := u.outputs + [Output(r.executionId, r.attemptId, x.port, x.digest, Some(t.nextId))]);
    var targets := TargetsOf(v, e.component, x.port);
    RouteSilent(v, e.region, correlation, targets, |targets|);
  }

  lemma PublishOneQuiet(t: Tables, r: Result, e: Execution, correlation: Id, x: Staged)
    ensures var s := PublishOne(t, r, e, correlation, x);
            && QuietExcept(t, s, r.attemptId)
            && OutputsBy(s.outputs, r.attemptId) == OutputsBy(t.outputs, r.attemptId)
               + [Output(r.executionId, r.attemptId, x.port, x.digest, Some(t.nextId))]
            && exists event: Event ::
                 && event.id == t.nextId && event.kind == ComponentOutput(x.port, x.digest)
                 && event.attempt == Some(r.attemptId)
                 && AnnouncedBy(s.events, r.attemptId) == AnnouncedBy(t.events, r.attemptId) + [event]
  {
    hide PublishOne;
    PublishOneAdds(t, r, e, correlation, x);
    var s := PublishOne(t, r, e, correlation, x);
    var row, event := s.outputs[|t.outputs|], s.events[|t.events|];
    forall a: Id ensures OutputsBy(s.outputs, a) == OutputsBy(t.outputs, a) + (if a == r.attemptId then [row] else []) {
      OutputsByAdded(t.outputs, row, a);
    }
    forall a: Id ensures AnnouncedBy(s.events, a) == AnnouncedBy(t.events, a)
           + (if a == r.attemptId then [event] else []) {
      AnnouncedByAdded(t.events, event, a);
    }
  }

  lemma {:induction false} PublishElsewhere(t: Tables, r: Result, e: Execution, correlation: Id, n: nat)
    requires n <= |r.staged|
    ensures Elsewhere(t, Publish(t, r, e, correlation, n))
  {
    hide PublishOne;
    if n > 0 {
      PublishElsewhere(t, r, e, correlation, n - 1);
      PublishOneAdds(Publish(t, r, e, correlation, n - 1), r, e, correlation, r.staged[n - 1]);
    }
  }

  lemma {:induction false} PublishAnnounces(t: Tables, r: Result, e: Execution, correlation: Id, n: nat)
    requires n <= |r.staged|
    requires OutputsBy(t.outputs, r.attemptId) == [] && AnnouncedBy(t.events, r.attemptId) == []
    ensures var s := Publish(t, r, e, correlation, n);
            && Announces(OutputsBy(s.outputs, r.attemptId), AnnouncedBy(s.events, r.attemptId), r, n)
            && |OutputsBy(s.outputs, r.attemptId)| == n
            && QuietExcept(t, s, r.attemptId)
  {
    hide PublishOne, OutputsBy, AnnouncedBy;
    if n > 0 {
      PublishAnnounces(t, r, e, correlation, n - 1);
      PublishOneQuiet(Publish(t, r, e, correlation, n - 1), r, e, correlation, r.staged[n - 1]);
    }
  }

  lemma {:induction false} AnnounceQuiet(t: Tables, r: Result, e: Execution, correlation: Id, n: nat)
    requires n <= |r.events|
    ensures var s := Announce(t, r, e, correlation, n);
            Quiet(t, s) && Elsewhere(t, s)
  {
    if n > 0 {
      AnnounceQuiet(t, r, e, correlation, n - 1);
      var s := Announce(t, r, e, correlation, n - 1);
      var u := Announce(t, r, e, correlation, n);
      forall a: Id ensures AnnouncedBy(u.events, a) == AnnouncedBy(s.events, a) {
        AnnouncedByAdded(s.events, u.events[|s.events|], a);
      }
    }
  }

  /** Committing a completed result appends exactly its outputs and their events. */
  lemma PublishResultPublishes(t: Tables, r: Result)
    requires Attached(t.board, r.attemptId, r.executionId)
    requires OutputsBy(t.outputs, r.attemptId) == [] && AnnouncedBy(t.events, r.attemptId) == []
    ensures var s := PublishResult(t, r);
            && Publishes(OutputsBy(s.outputs, r.attemptId), AnnouncedBy(s.events, r.attemptId), r)
            && QuietExcept(t, s, r.attemptId) && Elsewhere(t, s)
  {
    hide OutputsBy, AnnouncedBy, Publish, Announce;
    var e := t.board.executions[r.executionId];
    var c := CorrelationOf(t.board, e);
    PublishAnnounces(t, r, e, c, |r.staged|);
    PublishElsewhere(t, r, e, c, |r.staged|);
    var u := Publish(t, r, e, c, |r.staged|);
    var v := PublishState(u, r);
    if r.state.Some? {
      forall a: Id ensures OutputsBy(v.outputs, a) == OutputsBy(u.outputs, a)
             + (if a == r.attemptId then [v.outputs[|u.outputs|]] else []) {
        OutputsByAdded(u.outputs, v.outputs[|u.outputs|], a);
      }
    }
    AnnounceQuiet(v, r, e, c, |r.events|);
  }

  lemma PublishedKept(t: Tables, s: Tables)
    requires Published(t) && Quiet(t, s)
    requires AttemptsEvolve(t.board, s.board) && CompletesNothing(t.board, s.board)
    requires forall a :: a in t.submissions && t.submissions[a].committed ==>
             a in s.submissions && s.submissions[a] == t.submissions[a]
    ensures Published(s)
  {
    forall a: Id ensures Won(t.board, a) <==> Won(s.board, a) {}
  }

  lemma PublishedByCommit(t: Tables, s: Tables, r: Result)
    requires Published(t) && QuietExcept(t, s, r.attemptId)
    requires AttemptsEvolve(t.board, s.board) && Won(s.board, r.attemptId) && !Won(t.board, r.attemptId)
    requires forall a :: Won(s.board, a) && a != r.attemptId ==> Won(t.board, a)
    requires Publishes(OutputsBy(s.outputs, r.attemptId), AnnouncedBy(s.events, r.attemptId), r)
    requires forall a :: a in t.submissions && t.submissions[a].committed ==>
             a in s.submissions && s.submissions[a] == t.submissions[a]
    requires CommittedAs(s, r.attemptId, ResultStatus.Completed) && s.submissions[r.attemptId].result == r
    ensures Published(s)
  {
    forall a: Id | a != r.attemptId ensures Won(t.board, a) <==> Won(s.board, a) {}
  }

  lemma SubmissionsKept(t: Tables, s: Tables)
    requires SubmissionsValid(t) && AttemptsEvolve(t.board, s.board)
    requires forall a :: a in s.submissions ==> a in t.submissions && s.submissions[a] == t.submissions[a]
    ensures SubmissionsValid(s)
  {
  }

  lemma WinnerKept(b: Board, c: Board)
    requires WinnerLast(b) && Evolves(b, c) && CompletesNothing(b, c)
    requires forall a :: a in c.attempts && a !in b.attempts && c.attempts[a].execution in b.executions ==>
               b.executions[c.attempts[a].execution].status.Running?
    ensures WinnerLast(c)
  {
    hide DeliveriesEvolve;
    forall a | Won(c, a)
      ensures c.attempts[a].execution in c.executions && c.executions[c.attempts[a].execution].status.Completed?
      ensures forall x :: x in c.attempts && x != a && c.attempts[x].execution == c.attempts[a].execution ==>
              c.attempts[x].number < c.attempts[a].number
    {
      assert Won(b, a);
    }
  }

  /** At most one attempt of an execution ever completes. */
  lemma OneWinner(b: Board, a: Id, c: Id)
    requires WinnerLast(b) && Won(b, a) && Won(b, c) && b.attempts[a].execution == b.attempts[c].execution
    ensures a == c
  {
  }

  // ---------------------------------------------------------------- event streams

  function SequencesOf(xs: seq<Event>, stream: Stream): seq<nat> {
    if |xs| == 0 then []
    else SequencesOf(xs[..|xs| - 1], stream) + (if xs[|xs| - 1].stream == stream then [xs[|xs| - 1].sequence] else [])
  }

  function UpTo(n: nat): seq<nat> {
    if n == 0 then [] else UpTo(n - 1) + [n]
  }

  /** Each stream holds exactly the numbers 1..n in order, and its counter stands at n + 1. */
  ghost predicate Sequenced(events: seq<Event>, streams: map<Stream, nat>) {
    forall stream: Stream ::
      && 1 <= NextSequence(streams, stream)
      && SequencesOf(events, stream) == UpTo(NextSequence(streams, stream) - 1)
  }

  lemma InsertSequenced(t: Tables, region: Id, kind: EventKind, stream: Stream, correlation: Id, attempt: Option<Id>)
    requires Sequenced(t.events, t.streams)
    ensures Sequenced(InsertEvent(t, region, kind, stream, correlation, attempt).events,
            InsertEvent(t, region, kind, stream, correlation, attempt).streams)
  {
    var s := InsertEvent(t, region, kind, stream, correlation, attempt);
    forall k: Stream
      ensures 1 <= NextSequence(s.streams, k) && SequencesOf(s.events, k) == UpTo(NextSequence(s.streams, k) - 1)
    {
      assert s.events[..|t.events|] == t.events;
      assert SequencesOf(t.events, k) == UpTo(NextSequence(t.streams, k) - 1);
    }
  }

  lemma {:induction false} PublishSequenced(t: Tables, r: Result, e: Execution, correlation: Id, n: nat)
    requires n <= |r.staged| && Sequenced(t.events, t.streams)
    ensures Sequenced(Publish(t, r, e, correlation, n).events, Publish(t, r, e, correlation, n).streams)
  {
    if n > 0 {
      PublishSequenced(t, r, e, correlation, n - 1);
      var s := Publish(t, r, e, correlation, n - 1);
      var x := r.staged[n - 1];
      InsertSequenced(s, e.region, ComponentOutput(x.port, x.digest), ComponentStream(e.component, x.port), correlation,
        Some(r.attemptId));
      var u := InsertEvent(s, e.region, ComponentOutput(x.port, x.digest), ComponentStream(e.component, x.port),
        correlation, Some(r.attemptId));
      var v := u.(outputs := u.outputs + [Output(r.executionId, r.attemptId, x.port, x.digest, Some(s.nextId))]);
      var targets := TargetsOf(v, e.component, x.port);
      RouteSilent(v, e.region, correlation, targets, |targets|);
    }
  }

  lemma {:induction false} AnnounceSequenced(t: Tables, r: Result, e: Execution, correlation: Id, n: nat)
    requires n <= |r.events| && Sequenced(t.events, t.streams)
    ensures Sequenced(Announce(t, r, e, correlation, n).events, Announce(t, r, e, correlation, n).streams)
  {
    if n > 0 {
      AnnounceSequenced(t, r, e, correlation, n - 1);
      InsertSequenced(Announce(t, r, e, correlation, n - 1), e.region, Proposed(r.events[n - 1].eventType),
                      SubjectStream(r.events[n - 1].subject), correlation, Some(r.attemptId));
    }
  }

  lemma PublishResultSequenced(t: Tables, r: Result)
    requires Attached(t.board, r.attemptId, r.executionId) && Sequenced(t.events, t.streams)
    ensures Sequenced(PublishResult(t, r).events, PublishResult(t, r).streams)
  {
    var e := t.board.executions[r.executionId];
    var c := CorrelationOf(t.board, e);
    PublishSequenced(t, r, e, c, |r.staged|);
    AnnounceSequenced(PublishState(Publish(t, r, e, c, |r.staged|), r), r, e, c, |r.events|);
  }

  // ---------------------------------------------------------------- the resource ledger

  function Total(xs: seq<Entry>, c: Counter): int {
    if |xs| == 0 then 0
    else Total(xs[..|xs| - 1], c) + (if xs[|xs| - 1].counter == c then xs[|xs| - 1].quantity else 0)
  }

  function UsageOf(m: map<Id, Submission>, a: Id, c: Counter): int {
    if a in m && m[a].committed && c in m[a].result.usage then m[a].result.usage[c] else 0
  }

  /** What the committed submissions below `n` report. */
  function Owed(m: map<Id, Submission>, n: nat, c: Counter): int {
    if n == 0 then 0 else Owed(m, n - 1, c) + UsageOf(m, n - 1, c)
  }

  /** The ledger total of every counter is the sum over all committed submissions. */
  ghost predicate Accounted(t: Tables) {
    && (forall a :: a in t.submissions ==> a < t.nextId)
    && forall c :: c in COUNTERS ==> Total(t.ledger, c) == Owed(t.submissions, t.nextId, c)
  }

  lemma {:induction false} TotalAppended(xs: seq<Entry>, ys: seq<Entry>, c: Counter)
    ensures Total(xs + ys, c) == Total(xs, c) + Total(ys, c)
  {
    if |ys| == 0 {
      assert xs + ys == xs;
    } else {
      assert (xs + ys)[..|xs + ys| - 1] == xs + ys[..|ys| - 1];
      TotalAppended(xs, ys[..|ys| - 1], c);
    }
  }

  lemma CounterOnce(n: nat)
    requires 1 <= n <= |COUNTERS|
    ensures COUNTERS[..n] == COUNTERS[..n - 1] + [COUNTERS[n - 1]]
    ensures COUNTERS[n - 1] !in COUNTERS[..n - 1]
  {
  }

  lemma {:induction false} UsageRowsTotal(region: Id, r: Result, n: nat, c: Counter)
    requires n <= |COUNTERS| && UsageValid(r.usage)
    ensures c in COUNTERS[..n] ==> c in r.usage && Total(UsageRows(region, r, n), c) == r.usage[c]
    ensures c !in COUNTERS[..n] ==> Total(UsageRows(region, r, n), c) == 0
  {
    hide Total, COUNTERS;
    if n > 0 {
      CounterOnce(n);
      UsageRowsTotal(region, r, n - 1, c);
      var k := COUNTERS[n - 1];
      TotalAppended(UsageRows(region, r, n - 1),
        if r.usage[k] == 0 then [] else [Entry(region, r.executionId, r.attemptId, k, r.usage[k])], c);
      TotalOfRow(region, r, k, c);
    } else {
      TotalOfNone(c);
    }
  }

  lemma TotalOfNone(c: Counter)
    ensures Total([], c) == 0
  {
  }

  lemma TotalOfRow(region: Id, r: Result, k: Counter, c: Counter)
    requires k in r.usage
    ensures Total(if r.usage[k] == 0 then [] else [Entry(region, r.executionId, r.attemptId, k, r.usage[k])], c)
            == (if k == c then r.usage[k] else 0)
  {
  }

  lemma {:induction false} OwedAlike(m: map<Id, Submission>, m': map<Id, Submission>, n: nat, c: Counter)
    requires forall a: Id :: a < n ==> UsageOf(m, a, c) == UsageOf(m', a, c)
    ensures Owed(m, n, c) == Owed(m', n, c)
  {
    if n > 0 { OwedAlike(m, m', n - 1, c); }
  }

  lemma {:induction false} OwedChanged(m: map<Id, Submission>, m': map<Id, Submission>, n: nat, a: Id, c: Counter)
    requires a < n
    requires forall x: Id :: x < n && x != a ==> UsageOf(m, x, c) == UsageOf(m', x, c)
    ensures Owed(m', n, c) == Owed(m, n, c) - UsageOf(m, a, c) + UsageOf(m', a, c)
  {
    if n - 1 == a { OwedAlike(m, m', n - 1, c); } else { OwedChanged(m, m', n - 1, a, c); }
  }

  lemma {:induction false} OwedBeyond(m: map<Id, Submission>, n: nat, more: nat, c: Counter)
    requires n <= more && forall a :: a in m ==> a < n
    ensures Owed(m, more, c) == Owed(m, n, c)
  {
    if n < more { OwedBeyond(m, n, more - 1, c); }
  }

  /** Submissions change only while uncommitted and the ledger not at all. */
  lemma AccountedKept(t: Tables, s: Tables)
    requires Accounted(t) && s.ledger == t.ledger && s.nextId >= t.nextId
    requires forall a :: a in s.submissions ==> a < t.nextId
    requires forall a: Id, c :: UsageOf(s.submissions, a, c) == UsageOf(t.submissions, a, c)
    ensures Accounted(s)
  {
    forall c | c in COUNTERS ensures Total(s.ledger, c) == Owed(s.submissions, s.nextId, c) {
      OwedAlike(t.submissions, s.submissions, t.nextId, c);
      OwedBeyond(s.submissions, t.nextId, s.nextId, c);
    }
  }

  lemma RecordedOwes(m: map<Id, Submission>, r: Result, x: Submission, n: nat, c: Counter)
    requires r.attemptId < n && x.committed && x.result == r && c in r.usage
    requires r.attemptId in m ==> !m[r.attemptId].committed
    ensures Owed(m[r.attemptId := x], n, c) == Owed(m, n, c) + r.usage[c]
  {
    OwedChanged(m, m[r.attemptId := x], n, r.attemptId, c);
  }

  /** A commit adds its usage to the ledger once. */
  lemma AccountedByCommit(t: Tables, s: Tables, r: Result, x: Submission, region: Id)
    requires Accounted(t) && UsageValid(r.usage) && s.nextId >= t.nextId && r.attemptId < t.nextId
    requires s.ledger == t.ledger + UsageRows(region, r, |COUNTERS|)
    requires r.attemptId in t.submissions ==> !t.submissions[r.attemptId].committed
    requires x.committed && x.result == r && s.submissions == t.submissions[r.attemptId := x]
    ensures Accounted(s)
  {
    assert COUNTERS[..|COUNTERS|] == COUNTERS;
    hide UsageRows;
    forall c | c in COUNTERS ensures Total(s.ledger, c) == Owed(s.submissions, s.nextId, c) {
      TotalAppended(t.ledger, UsageRows(region, r, |COUNTERS|), c);
      UsageRowsTotal(region, r, |COUNTERS|, c);
      RecordedOwes(t.submissions, r, x, t.nextId, c);
      OwedBeyond(s.submissions, t.nextId, s.nextId, c);
    }
  }
}
