/** Command submission: the request digest decides whether a repeated idempotency key is a replay, and a
    replay gives back what the first submission did. */
module Commands {
  import opened Basics
  import opened CanonicalJson
  import opened CanonicalPrinting
  import opened CanonicalNormalization

  /** The digest of a text. */
  const DIGEST: Text -> Id

  /** Different texts have different digests. */
  ghost predicate Collisionless() {
    forall s: Text, t: Text :: DIGEST(s) == DIGEST(t) ==> s == t
  }

  datatype Request = Request(region: Text, commandType: Text, source: Option<Value>, payload: Option<Value>,
                             correlation: Option<Text>, expires: Option<Text>)

  function OrEmpty(v: Option<Value>): Value { if v.None? || v.value.Null? then Object([]) else v.value }

  function OrNull(s: Option<Text>): Value { if s.Some? then String(s.value) else Null }

  const REGION: Text := [114]
  const TYPE: Text := [116]
  const SOURCE: Text := [115]
  const PAYLOAD: Text := [112]
  const CORRELATION: Text := [99]
  const EXPIRES: Text := [101]

  /** The object whose digest identifies the request; its keys stand for the six property names. */
  function RequestValue(r: Request): Value {
    Object([Field(REGION, String(r.region)), Field(TYPE, String(r.commandType)), Field(SOURCE, OrEmpty(r.source)),
            Field(PAYLOAD, OrEmpty(r.payload)), Field(CORRELATION, OrNull(r.correlation)),
              Field(EXPIRES, OrNull(r.expires))])
  }

  function RequestDigest(r: Request): Id { DIGEST(Canonicalize(RequestValue(r))) }

  /** As the service sees them, two requests ask for the same. */
  ghost predicate SameRequest(r: Request, q: Request) {
    && r.region == q.region && r.commandType == q.commandType && r.correlation == q.correlation
    && r.expires == q.expires
    && Equivalent(OrEmpty(r.source), OrEmpty(q.source)) && Equivalent(OrEmpty(r.payload), OrEmpty(q.payload))
  }

  predicate RequestWellFormed(r: Request) { WellFormed(OrEmpty(r.source)) && WellFormed(OrEmpty(r.payload)) }

  /** Objects with the same keys in the same places are compared place by place. */
  lemma PlaceByPlace(f: seq<Field>, g: seq<Field>)
    requires |f| == |g| && DistinctKeys(g) && forall i :: 0 <= i < |f| ==> f[i].key == g[i].key && f[i].key != PROTO
    ensures Equivalent(Object(f), Object(g)) <==> forall i :: 0 <= i < |f| ==> Equivalent(f[i].value, g[i].value)
  {
    hide PROTO;
    forall i | 0 <= i < |f| ensures HasKey(g, f[i].key) && HasKey(f, g[i].key) {
      assert g[i].key == f[i].key;
    }
    if Equivalent(Object(f), Object(g)) {
      forall i | 0 <= i < |f| ensures Equivalent(f[i].value, g[i].value) {
        assert f[i].key == g[i].key;
      }
    }
  }

  lemma RequestKeys(r: Request)
    ensures DistinctKeys(RequestValue(r).fields) && forall i :: 0 <= i < 6 ==> RequestValue(r).fields[i].key != PROTO
  {
    assert |PROTO| == 9;
    assert REGION[0] == 114 && TYPE[0] == 116 && SOURCE[0] == 115 && PAYLOAD[0] == 112 && CORRELATION[0] == 99
      && EXPIRES[0] == 101;
  }

  lemma AllSix(f: seq<Field>, g: seq<Field>)
    requires |f| == 6 == |g|
    ensures (forall i :: 0 <= i < 6 ==> Equivalent(f[i].value, g[i].value)) <==>
              Equivalent(f[0].value, g[0].value) && Equivalent(f[1].value, g[1].value)
                && Equivalent(f[2].value, g[2].value)
              && Equivalent(f[3].value, g[3].value) && Equivalent(f[4].value, g[4].value)
              && Equivalent(f[5].value, g[5].value)
  {
    hide Equivalent;
  }

  lemma RequestValues(r: Request, q: Request)
    ensures (forall i :: 0 <= i < 6 ==> Equivalent(RequestValue(r).fields[i].value, RequestValue(q).fields[i].value))
            <==> SameRequest(r, q)
  {
    hide OrEmpty;
    var f, g := RequestValue(r).fields, RequestValue(q).fields;
    assert f[2].value == OrEmpty(r.source) && g[2].value == OrEmpty(q.source);
    assert f[3].value == OrEmpty(r.payload) && g[3].value == OrEmpty(q.payload);
    assert Equivalent(f[0].value, g[0].value) <==> r.region == q.region;
    assert Equivalent(f[1].value, g[1].value) <==> r.commandType == q.commandType;
    assert Equivalent(f[4].value, g[4].value) <==> r.correlation == q.correlation;
    assert Equivalent(f[5].value, g[5].value) <==> r.expires == q.expires;
    AllSix(f, g);
  }

  /** Requests have the same digest exactly when they ask for the same, whatever the order of the keys in
      source and payload. */
  lemma DigestIdentifies(r: Request, q: Request)
    requires Collisionless() && RequestWellFormed(r) && RequestWellFormed(q)
    ensures RequestDigest(r) == RequestDigest(q) <==> SameRequest(r, q)
  {
    RequestKeys(r);
    RequestKeys(q);
    RequestForm(r);
    RequestForm(q);
    hide WellFormed, Canonicalize, Equivalent, PROTO, RequestValue;
    PlaceByPlace(RequestValue(r).fields, RequestValue(q).fields);
    RequestValues(r, q);
    CanonicalDecides(RequestValue(r), RequestValue(q));
  }

  lemma RequestForm(r: Request)
    requires RequestWellFormed(r)
    ensures WellFormed(RequestValue(r)) && RequestValue(r).Object? && |RequestValue(r).fields| == 6
    ensures RequestValue(r) == Object(RequestValue(r).fields)
    ensures [RequestValue(r).fields[0].key, RequestValue(r).fields[1].key, RequestValue(r).fields[2].key,
            RequestValue(r).fields[3].key,
             RequestValue(r).fields[4].key, RequestValue(r).fields[5].key]
               == [REGION, TYPE, SOURCE, PAYLOAD, CORRELATION, EXPIRES]
  {
    RequestKeys(r);
    hide OrEmpty;
    var f := RequestValue(r).fields;
    forall i | 0 <= i < 6 ensures WellFormed(f[i].value) {
      if i == 2 || i == 3 {} else { assert WellFormed(f[i].value); }
    }
  }

  // ---------------------------------------------------------------- submission

  datatype Status = Accepted | Rejected(code: RejectCode)

  datatype RejectCode = CommandExpired | NoActiveTopology

  datatype Command = Command(region: Id, key: Option<Id>, digest: Id, status: Status, correlation: Id)

  datatype Event = Event(id: Id, command: Id)

  /** The rows a submission reads and writes; events and deliveries name their source command. */
  datatype Rows = Rows(nextId: nat, commands: map<Id, Command>, events: seq<Event>, deliveries: map<Id, Id>)

  datatype Disposition = AcceptedNow | Replayed | RejectedOne

  datatype Receipt = Receipt(command: Id, status: Status, correlation: Id, event: Id, deliveries: set<Id>,
      disposition: Disposition)

  datatype Outcome = Given(receipt: Receipt) | Conflict | RegionNotFound

  /** What the request resolves to: its region, the deliveries an accepted command is routed to, whether
      it has expired, and whether the region has an active topology. */
  datatype Context = Context(region: Option<Id>, targets: nat, expired: bool, active: bool)

  predicate Keyed(rows: Rows, c: Id, region: Id, key: Id) {
    c in rows.commands && rows.commands[c].region == region && rows.commands[c].key == Some(key)
  }

  function DeliveriesOf(rows: Rows, c: Id): set<Id> { set d | d in rows.deliveries && rows.deliveries[d] == c }

  function FirstEvent(events: seq<Event>, c: Id): Id {
    if |events| == 0 then 0 else if events[0].command == c then events[0].id else FirstEvent(events[1..], c)
  }

  function Replay(rows: Rows, c: Id, digest: Id): Outcome
    requires c in rows.commands
  {
    var x := rows.commands[c];
    if x.digest != digest then Conflict
    else Given(Receipt(c, x.status, x.correlation, FirstEvent(rows.events, c), DeliveriesOf(rows, c),
                       if x.status.Rejected? then RejectedOne else Replayed))
  }

  function NewDeliveries(first: Id, n: nat): (ds: set<Id>)
    ensures forall d :: d in ds <==> first <= d < first + n
  {
    if n == 0 then {} else NewDeliveries(first, n - 1) + {first + n - 1}
  }

  function Routed(deliveries: map<Id, Id>, first: Id, n: nat, c: Id): (ds: map<Id, Id>)
    ensures forall d :: d in ds <==> d in deliveries || first <= d < first + n
    ensures forall d :: d in ds ==> ds[d] == (if first <= d < first + n then c else deliveries[d])
  {
    if n == 0 then deliveries else Routed(deliveries, first, n - 1, c)[first + n - 1 := c]
  }

  function StatusFor(x: Context): Status {
    if x.expired then Rejected(CommandExpired) else if !x.active then Rejected(NoActiveTopology) else Accepted
  }

  /** A new command with its event, routed when it is accepted. */
  function Insert(rows: Rows, key: Option<Id>, digest: Id, correlation: Option<Id>, x: Context): (Rows, Outcome)
    requires x.region.Some?
  {
    var id := rows.nextId;
    var status := StatusFor(x);
    var cor := if correlation.Some? then correlation.value else id;
    var n := if status.Accepted? then x.targets else 0;
    (Rows(id + 2 + n,
          rows.commands[id := Command(x.region.value, key, digest, status, cor)],
          rows.events + [Event(id + 1, id)],
          Routed(rows.deliveries, id + 2, n, id)),
     Given(Receipt(id, status, cor, id + 1, NewDeliveries(id + 2, n),
       if status.Accepted? then AcceptedNow else RejectedOne)))
  }

  ghost function Submit(rows: Rows, key: Option<Id>, digest: Id, correlation: Option<Id>, x: Context): (Rows, Outcome) {
    if x.region.None? then (rows, RegionNotFound)
    else if key.Some? && exists c :: Keyed(rows, c, x.region.value, key.value) then
      var c :| Keyed(rows, c, x.region.value, key.value);
      (rows, Replay(rows, c, digest))
    else Insert(rows, key, digest, correlation, x)
  }

  /** One command per key and region, ids below the generator, one event for every command. */
  ghost predicate Valid(rows: Rows) {
    && (forall c :: c in rows.commands ==> c < rows.nextId)
    && (forall d :: d in rows.deliveries ==> d < rows.nextId && rows.deliveries[d] in rows.commands)
    && (forall i :: 0 <= i < |rows.events| ==> rows.events[i].command in rows.commands)
    && (forall c, e ::
          (c in rows.commands && e in rows.commands && rows.commands[c].key.Some?
           && rows.commands[c].key == rows.commands[e].key && rows.commands[c].region == rows.commands[e].region) ==>
              c == e)
  }

  lemma {:induction false} FirstEventStays(events: seq<Event>, x: Event, c: Id)
    requires x.command != c || forall i :: 0 <= i < |events| ==> events[i].command != c
    ensures FirstEvent(events + [x], c) == (if x.command == c then x.id else FirstEvent(events, c))
  {
    if |events| > 0 {
      assert (events + [x])[1..] == events[1..] + [x];
      FirstEventStays(events[1..], x, c);
    }
  }

  /** What a later submission leaves of an earlier command. */
  ghost predicate Keeps(rows: Rows, more: Rows, c: Id) {
    && c in rows.commands && c in more.commands && more.commands[c] == rows.commands[c]
    && FirstEvent(more.events, c) == FirstEvent(rows.events, c)
    && DeliveriesOf(more, c) == DeliveriesOf(rows, c)
  }

  lemma SubmitKeeps(rows: Rows, key: Option<Id>, digest: Id, correlation: Option<Id>, x: Context, c: Id)
    requires Valid(rows)
    ensures Valid(Submit(rows, key, digest, correlation, x).0)
    ensures c in rows.commands ==> Keeps(rows, Submit(rows, key, digest, correlation, x).0, c)
  {
    var s := Submit(rows, key, digest, correlation, x).0;
    if s != rows && c in rows.commands {
      FirstEventStays(rows.events, Event(rows.nextId + 1, rows.nextId), c);
    }
    if s != rows && key.Some? {
      forall e | e in rows.commands
        ensures !(rows.commands[e].region == x.region.value && rows.commands[e].key == key) {
        assert !Keyed(rows, e, x.region.value, key.value);
      }
    }
  }

  datatype Submission = Submission(key: Option<Id>, digest: Id, correlation: Option<Id>, x: Context)

  ghost function Run(rows: Rows, ss: seq<Submission>): Rows {
    if |ss| == 0 then rows
    else
      var s := ss[|ss| - 1];
      Submit(Run(rows, ss[..|ss| - 1]), s.key, s.digest, s.correlation, s.x).0
  }

  lemma {:induction false} RunKeeps(rows: Rows, ss: seq<Submission>, c: Id)
    requires Valid(rows) && c in rows.commands
    ensures Valid(Run(rows, ss)) && Keeps(rows, Run(rows, ss), c)
  {
    hide Valid, Submit;
    if |ss| > 0 {
      RunKeeps(rows, ss[..|ss| - 1], c);
      var s := ss[|ss| - 1];
      SubmitKeeps(Run(rows, ss[..|ss| - 1]), s.key, s.digest, s.correlation, s.x, c);
    }
  }

  lemma FirstReceipt(rows: Rows, key: Id, digest: Id, correlation: Option<Id>, x: Context)
    requires Valid(rows) && x.region.Some? && !exists c :: Keyed(rows, c, x.region.value, key)
    ensures var (s, outcome) := Submit(rows, Some(key), digest, correlation, x);
            && outcome.Given? && outcome.receipt.disposition != Replayed
            && Keyed(s, outcome.receipt.command, x.region.value, key)
            && s.commands[outcome.receipt.command].digest == digest
            && Replay(s, outcome.receipt.command, digest)
               == Given(outcome.receipt.(disposition :=
                                         if outcome.receipt.status.Rejected? then RejectedOne else Replayed))
  {
    var s := Submit(rows, Some(key), digest, correlation, x).0;
    assert forall i :: 0 <= i < |rows.events| ==> rows.events[i].command != rows.nextId;
    FirstEventStays(rows.events, Event(rows.nextId + 1, rows.nextId), rows.nextId);
    assert DeliveriesOf(s, rows.nextId)
      == NewDeliveries(rows.nextId + 2, if s.commands[rows.nextId].status.Accepted? then x.targets else 0);
  }

  /** Repeating a keyed submission, after any others and even once it has expired or lost its topology,
      changes nothing and gives the same command, event and set of deliveries; another request under the
      same key is a conflict that changes nothing. */
  lemma RepeatIsReplay(rows: Rows, key: Id, digest: Id, correlation: Option<Id>, x: Context, ss: seq<Submission>,
                       again: Id, correlationAgain: Option<Id>, y: Context)
    requires Valid(rows) && x.region.Some? && y.region == x.region && !exists c :: Keyed(rows, c, x.region.value, key)
    ensures var (s, first) := Submit(rows, Some(key), digest, correlation, x);
            var t := Run(s, ss);
            Submit(t, Some(key), again, correlationAgain, y)
            == (t, if again == digest
                   then Given(first.receipt.(disposition :=
                          if first.receipt.status.Rejected? then RejectedOne else Replayed))
                   else Conflict)
  {
    FirstReceipt(rows, key, digest, correlation, x);
    var (s, first) := Submit(rows, Some(key), digest, correlation, x);
    var c := first.receipt.command;
    SubmitKeeps(rows, Some(key), digest, correlation, x, c);
    RunKeeps(s, ss, c);
    var t := Run(s, ss);
    hide Submit, Run;
    assert Keyed(t, c, x.region.value, key);
    OneKeyed(t, c, x.region.value, key);
    SubmitAgain(t, c, key, again, correlationAgain, y);
  }

  lemma OneKeyed(rows: Rows, c: Id, region: Id, key: Id)
    requires Valid(rows) && Keyed(rows, c, region, key)
    ensures forall e :: Keyed(rows, e, region, key) ==> e == c
  {
  }

  lemma SubmitAgain(t: Rows, c: Id, key: Id, digest: Id, correlation: Option<Id>, y: Context)
    requires y.region.Some? && Keyed(t, c, y.region.value, key) && forall e :: Keyed(t, e, y.region.value, key) ==>
             e == c
    ensures Submit(t, Some(key), digest, correlation, y) == (t, Replay(t, c, digest))
  {
  }

  // ---------------------------------------------------------------- as it runs

  class Service {
    var nextId: nat
    var commands: map<Id, Command>
    var events: seq<Event>
    var deliveries: map<Id, Id>

    constructor ()
      ensures Valid(Contents()) && commands == map[]
    {
      nextId, commands, events, deliveries := 0, map[], [], map[];
    }

    function Contents(): Rows
      reads this
    {
      Rows(nextId, commands, events, deliveries)
    }

    method InsertCommand(key: Option<Id>, digest: Id, correlation: Option<Id>, x: Context) returns (outcome: Outcome)
      requires x.region.Some?
      modifies this
      ensures (Contents(), outcome) == Insert(old(Contents()), key, digest, correlation, x)
    {
      var id := nextId;
      var status := StatusFor(x);
      var cor := if correlation.Some? then correlation.value else id;
      commands := commands[id := Command(x.region.value, key, digest, status, cor)];
      events := events + [Event(id + 1, id)];
      nextId := id + 2;
      var routed: set<Id> := {};
      if status.Accepted? {
        for i := 0 to x.targets
          invariant nextId == id + 2 + i && routed == NewDeliveries(id + 2, i)
          invariant commands == old(commands)[id := Command(x.region.value, key, digest, status, cor)]
          invariant events == old(events) + [Event(id + 1, id)]
          invariant deliveries == Routed(old(deliveries), id + 2, i, id)
        {
          deliveries := deliveries[nextId := id];
          routed := routed + {nextId};
          nextId := nextId + 1;
        }
      }
      outcome := Given(Receipt(id, status, cor, id + 1, routed, if status.Accepted? then AcceptedNow else RejectedOne));
    }

    method SubmitCommand(key: Option<Id>, digest: Id, correlation: Option<Id>, x: Context) returns (outcome: Outcome)
      requires Valid(Contents())
      modifies this
      ensures Valid(Contents())
      ensures (Contents(), outcome) == Submit(old(Contents()), key, digest, correlation, x)
    {
      SubmitKeeps(Contents(), key, digest, correlation, x, 0);
      hide Valid, Insert;
      if x.region.None? {
        return RegionNotFound;
      }
      if key.Some? {
        var existing := set c | c in commands && commands[c].region == x.region.value && commands[c].key == key;
        assert forall c :: Keyed(Contents(), c, x.region.value, key.value) <==> c in existing;
        if existing != {} {
          var c :| c in existing;
          OneKeyed(Contents(), c, x.region.value, key.value);
          return Replay(Contents(), c, digest);
        }
      }
      outcome := InsertCommand(key, digest, correlation, x);
    }
  }
}
