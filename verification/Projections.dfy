/** Projection checkpoints: the full rebuild counts all events page by page, the bounded catch-up goes on
    from the earliest checkpoint, one batch at a time. */
module Projections {
  import opened Basics
  import opened Ordering

  datatype Checkpoint = Checkpoint(lastEvent: Option<Id>, sequence: nat)

  const NAMES := 10

  /** One checkpoint for each of the ten projections, or none yet. */
  type Checkpoints = map<nat, Checkpoint>

  predicate Complete(cps: Checkpoints) {
    forall name :: 0 <= name < NAMES ==> name in cps && cps[name].lastEvent.Some?
  }

  function Names(): set<nat> { {0, 1, 2, 3, 4, 5, 6, 7, 8, 9} }

  function Everywhere(cp: Checkpoint): Checkpoints { map name | name in Names() :: cp }

  function UpTo(events: set<Id>, last: Id): set<Id> { set e | e in events && e <= last }

  /** The checkpoint counts the events up to its last one. */
  predicate Honest(events: set<Id>, cp: Checkpoint) {
    match cp.lastEvent
    case None => cp.sequence == 0
    case Some(last) => last in events && cp.sequence == |UpTo(events, last)|
  }

  predicate AllHonest(events: set<Id>, cps: Checkpoints) {
    forall name :: 0 <= name < NAMES && name in cps ==> Honest(events, cps[name])
  }

  // ---------------------------------------------------------------- the full rebuild

  ghost function Rebuilt(events: set<Id>): Checkpoint {
    if events == {} then Checkpoint(None, 0) else Checkpoint(Some(MaxOf(events)), |events|)
  }

  // ---------------------------------------------------------------- the bounded catch-up

  /** The first checkpoint by its last event, when every projection has one. */
  function EarliestAmong(cps: Checkpoints, n: nat): nat
    requires Complete(cps) && 1 <= n <= NAMES
    ensures EarliestAmong(cps, n) < n
    ensures forall name :: 0 <= name < n ==> cps[EarliestAmong(cps, n)].lastEvent.value <= cps[name].lastEvent.value
  {
    if n == 1 then 0
    else
      var best := EarliestAmong(cps, n - 1);
      if cps[n - 1].lastEvent.value < cps[best].lastEvent.value then n - 1 else best
  }

  function Start(cps: Checkpoints): Checkpoint {
    if Complete(cps) then cps[EarliestAmong(cps, NAMES)] else Checkpoint(None, 0)
  }

  function Prefix(xs: seq<Id>, n: nat): seq<Id> { if |xs| <= n then xs else xs[..n] }

  ghost function Ahead(events: set<Id>, cps: Checkpoints): seq<Id> {
    Sorted(Beyond(events, Start(cps).lastEvent))
  }

  /** One bounded batch: the new checkpoint of all projections, and whether more events wait. */
  ghost function Batch(events: set<Id>, cps: Checkpoints, size: nat): (Checkpoint, bool) {
    var items := Prefix(Ahead(events, cps), size);
    (Checkpoint(if |items| > 0 then Some(items[|items| - 1]) else Start(cps).lastEvent, Start(cps).sequence + |items|),
     |Ahead(events, cps)| > size)
  }

  /** Batches until nothing is pending. */
  ghost function Drain(events: set<Id>, cps: Checkpoints, size: nat): Checkpoints
    requires size > 0
    decreases |Ahead(events, cps)|
  {
    var (cp, pending) := Batch(events, cps, size);
    if pending then
      BatchAdvances(events, cps, size);
      Drain(events, Everywhere(cp), size)
    else Everywhere(cp)
  }

  lemma EverywhereStarts(cp: Checkpoint)
    requires cp.lastEvent.Some?
    ensures Complete(Everywhere(cp)) && Start(Everywhere(cp)) == cp
  {
  }

  /** A full batch leaves exactly the rest of the listing ahead. */
  lemma BatchAdvances(events: set<Id>, cps: Checkpoints, size: nat)
    requires size > 0 && Batch(events, cps, size).1
    ensures var cp := Batch(events, cps, size).0;
            && cp.lastEvent.Some? && Ahead(events, Everywhere(cp)) == Ahead(events, cps)[size..]
            && cp == Checkpoint(Some(Ahead(events, cps)[size - 1]), Start(cps).sequence + size)
  {
    var listing := Ahead(events, cps);
    var cp := Batch(events, cps, size).0;
    assert cp == Checkpoint(Some(listing[size - 1]), Start(cps).sequence + size);
    EverywhereStarts(cp);
    RestOfListing(events, events, Start(cps).lastEvent, size);
  }

  /** Whatever the batch size, draining ends with the last event there is and counts every event ahead. */
  lemma {:induction false} DrainEnds(events: set<Id>, cps: Checkpoints, size: nat)
    requires size > 0
    ensures var listing := Ahead(events, cps);
            Drain(events, cps, size)
            == Everywhere(Checkpoint(if |listing| > 0 then Some(listing[|listing| - 1]) else Start(cps).lastEvent,
              Start(cps).sequence + |listing|))
    decreases |Ahead(events, cps)|
  {
    hide Ahead, Start, Everywhere;
    var (cp, pending) := Batch(events, cps, size);
    if pending {
      BatchAdvances(events, cps, size);
      StartOf(cp);
      DrainEnds(events, Everywhere(cp), size);
    }
  }

  lemma StartOf(cp: Checkpoint)
    requires cp.lastEvent.Some?
    ensures Start(Everywhere(cp)) == cp
  {
    EverywhereStarts(cp);
  }

  // ---------------------------------------------------------------- agreement

  lemma SortedLast(s: set<nat>)
    requires s != {}
    ensures |Sorted(s)| > 0 && Sorted(s)[|Sorted(s)| - 1] == MaxOf(s)
  {
  }

  lemma CountsSplit(events: set<Id>, last: Id)
    ensures |events| == |UpTo(events, last)| + |Beyond(events, Some(last))|
  {
    assert events == UpTo(events, last) + Beyond(events, Some(last));
  }

  lemma MaxBeyond(events: set<Id>, last: Id)
    requires last in events
    ensures Beyond(events, Some(last)) != {} ==> MaxOf(Beyond(events, Some(last))) == MaxOf(events)
    ensures Beyond(events, Some(last)) == {} ==> MaxOf(events) == last
  {
    if Beyond(events, Some(last)) == {} {
      assert MaxOf(events) !in Beyond(events, Some(last));
    } else {
      assert MaxOf(events) in Beyond(events, Some(last));
    }
  }

  /** The exact condition for agreement: draining from complete checkpoints ends where the full rebuild
      does, in last event and sequence number, if and only if the earliest checkpoint counts the events up
      to its last one. */
  lemma CatchUpAgreesIff(events: set<Id>, cps: Checkpoints, size: nat)
    requires size > 0 && Complete(cps) && Start(cps).lastEvent.value in events
    ensures Drain(events, cps, size) == Everywhere(Rebuilt(events)) <==> Honest(events, Start(cps))
  {
    hide Drain;
    DrainEnds(events, cps, size);
    var last := Start(cps).lastEvent.value;
    var ahead := Beyond(events, Some(last));
    SortedSize(ahead);
    CountsSplit(events, last);
    MaxBeyond(events, last);
    if ahead != {} { SortedLast(ahead); }
    SameEverywhere(Drain(events, cps, size)[0], Rebuilt(events));
  }

  lemma SameEverywhere(a: Checkpoint, b: Checkpoint)
    ensures Everywhere(a) == Everywhere(b) <==> a == b
  {
    assert Everywhere(a)[0] == a && Everywhere(b)[0] == b;
  }

  /** With honest checkpoints, or too few of them, catching up in batches of any size refines the full
      rebuild. */
  lemma CatchUpRefinesRebuild(events: set<Id>, cps: Checkpoints, size: nat)
    requires size > 0 && AllHonest(events, cps)
    ensures Drain(events, cps, size) == Everywhere(Rebuilt(events))
  {
    if Complete(cps) {
      hide Drain;
      CatchUpAgreesIff(events, cps, size);
    } else {
      hide Drain;
      DrainEnds(events, cps, size);
      assert Beyond(events, None) == events;
      SortedSize(events);
      if events != {} { SortedLast(events); }
    }
  }

  /** Events that arrive behind no checkpoint keep the checkpoints honest. */
  lemma ArrivalsKeepHonest(events: set<Id>, more: set<Id>, cps: Checkpoints)
    requires AllHonest(events, cps)
    requires forall e, name :: e in more && 0 <= name < NAMES && name in cps && cps[name].lastEvent.Some? ==>
             cps[name].lastEvent.value < e
    ensures AllHonest(events + more, cps)
  {
    forall name | 0 <= name < NAMES && name in cps ensures Honest(events + more, cps[name]) {
      if cps[name].lastEvent.Some? {
        assert UpTo(events + more, cps[name].lastEvent.value) == UpTo(events, cps[name].lastEvent.value);
      }
    }
  }

  /** An event that arrives behind the earliest checkpoint is never counted. */
  lemma LateEventIsLost(events: set<Id>, late: Id, cps: Checkpoints, size: nat)
    requires size > 0 && Complete(cps) && AllHonest(events, cps) && late !in events && late < Start(cps).lastEvent.value
    ensures Drain(events + {late}, cps, size) != Everywhere(Rebuilt(events + {late}))
  {
    hide Drain;
    var last := Start(cps).lastEvent.value;
    assert Honest(events, Start(cps));
    assert UpTo(events + {late}, last) == UpTo(events, last) + {late};
    CatchUpAgreesIff(events + {late}, cps, size);
  }

  /** The events up to the end of a page are those before it and the page. */
  lemma PageCounts(events: set<Id>, start: Checkpoint, n: nat)
    requires Honest(events, start) && 0 < n <= |Sorted(Beyond(events, start.lastEvent))|
    ensures Honest(events, Checkpoint(Some(Sorted(Beyond(events, start.lastEvent))[n - 1]), start.sequence + n))
  {
    var listing := Sorted(Beyond(events, start.lastEvent));
    SortedLists(Beyond(events, start.lastEvent));
    var last := listing[n - 1];
    assert last in listing;
    CountedPrefix(events, start.lastEvent, n);
    if start.lastEvent.None? {
      assert UpTo(events, last) == UpTo(Beyond(events, None), last);
    } else {
      assert UpTo(events, last) == UpTo(events, start.lastEvent.value) + UpTo(Beyond(events, start.lastEvent), last);
    }
  }

  lemma StartHonest(events: set<Id>, cps: Checkpoints)
    requires AllHonest(events, cps)
    ensures Honest(events, Start(cps))
  {
  }

  /** One interrupted batch leaves honest checkpoints behind. */
  lemma BatchKeepsHonest(events: set<Id>, cps: Checkpoints, size: nat)
    requires size > 0 && AllHonest(events, cps)
    ensures Honest(events, Batch(events, cps, size).0)
  {
    hide Honest, Start;
    StartHonest(events, cps);
    var n := |Prefix(Ahead(events, cps), size)|;
    if n > 0 { PageCounts(events, Start(cps), n); }
  }

  /** An honest checkpoint with nothing behind it is the rebuilt one. */
  lemma HonestAtEnd(events: set<Id>, cp: Checkpoint)
    requires Honest(events, cp) && Beyond(events, cp.lastEvent) == {}
    ensures cp == Rebuilt(events)
  {
    if cp.lastEvent.Some? {
      CountsSplit(events, cp.lastEvent.value);
      MaxBeyond(events, cp.lastEvent.value);
    } else {
      assert events == Beyond(events, None);
    }
  }

  lemma CountedPrefix(events: set<Id>, after: Option<Id>, n: nat)
    requires 0 < n <= |Sorted(Beyond(events, after))|
    ensures |UpTo(Beyond(events, after), Sorted(Beyond(events, after))[n - 1])| == n
  {
    var s := Beyond(events, after);
    var listing := Sorted(s);
    SortedLists(s);
    var last := listing[n - 1];
    assert listing[..n] == Sorted(UpTo(s, last)) by {
      forall x ensures x in listing[..n] <==> x in UpTo(s, last) {
        if x in listing[..n] { assert x in listing; }
        if x in UpTo(s, last) {
          assert x in listing;
          var i :| 0 <= i < |listing| && listing[i] == x;
          assert i < n;
        }
      }
      SortedUnique(listing[..n], UpTo(s, last));
    }
    SortedSize(UpTo(s, last));
  }

  // ---------------------------------------------------------------- arrivals between batches

  datatype Change = Arrive(event: Id) | CatchUp(size: nat)

  datatype Standing = Standing(events: set<Id>, checkpoints: Checkpoints)

  ghost function Next(p: Standing, change: Change): Standing {
    match change
    case Arrive(e) => p.(events := p.events + {e})
    case CatchUp(size) => p.(checkpoints := Everywhere(Batch(p.events, p.checkpoints, size).0))
  }

  ghost function After(p: Standing, changes: seq<Change>): Standing {
    if |changes| == 0 then p else Next(After(p, changes[..|changes| - 1]), changes[|changes| - 1])
  }

  /** A new event behind the earliest checkpoint of that moment. */
  predicate Late(p: Standing, change: Change) {
    change.Arrive? && change.event !in p.events && Start(p.checkpoints).lastEvent.Some?
      && change.event < Start(p.checkpoints).lastEvent.value
  }

  /** The events of the run that came late. */
  ghost function Missed(p: Standing, changes: seq<Change>): set<Id> {
    if |changes| == 0 then {}
    else
      var init, last := changes[..|changes| - 1], changes[|changes| - 1];
      Missed(p, init) + (if Late(After(p, init), last) then {last.event} else {})
  }

  /** The checkpoint counts the events up to its last one but for the missed ones. */
  predicate CountsBut(events: set<Id>, cp: Checkpoint, missed: set<Id>) {
    match cp.lastEvent
    case None => cp.sequence == 0 && missed == {}
    case Some(last) => last in events && missed <= UpTo(events, last) && cp.sequence + |missed| == |UpTo(events, last)|
  }

  lemma ArrivalCounts(p: Standing, e: Id, missed: set<Id>)
    requires CountsBut(p.events, Start(p.checkpoints), missed)
    ensures CountsBut(p.events + {e}, Start(p.checkpoints), missed + (if Late(p, Arrive(e)) then {e} else {}))
  {
    hide Start;
    var cp := Start(p.checkpoints);
    if cp.lastEvent.Some? {
      var last := cp.lastEvent.value;
      if e in p.events || e > last {
        assert UpTo(p.events + {e}, last) == UpTo(p.events, last);
      } else {
        assert e != last;
        assert UpTo(p.events + {e}, last) == UpTo(p.events, last) + {e};
        assert e !in UpTo(p.events, last);
      }
    }
  }

  /** A page counts its events, and what was missed before it stays missed. */
  lemma PageCountsBut(events: set<Id>, start: Checkpoint, n: nat, missed: set<Id>)
    requires CountsBut(events, start, missed) && 0 < n <= |Sorted(Beyond(events, start.lastEvent))|
    ensures CountsBut(events, Checkpoint(Some(Sorted(Beyond(events, start.lastEvent))[n - 1]), start.sequence + n),
            missed)
  {
    var listing := Sorted(Beyond(events, start.lastEvent));
    SortedLists(Beyond(events, start.lastEvent));
    var last := listing[n - 1];
    assert last in listing;
    CountedPrefix(events, start.lastEvent, n);
    if start.lastEvent.None? {
      assert UpTo(events, last) == UpTo(Beyond(events, None), last);
    } else {
      assert UpTo(events, last) == UpTo(events, start.lastEvent.value) + UpTo(Beyond(events, start.lastEvent), last);
    }
  }

  lemma BatchCounts(events: set<Id>, cps: Checkpoints, size: nat, missed: set<Id>)
    requires CountsBut(events, Start(cps), missed)
    ensures var cp := Batch(events, cps, size).0;
            CountsBut(events, cp, missed) && Start(Everywhere(cp)) == cp
  {
    hide Start, Everywhere, CountsBut;
    var n := |Prefix(Ahead(events, cps), size)|;
    var cp := Batch(events, cps, size).0;
    if n > 0 { PageCountsBut(events, Start(cps), n, missed); }
    if cp.lastEvent.Some? { StartOf(cp); } else { NothingCounted(events, cp, missed); }
  }

  lemma NothingCounted(events: set<Id>, cp: Checkpoint, missed: set<Id>)
    requires CountsBut(events, cp, missed) && cp.lastEvent.None?
    ensures Start(Everywhere(cp)) == cp
  {
    assert Everywhere(cp)[0] == cp;
  }

  /** Throughout a run of arrivals and batches the earliest checkpoint counts all but the late events. */
  lemma {:induction false} RunCounts(p: Standing, changes: seq<Change>)
    requires Honest(p.events, Start(p.checkpoints))
    ensures CountsBut(After(p, changes).events, Start(After(p, changes).checkpoints), Missed(p, changes))
  {
    hide CountsBut, Batch, Start, Everywhere, Honest;
    if |changes| == 0 {
      HonestCounts(p.events, Start(p.checkpoints));
    } else {
      var init, last := changes[..|changes| - 1], changes[|changes| - 1];
      RunCounts(p, init);
      var q := After(p, init);
      match last
      case Arrive(e) => ArrivalCounts(q, e, Missed(p, init));
      case CatchUp(size) =>
        BatchCounts(q.events, q.checkpoints, size, Missed(p, init));
        assert Missed(p, changes) == Missed(p, init);
    }
  }

  lemma HonestCounts(events: set<Id>, cp: Checkpoint)
    requires Honest(events, cp)
    ensures CountsBut(events, cp, {})
  {
  }

  /** A run of arrivals and batches of any size that ends with a batch after which nothing is pending
      leaves the checkpoints of the full rebuild exactly when no event came late. */
  lemma InterleavedAgreesIff(p: Standing, changes: seq<Change>, size: nat)
    requires Honest(p.events, Start(p.checkpoints)) && size > 0
    requires !Batch(After(p, changes).events, After(p, changes).checkpoints, size).1
    ensures var q := After(p, changes + [CatchUp(size)]);
            q.checkpoints == Everywhere(Rebuilt(q.events)) <==> Missed(p, changes) == {}
  {
    hide CountsBut, Batch, Start, Everywhere, Honest, Rebuilt;
    var steps := changes + [CatchUp(size)];
    assert steps[..|steps| - 1] == changes;
    RunCounts(p, changes);
    var q := After(p, changes);
    BatchCounts(q.events, q.checkpoints, size, Missed(p, changes));
    LastBatch(q.events, q.checkpoints, size);
    var cp := Batch(q.events, q.checkpoints, size).0;
    AtEnd(q.events, cp, Missed(p, changes));
    SameEverywhere(cp, Rebuilt(q.events));
  }

  /** A run in which an event is lost: it arrives behind the checkpoints, and the catch-up that follows finds
      nothing to do. */
  lemma LateArrival()
    ensures var p := Standing({2}, Everywhere(Checkpoint(Some(2), 1)));
            var q := After(p, [Arrive(1), CatchUp(1)]);
            && Honest(p.events, Start(p.checkpoints)) && Missed(p, [Arrive(1)]) == {1}
            && q.events == {1, 2} && q.checkpoints == p.checkpoints && Rebuilt(q.events) == Checkpoint(Some(2), 2)
  {
    var p := Standing({2}, Everywhere(Checkpoint(Some(2), 1)));
    EverywhereStarts(Checkpoint(Some(2), 1));
    hide Start, Everywhere, Complete;
    assert UpTo({2}, 2) == {2};
    var changes := [Arrive(1), CatchUp(1)];
    assert changes[..1] == [Arrive(1)] && changes[..1][..0] == [] && [Arrive(1)][..0] == [];
    var late := After(p, [Arrive(1)]);
    assert late == Standing({2} + {1}, p.checkpoints);
    assert Beyond(late.events, Some(2)) == {};
    assert Sorted({}) == [];
    assert Batch(late.events, late.checkpoints, 1).0 == Checkpoint(Some(2), 1);
  }

  lemma LastBatch(events: set<Id>, cps: Checkpoints, size: nat)
    requires !Batch(events, cps, size).1 && size > 0
    ensures Beyond(events, Batch(events, cps, size).0.lastEvent) == {}
  {
    hide Start;
    var ahead := Beyond(events, Start(cps).lastEvent);
    SortedLists(ahead);
    if ahead != {} {
      SortedLast(ahead);
      assert forall e :: e in events && e > MaxOf(ahead) ==> e in ahead;
    } else {
      assert Sorted(ahead) == [];
    }
  }

  lemma AtEnd(events: set<Id>, cp: Checkpoint, missed: set<Id>)
    requires CountsBut(events, cp, missed) && Beyond(events, cp.lastEvent) == {}
    ensures cp == Rebuilt(events) <==> missed == {}
  {
    if cp.lastEvent.Some? {
      CountsSplit(events, cp.lastEvent.value);
      MaxBeyond(events, cp.lastEvent.value);
    } else {
      assert events == Beyond(events, None);
    }
  }

  // ---------------------------------------------------------------- as they run

  class Projector {
    var events: set<Id>
    var checkpoints: Checkpoints

    constructor (events: set<Id>, checkpoints: Checkpoints)
      ensures this.events == events && this.checkpoints == checkpoints
    {
      this.events, this.checkpoints := events, checkpoints;
    }

    /** Up to `limit` event ids behind `after`, in order. */
    method Select(after: Option<Id>, limit: nat) returns (rows: seq<Id>)
      ensures rows == Prefix(Sorted(Beyond(events, after)), limit)
    {
      var listing := OrderById(Beyond(events, after));
      rows := Prefix(listing, limit);
    }

    /** The loop over pages of the full rebuild. */
    method Rebuild(size: nat) returns (processed: nat)
      requires size > 0
      modifies this`checkpoints
      ensures checkpoints == Everywhere(Rebuilt(events)) && processed == |events|
    {
      var last: Option<Id> := None;
      processed := 0;
      hide Honest;
      NoneHonest(events);
      while true
        invariant Honest(events, Checkpoint(last, processed))
        decreases |Beyond(events, last)|
      {
        ghost var rest := Sorted(Beyond(events, last));
        SortedSize(Beyond(events, last));
        var rows := Select(last, size);
        if |rows| == 0 {
          break;
        }
        PageCounts(events, Checkpoint(last, processed), |rows|);
        PageRest(events, last, |rows|);
        processed := processed + |rows|;
        last := Some(rows[|rows| - 1]);
        if |rows| < size {
          break;
        }
      }
      HonestAtEnd(events, Checkpoint(last, processed));
      checkpoints := Everywhere(Checkpoint(last, processed));
    }

    method CatchUp(size: nat) returns (pending: bool)
      requires size > 0
      modifies this`checkpoints
      ensures (checkpoints, pending)
              == (Everywhere(Batch(events, old(checkpoints), size).0), Batch(events, old(checkpoints), size).1)
    {
      var complete := forall name :: 0 <= name < NAMES ==> name in checkpoints && checkpoints[name].lastEvent.Some?;
      var start := Checkpoint(None, 0);
      if complete {
        var best := 0;
        for name := 1 to NAMES
          invariant best == EarliestAmong(checkpoints, name)
        {
          if checkpoints[name].lastEvent.value < checkpoints[best].lastEvent.value {
            best := name;
          }
        }
        start := checkpoints[best];
      }
      var rows := Select(start.lastEvent, size + 1);
      var items := Prefix(rows, size);
      pending := |rows| > size;
      checkpoints := Everywhere(Checkpoint(if |items| > 0 then Some(items[|items| - 1]) else start.lastEvent,
        start.sequence + |items|));
    }

    /** Batches until none is pending; `budget` is how many run before the process is told to stop. */
    method DrainCatchUp(size: nat, budget: nat) returns (batches: nat, finished: bool)
      requires size > 0
      modifies this`checkpoints
      ensures finished ==> checkpoints == Drain(events, old(checkpoints), size)
      ensures AllHonest(events, old(checkpoints)) ==> AllHonest(events, checkpoints)
      ensures batches <= budget && (!finished ==> batches == budget)
      ensures |Ahead(events, old(checkpoints))| < size * budget ==> finished
    {
      hide Drain, Batch, Ahead, AllHonest, Everywhere;
      batches, finished := 0, false;
      ghost var goal := Drain(events, checkpoints, size);
      ghost var passed := 0;
      while batches < budget && !finished
        invariant batches <= budget && passed == size * batches
        invariant !finished ==> Drain(events, checkpoints, size) == goal
        invariant finished ==> checkpoints == goal
        invariant AllHonest(events, old(checkpoints)) ==> AllHonest(events, checkpoints)
        invariant !finished ==> |Ahead(events, old(checkpoints))| == |Ahead(events, checkpoints)| + passed
      {
        DrainStep(events, checkpoints, size);
        var pending := CatchUp(size);
        finished := !pending;
        NextProduct(size, batches);
        batches, passed := batches + 1, passed + size;
      }
    }
  }

  lemma NextProduct(size: nat, batches: nat)
    ensures size * (batches + 1) == size * batches + size
  {
  }

  /** What one batch does to the drain that is under way. */
  lemma DrainStep(events: set<Id>, cps: Checkpoints, size: nat)
    requires size > 0
    ensures var (cp, pending) := Batch(events, cps, size);
            && Drain(events, cps, size) == (if pending then Drain(events, Everywhere(cp), size) else Everywhere(cp))
            && (AllHonest(events, cps) ==> AllHonest(events, Everywhere(cp)))
            && (pending ==> |Ahead(events, cps)| == |Ahead(events, Everywhere(cp))| + size)
  {
    if AllHonest(events, cps) { BatchKeepsHonest(events, cps, size); }
    hide Ahead, Honest, Start;
    var (cp, pending) := Batch(events, cps, size);
    if pending { BatchAdvances(events, cps, size); }
  }

  lemma NoneHonest(events: set<Id>)
    ensures Honest(events, Checkpoint(None, 0))
  {
  }

  lemma PageRest(events: set<Id>, after: Option<Id>, n: nat)
    requires 0 < n <= |Sorted(Beyond(events, after))|
    ensures |Beyond(events, Some(Sorted(Beyond(events, after))[n - 1]))| == |Beyond(events, after)| - n
  {
    var listing := Sorted(Beyond(events, after));
    RestOfListing(events, events, after, n);
    SortedSize(Beyond(events, after));
    SortedSize(Beyond(events, Some(listing[n - 1])));
  }
}
