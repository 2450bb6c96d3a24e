/** Orphaned objects, page by page: the cursor of the paged sweep, the directories that stop it, and the
    loop of batches that startup recovery runs. */
module OrphanPaging {
  import opened Basics
  import opened Ordering
  import opened BlobStore
  import opened ArtifactWorld
  import opened Reconciliation

  // ---------------------------------------------------------------- paging

  lemma {:induction false} SweepJoins(o: Outcome, xs: seq<Id>, ys: seq<Id>, cutoff: Time, remove: bool, dryRun: bool)
    ensures SweepAll(o, xs + ys, cutoff, remove, dryRun)
            == SweepAll(SweepAll(o, xs, cutoff, remove, dryRun), ys, cutoff, remove, dryRun)
  {
    if |ys| == 0 {
      assert xs + ys == xs;
    } else {
      assert (xs + ys)[..|xs + ys| - 1] == xs + ys[..|ys| - 1];
      SweepJoins(o, xs, ys[..|ys| - 1], cutoff, remove, dryRun);
    }
  }

  /** A sweep removes only listed objects. */
  lemma {:induction false} SweepKeeps(o: Outcome, refs: seq<Id>, cutoff: Time, remove: bool, dryRun: bool)
    ensures var p := SweepAll(o, refs, cutoff, remove, dryRun);
            && p.thrown == o.thrown
            && (forall ref :: ref in p.store.disk.staging ==>
                  ref in o.store.disk.staging && p.store.disk.staging[ref] == o.store.disk.staging[ref])
            && (forall ref :: ref in o.store.disk.staging && ref !in refs ==> ref in p.store.disk.staging)
  {
    if |refs| > 0 { SweepKeeps(o, refs[..|refs| - 1], cutoff, remove, dryRun); }
  }

  const MAX_BATCHES := 100

  /** The loop over pages: each batch sweeps the page behind the cursor, and the loop ends with the last
      page, after `batches` of them, or with the listing's error. */
  ghost function PagedSweep(o: Outcome, cursor: Option<Id>, limit: nat, cutoff: Time, remove: bool, dryRun: bool,
      batches: nat): (Outcome, Option<Id>)
    decreases batches
  {
    if batches == 0 then (o, cursor)
    else
      match ListStaged(o.store.disk, limit, cursor)
      case Err(_) => (o.(thrown := true), cursor)
      case Ok(page) =>
        var p := SweepAll(o, page.objects, cutoff, remove, dryRun);
        if page.next.None? || batches == 1 then (p, page.next)
        else PagedSweep(p, page.next, limit, cutoff, remove, dryRun, batches - 1)
  }

  /** The place of the first listed directory that lost a file. */
  function FirstLost(disk: Disk, refs: seq<Id>): (k: Option<nat>)
    ensures k.None? ==> forall i :: 0 <= i < |refs| ==> !LostFile(disk, refs[i])
    ensures k.Some? ==> k.value < |refs| && LostFile(disk, refs[k.value]) && forall i :: 0 <= i < k.value ==>
            !LostFile(disk, refs[i])
  {
    if |refs| == 0 then None
    else
      var k := FirstLost(disk, refs[..|refs| - 1]);
      if k.Some? then k else if LostFile(disk, refs[|refs| - 1]) then Some(|refs| - 1) else None
  }

  /** How many objects fill the pages before the one that holds place `k`. */
  function PagesBefore(k: nat, limit: nat): (n: nat)
    requires limit > 0
    ensures n <= k < n + limit
  {
    if k < limit then 0 else limit + PagesBefore(k - limit, limit)
  }

  lemma PageVerified(disk: Disk, limit: nat, cursor: Option<Id>)
    requires 0 < limit <= MAX_PAGE && StagedHonest(disk)
    ensures var listing := Sorted(Beyond(disk.staging.Keys, cursor));
            && (FirstLost(disk, Prefix(listing, limit)).None? ==>
                  ListStaged(disk, limit, cursor)
                    == Ok(Page(Prefix(listing, limit), if |listing| <= limit then None else Some(listing[limit - 1]))))
            && (FirstLost(disk, Prefix(listing, limit)).Some? ==> ListStaged(disk, limit, cursor) == Err(NotFound))
  {
    ListsIff(disk, limit, cursor);
    hide StagedHonest, LostFile, ListStaged, FirstLost;
    var listing := Sorted(Beyond(disk.staging.Keys, cursor));
    assert PageOf(disk.staging.Keys, limit, cursor).objects == Prefix(listing, limit);
  }

  lemma FirstLostAmong(disk: Disk, refs: seq<Id>, n: nat)
    requires n <= |refs|
    ensures FirstLost(disk, refs[..n])
            == (if FirstLost(disk, refs).Some? && FirstLost(disk, refs).value < n then FirstLost(disk, refs) else None)
  {
    hide LostFile, FirstLost;
    var k, j := FirstLost(disk, refs[..n]), FirstLost(disk, refs);
    if k.Some? {
      assert LostFile(disk, refs[k.value]);
    }
    if j.Some? && j.value < n {
      assert LostFile(disk, refs[..n][j.value]);
    }
  }

  lemma FirstLostBehind(disk: Disk, later: Disk, refs: seq<Id>, n: nat)
    requires n <= |refs| && FirstLost(disk, refs[..n]).None?
    requires forall ref :: ref in refs[n..] ==> LostFile(later, ref) == LostFile(disk, ref)
    ensures FirstLost(later, refs[n..])
            == (if FirstLost(disk, refs).Some? then Some(FirstLost(disk, refs).value - n) else None)
  {
    hide LostFile, FirstLost;
    FirstLostAmong(disk, refs, n);
    var j, k := FirstLost(disk, refs), FirstLost(later, refs[n..]);
    forall i | 0 <= i < |refs| - n ensures LostFile(later, refs[n..][i]) == LostFile(disk, refs[n + i]) {
      assert refs[n..][i] in refs[n..];
    }
    if k.Some? { assert LostFile(disk, refs[n + k.value]); }
    if j.Some? { assert n <= j.value && LostFile(later, refs[n..][j.value - n]); }
  }

  /** What following the cursor over the listing amounts to, when the pages reach its first `cap`
      objects.  A reached directory that lost a file stops the sweep before its page; otherwise each
      reached object is visited once and in order. */
  ghost function PagesSwept(o: Outcome, listing: seq<Id>, cap: nat, cursor: Option<Id>, limit: nat, cutoff: Time,
      remove: bool, dryRun: bool): (Outcome, Option<Id>)
    requires 0 < limit <= cap
  {
    SweptUpTo(o, listing, cap, cursor, limit, cutoff, remove, dryRun, FirstLost(o.store.disk, Prefix(listing, cap)))
  }

  /** The same, when the first directory that lost a file is at `lost`. */
  ghost function SweptUpTo(o: Outcome, listing: seq<Id>, cap: nat, cursor: Option<Id>, limit: nat, cutoff: Time,
      remove: bool, dryRun: bool,
                           lost: Option<nat>): (Outcome, Option<Id>)
    requires 0 < limit <= cap && (lost.Some? ==> lost.value < |listing|)
  {
    if lost.Some? then
      var n := PagesBefore(lost.value, limit);
      (SweepAll(o, listing[..n], cutoff, remove, dryRun).(thrown := true),
        if n == 0 then cursor else Some(listing[n - 1]))
    else
      (SweepAll(o, Prefix(listing, cap), cutoff, remove, dryRun),
        if |listing| <= cap then None else Some(listing[cap - 1]))
  }

  /** The pages add up to one pass over the listing, although the sweep removes what it has visited. */
  lemma {:induction false} PagesAddUp(o: Outcome, cursor: Option<Id>, limit: nat, cutoff: Time, remove: bool,
      dryRun: bool, batches: nat)
    requires 0 < limit <= MAX_PAGE && batches > 0 && StagedHonest(o.store.disk)
    ensures limit <= limit * batches
    ensures PagedSweep(o, cursor, limit, cutoff, remove, dryRun, batches)
            == PagesSwept(o, Sorted(Beyond(o.store.disk.staging.Keys, cursor)), limit * batches, cursor, limit, cutoff,
              remove, dryRun)
    decreases batches
  {
    hide SweepAll, ListStaged, Sorted, Beyond, StagedHonest, LostFile, FirstLost;
    var listing := Sorted(Beyond(o.store.disk.staging.Keys, cursor));
    PageVerified(o.store.disk, limit, cursor);
    assert limit <= limit * batches;
    PageOfReach(o.store.disk, listing, limit, limit * batches);
    if FirstLost(o.store.disk, Prefix(listing, limit)).Some? {
      NothingVisited(o, listing, cutoff, remove, dryRun);
    } else if |listing| > limit && batches > 1 {
      var p := SweepAll(o, listing[..limit], cutoff, remove, dryRun);
      SweepKeeps(o, listing[..limit], cutoff, remove, dryRun);
      ListedApart(o.store.disk.staging.Keys, cursor, p.store.disk.staging.Keys, limit);
      SweepHonest(o, listing[..limit], cutoff, remove, dryRun);
      PagesAddUp(p, Some(listing[limit - 1]), limit, cutoff, remove, dryRun, batches - 1);
      assert limit * (batches - 1) == limit * batches - limit;
      PagesJoin(o, listing, limit * batches, cursor, limit, cutoff, remove, dryRun);
    }
  }

  lemma NothingVisited(o: Outcome, listing: seq<Id>, cutoff: Time, remove: bool, dryRun: bool)
    ensures SweepAll(o, listing[..0], cutoff, remove, dryRun) == o
  {
  }

  lemma PageOfReach(disk: Disk, listing: seq<Id>, limit: nat, cap: nat)
    requires 0 < limit <= cap
    ensures var lost := FirstLost(disk, Prefix(listing, cap));
            FirstLost(disk, Prefix(listing, limit)) == (if lost.Some? && lost.value < limit then lost else None)
    ensures cap == limit || |listing| <= limit ==> Prefix(listing, cap) == Prefix(listing, limit)
  {
    var reach := Prefix(listing, cap);
    if |reach| <= limit {
      assert Prefix(listing, limit) == reach && reach[..|reach|] == reach;
    } else {
      assert Prefix(listing, limit) == reach[..limit];
      FirstLostAmong(disk, reach, limit);
    }
  }

  lemma SweepHonest(o: Outcome, refs: seq<Id>, cutoff: Time, remove: bool, dryRun: bool)
    requires StagedHonest(o.store.disk)
    ensures StagedHonest(SweepAll(o, refs, cutoff, remove, dryRun).store.disk)
  {
    SweepKeeps(o, refs, cutoff, remove, dryRun);
  }

  lemma LostBehind(o: Outcome, p: Outcome, listing: seq<Id>, cap: nat, limit: nat)
    requires 0 < limit <= cap && |listing| > limit && FirstLost(o.store.disk, listing[..limit]).None?
    requires forall ref :: ref in listing[limit..] ==> LostFile(p.store.disk, ref) == LostFile(o.store.disk, ref)
    ensures var lost := FirstLost(o.store.disk, Prefix(listing, cap));
            && (lost.Some? ==> limit <= lost.value)
            && FirstLost(p.store.disk, Prefix(listing[limit..], cap - limit))
               == (if lost.Some? then Some(lost.value - limit) else None)
  {
    hide LostFile, FirstLost;
    var reach := Prefix(listing, cap);
    assert reach[..limit] == listing[..limit] && reach[limit..] == Prefix(listing[limit..], cap - limit);
    FirstLostAmong(o.store.disk, reach, limit);
    forall ref | ref in reach[limit..] ensures ref in listing[limit..] {
      var i :| 0 <= i < |reach[limit..]| && reach[limit..][i] == ref;
      assert listing[limit..][i] == ref;
    }
    FirstLostBehind(o.store.disk, p.store.disk, reach, limit);
  }

  lemma SweepJoinsAt(o: Outcome, listing: seq<Id>, limit: nat, n: nat, cutoff: Time, remove: bool, dryRun: bool)
    requires limit + n <= |listing|
    ensures SweepAll(SweepAll(o, listing[..limit], cutoff, remove, dryRun), listing[limit..][..n], cutoff, remove,
            dryRun)
            == SweepAll(o, listing[..limit + n], cutoff, remove, dryRun)
  {
    assert listing[..limit] + listing[limit..][..n] == listing[..limit + n];
    SweepJoins(o, listing[..limit], listing[limit..][..n], cutoff, remove, dryRun);
  }

  lemma UpToJoins(o: Outcome, listing: seq<Id>, cap: nat, cursor: Option<Id>, limit: nat, cutoff: Time, remove: bool,
      dryRun: bool, lost: Option<nat>)
    requires 0 < limit && 2 * limit <= cap && |listing| > limit && (lost.Some? ==> limit <= lost.value < |listing|)
    ensures SweptUpTo(SweepAll(o, listing[..limit], cutoff, remove, dryRun), listing[limit..], cap - limit,
            Some(listing[limit - 1]), limit, cutoff, remove, dryRun,
                      if lost.Some? then Some(lost.value - limit) else None)
            == SweptUpTo(o, listing, cap, cursor, limit, cutoff, remove, dryRun, lost)
  {
    hide SweepAll, PagesBefore;
    if lost.Some? {
      PagesBeforeNext(lost.value, limit);
      SweepJoinsAt(o, listing, limit, PagesBefore(lost.value - limit, limit), cutoff, remove, dryRun);
    } else {
      var m := if |listing| <= cap then |listing| - limit else cap - limit;
      assert Prefix(listing[limit..], cap - limit) == listing[limit..][..m]
        && Prefix(listing, cap) == listing[..limit + m];
      SweepJoinsAt(o, listing, limit, m, cutoff, remove, dryRun);
    }
  }

  /** One page and the pages behind it. */
  lemma PagesJoin(o: Outcome, listing: seq<Id>, cap: nat, cursor: Option<Id>, limit: nat, cutoff: Time, remove: bool,
      dryRun: bool)
    requires 0 < limit && 2 * limit <= cap && |listing| > limit && FirstLost(o.store.disk, listing[..limit]).None?
    requires forall i, j :: 0 <= i < j < |listing| ==> listing[i] < listing[j]
    ensures var p := SweepAll(o, listing[..limit], cutoff, remove, dryRun);
            PagesSwept(p, listing[limit..], cap - limit, Some(listing[limit - 1]), limit, cutoff, remove, dryRun)
            == PagesSwept(o, listing, cap, cursor, limit, cutoff, remove, dryRun)
  {
    hide SweepAll, LostFile, FirstLost, PagesBefore, SweptUpTo;
    var p := SweepAll(o, listing[..limit], cutoff, remove, dryRun);
    ApartIsSame(o, p, listing, limit, cutoff, remove, dryRun);
    LostBehind(o, p, listing, cap, limit);
    UpToJoins(o, listing, cap, cursor, limit, cutoff, remove, dryRun, FirstLost(o.store.disk, Prefix(listing, cap)));
  }

  lemma PagesBeforeNext(k: nat, limit: nat)
    requires 0 < limit <= k
    ensures PagesBefore(k, limit) == limit + PagesBefore(k - limit, limit)
  {
  }

  /** A page's sweep does not touch what lies behind it. */
  lemma ApartIsSame(o: Outcome, p: Outcome, listing: seq<Id>, limit: nat, cutoff: Time, remove: bool, dryRun: bool)
    requires limit <= |listing| && forall i, j :: 0 <= i < j < |listing| ==> listing[i] < listing[j]
    requires p == SweepAll(o, listing[..limit], cutoff, remove, dryRun)
    ensures forall ref :: ref in listing[limit..] ==> LostFile(p.store.disk, ref) == LostFile(o.store.disk, ref)
  {
    SweepKeeps(o, listing[..limit], cutoff, remove, dryRun);
    hide SweepAll;
    forall ref | ref in listing[limit..] ensures LostFile(p.store.disk, ref) == LostFile(o.store.disk, ref) {
      var i :| limit <= i < |listing| && listing[i] == ref;
      assert ref !in listing[..limit];
    }
  }

  lemma ListedApart(ids: set<Id>, cursor: Option<Id>, p: set<Id>, n: nat)
    requires n <= |Sorted(Beyond(ids, cursor))|
    requires forall ref :: ref in ids && ref !in Sorted(Beyond(ids, cursor))[..n] ==> ref in p
    requires p <= ids && 0 < n
    ensures Sorted(Beyond(p, Some(Sorted(Beyond(ids, cursor))[n - 1]))) == Sorted(Beyond(ids, cursor))[n..]
    ensures forall i, j :: 0 <= i < j < |Sorted(Beyond(ids, cursor))| ==>
            Sorted(Beyond(ids, cursor))[i] < Sorted(Beyond(ids, cursor))[j]
  {
    RestOfListing(ids, p, cursor, n);
    SortedLists(Beyond(ids, cursor));
  }

  /** When the cap is not hit, the sweep is stopped exactly when some staged directory lost a file;
      otherwise it has counted and removed each orphan once, as one pass would. */
  lemma PagedTotals(o: Outcome, limit: nat, cutoff: Time, remove: bool, dryRun: bool)
    requires 0 < limit <= MAX_PAGE && !o.thrown && |Sorted(o.store.disk.staging.Keys)| <= limit * MAX_BATCHES
    requires StagedHonest(o.store.disk)
    ensures var (p, next) := PagedSweep(o, None, limit, cutoff, remove, dryRun, MAX_BATCHES);
            && (p.thrown <==> exists ref :: LostFile(o.store.disk, ref))
            && (!p.thrown ==>
                  && next.None?
                  && p.report.orphans == o.report.orphans + |Orphans(o.store, cutoff)|
                  && p.report.removed == o.report.removed
                     + (if remove && !dryRun then |Orphans(o.store, cutoff)| else 0)
                  && p.store.disk.staging.Keys == o.store.disk.staging.Keys - (
                     if remove && !dryRun then Orphans(o.store, cutoff) else {}))
  {
    hide SweepAll, PagedSweep, Orphans, StagedHonest, FirstLost, PagesBefore, LostFile;
    PagesAddUp(o, None, limit, cutoff, remove, dryRun, MAX_BATCHES);
    assert Beyond(o.store.disk.staging.Keys, None) == o.store.disk.staging.Keys;
    OnePass(o, limit, limit * MAX_BATCHES, cutoff, remove, dryRun);
  }

  lemma OnePass(o: Outcome, limit: nat, cap: nat, cutoff: Time, remove: bool, dryRun: bool)
    requires 0 < limit <= cap && !o.thrown && |Sorted(o.store.disk.staging.Keys)| <= cap
    ensures var (p, next) := PagesSwept(o, Sorted(o.store.disk.staging.Keys), cap, None, limit, cutoff, remove, dryRun);
            && (p.thrown <==> exists ref :: LostFile(o.store.disk, ref))
            && (!p.thrown ==>
                  && next.None?
                  && p.report.orphans == o.report.orphans + |Orphans(o.store, cutoff)|
                  && p.report.removed == o.report.removed
                     + (if remove && !dryRun then |Orphans(o.store, cutoff)| else 0)
                  && p.store.disk.staging.Keys == o.store.disk.staging.Keys - (
                     if remove && !dryRun then Orphans(o.store, cutoff) else {}))
  {
    hide SweepAll, Orphans, FirstLost, PagesBefore;
    var listing := Sorted(o.store.disk.staging.Keys);
    SortedLists(o.store.disk.staging.Keys);
    SweepCounts(o, listing, cutoff, remove, dryRun);
    OrphansListed(o.store, listing, cutoff);
    if exists ref :: LostFile(o.store.disk, ref) {
      var ref :| LostFile(o.store.disk, ref);
      assert ref in listing;
    }
  }

  function Orphans(s: Store, cutoff: Time): set<Id> {
    set ref | ref in s.disk.staging && Orphan(s, ref, cutoff)
  }

  function OrphansIn(s: Store, refs: seq<Id>, cutoff: Time): set<Id> {
    set ref | ref in refs && Orphan(s, ref, cutoff)
  }

  lemma OrphansListed(s: Store, listing: seq<Id>, cutoff: Time)
    requires forall ref :: ref in listing <==> ref in s.disk.staging.Keys
    ensures OrphansIn(s, listing, cutoff) == Orphans(s, cutoff)
  {
  }

  /** What sweeping `refs` from `o` leaves in `p`. */
  ghost predicate Swept(o: Outcome, p: Outcome, orphans: set<Id>, removes: bool) {
    && !p.thrown && p.store.rows == o.store.rows
    && p.report.orphans == o.report.orphans + |orphans|
    && p.report.removed == o.report.removed + (if removes then |orphans| else 0)
    && p.store.disk.staging.Keys == o.store.disk.staging.Keys - (if removes then orphans else {})
  }

  lemma SweptOn(o: Outcome, p: Outcome, orphans: set<Id>, last: Id, cutoff: Time, remove: bool, dryRun: bool)
    requires Swept(o, p, orphans, remove && !dryRun) && last !in orphans
    requires Orphan(p.store, last, cutoff) == Orphan(o.store, last, cutoff)
    ensures Swept(o, SweepOne(p, last, cutoff, remove, dryRun),
            orphans + (if Orphan(o.store, last, cutoff) then {last} else {}), remove && !dryRun)
  {
    hide Orphan;
    assert |orphans + {last}| == |orphans| + 1;
  }

  lemma {:induction false} SweepCounts(o: Outcome, refs: seq<Id>, cutoff: Time, remove: bool, dryRun: bool)
    requires !o.thrown && forall i, j :: 0 <= i < j < |refs| ==> refs[i] < refs[j]
    ensures Swept(o, SweepAll(o, refs, cutoff, remove, dryRun), OrphansIn(o.store, refs, cutoff), remove && !dryRun)
  {
    hide Swept, OrphansIn, SweepAll;
    if |refs| > 0 {
      var init, last := refs[..|refs| - 1], refs[|refs| - 1];
      SweepCounts(o, init, cutoff, remove, dryRun);
      SweepKeeps(o, init, cutoff, remove, dryRun);
      OrphansNext(o.store, init, last, cutoff);
      assert refs == init + [last];
      SweepJoins(o, init, [last], cutoff, remove, dryRun);
      SweepLast(SweepAll(o, init, cutoff, remove, dryRun), last, cutoff, remove, dryRun);
      SweptRows(o, SweepAll(o, init, cutoff, remove, dryRun), OrphansIn(o.store, init, cutoff), remove && !dryRun);
      SweptOn(o, SweepAll(o, init, cutoff, remove, dryRun), OrphansIn(o.store, init, cutoff), last, cutoff, remove,
        dryRun);
    } else {
      NothingSwept(o, refs, cutoff, remove, dryRun);
    }
  }

  lemma SweptRows(o: Outcome, p: Outcome, orphans: set<Id>, removes: bool)
    requires Swept(o, p, orphans, removes)
    ensures p.store.rows == o.store.rows
  {
  }

  lemma NothingSwept(o: Outcome, refs: seq<Id>, cutoff: Time, remove: bool, dryRun: bool)
    requires |refs| == 0 && !o.thrown
    ensures Swept(o, SweepAll(o, refs, cutoff, remove, dryRun), OrphansIn(o.store, refs, cutoff), remove && !dryRun)
  {
  }

  lemma SweepLast(p: Outcome, last: Id, cutoff: Time, remove: bool, dryRun: bool)
    ensures SweepAll(p, [last], cutoff, remove, dryRun) == SweepOne(p, last, cutoff, remove, dryRun)
  {
    assert [last][..0] == [];
    assert SweepAll(p, [], cutoff, remove, dryRun) == p;
  }

  lemma OrphansNext(s: Store, init: seq<Id>, last: Id, cutoff: Time)
    requires last !in init
    ensures OrphansIn(s, init + [last], cutoff) == OrphansIn(s, init, cutoff)
            + (if Orphan(s, last, cutoff) then {last} else {})
    ensures last !in OrphansIn(s, init, cutoff)
  {
  }
}
