/** The loop of reconciliation batches that startup recovery runs: it mends in its first batch, pages
    through the staged objects, and is stopped by a directory that lost a file. */
module ReconciliationLoop {
  import opened Basics
  import opened Ordering
  import opened BlobStore
  import opened ArtifactWorld
  import opened Reconciliation
  import opened OrphanPaging

  function Sum(x: Report, y: Report): Report {
    Report(x.scanned + y.scanned, x.promoted + y.promoted, x.wouldPromote + y.wouldPromote,
      x.alreadyConsistent + y.alreadyConsistent,
           x.abandoned + y.abandoned, x.wouldAbandon + y.wouldAbandon,
           x.orphans + y.orphans, x.removed + y.removed, x.wouldRemove + y.wouldRemove,
           x.unresolved + y.unresolved)
  }

  /** A thrown loop has no report; `next` is the cursor left when the cap was hit. */
  datatype Loop = Loop(store: Store, report: Report, thrown: bool, next: Option<Id>)

  ghost function Reconcile(s: Store, cursor: Option<Id>, order: seq<Id>, age: seq<Id>, now: Time, x: Options,
      batches: nat): Loop
    requires batches > 0
    decreases batches
  {
    var (o, next) := Batch(s, order, age, cursor, now, x);
    if o.thrown || next.None? || batches == 1 then Loop(o.store, o.report, o.thrown, next)
    else
      var rest := Reconcile(o.store, next, order, age, now, x, batches - 1);
      rest.(report := Sum(o.report, rest.report))
  }

  // ---------------------------------------------------------------- mending settles at once

  /** Mending this artifact again would not change the store. */
  ghost predicate Resting(s: Store, digest: Id, dryRun: bool) {
    digest in s.artifacts && !CommittedExists(s.disk, digest) && Candidate(s, digest).Some? && !dryRun ==>
      forall at :: Promote(s.disk, Candidate(s, digest).value, digest, s.artifacts[digest], at).1.Err?
  }

  lemma PromoteAnyTime(disk: Disk, id: Id, digest: Id, size: int, at: Time)
    requires Promote(disk, id, digest, size, at).1.Err?
    ensures forall t :: Promote(disk, id, digest, size, t).1 == Promote(disk, id, digest, size, at).1
  {
  }

  lemma MendSettles(o: Outcome, digest: Id, dryRun: bool, at: Time)
    requires !Mend(o, digest, dryRun, at).thrown
    ensures Resting(Mend(o, digest, dryRun, at).store, digest, dryRun)
  {
    hide Candidate;
    var s := o.store;
    if digest in s.artifacts && !CommittedExists(s.disk, digest) && Candidate(s, digest).Some? && !dryRun {
      var ref := Candidate(s, digest).value;
      if Promote(s.disk, ref, digest, s.artifacts[digest], at).1.Err? {
        PromoteAnyTime(s.disk, ref, digest, s.artifacts[digest], at);
      } else {
        PromotionCommits(s.disk, ref, digest, s.artifacts[digest], at);
      }
    }
  }

  lemma PromotionCommits(disk: Disk, id: Id, digest: Id, size: int, at: Time)
    requires Promote(disk, id, digest, size, at).1.Ok?
    ensures CommittedExists(Promote(disk, id, digest, size, at).0, digest)
  {
  }

  lemma MendRests(o: Outcome, digest: Id, dryRun: bool, at: Time)
    requires Resting(o.store, digest, dryRun) && CommittedValid(o.store.disk)
    ensures Mend(o, digest, dryRun, at).store == o.store && Mend(o, digest, dryRun, at).thrown == o.thrown
  {
    hide Candidate;
  }

  lemma {:induction false} MendAllRests(o: Outcome, order: seq<Id>, dryRun: bool, at: Time)
    requires CommittedValid(o.store.disk) && forall d :: d in order ==> Resting(o.store, d, dryRun)
    ensures MendAll(o, order, dryRun, at).store == o.store && MendAll(o, order, dryRun, at).thrown == o.thrown
  {
    hide Resting, Mend;
    if |order| > 0 {
      MendAllRests(o, order[..|order| - 1], dryRun, at);
      MendRests(MendAll(o, order[..|order| - 1], dryRun, at), order[|order| - 1], dryRun, at);
    }
  }

  lemma {:induction false} EarliestSame(r: map<Id, Row>, q: map<Id, Row>, refs: seq<Id>, n: nat)
    requires n <= |refs| && forall ref :: ref in refs ==> ref in r && ref in q && r[ref].created == q[ref].created
    ensures Earliest(r, refs, n) == Earliest(q, refs, n)
  {
    if n > 0 { EarliestSame(r, q, refs, n - 1); }
  }

  /** The candidate depends on the staged rows linked to the artifact. */
  lemma CandidateSame(s: Store, t: Store, digest: Id)
    requires LinkedRows(s, digest) == LinkedRows(t, digest)
    requires forall ref :: ref in LinkedRows(s, digest) ==> ref in t.rows && t.rows[ref].created == s.rows[ref].created
    ensures Candidate(s, digest) == Candidate(t, digest)
  {
    hide Earliest;
    var refs := Sorted(LinkedRows(s, digest));
    LinkedListed(s, digest);
    EarliestSame(s.rows, t.rows, refs, |refs|);
  }

  /** What mending, abandoning and sweeping leave alone about an artifact at rest. */
  ghost predicate Leaves(s: Store, t: Store, digest: Id) {
    && t.artifacts == s.artifacts
    && LinkedRows(s, digest) == LinkedRows(t, digest)
    && (forall ref :: ref in LinkedRows(s, digest) ==> t.rows[ref].created == s.rows[ref].created)
    && (CommittedExists(s.disk, digest) ==> CommittedExists(t.disk, digest))
    && (digest in t.disk.committed ==>
       digest in s.disk.committed && t.disk.committed[digest] == s.disk.committed[digest])
    && (forall ref :: ref in LinkedRows(s, digest) && ref in t.disk.staging ==>
       ref in s.disk.staging && t.disk.staging[ref] == s.disk.staging[ref])
  }

  lemma StillRefused(disk: Disk, later: Disk, id: Id, digest: Id, size: int)
    requires forall at :: Promote(disk, id, digest, size, at).1.Err?
    requires digest !in disk.committed && digest !in later.committed
    requires id in later.staging ==> id in disk.staging && later.staging[id] == disk.staging[id]
    ensures forall at :: Promote(later, id, digest, size, at).1.Err?
  {
    forall at ensures Promote(later, id, digest, size, at).1.Err? {
      assert Promote(disk, id, digest, size, at).1.Err?;
    }
  }

  lemma LeavesResting(s: Store, t: Store, digest: Id, dryRun: bool)
    requires Resting(s, digest, dryRun) && Leaves(s, t, digest) && CommittedValid(s.disk)
    ensures Resting(t, digest, dryRun)
  {
    hide Candidate, Promote;
    CandidateSame(s, t, digest);
    if digest in t.artifacts && !CommittedExists(t.disk, digest) && Candidate(t, digest).Some? && !dryRun {
      StillRefused(s.disk, t.disk, Candidate(s, digest).value, digest, s.artifacts[digest]);
    }
  }

  lemma MendLeaves(o: Outcome, digest: Id, dryRun: bool, at: Time, other: Id)
    requires other != digest
    ensures Leaves(o.store, Mend(o, digest, dryRun, at).store, other)
  {
    hide Candidate;
  }

  lemma AbandonLeaves(o: Outcome, ref: Id, dryRun: bool, other: Id)
    ensures Leaves(o.store, AbandonOne(o, ref, dryRun).store, other)
  {
  }

  lemma SweepLeaves(o: Outcome, ref: Id, cutoff: Time, remove: bool, dryRun: bool, other: Id)
    ensures Leaves(o.store, SweepOne(o, ref, cutoff, remove, dryRun).store, other)
  {
  }

  // ---------------------------------------------------------------- disks stay honest

  predicate Honest(disk: Disk) { CommittedValid(disk) && StagedHonest(disk) }

  /** Mending never throws on an honest disk and leaves directories that lost a file alone. */
  lemma MendHonest(o: Outcome, digest: Id, dryRun: bool, at: Time)
    requires Honest(o.store.disk)
    ensures var p := Mend(o, digest, dryRun, at);
            && Honest(p.store.disk) && p.thrown == o.thrown && p.store.artifacts == o.store.artifacts
            && p.store.rows.Keys == o.store.rows.Keys
            && p.store.disk.staging.Keys <= o.store.disk.staging.Keys
            && forall ref :: LostFile(p.store.disk, ref) <==> LostFile(o.store.disk, ref)
  {
    hide Candidate;
  }

  /** The first pass of mending brings everything it scans to rest. */
  lemma {:induction false} MendAllSettles(o: Outcome, order: seq<Id>, dryRun: bool, at: Time)
    requires Honest(o.store.disk) && !o.thrown
    ensures var p := MendAll(o, order, dryRun, at);
            && Honest(p.store.disk) && !p.thrown && p.store.artifacts == o.store.artifacts
            && p.store.rows.Keys == o.store.rows.Keys
            && p.store.disk.staging.Keys <= o.store.disk.staging.Keys
            && (forall ref :: LostFile(p.store.disk, ref) <==> LostFile(o.store.disk, ref))
            && forall d :: d in order ==> Resting(p.store, d, dryRun)
  {
    hide Mend, Resting, Honest, LostFile, Leaves;
    if |order| > 0 {
      var init, last := order[..|order| - 1], order[|order| - 1];
      MendAllSettles(o, init, dryRun, at);
      var p := MendAll(o, init, dryRun, at);
      MendHonest(p, last, dryRun, at);
      MendSettles(p, last, dryRun, at);
      forall d | d in order ensures Resting(Mend(p, last, dryRun, at).store, d, dryRun) {
        if d != last {
          MendLeaves(p, last, dryRun, at, d);
          HonestCommitted(p.store.disk);
          LeavesResting(p.store, Mend(p, last, dryRun, at).store, d, dryRun);
        }
      }
    }
  }

  lemma HonestCommitted(disk: Disk)
    requires Honest(disk)
    ensures CommittedValid(disk) && StagedHonest(disk)
  {
  }

  ghost predicate AllRest(s: Store, order: seq<Id>, dryRun: bool) { forall d :: d in order ==> Resting(s, d, dryRun) }

  lemma {:induction false} AbandonAllRest(o: Outcome, refs: seq<Id>, order: seq<Id>, dryRun: bool)
    requires AllRest(o.store, order, dryRun) && CommittedValid(o.store.disk)
    ensures AllRest(AbandonAll(o, refs, dryRun).store, order, dryRun)
  {
    hide Resting, AbandonOne, Leaves;
    if |refs| > 0 {
      AbandonAllRest(o, refs[..|refs| - 1], order, dryRun);
      AbandonAllApart(o, refs[..|refs| - 1], dryRun);
      var p := AbandonAll(o, refs[..|refs| - 1], dryRun);
      forall d | d in order ensures Resting(AbandonOne(p, refs[|refs| - 1], dryRun).store, d, dryRun) {
        AbandonLeaves(p, refs[|refs| - 1], dryRun, d);
        LeavesResting(p.store, AbandonOne(p, refs[|refs| - 1], dryRun).store, d, dryRun);
      }
    }
  }

  lemma {:induction false} SweepAllRest(o: Outcome, refs: seq<Id>, cutoff: Time, remove: bool, dryRun: bool,
      order: seq<Id>)
    requires AllRest(o.store, order, dryRun) && CommittedValid(o.store.disk)
    ensures AllRest(SweepAll(o, refs, cutoff, remove, dryRun).store, order, dryRun)
  {
    hide Resting, SweepOne, Leaves;
    if |refs| > 0 {
      SweepAllRest(o, refs[..|refs| - 1], cutoff, remove, dryRun, order);
      SweepAllApart(o, refs[..|refs| - 1], cutoff, remove, dryRun);
      var p := SweepAll(o, refs[..|refs| - 1], cutoff, remove, dryRun);
      forall d | d in order ensures Resting(SweepOne(p, refs[|refs| - 1], cutoff, remove, dryRun).store, d, dryRun) {
        SweepLeaves(p, refs[|refs| - 1], cutoff, remove, dryRun, d);
        LeavesResting(p.store, SweepOne(p, refs[|refs| - 1], cutoff, remove, dryRun).store, d, dryRun);
      }
    }
  }

  // ---------------------------------------------------------------- the loop is the paged sweep

  /** Two sweeps see the same objects. */
  ghost predicate Alike(o: Outcome, p: Outcome) {
    o.store.disk == p.store.disk && o.store.rows.Keys == p.store.rows.Keys && o.thrown == p.thrown
  }

  /** They count the same from where they started. */
  ghost predicate CountsAlike(o: Outcome, a: Outcome, p: Outcome, b: Outcome) {
    a.report.orphans - o.report.orphans == b.report.orphans - p.report.orphans
    && a.report.removed - o.report.removed == b.report.removed - p.report.removed
  }

  lemma {:induction false} SweepAlike(o: Outcome, p: Outcome, refs: seq<Id>, cutoff: Time, remove: bool, dryRun: bool)
    requires Alike(o, p)
    ensures Alike(SweepAll(o, refs, cutoff, remove, dryRun), SweepAll(p, refs, cutoff, remove, dryRun))
    ensures CountsAlike(o, SweepAll(o, refs, cutoff, remove, dryRun), p, SweepAll(p, refs, cutoff, remove, dryRun))
  {
    if |refs| > 0 { SweepAlike(o, p, refs[..|refs| - 1], cutoff, remove, dryRun); }
  }

  lemma {:induction false} PagedAlike(o: Outcome, p: Outcome, cursor: Option<Id>, limit: nat, cutoff: Time,
      remove: bool, dryRun: bool, batches: nat)
    requires Alike(o, p)
    ensures var (a, next) := PagedSweep(o, cursor, limit, cutoff, remove, dryRun, batches);
            var (b, other) := PagedSweep(p, cursor, limit, cutoff, remove, dryRun, batches);
            Alike(a, b) && next == other && CountsAlike(o, a, p, b)
    decreases batches
  {
    hide SweepAll, ListStaged;
    if batches > 0 && ListStaged(o.store.disk, limit, cursor).Ok? {
      var page := ListStaged(o.store.disk, limit, cursor).value;
      SweepAlike(o, p, page.objects, cutoff, remove, dryRun);
      if page.next.Some? && batches > 1 {
        PagedAlike(SweepAll(o, page.objects, cutoff, remove, dryRun), SweepAll(p, page.objects, cutoff, remove, dryRun),
                   page.next, limit, cutoff, remove, dryRun, batches - 1);
      }
    }
  }

  /** What the loop leaves, told by the paged sweep of the store as the first mending left it. */
  ghost predicate LoopIsPaged(l: Loop, o: Outcome, p: Outcome, next: Option<Id>) {
    && l.thrown == p.thrown && l.store.disk == p.store.disk && l.store.rows.Keys == p.store.rows.Keys
    && (!p.thrown ==>
          && l.next == next
          && l.report.orphans == p.report.orphans - o.report.orphans
          && l.report.removed == p.report.removed - o.report.removed)
  }

  /** The batch before its listing, from a store whose scanned artifacts are at rest. */
  lemma RestingKept(s: Store, order: seq<Id>, age: seq<Id>, now: Time, x: Options)
    requires AllRest(s, Prefix(order, x.limit), x.dryRun) && Honest(s.disk)
    ensures var kept := Kept(s, order, age, now, x);
            && kept.store.disk == s.disk && kept.store.rows.Keys == s.rows.Keys && !kept.thrown
            && AllRest(kept.store, Prefix(order, x.limit), x.dryRun)
            && kept.report.orphans == 0 && kept.report.removed == 0
  {
    hide MendAll, AbandonAll, StaleRows, Resting;
    var refs := Prefix(order, x.limit);
    KeptDisk(s, order, age, now, x);
    MendAllRests(Outcome(s, NO_REPORT, false), refs, x.dryRun, now);
    KeptCounts(s, order, age, now, x);
    var mended := MendAll(Outcome(s, NO_REPORT, false), refs, x.dryRun, now);
    AbandonAllRest(mended, Prefix(StaleRows(mended.store, age, now - x.grace, |age|), x.limit), refs, x.dryRun);
  }

  lemma {:induction false} MendCounts(o: Outcome, order: seq<Id>, dryRun: bool, at: Time)
    ensures MendAll(o, order, dryRun, at).report.orphans == o.report.orphans
            && MendAll(o, order, dryRun, at).report.removed == o.report.removed
  {
    hide Candidate, Promote;
    if |order| > 0 { MendCounts(o, order[..|order| - 1], dryRun, at); }
  }

  lemma {:induction false} AbandonCounts(o: Outcome, refs: seq<Id>, dryRun: bool)
    ensures AbandonAll(o, refs, dryRun).report.orphans == o.report.orphans
            && AbandonAll(o, refs, dryRun).report.removed == o.report.removed
  {
    if |refs| > 0 { AbandonCounts(o, refs[..|refs| - 1], dryRun); }
  }

  lemma KeptCounts(s: Store, order: seq<Id>, age: seq<Id>, now: Time, x: Options)
    ensures Kept(s, order, age, now, x).report.orphans == 0 && Kept(s, order, age, now, x).report.removed == 0
  {
    hide MendAll, AbandonAll, StaleRows;
    MendCounts(Outcome(s, NO_REPORT, false), Prefix(order, x.limit), x.dryRun, now);
    var mended := MendAll(Outcome(s, NO_REPORT, false), Prefix(order, x.limit), x.dryRun, now);
    AbandonCounts(mended, Prefix(StaleRows(mended.store, age, now - x.grace, |age|), x.limit), x.dryRun);
  }

  /** Later batches find everything mended: the loop pages on from where the first batch's mending left
      the store. */
  lemma {:induction false} LoopPages(s: Store, cursor: Option<Id>, order: seq<Id>, age: seq<Id>, now: Time, x: Options,
      batches: nat)
    requires batches > 0 && Accepted(x) && x.limit <= MAX_PAGE && Honest(s.disk)
    requires !Kept(s, order, age, now, x).thrown && Honest(Kept(s, order, age, now, x).store.disk)
    requires AllRest(Kept(s, order, age, now, x).store, Prefix(order, x.limit), x.dryRun)
    ensures var kept := Kept(s, order, age, now, x);
            var (p, next) := PagedSweep(kept, cursor, x.limit, now - x.grace, x.remove, x.dryRun, batches);
            LoopIsPaged(Reconcile(s, cursor, order, age, now, x, batches), kept, p, next)
    decreases batches
  {
    hide SweepAll, ListStaged, Kept, AllRest, Honest;
    var kept := Kept(s, order, age, now, x);
    var cutoff := now - x.grace;
    KeptCounts(s, order, age, now, x);
    if ListStaged(kept.store.disk, x.limit, cursor).Ok? {
      var page := ListStaged(kept.store.disk, x.limit, cursor).value;
      var o := SweepAll(kept, page.objects, cutoff, x.remove, x.dryRun);
      SweepKeeps(kept, page.objects, cutoff, x.remove, x.dryRun);
      if page.next.Some? && batches > 1 {
        HonestSwept(kept, page.objects, cutoff, x.remove, x.dryRun, Prefix(order, x.limit));
        RestingKept(o.store, order, age, now, x);
        LoopPages(o.store, page.next, order, age, now, x, batches - 1);
        PagedAlike(Kept(o.store, order, age, now, x), o, page.next, x.limit, cutoff, x.remove, x.dryRun, batches - 1);
      }
    }
  }

  lemma HonestSwept(o: Outcome, refs: seq<Id>, cutoff: Time, remove: bool, dryRun: bool, order: seq<Id>)
    requires Honest(o.store.disk) && AllRest(o.store, order, dryRun)
    ensures Honest(SweepAll(o, refs, cutoff, remove, dryRun).store.disk)
    ensures AllRest(SweepAll(o, refs, cutoff, remove, dryRun).store, order, dryRun)
  {
    hide AllRest, SweepAll;
    SweepHonest(o, refs, cutoff, remove, dryRun);
    SweepAllApart(o, refs, cutoff, remove, dryRun);
    SweepAllRest(o, refs, cutoff, remove, dryRun, order);
  }

  /** The store's disk after the first mending. */
  ghost function MendedDisk(s: Store, order: seq<Id>, now: Time, x: Options): Disk {
    MendAll(Outcome(s, NO_REPORT, false), Prefix(order, x.limit), x.dryRun, now).store.disk
  }

  lemma FirstKept(s: Store, order: seq<Id>, age: seq<Id>, now: Time, x: Options)
    requires Honest(s.disk)
    ensures var kept := Kept(s, order, age, now, x);
            && !kept.thrown && Honest(kept.store.disk) && AllRest(kept.store, Prefix(order, x.limit), x.dryRun)
            && kept.store.disk == MendedDisk(s, order, now, x)
            && kept.store.disk.staging.Keys <= s.disk.staging.Keys
            && kept.store.rows.Keys == s.rows.Keys
            && forall ref :: LostFile(kept.store.disk, ref) <==> LostFile(s.disk, ref)
  {
    hide MendAll, AbandonAll, StaleRows, Resting, Honest, LostFile;
    var refs := Prefix(order, x.limit);
    KeptDisk(s, order, age, now, x);
    MendAllSettles(Outcome(s, NO_REPORT, false), refs, x.dryRun, now);
    var mended := MendAll(Outcome(s, NO_REPORT, false), refs, x.dryRun, now);
    HonestCommitted(mended.store.disk);
    AbandonAllRest(mended, Prefix(StaleRows(mended.store, age, now - x.grace, |age|), x.limit), refs, x.dryRun);
  }

  /** A directory that lost a file is among the first `cap` staged ones. */
  ghost predicate LostWithin(disk: Disk, cap: nat) {
    exists ref :: ref in Prefix(Sorted(disk.staging.Keys), cap) && LostFile(disk, ref)
  }

  /** It is when fewer than `cap` staged ids are less than its own. */
  lemma LostWithinIff(disk: Disk, cap: nat)
    ensures LostWithin(disk, cap) <==> exists ref :: LostFile(disk, ref) && |Below(disk.staging.Keys, ref)| < cap
  {
    hide LostFile;
    var keys := disk.staging.Keys;
    forall ref ensures ref in Prefix(Sorted(keys), cap) <==> ref in keys && |Below(keys, ref)| < cap {
      PrefixIff(keys, ref, cap);
    }
    forall ref | LostFile(disk, ref) ensures ref in keys { LostIsStaged(disk, ref); }
  }

  lemma LostIsStaged(disk: Disk, ref: Id)
    requires LostFile(disk, ref)
    ensures ref in disk.staging.Keys
  {
  }

  lemma PrefixIff(keys: set<Id>, ref: Id, cap: nat)
    ensures ref in Prefix(Sorted(keys), cap) <==> ref in keys && |Below(keys, ref)| < cap
  {
    var listing := Sorted(keys);
    SortedLists(keys);
    if ref in keys {
      assert ref in listing;
      var k :| 0 <= k < |listing| && listing[k] == ref;
      SortedPlace(keys, k);
      if k < cap { assert Prefix(listing, cap)[k] == ref; }
    }
  }

  /** The reconciliation throws exactly when its options are refused, its limit is beyond the store's
      page size, or its pages reach a directory that lost a file. */
  lemma ReconcileThrowsIff(s: Store, order: seq<Id>, age: seq<Id>, now: Time, x: Options)
    requires Honest(s.disk)
    ensures Reconcile(s, None, order, age, now, x, MAX_BATCHES).thrown
            <==> !Accepted(x) || x.limit > MAX_PAGE || LostWithin(MendedDisk(s, order, now, x), x.limit * MAX_BATCHES)
  {
    hide Kept, AllRest, Honest, MendedDisk, LostFile, SweepAll, PagedSweep;
    if Accepted(x) {
      FirstKept(s, order, age, now, x);
      var kept := Kept(s, order, age, now, x);
      if x.limit <= MAX_PAGE {
        LoopPages(s, None, order, age, now, x, MAX_BATCHES);
        PagedThrows(kept, x.limit, now - x.grace, x.remove, x.dryRun);
      } else {
        LimitChecked(kept.store.disk, x.limit, None);
      }
    }
  }

  lemma PagedThrows(o: Outcome, limit: nat, cutoff: Time, remove: bool, dryRun: bool)
    requires 0 < limit <= MAX_PAGE && !o.thrown && Honest(o.store.disk)
    ensures PagedSweep(o, None, limit, cutoff, remove, dryRun, MAX_BATCHES).0.thrown
            <==> LostWithin(o.store.disk, limit * MAX_BATCHES)
  {
    hide SweepAll, PagedSweep, LostFile, PagesBefore, FirstLost, StagedHonest, CommittedValid;
    HonestCommitted(o.store.disk);
    PagesAddUp(o, None, limit, cutoff, remove, dryRun, MAX_BATCHES);
    assert Beyond(o.store.disk.staging.Keys, None) == o.store.disk.staging.Keys;
    var cap := limit * MAX_BATCHES;
    SweptThrows(o, Sorted(o.store.disk.staging.Keys), cap, limit, cutoff, remove, dryRun);
  }

  lemma SweptThrows(o: Outcome, listing: seq<Id>, cap: nat, limit: nat, cutoff: Time, remove: bool, dryRun: bool)
    requires 0 < limit <= cap && !o.thrown
    ensures PagesSwept(o, listing, cap, None, limit, cutoff, remove, dryRun).0.thrown
            <==> exists ref :: ref in Prefix(listing, cap) && LostFile(o.store.disk, ref)
  {
    hide SweepAll, LostFile, PagesBefore, FirstLost;
    SweepKeeps(o, Prefix(listing, cap), cutoff, remove, dryRun);
    var lost := FirstLost(o.store.disk, Prefix(listing, cap));
    if lost.Some? { assert Prefix(listing, cap)[lost.value] in Prefix(listing, cap); }
  }

  /** With no more staged objects than the loop's pages reach, it is any directory that lost a file. */
  lemma ReconcileThrowsIfAnyLost(s: Store, order: seq<Id>, age: seq<Id>, now: Time, x: Options)
    requires Honest(s.disk) && Accepted(x) && x.limit <= MAX_PAGE && |s.disk.staging.Keys| <= x.limit * MAX_BATCHES
    ensures Reconcile(s, None, order, age, now, x, MAX_BATCHES).thrown <==> exists ref :: LostFile(s.disk, ref)
  {
    hide Reconcile, MendedDisk, Honest, LostFile, Kept, AllRest;
    ReconcileThrowsIff(s, order, age, now, x);
    FirstKept(s, order, age, now, x);
    AllWithin(MendedDisk(s, order, now, x), s.disk, x.limit * MAX_BATCHES);
  }

  lemma AllWithin(disk: Disk, before: Disk, cap: nat)
    requires disk.staging.Keys <= before.staging.Keys && |before.staging.Keys| <= cap
    requires forall ref :: LostFile(disk, ref) <==> LostFile(before, ref)
    ensures LostWithin(disk, cap) <==> exists ref :: LostFile(before, ref)
  {
    Fewer(disk.staging.Keys, before.staging.Keys);
    SortedSize(disk.staging.Keys);
    SortedLists(disk.staging.Keys);
    if exists ref :: LostFile(before, ref) {
      var ref :| LostFile(before, ref);
      assert LostFile(disk, ref);
      assert ref in Prefix(Sorted(disk.staging.Keys), cap);
    }
  }

  lemma Fewer(x: set<Id>, y: set<Id>)
    requires x <= y
    ensures |x| <= |y|
  {
    assert y == x + (y - x);
  }

  // ---------------------------------------------------------------- what lost a file stays

  lemma SweepKeepsLost(o: Outcome, refs: seq<Id>, cutoff: Time, remove: bool, dryRun: bool)
    requires Honest(o.store.disk) && forall ref :: ref in refs ==> !LostFile(o.store.disk, ref)
    ensures var p := SweepAll(o, refs, cutoff, remove, dryRun);
            && Honest(p.store.disk) && p.store.disk.staging.Keys <= o.store.disk.staging.Keys
            && forall ref :: LostFile(p.store.disk, ref) <==> LostFile(o.store.disk, ref)
  {
    hide SweepAll, CommittedValid;
    SweepKeeps(o, refs, cutoff, remove, dryRun);
    SweepAllApart(o, refs, cutoff, remove, dryRun);
    SameCommitted(o.store.disk, SweepAll(o, refs, cutoff, remove, dryRun).store.disk);
  }

  lemma SameCommitted(disk: Disk, later: Disk)
    requires CommittedValid(disk) && later.committed == disk.committed
    ensures CommittedValid(later)
  {
  }

  lemma BatchKeepsLost(s: Store, cursor: Option<Id>, order: seq<Id>, age: seq<Id>, now: Time, x: Options)
    requires Honest(s.disk)
    ensures var t := Batch(s, order, age, cursor, now, x).0.store;
            && Honest(t.disk) && t.disk.staging.Keys <= s.disk.staging.Keys
            && forall ref :: LostFile(t.disk, ref) <==> LostFile(s.disk, ref)
  {
    hide Kept, AllRest, SweepAll, LostFile, StagedHonest, CommittedValid, PageOf;
    if Accepted(x) {
      FirstKept(s, order, age, now, x);
      var kept := Kept(s, order, age, now, x);
      HonestCommitted(kept.store.disk);
      if x.limit <= MAX_PAGE {
        ListsIff(kept.store.disk, x.limit, cursor);
        if ListStaged(kept.store.disk, x.limit, cursor).Ok? {
          SweepKeepsLost(kept, ListStaged(kept.store.disk, x.limit, cursor).value.objects, now - x.grace, x.remove,
            x.dryRun);
        }
      }
    }
  }

  /** Whatever the loop does, it stages nothing and removes no directory that lost a file. */
  lemma {:induction false} ReconcileKeepsLost(s: Store, cursor: Option<Id>, order: seq<Id>, age: seq<Id>, now: Time,
      x: Options, batches: nat)
    requires Honest(s.disk) && batches > 0
    ensures var t := Reconcile(s, cursor, order, age, now, x, batches).store;
            && Honest(t.disk) && t.disk.staging.Keys <= s.disk.staging.Keys
            && forall ref :: LostFile(t.disk, ref) <==> LostFile(s.disk, ref)
    decreases batches
  {
    hide Batch, Honest, LostFile;
    BatchKeepsLost(s, cursor, order, age, now, x);
    var (o, next) := Batch(s, order, age, cursor, now, x);
    if !o.thrown && next.Some? && batches > 1 { ReconcileKeepsLost(o.store, next, order, age, now, x, batches - 1); }
  }

  /** Where a loop ends that stands at `l` and may run `batches` more. */
  ghost function Extended(l: Loop, order: seq<Id>, age: seq<Id>, now: Time, x: Options, batches: nat): Loop {
    if l.thrown || l.next.None? || batches == 0 then l
    else
      var rest := Reconcile(l.store, l.next, order, age, now, x, batches);
      rest.(report := Sum(l.report, rest.report))
  }

  lemma ExtendedNext(l: Loop, order: seq<Id>, age: seq<Id>, now: Time, x: Options, batches: nat)
    requires !l.thrown && l.next.Some? && batches > 0
    ensures var (o, next) := Batch(l.store, order, age, l.next, now, x);
            Extended(l, order, age, now, x, batches)
            == Extended(Loop(o.store, Sum(l.report, o.report), o.thrown, next), order, age, now, x, batches - 1)
  {
    hide Batch;
  }
}
