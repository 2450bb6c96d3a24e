/** The reconciler's batch, run to its end: mend committed artifacts from staged bytes, abandon rows
    whose bytes are gone, remove orphaned objects page by page. */
module Reconciliation {
  import opened Basics
  import opened Ordering
  import opened BlobStore
  import opened ArtifactWorld
  import W = ArtifactWorld

  datatype Store = Store(disk: Disk, rows: map<Id, Row>, artifacts: map<Id, nat>)

  datatype Problem = MissingCommittedBytes(digest: Id) | MissingStagedBytes(digest: Id)
      | StagedBytesMismatch(digest: Id)

  datatype Report = Report(
    scanned: nat, promoted: nat, wouldPromote: nat, alreadyConsistent: nat,
    abandoned: nat, wouldAbandon: nat,
    orphans: nat, removed: nat, wouldRemove: nat,
    unresolved: seq<Problem>)

  const NO_REPORT := Report(0, 0, 0, 0, 0, 0, 0, 0, 0, [])

  /** A batch either ends with a report or throws the store's error. */
  datatype Outcome = Outcome(store: Store, report: Report, thrown: bool)

  // ---------------------------------------------------------------- mending artifacts

  function LinkedRows(s: Store, digest: Id): set<Id> {
    set ref | ref in s.rows && s.rows[ref].artifact == Some(digest) && s.rows[ref].status.Staged?
  }

  /** The first of the listed rows by creation time. */
  function Earliest(rows: map<Id, Row>, refs: seq<Id>, n: nat): Option<Id>
    requires n <= |refs| && forall ref :: ref in refs ==> ref in rows
    ensures n > 0 ==> Earliest(rows, refs, n).Some?
    ensures Earliest(rows, refs, n).Some? ==> Earliest(rows, refs, n).value in refs
  {
    if n == 0 then None
    else
      var best := Earliest(rows, refs, n - 1);
      if best.None? || rows[refs[n - 1]].created < rows[best.value].created then Some(refs[n - 1]) else best
  }

  lemma LinkedListed(s: Store, digest: Id)
    ensures forall ref :: ref in Sorted(LinkedRows(s, digest)) <==> ref in LinkedRows(s, digest)
    ensures forall ref :: ref in Sorted(LinkedRows(s, digest)) ==> ref in s.rows
  {
    SortedLists(LinkedRows(s, digest));
  }

  ghost function Candidate(s: Store, digest: Id): (ref: Option<Id>)
    ensures ref.Some? <==> LinkedRows(s, digest) != {}
    ensures ref.Some? ==> ref.value in LinkedRows(s, digest)
  {
    LinkedListed(s, digest);
    var refs := Sorted(LinkedRows(s, digest));
    if LinkedRows(s, digest) != {} then
      var x :| x in LinkedRows(s, digest);
      assert x in refs;
      Earliest(s.rows, refs, |refs|)
    else None
  }

  /** `promotionDiagnostic`: which errors of a promotion are reported instead of thrown. */
  function Diagnosis(error: BlobError, digest: Id): Option<Problem> {
    match error
    case NotFound => Some(MissingStagedBytes(digest))
    case DigestMismatch => Some(StagedBytesMismatch(digest))
    case SizeMismatch => Some(StagedBytesMismatch(digest))
    case StagingConflict => Some(StagedBytesMismatch(digest))
    case _ => None
  }

  predicate CommittedExists(disk: Disk, digest: Id) {
    digest in disk.committed && Verified(disk.committed[digest])
  }

  ghost function Mend(o: Outcome, digest: Id, dryRun: bool, at: Time): Outcome {
    if o.thrown || digest !in o.store.artifacts then o
    else
      var s := o.store;
      var r := o.report.(scanned := o.report.scanned + 1);
      if CommittedExists(s.disk, digest) then o.(report := r.(alreadyConsistent := r.alreadyConsistent + 1))
      else
        var ref := Candidate(s, digest);
        if ref.None? then o.(report := r.(unresolved := r.unresolved + [MissingCommittedBytes(digest)]))
        else if dryRun then o.(report := r.(wouldPromote := r.wouldPromote + 1))
        else
          match Promote(s.disk, ref.value, digest, s.artifacts[digest], at)
          case (_, Err(error)) =>
            if Diagnosis(error, digest).Some?
            then o.(report := r.(unresolved := r.unresolved + [Diagnosis(error, digest).value]))
            else o.(report := r, thrown := true)
          case (disk, Ok(_)) =>
            Outcome(s.(disk := disk, rows :=
                       s.rows[ref.value := s.rows[ref.value].(status := RowStatus.Promoted, artifact := Some(digest))]),
                    r.(promoted := r.promoted + 1), false)
  }

  ghost function MendAll(o: Outcome, order: seq<Id>, dryRun: bool, at: Time): Outcome {
    if |order| == 0 then o else Mend(MendAll(o, order[..|order| - 1], dryRun, at), order[|order| - 1], dryRun, at)
  }

  // ---------------------------------------------------------------- rows and orphans

  function AbandonOne(o: Outcome, ref: Id, dryRun: bool): Outcome {
    var s := o.store;
    if o.thrown || ref !in s.rows || s.rows[ref].artifact.Some?
       || (ref in s.disk.staging && Verified(s.disk.staging[ref])) then o
    else if dryRun then o.(report := o.report.(wouldAbandon := o.report.wouldAbandon + 1))
    else
      Outcome(s.(rows := s.rows[ref := s.rows[ref].(status := RowStatus.Abandoned)]),
        o.report.(abandoned := o.report.abandoned + 1), false)
  }

  function AbandonAll(o: Outcome, refs: seq<Id>, dryRun: bool): Outcome {
    if |refs| == 0 then o else AbandonOne(AbandonAll(o, refs[..|refs| - 1], dryRun), refs[|refs| - 1], dryRun)
  }

  predicate Orphan(s: Store, ref: Id, cutoff: Time) {
    ref in s.disk.staging && ref !in s.rows && s.disk.staging[ref].modified < cutoff
  }

  function SweepOne(o: Outcome, ref: Id, cutoff: Time, remove: bool, dryRun: bool): Outcome {
    if o.thrown || !Orphan(o.store, ref, cutoff) then o
    else
      var r := o.report.(orphans := o.report.orphans + 1);
      if !remove then o.(report := r)
      else if dryRun then o.(report := r.(wouldRemove := r.wouldRemove + 1))
      else Outcome(o.store.(disk := RemoveStaged(o.store.disk, ref)), r.(removed := r.removed + 1), false)
  }

  function SweepAll(o: Outcome, refs: seq<Id>, cutoff: Time, remove: bool, dryRun: bool): Outcome {
    if |refs| == 0 then o
    else SweepOne(SweepAll(o, refs[..|refs| - 1], cutoff, remove, dryRun), refs[|refs| - 1], cutoff, remove, dryRun)
  }

  function Prefix(xs: seq<Id>, n: nat): seq<Id> { if |xs| <= n then xs else xs[..n] }

  /** Staged rows older than the cutoff, oldest first, up to the limit; `age` is the creation order. */
  function StaleRows(s: Store, age: seq<Id>, cutoff: Time, n: nat): seq<Id>
    requires n <= |age|
  {
    if n == 0 then []
    else
      StaleRows(s, age, cutoff, n - 1)
      + (if age[n - 1] in s.rows && s.rows[age[n - 1]].status.Staged?
         && s.rows[age[n - 1]].created < cutoff then [age[n - 1]] else [])
  }

  datatype Options = Options(limit: nat, grace: int, remove: bool, dryRun: bool)

  /** The options the batch accepts; a limit beyond the store's page size fails only at the listing. */
  predicate Accepted(x: Options) { x.limit > 0 && x.grace >= 0 }

  /** The batch before it lists staged objects. */
  ghost function Kept(s: Store, order: seq<Id>, age: seq<Id>, now: Time, x: Options): Outcome {
    var mended := MendAll(Outcome(s, NO_REPORT, false), Prefix(order, x.limit), x.dryRun, now);
    AbandonAll(mended, Prefix(StaleRows(mended.store, age, now - x.grace, |age|), x.limit), x.dryRun)
  }

  /** One batch.  `order` lists the committed artifacts and `age` the rows, oldest first. */
  ghost function Batch(s: Store, order: seq<Id>, age: seq<Id>, cursor: Option<Id>, now: Time, x: Options)
    : (Outcome, Option<Id>)
  {
    if !Accepted(x) then (Outcome(s, NO_REPORT, true), None)
    else
      var kept := Kept(s, order, age, now, x);
      if kept.thrown then (kept, None)
      else
        match ListStaged(kept.store.disk, x.limit, cursor)
        case Err(_) => (kept.(thrown := true), None)
        case Ok(page) => (SweepAll(kept, page.objects, now - x.grace, x.remove, x.dryRun), page.next)
  }

  // ---------------------------------------------------------------- what a batch mends

  predicate Named(problem: Problem, digest: Id) { problem.digest == digest }

  predicate Reported(r: Report, digest: Id) {
    exists i :: 0 <= i < |r.unresolved| && Named(r.unresolved[i], digest)
  }

  lemma MendOne(o: Outcome, digest: Id, at: Time)
    requires digest in o.store.artifacts && !o.thrown
    ensures var p := Mend(o, digest, false, at);
            && (!p.thrown ==> CommittedExists(p.store.disk, digest) || Reported(p.report, digest))
            && p.store.artifacts == o.store.artifacts
            && (forall d :: d in o.store.disk.committed ==>
               d in p.store.disk.committed && p.store.disk.committed[d] == o.store.disk.committed[d])
            && o.report.unresolved <= p.report.unresolved
  {
    hide Candidate;
    var p := Mend(o, digest, false, at);
    if !p.thrown && !CommittedExists(p.store.disk, digest) {
      assert Named(p.report.unresolved[|o.report.unresolved|], digest);
    }
  }

  /** Every scanned artifact ends with committed bytes or is reported unresolved. */
  lemma {:induction false} MendsOrReports(o: Outcome, order: seq<Id>, at: Time)
    requires !o.thrown && forall d :: d in order ==> d in o.store.artifacts
    ensures var p := MendAll(o, order, false, at);
            && p.store.artifacts == o.store.artifacts
            && (forall d :: d in o.store.disk.committed ==>
               d in p.store.disk.committed && p.store.disk.committed[d] == o.store.disk.committed[d])
            && (!p.thrown ==> forall d :: d in order ==> CommittedExists(p.store.disk, d) || Reported(p.report, d))
  {
    hide Mend, CommittedExists;
    if |order| > 0 {
      var init := order[..|order| - 1];
      MendsOrReports(o, init, at);
      var p := MendAll(o, init, false, at);
      if p.thrown { ThrownStays(p, order[|order| - 1], at); } else {
        MendOne(p, order[|order| - 1], at);
        StillMended(p, Mend(p, order[|order| - 1], false, at), init);
      }
    }
  }

  lemma ThrownStays(p: Outcome, digest: Id, at: Time)
    requires p.thrown
    ensures Mend(p, digest, false, at) == p
  {
  }

  lemma StillMended(p: Outcome, q: Outcome, order: seq<Id>)
    requires forall d :: d in order ==> CommittedExists(p.store.disk, d) || Reported(p.report, d)
    requires forall d :: d in p.store.disk.committed ==>
             d in q.store.disk.committed && q.store.disk.committed[d] == p.store.disk.committed[d]
    requires p.report.unresolved <= q.report.unresolved
    ensures forall d :: d in order ==> CommittedExists(q.store.disk, d) || Reported(q.report, d)
  {
    forall d | d in order ensures CommittedExists(q.store.disk, d) || Reported(q.report, d) {
      if !CommittedExists(p.store.disk, d) {
        var i :| 0 <= i < |p.report.unresolved| && Named(p.report.unresolved[i], d);
        assert Named(q.report.unresolved[i], d);
      }
    }
  }

  /** The state every run with a patient reconciler is in, as far as artifacts are concerned. */
  ghost predicate Sound(s: Store) {
    DiskSound(s) && RowsSound(s) && ArtifactsHaveRows(s)
  }

  predicate DiskSound(s: Store) {
    forall d :: d in s.disk.committed ==> d in s.artifacts && Committed(s.disk, d, s.artifacts[d])
  }

  predicate RowSound(s: Store, row: Row, ref: Id) {
    && (row.artifact.Some? ==> row.artifact == Some(row.digest) && row.digest in s.artifacts
                               && s.artifacts[row.digest] == row.size)
    && (row.status.Promoted? ==> row.artifact.Some? && row.digest in s.disk.committed)
    && !row.status.Abandoned?
    && (row.status.Staged? ==> HasBytes(s.disk, ref, row.digest, row.size)
                               || (row.artifact.Some? && row.digest in s.disk.committed))
  }

  predicate RowsSound(s: Store) {
    forall ref :: ref in s.rows ==> RowSound(s, s.rows[ref], ref)
  }

  ghost predicate ArtifactsHaveRows(s: Store) {
    forall d :: d in s.artifacts ==> exists ref :: ref in s.rows && s.rows[ref].artifact == Some(d)
  }

  /** Every state of a run with a patient reconciler is sound. */
  lemma SafeIsSound(w: World)
    requires Safe(w)
    ensures Sound(Store(w.disk, w.rows, w.artifacts))
  {
    forall ref | ref in w.rows ensures RowValid(w, ref) {}
  }

  lemma SoundCandidate(s: Store, digest: Id)
    requires Sound(s) && digest in s.artifacts && !CommittedExists(s.disk, digest)
    ensures Candidate(s, digest).Some? && digest !in s.disk.committed
    ensures Candidate(s, digest).value in s.rows && s.rows[Candidate(s, digest).value].artifact == Some(digest)
    ensures HasBytes(s.disk, Candidate(s, digest).value, digest, s.artifacts[digest])
  {
    hide Candidate;
    var ref :| ref in s.rows && s.rows[ref].artifact == Some(digest);
    assert RowSound(s, s.rows[ref], ref);
    assert ref in LinkedRows(s, digest);
    var x := Candidate(s, digest).value;
    assert RowSound(s, s.rows[x], x);
  }

  /** The store after the bytes under `ref` were promoted and its row marked. */
  function Mended(s: Store, ref: Id, digest: Id, at: Time): Store
    requires ref in s.rows && ref in s.disk.staging && s.disk.staging[ref].data.Some?
  {
    s.(disk := RemoveStaged(s.disk.(committed :=
                                    s.disk.committed[digest := Complete(s.disk.staging[ref].data.value, at)]), ref),
       rows := s.rows[ref := s.rows[ref].(status := RowStatus.Promoted, artifact := Some(digest))])
  }

  lemma MendedSound(s: Store, ref: Id, digest: Id, at: Time)
    requires Sound(s) && digest in s.artifacts && digest !in s.disk.committed
    requires ref in s.rows && s.rows[ref].artifact == Some(digest) && HasBytes(s.disk, ref, digest, s.artifacts[digest])
    ensures Sound(Mended(s, ref, digest, at)) && CommittedExists(Mended(s, ref, digest, at).disk, digest)
  {
    var t := Mended(s, ref, digest, at);
    assert DiskSound(t);
    assert RowSound(s, s.rows[ref], ref);
    hide DiskSound;
    forall x | x in t.rows ensures RowSound(t, t.rows[x], x) {
      assert RowSound(s, s.rows[x], x);
    }
    forall d | d in t.artifacts ensures exists x :: x in t.rows && t.rows[x].artifact == Some(d) {
      var x :| x in s.rows && s.rows[x].artifact == Some(d);
      assert t.rows[x].artifact == Some(d);
    }
  }

  lemma MendSound(o: Outcome, digest: Id, at: Time)
    requires Sound(o.store) && digest in o.store.artifacts && !o.thrown
    ensures var p := Mend(o, digest, false, at);
            Sound(p.store) && !p.thrown && p.report.unresolved == o.report.unresolved
              && CommittedExists(p.store.disk, digest)
  {
    hide Candidate, Sound;
    if !CommittedExists(o.store.disk, digest) {
      SoundCandidate(o.store, digest);
      var ref := Candidate(o.store, digest).value;
      MendedSound(o.store, ref, digest, at);
      assert Mend(o, digest, false, at).store == Mended(o.store, ref, digest, at);
    }
  }

  /** In a sound state nothing scanned stays unresolved: each scanned artifact ends with its bytes. */
  lemma {:induction false} MendsAll(o: Outcome, order: seq<Id>, at: Time)
    requires Sound(o.store) && !o.thrown && forall d :: d in order ==> d in o.store.artifacts
    ensures var p := MendAll(o, order, false, at);
            && Sound(p.store) && !p.thrown && p.report.unresolved == o.report.unresolved
            && p.store.artifacts == o.store.artifacts
            && forall d :: d in order ==> CommittedExists(p.store.disk, d)
  {
    MendsOrReports(o, order, at);
    hide Mend, CommittedExists, Sound;
    if |order| > 0 {
      MendsAll(o, order[..|order| - 1], at);
      var p := MendAll(o, order[..|order| - 1], false, at);
      MendSound(p, order[|order| - 1], at);
      MendOne(p, order[|order| - 1], at);
      KeepsCommitted(p.store.disk, MendAll(o, order, false, at).store.disk, order[..|order| - 1]);
    }
  }

  lemma KeepsCommitted(x: Disk, y: Disk, order: seq<Id>)
    requires forall d :: d in x.committed ==> d in y.committed && y.committed[d] == x.committed[d]
    requires forall d :: d in order ==> CommittedExists(x, d)
    ensures forall d :: d in order ==> CommittedExists(y, d)
  {
  }

  /** After a crash anywhere in any run with a patient reconciler, one full pass leaves committed bytes
      for every artifact. */
  lemma FullPassMendsAll(lease: nat, grace: nat, steps: seq<Step>, order: seq<Id>, at: Time)
    requires lease <= grace + 1
    requires var w := W.Run(Initial(lease, grace), steps);
             forall d :: d in order <==> d in w.artifacts
    ensures var w := W.Run(Initial(lease, grace), steps);
            var p := MendAll(Outcome(Store(w.disk, w.rows, w.artifacts), NO_REPORT, false), order, false, at);
            !p.thrown && p.report.unresolved == [] && forall d :: d in w.artifacts ==> CommittedExists(p.store.disk, d)
  {
    hide W.Run, Initial, Safe, Sound, MendAll, CommittedExists;
    InitialSafe(lease, grace);
    AlwaysRecoverable(Initial(lease, grace), steps);
    var w := W.Run(Initial(lease, grace), steps);
    SafeIsSound(w);
    MendsAll(Outcome(Store(w.disk, w.rows, w.artifacts), NO_REPORT, false), order, at);
  }

  // ---------------------------------------------------------------- the limit

  lemma {:induction false} MendAllApart(o: Outcome, order: seq<Id>, dryRun: bool, at: Time, d: Id)
    requires d !in order
    ensures CommittedExists(MendAll(o, order, dryRun, at).store.disk, d) == CommittedExists(o.store.disk, d)
  {
    hide Candidate;
    if |order| > 0 { MendAllApart(o, order[..|order| - 1], dryRun, at, d); }
  }

  lemma {:induction false} AbandonAllApart(o: Outcome, refs: seq<Id>, dryRun: bool)
    ensures AbandonAll(o, refs, dryRun).store.disk == o.store.disk && AbandonAll(o, refs, dryRun).thrown == o.thrown
    ensures AbandonAll(o, refs, dryRun).store.artifacts == o.store.artifacts
            && AbandonAll(o, refs, dryRun).store.rows.Keys == o.store.rows.Keys
  {
    if |refs| > 0 { AbandonAllApart(o, refs[..|refs| - 1], dryRun); }
  }

  lemma {:induction false} SweepAllApart(o: Outcome, refs: seq<Id>, cutoff: Time, remove: bool, dryRun: bool)
    ensures SweepAll(o, refs, cutoff, remove, dryRun).store.disk.committed == o.store.disk.committed
    ensures SweepAll(o, refs, cutoff, remove, dryRun).store.artifacts == o.store.artifacts
  {
    if |refs| > 0 { SweepAllApart(o, refs[..|refs| - 1], cutoff, remove, dryRun); }
  }

  /** How many artifacts a batch scans. */
  function Scanned(x: Options): nat { if Accepted(x) then x.limit else 0 }

  lemma KeptDisk(s: Store, order: seq<Id>, age: seq<Id>, now: Time, x: Options)
    ensures var mended := MendAll(Outcome(s, NO_REPORT, false), Prefix(order, x.limit), x.dryRun, now);
            var kept := Kept(s, order, age, now, x);
            && kept.store.disk == mended.store.disk && kept.store.artifacts == mended.store.artifacts
            && kept.thrown == mended.thrown
            && kept.store.rows.Keys == mended.store.rows.Keys
  {
    hide MendAll, AbandonAll, StaleRows;
    var mended := MendAll(Outcome(s, NO_REPORT, false), Prefix(order, x.limit), x.dryRun, now);
    AbandonAllApart(mended, Prefix(StaleRows(mended.store, age, now - x.grace, |age|), x.limit), x.dryRun);
  }

  lemma BatchDisk(s: Store, order: seq<Id>, age: seq<Id>, cursor: Option<Id>, now: Time, x: Options)
    ensures var mended := MendAll(Outcome(s, NO_REPORT, false), Prefix(order, Scanned(x)), x.dryRun, now);
            Batch(s, order, age, cursor, now, x).0.store.disk.committed == mended.store.disk.committed
            && Batch(s, order, age, cursor, now, x).0.store.artifacts == mended.store.artifacts
  {
    hide MendAll, AbandonAll, SweepAll, ListStaged, StaleRows, Kept;
    if Accepted(x) {
      KeptDisk(s, order, age, now, x);
      var kept := Kept(s, order, age, now, x);
      if !kept.thrown && ListStaged(kept.store.disk, x.limit, cursor).Ok? {
        SweepAllApart(kept, ListStaged(kept.store.disk, x.limit, cursor).value.objects, now - x.grace, x.remove,
          x.dryRun);
      }
    } else {
      NothingMended(s, order, now, x);
    }
  }

  lemma NothingMended(s: Store, order: seq<Id>, now: Time, x: Options)
    ensures MendAll(Outcome(s, NO_REPORT, false), Prefix(order, 0), x.dryRun, now) == Outcome(s, NO_REPORT, false)
  {
    assert Prefix(order, 0) == [];
  }

  /** The stores after each of a series of batches, whatever pages they visit. */
  ghost function Batches(s: Store, order: seq<Id>, age: seq<Id>, cursors: seq<Option<Id>>, now: Time, x: Options)
    : Store
  {
    if |cursors| == 0 then s
    else
      var before := Batches(s, order, age, cursors[..|cursors| - 1], now, x);
      Batch(before, order, age, cursors[|cursors| - 1], now, x).0.store
  }

  /** The cursor pages through staged objects only: no number of batches looks at an artifact beyond the
      oldest `limit`. */
  lemma {:induction false} BatchesIgnoreLater(s: Store, order: seq<Id>, age: seq<Id>, cursors: seq<Option<Id>>,
      now: Time, x: Options, d: Id)
    requires d !in Prefix(order, Scanned(x))
    ensures CommittedExists(Batches(s, order, age, cursors, now, x).disk, d) == CommittedExists(s.disk, d)
  {
    hide Batch, MendAll;
    if |cursors| > 0 {
      var t := Batches(s, order, age, cursors[..|cursors| - 1], now, x);
      BatchesIgnoreLater(s, order, age, cursors[..|cursors| - 1], now, x, d);
      BatchDisk(t, order, age, cursors[|cursors| - 1], now, x);
      MendAllApart(Outcome(t, NO_REPORT, false), Prefix(order, Scanned(x)), x.dryRun, now, d);
    }
  }

  /** Two committed artifacts whose bytes are still only staged. */
  function TwoStaged(x: Bytes, y: Bytes): Store {
    var d, e := SHA256(x), SHA256(y);
    Store(Disk(map[0 := Complete(x, 0), 1 := Complete(y, 0)], map[]),
          map[0 := Row(d, |x|, Staged, Some(d), 0), 1 := Row(e, |y|, Staged, Some(e), 0)],
          map[d := |x|, e := |y|])
  }

  /** With a limit of one, no number of batches brings back the second. */
  lemma SecondStaysMissing(x: Bytes, y: Bytes, age: seq<Id>, cursors: seq<Option<Id>>, now: Time, remove: bool)
    requires SHA256(x) != SHA256(y)
    ensures var s, order := TwoStaged(x, y), [SHA256(x), SHA256(y)];
            && Sound(s)
            && !CommittedExists(Batches(s, order, age, cursors, now, Options(1, 0, remove, false)).disk, SHA256(y))
  {
    hide Batches;
    var s := TwoStaged(x, y);
    assert s.rows[0].artifact == Some(SHA256(x)) && s.rows[1].artifact == Some(SHA256(y));
    BatchesIgnoreLater(s, [SHA256(x), SHA256(y)], age, cursors, now, Options(1, 0, remove, false), SHA256(y));
  }

  /** The exact condition for a batch to bring back every artifact: those it does not scan must have
      their bytes already. */
  lemma BatchConvergesIff(s: Store, order: seq<Id>, age: seq<Id>, cursor: Option<Id>, now: Time, x: Options)
    requires !x.dryRun && Sound(s) && forall d :: d in order <==> d in s.artifacts
    requires forall i, j :: 0 <= i < j < |order| ==> order[i] != order[j]
    ensures (forall d :: d in s.artifacts ==> CommittedExists(Batch(s, order, age, cursor, now, x).0.store.disk, d))
            <==> forall i :: Scanned(x) <= i < |order| ==> CommittedExists(s.disk, order[i])
  {
    hide Batch, MendAll, Sound;
    var n := Scanned(x);
    hide Scanned;
    var t := Batch(s, order, age, cursor, now, x).0.store;
    BatchDisk(s, order, age, cursor, now, x);
    forall d | d in Prefix(order, n) ensures d in s.artifacts {
      assert d in order;
    }
    MendsAll(Outcome(s, NO_REPORT, false), Prefix(order, n), now);
    forall i | n <= i < |order| ensures CommittedExists(t.disk, order[i]) == CommittedExists(s.disk, order[i])
           && order[i] in s.artifacts {
      assert order[i] in order;
      MendAllApart(Outcome(s, NO_REPORT, false), Prefix(order, n), x.dryRun, now, order[i]);
    }
    forall d | d in s.artifacts ensures d in Prefix(order, n) || exists i :: n <= i < |order| && order[i] == d {
      var i :| 0 <= i < |order| && order[i] == d;
      if i < n { assert Prefix(order, n)[i] == d; }
    }
  }
}
