/** The reconciliation service as it runs: loops over artifacts, rows and staged objects that update
    the store in place and count into the report. */
module ReconciliationService {
  import opened Basics
  import opened Ordering
  import opened BlobStore
  import opened ArtifactWorld
  import opened Reconciliation

  class Service {
    var disk: Disk
    var rows: map<Id, Row>
    var artifacts: map<Id, nat>
    var report: Report

    constructor (store: Store)
      ensures Contents() == store
    {
      disk, rows, artifacts, report := store.disk, store.rows, store.artifacts, NO_REPORT;
    }

    function Contents(): Store
      reads this
    {
      Store(disk, rows, artifacts)
    }

    function State(thrown: bool): Outcome
      reads this
    {
      Outcome(Contents(), report, thrown)
    }

    /** The first staged row linked to the artifact, by creation time. */
    method FindStaged(digest: Id) returns (ref: Option<Id>)
      ensures ref == Candidate(Contents(), digest)
    {
      var refs := OrderById(LinkedRows(Contents(), digest));
      LinkedListed(Contents(), digest);
      ref := None;
      for i := 0 to |refs|
        invariant ref == Earliest(rows, refs, i)
      {
        assert refs[i] in refs;
        if ref.None? || rows[refs[i]].created < rows[ref.value].created {
          ref := Some(refs[i]);
        }
      }
      if |refs| > 0 { assert refs[0] in refs; }
    }

    method MendArtifact(digest: Id, dryRun: bool, at: Time) returns (thrown: bool)
      modifies this
      ensures State(thrown) == Mend(old(State(false)), digest, dryRun, at)
    {
      hide Candidate, Promote;
      thrown := false;
      if digest !in artifacts {
        return;
      }
      report := report.(scanned := report.scanned + 1);
      if CommittedExists(disk, digest) {
        report := report.(alreadyConsistent := report.alreadyConsistent + 1);
        return;
      }
      var ref := FindStaged(digest);
      if ref.None? {
        report := report.(unresolved := report.unresolved + [MissingCommittedBytes(digest)]);
        return;
      }
      if dryRun {
        report := report.(wouldPromote := report.wouldPromote + 1);
        return;
      }
      var (after, receipt) := Promote(disk, ref.value, digest, artifacts[digest], at);
      if receipt.Err? {
        var diagnosis := Diagnosis(receipt.error, digest);
        if diagnosis.None? {
          thrown := true;
        } else {
          report := report.(unresolved := report.unresolved + [diagnosis.value]);
        }
        return;
      }
      disk := after;
      rows := rows[ref.value := rows[ref.value].(status := RowStatus.Promoted, artifact := Some(digest))];
      report := report.(promoted := report.promoted + 1);
    }

    method MendArtifacts(order: seq<Id>, dryRun: bool, at: Time) returns (thrown: bool)
      modifies this
      ensures State(thrown) == MendAll(old(State(false)), order, dryRun, at)
    {
      hide Mend;
      thrown := false;
      for i := 0 to |order|
        invariant State(false) == MendAll(old(State(false)), order[..i], dryRun, at)
      {
        assert order[..i + 1][..i] == order[..i];
        thrown := MendArtifact(order[i], dryRun, at);
        if thrown {
          RestSkipped(old(State(false)), order, i + 1, dryRun, at);
          return;
        }
      }
      assert order[..|order|] == order;
    }

    method AbandonRows(refs: seq<Id>, dryRun: bool)
      modifies this
      ensures State(false) == AbandonAll(old(State(false)), refs, dryRun)
    {
      for i := 0 to |refs|
        invariant State(false) == AbandonAll(old(State(false)), refs[..i], dryRun)
      {
        assert refs[..i + 1][..i] == refs[..i];
        var ref := refs[i];
        if ref in rows && rows[ref].artifact.None? && !(ref in disk.staging && Verified(disk.staging[ref])) {
          if dryRun {
            report := report.(wouldAbandon := report.wouldAbandon + 1);
          } else {
            rows := rows[ref := rows[ref].(status := RowStatus.Abandoned)];
            report := report.(abandoned := report.abandoned + 1);
          }
        }
      }
      assert refs[..|refs|] == refs;
    }

    method SweepObjects(refs: seq<Id>, cutoff: Time, remove: bool, dryRun: bool)
      modifies this
      ensures State(false) == SweepAll(old(State(false)), refs, cutoff, remove, dryRun)
    {
      for i := 0 to |refs|
        invariant State(false) == SweepAll(old(State(false)), refs[..i], cutoff, remove, dryRun)
      {
        assert refs[..i + 1][..i] == refs[..i];
        if Orphan(Contents(), refs[i], cutoff) {
          report := report.(orphans := report.orphans + 1);
          if remove {
            if dryRun {
              report := report.(wouldRemove := report.wouldRemove + 1);
            } else {
              disk := RemoveStaged(disk, refs[i]);
              report := report.(removed := report.removed + 1);
            }
          }
        }
      }
      assert refs[..|refs|] == refs;
    }

    method ListCandidates(age: seq<Id>, cutoff: Time) returns (refs: seq<Id>)
      ensures refs == StaleRows(Contents(), age, cutoff, |age|)
    {
      refs := [];
      for i := 0 to |age|
        invariant refs == StaleRows(Contents(), age, cutoff, i)
      {
        if age[i] in rows && rows[age[i]].status.Staged? && rows[age[i]].created < cutoff {
          refs := refs + [age[i]];
        }
      }
    }

    method ListPage(limit: nat, cursor: Option<Id>) returns (page: Result<Page>)
      ensures page == ListStaged(disk, limit, cursor)
    {
      var store := new FilesystemStore();
      store.staging, store.committed := disk.staging, disk.committed;
      page := store.ListPage(limit, cursor);
    }

    method RunBatch(order: seq<Id>, age: seq<Id>, cursor: Option<Id>, now: Time, x: Options)
        returns (thrown: bool, next: Option<Id>)
      modifies this
      ensures (State(thrown), next) == Batch(old(Contents()), order, age, cursor, now, x)
    {
      hide MendAll, AbandonAll, SweepAll, ListStaged, StaleRows;
      next := None;
      report := NO_REPORT;
      if x.limit == 0 || x.grace < 0 {
        return true, None;
      }
      var cutoff := now - x.grace;
      thrown := MendArtifacts(Prefix(order, x.limit), x.dryRun, now);
      if thrown {
        ThrownRests(State(true), Prefix(StaleRows(Contents(), age, cutoff, |age|), x.limit), x.dryRun);
        return;
      }
      var stale := ListCandidates(age, cutoff);
      AbandonRows(Prefix(stale, x.limit), x.dryRun);
      var page := ListPage(x.limit, cursor);
      if page.Err? {
        thrown := true;
        return;
      }
      SweepObjects(page.value.objects, cutoff, x.remove, x.dryRun);
      next := page.value.next;
    }
  }

  lemma {:induction false} RestSkipped(o: Outcome, order: seq<Id>, i: nat, dryRun: bool, at: Time)
    requires i <= |order| && MendAll(o, order[..i], dryRun, at).thrown
    ensures MendAll(o, order, dryRun, at) == MendAll(o, order[..i], dryRun, at)
    decreases |order| - i
  {
    if i < |order| {
      assert order[..i + 1][..i] == order[..i];
      RestSkipped(o, order, i + 1, dryRun, at);
    } else {
      assert order[..i] == order;
    }
  }

  lemma {:induction false} ThrownRests(o: Outcome, refs: seq<Id>, dryRun: bool)
    requires o.thrown
    ensures AbandonAll(o, refs, dryRun) == o
  {
    if |refs| > 0 { ThrownRests(o, refs[..|refs| - 1], dryRun); }
  }
}
