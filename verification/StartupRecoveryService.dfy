/** The startup recovery service as it runs over its database, its external action service and its
    artifact reconciliation. */
module StartupRecoveryService {
  import opened Basics
  import opened Board
  import opened RuntimeTables
  import opened RuntimeRuns
  import opened RuntimeDatabase
  import opened StartupRecovery
  import R = Recovery
  import T = RuntimeTables
  import A = ExternalActions
  import P = ExternalReconciliation
  import X = ExternalActionService
  import B = BlobStore
  import W = ArtifactWorld
  import C = Reconciliation
  import G = OrphanPaging
  import L = ReconciliationLoop
  import S = ReconciliationService

  class StartupService {
    const database: Database
    const actions: X.Service
    const artifacts: S.Service

    constructor (database: Database, actions: X.Service, artifacts: S.Service)
      ensures this.database == database && this.actions == actions && this.artifacts == artifacts
    {
      this.database, this.actions, this.artifacts := database, actions, artifacts;
    }

    function Contents(): Plant
      reads this, database, actions, artifacts
    {
      Plant(database.Snapshot(), actions.Contents(), artifacts.rows, artifacts.disk)
    }

    /** Links the staging rows of a committed result. */
    method LinkRows(xs: seq<Staged>)
      modifies artifacts`rows
      ensures artifacts.rows == Linked(old(artifacts.rows), xs, |xs|)
    {
      for i := 0 to |xs|
        invariant artifacts.rows == Linked(old(artifacts.rows), xs, i)
      {
        if xs[i].ref in artifacts.rows {
          artifacts.rows := artifacts.rows[xs[i].ref := artifacts.rows[xs[i].ref].(artifact := Some(xs[i].digest))];
        }
      }
    }

    /** Promotes one artifact after the other and goes on after an error. */
    method Promote(xs: seq<Staged>, at: Time)
      modifies artifacts`rows, artifacts`disk
      ensures (artifacts.disk, artifacts.rows) == Promoted(old(artifacts.disk), old(artifacts.rows), xs, |xs|, at)
    {
      hide B.Promote;
      for i := 0 to |xs|
        invariant (artifacts.disk, artifacts.rows) == Promoted(old(artifacts.disk), old(artifacts.rows), xs, i, at)
      {
        var x := xs[i];
        var (after, receipt) := B.Promote(artifacts.disk, x.ref, x.digest, x.kind.size, at);
        if receipt.Ok? {
          artifacts.disk := after;
          if x.ref in artifacts.rows {
            artifacts.rows := artifacts.rows[x.ref :=
              artifacts.rows[x.ref].(status := W.RowStatus.Promoted, artifact := Some(x.digest))];
          }
        }
      }
    }

    method SubmitStored(hasStore: bool, a: Id, passes: bool) returns (outcome: Outcome)
      requires a in database.submissions
      modifies database, artifacts`rows, artifacts`disk
      ensures (Contents(), outcome) == Submit(old(Contents()), hasStore, a, passes)
    {
      hide T.Commit, Judge, Linked, Promoted;
      var x := database.submissions[a];
      var verdict := Judge(Contents(), hasStore, x.result, passes);
      outcome := database.Commit(x.result, x.digest, true, verdict);
      if !outcome.Committed? {
        return;
      }
      LinkRows(ArtifactsOf(x.result));
      if hasStore {
        Promote(ArtifactsOf(x.result), database.clock);
      }
    }

    method ReplayStored(hasStore: bool, a: Id, passes: bool) returns (thrown: bool, committed: nat, rejected: nat)
      modifies database, artifacts`rows, artifacts`disk
      ensures Replaying(Contents(), committed, rejected, thrown)
              == ReplayOver(Replaying(old(Contents()), 0, 0, false), hasStore, a, passes)
    {
      hide Submit;
      thrown, committed, rejected := false, 0, 0;
      if a !in database.submissions {
        thrown := true;
        return;
      }
      var outcome := SubmitStored(hasStore, a, passes);
      if outcome.Aborted? {
        thrown := true;
      } else if outcome.Rejected? {
        rejected := 1;
      } else {
        committed := 1;
      }
    }

    method ReplaySubmissions(hasStore: bool, batch: seq<Id>, checks: Id -> bool)
        returns (thrown: bool, committed: nat, rejected: nat)
      modifies database, artifacts`rows, artifacts`disk
      ensures Replaying(Contents(), committed, rejected, thrown)
              == ReplayAll(old(Contents()), hasStore, batch, |batch|, checks)
    {
      hide ReplayOver, Contents;
      thrown, committed, rejected := false, 0, 0;
      for i := 0 to |batch|
        invariant Replaying(Contents(), committed, rejected, false)
                  == ReplayAll(old(Contents()), hasStore, batch, i, checks)
      {
        OverCounts(Contents(), committed, rejected, hasStore, batch[i], checks(batch[i]));
        var c: nat, r: nat;
        thrown, c, r := ReplayStored(hasStore, batch[i], checks(batch[i]));
        committed, rejected := committed + c, rejected + r;
        if thrown {
          ReplayEnds(old(Contents()), hasStore, batch, i + 1, |batch|, checks);
          return;
        }
      }
    }

    /** Batch after batch, until one throws, none is left or the cap is hit. */
    method ReconcileArtifacts(order: seq<Id>, age: seq<Id>, now: Time, x: C.Options)
        returns (report: C.Report, thrown: bool, next: Option<Id>)
      modifies artifacts
      ensures L.Loop(artifacts.Contents(), report, thrown, next)
              == L.Reconcile(old(artifacts.Contents()), None, order, age, now, x, G.MAX_BATCHES)
    {
      hide C.Batch;
      var batches := 1;
      thrown, next := artifacts.RunBatch(order, age, None, now, x);
      report := artifacts.report;
      while !thrown && next.Some? && batches < G.MAX_BATCHES
        invariant 1 <= batches <= G.MAX_BATCHES
        invariant L.Extended(L.Loop(artifacts.Contents(), report, thrown, next), order, age, now, x,
                  G.MAX_BATCHES - batches)
                  == L.Reconcile(old(artifacts.Contents()), None, order, age, now, x, G.MAX_BATCHES)
        decreases G.MAX_BATCHES - batches
      {
        L.ExtendedNext(L.Loop(artifacts.Contents(), report, thrown, next), order, age, now, x, G.MAX_BATCHES - batches);
        thrown, next := artifacts.RunBatch(order, age, next, now, x);
        report := L.Sum(report, artifacts.report);
        batches := batches + 1;
      }
    }

    method Run(d: Setup, i: Inputs)
      returns (ended: Ended, scanned: nat, committed: nat, rejected: nat, recovered: Recovered, orphans: nat,
        settled: nat)
      requires A.RowsValid(actions.Contents())
      modifies database, actions, artifacts
      ensures Account(Contents(), ended, scanned, committed, rejected, recovered, orphans, settled)
              == Recover(old(Contents()), d, i)
    {
      hide R.RepairRest, ReplayAll, T.ReportRecovery, L.Reconcile, P.ReconcilePending, A.RowsValid;
      recovered, orphans, settled := Recovered(0, 0, 0, 0), 0, 0;
      var batch := R.Batch(i.pending, d.commits);
      scanned := |batch|;
      var thrown: bool;
      thrown, committed, rejected := ReplaySubmissions(d.hasStore, batch, i.checks);
      if thrown {
        return InReplay, scanned, committed, rejected, recovered, orphans, settled;
      }
      recovered, orphans, settled := database.RepairRest(i.now);
      ended := FinishRun(d, i);
    }

    method FinishRun(d: Setup, i: Inputs) returns (ended: Ended)
      requires A.RowsValid(actions.Contents())
      modifies database, actions, artifacts
      ensures (Contents(), ended) == Finish(old(Contents()), d, i)
    {
      hide T.ReportRecovery, L.Reconcile, P.ReconcilePending, A.RowsValid;
      if d.hasActions {
        var scanned, reconciled, failed, indeterminate,
          thrown := actions.ReconcilePending(i.candidates, d.actionLimit, i.answers);
        if thrown {
          return InActions;
        }
      }
      if d.hasStore {
        artifacts.artifacts := Sizes(database.artifacts);
        var report, thrown, next := ReconcileArtifacts(i.order, i.age, database.clock, d.artifacts);
        if thrown {
          return InArtifacts;
        }
      }
      database.ReportRecovery(i.root);
      ended := if 1 <= d.projections <= MAX_PROJECTIONS then Finished else InProjections;
    }
  }

  lemma OverCounts(p: Plant, committed: nat, rejected: nat, hasStore: bool, a: Id, passes: bool)
    ensures var s := ReplayOver(Replaying(p, 0, 0, false), hasStore, a, passes);
            ReplayOver(Replaying(p, committed, rejected, false), hasStore, a, passes)
            == Replaying(s.plant, committed + s.committed, rejected + s.rejected, s.thrown)
  {
    hide Submit;
  }

  /** Once thrown, the rest of the batch is not looked at. */
  lemma {:induction false} ReplayEnds(p: Plant, hasStore: bool, batch: seq<Id>, i: nat, n: nat, checks: Id -> bool)
    requires i <= n <= |batch| && ReplayAll(p, hasStore, batch, i, checks).thrown
    ensures ReplayAll(p, hasStore, batch, n, checks) == ReplayAll(p, hasStore, batch, i, checks)
  {
    hide Submit;
    if i < n { ReplayEnds(p, hasStore, batch, i, n - 1, checks); }
  }
}
