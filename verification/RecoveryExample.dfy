/** Two concrete runs whose recovery can never finish.  In the first a worker reports `cancelled` for
    the attempt it holds, the hand-off stores the report, and every replay of it is aborted by the check
    constraint on attempt failures.  In the second a promotion crashes while it removes the staged
    directory, and every listing meets what is left of it. */
module RecoveryExample {
  import opened Basics
  import opened Ordering
  import opened Board
  import opened RuntimeTables
  import opened RuntimeConsistency
  import opened RuntimeRuns
  import opened Recovery
  import opened StartupRecovery
  import R = Recovery
  import A = ExternalActions
  import P = ExternalReconciliation
  import B = BlobStore
  import W = ArtifactWorld
  import L = ReconciliationLoop

  function Start(): World {
    Initial(map[0 := Region(Lifecycle.Running, 0)], map[], 0)
  }

  function CancelledReport(): Result {
    Result(2, 3, 4, 0, ResultStatus.Cancelled, [], None, [], [],
           map[CpuMilliseconds := 0, WallMilliseconds := 0, InputBytes := 0, OutputBytes := 0, ExternalCalls := 0],
             false)
  }

  const COMMAND := AcceptCommand(0, 7, [5])
  const LEASE := FirstLease({1}, 1, 0, 5, 7, 60_000)
  const HANDOFF := HandOff(CancelledReport(), 9, true)

  /** The report is stored, then `ms` milliseconds pass. */
  ghost function Stuck(ms: nat): Tables {
    Apply(Apply(Apply(Apply(Start(), COMMAND), LEASE), HANDOFF), Tick(ms)).tables
  }

  lemma CommandRows()
    ensures var t := Apply(Start(), COMMAND).tables;
            && t.board.executions == map[] && t.board.attempts == map[]
            && t.board.deliveries == map[1 := Delivery(0, 5, 7, DeliveryStatus.Ready, None, 0, 0)]
            && t.nextId == 2 && t.clock == 0 && t.regions == map[0 := Region(Lifecycle.Running, 0)]
            && t.submissions == map[]
  {
    var t := InsertEvent(Start().tables, 0, CommandAccepted, CommandStream(0), 7, None);
    assert Route(t, 0, 7, [5], 0) == t;
    assert Route(t, 0, 7, [5], 1).board.deliveries == map[1 := Delivery(0, 5, 7, DeliveryStatus.Ready, None, 0, 0)];
  }

  lemma LeaseRows()
    ensures var t := Apply(Apply(Start(), COMMAND), LEASE).tables;
            var lease := Lease(4, 60_000);
            && t.board.executions == map[2 := Execution(0, 5, 0, 1, {1}, ExecutionStatus.Running, None)]
            && t.board.attempts == map[3 := Attempt(2, 1, AttemptStatus.Leased, Some(lease), 0, None)]
            && t.board.deliveries == map[1 := Delivery(0, 5, 7, DeliveryStatus.Leased, Some(lease), 0, 1)]
            && t.clock == 0 && t.regions == map[0 := Region(Lifecycle.Running, 0)] && t.submissions == map[]
  {
    hide COMMAND;
    CommandRows();
  }

  lemma StuckRows(ms: nat)
    ensures var t := Stuck(ms);
            var lease := Lease(4, 60_000);
            && t.board.executions == map[2 := Execution(0, 5, 0, 1, {1}, ExecutionStatus.Running, None)]
            && t.board.attempts == map[3 := Attempt(2, 1, AttemptStatus.Leased, Some(lease), 0, None)]
            && t.board.deliveries == map[1 := Delivery(0, 5, 7, DeliveryStatus.Leased, Some(lease), 0, 1)]
            && t.clock == ms && t.regions == map[0 := Region(Lifecycle.Running, 0)]
            && t.submissions == map[3 := Submission(9, CancelledReport(), false)]
  {
    LeaseRows();
  }

  lemma StuckConsistent(ms: nat)
    ensures Consistent(Stuck(ms))
  {
    hide Apply, Consistent, Sweeping;
    InitialReliable(map[0 := Region(Lifecycle.Running, 0)], map[], 0);
    StepReliable(Start(), COMMAND);
    StepReliable(Apply(Start(), COMMAND), LEASE);
    StepReliable(Apply(Apply(Start(), COMMAND), LEASE), HANDOFF);
    StepReliable(Apply(Apply(Apply(Start(), COMMAND), LEASE), HANDOFF), Tick(ms));
  }

  lemma ReportValid()
    ensures UsageValid(CancelledReport().usage)
  {
    assert CancelledReport().usage.Keys == (set c | c in COUNTERS);
  }

  lemma StuckPoisoned(ms: nat, verdicts: Id -> Verdict)
    requires !verdicts(3).Inadmissible?
    ensures Poisoned(Stuck(ms), 3, verdicts)
  {
    StuckRows(ms);
    ReportValid();
    hide Stuck, UsageValid;
    assert AllStaged(CancelledReport()) == [] && ArtifactsOf(CancelledReport()) == [];
  }

  lemma TwoDiffer(xs: seq<Id>)
    requires Distinct(xs)
    ensures |xs| > 1 ==> exists a, b :: a in xs && b in xs && a != b
  {
    if |xs| > 1 { assert xs[0] in xs && xs[1] in xs && xs[0] != xs[1]; }
  }

  /** Only the report is pending, and it is reached by every batch. */
  lemma StuckLists(ms: nat, pending: seq<Id>, commits: nat)
    requires Lists(pending, Stuck(ms)) && commits > 0
    ensures Batch(pending, commits) == [3]
  {
    StuckRows(ms);
    hide Stuck;
    assert forall a :: a in pending <==> a == 3;
    assert 3 in pending;
    TwoDiffer(pending);
  }

  lemma StuckVerdict(p: Plant, d: Setup, i: Inputs, ms: nat)
    requires p.tables == Stuck(ms) && Batch(i.pending, d.commits) == [3] && i.checks(3)
    ensures RunVerdicts(p, d, i)(3) == Admissible
  {
    StuckRows(ms);
    hide Stuck;
    PlaceOf([3], 0);
    assert AllStaged(CancelledReport()) == [] && ArtifactsOf(CancelledReport()) == [];
    assert ReplayAll(p, d.hasStore, [3], 0, i.checks) == Replaying(p, 0, 0, false);
  }

  /** Every recovery of this reachable state is thrown however late it runs and whatever it is set up
      with, and changes nothing: the attempt whose lease has expired stays active. */
  lemma CancelledReportBlocksRecovery(p: Plant, d: Setup, i: Inputs, ms: nat)
    requires p.tables == Stuck(ms) && A.RowsValid(p.actions) && L.Honest(p.disk) && Asked(p, i)
    requires d.commits > 0 && i.checks(3)
    ensures ms >= 60_000 ==> Expired(Stuck(ms).board, 3, ms)
    ensures Starts(p, i) && Recover(p, d, i).ended == InReplay && Recover(p, d, i).plant == p
  {
    StuckConsistent(ms);
    StuckLists(ms, i.pending, d.commits);
    StuckVerdict(p, d, i, ms);
    StuckPoisoned(ms, RunVerdicts(p, d, i));
    StuckRows(ms);
    hide Consistent, Stuck, Starts, RunVerdicts, Fate, Batch, Recover, Lists, Commit, Judge, CancelledReport, Expired;
    ReportAborts(p, d, i, ms);
  }

  lemma ReportAborts(p: Plant, d: Setup, i: Inputs, ms: nat)
    requires p.tables == Stuck(ms) && Batch(i.pending, d.commits) == [3] && Poisoned(p.tables, 3, RunVerdicts(p, d, i))
    ensures Recover(p, d, i).ended == InReplay && Recover(p, d, i).plant == p
  {
    hide Stuck, Batch, Refusal, RepairRest, Finish, Verdicts, Judge, CommitTransaction, Promoted, Linked;
    var x := p.tables.submissions[3];
    assert ReplayAll(p, d.hasStore, [3], 0, i.checks) == Replaying(p, 0, 0, false);
    TurnVerdict(p, d.hasStore, [3], 0, i.checks);
    RefusedUnchanged(p.tables, x.result, x.digest, true, RunVerdicts(p, d, i)(3));
    var s := ReplayOver(Replaying(p, 0, 0, false), d.hasStore, 3, i.checks(3));
    assert s == Replaying(p, 0, 0, true);
    assert ReplayAll(p, d.hasStore, [3], 1, i.checks) == s;
  }

  // ---------------------------------------------------------------- a torn staged directory

  /** An upload is staged and committed, and its promotion crashes after it published the bytes and
      deleted the data file of the staged directory. */
  function CrashedPromotion(bytes: B.Bytes): seq<W.Step> {
    Uploaded(bytes) + Committed1() + Crashed()
  }

  function Uploaded(bytes: B.Bytes): seq<W.Step> {
    [W.Authorize(0, B.SHA256(bytes), |bytes|, 1), W.Begin(0), W.Receive(0, bytes)]
  }

  function Committed1(): seq<W.Step> { [W.Register(0), W.Validate(0), W.CommitMetadata({0})] }

  function Crashed(): seq<W.Step> {
    [W.StartPromotion(0, 0), W.PublishBytes(0), W.TearStaged(0, true, false), W.CrashJob(0)]
  }

  lemma UploadIsThere(lease: nat, grace: nat, bytes: B.Bytes)
    requires lease > 0
    ensures var w := W.Run(W.Initial(lease, grace), Uploaded(bytes));
            w == W.Initial(lease, grace).(uploads := map[0 := W.Upload(B.SHA256(bytes), |bytes|, 0, 1)], began := {0},
              received := {0},
                                          disk := B.Disk(map[0 := B.Complete(bytes, 0)], map[]))
  {
    var w := W.Initial(lease, grace);
    W.RunThree(w, W.Authorize(0, B.SHA256(bytes), |bytes|, 1), W.Begin(0), W.Receive(0, bytes));
    hide W.Run;
    var v := W.Apply(W.Apply(w, W.Authorize(0, B.SHA256(bytes), |bytes|, 1)), W.Begin(0));
    assert v == w.(uploads := map[0 := W.Upload(B.SHA256(bytes), |bytes|, 0, 1)], began := {0});
  }

  lemma CommitIsThere(w: W.World, bytes: B.Bytes)
    requires 0 in w.received && 0 in w.uploads && w.uploads[0] == W.Upload(B.SHA256(bytes), |bytes|, 0, 1)
             && w.clock == 0
    requires w.rows == map[] && w.artifacts == map[] && w.disk == B.Disk(map[0 := B.Complete(bytes, 0)], map[])
             && w.jobs == map[]
    ensures var v := W.Run(w, Committed1());
            && v.artifacts == map[B.SHA256(bytes) := |bytes|] && v.disk == w.disk && v.clock == w.clock
            && v.jobs == map[]
            && 0 in v.rows && v.rows[0] == W.Row(B.SHA256(bytes), |bytes|, W.RowStatus.Staged, Some(B.SHA256(bytes)), 0)
  {
    W.RunThree(w, W.Register(0), W.Validate(0), W.CommitMetadata({0}));
    hide W.Run;
    var u := W.Apply(W.Apply(w, W.Register(0)), W.Validate(0));
    assert u == w.(rows := map[0 := W.Row(B.SHA256(bytes), |bytes|, W.RowStatus.Staged, None, 0)],
      validated := w.validated + {0});
    LinkIsThere(u, bytes);
  }

  lemma LinkIsThere(u: W.World, bytes: B.Bytes)
    requires u.rows == map[0 := W.Row(B.SHA256(bytes), |bytes|, W.RowStatus.Staged, None, 0)] && 0 in u.validated
             && u.artifacts == map[]
    ensures var v := W.Apply(u, W.CommitMetadata({0}));
            && v == u.(rows := v.rows, artifacts := map[B.SHA256(bytes) := |bytes|])
            && 0 in v.rows && v.rows[0] == W.Row(B.SHA256(bytes), |bytes|, W.RowStatus.Staged, Some(B.SHA256(bytes)), 0)
  {
    assert W.Linkable(u, {0});
    var added := W.NewArtifacts(u, {0});
    assert (set ref | ref in {0} :: u.rows[ref].digest) == {B.SHA256(bytes)};
    assert added.Keys == {B.SHA256(bytes)};
    assert added == map[B.SHA256(bytes) := |bytes|];
  }

  lemma PublishIsThere(v: W.World, bytes: B.Bytes)
    requires v.jobs == map[] && v.clock == 0 && v.disk == B.Disk(map[0 := B.Complete(bytes, 0)], map[])
    requires 0 in v.rows && v.rows[0] == W.Row(B.SHA256(bytes), |bytes|, W.RowStatus.Staged, Some(B.SHA256(bytes)), 0)
    ensures var x := W.Apply(W.Apply(v, W.StartPromotion(0, 0)), W.PublishBytes(0));
            && x.artifacts == v.artifacts && x.rows == v.rows
            && x.disk == B.Disk(map[0 := B.Complete(bytes, 0)], map[B.SHA256(bytes) := B.Complete(bytes, 0)])
            && x.jobs == map[0 := W.Job(0, B.SHA256(bytes), |bytes|, W.Removing)]
  {
    var u := W.Apply(v, W.StartPromotion(0, 0));
    assert u == v.(jobs := map[0 := W.Job(0, B.SHA256(bytes), |bytes|, W.Publishing)]);
    assert W.Apply(u, W.PublishBytes(0)) == W.ApplyDisk(u, W.PublishBytes(0));
    hide W.Apply;
  }

  lemma TearIsThere(x: W.World, bytes: B.Bytes)
    requires x.disk == B.Disk(map[0 := B.Complete(bytes, 0)], map[B.SHA256(bytes) := B.Complete(bytes, 0)])
    requires x.jobs == map[0 := W.Job(0, B.SHA256(bytes), |bytes|, W.Removing)]
    ensures var w := W.Apply(W.Apply(x, W.TearStaged(0, true, false)), W.CrashJob(0));
            && w.artifacts == x.artifacts && w.rows == x.rows
            && w.disk == B.Disk(map[0 := B.Directory(None, Some(B.Measure(bytes)), 0)],
               map[B.SHA256(bytes) := B.Complete(bytes, 0)])
  {
    var y := W.Apply(x, W.TearStaged(0, true, false));
    assert y == W.ApplyDisk(x, W.TearStaged(0, true, false));
    assert y.disk.staging == map[0 := B.Directory(None, Some(B.Measure(bytes)), 0)];
  }

  lemma CrashIsThere(v: W.World, bytes: B.Bytes)
    requires v.jobs == map[] && v.clock == 0 && v.disk == B.Disk(map[0 := B.Complete(bytes, 0)], map[])
    requires 0 in v.rows && v.rows[0] == W.Row(B.SHA256(bytes), |bytes|, W.RowStatus.Staged, Some(B.SHA256(bytes)), 0)
    ensures var w := W.Run(v, Crashed());
            && w.artifacts == v.artifacts && w.rows == v.rows
            && w.disk == B.Disk(map[0 := B.Directory(None, Some(B.Measure(bytes)), 0)],
               map[B.SHA256(bytes) := B.Complete(bytes, 0)])
  {
    hide W.Apply;
    assert Crashed()[..3] == [W.StartPromotion(0, 0), W.PublishBytes(0), W.TearStaged(0, true, false)];
    assert W.Run(v, Crashed()) == W.Apply(W.Run(v, Crashed()[..3]), W.CrashJob(0));
    hide W.Run;
    W.RunThree(v, W.StartPromotion(0, 0), W.PublishBytes(0), W.TearStaged(0, true, false));
    PublishIsThere(v, bytes);
    TearIsThere(W.Apply(W.Apply(v, W.StartPromotion(0, 0)), W.PublishBytes(0)), bytes);
  }

  /** The run: the artifact is committed and its bytes are published, and all that is staged is what is
      left of its directory. */
  lemma CrashedPromotionTears(lease: nat, grace: nat, bytes: B.Bytes)
    requires lease > 0
    ensures var w := W.Run(W.Initial(lease, grace), CrashedPromotion(bytes));
            && w.artifacts == map[B.SHA256(bytes) := |bytes|] && W.Committed(w.disk, B.SHA256(bytes), |bytes|)
            && L.Honest(w.disk) && w.disk.staging.Keys == {0} && B.LostFile(w.disk, 0)
  {
    hide W.Run, W.Initial, Uploaded, Committed1, Crashed;
    var i := W.Initial(lease, grace);
    UploadIsThere(lease, grace, bytes);
    InitialRows(lease, grace);
    CommitIsThere(W.Run(i, Uploaded(bytes)), bytes);
    CrashIsThere(W.Run(W.Run(i, Uploaded(bytes)), Committed1()), bytes);
    W.RunJoins(i, Uploaded(bytes), Committed1());
    W.RunJoins(i, Uploaded(bytes) + Committed1(), Crashed());
  }

  lemma InitialRows(lease: nat, grace: nat)
    ensures var w := W.Initial(lease, grace); w.rows == map[] && w.artifacts == map[] && w.jobs == map[] && w.clock == 0
  {
  }

  /** Tables in which that artifact is recorded. */
  ghost function Recorded1(bytes: B.Bytes): Tables {
    Apply(Start(), PublishArtifact(B.SHA256(bytes), ArtifactKind(|bytes|, 0, 0))).tables
  }

  lemma RecordedRows(bytes: B.Bytes)
    ensures var t := Recorded1(bytes);
            && t.submissions == map[] && t.events == [] && t.board == Board(map[], map[], map[])
            && t.regions == map[0 := Region(Lifecycle.Running, 0)]
            && t.artifacts == map[B.SHA256(bytes) := ArtifactKind(|bytes|, 0, 0)]
            && Sizes(t.artifacts) == map[B.SHA256(bytes) := |bytes|]
  {
  }

  lemma RecordedConsistent(bytes: B.Bytes)
    ensures Consistent(Recorded1(bytes))
  {
    hide Consistent, Sweeping, Apply, Initial;
    InitialReliable(map[0 := Region(Lifecycle.Running, 0)], map[], 0);
    StepReliable(Start(), PublishArtifact(B.SHA256(bytes), ArtifactKind(|bytes|, 0, 0)));
  }

  /** The plant after the run. */
  ghost function TornPlant(lease: nat, grace: nat, bytes: B.Bytes, actions: A.Rows): Plant {
    var w := W.Run(W.Initial(lease, grace), CrashedPromotion(bytes));
    Plant(Recorded1(bytes), actions, w.rows, w.disk)
  }

  /** It is a state that a recovery can meet, whatever the external actions are. */
  lemma TornPlantOrderly(lease: nat, grace: nat, bytes: B.Bytes, actions: A.Rows)
    requires lease > 0 && A.RowsValid(actions)
    ensures var w := W.Run(W.Initial(lease, grace), CrashedPromotion(bytes));
            var p := TornPlant(lease, grace, bytes, actions);
            && Orderly(p) && Sizes(p.tables.artifacts) == w.artifacts
            && p.disk.staging.Keys == {0} && B.LostFile(p.disk, 0)
  {
    hide W.Run, W.Initial, CrashedPromotion, Consistent, L.Honest, A.RowsValid, Recorded1;
    RecordedConsistent(bytes);
    RecordedRows(bytes);
    CrashedPromotionTears(lease, grace, bytes);
  }

  /** Nothing is pending there and no result is poisoned, and yet every recovery with a blob store that
      gets past its external actions throws over its artifacts, reports nothing and leaves the directory
      behind for the next. */
  lemma TornRemovalBlocksRecovery(lease: nat, grace: nat, bytes: B.Bytes, actions: A.Rows, d: Setup, i: Inputs)
    requires lease > 0 && A.RowsValid(actions) && Asked(TornPlant(lease, grace, bytes, actions), i)
    requires d.hasStore && !ActionsFail(d, i)
    ensures var p := TornPlant(lease, grace, bytes, actions);
            && Starts(p, i) && !Poisons(p, d, i)
            && Recover(p, d, i).ended == InArtifacts && Recover(p, d, i).plant.tables.events == []
            && B.LostFile(Recover(p, d, i).plant.disk, 0)
  {
    hide W.Run, W.Initial, CrashedPromotion, Recover, ActionsFail, Orderly, Asked, Poisons, Recorded1, B.LostFile;
    var p := TornPlant(lease, grace, bytes, actions);
    TornPlantOrderly(lease, grace, bytes, actions);
    RecordedRows(bytes);
    NothingPoisons(p, d, i);
    assert Below({0}, 0) == {};
    BlockedThrows(p, d, i, 0);
    RecoveryThrowsIff(p, d, i);
    QuietEvents(p, d, i, bytes);
  }

  lemma NothingPoisons(p: Plant, d: Setup, i: Inputs)
    requires p.tables.submissions == map[]
    ensures !Poisons(p, d, i)
  {
    hide Met, Verdicts;
  }

  lemma QuietEvents(p: Plant, d: Setup, i: Inputs, bytes: B.Bytes)
    requires p.tables == Recorded1(bytes) && Starts(p, i) && Recover(p, d, i).ended == InArtifacts
    ensures Recover(p, d, i).plant.tables.events == []
  {
    hide Recover, Verdicts, Finish, Consistent, A.RowsValid, P.Candidates, L.Honest, Recorded1, Lists, Repair, Settled,
      ReportRecovery, PassOver;
    RecoveryLeaves(p, d, i);
    RecordedRows(bytes);
    EmptyRepair(p.tables, i.now, i.pending, d.commits, RunVerdicts(p, d, i));
  }

  lemma EmptyRepair(t: Tables, now: Time, pending: seq<Id>, limit: nat, verdicts: Id -> Verdict)
    requires t.submissions == map[] && t.board == Board(map[], map[], map[]) && Lists(pending, t) && Consistent(t)
             && t.events == []
    requires t.regions == map[0 := Region(Lifecycle.Running, 0)]
    ensures Repair(t, now, pending, limit, verdicts).tables.events == []
  {
    hide Consistent, Repair;
    EmptyMended(t, now);
    hide Mended;
    assert R.Pending(t) == {};
    QuietRepair(t, now, pending, limit, verdicts);
  }

  lemma EmptyMended(t: Tables, now: Time)
    requires t.board == Board(map[], map[], map[]) && Consistent(t)
             && t.regions == map[0 := Region(Lifecycle.Running, 0)]
    ensures Mended(t, now)
  {
    hide Consistent;
    assert ExposeOrphans(t, now).board == t.board;
  }
}
