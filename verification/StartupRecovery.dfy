/** The whole startup recovery: the tables with the promotions that replayed results cause, then the
    external actions, then the artifacts, then its report and the projections.  Each phase can end it
    with an error, and what the earlier phases did stays. */
module StartupRecovery {
  import opened Basics
  import opened Ordering
  import opened Board
  import opened RuntimeTables
  import opened RuntimeConsistency
  import opened RuntimeRuns
  import opened Recovery
  import RuntimeGuarantees
  import R = Recovery
  import A = ExternalActions
  import P = ExternalReconciliation
  import B = BlobStore
  import W = ArtifactWorld
  import C = Reconciliation
  import G = OrphanPaging
  import L = ReconciliationLoop

  /** Tables, external actions, staging rows and disk. */
  datatype Plant = Plant(tables: Tables, actions: A.Rows, rows: map<Id, W.Row>, disk: B.Disk)

  /** How the service was set up: whether it has a blob store and an external action service, and its
      batch sizes. */
  datatype Setup = Setup(hasStore: bool, hasActions: bool, commits: nat, actionLimit: nat, artifacts: C.Options,
      projections: int)

  /** What one recovery meets: its time, the answers to its queries, the checks that are not modelled,
      and the answers of the provider. */
  datatype Inputs = Inputs(
    now: Time,
    pending: seq<Id>,
    checks: Id -> bool,
    candidates: seq<Id>,
    answers: Id -> P.Answer,
    order: seq<Id>,
    age: seq<Id>,
    root: Option<Id>)

  function Sizes(artifacts: map<Id, ArtifactKind>): map<Id, nat> { map d | d in artifacts :: artifacts[d].size }

  function StoreOf(p: Plant): C.Store { C.Store(p.disk, p.rows, Sizes(p.tables.artifacts)) }

  // ---------------------------------------------------------------- replaying with promotions

  predicate RowMatches(rows: map<Id, W.Row>, x: Staged) {
    x.ref in rows && rows[x.ref].status.Staged? && rows[x.ref].digest == x.digest && rows[x.ref].size == x.kind.size
  }

  predicate BytesThere(disk: B.Disk, x: Staged) { W.HasBytes(disk, x.ref, x.digest, x.kind.size) }

  /** `validateStaged` over all artifacts a result names, its request artifacts included; `passes` stands for
      the checks of ports, schemas, events, grants and proposals.  A missing blob store is met at the
      first artifact. */
  function Judge(p: Plant, hasStore: bool, r: Result, passes: bool): Verdict {
    var xs := AllStaged(r) + r.requests;
    if !passes then Inadmissible
    else if r.status.Completed? && !hasStore && |xs| > 0 then
      (if RowMatches(p.rows, xs[0]) then Unavailable else Inadmissible)
    else if (forall x :: x in xs ==> RowMatches(p.rows, x))
         && (r.status.Completed? ==> forall x :: x in xs ==> BytesThere(p.disk, x)) then Admissible
    else Inadmissible
  }

  /** Links the rows of the first `n` staged artifacts to their artifacts. */
  function Linked(rows: map<Id, W.Row>, xs: seq<Staged>, n: nat): map<Id, W.Row>
    requires n <= |xs|
  {
    if n == 0 then rows
    else
      var m := Linked(rows, xs, n - 1);
      var x := xs[n - 1];
      if x.ref in m then m[x.ref := m[x.ref].(artifact := Some(x.digest))] else m
  }

  /** The promotions behind a commit, whose errors are swallowed. */
  function Promoted(disk: B.Disk, rows: map<Id, W.Row>, xs: seq<Staged>, n: nat, at: Time): (B.Disk, map<Id, W.Row>)
    requires n <= |xs|
  {
    if n == 0 then (disk, rows)
    else
      var (d, m) := Promoted(disk, rows, xs, n - 1, at);
      var x := xs[n - 1];
      match B.Promote(d, x.ref, x.digest, x.kind.size, at)
      case (_, Err(_)) => (d, m)
      case (after, Ok(_)) =>
        (after, if x.ref in m then m[x.ref := m[x.ref].(status := W.RowStatus.Promoted, artifact := Some(x.digest))]
          else m)
  }

  /** `commitSubmittedResult` with an expired lease allowed. */
  function Submit(p: Plant, hasStore: bool, a: Id, passes: bool): (Plant, Outcome)
    requires a in p.tables.submissions
  {
    var x := p.tables.submissions[a];
    var (t, outcome) := Commit(p.tables, x.result, x.digest, true, Judge(p, hasStore, x.result, passes));
    var q := p.(tables := t);
    if !outcome.Committed? then (q, outcome)
    else
      var xs := ArtifactsOf(x.result);
      var m := Linked(p.rows, xs, |xs|);
      if !hasStore then (q.(rows := m), outcome)
      else
        var (disk, rows) := Promoted(p.disk, m, xs, |xs|, t.clock);
        (q.(disk := disk, rows := rows), outcome)
  }

  datatype Replaying = Replaying(plant: Plant, committed: nat, rejected: nat, thrown: bool)

  function ReplayOver(s: Replaying, hasStore: bool, a: Id, passes: bool): Replaying {
    if s.thrown || a !in s.plant.tables.submissions then s.(thrown := true)
    else
      var (p, outcome) := Submit(s.plant, hasStore, a, passes);
      if outcome.Aborted? then s.(plant := p, thrown := true)
      else if outcome.Rejected? then s.(plant := p, rejected := s.rejected + 1)
      else s.(plant := p, committed := s.committed + 1)
  }

  function ReplayAll(p: Plant, hasStore: bool, batch: seq<Id>, n: nat, checks: Id -> bool): Replaying
    requires n <= |batch|
  {
    if n == 0 then Replaying(p, 0, 0, false)
    else ReplayOver(ReplayAll(p, hasStore, batch, n - 1, checks), hasStore, batch[n - 1], checks(batch[n - 1]))
  }

  // ---------------------------------------------------------------- the recovery

  datatype Ended = InReplay | InActions | InArtifacts | InProjections | Finished

  /** The plant afterwards, the phase it ended in, and the counts over the tables. */
  datatype Account = Account(plant: Plant, ended: Ended, scanned: nat, committed: nat, rejected: nat,
      recovered: Recovered, orphans: nat, settled: nat)

  const MAX_PROJECTIONS := 10_000

  ghost function PassOver(p: Plant, d: Setup, i: Inputs): P.Pass {
    if d.hasActions then P.ReconcilePending(p.actions, i.candidates, d.actionLimit, i.answers) else P.Start(p.actions)
  }

  ghost function LoopOver(p: Plant, d: Setup, i: Inputs): L.Loop {
    if d.hasStore then L.Reconcile(StoreOf(p), None, i.order, i.age, p.tables.clock, d.artifacts, G.MAX_BATCHES)
    else L.Loop(StoreOf(p), C.NO_REPORT, false, None)
  }

  /** The phases behind the tables. */
  ghost function Finish(p: Plant, d: Setup, i: Inputs): (Plant, Ended) {
    var pass := PassOver(p, d, i);
    var q := p.(actions := pass.rows);
    if pass.thrown then (q, InActions)
    else
      var loop := LoopOver(q, d, i);
      var r := q.(disk := loop.store.disk, rows := loop.store.rows);
      if loop.thrown then (r, InArtifacts)
      else
        (r.(tables := ReportRecovery(r.tables, i.root)),
          if 1 <= d.projections <= MAX_PROJECTIONS then Finished else InProjections)
  }

  ghost function Recover(p: Plant, d: Setup, i: Inputs): Account {
    var batch := Batch(i.pending, d.commits);
    var s := ReplayAll(p, d.hasStore, batch, |batch|, i.checks);
    if s.thrown then Account(s.plant, InReplay, |batch|, s.committed, s.rejected, Recovered(0, 0, 0, 0), 0, 0)
    else
      var (t, sum, orphans, settled) := RepairRest(s.plant.tables, i.now);
      var (q, ended) := Finish(s.plant.(tables := t), d, i);
      Account(q, ended, |batch|, s.committed, s.rejected, sum, orphans, settled)
  }

  predicate Thrown(x: Account) { !x.ended.Finished? }

  // ---------------------------------------------------------------- the tables' part

  function Place(batch: seq<Id>, a: Id): (i: Option<nat>)
    ensures i.Some? ==> i.value < |batch| && batch[i.value] == a
    ensures i.None? ==> a !in batch
  {
    if |batch| == 0 then None
    else if Place(batch[..|batch| - 1], a).Some? then Place(batch[..|batch| - 1], a)
    else if batch[|batch| - 1] == a then Some(|batch| - 1)
    else None
  }

  /** The verdict each batched submission meets at its turn. */
  function VerdictAt(p: Plant, hasStore: bool, batch: seq<Id>, checks: Id -> bool, a: Id): Verdict {
    if a in batch && Place(batch, a).Some? then
      var q := ReplayAll(p, hasStore, batch, Place(batch, a).value, checks).plant;
      if a in q.tables.submissions then Judge(q, hasStore, q.tables.submissions[a].result, checks(a)) else Inadmissible
    else Inadmissible
  }

  function Verdicts(p: Plant, hasStore: bool, batch: seq<Id>, checks: Id -> bool): Id -> Verdict {
    (a: Id) => VerdictAt(p, hasStore, batch, checks, a)
  }

  lemma PlaceOf(batch: seq<Id>, n: nat)
    requires Distinct(batch) && n < |batch|
    ensures Place(batch, batch[n]) == Some(n)
  {
    assert batch[n] in batch;
  }

  lemma SubmitTables(p: Plant, hasStore: bool, a: Id, passes: bool)
    requires a in p.tables.submissions
    ensures var x := p.tables.submissions[a];
            var (q, outcome) := Submit(p, hasStore, a, passes);
            (q.tables, outcome) == Commit(p.tables, x.result, x.digest, true, Judge(p, hasStore, x.result, passes))
              && q.actions == p.actions
  {
    hide Commit, Judge;
  }

  /** On the tables the replay with promotions is the replay under those verdicts. */
  lemma {:induction false} ReplayTables(p: Plant, hasStore: bool, batch: seq<Id>, n: nat, checks: Id -> bool)
    requires Distinct(batch) && n <= |batch|
    ensures var s := ReplayAll(p, hasStore, batch, n, checks);
            && Progress(s.plant.tables, s.committed, s.rejected, s.thrown)
               == Replay(p.tables, batch, n, Verdicts(p, hasStore, batch, checks))
            && s.plant.actions == p.actions
  {
    hide ReplayOver, ReplayAttempt, Verdicts;
    if n > 0 {
      ReplayTables(p, hasStore, batch, n - 1, checks);
      var s := ReplayAll(p, hasStore, batch, n - 1, checks);
      var a := batch[n - 1];
      if !s.thrown && a in s.plant.tables.submissions { TurnVerdict(p, hasStore, batch, n - 1, checks); }
      OverTables(s, hasStore, a, checks(a), Verdicts(p, hasStore, batch, checks)(a));
    }
  }

  lemma OverTables(s: Replaying, hasStore: bool, a: Id, passes: bool, verdict: Verdict)
    requires !s.thrown && a in s.plant.tables.submissions ==>
             verdict == Judge(s.plant, hasStore, s.plant.tables.submissions[a].result, passes)
    ensures var r := ReplayOver(s, hasStore, a, passes);
            && Progress(r.plant.tables, r.committed, r.rejected, r.thrown)
               == ReplayAttempt(Progress(s.plant.tables, s.committed, s.rejected, s.thrown), a, verdict)
            && r.plant.actions == s.plant.actions
  {
    hide Submit, Commit, Judge;
    if !s.thrown && a in s.plant.tables.submissions { SubmitTables(s.plant, hasStore, a, passes); }
  }

  lemma TurnVerdict(p: Plant, hasStore: bool, batch: seq<Id>, n: nat, checks: Id -> bool)
    requires Distinct(batch) && n < |batch|
    requires batch[n] in ReplayAll(p, hasStore, batch, n, checks).plant.tables.submissions
    ensures var q := ReplayAll(p, hasStore, batch, n, checks).plant;
            Verdicts(p, hasStore, batch, checks)(batch[n])
              == Judge(q, hasStore, q.tables.submissions[batch[n]].result, checks(batch[n]))
  {
    hide Judge, ReplayAll;
    PlaceOf(batch, n);
    assert batch[n] in batch;
  }

  /** The verdicts of this recovery. */
  function RunVerdicts(p: Plant, d: Setup, i: Inputs): Id -> Verdict {
    Verdicts(p, d.hasStore, Batch(i.pending, d.commits), i.checks)
  }

  ghost function RunRepair(p: Plant, d: Setup, i: Inputs): Summary {
    Repair(p.tables, i.now, i.pending, d.commits, RunVerdicts(p, d, i))
  }

  /** The recovery, told by the repair of its tables. */
  lemma RecoverRepairs(p: Plant, d: Setup, i: Inputs)
    requires Lists(i.pending, p.tables)
    ensures var batch := Batch(i.pending, d.commits);
            var s, m, x := ReplayAll(p, d.hasStore, batch, |batch|, i.checks), RunRepair(p, d, i), Recover(p, d, i);
            && s.thrown == m.thrown
            && s.plant.actions == p.actions
            && (m.thrown ==> x.ended.InReplay? && x.plant == s.plant && s.plant.tables == m.tables)
            && (!m.thrown ==> (x.plant, x.ended) == Finish(s.plant.(tables := m.tables), d, i))
            && (x.scanned, x.committed, x.rejected, x.recovered, x.orphans, x.settled)
               == (m.scanned, m.committed, m.rejected, m.recovered, m.orphans, m.settled)
  {
    hide ReplayAll, Replay, RepairRest, Finish, Verdicts;
    var batch := Batch(i.pending, d.commits);
    BatchListed(p.tables, i.pending, d.commits);
    ReplayTables(p, d.hasStore, batch, |batch|, i.checks);
  }

  lemma FinishTables(p: Plant, d: Setup, i: Inputs)
    ensures var (q, ended) := Finish(p, d, i);
            && !ended.InReplay?
            && q.tables == (if ended.InActions? || ended.InArtifacts? then p.tables
                            else ReportRecovery(p.tables, i.root))
            && q.actions == PassOver(p, d, i).rows
  {
    hide PassOver, LoopOver, ReportRecovery;
  }

  // ---------------------------------------------------------------- honest disks

  lemma PromoteHonest(disk: B.Disk, id: Id, digest: Id, size: int, at: Time)
    requires L.Honest(disk)
    ensures L.Honest(B.Promote(disk, id, digest, size, at).0)
    ensures forall ref :: B.LostFile(B.Promote(disk, id, digest, size, at).0, ref) ==> B.LostFile(disk, ref)
    ensures forall ref :: B.LostFile(disk, ref) && ref != id ==>
            B.LostFile(B.Promote(disk, id, digest, size, at).0, ref)
    ensures B.Promote(disk, id, digest, size, at).0.staging.Keys <= disk.staging.Keys
  {
  }

  /** Promoting artifacts whose bytes are there removes no directory that lost a file. */
  lemma {:induction false} PromotedHonest(disk: B.Disk, rows: map<Id, W.Row>, xs: seq<Staged>, n: nat, at: Time)
    requires n <= |xs| && L.Honest(disk) && forall x :: x in xs ==> BytesThere(disk, x)
    ensures var d := Promoted(disk, rows, xs, n, at).0;
            && L.Honest(d) && d.staging.Keys <= disk.staging.Keys
            && forall ref :: B.LostFile(d, ref) <==> B.LostFile(disk, ref)
  {
    hide L.Honest, B.LostFile, B.Promote;
    if n > 0 {
      PromotedHonest(disk, rows, xs, n - 1, at);
      var d := Promoted(disk, rows, xs, n - 1, at).0;
      var x := xs[n - 1];
      assert x in xs;
      PromoteHonest(d, x.ref, x.digest, x.kind.size, at);
      WholeNotLost(disk, x);
    }
  }

  lemma WholeNotLost(disk: B.Disk, x: Staged)
    requires BytesThere(disk, x)
    ensures !B.LostFile(disk, x.ref)
  {
  }

  lemma JudgedBytes(p: Plant, hasStore: bool, r: Result, passes: bool)
    requires Judge(p, hasStore, r, passes).Admissible? && r.status.Completed?
    ensures forall x :: x in ArtifactsOf(r) ==> BytesThere(p.disk, x)
  {
    hide BytesThere, RowMatches;
    var xs := AllStaged(r) + r.requests;
    if xs != [] { assert |xs| > 0; }
    RuntimeGuarantees.GatheredOnce(AllStaged(r), r.requests);
    forall x | x in ArtifactsOf(r) ensures x in xs {}
  }

  /** Replaying a submission leaves directories that lost a file alone. */
  lemma SubmitHonest(p: Plant, hasStore: bool, a: Id, passes: bool)
    requires a in p.tables.submissions && L.Honest(p.disk)
    ensures var q := Submit(p, hasStore, a, passes).0;
            && L.Honest(q.disk) && q.disk.staging.Keys <= p.disk.staging.Keys
            && forall ref :: B.LostFile(q.disk, ref) <==> B.LostFile(p.disk, ref)
  {
    hide L.Honest, B.LostFile, Promoted, Linked, Commit, Judge, BytesThere;
    var x := p.tables.submissions[a];
    var (t, outcome) := Commit(p.tables, x.result, x.digest, true, Judge(p, hasStore, x.result, passes));
    if outcome.Committed? && hasStore {
      CommittedJudged(p.tables, x.result, x.digest, Judge(p, hasStore, x.result, passes));
      JudgedBytes(p, hasStore, x.result, passes);
      PromotedHonest(p.disk, Linked(p.rows, ArtifactsOf(x.result), |ArtifactsOf(x.result)|), ArtifactsOf(x.result),
        |ArtifactsOf(x.result)|, t.clock);
    }
  }

  lemma CommittedJudged(t: Tables, r: Result, digest: Id, verdict: Verdict)
    requires Commit(t, r, digest, true, verdict).1.Committed?
    ensures r.status.Completed? && verdict.Admissible?
  {
    hide FirstRefusal, UsageValid, RefsDistinct, OutputsDistinct, Conflicted, Complete;
  }

  lemma {:induction false} ReplayHonest(p: Plant, hasStore: bool, batch: seq<Id>, n: nat, checks: Id -> bool)
    requires n <= |batch| && L.Honest(p.disk)
    ensures var q := ReplayAll(p, hasStore, batch, n, checks).plant;
            && L.Honest(q.disk) && q.disk.staging.Keys <= p.disk.staging.Keys
            && forall ref :: B.LostFile(q.disk, ref) <==> B.LostFile(p.disk, ref)
  {
    hide L.Honest, B.LostFile, Submit;
    if n > 0 {
      ReplayHonest(p, hasStore, batch, n - 1, checks);
      var s := ReplayAll(p, hasStore, batch, n - 1, checks);
      if !s.thrown && batch[n - 1] in s.plant.tables.submissions {
        SubmitHonest(s.plant, hasStore, batch[n - 1], checks(batch[n - 1]));
      }
    }
  }

  // ---------------------------------------------------------------- when it throws

  /** The plant as the phases behind the tables find it. */
  ghost function Settled(p: Plant, d: Setup, i: Inputs): Plant {
    var batch := Batch(i.pending, d.commits);
    ReplayAll(p, d.hasStore, batch, |batch|, i.checks).plant.(tables := RunRepair(p, d, i).tables)
  }

  /** A submission of the batch aborts at its turn. */
  ghost predicate Poisons(p: Plant, d: Setup, i: Inputs) {
    exists n: nat :: PoisonedAt(p.tables, Batch(i.pending, d.commits), n, RunVerdicts(p, d, i))
  }

  /** The external action service is given no limit, or its provider throws for a selected action. */
  ghost predicate ActionsFail(d: Setup, i: Inputs) {
    d.hasActions
    && (d.actionLimit == 0 || exists n :: 0 <= n < P.Selected(i.candidates, d.actionLimit)
                                          && i.answers(i.candidates[n]).Threw?)
  }

  /** The reconciliation refuses its options, or its pages reach a directory that lost a file. */
  ghost predicate ArtifactsFail(p: Plant, d: Setup, i: Inputs) {
    d.hasStore
    && (!C.Accepted(d.artifacts) || d.artifacts.limit > B.MAX_PAGE
        || L.LostWithin(L.MendedDisk(StoreOf(p), i.order, p.tables.clock, d.artifacts),
           d.artifacts.limit * G.MAX_BATCHES))
  }

  predicate ProjectionsFail(d: Setup) { !(1 <= d.projections <= MAX_PROJECTIONS) }

  /** Tables any run can reach, consistent external actions and a disk any run can reach. */
  ghost predicate Orderly(p: Plant) { Consistent(p.tables) && A.RowsValid(p.actions) && L.Honest(p.disk) }

  /** The time and the answers to the queries fit the plant. */
  ghost predicate Asked(p: Plant, i: Inputs) {
    i.now <= p.tables.clock && Lists(i.pending, p.tables) && P.Candidates(p.actions, i.candidates)
  }

  /** What a recovery starts from. */
  ghost predicate Starts(p: Plant, i: Inputs) { Orderly(p) && Asked(p, i) }

  /** The runs of the protocol, of the external actions and of the artifacts lead to nothing else. */
  lemma ReachableStarts(w: World, steps: seq<Step>, x: A.World, moves: seq<A.Step>, v: W.World, deeds: seq<W.Step>,
      i: Inputs)
    requires Reliable(w) && A.Consistent(x) && W.Safe(v)
    requires var t, rows := Execute(w, steps).tables, A.Run(x, moves).rows;
             i.now <= t.clock && Lists(i.pending, t) && P.Candidates(rows, i.candidates)
    ensures Starts(Plant(Execute(w, steps).tables, A.Run(x, moves).rows, W.Run(v, deeds).rows, W.Run(v, deeds).disk), i)
  {
    RunReliable(w, steps);
    A.RunConsistent(x, moves);
    W.AlwaysRecoverable(v, deeds);
    hide Execute, Apply, A.Run, A.Apply, W.Run, W.Apply, W.Safe, W.Recoverable, Lists, P.Candidates, Sweeping,
      Consistent, L.Honest, A.TriesMatch, A.SentHaveTries, A.ProcessesValid, A.CallsValid, A.ConfirmedValid,
      A.ApprovalsValid;
    SafeIsHonest(W.Run(v, deeds));
  }

  lemma SafeIsHonest(v: W.World)
    requires W.Safe(v)
    ensures L.Honest(v.disk)
  {
    hide W.UploadsValid, W.RowsValid, W.JobsValid, W.CondemnedValid, W.ReceivedValid, W.ArtifactsLinked, B.Verified;
  }

  /** The phase a recovery ends in. */
  ghost function EndOf(p: Plant, d: Setup, i: Inputs): Ended {
    if Poisons(p, d, i) then InReplay
    else if ActionsFail(d, i) then InActions
    else if ArtifactsFail(Settled(p, d, i), d, i) then InArtifacts
    else if ProjectionsFail(d) then InProjections
    else Finished
  }

  lemma FinishEnds(p: Plant, d: Setup, i: Inputs)
    requires A.RowsValid(p.actions) && P.Candidates(p.actions, i.candidates) && L.Honest(p.disk)
    ensures Finish(p, d, i).1
            == (if ActionsFail(d, i) then InActions else if ArtifactsFail(p, d, i) then InArtifacts
                else if ProjectionsFail(d) then InProjections else Finished)
  {
    hide A.RowsValid, P.Candidates, P.ReconcilePending, L.Reconcile, L.Honest, L.LostWithin, ReportRecovery;
    if d.hasActions { P.PendingThrowsIff(p.actions, i.candidates, d.actionLimit, i.answers); }
    if d.hasStore { L.ReconcileThrowsIff(StoreOf(p), i.order, i.age, p.tables.clock, d.artifacts); }
  }

  /** A recovery throws exactly when a batched submission is poisoned at its turn, the external phase
      throws, the artifact phase refuses its options or reaches a directory that lost a file, or the
      projections refuse their batch size; and it ends in the first phase of these. */
  lemma RecoveryThrowsIff(p: Plant, d: Setup, i: Inputs)
    requires Starts(p, i)
    ensures Recover(p, d, i).ended == EndOf(p, d, i)
    ensures Thrown(Recover(p, d, i))
            <==> Poisons(p, d, i) || ActionsFail(d, i) || ArtifactsFail(Settled(p, d, i), d, i) || ProjectionsFail(d)
  {
    hide Consistent, Lists, A.RowsValid, P.Candidates, L.Honest, Recover, ReplayAll, Finish, RunVerdicts, Repair,
      PoisonedAt, ActionsFail, ArtifactsFail, Batch;
    var batch := Batch(i.pending, d.commits);
    RecoverRepairs(p, d, i);
    RepairThrowsIff(p.tables, i.now, i.pending, d.commits, RunVerdicts(p, d, i));
    ReplayHonest(p, d.hasStore, batch, |batch|, i.checks);
    FinishEnds(Settled(p, d, i), d, i);
  }

  // ---------------------------------------------------------------- what it leaves

  /** Which tables have changed when a recovery ends where it does. */
  lemma RecoveryLeaves(p: Plant, d: Setup, i: Inputs)
    requires Starts(p, i)
    ensures var x, m := Recover(p, d, i), RunRepair(p, d, i);
            match x.ended
            case InReplay => m.thrown && x.plant.tables == m.tables && x.plant.actions == p.actions
            case InActions => !m.thrown && x.plant.tables == m.tables && x.plant.disk == Settled(p, d, i).disk
              && x.plant.rows == Settled(p, d, i).rows
            case InArtifacts => !m.thrown && x.plant.tables == m.tables
            case InProjections => !m.thrown && x.plant.tables == ReportRecovery(m.tables, i.root)
            case Finished => !m.thrown && x.plant.tables == ReportRecovery(m.tables, i.root)
    ensures !Recover(p, d, i).ended.InReplay? ==> Recover(p, d, i).plant.actions == PassOver(p, d, i).rows
  {
    hide Consistent, Lists, A.RowsValid, P.Candidates, L.Honest, Recover, ReplayAll, Repair, RunVerdicts,
      ReportRecovery, P.ReconcilePending, LoopOver;
    RecoverRepairs(p, d, i);
    FinishTables(Settled(p, d, i), d, i);
  }

  /** A recovery that gets past the replay leaves nothing expired, no delivery to expose and no region
      half cancelled, even if a later phase throws; every abandoned attempt was replaced or failed its
      execution, and exposing orphans touched no row. */
  lemma RecoveryRepairs(p: Plant, d: Setup, i: Inputs)
    requires Starts(p, i)
    ensures var x := Recover(p, d, i);
            !x.ended.InReplay? ==>
              && Consistent(x.plant.tables)
              && (forall a :: a in x.plant.tables.board.attempts ==> !Expired(x.plant.tables.board, a, i.now))
              && Orphans(x.plant.tables, i.now) == {}
              && (forall region :: region in x.plant.tables.regions ==>
                 !x.plant.tables.regions[region].status.Cancelling?)
              && x.recovered.abandoned == x.recovered.replacement + x.recovered.terminal
              && x.orphans == 0
              && x.committed + x.rejected == x.scanned
  {
    hide Consistent, Lists, A.RowsValid, P.Candidates, L.Honest, Recover, ReplayAll, Repair, RunVerdicts,
      ReportRecovery, Finish, Orphans, Expired, ExposeOrphans;
    RecoverRepairs(p, d, i);
    RepairMends(p.tables, i.now, i.pending, d.commits, RunVerdicts(p, d, i));
    FinishTables(Settled(p, d, i), d, i);
    var m := RunRepair(p, d, i);
    if !m.thrown {
      ReportConsistent(m.tables, i.root);
      ReportMended(m.tables, i.root, i.now);
    }
  }

  lemma ReportMended(t: Tables, root: Option<Id>, now: Time)
    ensures ReportRecovery(t, root).board == t.board && ReportRecovery(t, root).regions == t.regions
    ensures ReportRecovery(t, root).submissions == t.submissions && ReportRecovery(t, root).clock == t.clock
    ensures ReportRecovery(t, root).artifacts == t.artifacts && Orphans(ReportRecovery(t, root), now) == Orphans(t, now)
  {
  }

  /** A batched submission that can be committed at its turn is committed, not executed again, even under
      an expired lease; and it can be when it could at the start and no earlier one of the batch records
      an artifact of it otherwise. */
  lemma CommittableIsCommitted(p: Plant, d: Setup, i: Inputs, n: nat)
    requires Starts(p, i)
    requires var batch := Batch(i.pending, d.commits);
             && n < |batch| && batch[n] in p.tables.submissions
             && Fate(p.tables, batch[n], RunVerdicts(p, d, i)).None?
             && forall j :: 0 <= j < n ==>
                batch[j] in p.tables.submissions
                && Compatible(p.tables.submissions[batch[j]].result, p.tables.submissions[batch[n]].result)
    ensures var x, a := Recover(p, d, i), Batch(i.pending, d.commits)[n];
            !x.ended.InReplay? ==>
              && a in x.plant.tables.submissions && x.plant.tables.submissions[a].committed
              && a in x.plant.tables.board.attempts
              && (x.plant.tables.board.attempts[a].status.Completed? || x.plant.tables.board.attempts[a].status.Failed?)
  {
    hide Consistent, Lists, A.RowsValid, P.Candidates, L.Honest, Recover, ReplayAll, Repair, RunVerdicts,
      ReportRecovery, Finish, Fate, Met, Compatible;
    var batch, verdicts := Batch(i.pending, d.commits), RunVerdicts(p, d, i);
    BatchListed(p.tables, i.pending, d.commits);
    CompatibleMeetsFate(p.tables, batch, n, verdicts);
    MetIsCommitted(p.tables, i.now, i.pending, d.commits, verdicts, n);
    RecoverRepairs(p, d, i);
    FinishTables(Settled(p, d, i), d, i);
    ReportMended(RunRepair(p, d, i).tables, i.root, i.now);
  }

  /** However it ends, a recovery leaves an orderly plant: another one can start as soon as its queries
      are answered. */
  lemma RecoverOrderly(p: Plant, d: Setup, i: Inputs)
    requires Starts(p, i)
    ensures Orderly(Recover(p, d, i).plant)
  {
    hide Consistent, Lists, A.RowsValid, P.Candidates, L.Honest, Recover, ReplayAll, Repair, RunVerdicts,
      ReportRecovery, P.ReconcilePending, Expired, Orphans;
    var batch := Batch(i.pending, d.commits);
    RecoverRepairs(p, d, i);
    ReplayHonest(p, d.hasStore, batch, |batch|, i.checks);
    if Recover(p, d, i).ended.InReplay? {
      ThrownConsistent(p.tables, i.now, i.pending, d.commits, RunVerdicts(p, d, i));
    } else {
      RecoveryRepairs(p, d, i);
      FinishKeepsLost(Settled(p, d, i), d, i);
      FinishTables(Settled(p, d, i), d, i);
      PassValid(Settled(p, d, i), d, i);
    }
  }

  lemma ThrownConsistent(t: Tables, now: Time, pending: seq<Id>, limit: nat, verdicts: Id -> Verdict)
    requires Consistent(t) && Lists(pending, t) && Repair(t, now, pending, limit, verdicts).thrown
    ensures Consistent(Repair(t, now, pending, limit, verdicts).tables)
  {
    hide Consistent, Repair, Lists;
    PoisonStays(t, now, pending, limit, verdicts);
  }

  lemma PassValid(p: Plant, d: Setup, i: Inputs)
    requires A.RowsValid(p.actions) && P.Candidates(p.actions, i.candidates)
    ensures A.RowsValid(PassOver(p, d, i).rows)
  {
    hide A.RowsValid, P.Candidates, P.ReconcileFirst;
    if d.hasActions && d.actionLimit > 0 {
      P.PassDecides(p.actions, i.candidates, P.Selected(i.candidates, d.actionLimit), i.answers);
    }
  }

  /** When the batch held all pending submissions and the recovery got past its replay, any later
      recovery at the same time finds nothing to do on the tables: it counts nothing and changes nothing
      but its own report event, whatever the other phases do. */
  lemma RecoveryFixpoint(p: Plant, d: Setup, i: Inputs, e: Setup, j: Inputs)
    requires Starts(p, i) && |i.pending| <= d.commits && !Recover(p, d, i).ended.InReplay?
    requires Asked(Recover(p, d, i).plant, j) && j.now == i.now
    ensures var t, y := Recover(p, d, i).plant.tables, Recover(Recover(p, d, i).plant, e, j);
            && y.plant.tables == (if y.ended.InActions? || y.ended.InArtifacts? then t else ReportRecovery(t, j.root))
            && !y.ended.InReplay?
            && (y.scanned, y.committed, y.rejected, y.recovered, y.orphans, y.settled)
               == (0, 0, 0, Recovered(0, 0, 0, 0), 0, 0)
  {
    hide Consistent, Lists, A.RowsValid, P.Candidates, L.Honest, Recover, ReplayAll, Repair, RunVerdicts,
      ReportRecovery, Finish, Mended, R.Pending;
    RecoverRepairs(p, d, i);
    FinishTables(Settled(p, d, i), d, i);
    var m := RunRepair(p, d, i);
    RepairMends(p.tables, i.now, i.pending, d.commits, RunVerdicts(p, d, i));
    RepairEmpties(p.tables, i.now, i.pending, d.commits, RunVerdicts(p, d, i));
    var q := Recover(p, d, i).plant;
    RecoverOrderly(p, d, i);
    ReportQuiet(m.tables, i.root, i.now);
    RecoverRepairs(q, e, j);
    QuietRepair(q.tables, j.now, j.pending, e.commits, RunVerdicts(q, e, j));
    FinishTables(Settled(q, e, j), e, j);
  }

  lemma ReportQuiet(t: Tables, root: Option<Id>, now: Time)
    requires Mended(t, now) && R.Pending(t) == {}
    ensures Mended(ReportRecovery(t, root), now) && R.Pending(ReportRecovery(t, root)) == {}
  {
    hide Consistent, ReportRecovery, Expired;
    ReportConsistent(t, root);
    ReportMended(t, root, now);
  }

  // ---------------------------------------------------------------- the directory that lost a file

  /** With an accepted page size and no more staged objects than the pages reach, and with nothing else to
      throw: it is any directory that lost a file before the recovery began. */
  lemma LostFileThrowsIff(p: Plant, d: Setup, i: Inputs)
    requires Starts(p, i) && d.hasStore && C.Accepted(d.artifacts) && d.artifacts.limit <= B.MAX_PAGE
    requires |p.disk.staging.Keys| <= d.artifacts.limit * G.MAX_BATCHES
    requires !Poisons(p, d, i) && !ActionsFail(d, i) && !ProjectionsFail(d)
    ensures Thrown(Recover(p, d, i)) <==> exists ref :: B.LostFile(p.disk, ref)
  {
    hide Consistent, Lists, A.RowsValid, P.Candidates, L.Honest, Recover, ReplayAll, Repair, RunVerdicts, Poisons,
      ActionsFail, ProjectionsFail, B.LostFile, L.LostWithin, L.MendedDisk;
    RecoveryThrowsIff(p, d, i);
    var batch := Batch(i.pending, d.commits);
    ReplayHonest(p, d.hasStore, batch, |batch|, i.checks);
    var s := Settled(p, d, i);
    L.Fewer(s.disk.staging.Keys, p.disk.staging.Keys);
    L.FirstKept(StoreOf(s), i.order, i.age, s.tables.clock, d.artifacts);
    L.AllWithin(L.MendedDisk(StoreOf(s), i.order, s.tables.clock, d.artifacts), s.disk,
      d.artifacts.limit * G.MAX_BATCHES);
  }

  /** A directory that lost a file stays as it is through any recovery, no staged object comes before it
      that was not there, and every recovery whose pages reach it throws, whatever its inputs. */
  lemma BlockedThrows(p: Plant, d: Setup, i: Inputs, ref: Id)
    requires Starts(p, i) && B.LostFile(p.disk, ref)
    ensures var q := Recover(p, d, i).plant;
            B.LostFile(q.disk, ref) && q.disk.staging.Keys <= p.disk.staging.Keys
    ensures Reaches(p, d, ref) ==>
              Thrown(Recover(p, d, i)) && Recover(p, d, i).ended in {InReplay, InActions, InArtifacts}
  {
    hide Consistent, Lists, A.RowsValid, P.Candidates, L.Honest, Recover, ReplayAll, Repair, RunVerdicts, Poisons,
      ActionsFail, ProjectionsFail, B.LostFile, L.MendedDisk, L.LostWithin, Finish;
    RecoveryThrowsIff(p, d, i);
    var batch := Batch(i.pending, d.commits);
    ReplayHonest(p, d.hasStore, batch, |batch|, i.checks);
    var s := Settled(p, d, i);
    L.FirstKept(StoreOf(s), i.order, i.age, s.tables.clock, d.artifacts);
    L.LostWithinIff(L.MendedDisk(StoreOf(s), i.order, s.tables.clock, d.artifacts),
      d.artifacts.limit * G.MAX_BATCHES);
    FewerBelow(L.MendedDisk(StoreOf(s), i.order, s.tables.clock, d.artifacts).staging.Keys, p.disk.staging.Keys, ref);
    RecoverRepairs(p, d, i);
    FinishKeepsLost(s, d, i);
  }

  /** The pages of the recovery's artifact phase come as far as `ref`. */
  predicate Reaches(p: Plant, d: Setup, ref: Id) {
    d.hasStore && |Below(p.disk.staging.Keys, ref)| < d.artifacts.limit * G.MAX_BATCHES
  }

  lemma FewerBelow(x: set<Id>, y: set<Id>, ref: Id)
    requires x <= y
    ensures |Below(x, ref)| <= |Below(y, ref)|
  {
    L.Fewer(Below(x, ref), Below(y, ref));
  }

  lemma FinishKeepsLost(p: Plant, d: Setup, i: Inputs)
    requires L.Honest(p.disk)
    ensures var q := Finish(p, d, i).0;
            && L.Honest(q.disk) && q.disk.staging.Keys <= p.disk.staging.Keys
            && forall ref :: B.LostFile(q.disk, ref) <==> B.LostFile(p.disk, ref)
  {
    hide L.Honest, B.LostFile, L.Reconcile, P.ReconcilePending, ReportRecovery;
    if d.hasStore {
      L.ReconcileKeepsLost(StoreOf(p), None, i.order, i.age, p.tables.clock, d.artifacts, G.MAX_BATCHES);
    }
  }

  datatype Attempted = Attempted(setup: Setup, inputs: Inputs)

  /** The plant after a series of recoveries. */
  ghost function After(p: Plant, runs: seq<Attempted>): Plant {
    if |runs| == 0 then p
    else Recover(After(p, runs[..|runs| - 1]), runs[|runs| - 1].setup, runs[|runs| - 1].inputs).plant
  }

  /** The queries of each recovery are answered from the plant it meets. */
  ghost predicate AllAsked(p: Plant, runs: seq<Attempted>) {
    |runs| > 0 ==> AllAsked(p, runs[..|runs| - 1]) && Asked(After(p, runs[..|runs| - 1]), runs[|runs| - 1].inputs)
  }

  ghost predicate ThrowsAt(p: Plant, runs: seq<Attempted>, k: nat)
    requires k < |runs|
  {
    Thrown(Recover(After(p, runs[..k]), runs[k].setup, runs[k].inputs))
  }

  /** No number of recoveries gets past a directory that lost a file: each one whose pages reach it throws,
      and as many staged objects as lay before it lie before it at most. */
  lemma {:induction false} BlockedForever(p: Plant, runs: seq<Attempted>, ref: Id)
    requires Orderly(p) && B.LostFile(p.disk, ref) && AllAsked(p, runs)
    ensures var q := After(p, runs);
            Orderly(q) && B.LostFile(q.disk, ref) && q.disk.staging.Keys <= p.disk.staging.Keys
    ensures |Below(After(p, runs).disk.staging.Keys, ref)| <= |Below(p.disk.staging.Keys, ref)|
    ensures forall k :: 0 <= k < |runs| && Reaches(After(p, runs[..k]), runs[k].setup, ref) ==> ThrowsAt(p, runs, k)
  {
    hide Recover, Orderly, Asked, Thrown, B.LostFile, Reaches;
    if |runs| > 0 {
      var init, last := runs[..|runs| - 1], runs[|runs| - 1];
      BlockedForever(p, init, ref);
      BlockedThrows(After(p, init), last.setup, last.inputs, ref);
      RecoverOrderly(After(p, init), last.setup, last.inputs);
      forall k | 0 <= k < |runs| && Reaches(After(p, runs[..k]), runs[k].setup, ref) ensures ThrowsAt(p, runs, k) {
        if k < |init| { assert init[..k] == runs[..k] && ThrowsAt(p, init, k); }
      }
    }
    FewerBelow(After(p, runs).disk.staging.Keys, p.disk.staging.Keys, ref);
  }
}
