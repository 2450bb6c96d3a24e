/** Whole runs: any interleaving of the transactions, of time, of crashes and of any number of
    concurrent recoveries.  A recovery is a sweep: it lists the expired attempts once, abandons
    them one transaction at a time, and only then exposes orphaned deliveries. */
module RuntimeRuns {
  import opened Basics
  import opened Board
  import opened AuthorityProofs
  import opened Evolution
  import opened RuntimeTables
  import opened RuntimeSafety
  import opened Publication
  import opened RuntimeConsistency

  datatype Sweep = Sweep(now: Time, todo: set<Id>)

  /** The tables, the sweeps under way, and the rejected commits (attempt and digest) whose separate delete
      is still to come. */
  datatype World = World(tables: Tables, sweeps: map<Id, Sweep>, rejections: multiset<(Id, Id)>)

  datatype Step =
    | Tick(elapsed: nat)
    | ChangeRegion(region: Id, status: Lifecycle, raise: nat)
    | AcceptCommand(region: Id, correlation: Id, targets: seq<Id>)
    | FirstLease(ids: set<Id>, trigger: Id, region: Id, component: Id, correlation: Id, ms: int)
    | RepeatedLease(attempt: Id, ms: int)
    | Beat(execution: Id, attempt: Id, token: Id, epoch: int, ms: int)
    | HandOff(result: Result, digest: Id, stagedValid: bool)
    | CommitResult(result: Result, digest: Id, allowExpired: bool, verdict: Verdict)
    | CommitStored(attempt: Id, allowExpired: bool, verdict: Verdict)
    | DropSubmission(attempt: Id, digest: Id)
    | CancelOperatorRun(region: Id, correlation: Id, key: Id, digest: Id)
    | BeginSweep(sweep: Id, now: Time)
    | AbandonOne(sweep: Id, attempt: Id)
    | ExposeSweep(sweep: Id)
    | CrashSweep(sweep: Id)
    | SettleOne(region: Id)
    | Report(root: Option<Id>)
    | PublishArtifact(digest: Id, kind: ArtifactKind)

  function EpochOf(regions: map<Id, Region>, region: Id): nat {
    if region in regions then regions[region].epoch else 0
  }

  function ExpiredAt(b: Board, now: Time): set<Id> {
    set a | a in b.attempts && Expired(b, a, now)
  }

  /** The publication service, beside the commits, creates an artifact unless its digest has one. */
  function RecordArtifact(t: Tables, digest: Id, kind: ArtifactKind): Tables {
    if digest in t.artifacts then t else t.(artifacts := t.artifacts[digest := kind])
  }

  /** The effect of a step on the tables; a step whose guard fails does nothing. */
  ghost function Effect(w: World, step: Step): Tables {
    var t := w.tables;
    match step
    case Tick(ms) => t.(clock := t.clock + ms)
    case ChangeRegion(region, status, raise) =>
      t.(regions := t.regions[region := Region(status, EpochOf(t.regions, region) + raise)])
    case AcceptCommand(region, correlation, targets) => Ingress(t, region, correlation, targets)
    case FirstLease(ids, trigger, region, component, correlation, ms) =>
      LeaseNew(t, ids, trigger, region, component, correlation, ms)
    case RepeatedLease(a, ms) => LeaseAgain(t, a, ms)
    case Beat(e, a, token, epoch, ms) => Heartbeat(t, e, a, token, epoch, ms)
    case HandOff(r, digest, stagedValid) => Handoff(t, r, digest, stagedValid)
    case CommitResult(r, digest, allowExpired, verdict) =>
      if SameDigestSameResult(t, r, digest) then CommitTransaction(t, r, digest, allowExpired, verdict).0 else t
    case CommitStored(a, allowExpired, verdict) =>
      if a in t.submissions
      then CommitTransaction(t, t.submissions[a].result, t.submissions[a].digest, allowExpired, verdict).0
      else t
    case DropSubmission(a, digest) => if (a, digest) in w.rejections then Discard(t, a, digest) else t
    case CancelOperatorRun(region, correlation, key, digest) => CancelRun(t, region, correlation, key, digest).0
    case BeginSweep(p, now) => t
    case AbandonOne(p, a) =>
      if p in w.sweeps && a in w.sweeps[p].todo then AbandonExpired(t, a, w.sweeps[p].now).0 else t
    case ExposeSweep(p) =>
      if p in w.sweeps && w.sweeps[p].todo == {} then ExposeOrphans(t, w.sweeps[p].now) else t
    case CrashSweep(p) => t
    case SettleOne(region) => SettleRegion(t, region)
    case Report(root) => ReportRecovery(t, root)
    case PublishArtifact(digest, kind) => RecordArtifact(t, digest, kind)
  }

  function Sweeps(w: World, step: Step): map<Id, Sweep> {
    match step
    case BeginSweep(p, now) =>
      if now <= w.tables.clock then w.sweeps[p := Sweep(now, ExpiredAt(w.tables.board, now))] else w.sweeps
    case AbandonOne(p, a) =>
      if p in w.sweeps then w.sweeps[p := w.sweeps[p].(todo := w.sweeps[p].todo - {a})] else w.sweeps
    case CrashSweep(p) => w.sweeps - {p}
    case _ => w.sweeps
  }

  /** The commit that a step is, if its guard holds: attempt, digest and outcome. */
  ghost function CommitOf(w: World, step: Step): Option<(Id, Id, Outcome)> {
    var t := w.tables;
    match step
    case CommitResult(r, digest, allowExpired, verdict) =>
      if SameDigestSameResult(t, r, digest)
      then Some((r.attemptId, digest, CommitTransaction(t, r, digest, allowExpired, verdict).1))
      else None
    case CommitStored(a, allowExpired, verdict) =>
      if a in t.submissions then
        var x := t.submissions[a];
        Some((x.result.attemptId, x.digest, CommitTransaction(t, x.result, x.digest, allowExpired, verdict).1))
      else None
    case _ => None
  }

  /** A rejected commit owes one delete; a crash between the two leaves it undone. */
  ghost function Rejections(w: World, step: Step): multiset<(Id, Id)> {
    match CommitOf(w, step)
    case Some((a, digest, Rejected(_))) => w.rejections + multiset{(a, digest)}
    case _ => if step.DropSubmission? then w.rejections - multiset{(step.attempt, step.digest)} else w.rejections
  }

  ghost function Apply(w: World, step: Step): World {
    World(Effect(w, step), Sweeps(w, step), Rejections(w, step))
  }

  ghost function Execute(w: World, steps: seq<Step>): World {
    if |steps| == 0 then w else Apply(Execute(w, steps[..|steps| - 1]), steps[|steps| - 1])
  }

  /** Every sweep still has all attempts ahead of it that are expired at its time. */
  ghost predicate Sweeping(w: World) {
    forall p :: p in w.sweeps ==>
      w.sweeps[p].now <= w.tables.clock && ExpiredAt(w.tables.board, w.sweeps[p].now) <= w.sweeps[p].todo
  }

  ghost predicate Reliable(w: World) {
    Consistent(w.tables) && Sweeping(w)
  }

  /** The empty database, over any regions and routes. */
  function Initial(regions: map<Id, Region>, routes: map<(Id, Id), seq<Id>>, clock: Time): World {
    World(Tables(0, clock, regions, Board(map[], map[], map[]), map[], [], [], map[], [], routes, map[], map[]), map[],
      multiset{})
  }

  lemma InitialReliable(regions: map<Id, Region>, routes: map<(Id, Id), seq<Id>>, clock: Time)
    ensures Reliable(Initial(regions, routes, clock))
  {
  }

  // ---------------------------------------------------------------- one step

  predicate Commits(step: Step) { step.CommitResult? || step.CommitStored? }

  lemma TickKeeps(t: Tables, ms: nat)
    requires Consistent(t)
    ensures Consistent(t.(clock := t.clock + ms)) && Advances(t.board, t.board, t.clock)
  {
    hide Sound, WinnerLast, SubmissionsValid, Published, Sequenced, Accounted, CompletesNothing, Quiet, Advances;
    var s := t.(clock := t.clock + ms);
    Unmoved(t, s);
    QuietWhenEqual(t, s);
    BoardOnly(t, s);
  }

  lemma RegionKeeps(t: Tables, regions: map<Id, Region>)
    requires Consistent(t)
    ensures Consistent(t.(regions := regions)) && Advances(t.board, t.board, t.clock)
  {
    hide Sound, WinnerLast, SubmissionsValid, Published, Sequenced, Accounted, CompletesNothing, Quiet, Advances;
    var s := t.(regions := regions);
    Unmoved(t, s);
    QuietWhenEqual(t, s);
    BoardOnly(t, s);
  }

  lemma StoredIsSame(t: Tables, a: Id)
    requires SubmissionsValid(t) && a in t.submissions
    ensures SameDigestSameResult(t, t.submissions[a].result, t.submissions[a].digest)
    ensures t.submissions[a].result.attemptId == a
  {
  }

  /** A sweep that has visited every listed attempt finds no orphaned delivery. */
  lemma SweepFindsNoOrphan(w: World, p: Id)
    requires Reliable(w) && p in w.sweeps && w.sweeps[p].todo == {}
    ensures ExposeOrphans(w.tables, w.sweeps[p].now) == w.tables
  {
    hide Sound, WinnerLast, SubmissionsValid, Published, Sequenced, Accounted, Expired, ExposeOrphans, Orphans;
    forall a | a in w.tables.board.attempts ensures !Expired(w.tables.board, a, w.sweeps[p].now) {
      assert a !in ExpiredAt(w.tables.board, w.sweeps[p].now);
    }
    NoOrphans(w.tables, w.sweeps[p].now);
  }

  lemma ReportConsistent(t: Tables, root: Option<Id>)
    requires Consistent(t)
    ensures Consistent(ReportRecovery(t, root))
  {
    hide Sound, WinnerLast, SubmissionsValid, Published, Sequenced, Accounted, StepsTo, CompletesNothing;
    if root.Some? {
      Unmoved(t, ReportRecovery(t, root));
      InsertSequenced(t, root.value, RecoveryReported, RecoveryStream, t.nextId, None);
      QuietInsert(t, root.value, RecoveryReported, RecoveryStream, t.nextId, None);
      BoardOnly(t, ReportRecovery(t, root));
    }
  }

  lemma StepConsistent(w: World, step: Step)
    requires Reliable(w)
    ensures Consistent(Effect(w, step))
  {
    hide Consistent, CommitTransaction, LeaseNew, LeaseAgain, Heartbeat, Handoff, Discard, Ingress, CancelRun,
      AbandonExpired, SettleRegion, ExposeOrphans, ReportRecovery, Sweeping;
    var t := w.tables;
    match step
    case Tick(ms) => TickKeeps(t, ms);
    case ChangeRegion(region, status, raise) =>
      RegionKeeps(t, t.regions[region := Region(status, EpochOf(t.regions, region) + raise)]);
    case AcceptCommand(region, correlation, targets) => IngressConsistent(t, region, correlation, targets);
    case FirstLease(ids, trigger, region, component, correlation, ms) =>
      LeaseNewConsistent(t, ids, trigger, region, component, correlation, ms);
    case RepeatedLease(a, ms) => LeaseAgainConsistent(t, a, ms);
    case Beat(e, a, token, epoch, ms) => HeartbeatConsistent(t, e, a, token, epoch, ms);
    case HandOff(r, digest, stagedValid) => HandoffConsistent(t, r, digest, stagedValid);
    case CommitResult(r, digest, allowExpired, verdict) => if SameDigestSameResult(t, r, digest) {
      CommitConsistent(t, r, digest, allowExpired, verdict);
    }
    case CommitStored(a, allowExpired, verdict) => CommitStoredConsistent(t, a, allowExpired, verdict);
    case DropSubmission(a, digest) => DiscardConsistent(t, a, digest);
    case CancelOperatorRun(region, correlation, key, digest) =>
      CancelRunConsistent(t, region, correlation, key, digest);
    case AbandonOne(p, a) => if p in w.sweeps { AbandonConsistent(t, a, w.sweeps[p].now); }
    case ExposeSweep(p) => if p in w.sweeps && w.sweeps[p].todo == {} { SweepFindsNoOrphan(w, p); }
    case SettleOne(region) => SettleRegionConsistent(t, region);
    case Report(root) => ReportConsistent(t, root);
    case PublishArtifact(digest, kind) => RecordConsistent(t, digest, kind);
    case _ =>
  }

  lemma RecordConsistent(t: Tables, digest: Id, kind: ArtifactKind)
    requires Consistent(t)
    ensures Consistent(RecordArtifact(t, digest, kind))
  {
    hide Authority, WinnerLast, Sequenced;
  }

  lemma CommitStoredConsistent(t: Tables, a: Id, allowExpired: bool, verdict: Verdict)
    requires Consistent(t)
    ensures a in t.submissions ==>
            Consistent(CommitTransaction(t, t.submissions[a].result, t.submissions[a].digest, allowExpired, verdict).0)
  {
    hide Sound, WinnerLast, Published, Sequenced, Accounted, CommitTransaction, SubmissionsValid;
    if a in t.submissions {
      StoredIsSame(t, a);
      CommitConsistent(t, t.submissions[a].result, t.submissions[a].digest, allowExpired, verdict);
    }
  }

  lemma SoundAdvances(t: Tables, s: Tables)
    requires StepsTo(t, s)
    ensures Advances(t.board, s.board, t.clock)
  {
    hide Advances;
  }

  lemma ConsistentSound(t: Tables)
    requires Consistent(t)
    ensures Sound(t) && Advances(t.board, t.board, t.clock)
  {
    hide WinnerLast, SubmissionsValid, Published, Sequenced, Accounted, Advances, Authority;
    AdvancesNowhere(t.board, t.clock) by { BoardRows(t); }
  }

  lemma BoardRows(t: Tables)
    requires Sound(t)
    ensures RowsValid(t.board)
  {
    hide RowsValid, Numbered, InputsOwned, LiveHolds, RunningLives, InputsSettled, UnclaimedIdle;
  }

  lemma StepAdvances(w: World, step: Step)
    requires Reliable(w)
    ensures Advances(w.tables.board, Effect(w, step).board, w.tables.clock)
  {
    hide Sound, WinnerLast, SubmissionsValid, Published, Sequenced, Accounted, Advances, StepsTo, CompletesNothing,
      Sweeping;
    hide CommitTransaction, LeaseNew, LeaseAgain, Heartbeat, Handoff, Discard, Ingress, CancelRun, AbandonExpired,
      SettleRegion, ExposeOrphans;
    var t := w.tables;
    ConsistentSound(t);
    StepAdvancesSound(w, step);
  }

  lemma StepAdvancesSound(w: World, step: Step)
    requires Sound(w.tables) && Advances(w.tables.board, w.tables.board, w.tables.clock)
    requires step.ExposeSweep? ==> Reliable(w)
    ensures Advances(w.tables.board, Effect(w, step).board, w.tables.clock)
  {
    hide Sound, Advances, CompletesNothing, StepsTo, Reliable;
    hide CommitTransaction, LeaseNew, LeaseAgain, Heartbeat, Ingress, CancelRun, AbandonExpired, SettleRegion,
      ExposeOrphans;
    var t := w.tables;
    var s := Effect(w, step);
    match step
    case AcceptCommand(region, correlation, targets) =>
      IngressSound(t, region, correlation, targets); SoundAdvances(t, s);
    case FirstLease(ids, trigger, region, component, correlation, ms) =>
      LeaseNewSound(t, ids, trigger, region, component, correlation, ms); SoundAdvances(t, s);
    case RepeatedLease(a, ms) => LeaseAgainSound(t, a, ms); SoundAdvances(t, s);
    case Beat(e, a, token, epoch, ms) => HeartbeatSound(t, e, a, token, epoch, ms); SoundAdvances(t, s);
    case CommitResult(r, digest, allowExpired, verdict) =>
      if SameDigestSameResult(t, r, digest) { CommitSound(t, r, digest, allowExpired, verdict); SoundAdvances(t, s); }
    case CommitStored(a, allowExpired, verdict) =>
      if a in t.submissions {
        CommitSound(t, t.submissions[a].result, t.submissions[a].digest, allowExpired, verdict);
        SoundAdvances(t, s);
      }
    case CancelOperatorRun(region, correlation, key, digest) =>
      CancelRunSound(t, region, correlation, key, digest); SoundAdvances(t, s);
    case AbandonOne(p, a) => if p in w.sweeps && a in w.sweeps[p].todo {
      AbandonSound(t, a, w.sweeps[p].now);
      SoundAdvances(t, s);
    }
    case ExposeSweep(p) => if p in w.sweeps && w.sweeps[p].todo == {} { SweepFindsNoOrphan(w, p); }
    case SettleOne(region) => SettleRegionSound(t, region); SoundAdvances(t, s);
    case _ =>
  }

  /** Leases only ever start in the future, so no attempt becomes expired at a sweep's time. */
  lemma ExpiredOnlyShrinks(b: Board, c: Board, clock: Time, now: Time)
    requires Advances(b, c, clock) && now <= clock
    ensures ExpiredAt(c, now) <= ExpiredAt(b, now)
  {
    hide Evolves, AddsQueued;
  }

  lemma AbandonedIsGone(t: Tables, a: Id, now: Time)
    requires Sound(t)
    ensures a !in ExpiredAt(AbandonExpired(t, a, now).0.board, now)
  {
    hide Authority, Allocated;
    if Expired(t.board, a, now) { AbandonEnds(t, a, now); }
  }

  lemma AbandonEnds(t: Tables, a: Id, now: Time)
    requires Sound(t) && Expired(t.board, a, now)
    ensures a in AbandonExpired(t, a, now).0.board.attempts
    ensures AbandonExpired(t, a, now).0.board.attempts[a] == Ended(t.board.attempts[a], AttemptStatus.Abandoned, None)
  {
    hide RowsValid, Numbered, InputsOwned, LiveHolds, RunningLives, InputsSettled, UnclaimedIdle;
    ActiveRow(t.board, a);
    assert a != t.nextId;
  }

  lemma BoardClockRises(w: World, step: Step)
    requires OnBoard(step)
    ensures Effect(w, step).clock >= w.tables.clock
  {
    hide AbandonExpired, Available, Claimed, StartExecution, Extend, CancelAll, Presents, Due;
    match step
    case AbandonOne(p, a) =>
      if p in w.sweeps { AbandonBeside(w.tables, a, w.sweeps[p].now); }
    case _ =>
  }

  lemma ClockRises(w: World, step: Step)
    ensures Effect(w, step).clock >= w.tables.clock
  {
    if OnBoard(step) {
      BoardClockRises(w, step);
    } else {
      OtherClockRises(w, step);
    }
  }

  lemma OtherClockRises(w: World, step: Step)
    requires !OnBoard(step)
    ensures Effect(w, step).clock >= w.tables.clock
  {
    hide Refusal, CommitTransaction, CancelAll;
    match step
    case AcceptCommand(region, correlation, targets) =>
      RouteSilent(InsertEvent(w.tables, region, CommandAccepted, CommandStream(region), correlation, None), region,
        correlation, targets, |targets|);
    case CommitResult(r, digest, allowExpired, verdict) =>
      if SameDigestSameResult(w.tables, r, digest) { CommitElsewhere(w.tables, r, digest, allowExpired, verdict); }
    case CommitStored(a, allowExpired, verdict) =>
      if a in w.tables.submissions {
        CommitElsewhere(w.tables, w.tables.submissions[a].result, w.tables.submissions[a].digest, allowExpired,
          verdict);
      }
    case _ =>
  }

  lemma CommitElsewhere(t: Tables, r: Result, digest: Id, allowExpired: bool, verdict: Verdict)
    ensures var s := CommitTransaction(t, r, digest, allowExpired, verdict).0;
            s.clock == t.clock && s.regions == t.regions && s.cancellations == t.cancellations && s.routes == t.routes
    ensures var (s, outcome) := CommitTransaction(t, r, digest, allowExpired, verdict);
            s.artifacts == if outcome.Committed? then Collected(t.artifacts, ArtifactsOf(r)) else t.artifacts
  {
    hide Refusal, Complete, FailOrRetry, UsageRows, UsageValid;
    if Refusal(t, r, digest, allowExpired, verdict).None? {
      AdmittedIsActive(t, r, digest, allowExpired, verdict);
      EndsElsewhere(t.(ledger := t.ledger + UsageRows(t.board.executions[r.executionId].region, r, |COUNTERS|)), r);
    } else {
      NotAdmitted(t, r, digest, allowExpired, verdict);
    }
  }

  lemma NotAdmitted(t: Tables, r: Result, digest: Id, allowExpired: bool, verdict: Verdict)
    ensures Refusal(t, r, digest, allowExpired, verdict) != Some(Committed)
  {
    hide FirstRefusal, UsageValid, RefsDistinct, OutputsDistinct, Conflicted;
  }

  /** Completing and failing an attempt leave the other tables alone. */
  lemma EndsElsewhere(t: Tables, r: Result)
    requires Attached(t.board, r.attemptId, r.executionId)
    ensures var s := Complete(t, r);
            && s.clock == t.clock && s.regions == t.regions && s.cancellations == t.cancellations
            && s.routes == t.routes
            && s.artifacts == Collected(t.artifacts, ArtifactsOf(r))
    ensures var (s, outcome) := FailOrRetry(t, r);
            && s.clock == t.clock && s.regions == t.regions && s.cancellations == t.cancellations
            && s.routes == t.routes
            && s.artifacts == t.artifacts && !outcome.Committed?
  {
    hide PublishResult, Close, Retry, Collected;
    PublishResultElsewhere(t, r);
  }

  lemma PublishResultElsewhere(t: Tables, r: Result)
    requires Attached(t.board, r.attemptId, r.executionId)
    ensures Elsewhere(t, PublishResult(t, r))
  {
    hide Publish, Announce;
    var e := t.board.executions[r.executionId];
    var c := CorrelationOf(t.board, e);
    PublishElsewhere(t, r, e, c, |r.staged|);
    AnnounceQuiet(PublishState(Publish(t, r, e, c, |r.staged|), r), r, e, c, |r.events|);
  }

  /** The steps that write the board, the regions and the clock alone. */
  predicate OnBoard(step: Step) {
    step.Tick? || step.ChangeRegion? || step.FirstLease? || step.RepeatedLease? || step.Beat?
    || step.BeginSweep? || step.AbandonOne? || step.ExposeSweep? || step.CrashSweep? || step.SettleOne?
  }

  predicate Beside(t: Tables, s: Tables) {
    s == t.(clock := s.clock, regions := s.regions, board := s.board, nextId := s.nextId)
  }

  lemma LeasesBeside(t: Tables, ids: set<Id>, trigger: Id, region: Id, component: Id, correlation: Id, ms: int, a: Id)
    ensures Beside(t, LeaseNew(t, ids, trigger, region, component, correlation, ms)) && Beside(t, LeaseAgain(t, a, ms))
  {
    hide StartExecution, LeasePending, Available, Claimed;
  }

  lemma BeatsBeside(t: Tables, e: Id, a: Id, token: Id, epoch: int, ms: int)
    ensures Beside(t, Heartbeat(t, e, a, token, epoch, ms))
  {
    hide Extend;
  }

  lemma AbandonBeside(t: Tables, a: Id, now: Time)
    ensures var s := AbandonExpired(t, a, now).0; s == t.(board := s.board, nextId := s.nextId)
  {
    hide Retry, CloseDeadLettered, AbandonAttempt, RunningAt, NumberTaken;
  }

  lemma OnlyBoard(t: Tables, s: Tables)
    requires s == t.(board := s.board, nextId := s.nextId)
    ensures Beside(t, s)
  {
  }

  lemma SettleBeside(t: Tables, now: Time, region: Id)
    ensures Beside(t, ExposeOrphans(t, now)) && Beside(t, SettleRegion(t, region))
  {
    hide CancelAll, Orphans;
  }

  lemma ClockBeside(w: World, step: Step)
    requires step.Tick? || step.ChangeRegion? || step.BeginSweep? || step.CrashSweep?
    ensures Beside(w.tables, Effect(w, step))
  {
  }

  lemma StepBeside(w: World, step: Step)
    requires OnBoard(step)
    ensures Beside(w.tables, Effect(w, step))
  {
    hide Beside, LeaseNew, LeaseAgain, Heartbeat, AbandonExpired, ExposeOrphans, SettleRegion;
    match step
    case FirstLease(ids, trigger, region, component, correlation, ms) =>
      LeasesBeside(w.tables, ids, trigger, region, component, correlation, ms, 0);
    case RepeatedLease(a, ms) => LeasesBeside(w.tables, {}, 0, 0, 0, 0, ms, a);
    case Beat(e, a, token, epoch, ms) => BeatsBeside(w.tables, e, a, token, epoch, ms);
    case AbandonOne(p, a) =>
      ClockBeside(w, CrashSweep(p));
      if p in w.sweeps {
        AbandonBeside(w.tables, a, w.sweeps[p].now);
        OnlyBoard(w.tables, AbandonExpired(w.tables, a, w.sweeps[p].now).0);
      }
    case ExposeSweep(p) =>
      ClockBeside(w, CrashSweep(p));
      if p in w.sweeps { SettleBeside(w.tables, w.sweeps[p].now, 0); }
    case SettleOne(region) => SettleBeside(w.tables, 0, region);
    case _ => ClockBeside(w, step);
  }

  lemma StepSweeping(w: World, step: Step)
    requires Reliable(w)
    ensures Sweeping(Apply(w, step))
  {
    hide Consistent, Effect, ExpiredAt, Advances;
    StepAdvances(w, step);
    ClockRises(w, step);
    var s := Effect(w, step);
    forall p | p in Sweeps(w, step)
      ensures Sweeps(w, step)[p].now <= s.clock && ExpiredAt(s.board, Sweeps(w, step)[p].now) <= Sweeps(w, step)[p].todo
    {
      var now := Sweeps(w, step)[p].now;
      ExpiredOnlyShrinks(w.tables.board, s.board, w.tables.clock, now);
      if step.AbandonOne? && step.sweep == p { SweepDrops(w, p, step.attempt); }
    }
  }

  lemma SweepDrops(w: World, p: Id, a: Id)
    requires Reliable(w) && p in w.sweeps
    ensures a !in ExpiredAt(Effect(w, AbandonOne(p, a)).board, w.sweeps[p].now)
  {
    hide WinnerLast, SubmissionsValid, Published, Sequenced, Accounted, Sound, AbandonExpired;
    AbandonedIsGone(w.tables, a, w.sweeps[p].now);
  }

  lemma StepReliable(w: World, step: Step)
    requires Reliable(w)
    ensures Reliable(Apply(w, step))
  {
    hide Consistent, Sweeping, Effect;
    StepConsistent(w, step);
    StepSweeping(w, step);
  }

  // ---------------------------------------------------------------- every reachable state

  /** The invariant holds in every state of every run. */
  lemma {:induction false} RunReliable(w: World, steps: seq<Step>)
    requires Reliable(w)
    ensures Reliable(Execute(w, steps))
  {
    hide Reliable, Apply;
    if |steps| > 0 {
      RunReliable(w, steps[..|steps| - 1]);
      StepReliable(Execute(w, steps[..|steps| - 1]), steps[|steps| - 1]);
    }
  }

  lemma EvolvesAtRest(w: World)
    requires Reliable(w)
    ensures Evolves(w.tables.board, w.tables.board)
  {
    hide Sound, WinnerLast, SubmissionsValid, Published, Sequenced, Accounted, Evolves, AddsQueued, LeasesAhead,
      Sweeping;
    ConsistentSound(w.tables);
  }

  /** No run ever changes an ended row, an identity column or the token of an active attempt. */
  lemma {:induction false} RunEvolves(w: World, steps: seq<Step>)
    requires Reliable(w)
    ensures Evolves(w.tables.board, Execute(w, steps).tables.board)
  {
    hide Reliable, Effect, Evolves, AddsQueued, LeasesAhead;
    if |steps| > 0 {
      var mid := Execute(w, steps[..|steps| - 1]);
      RunReliable(w, steps[..|steps| - 1]);
      RunEvolves(w, steps[..|steps| - 1]);
      StepAdvances(mid, steps[|steps| - 1]);
      EvolvesOn(w.tables.board, mid.tables.board, Execute(w, steps).tables.board);
    } else {
      EvolvesAtRest(w);
    }
  }

  /** In every reachable state exposing orphans after a finished sweep touches no row. */
  lemma SweepExposesNothing(w: World, steps: seq<Step>, p: Id)
    requires Reliable(w) && p in Execute(w, steps).sweeps && Execute(w, steps).sweeps[p].todo == {}
    ensures Effect(Execute(w, steps), ExposeSweep(p)) == Execute(w, steps).tables
  {
    hide Reliable, Apply, ExposeOrphans;
    RunReliable(w, steps);
    SweepFindsNoOrphan(Execute(w, steps), p);
  }
}
