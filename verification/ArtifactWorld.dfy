/** Artifacts across database and disk: uploads, commits, promotions and the reconciler as separate
    steps that interleave and crash anywhere.  Metadata is committed first and the bytes follow. */
module ArtifactWorld {
  import opened Basics
  import opened BlobStore

  /** The permission to upload one object; it expires at most one lease after it was given. */
  datatype Upload = Upload(digest: Id, size: nat, created: Time, expires: Time)

  datatype RowStatus = Staged | Promoted | Abandoned

  datatype Row = Row(digest: Id, size: nat, status: RowStatus, artifact: Option<Id>, created: Time)

  datatype Phase = Publishing | Removing | Marking

  /** A promotion under way: by the commit service, the publication service or the reconciler. */
  datatype Job = Job(ref: Id, digest: Id, size: nat, phase: Phase)

  /** `began`, `received` and `validated` are uploads and commits under way, `missing` and `doomed` what
      reconcilers have seen and not yet acted on.  Artifacts are unique by digest. */
  datatype World = World(
    lease: nat,
    grace: nat,
    clock: Time,
    disk: Disk,
    uploads: map<Id, Upload>,
    began: set<Id>,
    received: set<Id>,
    rows: map<Id, Row>,
    validated: set<Id>,
    artifacts: map<Id, nat>,
    jobs: map<Id, Job>,
    missing: set<Id>,
    doomed: set<Id>)

  datatype Step =
    | Tick(elapsed: nat)
    | Authorize(ref: Id, digest: Id, size: nat, ms: int)
    | Begin(ref: Id)
    | Receive(ref: Id, bytes: Bytes)
    | Register(ref: Id)
    | Validate(ref: Id)
    | CommitMetadata(refs: set<Id>)
    | StartPromotion(job: Id, ref: Id)
    | PublishBytes(job: Id)
    | TearStaged(job: Id, losesData: bool, losesMetadata: bool)
    | DropStaged(job: Id)
    | MarkPromoted(job: Id)
    | CrashJob(job: Id)
    | SpotMissing(ref: Id)
    | MarkAbandoned(ref: Id)
    | SpotOrphan(ref: Id)
    | TearOrphan(ref: Id, losesData: bool, losesMetadata: bool)
    | RemoveOrphan(ref: Id)
    | CrashReconciler

  predicate HasBytes(disk: Disk, ref: Id, digest: Id, size: nat) {
    ref in disk.staging && Verified(disk.staging[ref]) && disk.staging[ref].metadata.value == Metadata(digest, size)
  }

  predicate Committed(disk: Disk, digest: Id, size: nat) {
    digest in disk.committed && Verified(disk.committed[digest])
      && disk.committed[digest].metadata.value == Metadata(digest, size)
  }

  /** The commit transaction links each of its staged rows to the artifact of its digest. */
  predicate Linkable(w: World, refs: set<Id>) {
    && (forall ref :: ref in refs ==>
          && ref in w.validated && ref in w.rows && w.rows[ref].status.Staged?
          && (w.rows[ref].digest in w.artifacts ==> w.artifacts[w.rows[ref].digest] == w.rows[ref].size))
    && (forall x, y :: x in refs && y in refs && w.rows[x].digest == w.rows[y].digest ==>
       w.rows[x].size == w.rows[y].size)
  }

  ghost function SizeAmong(w: World, refs: set<Id>, digest: Id): nat
    requires exists ref :: ref in refs && ref in w.rows && w.rows[ref].digest == digest
    requires Linkable(w, refs)
  {
    var ref :| ref in refs && ref in w.rows && w.rows[ref].digest == digest;
    w.rows[ref].size
  }

  function LinkRows(w: World, refs: set<Id>): map<Id, Row> {
    map ref | ref in w.rows :: if ref in refs then w.rows[ref].(artifact := Some(w.rows[ref].digest)) else w.rows[ref]
  }

  ghost function NewArtifacts(w: World, refs: set<Id>): map<Id, nat>
    requires Linkable(w, refs)
  {
    map digest | digest in (set ref | ref in refs :: w.rows[ref].digest) :: SizeAmong(w, refs, digest)
  }

  /** Steps that write or remove files. */
  predicate OnDisk(step: Step) {
    step.Receive? || step.PublishBytes? || step.TearStaged? || step.DropStaged? || step.TearOrphan?
      || step.RemoveOrphan?
  }

  function ApplyDisk(w: World, step: Step): World
    requires OnDisk(step)
  {
    match step
    case Receive(ref, bytes) =>
      if ref in w.began && ref in w.uploads then
        var (disk, receipt) := Stage(w.disk, ref, bytes, Some(w.uploads[ref].digest), Some(w.uploads[ref].size),
          w.clock);
        if receipt.Ok? then w.(disk := disk, received := w.received + {ref}) else w
      else w
    case PublishBytes(job) =>
      if job in w.jobs && w.jobs[job].phase.Publishing? then
        var x := w.jobs[job];
        match PromotionOf(w.disk, x.ref, x.digest, x.size, w.clock)
        case Err(_) => w.(jobs := w.jobs - {job})
        case Ok(None) => w.(jobs := w.jobs[job := x.(phase := Removing)])
        case Ok(Some(dir)) =>
          w.(disk := w.disk.(committed := w.disk.committed[x.digest := dir]),
            jobs := w.jobs[job := x.(phase := Removing)])
      else w
    case TearStaged(job, x, y) =>
      if job in w.jobs && w.jobs[job].phase.Removing? then w.(disk := After(w.disk, Tear(w.jobs[job].ref, x, y))) else w
    case DropStaged(job) =>
      if job in w.jobs && w.jobs[job].phase.Removing?
      then w.(disk := RemoveStaged(w.disk, w.jobs[job].ref), jobs := w.jobs[job := w.jobs[job].(phase := Marking)])
        else w
    case TearOrphan(ref, x, y) =>
      if ref in w.doomed then w.(disk := After(w.disk, Tear(ref, x, y))) else w
    case RemoveOrphan(ref) =>
      if ref in w.doomed then w.(disk := RemoveStaged(w.disk, ref), doomed := w.doomed - {ref}) else w
  }

  ghost function ApplyRows(w: World, step: Step): World
    requires !OnDisk(step)
  {
    match step
    case Tick(elapsed) => w.(clock := w.clock + elapsed)
    case Authorize(ref, digest, size, ms) =>
      if ref !in w.uploads && 0 < ms <= w.lease
        then w.(uploads := w.uploads[ref := Upload(digest, size, w.clock, w.clock + ms)]) else w
    case Begin(ref) =>
      if ref in w.uploads && w.clock < w.uploads[ref].expires then w.(began := w.began + {ref}) else w
    case Register(ref) =>
      if ref in w.received && ref in w.uploads && w.clock < w.uploads[ref].expires && ref !in w.rows
      then w.(rows := w.rows[ref := Row(w.uploads[ref].digest, w.uploads[ref].size, Staged, None, w.clock)]) else w
    case Validate(ref) =>
      if ref in w.rows && w.rows[ref].status.Staged? && HasBytes(w.disk, ref, w.rows[ref].digest, w.rows[ref].size)
      then w.(validated := w.validated + {ref}) else w
    case CommitMetadata(refs) =>
      if Linkable(w, refs) then w.(rows := LinkRows(w, refs), artifacts := w.artifacts + NewArtifacts(w, refs)) else w
    case StartPromotion(job, ref) =>
      if job !in w.jobs && ref in w.rows && w.rows[ref].artifact.Some?
      then w.(jobs := w.jobs[job := Job(ref, w.rows[ref].digest, w.rows[ref].size, Publishing)]) else w
    case MarkPromoted(job) =>
      if job in w.jobs && w.jobs[job].phase.Marking? && w.jobs[job].ref in w.rows then
        var x := w.jobs[job];
        w.(rows := w.rows[x.ref := w.rows[x.ref].(status := Promoted, artifact := Some(x.digest))],
          jobs := w.jobs - {job})
      else w
    case CrashJob(job) => w.(jobs := w.jobs - {job})
    case SpotMissing(ref) =>
      if ref in w.rows && w.rows[ref].status.Staged? && w.rows[ref].artifact.None?
         && w.rows[ref].created < w.clock - w.grace
         && !(ref in w.disk.staging && Verified(w.disk.staging[ref]))
      then w.(missing := w.missing + {ref}) else w
    case MarkAbandoned(ref) =>
      if ref in w.missing && ref in w.rows
      then w.(rows := w.rows[ref := w.rows[ref].(status := RowStatus.Abandoned)], missing := w.missing - {ref}) else w
    case SpotOrphan(ref) =>
      if ref in w.disk.staging && Verified(w.disk.staging[ref]) && ref !in w.rows
         && w.disk.staging[ref].modified < w.clock - w.grace
      then w.(doomed := w.doomed + {ref}) else w
    case CrashReconciler => w.(missing := {}, doomed := {})
  }

  ghost function Apply(w: World, step: Step): World {
    if OnDisk(step) then ApplyDisk(w, step) else ApplyRows(w, step)
  }

  ghost function Run(w: World, steps: seq<Step>): World {
    if |steps| == 0 then w else Apply(Run(w, steps[..|steps| - 1]), steps[|steps| - 1])
  }

  function Initial(lease: nat, grace: nat): World {
    World(lease, grace, 0, Disk(map[], map[]), map[], {}, {}, map[], {}, map[], map[], {}, {})
  }

  // ---------------------------------------------------------------- recoverability

  predicate Published(disk: Disk, digest: Id) {
    digest in disk.committed && Verified(disk.committed[digest])
      && disk.committed[digest].metadata.value.digest == digest
  }

  predicate Recovers(w: World, digest: Id, ref: Id) {
    ref in w.rows && w.rows[ref].status.Staged? && w.rows[ref].artifact == Some(digest)
    && ref in w.disk.staging && Verified(w.disk.staging[ref]) && w.disk.staging[ref].metadata.value.digest == digest
  }

  /** Every committed artifact has its bytes, committed or still staged under a linked row. */
  ghost predicate Recoverable(w: World) {
    forall digest :: digest in w.artifacts ==> Published(w.disk, digest) || exists ref :: Recovers(w, digest, ref)
  }

  /** The grace period outlasts every upload permission, up to the last millisecond. */
  predicate Patient(w: World) { w.lease <= w.grace + 1 }

  predicate UploadsValid(w: World) {
    forall ref :: ref in w.uploads ==>
      w.uploads[ref].created <= w.clock && w.uploads[ref].expires <= w.uploads[ref].created + w.lease
  }

  predicate StagedValid(w: World) {
    && w.began <= w.uploads.Keys && w.received <= w.uploads.Keys
    && forall ref :: ref in w.disk.staging ==>
         && ref in w.uploads
         && w.uploads[ref].created <= w.disk.staging[ref].modified <= w.clock
         && (w.disk.staging[ref].data.Some? && w.disk.staging[ref].metadata.Some? ==>
               Verified(w.disk.staging[ref])
                 && w.disk.staging[ref].metadata.value == Metadata(w.uploads[ref].digest, w.uploads[ref].size))
  }

  predicate DiskValid(w: World) {
    forall digest :: digest in w.disk.committed ==>
      digest in w.artifacts && Committed(w.disk, digest, w.artifacts[digest])
  }

  predicate RowValid(w: World, ref: Id)
    requires ref in w.rows
  {
    var row := w.rows[ref];
    && ref in w.uploads && row.digest == w.uploads[ref].digest && row.size == w.uploads[ref].size
    && (row.artifact.Some? ==> row.artifact == Some(row.digest) && row.digest in w.artifacts
                               && w.artifacts[row.digest] == row.size)
    && !row.status.Abandoned?
    && (row.status.Promoted? ==> row.artifact.Some? && row.digest in w.disk.committed)
    && (row.status.Staged? ==> HasBytes(w.disk, ref, row.digest, row.size)
                               || (row.artifact.Some? && row.digest in w.disk.committed))
  }

  predicate RowsValid(w: World) {
    forall ref :: ref in w.rows ==> RowValid(w, ref)
  }

  predicate JobValid(w: World, x: Job) {
    && x.ref in w.rows && w.rows[x.ref].artifact == Some(x.digest) && w.rows[x.ref].digest == x.digest
    && w.rows[x.ref].size == x.size
    && (!x.phase.Publishing? ==> x.digest in w.disk.committed)
  }

  predicate JobsValid(w: World) {
    forall job :: job in w.jobs ==> JobValid(w, w.jobs[job])
  }

  /** What a reconciler has condemned has no row, and can get none any more. */
  predicate CondemnedValid(w: World) {
    && w.missing == {}
    && forall ref :: ref in w.doomed ==> ref !in w.rows && ref in w.uploads && w.uploads[ref].expires <= w.clock
  }

  /** Received bytes wait for their row unless their permission has expired. */
  predicate ReceivedValid(w: World) {
    forall ref :: ref in w.received ==>
      ref in w.uploads
      && (ref in w.rows || w.uploads[ref].expires <= w.clock
          || HasBytes(w.disk, ref, w.uploads[ref].digest, w.uploads[ref].size))
  }

  ghost predicate ArtifactsLinked(w: World) {
    forall digest :: digest in w.artifacts ==> exists ref :: ref in w.rows && w.rows[ref].artifact == Some(digest)
  }

  ghost predicate Safe(w: World) {
    && Patient(w) && UploadsValid(w) && StagedValid(w) && DiskValid(w) && RowsValid(w) && JobsValid(w)
    && CondemnedValid(w)
    && ReceivedValid(w) && ArtifactsLinked(w)
  }

  lemma SafeRecovers(w: World)
    requires Safe(w)
    ensures Recoverable(w)
  {
    forall digest | digest in w.artifacts
      ensures Published(w.disk, digest) || exists ref :: Recovers(w, digest, ref)
    {
      var ref :| ref in w.rows && w.rows[ref].artifact == Some(digest);
      assert RowValid(w, ref);
      if digest !in w.disk.committed { assert Recovers(w, digest, ref); }
    }
  }

  // ---------------------------------------------------------------- every step keeps it safe

  /** A disk step changes the disk, jobs, receipts and condemned objects. */
  lemma DiskFrame(w: World, step: Step)
    requires OnDisk(step)
    ensures ApplyDisk(w, step) == w.(disk := ApplyDisk(w, step).disk, jobs := ApplyDisk(w, step).jobs,
            received := ApplyDisk(w, step).received,
                                     doomed := ApplyDisk(w, step).doomed)
    ensures ApplyDisk(w, step).doomed <= w.doomed
  {
    hide Stage, PromotionOf;
  }

  /** Any other step leaves the disk and the receipts alone. */
  lemma RowsFrame(w: World, step: Step)
    requires !OnDisk(step)
    ensures ApplyRows(w, step).disk == w.disk && ApplyRows(w, step).received == w.received
    ensures ApplyRows(w, step).lease == w.lease && ApplyRows(w, step).grace == w.grace
            && w.clock <= ApplyRows(w, step).clock
    ensures w.uploads.Keys <= ApplyRows(w, step).uploads.Keys && forall ref :: ref in w.uploads ==>
            ApplyRows(w, step).uploads[ref] == w.uploads[ref]
  {
    hide Linkable, NewArtifacts, LinkRows;
  }

  lemma StepUploads(w: World, step: Step)
    requires UploadsValid(w)
    ensures UploadsValid(Apply(w, step)) && Apply(w, step).clock >= w.clock
            && w.uploads.Keys <= Apply(w, step).uploads.Keys
    ensures forall ref :: ref in w.uploads ==> Apply(w, step).uploads[ref] == w.uploads[ref]
  {
    if OnDisk(step) {
      hide ApplyRows, ApplyDisk;
      DiskFrame(w, step);
    } else {
      hide Linkable, NewArtifacts, LinkRows;
    }
  }

  lemma StepStaged(w: World, step: Step)
    requires StagedValid(w) && UploadsValid(w) && JobsValid(w) && CondemnedValid(w)
    ensures StagedValid(Apply(w, step))
  {
    if OnDisk(step) {
      hide ApplyRows;
      StagedOnDisk(w, step);
    } else {
      hide ApplyRows, JobsValid, CondemnedValid;
      RowsFrame(w, step);
      BeganAuthorized(w, step);
    }
  }

  lemma BeganAuthorized(w: World, step: Step)
    requires StagedValid(w) && !OnDisk(step)
    ensures ApplyRows(w, step).began <= ApplyRows(w, step).uploads.Keys
  {
    hide Linkable, NewArtifacts, LinkRows;
  }

  lemma StagedOnDisk(w: World, step: Step)
    requires StagedValid(w) && UploadsValid(w) && OnDisk(step)
    ensures StagedValid(ApplyDisk(w, step))
  {
    if step.Receive? {
      ReceiveStages(w, step);
    } else {
      RemovalStages(w, step);
    }
  }

  lemma ReceiveStages(w: World, step: Step)
    requires StagedValid(w) && UploadsValid(w) && step.Receive?
    ensures StagedValid(ApplyDisk(w, step))
  {
    hide PromotionOf, After;
  }

  lemma RemovalStages(w: World, step: Step)
    requires StagedValid(w) && OnDisk(step) && !step.Receive?
    ensures StagedValid(ApplyDisk(w, step))
  {
    hide PromotionOf, Stage;
  }

  lemma NewArtifactsExtend(w: World, refs: set<Id>)
    requires Linkable(w, refs)
    ensures forall digest :: digest in w.artifacts ==>
              digest in w.artifacts + NewArtifacts(w, refs)
                && (w.artifacts + NewArtifacts(w, refs))[digest] == w.artifacts[digest]
    ensures forall ref :: ref in refs ==>
              w.rows[ref].digest in w.artifacts + NewArtifacts(w, refs)
                && (w.artifacts + NewArtifacts(w, refs))[w.rows[ref].digest] == w.rows[ref].size
    ensures forall digest :: digest in NewArtifacts(w, refs) ==>
            exists ref :: ref in refs && w.rows[ref].digest == digest
  {
    forall ref | ref in refs ensures w.rows[ref].digest in NewArtifacts(w, refs)
           && NewArtifacts(w, refs)[w.rows[ref].digest] == w.rows[ref].size {
      assert ref in refs && ref in w.rows && w.rows[ref].digest == w.rows[ref].digest;
    }
  }

  lemma StepArtifacts(w: World, step: Step)
    ensures forall digest :: digest in w.artifacts ==>
            digest in Apply(w, step).artifacts && Apply(w, step).artifacts[digest] == w.artifacts[digest]
  {
    hide Stage, PromotionOf, Linkable, NewArtifacts, LinkRows;
    if step.CommitMetadata? && Linkable(w, step.refs) { NewArtifactsExtend(w, step.refs); }
  }

  lemma StepDisk(w: World, step: Step)
    requires DiskValid(w) && JobsValid(w) && RowsValid(w)
    ensures DiskValid(Apply(w, step))
    ensures w.disk.committed.Keys <= Apply(w, step).disk.committed.Keys
  {
    if OnDisk(step) {
      hide ApplyRows;
      CommittedOnDisk(w, step);
    } else {
      StepArtifacts(w, step);
      hide ApplyRows, JobsValid, RowsValid;
      RowsFrame(w, step);
    }
  }

  lemma CommittedOnDisk(w: World, step: Step)
    requires DiskValid(w) && JobsValid(w) && RowsValid(w) && OnDisk(step)
    ensures DiskValid(ApplyDisk(w, step)) && w.disk.committed.Keys <= ApplyDisk(w, step).disk.committed.Keys
  {
    if step.PublishBytes? && step.job in w.jobs {
      JobRow(w, step.job);
    }
    hide JobsValid, RowsValid, Stage, HasBytes;
    DiskFrame(w, step);
    if step.Receive? { StageCommitted(w, step); }
  }

  lemma StageCommitted(w: World, step: Step)
    requires step.Receive?
    ensures ApplyDisk(w, step).disk.committed == w.disk.committed
  {
  }

  lemma JobRow(w: World, job: Id)
    requires JobsValid(w) && RowsValid(w) && job in w.jobs
    ensures JobValid(w, w.jobs[job]) && RowValid(w, w.jobs[job].ref)
  {
  }

  lemma StepCondemned(w: World, step: Step)
    requires Patient(w) && UploadsValid(w) && StagedValid(w) && RowsValid(w) && CondemnedValid(w)
    ensures CondemnedValid(Apply(w, step))
  {
    if OnDisk(step) {
      hide ApplyDisk, ApplyRows, RowsValid;
      DiskFrame(w, step);
    } else {
      CondemnedRows(w, step);
    }
  }

  lemma CondemnedRows(w: World, step: Step)
    requires Patient(w) && UploadsValid(w) && StagedValid(w) && RowsValid(w) && CondemnedValid(w) && !OnDisk(step)
    ensures CondemnedValid(ApplyRows(w, step))
  {
    hide Linkable, NewArtifacts;
    RowsFrame(w, step);
  }

  /** No step takes the bytes of a staged row unless its artifact is committed on disk. */
  lemma StepKeepsBytes(w: World, step: Step, ref: Id)
    requires StagedValid(w) && RowsValid(w) && JobsValid(w) && CondemnedValid(w) && ref in w.rows
    ensures HasBytes(w.disk, ref, w.rows[ref].digest, w.rows[ref].size) ==>
              HasBytes(Apply(w, step).disk, ref, w.rows[ref].digest, w.rows[ref].size)
              || (w.rows[ref].artifact.Some? && w.rows[ref].digest in w.disk.committed)
  {
    if OnDisk(step) {
      DiskKeepsBytes(w, step, ref);
    } else {
      hide ApplyRows;
      RowsFrame(w, step);
    }
  }

  lemma DiskKeepsBytes(w: World, step: Step, ref: Id)
    requires JobsValid(w) && CondemnedValid(w) && ref in w.rows && OnDisk(step)
    ensures HasBytes(w.disk, ref, w.rows[ref].digest, w.rows[ref].size) ==>
              HasBytes(ApplyDisk(w, step).disk, ref, w.rows[ref].digest, w.rows[ref].size)
              || (w.rows[ref].artifact.Some? && w.rows[ref].digest in w.disk.committed)
  {
    hide PromotionOf;
  }

  /** A row keeps what it describes, and a link once made. */
  predicate RowEvolves(x: Row, y: Row) {
    && y.digest == x.digest && y.size == x.size && y.created == x.created
    && (x.artifact.Some? ==> y.artifact == x.artifact)
  }

  lemma StepRowEvolves(w: World, step: Step, ref: Id)
    requires JobsValid(w) && RowsValid(w) && ref in w.rows
    ensures ref in Apply(w, step).rows && RowEvolves(w.rows[ref], Apply(w, step).rows[ref])
  {
    if OnDisk(step) {
      hide ApplyRows, ApplyDisk, JobsValid, RowsValid;
      DiskFrame(w, step);
    } else {
      RowsEvolve(w, step, ref);
    }
  }

  /** Steps that write staging rows. */
  predicate WritesRow(step: Step) {
    step.Register? || step.CommitMetadata? || step.MarkPromoted? || step.MarkAbandoned?
  }

  lemma RowsUntouched(w: World, step: Step)
    requires !OnDisk(step) && !WritesRow(step)
    ensures ApplyRows(w, step).rows == w.rows
  {
    hide Linkable, NewArtifacts, HasBytes, LinkRows;
  }

  lemma RowsEvolve(w: World, step: Step, ref: Id)
    requires JobsValid(w) && RowsValid(w) && ref in w.rows && !OnDisk(step)
    ensures ref in ApplyRows(w, step).rows && RowEvolves(w.rows[ref], ApplyRows(w, step).rows[ref])
  {
    if WritesRow(step) {
      assert RowValid(w, ref);
      hide Linkable, NewArtifacts, RowsValid, HasBytes;
    } else {
      hide ApplyRows, RowsValid, JobsValid;
      RowsUntouched(w, step);
    }
  }

  /** What a step may do to the status of a row of a safe world. */
  lemma StepRowStatus(w: World, step: Step, ref: Id)
    requires JobsValid(w) && RowsValid(w) && CondemnedValid(w) && ref in w.rows
    ensures ref in Apply(w, step).rows
    ensures !Apply(w, step).rows[ref].status.Abandoned?
    ensures Apply(w, step).rows[ref].status.Promoted? ==>
              w.rows[ref].status.Promoted? || (w.rows[ref].digest in w.disk.committed && w.rows[ref].artifact.Some?)
    ensures Apply(w, step).rows[ref].status.Staged? ==> w.rows[ref].status.Staged?
    ensures Apply(w, step).rows[ref].artifact.Some? ==>
              w.rows[ref].artifact.Some? || (step.CommitMetadata? && Linkable(w, step.refs) && ref in step.refs)
    ensures Apply(w, step).rows[ref].artifact.Some? ==> Apply(w, step).rows[ref].artifact == Some(w.rows[ref].digest)
  {
    assert RowValid(w, ref);
    if OnDisk(step) {
      hide ApplyRows, ApplyDisk, JobsValid, RowsValid;
      DiskFrame(w, step);
    } else if !WritesRow(step) {
      hide ApplyRows, ApplyDisk, RowsValid, JobsValid;
      RowsUntouched(w, step);
    } else {
      hide ApplyDisk, Linkable, NewArtifacts, HasBytes, RowsValid;
    }
  }

  lemma StepRow(w: World, step: Step, ref: Id)
    requires StagedValid(w) && UploadsValid(w) && DiskValid(w) && RowsValid(w) && JobsValid(w) && CondemnedValid(w)
             && ref in w.rows
    ensures ref in Apply(w, step).rows && RowValid(Apply(w, step), ref)
  {
    hide Apply, StagedValid, DiskValid, JobsValid, CondemnedValid, Linkable, HasBytes, UploadsValid;
    StepRowEvolves(w, step, ref);
    StepRowStatus(w, step, ref);
    StepKeepsBytes(w, step, ref);
    StepUploads(w, step);
    StepArtifacts(w, step);
    StepDisk(w, step);
    StepLinks(w, step, ref);
    assert RowValid(w, ref);
  }

  lemma StepLinks(w: World, step: Step, ref: Id)
    requires ref in w.rows
    ensures step.CommitMetadata? && Linkable(w, step.refs) && ref in step.refs ==>
              w.rows[ref].digest in Apply(w, step).artifacts
                && Apply(w, step).artifacts[w.rows[ref].digest] == w.rows[ref].size
  {
    hide NewArtifacts, LinkRows, Linkable;
    if step.CommitMetadata? && Linkable(w, step.refs) { NewArtifactsExtend(w, step.refs); }
  }

  lemma StepNewRow(w: World, step: Step, ref: Id)
    requires ReceivedValid(w) && ref !in w.rows && ref in Apply(w, step).rows
    ensures step == Register(ref) && RowValid(Apply(w, step), ref)
  {
    if OnDisk(step) { DiskFrame(w, step); }
    hide ApplyDisk, Linkable, NewArtifacts;
  }

  lemma StepReceived(w: World, step: Step)
    requires ReceivedValid(w) && UploadsValid(w) && StagedValid(w) && JobsValid(w) && CondemnedValid(w)
    ensures ReceivedValid(Apply(w, step))
  {
    if OnDisk(step) {
      ReceivedOnDisk(w, step);
    } else {
      RowsStay(w, step);
      hide ApplyRows;
      RowsFrame(w, step);
    }
  }

  lemma RowsStay(w: World, step: Step)
    requires !OnDisk(step)
    ensures w.rows.Keys <= ApplyRows(w, step).rows.Keys
  {
    hide Linkable, NewArtifacts;
  }

  lemma ReceivedOnDisk(w: World, step: Step)
    requires ReceivedValid(w) && StagedValid(w) && JobsValid(w) && CondemnedValid(w) && OnDisk(step)
    ensures ReceivedValid(ApplyDisk(w, step))
  {
    hide PromotionOf;
  }

  lemma StepRows(w: World, step: Step)
    requires Safe(w)
    ensures RowsValid(Apply(w, step))
  {
    hide Apply, StagedValid, UploadsValid, DiskValid, JobsValid, CondemnedValid, ReceivedValid, ArtifactsLinked,
      RowValid;
    forall ref | ref in Apply(w, step).rows ensures RowValid(Apply(w, step), ref) {
      if ref in w.rows { StepRow(w, step, ref); } else { StepNewRow(w, step, ref); }
    }
  }

  lemma StepJobs(w: World, step: Step)
    requires JobsValid(w) && RowsValid(w) && DiskValid(w)
    ensures JobsValid(Apply(w, step))
  {
    hide Apply, DiskValid, JobValid, RowsValid;
    StepDisk(w, step);
    forall job | job in Apply(w, step).jobs ensures JobValid(Apply(w, step), Apply(w, step).jobs[job]) {
      StepJob(w, step, job);
    }
  }

  lemma StepJob(w: World, step: Step, job: Id)
    requires JobsValid(w) && RowsValid(w) && DiskValid(w) && job in Apply(w, step).jobs
    requires w.disk.committed.Keys <= Apply(w, step).disk.committed.Keys
    ensures JobValid(Apply(w, step), Apply(w, step).jobs[job])
  {
    var x := Apply(w, step).jobs[job];
    OldJob(w, step, job);
    OldJobPhase(w, step, job);
    hide Apply, DiskValid, RowsValid;
    StepRowEvolves(w, step, x.ref);
  }

  /** A job describes its row. */
  predicate Describes(w: World, x: Job) {
    x.ref in w.rows && w.rows[x.ref].artifact == Some(x.digest) && w.rows[x.ref].digest == x.digest
      && w.rows[x.ref].size == x.size
  }

  lemma OldJob(w: World, step: Step, job: Id)
    requires JobsValid(w) && RowsValid(w) && job in Apply(w, step).jobs
    ensures Describes(w, Apply(w, step).jobs[job])
  {
    if OnDisk(step) { DiskJob(w, step, job); } else { RowsJob(w, step, job); }
  }

  lemma DiskJob(w: World, step: Step, job: Id)
    requires JobsValid(w) && OnDisk(step) && job in ApplyDisk(w, step).jobs
    ensures Describes(w, ApplyDisk(w, step).jobs[job])
  {
    hide Stage, PromotionOf, After;
    assert job in w.jobs && JobValid(w, w.jobs[job]);
    hide JobsValid;
  }

  lemma RowsJob(w: World, step: Step, job: Id)
    requires JobsValid(w) && RowsValid(w) && !OnDisk(step) && job in ApplyRows(w, step).jobs
    ensures Describes(w, ApplyRows(w, step).jobs[job])
  {
    if job in w.jobs { assert JobValid(w, w.jobs[job]); }
    if step.StartPromotion? && step.ref in w.rows { assert RowValid(w, step.ref); }
    hide JobsValid, RowsValid, Linkable, NewArtifacts, LinkRows, HasBytes;
  }

  lemma OldJobPhase(w: World, step: Step, job: Id)
    requires JobsValid(w) && job in Apply(w, step).jobs
    requires w.disk.committed.Keys <= Apply(w, step).disk.committed.Keys
    ensures !Apply(w, step).jobs[job].phase.Publishing? ==>
            Apply(w, step).jobs[job].digest in Apply(w, step).disk.committed
  {
    if OnDisk(step) { DiskJobPhase(w, step, job); } else { RowsJobPhase(w, step, job); }
  }

  lemma DiskJobPhase(w: World, step: Step, job: Id)
    requires JobsValid(w) && OnDisk(step) && job in ApplyDisk(w, step).jobs
    requires w.disk.committed.Keys <= ApplyDisk(w, step).disk.committed.Keys
    ensures !ApplyDisk(w, step).jobs[job].phase.Publishing? ==>
            ApplyDisk(w, step).jobs[job].digest in ApplyDisk(w, step).disk.committed
  {
    OnlyOldJobs(w, step);
    assert JobValid(w, w.jobs[job]);
    hide JobsValid;
    if step.PublishBytes? { PublishedPhase(w, step); } else { OtherPhase(w, step); }
    hide ApplyDisk;
  }

  lemma PublishedPhase(w: World, step: Step)
    requires step.PublishBytes?
    ensures forall job :: job in ApplyDisk(w, step).jobs && job in w.jobs ==>
              ApplyDisk(w, step).jobs[job].digest == w.jobs[job].digest
              && (ApplyDisk(w, step).jobs[job] == w.jobs[job]
                  || w.jobs[job].digest in ApplyDisk(w, step).disk.committed)
  {
    hide Verified, Complete;
  }

  lemma OtherPhase(w: World, step: Step)
    requires OnDisk(step) && !step.PublishBytes?
    ensures forall job :: job in ApplyDisk(w, step).jobs && job in w.jobs ==>
              ApplyDisk(w, step).jobs[job].digest == w.jobs[job].digest
              && (ApplyDisk(w, step).jobs[job].phase.Publishing? <==> w.jobs[job].phase.Publishing?)
  {
    hide Stage, After, PromotionOf;
  }

  lemma OnlyOldJobs(w: World, step: Step)
    requires OnDisk(step)
    ensures ApplyDisk(w, step).jobs.Keys <= w.jobs.Keys
  {
    hide Stage, After, PromotionOf;
  }

  lemma RowsJobPhase(w: World, step: Step, job: Id)
    requires JobsValid(w) && !OnDisk(step) && job in ApplyRows(w, step).jobs
    ensures !ApplyRows(w, step).jobs[job].phase.Publishing? ==>
            ApplyRows(w, step).jobs[job].digest in ApplyRows(w, step).disk.committed
  {
    if job in w.jobs { assert JobValid(w, w.jobs[job]); }
    hide JobsValid, Linkable, NewArtifacts, LinkRows, HasBytes;
    RowsFrame(w, step);
  }

  lemma StepLinked(w: World, step: Step)
    requires ArtifactsLinked(w) && JobsValid(w) && RowsValid(w)
    ensures ArtifactsLinked(Apply(w, step))
  {
    var v := Apply(w, step);
    forall digest | digest in v.artifacts ensures exists ref :: ref in v.rows && v.rows[ref].artifact == Some(digest) {
      if digest in w.artifacts {
        var ref :| ref in w.rows && w.rows[ref].artifact == Some(digest);
        hide Apply, JobsValid, RowsValid;
        StepRowEvolves(w, step, ref);
      } else {
        NewlyLinked(w, step, digest);
      }
    }
  }

  lemma NewlyLinked(w: World, step: Step, digest: Id)
    requires digest in Apply(w, step).artifacts && digest !in w.artifacts
    ensures exists ref :: ref in Apply(w, step).rows && Apply(w, step).rows[ref].artifact == Some(digest)
  {
    hide Stage, PromotionOf, Linkable, NewArtifacts;
    assert step.CommitMetadata? && Linkable(w, step.refs);
    NewArtifactsExtend(w, step.refs);
    LinkableKnown(w, step.refs);
    var ref :| ref in step.refs && w.rows[ref].digest == digest;
    assert Apply(w, step).rows[ref].artifact == Some(digest);
  }

  lemma LinkableKnown(w: World, refs: set<Id>)
    requires Linkable(w, refs)
    ensures refs <= w.rows.Keys
  {
  }

  lemma StepPatient(w: World, step: Step)
    requires Patient(w)
    ensures Patient(Apply(w, step))
  {
    hide Stage, PromotionOf, Linkable, NewArtifacts, LinkRows;
  }

  lemma StepSafe(w: World, step: Step)
    requires Safe(w)
    ensures Safe(Apply(w, step))
  {
    hide Apply, Patient, StagedValid, UploadsValid, DiskValid, JobsValid, CondemnedValid, ReceivedValid,
      ArtifactsLinked, RowsValid;
    StepPatient(w, step);
    StepUploads(w, step);
    StepStaged(w, step);
    StepDisk(w, step);
    StepRows(w, step);
    StepJobs(w, step);
    StepCondemned(w, step);
    StepReceived(w, step);
    StepLinked(w, step);
  }

  // ---------------------------------------------------------------- the main results

  /** With a patient reconciler, whatever interleaves and wherever anything crashes, every committed
      artifact keeps its bytes, and no staging row is ever abandoned. */
  lemma {:induction false} AlwaysRecoverable(w: World, steps: seq<Step>)
    requires Safe(w)
    ensures Safe(Run(w, steps)) && Recoverable(Run(w, steps))
  {
    hide Safe, Apply, Recoverable;
    if |steps| > 0 {
      AlwaysRecoverable(w, steps[..|steps| - 1]);
      StepSafe(Run(w, steps[..|steps| - 1]), steps[|steps| - 1]);
    }
    SafeRecovers(Run(w, steps));
  }

  lemma InitialSafe(lease: nat, grace: nat)
    requires lease <= grace + 1
    ensures Safe(Initial(lease, grace))
  {
  }

  // ---------------------------------------------------------------- an impatient reconciler

  function Upload1(lease: nat, bytes: Bytes): seq<Step> {
    [Authorize(1, SHA256(bytes), |bytes|, lease), Begin(1), Receive(1, bytes)]
  }

  function Spot1(lease: nat): seq<Step>
    requires lease > 0
  {
    [Tick(lease - 1), SpotOrphan(1), Register(1)]
  }

  function Commit1(): seq<Step> { [Validate(1), CommitMetadata({1}), RemoveOrphan(1)] }

  /** The reconciler looks for the row of an object, the upload registers and commits it, and the
      reconciler removes it. */
  function Race(lease: nat, bytes: Bytes): seq<Step>
    requires lease > 0
  {
    Upload1(lease, bytes) + Spot1(lease) + Commit1()
  }

  lemma {:induction false} RunJoins(w: World, xs: seq<Step>, ys: seq<Step>)
    ensures Run(w, xs + ys) == Run(Run(w, xs), ys)
  {
    hide Apply;
    if |ys| == 0 {
      assert xs + ys == xs;
    } else {
      assert (xs + ys)[..|xs + ys| - 1] == xs + ys[..|ys| - 1];
      RunJoins(w, xs, ys[..|ys| - 1]);
    }
  }

  lemma RunThree(w: World, a: Step, b: Step, c: Step)
    ensures Run(w, [a, b, c]) == Apply(Apply(Apply(w, a), b), c)
  {
    hide Apply;
    assert [a, b, c][..2] == [a, b] && [a, b][..1] == [a] && [a][..0] == [];
    assert Run(w, [a]) == Apply(w, a);
    assert Run(w, [a, b]) == Apply(Run(w, [a]), b);
  }

  lemma RaceUploads(lease: nat, grace: nat, bytes: Bytes)
    requires grace + 1 < lease
    ensures var w := Apply(Apply(Apply(Initial(lease, grace), Authorize(1, SHA256(bytes), |bytes|, lease)), Begin(1)),
            Receive(1, bytes));
            w == Initial(lease, grace).(uploads := map[1 := Upload(SHA256(bytes), |bytes|, 0, lease)], began := {1},
              received := {1},
                                        disk := Disk(map[1 := Complete(bytes, 0)], map[]))
  {
  }

  /** Registered although condemned. */
  predicate Condemned(w: World, bytes: Bytes) {
    && w.rows.Keys == {1} && w.rows[1].digest == SHA256(bytes) && w.rows[1].size == |bytes| && w.rows[1].status.Staged?
    && w.artifacts == map[] && w.disk == Disk(map[1 := Complete(bytes, 0)], map[]) && 1 in w.doomed
  }

  lemma RaceSpots(w: World, lease: nat, grace: nat, bytes: Bytes)
    requires grace + 1 < lease
    requires w == Initial(lease, grace).(uploads := map[1 := Upload(SHA256(bytes), |bytes|, 0, lease)], began := {1},
             received := {1},
                                         disk := Disk(map[1 := Complete(bytes, 0)], map[]))
    ensures Condemned(Apply(Apply(Apply(w, Tick(lease - 1)), SpotOrphan(1)), Register(1)), bytes)
  {
  }

  lemma RaceValidates(w: World, bytes: Bytes)
    requires Condemned(w, bytes)
    ensures Apply(w, Validate(1)) == w.(validated := w.validated + {1})
  {
  }

  lemma RaceLinks(w: World, bytes: Bytes)
    requires Condemned(w, bytes) && 1 in w.validated
    ensures var v := Apply(w, CommitMetadata({1}));
            SHA256(bytes) in v.artifacts && v.disk == w.disk && v.doomed == w.doomed
  {
    assert Linkable(w, {1});
    NewArtifactsExtend(w, {1});
    hide NewArtifacts, Linkable, LinkRows;
    assert 1 in {1};
  }

  lemma RaceRemoves(w: World, bytes: Bytes)
    requires SHA256(bytes) in w.artifacts && w.disk == Disk(map[1 := Complete(bytes, 0)], map[]) && 1 in w.doomed
    ensures !Recoverable(Apply(w, RemoveOrphan(1)))
  {
    var v := Apply(w, RemoveOrphan(1));
    assert v.disk == Disk(map[], map[]) && v.artifacts == w.artifacts;
    hide Apply;
  }

  lemma RaceCommits(w: World, bytes: Bytes)
    requires Condemned(w, bytes)
    ensures !Recoverable(Apply(Apply(Apply(w, Validate(1)), CommitMetadata({1})), RemoveOrphan(1)))
  {
    hide Apply, Recoverable;
    RaceValidates(w, bytes);
    RaceLinks(Apply(w, Validate(1)), bytes);
    RaceRemoves(Apply(Apply(w, Validate(1)), CommitMetadata({1})), bytes);
  }

  lemma RaceLoses(lease: nat, grace: nat, bytes: Bytes)
    requires grace + 1 < lease
    ensures !Recoverable(Run(Initial(lease, grace), Race(lease, bytes)))
  {
    hide Recoverable, Apply, Run, Initial, Condemned;
    var i := Initial(lease, grace);
    RaceUploads(lease, grace, bytes);
    var w := Apply(Apply(Apply(i, Authorize(1, SHA256(bytes), |bytes|, lease)), Begin(1)), Receive(1, bytes));
    RaceSpots(w, lease, grace, bytes);
    var v := Apply(Apply(Apply(w, Tick(lease - 1)), SpotOrphan(1)), Register(1));
    RaceCommits(v, bytes);
    RunThree(i, Authorize(1, SHA256(bytes), |bytes|, lease), Begin(1), Receive(1, bytes));
    RunThree(w, Tick(lease - 1), SpotOrphan(1), Register(1));
    RunThree(v, Validate(1), CommitMetadata({1}), RemoveOrphan(1));
    RunJoins(i, Upload1(lease, bytes), Spot1(lease));
    RunJoins(i, Upload1(lease, bytes) + Spot1(lease), Commit1());
  }

  /** The exact condition: artifacts are recoverable in every run if and only if the grace period lasts
      at least as long as an upload permission, to within one millisecond. */
  lemma RecoverableIffPatient(lease: nat, grace: nat)
    ensures (forall steps :: Recoverable(Run(Initial(lease, grace), steps))) <==> lease <= grace + 1
  {
    hide Recoverable, Run, Initial, Race, Safe;
    if lease <= grace + 1 {
      InitialSafe(lease, grace);
      forall steps ensures Recoverable(Run(Initial(lease, grace), steps)) {
        AlwaysRecoverable(Initial(lease, grace), steps);
      }
    } else {
      RaceLoses(lease, grace, []);
      assert !Recoverable(Run(Initial(lease, grace), Race(lease, [])));
    }
  }

  const DEFAULT_GRACE_MS := 3600 * 1000
  const MAX_LEASE_MS := 15 * 60_000

  /** The shipped defaults are patient. */
  lemma DefaultsArePatient(lease: nat, steps: seq<Step>)
    requires lease <= MAX_LEASE_MS
    ensures Recoverable(Run(Initial(lease, DEFAULT_GRACE_MS), steps))
  {
    InitialSafe(lease, DEFAULT_GRACE_MS);
    AlwaysRecoverable(Initial(lease, DEFAULT_GRACE_MS), steps);
  }
}
