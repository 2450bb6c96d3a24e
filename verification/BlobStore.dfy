/** The filesystem blob store.  An object is a directory with a data file and a metadata file.  It
    appears all at once, by renaming a complete temporary directory, but it is removed file by file, so
    a crash can leave it torn.  Staging ids and digests stand for the names of the directories; the
    temporary directories have fresh names and are never looked at again. */
module BlobStore {
  import opened Ordering
  import opened Basics

  type Bytes = seq<bv8>

  /** SHA-256, of which nothing is assumed. */
  const SHA256: Bytes -> Id

  datatype Metadata = Metadata(digest: Id, size: nat)

  datatype Directory = Directory(data: Option<Bytes>, metadata: Option<Metadata>, modified: Time)

  datatype Disk = Disk(staging: map<Id, Directory>, committed: map<Id, Directory>)

  datatype BlobError = InvalidSize | InvalidLimit | NotFound | DigestMismatch | SizeMismatch | StagingConflict
      | CommittedConflict

  datatype Result<+T> = Ok(value: T) | Err(error: BlobError)

  function Measure(bytes: Bytes): Metadata { Metadata(SHA256(bytes), |bytes|) }

  function Complete(bytes: Bytes, at: Time): Directory {
    Directory(Some(bytes), Some(Measure(bytes)), at)
  }

  /** Both files are there and the content matches the metadata. */
  predicate Verified(d: Directory) {
    d.data.Some? && d.metadata.Some? && d.metadata.value == Measure(d.data.value)
  }

  /** `readVerifiedObjectMetadata`. */
  function ReadVerified(dirs: map<Id, Directory>, id: Id, missing: BlobError): Result<Metadata> {
    if id in dirs && Verified(dirs[id]) then Ok(dirs[id].metadata.value) else Err(missing)
  }

  datatype Publication = Published(dirs: map<Id, Directory>) | AlreadyPublished | Conflict

  /** The rename: it succeeds onto nothing or onto an empty directory. */
  function Publish(dirs: map<Id, Directory>, id: Id, dir: Directory): Publication
    requires Verified(dir)
  {
    if id !in dirs || (dirs[id].data.None? && dirs[id].metadata.None?) then Published(dirs[id := dir])
    else if Verified(dirs[id]) && dirs[id].metadata == dir.metadata then AlreadyPublished
    else Conflict
  }

  function Stage(disk: Disk, id: Id, bytes: Bytes, expectedDigest: Option<Id>, expectedSize: Option<int>,
      at: Time): (Disk, Result<Metadata>) {
    var measured := Measure(bytes);
    if expectedSize.Some? && expectedSize.value < 0 then (disk, Err(InvalidSize))
    else if expectedSize.Some? && expectedSize.value != measured.size then (disk, Err(SizeMismatch))
    else if expectedDigest.Some? && expectedDigest.value != measured.digest then (disk, Err(DigestMismatch))
    else
      match Publish(disk.staging, id, Complete(bytes, at))
      case Published(dirs) => (disk.(staging := dirs), Ok(measured))
      case AlreadyPublished => (disk, ReadVerified(disk.staging, id, StagingConflict))
      case Conflict => (disk, Err(StagingConflict))
  }

  function RemoveStaged(disk: Disk, id: Id): Disk { disk.(staging := disk.staging - {id}) }

  /** The checks of a promotion, ending with what is to be published; `None` when it already is. */
  function PromotionOf(disk: Disk, id: Id, digest: Id, size: int, at: Time): Result<Option<Directory>> {
    if size < 0 then Err(InvalidSize)
    else if digest in disk.committed then
      if Verified(disk.committed[digest])
         && disk.committed[digest].metadata.value == Metadata(digest, size) then Ok(None)
      else Err(CommittedConflict)
    else if id !in disk.staging then Err(NotFound)
    else
      var dir := disk.staging[id];
      if dir.data.None? || dir.metadata.None? then Err(StagingConflict)
      else if dir.metadata.value.size != size then Err(SizeMismatch)
      else if dir.metadata.value.digest != digest then Err(DigestMismatch)
      else
        var measured := Measure(dir.data.value);
        if measured.size != size then Err(SizeMismatch)
        else if measured.digest != digest then Err(DigestMismatch)
        else Ok(Some(Complete(dir.data.value, at)))
  }

  function Promote(disk: Disk, id: Id, digest: Id, size: int, at: Time): (Disk, Result<Metadata>) {
    match PromotionOf(disk, id, digest, size, at)
    case Err(error) => (disk, Err(error))
    case Ok(None) => (RemoveStaged(disk, id), Ok(Metadata(digest, size)))
    case Ok(Some(dir)) => (RemoveStaged(disk.(committed := disk.committed[digest := dir]), id),
      Ok(Metadata(digest, size)))
  }

  // ---------------------------------------------------------------- crashes and interleavings

  /** The steps that reach the disk, of any number of concurrent calls; a crash is a call that takes no
      further step.  `Tear` is a removal that has deleted some files, `Vanish` its last step. */
  datatype BlobStep =
    | StageStep(id: Id, bytes: Bytes, at: Time)
    | PublishStep(id: Id, digest: Id, size: int, at: Time)
    | Tear(id: Id, losesData: bool, losesMetadata: bool)
    | Vanish(id: Id)

  function Torn(d: Directory, losesData: bool, losesMetadata: bool): Directory {
    d.(data := if losesData then None else d.data, metadata := if losesMetadata then None else d.metadata)
  }

  function After(disk: Disk, step: BlobStep): Disk {
    match step
    case StageStep(id, bytes, at) =>
      (match Publish(disk.staging, id, Complete(bytes, at))
       case Published(dirs) => disk.(staging := dirs)
       case _ => disk)
    case PublishStep(id, digest, size, at) =>
      (match PromotionOf(disk, id, digest, size, at)
       case Ok(Some(dir)) => disk.(committed := disk.committed[digest := dir])
       case _ => disk)
    case Tear(id, losesData, losesMetadata) =>
      if id in disk.staging then disk.(staging := disk.staging[id := Torn(disk.staging[id], losesData, losesMetadata)])
        else disk
    case Vanish(id) => RemoveStaged(disk, id)
  }

  function Run(disk: Disk, steps: seq<BlobStep>): Disk {
    if |steps| == 0 then disk else After(Run(disk, steps[..|steps| - 1]), steps[|steps| - 1])
  }

  /** Committed objects are complete, match their metadata and sit under their own digest. */
  predicate CommittedValid(disk: Disk) {
    forall digest :: digest in disk.committed ==>
      Verified(disk.committed[digest]) && disk.committed[digest].metadata.value.digest == digest
  }

  /** Staged objects match their metadata, or are being removed. */
  predicate StagedHonest(disk: Disk) {
    forall id :: id in disk.staging && disk.staging[id].data.Some? && disk.staging[id].metadata.Some? ==>
      Verified(disk.staging[id])
  }

  /** A committed object never changes, and it always lies under its own digest, whatever calls
      interleave and wherever they crash. */
  lemma {:induction false} WriteOnce(disk: Disk, steps: seq<BlobStep>)
    requires CommittedValid(disk) && StagedHonest(disk)
    ensures CommittedValid(Run(disk, steps)) && StagedHonest(Run(disk, steps))
    ensures forall digest :: digest in disk.committed ==>
              digest in Run(disk, steps).committed && Run(disk, steps).committed[digest] == disk.committed[digest]
  {
    if |steps| > 0 { WriteOnce(disk, steps[..|steps| - 1]); }
  }

  /** A staged object changes only by its own removal: otherwise a later stage of the same id either
      finds the same content or is refused. */
  lemma {:induction false} StagedOnce(disk: Disk, steps: seq<BlobStep>, id: Id)
    requires id in disk.staging && Verified(disk.staging[id])
    requires forall step :: step in steps ==> !(step.Tear? && step.id == id) && !(step.Vanish? && step.id == id)
    ensures id in Run(disk, steps).staging && Run(disk, steps).staging[id] == disk.staging[id]
  {
    if |steps| > 0 {
      assert steps[|steps| - 1] in steps;
      StagedOnce(disk, steps[..|steps| - 1], id);
    }
  }

  /** What a successful stage promises: the staged bytes have the receipt's digest and size, which are
      the expected ones; a refused stage changes nothing. */
  lemma StageReceipt(disk: Disk, id: Id, bytes: Bytes, expectedDigest: Option<Id>, expectedSize: Option<int>, at: Time)
    ensures var (after, receipt) := Stage(disk, id, bytes, expectedDigest, expectedSize, at);
            && (receipt.Ok? ==>
                  && id in after.staging && Verified(after.staging[id])
                  && after.staging[id].metadata.value == receipt.value == Measure(bytes)
                  && (expectedDigest.Some? ==> receipt.value.digest == expectedDigest.value)
                  && (expectedSize.Some? ==> receipt.value.size == expectedSize.value))
            && (receipt.Err? ==> after == disk)
            && after.committed == disk.committed
            && after == (if receipt.Ok? then After(disk, StageStep(id, bytes, at)) else disk)
  {
  }

  /** The disk after `promote` was interrupted: before it published, after it published, with the staged
      directory torn, or at its end. */
  predicate Interrupted(disk: Disk, id: Id, digest: Id, size: int, at: Time, crashed: Disk) {
    || crashed == disk
    || crashed == After(disk, PublishStep(id, digest, size, at))
    || (exists x, y :: crashed == After(After(disk, PublishStep(id, digest, size, at)), Tear(id, x, y)))
    || crashed == Promote(disk, id, digest, size, at).0
  }

  /** Running an interrupted promotion again ends as the uninterrupted one would have: committed bytes
      under the digest and no staged directory. */
  lemma PromoteRetries(disk: Disk, id: Id, digest: Id, size: int, at: Time, crashed: Disk, later: Time)
    requires CommittedValid(disk)
    requires Promote(disk, id, digest, size, at).1.Ok? && Interrupted(disk, id, digest, size, at, crashed)
    ensures var (after, receipt) := Promote(crashed, id, digest, size, later);
            && receipt == Ok(Metadata(digest, size))
            && digest in after.committed && Verified(after.committed[digest])
            && after.committed[digest].metadata.value == Metadata(digest, size)
            && id !in after.staging
            && (crashed != disk ==> after == Promote(disk, id, digest, size, at).0)
  {
  }

  /** A promotion that fails leaves the disk as it was. */
  lemma PromoteFailsCleanly(disk: Disk, id: Id, digest: Id, size: int, at: Time)
    ensures Promote(disk, id, digest, size, at).1.Err? ==> Promote(disk, id, digest, size, at).0 == disk
  {
  }

  /** Exactly when a promotion succeeds. */
  lemma PromotesIff(disk: Disk, id: Id, digest: Id, size: int, at: Time)
    ensures Promote(disk, id, digest, size, at).1.Ok?
            <==> size >= 0
                 && (if digest in disk.committed
                     then Verified(disk.committed[digest])
                       && disk.committed[digest].metadata.value == Metadata(digest, size)
                     else id in disk.staging && Verified(disk.staging[id])
                          && disk.staging[id].metadata.value == Metadata(digest, size))
  {
  }

  // ---------------------------------------------------------------- listing

  datatype Page = Page(objects: seq<Id>, next: Option<Id>)

  ghost function PageOf(ids: set<Id>, limit: nat, cursor: Option<Id>): Page
    requires limit > 0
  {
    var listing := Sorted(Beyond(ids, cursor));
    if |listing| <= limit then Page(listing, None) else Page(listing[..limit], Some(listing[limit - 1]))
  }

  const MAX_PAGE := 1000

  /** A limit out of range is an error, and so is a page with an object that cannot be verified. */
  ghost function ListStaged(disk: Disk, limit: nat, cursor: Option<Id>): Result<Page> {
    if limit == 0 || limit > MAX_PAGE then Err(InvalidLimit)
    else
      var page := PageOf(disk.staging.Keys, limit, cursor);
      if forall id :: id in page.objects ==>
        id in disk.staging && Verified(disk.staging[id]) then Ok(page) else Err(NotFound)
  }

  /** A removal that was interrupted has deleted the data file or the metadata file. */
  predicate LostFile(disk: Disk, id: Id) {
    id in disk.staging && (disk.staging[id].data.None? || disk.staging[id].metadata.None?)
  }

  lemma ListsIff(disk: Disk, limit: nat, cursor: Option<Id>)
    requires StagedHonest(disk) && 0 < limit <= MAX_PAGE
    ensures ListStaged(disk, limit, cursor)
            == (if exists id :: id in PageOf(disk.staging.Keys, limit, cursor).objects
                                && LostFile(disk, id) then Err(NotFound)
                else Ok(PageOf(disk.staging.Keys, limit, cursor)))
  {
    PageListed(disk.staging.Keys, limit, cursor);
    hide PageOf;
  }

  const EMPTY := Disk(map[], map[])

  /** On every disk that calls and crashes can lead to, a listing fails exactly when its limit is out
      of range or its page holds a directory that lost a file. */
  lemma ListingFailsIff(steps: seq<BlobStep>, limit: nat, cursor: Option<Id>)
    ensures var disk := Run(EMPTY, steps);
            ListStaged(disk, limit, cursor).Err?
            <==> limit == 0 || limit > MAX_PAGE
                 || exists id :: id in PageOf(disk.staging.Keys, limit, cursor).objects && LostFile(disk, id)
  {
    hide Run, PageOf, ListStaged, LostFile, StagedHonest, CommittedValid;
    EmptyHonest();
    WriteOnce(EMPTY, steps);
    if 0 < limit <= MAX_PAGE {
      ListsIff(Run(EMPTY, steps), limit, cursor);
    } else {
      LimitChecked(Run(EMPTY, steps), limit, cursor);
    }
  }

  lemma EmptyHonest()
    ensures CommittedValid(EMPTY) && StagedHonest(EMPTY)
  {
  }

  lemma LimitChecked(disk: Disk, limit: nat, cursor: Option<Id>)
    requires limit == 0 || limit > MAX_PAGE
    ensures ListStaged(disk, limit, cursor) == Err(InvalidLimit)
  {
  }

  /** An object is staged and promoted, and the removal of its staged directory crashes after the data
      file. */
  function TornRemoval(bytes: Bytes, at: Time): seq<BlobStep> {
    [StageStep(0, bytes, at), PublishStep(0, SHA256(bytes), |bytes|, at), Tear(0, true, false)]
  }

  lemma TornRemovalTears(bytes: Bytes, at: Time)
    ensures var disk := Run(EMPTY, TornRemoval(bytes, at));
            && disk.committed == map[SHA256(bytes) := Complete(bytes, at)]
            && disk.staging == map[0 := Directory(None, Some(Measure(bytes)), at)]
  {
    var steps := TornRemoval(bytes, at);
    assert steps[..2] == [StageStep(0, bytes, at), PublishStep(0, SHA256(bytes), |bytes|, at)];
    assert steps[..2][..1] == [StageStep(0, bytes, at)];
    assert steps[..2][..1][..0] == [];
    var one := After(EMPTY, StageStep(0, bytes, at));
    assert one.staging == map[0 := Complete(bytes, at)] && one.committed == map[];
    assert Run(EMPTY, steps[..2][..1]) == one;
    var two := After(one, PublishStep(0, SHA256(bytes), |bytes|, at));
    assert two.staging == one.staging && two.committed == map[SHA256(bytes) := Complete(bytes, at)];
    assert Run(EMPTY, steps[..2]) == two;
  }

  /** Its committed bytes are there, but from then on every listing from the start fails, whatever else
      is staged, promoted or removed, until the torn directory itself is removed. */
  lemma TornStopsListing(bytes: Bytes, at: Time, later: seq<BlobStep>, limit: nat)
    requires forall step :: step in later ==> !(step.Tear? && step.id == 0) && !(step.Vanish? && step.id == 0)
    ensures var disk := Run(Run(EMPTY, TornRemoval(bytes, at)), later);
            && SHA256(bytes) in disk.committed && Verified(disk.committed[SHA256(bytes)])
            && ListStaged(disk, limit, None).Err?
  {
    hide PageOf, Run, StagedHonest, CommittedValid;
    TornRemovalTears(bytes, at);
    var torn := Run(EMPTY, TornRemoval(bytes, at));
    EmptyHonest();
    WriteOnce(EMPTY, TornRemoval(bytes, at));
    WriteOnce(torn, later);
    TornStays(torn, later, 0);
    if 0 < limit <= MAX_PAGE {
      FirstListed(Run(torn, later).staging.Keys, limit);
      ListsIff(Run(torn, later), limit, None);
    }
  }

  /** A directory that lost its data alone stays so until it is removed: staging the id again is refused. */
  lemma {:induction false} TornStays(disk: Disk, steps: seq<BlobStep>, id: Id)
    requires id in disk.staging && disk.staging[id].data.None? && disk.staging[id].metadata.Some?
    requires forall step :: step in steps ==> !(step.Tear? && step.id == id) && !(step.Vanish? && step.id == id)
    ensures id in Run(disk, steps).staging && Run(disk, steps).staging[id] == disk.staging[id]
  {
    if |steps| > 0 {
      assert steps[|steps| - 1] in steps;
      TornStays(disk, steps[..|steps| - 1], id);
    }
  }

  /** The page at the start holds the least id. */
  lemma FirstListed(ids: set<Id>, limit: nat)
    requires 0 < limit && 0 in ids
    ensures 0 in PageOf(ids, limit, None).objects
  {
    assert 0 in Beyond(ids, None);
    LeastFirst(Beyond(ids, None));
    assert PageOf(ids, limit, None).objects[0] == 0;
  }

  // ---------------------------------------------------------------- the store as it runs

  class DigestAccumulator {
    ghost var seen: Bytes
    var content: Bytes
    var size: nat

    ghost predicate Valid()
      reads this
    {
      content == seen && size == |seen|
    }

    constructor ()
      ensures Valid() && seen == []
    {
      seen, content, size := [], [], 0;
    }

    method Update(chunk: Bytes)
      requires Valid()
      modifies this
      ensures Valid() && seen == old(seen) + chunk
    {
      content := content + chunk;
      size := size + |chunk|;
      seen := seen + chunk;
    }

    method Result() returns (measured: Metadata)
      requires Valid()
      ensures measured == Measure(seen)
    {
      measured := Metadata(SHA256(content), size);
    }
  }

  function Flatten(chunks: seq<Bytes>): Bytes {
    if |chunks| == 0 then [] else Flatten(chunks[..|chunks| - 1]) + chunks[|chunks| - 1]
  }

  lemma FlattenNext(chunks: seq<Bytes>, i: nat)
    requires i < |chunks|
    ensures Flatten(chunks[..i + 1]) == Flatten(chunks[..i]) + chunks[i]
  {
    assert chunks[..i + 1][..i] == chunks[..i];
  }

  class FilesystemStore {
    var staging: map<Id, Directory>
    var committed: map<Id, Directory>

    constructor ()
      ensures Contents() == Disk(map[], map[])
    {
      staging, committed := map[], map[];
    }

    function Contents(): Disk
      reads this
    {
      Disk(staging, committed)
    }

    /** Reads the stream chunk by chunk while measuring it, then publishes. */
    method StageStream(id: Id, chunks: seq<Bytes>, expectedDigest: Option<Id>, expectedSize: Option<int>, at: Time)
      returns (receipt: Result<Metadata>)
      modifies this`staging
      ensures (Contents(), receipt) == Stage(old(Contents()), id, Flatten(chunks), expectedDigest, expectedSize, at)
    {
      if expectedSize.Some? && expectedSize.value < 0 {
        return Err(InvalidSize);
      }
      var meter := new DigestAccumulator();
      var temporary: Bytes := [];
      for i := 0 to |chunks|
        invariant meter.Valid() && meter.seen == temporary == Flatten(chunks[..i])
        invariant fresh(meter) && Contents() == old(Contents())
      {
        FlattenNext(chunks, i);
        meter.Update(chunks[i]);
        temporary := temporary + chunks[i];
      }
      assert chunks[..|chunks|] == chunks;
      var measured := meter.Result();
      if expectedSize.Some? && expectedSize.value != measured.size {
        return Err(SizeMismatch);
      }
      if expectedDigest.Some? && expectedDigest.value != measured.digest {
        return Err(DigestMismatch);
      }
      match Publish(staging, id, Directory(Some(temporary), Some(measured), at))
      case Published(dirs) =>
        staging := dirs;
        receipt := Ok(measured);
      case AlreadyPublished =>
        receipt := ReadVerified(staging, id, StagingConflict);
      case Conflict =>
        receipt := Err(StagingConflict);
    }

    method PromoteStaged(id: Id, digest: Id, size: int, at: Time) returns (receipt: Result<Metadata>)
      modifies this
      ensures (Contents(), receipt) == Promote(old(Contents()), id, digest, size, at)
    {
      if size < 0 {
        return Err(InvalidSize);
      }
      if digest in committed {
        var existing := ReadVerified(committed, digest, CommittedConflict);
        if existing.Err? || existing.value.size != size || existing.value.digest != digest {
          return Err(CommittedConflict);
        }
        staging := staging - {id};
        return Ok(Metadata(digest, size));
      }
      if id !in staging {
        return Err(NotFound);
      }
      var dir := staging[id];
      if dir.data.None? || dir.metadata.None? {
        return Err(StagingConflict);
      }
      if dir.metadata.value.size != size {
        return Err(SizeMismatch);
      }
      if dir.metadata.value.digest != digest {
        return Err(DigestMismatch);
      }
      var measured := Measure(dir.data.value);
      if measured.size != size {
        return Err(SizeMismatch);
      }
      if measured.digest != digest {
        return Err(DigestMismatch);
      }
      committed := committed[digest := Directory(dir.data, Some(measured), at)];
      staging := staging - {id};
      receipt := Ok(Metadata(digest, size));
    }

    /** Names are sorted first; each object of the slice is read and verified in turn. */
    method ListPage(limit: nat, cursor: Option<Id>) returns (page: Result<Page>)
      ensures page == ListStaged(Contents(), limit, cursor)
    {
      if limit == 0 || limit > MAX_PAGE {
        return Err(InvalidLimit);
      }
      var ids := OrderById(Beyond(staging.Keys, cursor));
      var listed := if |ids| <= limit then Page(ids, None) else Page(ids[..limit], Some(ids[limit - 1]));
      PageListed(staging.Keys, limit, cursor);
      hide PageOf, Sorted, Beyond;
      for i := 0 to |listed.objects|
        invariant forall j :: 0 <= j < i ==> listed.objects[j] in staging && Verified(staging[listed.objects[j]])
      {
        assert listed.objects[i] in listed.objects;
        var metadata := ReadVerified(staging, listed.objects[i], NotFound);
        if metadata.Err? {
          return Err(NotFound);
        }
      }
      page := Ok(listed);
    }
  }

  lemma PageListed(ids: set<Id>, limit: nat, cursor: Option<Id>)
    requires limit > 0
    ensures forall id :: id in PageOf(ids, limit, cursor).objects ==> id in ids
  {
    SortedLists(Beyond(ids, cursor));
    assert forall id :: id in PageOf(ids, limit, cursor).objects ==> id in Sorted(Beyond(ids, cursor));
  }
}
