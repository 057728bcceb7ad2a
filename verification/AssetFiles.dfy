/** The files of the temporary asset store, and file operations that can fail or be cut short (asset_storage.py). */
module AssetFiles {
  import opened Prelude

  const MAX_ASSET_BYTES := 10 * 1024 * 1024
  const HOUR := 3600 * 1000000
  const ASSET_TTL := 24 * HOUR
  const TOMBSTONE_TTL := 7 * 24 * HOUR

  type Bytes = seq<bv8>

  datatype MediaType = Png | Jpeg

  function Supported(declared: string): Option<MediaType> {
    if declared == "image/png" then Some(Png) else if declared == "image/jpeg" then Some(Jpeg) else None
  }

  const PNG_START: Bytes := [0x89, 0x50, 0x4E, 0x47, 0x0D, 0x0A, 0x1A, 0x0A]

  function Detect(data: Bytes): Option<MediaType> {
    if PNG_START <= data then Some(Png)
    else if [0xFF, 0xD8, 0xFF] <= data && |data| >= 2 && data[|data| - 2..] == [0xFF, 0xD9] then Some(Jpeg)
    else None
  }

  /** SHA-256, taken as injective. */
  datatype Hash = Sha256(of: Bytes)

  datatype Asset =
    Asset(id: string, media: MediaType, sha: Hash, provenance: string, rights: string, expiresAt: int)

  datatype Metadata = Metadata(asset: Asset, size: nat, createdAt: int)

  /** A store call that has passed its checks. */
  datatype StoreCall =
    StoreCall(id: string, data: Bytes, media: MediaType, provenance: string, rights: string, createdAt: int)
  {
    predicate Checked() {
      0 < |data| <= MAX_ASSET_BYTES && Detect(data) == Some(media)
    }

    function Record(): Metadata {
      Metadata(Asset(id, media, Sha256(data), provenance, rights, createdAt + ASSET_TTL), |data|, createdAt)
    }
  }

  datatype Path =
    | Part(id: string) | MetaPart(id: string) | Final(id: string, media: MediaType) | Meta(id: string)
    | Tombstone(id: string) | TombPart(id: string)
  {
    /** The files that the pattern of an asset matches; the tombstones are in a directory of their own. */
    predicate OfAsset() {
      Part? || MetaPart? || Final? || Meta?
    }
  }

  /** Torn is what a write leaves that did not come to its end. */
  datatype Content = Data(bytes: Bytes) | Record(metadata: Metadata) | Tomb(deletedAt: int) | Torn

  type Disk = map<Path, Content>

  // File operations

  /** What the environment does to a file operation: Fails raises an OSError, Crashes ends the process. */
  datatype Fault = Fine | Fails(torn: bool) | Crashes(torn: bool)

  datatype Step = Succeeded | OsError | Crashed

  datatype Effect = Effect(disk: Disk, step: Step)

  /** _write_exclusive: never replaces a file. An interrupted write may leave a torn file. */
  function WriteExclusive(disk: Disk, path: Path, content: Content, fault: Fault): Effect {
    if path in disk then Effect(disk, if fault.Crashes? then Crashed else OsError)
    else
      match fault
      case Fine => Effect(disk[path := content], Succeeded)
      case Fails(torn) => Effect(if torn then disk[path := Torn] else disk, OsError)
      case Crashes(torn) => Effect(if torn then disk[path := Torn] else disk, Crashed)
  }

  /** os.replace: atomic. */
  function Replace(disk: Disk, from: Path, to: Path, fault: Fault): Effect
    requires from in disk
  {
    if fault.Fine? then Effect((disk - {from})[to := disk[from]], Succeeded)
    else Effect(disk, if fault.Crashes? then Crashed else OsError)
  }

  /** unlink(missing_ok=True). */
  function Unlink(disk: Disk, path: Path, fault: Fault): Effect {
    if fault.Fine? then Effect(disk - {path}, Succeeded)
    else Effect(disk, if fault.Crashes? then Crashed else OsError)
  }

  // What the files say

  predicate Same(a: Disk, b: Disk, p: Path) {
    (p in a <==> p in b) && (p in a ==> a[p] == b[p])
  }

  /** Every file is what some store call or delete wrote there. */
  ghost predicate Sane(disk: Disk, calls: set<StoreCall>) {
    && (forall c :: c in calls ==> c.Checked())
    && (forall p :: p in disk && p.Meta? ==>
      exists c :: c in calls && c.id == p.id && disk[p] == Record(c.Record()))
    && (forall p :: p in disk && p.Final? ==> disk[p].Data?)
    && (forall p :: p in disk && p.Tombstone? ==> disk[p].Tomb?)
  }

  predicate Expired(disk: Disk, id: string, now: int) {
    Meta(id) in disk && disk[Meta(id)].Record? && disk[Meta(id)].metadata.asset.expiresAt <= now
  }

  function ExpiredIds(disk: Disk, now: int): set<string> {
    set p | p in disk && p.Meta? && Expired(disk, p.id, now) :: p.id
  }

  function DeletedAt(disk: Disk, id: string, now: int): Content {
    if Tombstone(id) in disk then disk[Tombstone(id)] else Tomb(now)
  }

  /** delete carried out on some ids. */
  ghost predicate Deleted(before: Disk, after: Disk, ids: set<string>, now: int) {
    forall p: Path ::
      if p.id in ids && p.OfAsset() then p !in after
      else if p.id in ids && p.Tombstone? then p in after && after[p] == DeletedAt(before, p.id, now)
      else Same(before, after, p)
  }

  /** delete begun on some ids, and carried out, interrupted, failed or not reached on each of them. */
  ghost predicate Deleting(before: Disk, after: Disk, ids: set<string>, now: int) {
    forall p: Path ::
      && (p.id !in ids ==> Same(before, after, p))
      && (p.OfAsset() && p in after ==> Same(before, after, p))
      && (p.Tombstone? && p in before ==> Same(before, after, p))
      && (p.Tombstone? && p in after && p !in before ==> after[p] == Tomb(now))
  }

  /** Only tombstones as old as the limit are gone. */
  ghost predicate Swept(before: Disk, after: Disk, now: int) {
    forall p: Path ::
      Same(before, after, p)
      || (p.Tombstone? && p in before && before[p].Tomb? && before[p].deletedAt <= now - TOMBSTONE_TTL && p !in after)
  }

  /**
   * store begun: nothing but the files of this asset and media type can be different, and of those the two that load
   * reads are as the call writes them, or not there.
   */
  ghost predicate Storing(before: Disk, after: Disk, call: StoreCall) {
    forall p: Path ::
      || Same(before, after, p)
      || (p in StorePaths(call) && Tombstone(call.id) !in before
          && (p in after ==>
                (p.Final? ==> after[p] == Data(call.data)) && (p.Meta? ==> after[p] == Record(call.Record()))))
  }

  function StorePaths(call: StoreCall): seq<Path> {
    [Part(call.id), MetaPart(call.id), Final(call.id, call.media), Meta(call.id)]
  }

  // Reading

  datatype AssetError =
    Unsupported | Empty | TooLarge | TypeMismatch | BadMetadata | LifecycleClosed | StorageFailed | OsFailed

  datatype Loaded = Loaded(asset: Asset, content: Bytes)

  /** load. */
  function Load(disk: Disk, id: string, now: int): Result<Loaded, AssetError> {
    if Tombstone(id) in disk then Err(LifecycleClosed)
    else if Meta(id) !in disk || !disk[Meta(id)].Record? then Err(StorageFailed)
    else
      var metadata := disk[Meta(id)].metadata;
      var asset := metadata.asset;
      if asset.id != id || metadata.size < 1 || metadata.size > MAX_ASSET_BYTES || metadata.createdAt > now then
        Err(StorageFailed)
      else if asset.expiresAt <= now then Err(LifecycleClosed)
      else if Final(id, asset.media) !in disk || !disk[Final(id, asset.media)].Data? then Err(StorageFailed)
      else
        var content := disk[Final(id, asset.media)].bytes;
        if |content| != metadata.size || Detect(content) != Some(asset.media) || Sha256(content) != asset.sha then
          Err(StorageFailed)
        else Ok(Loaded(asset, content))
  }

  /** The files of a completed store call, not deleted. */
  predicate Holds(disk: Disk, call: StoreCall) {
    && Tombstone(call.id) !in disk
    && Meta(call.id) in disk && disk[Meta(call.id)] == Record(call.Record())
    && Final(call.id, call.media) in disk && disk[Final(call.id, call.media)] == Data(call.data)
  }

  /** load succeeds exactly on the files of one store call, from its creation up to its expiry. */
  lemma LoadsOneCall(disk: Disk, calls: set<StoreCall>, id: string, now: int)
    requires Sane(disk, calls)
    ensures Load(disk, id, now).Ok? <==>
            exists c :: c in calls && c.id == id && Holds(disk, c) && c.createdAt <= now < c.createdAt + ASSET_TTL
    ensures forall c :: c in calls && c.id == id && Holds(disk, c) && Load(disk, id, now).Ok? ==>
              Load(disk, id, now).value == Loaded(c.Record().asset, c.data)
  {
    if Load(disk, id, now).Ok? {
      var c :| c in calls && c.id == id && disk[Meta(id)] == Record(c.Record());
      assert Holds(disk, c);
    }
  }

  /** One file operation of a store call. */
  lemma StoreStep(before: Disk, a: Disk, b: Disk, call: StoreCall, calls: set<StoreCall>)
    requires call in calls && Sane(a, calls) && Storing(before, a, call) && Tombstone(call.id) !in before
    requires forall p: Path ::
               || Same(a, b, p)
               || (p in StorePaths(call) && (p in b ==>
                     (p.Final? ==> b[p] == Data(call.data)) && (p.Meta? ==> b[p] == Record(call.Record()))))
    ensures Sane(b, calls) && Storing(before, b, call)
  {
    hide *;
    StoreStepSane(a, b, call, calls);
    StoreStepStoring(before, a, b, call);
  }

  lemma StoreStepSane(a: Disk, b: Disk, call: StoreCall, calls: set<StoreCall>)
    requires call in calls && Sane(a, calls)
    requires forall p: Path ::
               || Same(a, b, p)
               || (p in StorePaths(call) && (p in b ==>
                     (p.Final? ==> b[p] == Data(call.data)) && (p.Meta? ==> b[p] == Record(call.Record()))))
    ensures Sane(b, calls)
  {
  }

  lemma StoreStepStoring(before: Disk, a: Disk, b: Disk, call: StoreCall)
    requires Storing(before, a, call) && Tombstone(call.id) !in before
    requires forall p: Path ::
               || Same(a, b, p)
               || (p in StorePaths(call) && (p in b ==>
                     (p.Final? ==> b[p] == Data(call.data)) && (p.Meta? ==> b[p] == Record(call.Record()))))
    ensures Storing(before, b, call)
  {
  }

  lemma StoringNothing(disk: Disk, call: StoreCall)
    ensures Storing(disk, disk, call)
  {
  }

  lemma StillOpen(before: Disk, after: Disk, call: StoreCall)
    requires Storing(before, after, call) && Tombstone(call.id) !in before
    ensures Tombstone(call.id) !in after
  {
    assert Tombstone(call.id) !in StorePaths(call);
  }

  lemma FewerFilesSane(before: Disk, after: Disk, calls: set<StoreCall>)
    requires Sane(before, calls) && forall p :: p in after ==> Same(before, after, p)
    ensures Sane(after, calls)
  {
  }

  lemma MoreCallsSane(disk: Disk, calls: set<StoreCall>, call: StoreCall)
    requires Sane(disk, calls) && call.Checked()
    ensures Sane(disk, calls + {call})
  {
  }

  lemma StoringStaysSane(before: Disk, after: Disk, call: StoreCall, calls: set<StoreCall>)
    requires Sane(before, calls) && Storing(before, after, call) && call.Checked()
    ensures Sane(after, calls + {call})
  {
    MoreCallsSane(before, calls, call);
  }

  lemma DeletingStaysSane(before: Disk, after: Disk, calls: set<StoreCall>, ids: set<string>, now: int)
    requires Sane(before, calls) && Deleting(before, after, ids, now)
    ensures Sane(after, calls)
  {
  }

  lemma SweptStaysSane(before: Disk, after: Disk, calls: set<StoreCall>, now: int)
    requires Sane(before, calls) && Swept(before, after, now)
    ensures Sane(after, calls)
  {
  }

  /** delete buries an id and then unlinks its files. */
  lemma DeletingSteps(before: Disk, closed: Disk, after: Disk, active: seq<Path>, id: string, now: int)
    requires forall p :: p in active <==> p in before && p.OfAsset() && p.id == id
    requires forall p :: p !in {TombPart(id), Tombstone(id)} ==> Same(before, closed, p)
    requires Tombstone(id) in before ==> Tombstone(id) in closed
    requires Tombstone(id) in closed ==> closed[Tombstone(id)] == DeletedAt(before, id, now)
    requires forall p :: p !in active ==> Same(closed, after, p)
    requires forall p :: p in after ==> Same(closed, after, p)
    ensures Deleting(before, after, {id}, now)
    ensures
      && Tombstone(id) in closed && Same(before, closed, TombPart(id))
      && (forall p :: p in active ==> p !in after) ==>
        Deleted(before, after, {id}, now)
  {
    forall p: Path
      ensures Same(before, closed, p) || p == Tombstone(id) || p == TombPart(id)
      ensures p !in active ==> Same(closed, after, p)
      ensures p.Tombstone? ==> p == Tombstone(p.id)
      ensures p.TombPart? ==> p == TombPart(p.id)
    {
    }
  }

  lemma DeletingAgain(a: Disk, b: Disk, c: Disk, ids: set<string>, more: set<string>, now: int)
    requires Deleting(a, b, ids, now) && Deleting(b, c, more, now)
    ensures Deleting(a, c, ids + more, now)
  {
  }

  lemma DeletedAgain(a: Disk, b: Disk, c: Disk, ids: set<string>, more: set<string>, now: int)
    requires Deleted(a, b, ids, now) && Deleted(b, c, more, now) && ids !! more
    ensures Deleted(a, c, ids + more, now)
  {
    forall p: Path
      ensures
        if p.id in ids + more && p.OfAsset() then p !in c
        else if p.id in ids + more && p.Tombstone? then p in c && c[p] == DeletedAt(a, p.id, now)
        else Same(a, c, p)
    {
      if p.Tombstone? {
        assert p == Tombstone(p.id);
      }
    }
  }

  lemma NothingDeleted(disk: Disk, now: int)
    ensures Deleted(disk, disk, {}, now)
  {
  }

  lemma NothingSwept(disk: Disk, now: int)
    ensures Swept(disk, disk, now)
  {
  }

  lemma UntouchedYet(before: Disk, after: Disk, ids: set<string>, id: string, now: int)
    requires Deleted(before, after, ids, now) && id !in ids
    ensures Same(before, after, Meta(id)) && Same(before, after, Tombstone(id)) && Same(before, after, TombPart(id))
  {
  }

  lemma DeletedIsDeleting(before: Disk, after: Disk, ids: set<string>, now: int)
    requires Deleted(before, after, ids, now)
    ensures Deleting(before, after, ids, now)
  {
    forall p: Path
      ensures p.Tombstone? ==> p == Tombstone(p.id)
    {
    }
  }

  lemma MoreIds(before: Disk, after: Disk, ids: set<string>, more: set<string>, now: int)
    requires Deleting(before, after, ids, now) && ids <= more
    ensures Deleting(before, after, more, now)
  {
  }

  lemma {:induction false} UniqueCount(s: seq<string>)
    requires Unique(s)
    ensures |Elements(s)| == |s|
  {
    if |s| > 0 {
      var front, last := s[..|s| - 1], s[|s| - 1];
      UniqueCount(front);
      assert Elements(s) == Elements(front) + {last};
    }
  }

  // purge_expired

  /** purge_expired begun: some expired assets are deleted, and then some old tombstones are gone. */
  ghost predicate Purging(before: Disk, after: Disk, now: int) {
    exists middle :: Deleting(before, middle, ExpiredIds(before, now), now) && Swept(middle, after, now)
  }

  /** purge_expired carried out: exactly the expired assets are deleted. */
  ghost predicate Purged(before: Disk, after: Disk, now: int) {
    exists middle :: Deleted(before, middle, ExpiredIds(before, now), now) && Swept(middle, after, now)
  }

  /** No expired asset has a tombstone that was begun and not finished. */
  predicate Purgeable(disk: Disk, now: int) {
    forall id :: id in ExpiredIds(disk, now) ==> Tombstone(id) in disk || TombPart(id) !in disk
  }
}
