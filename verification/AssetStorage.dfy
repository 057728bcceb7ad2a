/** TemporaryAssetStore (asset_storage.py): every file operation can fail or be the last one before a crash. */
module AssetStorage {
  import opened Prelude
  import opened AssetFiles

  /** Ended: the process crashed before the call could return or raise. */
  datatype Outcome<+T> = Returned(value: T) | Raised(error: AssetError) | Ended

  /** The fault of the n-th file operation of a call. */
  type Faults = nat -> Fault

  ghost predicate Faultless(faults: Faults) {
    forall n :: faults(n).Fine?
  }

  datatype StoreRequest =
    StoreRequest(data: Bytes, declared: string, provenance: string, rights: string)

  /** Parses a public reference; None models the ValidationError. */
  type ReferenceCheck = string -> Option<string>

  /** The checks of store, in their order. */
  function CheckRequest(check: ReferenceCheck, request: StoreRequest, id: string, now: int)
    : (r: Result<StoreCall, AssetError>)
    ensures r.Ok? ==> r.value.Checked() && r.value.id == id
  {
    var media := Supported(request.declared);
    if media.None? then Err(Unsupported)
    else if |request.data| == 0 then Err(Empty)
    else if |request.data| > MAX_ASSET_BYTES then Err(TooLarge)
    else if Detect(request.data) != media then Err(TypeMismatch)
    else
      var provenance, rights := check(request.provenance), check(request.rights);
      if provenance.None? || rights.None? then Err(BadMetadata)
      else Ok(StoreCall(id, request.data, media.value, provenance.value, rights.value, now))
  }

  class TemporaryAssetStore {
    const check: ReferenceCheck
    var files: Disk
    /** Every store call that got past its checks. */
    ghost var calls: set<StoreCall>

    ghost predicate Valid()
      reads this
    {
      Sane(files, calls)
    }

    constructor (check: ReferenceCheck)
      ensures Valid() && files == map[] && calls == {} && this.check == check
    {
      this.check := check;
      files := map[];
      calls := {};
    }

    /** The two exclusive writes of store. */
    method WriteParts(call: StoreCall, faults: Faults) returns (step: Step)
      requires Valid() && call in calls && Tombstone(call.id) !in files
      modifies this`files
      ensures Valid() && Storing(old(files), files, call)
      ensures step.Succeeded? ==> Part(call.id) !in old(files) && MetaPart(call.id) !in old(files)
      ensures step.Succeeded? ==>
        files == old(files)[Part(call.id) := Data(call.data)][MetaPart(call.id) := Record(call.Record())]
      ensures Faultless(faults) ==>
        (step.Succeeded? <==> Part(call.id) !in old(files) && MetaPart(call.id) !in old(files))
      ensures Faultless(faults) ==> !step.Crashed?
    {
      hide Sane, Storing;
      ghost var before := files;
      StoringNothing(files, call);
      var effect := WriteExclusive(files, Part(call.id), Data(call.data), faults(0));
      StoreStep(before, files, effect.disk, call, calls);
      files := effect.disk;
      if !effect.step.Succeeded? {
        return effect.step;
      }
      effect := WriteExclusive(files, MetaPart(call.id), Record(call.Record()), faults(1));
      StoreStep(before, files, effect.disk, call, calls);
      files := effect.disk;
      return effect.step;
    }

    /** The body of the try statement in store. The re-checks of the tombstone are the calls of StillOpen. */
    method WriteAsset(call: StoreCall, faults: Faults) returns (step: Step)
      requires Valid() && call in calls && Tombstone(call.id) !in files
      modifies this`files
      ensures Valid() && Storing(old(files), files, call)
      ensures step.Succeeded? ==> Part(call.id) !in old(files) && MetaPart(call.id) !in old(files)
      ensures step.Succeeded? ==>
        files == old(files)[Final(call.id, call.media) := Data(call.data)][Meta(call.id) := Record(call.Record())]
      ensures Faultless(faults) ==>
        (step.Succeeded? <==> Part(call.id) !in old(files) && MetaPart(call.id) !in old(files))
      ensures Faultless(faults) ==> !step.Crashed?
    {
      hide Sane, Storing, WriteExclusive;
      ghost var before := files;
      step := WriteParts(call, faults);
      if !step.Succeeded? {
        return;
      }
      StillOpen(before, files, call);
      var effect := Replace(files, Part(call.id), Final(call.id, call.media), faults(2));
      StoreStep(before, files, effect.disk, call, calls);
      files := effect.disk;
      if !effect.step.Succeeded? {
        return effect.step;
      }
      StillOpen(before, files, call);
      effect := Replace(files, MetaPart(call.id), Meta(call.id), faults(3));
      StoreStep(before, files, effect.disk, call, calls);
      files := effect.disk;
      StillOpen(before, files, call);
      return effect.step;
    }

    /** Unlinks paths one by one. */
    method RemoveAll(paths: seq<Path>, faults: Faults, first: nat) returns (step: Step)
      requires Valid()
      modifies this`files
      ensures Valid()
      ensures forall p :: p !in paths ==> Same(old(files), files, p)
      ensures forall p :: p in files ==> Same(old(files), files, p)
      ensures step.Succeeded? ==> forall p :: p in paths ==> p !in files
      ensures Faultless(faults) ==> step.Succeeded?
    {
      hide Sane;
      var i := 0;
      while i < |paths|
        invariant 0 <= i <= |paths| && Valid()
        invariant forall p :: p !in paths ==> Same(old(files), files, p)
        invariant forall p :: p in files ==> Same(old(files), files, p)
        invariant forall p :: p in paths[..i] ==> p !in files
      {
        var effect := Unlink(files, paths[i], faults(first + i));
        FewerFilesSane(files, effect.disk, calls);
        files := effect.disk;
        if !effect.step.Succeeded? {
          return effect.step;
        }
        i := i + 1;
      }
      return Succeeded;
    }

    /** The files of an asset, in the order the file system lists them. */
    method Glob(id: string) returns (paths: seq<Path>)
      ensures forall p :: p in paths <==> p in files && p.OfAsset() && p.id == id
    {
      var rest := set p | p in files && p.OfAsset() && p.id == id;
      paths := [];
      while rest != {}
        invariant forall p :: p in paths || p in rest <==> p in files && p.OfAsset() && p.id == id
        decreases |rest|
      {
        var path :| path in rest;
        paths := paths + [path];
        rest := rest - {path};
      }
    }

    /** store, from its checks on; identifiers are chosen by the caller or fresh. */
    method Store(request: StoreRequest, id: string, now: int, faults: Faults) returns (r: Outcome<Metadata>)
      requires Valid()
      modifies this
      ensures Valid() && old(calls) <= calls
      ensures
        var checked := CheckRequest(check, request, id, now);
        if checked.Err? then r == Raised(checked.error) && files == old(files) && calls == old(calls)
        else if Tombstone(id) in old(files) then r == Raised(LifecycleClosed) && files == old(files)
        else
          var call := checked.value;
          && calls == old(calls) + {call} && Storing(old(files), files, call)
          && (r.Returned? ==> r.value == call.Record() && Holds(files, call))
          && (r == Raised(StorageFailed) ==> forall p :: p in StorePaths(call) ==> p !in files)
          && (Faultless(faults) ==> (r.Returned? <==> Part(id) !in old(files) && MetaPart(id) !in old(files)))
          && (Faultless(faults) ==> r.Returned? || r == Raised(StorageFailed))
    {
      var checked := CheckRequest(check, request, id, now);
      if checked.Err? {
        return Raised(checked.error);
      }
      var call := checked.value;
      if Tombstone(id) in files {
        return Raised(LifecycleClosed);
      }
      hide Sane, Storing;
      MoreCallsSane(files, calls, call);
      calls := calls + {call};
      var step := WriteAsset(call, faults);
      ghost var written := files;
      if step.OsError? {
        step := RemoveAll(StorePaths(call), faults, 4);
        StoreStepStoring(old(files), written, files, call);
        if step.Succeeded? {
          return Raised(StorageFailed);
        }
        if step.OsError? {
          return Raised(OsFailed);
        }
      }
      if step.Crashed? {
        return Ended;
      }
      return Returned(call.Record());
    }

    /** The tombstone of delete, unless there is one already. */
    method Bury(id: string, now: int, faults: Faults) returns (r: Outcome<()>)
      requires Valid()
      modifies this`files
      ensures Valid()
      ensures forall p :: p !in {TombPart(id), Tombstone(id)} ==> Same(old(files), files, p)
      ensures Tombstone(id) in old(files) ==> files == old(files) && r.Returned?
      ensures Tombstone(id) in files ==> files[Tombstone(id)] == DeletedAt(old(files), id, now)
      ensures r.Returned? ==> Tombstone(id) in files && Same(old(files), files, TombPart(id))
      ensures Faultless(faults) ==> (r.Returned? <==> Tombstone(id) in old(files) || TombPart(id) !in old(files))
      ensures Faultless(faults) && !r.Returned? ==>
        r == Raised(StorageFailed) && files == old(files) - {TombPart(id)}
    {
      if Tombstone(id) in files {
        return Returned(());
      }
      var part := TombPart(id);
      var effect := WriteExclusive(files, part, Tomb(now), faults(0));
      files := effect.disk;
      if effect.step.Succeeded? {
        effect := Replace(files, part, Tombstone(id), faults(1));
        files := effect.disk;
      }
      if effect.step.Succeeded? {
        return Returned(());
      }
      if effect.step.OsError? {
        effect := Unlink(files, part, faults(2));
        files := effect.disk;
        if !effect.step.Crashed? {
          return Raised(if effect.step.Succeeded? then StorageFailed else OsFailed);
        }
      }
      return Ended;
    }

    /** delete. */
    method Delete(id: string, now: int, faults: Faults) returns (r: Outcome<bool>)
      requires Valid()
      modifies this`files
      ensures Valid() && Deleting(old(files), files, {id}, now)
      ensures r.Returned? ==> Deleted(old(files), files, {id}, now)
      ensures r.Returned? ==> (r.value <==> exists p :: p in old(files) && p.OfAsset() && p.id == id)
      ensures Faultless(faults) ==>
        (r.Returned? <==> Tombstone(id) in old(files) || TombPart(id) !in old(files))
      ensures Faultless(faults) && !r.Returned? ==>
        r == Raised(StorageFailed) && files == old(files) - {TombPart(id)}
    {
      hide Sane, Deleting, Deleted;
      ghost var before := files;
      var active := Glob(id);
      var existed := |active| > 0;
      assert existed ==> active[0] in active;
      var buried := Bury(id, now, faults);
      ghost var closed := files;
      if !buried.Returned? {
        DeletingSteps(before, closed, closed, active, id, now);
        return if buried.Raised? then Raised(buried.error) else Ended;
      }
      var step := RemoveAll(active, faults, 3);
      DeletingSteps(before, closed, files, active, id, now);
      if step.OsError? {
        return Raised(StorageFailed);
      }
      if step.Crashed? {
        return Ended;
      }
      return Returned(existed);
    }

    /** load: it returns exactly what one store call wrote, while that is neither expired nor deleted. */
    method Load(id: string, now: int) returns (r: Result<Loaded, AssetError>)
      requires Valid()
      ensures r == AssetFiles.Load(files, id, now)
      ensures r.Ok? <==>
              exists c :: c in calls && c.id == id && Holds(files, c) && c.createdAt <= now < c.createdAt + ASSET_TTL
      ensures forall c :: r.Ok? && c in calls && c.id == id && Holds(files, c) ==>
                r.value == Loaded(c.Record().asset, c.data)
    {
      LoadsOneCall(files, calls, id, now);
      r := AssetFiles.Load(files, id, now);
    }

    /** The assets whose metadata says they are expired. No stored metadata is invalid, so none is refused. */
    method FindExpired(now: int) returns (expired: seq<string>)
      requires Valid()
      ensures Unique(expired) && Elements(expired) == ExpiredIds(files, now)
      ensures forall id :: id in expired ==> Meta(id) in files
    {
      var rest := set p | p in files && p.Meta?;
      ghost var seen: set<Path> := {};
      expired := [];
      while rest != {}
        invariant forall p :: p in files && p.Meta? <==> p in rest || p in seen
        invariant rest !! seen && Unique(expired)
        invariant forall id :: id in expired <==> Meta(id) in seen && Expired(files, id, now)
        decreases |rest|
      {
        var path :| path in rest;
        assert path == Meta(path.id);
        var asset := files[path].metadata.asset;
        if asset.expiresAt <= now {
          expired := expired + [asset.id];
        }
        seen := seen + {path};
        rest := rest - {path};
      }
      assert forall id :: id in ExpiredIds(files, now) <==> Meta(id) in files && Expired(files, id, now);
    }

    /** Deletes the expired assets one by one. */
    method DeleteAll(expired: seq<string>, now: int, faults: nat -> Faults) returns (r: Outcome<nat>)
      requires Valid() && Unique(expired)
      requires forall id :: id in expired ==> Meta(id) in files
      modifies this`files
      ensures Valid() && Deleting(old(files), files, Elements(expired), now)
      ensures r.Returned? ==> r.value == |expired| && Deleted(old(files), files, Elements(expired), now)
      ensures (forall n :: Faultless(faults(n))) ==>
        (r.Returned? <==> forall id :: id in expired ==> Tombstone(id) in old(files) || TombPart(id) !in old(files))
    {
      hide Sane;
      ghost var before := files;
      var removed, i := 0, 0;
      NothingDeleted(before, now);
      while i < |expired|
        invariant 0 <= i <= |expired| && removed == i && Valid()
        invariant Deleted(before, files, Elements(expired[..i]), now)
        invariant (forall n :: Faultless(faults(n))) ==>
          forall id :: id in expired[..i] ==> Tombstone(id) in before || TombPart(id) !in before
      {
        hide Deleted, Deleting;
        ghost var done := Elements(expired[..i]);
        assert expired[i] !in done;
        assert Elements(expired[..i + 1]) == done + {expired[i]};
        ghost var current := files;
        UntouchedYet(before, current, done, expired[i], now);
        assert Meta(expired[i]) in current && Meta(expired[i]).OfAsset();
        var deleted := Delete(expired[i], now, faults(i));
        DeletedIsDeleting(before, current, done, now);
        DeletingAgain(before, current, files, done, {expired[i]}, now);
        if !deleted.Returned? {
          MoreIds(before, files, done + {expired[i]}, Elements(expired), now);
          return if deleted.Raised? then Raised(deleted.error) else Ended;
        }
        DeletedAgain(before, current, files, done, {expired[i]}, now);
        removed := removed + (if deleted.value then 1 else 0);
        i := i + 1;
      }
      assert expired[..i] == expired;
      DeletedIsDeleting(before, files, Elements(expired), now);
      return Returned(removed);
    }

    /** Unlinks the tombstones that are old enough; one that cannot be unlinked is left. */
    method Sweep(now: int, faults: Faults) returns (step: Step)
      requires Valid()
      modifies this`files
      ensures Valid() && Swept(old(files), files, now)
      ensures Faultless(faults) ==> step.Succeeded?
      ensures Faultless(faults) ==>
        forall p :: p in files && p.Tombstone? ==> files[p].deletedAt > now - TOMBSTONE_TTL
      ensures !step.OsError?
    {
      ghost var before := files;
      var rest, i := set p | p in files && p.Tombstone?, 0;
      while rest != {}
        invariant rest <= before.Keys && Valid() && Swept(before, files, now)
        invariant forall p :: p in rest ==> p in files && p.Tombstone?
        invariant Faultless(faults) ==>
          forall p :: p in files && p.Tombstone? && p !in rest ==> files[p].deletedAt > now - TOMBSTONE_TTL
        decreases |rest|
      {
        var path :| path in rest;
        if files[path].deletedAt <= now - TOMBSTONE_TTL {
          var effect := Unlink(files, path, faults(i));
          FewerFilesSane(files, effect.disk, calls);
          files := effect.disk;
          if effect.step.Crashed? {
            return Crashed;
          }
        }
        rest := rest - {path};
        i := i + 1;
      }
      return Succeeded;
    }

    /** purge_expired. */
    method PurgeExpired(now: int, faults: nat -> Faults) returns (r: Outcome<nat>)
      requires Valid()
      modifies this`files
      ensures Valid() && Purging(old(files), files, now)
      ensures r.Returned? ==> r.value == |ExpiredIds(old(files), now)| && Purged(old(files), files, now)
      ensures (forall n :: Faultless(faults(n))) ==> (r.Returned? <==> Purgeable(old(files), now))
      ensures (forall n :: Faultless(faults(n))) && r.Returned? ==>
        forall p :: p in files && p.Tombstone? ==> files[p].deletedAt > now - TOMBSTONE_TTL
    {
      ghost var before := files;
      var expired := FindExpired(now);
      UniqueCount(expired);
      hide Sane, Deleting, Deleted, Swept;
      var removed := DeleteAll(expired, now, faults);
      ghost var middle := files;
      if !removed.Returned? {
        NothingSwept(files, now);
        return removed;
      }
      var step := Sweep(now, faults(|expired|));
      if step.Crashed? {
        return Ended;
      }
      return removed;
    }
  }
}
