/** Whole runs of the temporary asset store: any calls, each of which may return, fail or be cut short. */
module AssetRuns {
  import opened Prelude
  import opened AssetFiles

  datatype Event = Stores(call: StoreCall) | Deletes(id: string, now: int) | Purges(now: int)

  /** What the calls of TemporaryAssetStore guarantee of the files, whatever their outcome; load changes nothing. */
  ghost predicate Next(before: Disk, event: Event, after: Disk) {
    match event
    case Stores(call) => Storing(before, after, call)
    case Deletes(id, now) => Deleting(before, after, {id}, now)
    case Purges(now) => Purging(before, after, now)
  }

  ghost predicate IsRun(disks: seq<Disk>, events: seq<Event>) {
    |disks| == |events| + 1 && forall i :: 0 <= i < |events| ==> Next(disks[i], events[i], disks[i + 1])
  }

  // Crash consistency

  /** The store calls of a run. */
  function CallsOf(events: seq<Event>): set<StoreCall> {
    set i | 0 <= i < |events| && events[i].Stores? :: events[i].call
  }

  lemma StepSane(before: Disk, event: Event, after: Disk, calls: set<StoreCall>)
    requires Sane(before, calls) && Next(before, event, after) && (event.Stores? ==> event.call.Checked())
    ensures Sane(after, if event.Stores? then calls + {event.call} else calls)
  {
    hide Sane, Storing, Deleting, Swept;
    match event
    case Stores(call) => StoringStaysSane(before, after, call, calls);
    case Deletes(id, now) => DeletingStaysSane(before, after, calls, {id}, now);
    case Purges(now) =>
      var ids := ExpiredIds(before, now);
      var middle :| Deleting(before, middle, ids, now) && Swept(middle, after, now);
      DeletingStaysSane(before, middle, calls, ids, now);
      SweptStaysSane(middle, after, calls, now);
  }

  lemma {:induction false} RunsSane(disks: seq<Disk>, events: seq<Event>)
    requires IsRun(disks, events) && disks[0] == map[]
    requires forall i :: 0 <= i < |events| && events[i].Stores? ==> events[i].call.Checked()
    ensures Sane(disks[|events|], CallsOf(events))
    decreases |events|
  {
    if |events| > 0 {
      var last := |events| - 1;
      ShorterRun(disks, events);
      RunsSane(disks[..|events|], events[..last]);
      StepSane(disks[last], events[last], disks[|events|], CallsOf(events[..last]));
      assert CallsOf(events)
        == CallsOf(events[..last]) + (if events[last].Stores? then {events[last].call} else {});
    }
  }

  lemma ShorterRun(disks: seq<Disk>, events: seq<Event>)
    requires IsRun(disks, events) && |events| > 0
    ensures IsRun(disks[..|events|], events[..|events| - 1])
  {
    assert forall i :: 0 <= i < |events| - 1 ==> Next(disks[i], events[i], disks[i + 1]);
  }

  /**
   * Crash consistency: after any run of store, delete and purge calls from an empty directory, each of them complete,
   * failed or cut short at any file operation, a load succeeds exactly when the files are those of one store call of
   * that run, without tombstone and within its lifetime, and then returns its bytes and metadata.
   */
  lemma CrashConsistent(disks: seq<Disk>, events: seq<Event>, id: string, now: int)
    requires IsRun(disks, events) && disks[0] == map[]
    requires forall i :: 0 <= i < |events| && events[i].Stores? ==> events[i].call.Checked()
    ensures
      var disk := disks[|events|];
      && (Load(disk, id, now).Ok? <==>
            exists call :: call in CallsOf(events) && call.id == id && Holds(disk, call)
                           && call.createdAt <= now < call.createdAt + ASSET_TTL)
      && forall call ::
           call in CallsOf(events) && call.id == id && Holds(disk, call) && Load(disk, id, now).Ok? ==>
             Load(disk, id, now).value == Loaded(call.Record().asset, call.data)
  {
    hide Sane, CallsOf, Load;
    RunsSane(disks, events);
    LoadsOneCall(disks[|events|], CallsOf(events), id, now);
  }

  // Tombstones and lifetimes

  predicate Buried(disk: Disk, id: string, deletedAt: int) {
    Tombstone(id) in disk && disk[Tombstone(id)] == Tomb(deletedAt)
  }

  lemma SameDisks(a: Disk, b: Disk)
    requires forall p: Path :: Same(a, b, p)
    ensures a == b
  {
    assert forall p :: p in a <==> p in b by {
      forall p: Path
        ensures p in a <==> p in b
      {
        assert Same(a, b, p);
      }
    }
    assert forall p :: p in a ==> a[p] == b[p] by {
      forall p | p in a
        ensures a[p] == b[p]
      {
        assert Same(a, b, p);
      }
    }
  }

  lemma StaysBuried(before: Disk, event: Event, after: Disk, id: string, deletedAt: int)
    requires Next(before, event, after) && Buried(before, id, deletedAt)
    requires event.Purges? ==> event.now < deletedAt + TOMBSTONE_TTL
    ensures Buried(after, id, deletedAt)
    ensures event.Stores? && event.call.id == id ==> after == before
  {
    var path := Tombstone(id);
    match event
    case Stores(call) =>
      assert Same(before, after, path);
      if call.id == id {
        SameDisks(before, after);
      }
    case Deletes(_, now) =>
      assert Same(before, after, path);
    case Purges(now) =>
      var middle :| Deleting(before, middle, ExpiredIds(before, now), now) && Swept(middle, after, now);
      assert Same(before, middle, path);
  }

  /**
   * A deleted asset stays deleted for the lifetime of its tombstone: while no purge is as late as that, no run of
   * calls makes the id loadable, and a store call on it changes nothing.
   */
  lemma {:induction false} TombstoneLasts(disks: seq<Disk>, events: seq<Event>, id: string, deletedAt: int, now: int)
    requires IsRun(disks, events) && Buried(disks[0], id, deletedAt)
    requires forall i :: 0 <= i < |events| && events[i].Purges? ==> events[i].now < deletedAt + TOMBSTONE_TTL
    ensures Buried(disks[|events|], id, deletedAt)
    ensures Load(disks[|events|], id, now) == Err(LifecycleClosed)
    ensures forall i :: 0 <= i < |events| && events[i].Stores? && events[i].call.id == id ==> disks[i + 1] == disks[i]
    decreases |events|
  {
    if |events| > 0 {
      var last := |events| - 1;
      ShorterRun(disks, events);
      TombstoneLasts(disks[..|events|], events[..last], id, deletedAt, now);
      StaysBuried(disks[last], events[last], disks[|events|], id, deletedAt);
    }
  }

  /** The files on which load of an asset depends. */
  ghost predicate SameFiles(a: Disk, b: Disk, call: StoreCall) {
    Same(a, b, Meta(call.id)) && Same(a, b, Final(call.id, call.media)) && Same(a, b, Tombstone(call.id))
  }

  lemma DeletingOthers(a: Disk, b: Disk, ids: set<string>, now: int, call: StoreCall)
    requires Deleting(a, b, ids, now) && call.id !in ids
    ensures SameFiles(a, b, call)
  {
  }

  lemma StoringOther(a: Disk, b: Disk, other: StoreCall, call: StoreCall)
    requires Storing(a, b, other) && other.id != call.id
    ensures SameFiles(a, b, call)
  {
  }

  lemma SweepingKeeps(a: Disk, b: Disk, now: int, call: StoreCall)
    requires Swept(a, b, now) && Tombstone(call.id) !in a
    ensures SameFiles(a, b, call)
  {
  }

  lemma StaysHeld(before: Disk, event: Event, after: Disk, call: StoreCall)
    requires Next(before, event, after) && Holds(before, call)
    requires event.Stores? ==> event.call.id != call.id
    requires event.Deletes? ==> event.id != call.id
    requires event.Purges? ==> event.now < call.createdAt + ASSET_TTL
    ensures Holds(after, call)
  {
    hide Storing, Deleting, Swept, Same;
    match event
    case Stores(other) =>
      StoringOther(before, after, other, call);
      HeldToo(before, after, call);
    case Deletes(id, now) =>
      DeletingOthers(before, after, {id}, now, call);
      HeldToo(before, after, call);
    case Purges(now) =>
      var ids := ExpiredIds(before, now);
      var middle :| Deleting(before, middle, ids, now) && Swept(middle, after, now);
      assert call.id !in ids;
      DeletingOthers(before, middle, ids, now, call);
      HeldToo(before, middle, call);
      SweepingKeeps(middle, after, now, call);
      HeldToo(middle, after, call);
  }

  lemma HeldToo(a: Disk, b: Disk, call: StoreCall)
    requires Holds(a, call) && SameFiles(a, b, call)
    ensures Holds(b, call)
  {
  }

  /**
   * A stored asset is kept for its lifetime: without a store or delete call on its id, and while no purge is as late
   * as its expiry, every run of calls leaves it loadable with exactly the bytes and metadata that were stored.
   */
  lemma {:induction false} StoredLasts(disks: seq<Disk>, events: seq<Event>, call: StoreCall, now: int)
    requires IsRun(disks, events) && Holds(disks[0], call) && call.Checked()
    requires forall i :: 0 <= i < |events| ==>
               match events[i]
               case Stores(other) => other.id != call.id
               case Deletes(id, _) => id != call.id
               case Purges(at) => at < call.createdAt + ASSET_TTL
    requires call.createdAt <= now < call.createdAt + ASSET_TTL
    ensures Holds(disks[|events|], call)
    ensures Load(disks[|events|], call.id, now) == Ok(Loaded(call.Record().asset, call.data))
    decreases |events|
  {
    if |events| > 0 {
      var last := |events| - 1;
      ShorterRun(disks, events);
      StoredLasts(disks[..|events|], events[..last], call, now);
      StaysHeld(disks[last], events[last], disks[|events|], call);
    }
  }

  /**
   * After a purge that was carried out, exactly the assets that it found expired are gone and closed, and every
   * file of every other asset is as it was.
   */
  lemma PurgeExact(before: Disk, after: Disk, calls: set<StoreCall>, now: int, p: Path)
    requires Sane(before, calls) && Purged(before, after, now) && p.OfAsset()
    ensures p in after <==> p in before && p.id !in ExpiredIds(before, now)
    ensures p in after ==> after[p] == before[p]
    ensures forall at :: p.id in ExpiredIds(before, now) ==> Load(after, p.id, at).Err?
  {
    var ids := ExpiredIds(before, now);
    var middle :| Deleted(before, middle, ids, now) && Swept(middle, after, now);
    assert Same(middle, after, p);
    if p.id in ids {
      assert Meta(p.id) !in middle && Same(middle, after, Meta(p.id));
    } else {
      assert Same(before, middle, p);
    }
  }
}
