/**
 * CloudAssetStore (asset_storage.py): the same lifecycle without a lock. Every request to the object store is a step,
 * and the requests of any number of store, load and delete calls interleave, fail or are never made.
 */
module CloudAssets {
  import opened Prelude
  import opened AssetFiles

  datatype Key = Blob(id: string, media: MediaType) | MetaKey(id: string) | DeletedKey(id: string)

  type Objects = map<Key, Content>

  datatype Result =
    | Stored(call: StoreCall)
    | Loading(loaded: Loaded, now: int)
    | Removed(existed: bool)
    | Closed
    | Failed

  /** Where a call is: the request that it makes next, or its result. */
  datatype Job =
    | StoreCheck(call: StoreCall) | PutBlob(call: StoreCall) | PutMeta(call: StoreCall) | Undo(call: StoreCall)
    | LoadCheck(id: string, now: int) | GetMeta(id: string, now: int)
    | GetBlob(id: string, now: int, metadata: Metadata)
    | DeleteRead(id: string, now: int) | PutDeleted(id: string, now: int, existed: bool, media: MediaType)
    | RemoveObjects(id: string, existed: bool, media: MediaType)
    | Finished(id: string, result: Result)
  {
    function Subject(): string {
      match this
      case StoreCheck(call) => call.id
      case PutBlob(call) => call.id
      case PutMeta(call) => call.id
      case Undo(call) => call.id
      case LoadCheck(id, _) => id
      case GetMeta(id, _) => id
      case GetBlob(id, _, _) => id
      case DeleteRead(id, _) => id
      case PutDeleted(id, _, _, _) => id
      case RemoveObjects(id, _, _) => id
      case Finished(id, _) => id
    }
  }

  /** stored remembers the store calls that were begun. */
  datatype Sys = Sys(objects: Objects, jobs: map<nat, Job>, stored: set<StoreCall>)

  /** A step of a call; a failing one gets an ObjectStorageError for its request. */
  datatype Action = Begin(c: nat, job: Job) | Request(c: nat, fails: bool) | Vanish(c: nat)

  predicate Enabled(s: Sys, a: Action) {
    match a
    case Begin(c, job) =>
      c !in s.jobs && ((job.StoreCheck? && job.call.Checked()) || job.LoadCheck? || job.DeleteRead?)
    case Request(c, _) => c in s.jobs && !s.jobs[c].Finished?
    case Vanish(c) => c in s.jobs
  }

  function To(s: Sys, c: nat, objects: Objects, job: Job): Sys {
    s.(objects := objects, jobs := s.jobs[c := job])
  }

  /** What load makes of the metadata it has got. */
  function AfterMeta(id: string, now: int, metadata: Metadata): Job {
    if metadata.asset.id != id || metadata.createdAt > now || metadata.asset.expiresAt <= now then Finished(id, Closed)
    else GetBlob(id, now, metadata)
  }

  function Answer(s: Sys, job: Job, fails: bool): (Objects, Job)
    requires !job.Finished?
  {
    var o := s.objects;
    match job
    case StoreCheck(call) =>
      (o, if fails then Finished(call.id, Failed)
          else if DeletedKey(call.id) in o then Finished(call.id, Closed)
          else PutBlob(call))
    case PutBlob(call) =>
      var key := Blob(call.id, call.media);
      if fails || key in o then (o, Undo(call)) else (o[key := Data(call.data)], PutMeta(call))
    case PutMeta(call) =>
      var key := MetaKey(call.id);
      if fails || key in o then (o, Undo(call))
      else (o[key := Record(call.Record())], Finished(call.id, Stored(call)))
    case Undo(call) =>
      (if fails then o else o - {Blob(call.id, call.media), MetaKey(call.id)}, Finished(call.id, Failed))
    case LoadCheck(id, now) =>
      (o, if fails then Finished(id, Failed)
          else if DeletedKey(id) in o then Finished(id, Closed)
          else GetMeta(id, now))
    case GetMeta(id, now) =>
      (o, if fails || MetaKey(id) !in o || !o[MetaKey(id)].Record? then Finished(id, Failed)
          else AfterMeta(id, now, o[MetaKey(id)].metadata))
    case GetBlob(id, now, metadata) =>
      var key := Blob(id, metadata.asset.media);
      (o, if fails || key !in o || !o[key].Data? || |o[key].bytes| != metadata.size
             || Sha256(o[key].bytes) != metadata.asset.sha
          then Finished(id, Failed)
          else Finished(id, Loading(Loaded(metadata.asset, o[key].bytes), now)))
    case DeleteRead(id, now) =>
      (o, if fails || MetaKey(id) !in o || !o[MetaKey(id)].Record? then PutDeleted(id, now, false, Png)
          else PutDeleted(id, now, true, o[MetaKey(id)].metadata.asset.media))
    case PutDeleted(id, now, existed, media) =>
      if fails then (o, Finished(id, Failed))
      else (o[DeletedKey(id) := Tomb(now)], RemoveObjects(id, existed, media))
    case RemoveObjects(id, existed, media) =>
      if fails then (o, Finished(id, Failed))
      else (o - {MetaKey(id), Blob(id, media), Blob(id, Jpeg)}, Finished(id, Removed(existed)))
  }

  function Next(s: Sys, a: Action): Sys
    requires Enabled(s, a)
  {
    match a
    case Begin(c, job) =>
      s.(jobs := s.jobs[c := job], stored := if job.StoreCheck? then s.stored + {job.call} else s.stored)
    case Request(c, fails) =>
      var (objects, job) := Answer(s, s.jobs[c], fails);
      To(s, c, objects, job)
    case Vanish(c) => s.(jobs := s.jobs - {c})
  }

  const EMPTY := Sys(map[], map[], {})

  function Run(actions: seq<Action>): Option<Sys> {
    if |actions| == 0 then Some(EMPTY)
    else
      var before, a := Run(actions[..|actions| - 1]), actions[|actions| - 1];
      if before.Some? && Enabled(before.value, a) then Some(Next(before.value, a)) else None
  }

  // One store call behind every load

  /** Metadata that some store call has written. */
  ghost predicate Written(s: Sys, metadata: Metadata) {
    exists call :: call in s.stored && metadata == call.Record()
  }

  ghost predicate JobSound(s: Sys, job: Job) {
    match job
    case StoreCheck(call) => call in s.stored
    case PutBlob(call) => call in s.stored
    case PutMeta(call) => call in s.stored
    case Undo(call) => call in s.stored
    case GetBlob(id, now, metadata) =>
      && Written(s, metadata) && metadata.asset.id == id
      && metadata.createdAt <= now < metadata.asset.expiresAt
    case Finished(id, Loading(loaded, now)) => FromOneCall(s, id, loaded, now)
    case _ => true
  }

  /** Bytes and metadata of one store call, within its lifetime. */
  ghost predicate FromOneCall(s: Sys, id: string, loaded: Loaded, now: int) {
    exists call :: call in s.stored && call.id == id && loaded == Loaded(call.Record().asset, call.data)
      && call.createdAt <= now < call.createdAt + ASSET_TTL
  }

  ghost predicate Sound(s: Sys) {
    && (forall id :: MetaKey(id) in s.objects ==>
          s.objects[MetaKey(id)].Record? && Written(s, s.objects[MetaKey(id)].metadata))
    && (forall c :: c in s.jobs ==> JobSound(s, s.jobs[c]))
  }

  lemma MoreStored(s: Sys, t: Sys, job: Job)
    requires s.stored <= t.stored && JobSound(s, job)
    ensures JobSound(t, job)
  {
  }

  lemma AnswerSound(s: Sys, c: nat, fails: bool)
    requires Sound(s) && c in s.jobs && !s.jobs[c].Finished?
    ensures
      var (objects, job) := Answer(s, s.jobs[c], fails);
      && JobSound(s, job)
      && forall id :: MetaKey(id) in objects ==>
           objects[MetaKey(id)].Record? && Written(s, objects[MetaKey(id)].metadata)
  {
    var job := s.jobs[c];
    assert JobSound(s, job);
    if job.GetBlob? {
      var call :| call in s.stored && job.metadata == call.Record();
      assert call.id == job.id;
    }
  }

  lemma NextSound(s: Sys, a: Action)
    requires Sound(s) && Enabled(s, a)
    ensures Sound(Next(s, a))
  {
    var t := Next(s, a);
    if a.Request? {
      AnswerSound(s, a.c, a.fails);
    }
    hide Answer;
    forall c | c in t.jobs
      ensures JobSound(t, t.jobs[c])
    {
      if c in s.jobs {
        MoreStored(s, t, s.jobs[c]);
      }
      if a.Request? && c == a.c {
        MoreStored(s, t, t.jobs[c]);
      }
    }
  }

  lemma {:induction false} AlwaysSound(actions: seq<Action>)
    requires Run(actions).Some?
    ensures Sound(Run(actions).value)
  {
    if |actions| > 0 {
      AlwaysSound(actions[..|actions| - 1]);
      NextSound(Run(actions[..|actions| - 1]).value, actions[|actions| - 1]);
    }
  }

  /** Under any interleaving, a load that returns gives what one store call wrote, within its lifetime. */
  lemma LoadsOneCall(actions: seq<Action>, c: nat)
    requires Run(actions).Some? && c in Run(actions).value.jobs
    ensures
      var s := Run(actions).value;
      s.jobs[c].Finished? && s.jobs[c].result.Loading? ==>
        FromOneCall(s, s.jobs[c].id, s.jobs[c].result.loaded, s.jobs[c].result.now)
  {
    AlwaysSound(actions);
  }

  // Tombstones

  /** A call on the id that has not got past its check of the tombstone, and never will. */
  predicate Outside(s: Sys, c: nat, id: string) {
    c in s.jobs && s.jobs[c].Subject() == id ==>
      match s.jobs[c]
      case StoreCheck(_) => true
      case LoadCheck(_, _) => true
      case DeleteRead(_, _) => true
      case PutDeleted(_, _, _, _) => true
      case RemoveObjects(_, _, _) => true
      case Finished(_, result) => !result.Stored? && !result.Loading?
      case _ => false
  }

  lemma TombstoneStep(s: Sys, a: Action, c: nat, id: string)
    requires Enabled(s, a) && DeletedKey(id) in s.objects && Outside(s, c, id)
    ensures DeletedKey(id) in Next(s, a).objects && Outside(Next(s, a), c, id)
  {
  }

  /**
   * A tombstone is for ever: no request of any call removes it, and no store or load call that begins after it was
   * written ever succeeds on its id, however the requests interleave.
   */
  lemma {:induction false} TombstonesForever(actions: seq<Action>, more: seq<Action>, id: string, c: nat)
    requires Run(actions).Some? && Run(actions + more).Some?
    requires DeletedKey(id) in Run(actions).value.objects && c !in Run(actions).value.jobs
    ensures DeletedKey(id) in Run(actions + more).value.objects
    ensures Outside(Run(actions + more).value, c, id)
  {
    if |more| == 0 {
      assert actions + more == actions;
    } else {
      var less := more[..|more| - 1];
      assert (actions + more)[..|actions + more| - 1] == actions + less;
      TombstonesForever(actions, less, id, c);
      TombstoneStep(Run(actions + less).value, more[|more| - 1], c, id);
    }
  }
}
