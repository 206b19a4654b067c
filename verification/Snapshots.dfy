/** CBS snapshots: the cloud, the driver's cache and the persisted metadata are updated one after the other,
    and any of the operations in between may fail. */
module Snapshots {
  import opened Strings
  import Capacity

  type Id = string

  datatype Snapshot = Snapshot(sourceVolumeId: string, name: string, id: Id, createdAt: int, sizeBytes: int)

  /** What the cloud knows; `normal` says that the snapshot is complete. */
  datatype CloudSnapshot = CloudSnapshot(diskId: string, diskSize: nat, normal: bool)

  /** `used` are the ids the cloud has ever handed out; it never hands one out twice. */
  datatype World = World(
    cloud: map<Id, CloudSnapshot>,
    cache: map<Id, Snapshot>,
    store: map<Id, Snapshot>,
    used: set<Id>)

  const INIT := World(map[], map[], map[], {})

  /** A request is carried out and answered, refused, or carried out with the answer lost. */
  datatype Answer = Done | Refused | Lost

  // ----- The persistent store

  /** `K8sCMCache.Create`: an entry that is already there is left as it is. */
  function StoreCreate(store: map<Id, Snapshot>, id: Id, data: Snapshot, get: bool, put: Answer)
    : (r: (map<Id, Snapshot>, bool))
  {
    if get && id in store then (store, true)
    else if put == Refused then (store, false)
    else (if id in store then store else store[id := data], put == Done)
  }

  /** `K8sCMCache.Delete`: a missing entry counts as deleted. */
  function StoreDelete(store: map<Id, Snapshot>, id: Id, answer: Answer): (r: (map<Id, Snapshot>, bool)) {
    (if answer == Refused then store else store - {id}, answer == Done)
  }

  // ----- The two calls

  /** The environment's answers to one CreateSnapshot: the cached entry found first, whether describing the snapshot
      gets an answer and the answer shows it, which it need not for one that exists, the cloud's create with the id
      and size it gives, and the store's answers. */
  datatype CreateIo = CreateIo(
    pick: Id,
    describe: bool,
    visible: bool,
    create: Answer,
    newId: Id,
    diskSize: nat,
    now: int,
    get: bool,
    put: Answer)

  /** And to one DeleteSnapshot. */
  datatype DeleteIo = DeleteIo(get: bool, cloud: Answer, delete: Answer)

  datatype Outcome =
    | Created(id: Id, sourceVolumeId: string, sizeBytes: int, createdAt: int, ready: bool)
    | Deleted
    | Invalid
    | Failed
    | Panicked

  function Reply(snap: Snapshot, ready: bool): Outcome {
    Created(snap.id, snap.sourceVolumeId, snap.sizeBytes, snap.createdAt, ready)
  }

  predicate NameCached(cache: map<Id, Snapshot>, name: string) {
    exists id :: id in cache && cache[id].name == name
  }

  /** A name that is in the cache: the snapshot exists, and its metadata is restored if need be. */
  function CreateAgain(w: World, snap: Snapshot, io: CreateIo): (r: (World, Outcome)) {
    if !io.describe then (w, Failed)
    else if io.visible && snap.id in w.cloud && w.cloud[snap.id].diskId == snap.sourceVolumeId then
      var (store, ok) := StoreCreate(w.store, snap.id, snap, io.get, io.put);
      (w.(store := store), if ok then Reply(snap, w.cloud[snap.id].normal) else Failed)
    else (w, Reply(snap, false))
  }

  function CreateNew(w: World, name: string, source: string, io: CreateIo): (r: (World, Outcome)) {
    if io.create == Refused then (w, Failed)
    else
      var w1 := w.(cloud := w.cloud[io.newId := CloudSnapshot(source, io.diskSize, false)],
                   used := w.used + {io.newId});
      if io.create == Lost || !io.describe then (w1, Failed)
      else if !io.visible then (w1, Panicked)
      else
        var snap := Snapshot(source, name, io.newId, io.now, Capacity.Wrap64(io.diskSize * Capacity.GIB));
        var (store, ok) := StoreCreate(w1.store, io.newId, snap, io.get, io.put);
        (w1.(cache := w1.cache[io.newId := snap], store := store), if ok then Reply(snap, false) else Failed)
  }

  function Create(w: World, name: string, source: string, io: CreateIo): (r: (World, Outcome)) {
    if name == "" || source == "" || Contains(source, ",") then (w, Invalid)
    else if NameCached(w.cache, name) && io.pick in w.cache then CreateAgain(w, w.cache[io.pick], io)
    else CreateNew(w, name, source, io)
  }

  function Delete(w: World, id: Id, io: DeleteIo): (r: (World, Outcome)) {
    if id == "" then (w, Invalid)
    else if !io.get then (w, Failed)
    else if id !in w.store then (w, Deleted)
    else
      var w1 := if io.cloud == Refused then w else w.(cloud := w.cloud - {id});
      if io.cloud != Done then (w1, Failed)
      else
        var (store, ok) := StoreDelete(w1.store, id, io.delete);
        (w1.(cache := w1.cache - {id}, store := store), if ok then Deleted else Failed)
  }

  /** The driver's own code. */
  class Controller {
    var cloud: map<Id, CloudSnapshot>
    var cache: map<Id, Snapshot>
    var store: map<Id, Snapshot>
    ghost var used: set<Id>

    constructor ()
      ensures Now() == INIT
    {
      cloud, cache, store, used := map[], map[], map[], {};
    }

    ghost function Now(): World
      reads this
    {
      World(cloud, cache, store, used)
    }

    method GetByName(name: string) returns (found: bool, id: Id)
      ensures found <==> NameCached(cache, name)
      ensures found ==> id in cache && cache[id].name == name
    {
      var ids := cache.Keys;
      while ids != {}
        invariant ids <= cache.Keys
        invariant forall i :: i in cache && i !in ids ==> cache[i].name != name
        decreases |ids|
      {
        id :| id in ids;
        if cache[id].name == name {
          return true, id;
        }
        ids := ids - {id};
      }
      return false, "";
    }

    method PutMetadata(id: Id, data: Snapshot, get: bool, put: Answer) returns (ok: bool)
      modifies this`store
      ensures (store, ok) == StoreCreate(old(store), id, data, get, put)
    {
      if get && id in store {
        return true;
      }
      if put == Refused {
        return false;
      }
      if id !in store {
        store := store[id := data];
      }
      return put == Done;
    }

    /** `pick` is the entry that the search by name came across. */
    method CreateSnapshot(name: string, source: string, io: CreateIo) returns (r: Outcome, ghost pick: Id)
      requires io.newId !in used
      modifies this
      ensures (Now(), r) == Create(old(Now()), name, source, io.(pick := pick))
      ensures r.Invalid? || (NameCached(old(cache), name) ==> pick in old(cache) && old(cache)[pick].name == name)
    {
      pick := "";
      var hasComma := Contains(source, ",");
      if name == "" || source == "" || hasComma {
        return Invalid, pick;
      }
      var found, id := GetByName(name);
      if found {
        pick := id;
        var snap := cache[id];
        if !io.describe {
          return Failed, pick;
        }
        if io.visible && snap.id in cloud && cloud[snap.id].diskId == snap.sourceVolumeId {
          var ok := PutMetadata(snap.id, snap, io.get, io.put);
          if !ok {
            return Failed, pick;
          }
          return Reply(snap, cloud[snap.id].normal), pick;
        }
        return Reply(snap, false), pick;
      }
      if io.create == Refused {
        return Failed, pick;
      }
      cloud := cloud[io.newId := CloudSnapshot(source, io.diskSize, false)];
      used := used + {io.newId};
      if io.create == Lost || !io.describe {
        return Failed, pick;
      }
      if !io.visible {
        return Panicked, pick;
      }
      var snap := Snapshot(source, name, io.newId, io.now, Capacity.Wrap64(io.diskSize * Capacity.GIB));
      cache := cache[io.newId := snap];
      var ok := PutMetadata(io.newId, snap, io.get, io.put);
      if !ok {
        return Failed, pick;
      }
      return Reply(snap, false), pick;
    }

    method DeleteSnapshot(id: Id, io: DeleteIo) returns (r: Outcome)
      modifies this
      ensures (Now(), r) == Delete(old(Now()), id, io)
    {
      if id == "" {
        return Invalid;
      }
      if !io.get {
        return Failed;
      }
      if id !in store {
        return Deleted;
      }
      if io.cloud != Refused {
        cloud := cloud - {id};
      }
      if io.cloud != Done {
        return Failed;
      }
      cache := cache - {id};
      if io.delete != Refused {
        store := store - {id};
      }
      return if io.delete == Done then Deleted else Failed;
    }
  }

  // ----- Runs: serial calls, the cloud finishing snapshots in between, and restarts of the driver

  datatype Event =
    | CreateSnapshot(name: string, source: string, io: CreateIo)
    | DeleteSnapshot(id: Id, dio: DeleteIo)
    | Finished(id: Id)
    | Restart(loaded: map<Id, Snapshot>)

  /** What a snapshot was created with. */
  datatype Made = Made(name: string, source: string, diskSize: nat, at: int)

  /** `created` are the ids that some successful CreateSnapshot has returned, `deleting` those that some
      DeleteSnapshot was called for, `made` says what each id was created with, and `finished` are the ids that the
      cloud has finished. They only record the past. */
  datatype State = State(w: World, created: set<Id>, deleting: set<Id>, made: map<Id, Made>, finished: set<Id>)

  function Step(w: World, e: Event): (r: (World, Outcome)) {
    match e
    case CreateSnapshot(name, source, io) => Create(w, name, source, io)
    case DeleteSnapshot(id, io) => Delete(w, id, io)
    case Finished(id) =>
      (if id in w.cloud then w.(cloud := w.cloud[id := w.cloud[id].(normal := true)]) else w, Invalid)
    case Restart(loaded) => (w.(cache := loaded), Invalid)
  }

  /** The search by name finds an entry of that name if there is one, the cloud's new ids are new, and a restart
      loads nothing but stored records, under whatever keys. */
  predicate Possible(w: World, e: Event) {
    match e
    case CreateSnapshot(name, _, io) =>
      && (NameCached(w.cache, name) ==> io.pick in w.cache && w.cache[io.pick].name == name)
      && io.newId !in w.used
    case Restart(loaded) => forall id :: id in loaded ==> loaded[id] in w.store.Values
    case _ => true
  }

  /** And the driver's process goes on: it is not restarted and does not panic. */
  predicate Legal(w: World, e: Event) {
    Possible(w, e) && !e.Restart? && !Step(w, e).1.Panicked?
  }

  /** A panic loses the cache, like the end of any process. */
  function Next(s: State, e: Event): State {
    var (w, r) := Step(s.w, e);
    State(if r.Panicked? then w.(cache := map[]) else w,
          if r.Created? then s.created + {r.id} else s.created,
          if e.DeleteSnapshot? then s.deleting + {e.id} else s.deleting,
          if e.CreateSnapshot? && e.io.newId in w.cloud && e.io.newId !in s.w.cloud
          then s.made[e.io.newId := Made(e.name, e.source, e.io.diskSize, e.io.now)] else s.made,
          if e.Finished? && e.id in s.w.cloud then s.finished + {e.id} else s.finished)
  }

  function Run(s: State, events: seq<Event>): State
    decreases |events|
  {
    if events == [] then s else Run(Next(s, events[0]), events[1..])
  }

  ghost predicate LegalRun(s: State, events: seq<Event>)
    decreases |events|
  {
    events != [] ==> Legal(s.w, events[0]) && LegalRun(Next(s, events[0]), events[1..])
  }

  // ----- The invariant

  predicate WorldOk(w: World) {
    && w.cloud.Keys <= w.used && w.cache.Keys <= w.used && w.store.Keys <= w.used
    && (forall id :: id in w.cache ==> w.cache[id].id == id)
    && (forall id, id' :: id in w.cache && id' in w.cache && w.cache[id].name == w.cache[id'].name ==> id == id')
    && (forall id :: id in w.cache && id in w.store ==> w.cache[id] == w.store[id])
    && (forall id :: id in w.cache && id in w.cloud ==> w.cloud[id].diskId == w.cache[id].sourceVolumeId)
    && (forall id :: id in w.cache && id !in w.cloud ==> id in w.store)
  }

  predicate Everywhere(w: World, id: Id) {
    id in w.cloud && id in w.cache && id in w.store
  }

  predicate Nowhere(w: World, id: Id) {
    id !in w.cloud && id !in w.cache && id !in w.store
  }

  predicate HistoryOk(s: State) {
    && s.created <= s.w.used
    && (forall id :: id in s.w.cache && id !in s.deleting ==> id in s.w.cloud)
    && (forall id :: id in s.created && id !in s.deleting ==> id in s.w.cloud && id in s.w.cache)
  }

  lemma CreateAgainOk(w: World, id: Id, io: CreateIo)
    requires WorldOk(w) && id in w.cache
    ensures WorldOk(CreateAgain(w, w.cache[id], io).0)
  {
    StoringOk(w, w.cache[id], io.get, io.put);
  }

  /** A fresh snapshot in the cloud, and then in the cache, contradicts nothing. */
  lemma FreshInCloudOk(w: World, id: Id, c: CloudSnapshot)
    requires WorldOk(w) && id !in w.used
    ensures WorldOk(w.(cloud := w.cloud[id := c], used := w.used + {id}))
  {
  }

  lemma FreshInCacheOk(w: World, snap: Snapshot)
    requires WorldOk(w) && snap.id in w.cloud && snap.id !in w.cache && snap.id !in w.store
    requires w.cloud[snap.id].diskId == snap.sourceVolumeId && !NameCached(w.cache, snap.name)
    ensures WorldOk(w.(cache := w.cache[snap.id := snap]))
  {
  }

  lemma CreateNewOk(w: World, name: string, source: string, io: CreateIo)
    requires WorldOk(w) && io.newId !in w.used && !NameCached(w.cache, name)
    ensures WorldOk(CreateNew(w, name, source, io).0)
  {
    if io.create != Refused {
      FreshInCloudOk(w, io.newId, CloudSnapshot(source, io.diskSize, false));
      if io.create == Done && io.describe && io.visible {
        var w1 := w.(cloud := w.cloud[io.newId := CloudSnapshot(source, io.diskSize, false)],
                     used := w.used + {io.newId});
        var snap := Snapshot(source, name, io.newId, io.now, Capacity.Wrap64(io.diskSize * Capacity.GIB));
        FreshInCacheOk(w1, snap);
        StoringOk(w1.(cache := w1.cache[io.newId := snap]), snap, io.get, io.put);
      }
    }
  }

  lemma StoringOk(w: World, snap: Snapshot, get: bool, put: Answer)
    requires WorldOk(w) && snap.id in w.cache && w.cache[snap.id] == snap
    ensures WorldOk(w.(store := StoreCreate(w.store, snap.id, snap, get, put).0))
  {
  }

  lemma DeleteOk(w: World, id: Id, io: DeleteIo)
    requires WorldOk(w)
    ensures WorldOk(Delete(w, id, io).0)
  {
  }

  lemma StepWorldOk(w: World, e: Event)
    requires WorldOk(w) && Legal(w, e)
    ensures WorldOk(Step(w, e).0)
  {
    match e
    case CreateSnapshot(name, source, io) =>
      if name == "" || source == "" || Contains(source, ",") {
      } else if NameCached(w.cache, name) {
        CreateAgainOk(w, io.pick, io);
      } else {
        CreateNewOk(w, name, source, io);
      }
    case DeleteSnapshot(id, io) => DeleteOk(w, id, io);
    case Finished(id) =>
  }

  /** A CreateSnapshot only adds: fresh ids to the cloud and with them to the cache; and what it returns
      successfully is in the cache. */
  ghost predicate OnlyAdds(w: World, w': World, r: Outcome) {
    && w.cloud.Keys <= w'.cloud.Keys && w.cache.Keys <= w'.cache.Keys && w.store.Keys <= w'.store.Keys
    && w.used <= w'.used && w'.cache.Keys <= w'.used
    && (forall i :: i in w'.cache && i !in w.cache ==> i in w'.cloud)
    && (forall i :: i in w'.cloud && i !in w.cloud ==> i !in w.used)
    && (forall i :: i in w'.cache && i !in w.cache ==> i !in w.used)
    && (r.Created? ==> r.id in w'.cache)
  }

  lemma CreateAgainAdds(w: World, id: Id, io: CreateIo)
    requires WorldOk(w) && id in w.cache
    ensures OnlyAdds(w, CreateAgain(w, w.cache[id], io).0, CreateAgain(w, w.cache[id], io).1)
  {
  }

  lemma CreateNewAdds(w: World, name: string, source: string, io: CreateIo)
    requires WorldOk(w) && io.newId !in w.used
    ensures OnlyAdds(w, CreateNew(w, name, source, io).0, CreateNew(w, name, source, io).1)
  {
  }

  lemma AddingKeepsHistory(s: State, w': World, r: Outcome)
    requires WorldOk(s.w) && HistoryOk(s) && OnlyAdds(s.w, w', r)
    ensures HistoryOk(s.(w := w', created := if r.Created? then s.created + {r.id} else s.created))
  {
  }

  lemma CreateHistoryOk(s: State, e: Event)
    requires WorldOk(s.w) && HistoryOk(s) && e.CreateSnapshot? && Legal(s.w, e)
    ensures HistoryOk(Next(s, e))
  {
    var (w', r) := Step(s.w, e);
    if r.Invalid? {
      return;
    }
    if NameCached(s.w.cache, e.name) {
      CreateAgainAdds(s.w, e.io.pick, e.io);
    } else {
      CreateNewAdds(s.w, e.name, e.source, e.io);
    }
    AddingKeepsHistory(s, w', r);
  }

  lemma DeleteHistoryOk(s: State, id: Id, io: DeleteIo)
    requires WorldOk(s.w) && HistoryOk(s)
    ensures HistoryOk(Next(s, DeleteSnapshot(id, io)))
  {
  }

  lemma StepHistoryOk(s: State, e: Event)
    requires WorldOk(s.w) && HistoryOk(s) && Legal(s.w, e)
    ensures HistoryOk(Next(s, e))
  {
    match e
    case CreateSnapshot(_, _, _) => CreateHistoryOk(s, e);
    case DeleteSnapshot(id, io) => DeleteHistoryOk(s, id, io);
    case Finished(id) =>
  }

  lemma {:induction false} RunOk(s: State, events: seq<Event>)
    requires WorldOk(s.w) && HistoryOk(s) && LegalRun(s, events)
    ensures WorldOk(Run(s, events).w) && HistoryOk(Run(s, events))
    decreases |events|
  {
    if events != [] {
      StepWorldOk(s.w, events[0]);
      StepHistoryOk(s, events[0]);
      RunOk(Next(s, events[0]), events[1..]);
    }
  }

  const START := State(INIT, {}, {}, map[], {})

  // ----- With restarts and panics the cache may hold anything that was stored

  ghost predicate PossibleRun(s: State, events: seq<Event>)
    decreases |events|
  {
    events != [] ==> Possible(s.w, events[0]) && PossibleRun(Next(s, events[0]), events[1..])
  }

  lemma {:induction false} LegalIsPossible(s: State, events: seq<Event>)
    requires LegalRun(s, events)
    ensures PossibleRun(s, events)
    decreases |events|
  {
    if events != [] {
      LegalIsPossible(Next(s, events[0]), events[1..]);
    }
  }

  /** A record is about a snapshot that the cloud once had, and of the disk that the cloud says. */
  predicate Sourced(w: World, snap: Snapshot) {
    snap.id in w.used && (snap.id in w.cloud ==> w.cloud[snap.id].diskId == snap.sourceVolumeId)
  }

  predicate StoredOk(w: World, deleting: set<Id>) {
    && w.cloud.Keys <= w.used && w.store.Keys <= w.used
    && forall id :: id in w.store ==>
         w.store[id].id == id && Sourced(w, w.store[id]) && (id in deleting || id in w.cloud)
  }

  predicate CachedOk(w: World, deleting: set<Id>) {
    forall k :: k in w.cache ==> Sourced(w, w.cache[k]) && (w.cache[k].id in deleting || w.cache[k].id in w.cloud)
  }

  predicate CreatedOk(w: World, created: set<Id>, deleting: set<Id>) {
    && created <= w.used
    && forall id :: id in created && id !in deleting ==> id in w.cloud
  }

  predicate DurableOk(s: State) {
    StoredOk(s.w, s.deleting) && CachedOk(s.w, s.deleting) && CreatedOk(s.w, s.created, s.deleting)
  }

  lemma DurableAgain(s: State, id: Id, io: CreateIo)
    requires DurableOk(s) && id in s.w.cache
    ensures var (w, r) := CreateAgain(s.w, s.w.cache[id], io);
            && StoredOk(w, s.deleting) && CachedOk(w, s.deleting)
            && CreatedOk(w, if r.Created? then s.created + {r.id} else s.created, s.deleting)
  {
  }

  lemma NewInCloud(w: World, id: Id, c: CloudSnapshot, created: set<Id>, deleting: set<Id>)
    requires id !in w.used && StoredOk(w, deleting) && CachedOk(w, deleting) && CreatedOk(w, created, deleting)
    ensures var w' := w.(cloud := w.cloud[id := c], used := w.used + {id});
            StoredOk(w', deleting) && CachedOk(w', deleting) && CreatedOk(w', created, deleting)
  {
  }

  lemma NewStored(w: World, snap: Snapshot, created: set<Id>, deleting: set<Id>)
    requires snap.id in w.cloud && w.cloud[snap.id].diskId == snap.sourceVolumeId && snap.id !in w.store
    requires StoredOk(w, deleting) && CreatedOk(w, created, deleting)
    ensures var w' := w.(store := w.store[snap.id := snap]);
            StoredOk(w', deleting) && CreatedOk(w', created + {snap.id}, deleting)
  {
  }

  lemma DurableNew(s: State, name: string, source: string, io: CreateIo)
    requires DurableOk(s) && io.newId !in s.w.used
    ensures var (w, r) := CreateNew(s.w, name, source, io);
            && StoredOk(w, s.deleting) && CachedOk(w, s.deleting)
            && CreatedOk(w, if r.Created? then s.created + {r.id} else s.created, s.deleting)
  {
    if io.create != Refused {
      var c := CloudSnapshot(source, io.diskSize, false);
      NewInCloud(s.w, io.newId, c, s.created, s.deleting);
      var w1 := s.w.(cloud := s.w.cloud[io.newId := c], used := s.w.used + {io.newId});
      var snap := Snapshot(source, name, io.newId, io.now, Capacity.Wrap64(io.diskSize * Capacity.GIB));
      assert io.newId !in w1.store;
      NewStored(w1.(cache := w1.cache[io.newId := snap]), snap, s.created, s.deleting);
    }
  }

  lemma DurableDelete(s: State, id: Id, io: DeleteIo)
    requires DurableOk(s)
    ensures DurableOk(Next(s, DeleteSnapshot(id, io)))
  {
  }

  lemma DurableRestart(s: State, loaded: map<Id, Snapshot>)
    requires DurableOk(s) && Possible(s.w, Restart(loaded))
    ensures DurableOk(Next(s, Restart(loaded)))
  {
    forall k | k in loaded ensures exists id :: id in s.w.store && s.w.store[id] == loaded[k] {
      assert loaded[k] in s.w.store.Values;
    }
  }

  lemma DurableNext(s: State, e: Event)
    requires DurableOk(s) && Possible(s.w, e)
    ensures DurableOk(Next(s, e))
  {
    match e
    case CreateSnapshot(name, source, io) =>
      if name == "" || source == "" || Contains(source, ",") {
      } else if NameCached(s.w.cache, name) {
        DurableAgain(s, io.pick, io);
      } else {
        DurableNew(s, name, source, io);
      }
    case DeleteSnapshot(id, io) => DurableDelete(s, id, io);
    case Restart(loaded) => DurableRestart(s, loaded);
    case Finished(_) =>
  }

  lemma {:induction false} DurableRun(s: State, events: seq<Event>)
    requires DurableOk(s) && PossibleRun(s, events)
    ensures DurableOk(Run(s, events))
    decreases |events|
  {
    if events != [] {
      DurableNext(s, events[0]);
      DurableRun(Next(s, events[0]), events[1..]);
    }
  }

  // ----- Exactly when created snapshots are recorded

  /** A create of a cached name whose snapshot exists but is not stored, because an earlier create failed at that,
      and whose description comes back empty without an error: the driver then succeeds without storing it. */
  predicate Overlooks(w: World, e: Event) {
    && e.CreateSnapshot? && e.name != "" && e.source != "" && !Contains(e.source, ",")
    && NameCached(w.cache, e.name) && e.io.pick in w.cache && e.io.describe && !e.io.visible
    && w.cache[e.io.pick].id in w.cloud && w.cache[e.io.pick].id !in w.store
  }

  /** What was created is stored until its deletion begins, and gone from the cloud before it is gone from the store. */
  predicate Kept(s: State) {
    forall id :: id in s.created ==> (id !in s.deleting ==> id in s.w.store) && (id in s.w.store || id !in s.w.cloud)
  }

  ghost predicate StaysKept(s: State, events: seq<Event>)
    decreases |events|
  {
    Kept(s) && (events != [] ==> StaysKept(Next(s, events[0]), events[1..]))
  }

  ghost predicate NeverOverlooks(s: State, events: seq<Event>)
    decreases |events|
  {
    events != [] ==> !Overlooks(s.w, events[0]) && NeverOverlooks(Next(s, events[0]), events[1..])
  }

  /** A successful create returns a live snapshot that is not stored exactly when it overlooks it. */
  lemma CreateOverlooksIff(s: State, e: Event)
    requires DurableOk(s) && Possible(s.w, e) && e.CreateSnapshot?
    ensures var (w, r) := Step(s.w, e); r.Created? && r.id in w.cloud && r.id !in w.store <==> Overlooks(s.w, e)
  {
  }

  lemma CreateSpares(s: State, e: Event)
    requires DurableOk(s) && Possible(s.w, e) && e.CreateSnapshot?
    ensures var w := Step(s.w, e).0;
            s.w.store.Keys <= w.store.Keys && forall id :: id in w.cloud && id !in s.w.cloud ==> id !in s.w.used
  {
  }

  lemma KeptByCreate(s: State, e: Event)
    requires DurableOk(s) && Kept(s) && Possible(s.w, e) && e.CreateSnapshot?
    ensures Kept(Next(s, e)) <==> !Overlooks(s.w, e)
  {
    CreateOverlooksIff(s, e);
    CreateSpares(s, e);
    DurableNext(s, e);
  }

  lemma KeptByDelete(s: State, id: Id, io: DeleteIo)
    requires DurableOk(s) && Kept(s)
    ensures Kept(Next(s, DeleteSnapshot(id, io)))
  {
  }

  lemma {:induction false} KeptRun(s: State, events: seq<Event>)
    requires DurableOk(s) && Kept(s) && PossibleRun(s, events)
    ensures StaysKept(s, events) <==> NeverOverlooks(s, events)
    ensures NeverOverlooks(s, events) ==> Kept(Run(s, events))
    decreases |events|
  {
    if events != [] {
      var e := events[0];
      DurableNext(s, e);
      if e.CreateSnapshot? {
        KeptByCreate(s, e);
      } else if e.DeleteSnapshot? {
        KeptByDelete(s, e.id, e.dio);
      }
      if Kept(Next(s, e)) {
        KeptRun(Next(s, e), events[1..]);
      } else {
        assert !StaysKept(Next(s, e), events[1..]);
      }
    }
  }

  // ----- Main results

  /** Main result 1. In every run of a driver process, whatever operations fail: cache entries are keyed by their
      own id, cached names are distinct, cache and store agree, and an id that a CreateSnapshot returned and no
      DeleteSnapshot was called for is in the cloud and the cache; and in the store too, if nothing was overlooked. */
  lemma CreatedSnapshotsAreEverywhere(events: seq<Event>, id: Id)
    requires LegalRun(START, events)
    ensures var s := Run(START, events);
            && (id in s.created && id !in s.deleting ==> id in s.w.cloud && id in s.w.cache)
            && (id in s.created && id !in s.deleting && NeverOverlooks(START, events) ==> Everywhere(s.w, id))
            && (id in s.w.cache ==> s.w.cache[id].id == id)
            && (id in s.w.cache && id in s.w.store ==> s.w.cache[id] == s.w.store[id])
            && (forall i, j :: i in s.w.cache && j in s.w.cache && s.w.cache[i].name == s.w.cache[j].name ==> i == j)
  {
    RunOk(START, events);
    LegalIsPossible(START, events);
    KeptRun(START, events);
  }

  /** Main result 2. In every run, also with panics and with restarts that load any stored records under any keys: a
      created snapshot that was not asked to be deleted is in the cloud; and at every moment what was created is
      stored, until it is deleted and out of the cloud, if and only if no create overlooks a snapshot. */
  lemma SnapshotsSurviveRestarts(events: seq<Event>)
    requires PossibleRun(START, events)
    ensures var s := Run(START, events); forall id :: id in s.created && id !in s.deleting ==> id in s.w.cloud
    ensures StaysKept(START, events) <==> NeverOverlooks(START, events)
  {
    DurableRun(START, events);
    KeptRun(START, events);
  }

  /** Main result 3. When no create has overlooked a snapshot, a successful DeleteSnapshot of an id that a
      CreateSnapshot had returned, even after failed attempts, leaves it in none of the three; after panics and
      restarts, in neither cloud nor store. */
  lemma DeletedSnapshotsAreNowhere(events: seq<Event>, id: Id, io: DeleteIo)
    requires PossibleRun(START, events) && NeverOverlooks(START, events) && id in Run(START, events).created
    requires Delete(Run(START, events).w, id, io).1.Deleted?
    ensures var w := Delete(Run(START, events).w, id, io).0;
            id !in w.cloud && id !in w.store && (LegalRun(START, events) ==> Nowhere(w, id))
  {
    KeptRun(START, events);
    if LegalRun(START, events) {
      RunOk(START, events);
    }
  }

  /** In general a success is truthful, whatever the cloud and the store answered, exactly for what is stored, and for
      what is nowhere to begin with. */
  lemma DeleteIsTruthfulIff(w: World, id: Id)
    requires id != ""
    ensures (forall io :: Delete(w, id, io).1.Deleted? ==> Nowhere(Delete(w, id, io).0, id)) <==>
            id in w.store || Nowhere(w, id)
  {
    if id !in w.store && !Nowhere(w, id) {
      assert Delete(w, id, DeleteIo(true, Done, Done)) == (w, Deleted);
    }
  }

  /** A store write that is refused and a retry that is answered with an empty description: the retry succeeds, the
      snapshot stays unrecorded, and a delete reports success and leaves it in cloud and cache. */
  lemma OverlookedSnapshotStays(w: World, name: string, source: string, io: CreateIo, retry: CreateIo, dio: DeleteIo)
    requires WorldOk(w) && name != "" && source != "" && !Contains(source, ",") && !NameCached(w.cache, name)
    requires io.newId !in w.used && io.newId != ""
    requires io.create == Done && io.describe && io.visible && io.put == Refused
    requires retry.pick == io.newId && retry.describe && !retry.visible && dio.get
    ensures var (w1, r1) := Create(w, name, source, io);
            var (w2, r2) := Create(w1, name, source, retry);
            && r1.Failed? && Overlooks(w1, CreateSnapshot(name, source, retry)) && r2.Created? && r2.id == io.newId
            && Delete(w2, io.newId, dio) == (w2, Deleted) && io.newId in w2.cloud && io.newId in w2.cache
  {
    var w1 := Create(w, name, source, io).0;
    assert io.newId in w1.cache && w1.cache[io.newId].name == name;
  }

  /** In a run of a driver process a successful create returns a snapshot that exists, unless its name was cached for
      one that an unfinished deletion has already taken from the cloud. */
  lemma CreateIsTruthfulIff(events: seq<Event>, e: Event)
    requires LegalRun(START, events) && Legal(Run(START, events).w, e)
    requires e.CreateSnapshot? && Step(Run(START, events).w, e).1.Created?
    ensures var s := Run(START, events);
            var (w', r) := Step(s.w, e);
            && (r.id in w'.cloud <==> !NameCached(s.w.cache, e.name) || s.w.cache[e.io.pick].id in s.w.cloud)
            && (r.id !in w'.cloud ==> r.id in s.deleting && r.id in w'.store && !r.ready)
  {
    RunOk(START, events);
  }

  /** As after a delete whose answer from the cloud is lost. */
  lemma LostDeleteThenCreate(w: World, name: string, source: string, id: Id, dio: DeleteIo, io: CreateIo)
    requires WorldOk(w) && Cached(w, name, id) && Everywhere(w, id) && id != ""
    requires name != "" && source != "" && !Contains(source, ",")
    requires dio.get && dio.cloud == Lost && io.pick == id && io.describe
    ensures var (w1, r1) := Delete(w, id, dio);
            var (w2, r2) := Create(w1, name, source, io);
            r1.Failed? && r2.Created? && r2.id == id && id !in w2.cloud
  {
  }

  // ----- What a create replies

  /** A record says what its snapshot was created with. */
  predicate Faithful(s: State, snap: Snapshot) {
    snap.id in s.made &&
    var m := s.made[snap.id];
    snap == Snapshot(m.source, m.name, snap.id, m.at, Capacity.Wrap64(m.diskSize * 1073741824))
  }

  predicate CloudFaithful(s: State) {
    && s.w.cloud.Keys <= s.made.Keys <= s.w.used && s.finished <= s.w.used
    && forall id :: id in s.w.cloud ==>
         && s.w.cloud[id].diskId == s.made[id].source && s.w.cloud[id].diskSize == s.made[id].diskSize
         && (s.w.cloud[id].normal <==> id in s.finished)
  }

  predicate RecordsFaithful(s: State) {
    && (forall k :: k in s.w.cache ==> Faithful(s, s.w.cache[k]))
    && (forall id :: id in s.w.store ==> s.w.store[id].id == id && Faithful(s, s.w.store[id]))
  }

  lemma FaithfulAgain(s: State, e: Event)
    requires CloudFaithful(s) && RecordsFaithful(s) && Possible(s.w, e)
    requires e.CreateSnapshot? && NameCached(s.w.cache, e.name)
    ensures CloudFaithful(Next(s, e)) && RecordsFaithful(Next(s, e))
  {
    assert Next(s, e).made == s.made;
  }

  /** The new snapshot in the cloud and on record, and nothing else. */
  function WithNew(s: State, m: Made, id: Id): State {
    s.(w := s.w.(cloud := s.w.cloud[id := CloudSnapshot(m.source, m.diskSize, false)], used := s.w.used + {id}),
       made := s.made[id := m])
  }

  lemma WithNewFaithful(s: State, m: Made, id: Id)
    requires CloudFaithful(s) && RecordsFaithful(s) && id !in s.w.used
    ensures CloudFaithful(WithNew(s, m, id)) && RecordsFaithful(WithNew(s, m, id))
  {
    var s' := WithNew(s, m, id);
    assert forall i :: i in s.made ==> i != id && s'.made[i] == s.made[i];
    forall snap: Snapshot | Faithful(s, snap) ensures Faithful(s', snap) {
    }
  }

  lemma FaithfulNew(s: State, e: Event)
    requires CloudFaithful(s) && RecordsFaithful(s) && Possible(s.w, e)
    requires e.CreateSnapshot? && !NameCached(s.w.cache, e.name)
    ensures CloudFaithful(Next(s, e)) && RecordsFaithful(Next(s, e))
  {
    var io := e.io;
    var m := Made(e.name, e.source, io.diskSize, io.now);
    if e.name != "" && e.source != "" && !Contains(e.source, ",") && io.create != Refused {
      WithNewFaithful(s, m, io.newId);
      RecordedNew(s, e, WithNew(s, m, io.newId));
    } else {
      assert Step(s.w, e).0 == s.w && io.newId !in s.w.cloud;
    }
  }

  function NewRecord(name: string, source: string, io: CreateIo): Snapshot {
    Snapshot(source, name, io.newId, io.now, Capacity.Wrap64(io.diskSize * Capacity.GIB))
  }

  /** A create of a new snapshot writes nothing but its own record. */
  lemma CreateNewWrites(w: World, name: string, source: string, io: CreateIo)
    requires io.create != Refused
    ensures var (w', snap) := (CreateNew(w, name, source, io).0, NewRecord(name, source, io));
            && w'.cloud == w.cloud[io.newId := CloudSnapshot(source, io.diskSize, false)]
            && w'.used == w.used + {io.newId}
            && (forall k :: k in w'.cache ==> w'.cache[k] == snap || (k in w.cache && w'.cache[k] == w.cache[k]))
            && (forall k :: k in w'.store ==>
                  (k == io.newId && w'.store[k] == snap) || (k in w.store && w'.store[k] == w.store[k]))
  {
  }

  lemma RecordedNew(s: State, e: Event, s1: State)
    requires e.CreateSnapshot? && !NameCached(s.w.cache, e.name) && Possible(s.w, e) && e.io.create != Refused
    requires e.name != "" && e.source != "" && !Contains(e.source, ",")
    requires s1 == WithNew(s, Made(e.name, e.source, e.io.diskSize, e.io.now), e.io.newId)
    requires s.w.cloud.Keys <= s.w.used && CloudFaithful(s1) && RecordsFaithful(s1)
    ensures CloudFaithful(Next(s, e)) && RecordsFaithful(Next(s, e))
  {
    CreateNewWrites(s.w, e.name, e.source, e.io);
    var s' := Next(s, e);
    var snap := NewRecord(e.name, e.source, e.io);
    assert e.io.newId !in s.w.cloud && s'.made == s1.made;
    SameRecord(s1, s', snap, e.io.newId);
  }

  lemma SameRecord(s1: State, s': State, snap: Snapshot, id: Id)
    requires CloudFaithful(s1) && RecordsFaithful(s1)
    requires s'.made == s1.made && s'.finished == s1.finished
    requires s'.w.cloud == s1.w.cloud && s'.w.used == s1.w.used
    requires snap.id == id && Faithful(s1, snap)
    requires forall k :: k in s'.w.cache ==>
               s'.w.cache[k] == snap || (k in s1.w.cache && s'.w.cache[k] == s1.w.cache[k])
    requires forall k :: k in s'.w.store ==>
               (k == id && s'.w.store[k] == snap) || (k in s1.w.store && s'.w.store[k] == s1.w.store[k])
    ensures CloudFaithful(s') && RecordsFaithful(s')
  {
    forall r: Snapshot | Faithful(s1, r) ensures Faithful(s', r) {
    }
  }

  lemma FaithfulRestart(s: State, loaded: map<Id, Snapshot>)
    requires CloudFaithful(s) && RecordsFaithful(s) && Possible(s.w, Restart(loaded))
    ensures CloudFaithful(Next(s, Restart(loaded))) && RecordsFaithful(Next(s, Restart(loaded)))
  {
    forall k | k in loaded ensures exists id :: id in s.w.store && s.w.store[id] == loaded[k] {
      assert loaded[k] in s.w.store.Values;
    }
  }

  lemma FaithfulDelete(s: State, id: Id, io: DeleteIo)
    requires CloudFaithful(s) && RecordsFaithful(s)
    ensures CloudFaithful(Next(s, DeleteSnapshot(id, io))) && RecordsFaithful(Next(s, DeleteSnapshot(id, io)))
  {
  }

  lemma FaithfulFinished(s: State, id: Id)
    requires CloudFaithful(s) && RecordsFaithful(s)
    ensures CloudFaithful(Next(s, Finished(id))) && RecordsFaithful(Next(s, Finished(id)))
  {
  }

  lemma FaithfulNext(s: State, e: Event)
    requires CloudFaithful(s) && RecordsFaithful(s) && Possible(s.w, e)
    ensures CloudFaithful(Next(s, e)) && RecordsFaithful(Next(s, e))
  {
    match e
    case CreateSnapshot(name, _, _) =>
      if NameCached(s.w.cache, name) {
        FaithfulAgain(s, e);
      } else {
        FaithfulNew(s, e);
      }
    case DeleteSnapshot(id, io) => FaithfulDelete(s, id, io);
    case Restart(loaded) => FaithfulRestart(s, loaded);
    case Finished(id) => FaithfulFinished(s, id);
  }

  lemma {:induction false} FaithfulRun(s: State, events: seq<Event>)
    requires CloudFaithful(s) && RecordsFaithful(s) && PossibleRun(s, events)
    ensures CloudFaithful(Run(s, events)) && RecordsFaithful(Run(s, events))
    decreases |events|
  {
    if events != [] {
      FaithfulNext(s, events[0]);
      FaithfulRun(Next(s, events[0]), events[1..]);
    }
  }

  /** Main result 4. In every run, also with panics and restarts: what a successful create replies is what the returned
      snapshot was created with, under the requested name and with the cloud's size in bytes; and it reports it ready
      if and only if the cloud had finished it and this call was shown it. So a snapshot just made is never ready. */
  lemma ReplyIsTruthful(events: seq<Event>, e: Event)
    requires PossibleRun(START, events) && Possible(Run(START, events).w, e)
    requires e.CreateSnapshot? && Step(Run(START, events).w, e).1.Created?
    ensures var s := Run(START, events);
            var (r, made) := (Step(s.w, e).1, Next(s, e).made);
            && r.id in made && made[r.id].name == e.name
            && r.sourceVolumeId == made[r.id].source && r.createdAt == made[r.id].at
            && r.sizeBytes == Capacity.Wrap64(made[r.id].diskSize * 1073741824)
            && (r.ready <==> r.id in s.w.cloud && r.id in s.finished && e.io.visible)
            && (r.id !in s.made ==> made[r.id] == Made(e.name, e.source, e.io.diskSize, e.io.now) && !r.ready)
  {
    FaithfulRun(START, events);
    FaithfulNext(Run(START, events), e);
  }

  /** A create succeeds exactly when every operation it comes to is answered with success: for a cached name describing
      the snapshot and, if it is shown, storing it unless it is found stored; otherwise creating, describing and
      storing a new one. */
  lemma CreateSucceedsIff(w: World, name: string, source: string, io: CreateIo)
    requires Possible(w, CreateSnapshot(name, source, io)) && w.store.Keys <= w.used
    requires forall k :: k in w.cache ==> Sourced(w, w.cache[k])
    ensures var r := Create(w, name, source, io).1;
            && (r.Invalid? <==> name == "" || source == "" || Contains(source, ","))
            && (r.Created? <==>
                !r.Invalid? &&
                if NameCached(w.cache, name) then
                  var id := w.cache[io.pick].id;
                  io.describe && (io.visible && id in w.cloud && !(io.get && id in w.store) ==> io.put == Done)
                else io.create == Done && io.describe && io.visible && io.put == Done)
  {
  }

  /** A cached snapshot that the cloud describes as one of another disk is neither stored again nor reported ready. */
  lemma ForeignDescriptionIsIgnored(w: World, snap: Snapshot, io: CreateIo)
    requires io.describe && snap.id in w.cloud && w.cloud[snap.id].diskId != snap.sourceVolumeId
    ensures CreateAgain(w, snap, io).0 == w && CreateAgain(w, snap, io).1.Created? && !CreateAgain(w, snap, io).1.ready
  {
  }

  /** And so does a delete: finding that nothing is stored, or deleting snapshot and metadata. */
  lemma DeleteSucceedsIff(w: World, id: Id, io: DeleteIo)
    ensures var (w', r) := Delete(w, id, io);
            && (r.Invalid? <==> id == "")
            && (r.Deleted? <==> id != "" && io.get && (id in w.store ==> io.cloud == Done && io.delete == Done))
            && (!r.Deleted? && !r.Failed? ==> w' == w)
  {
  }

  // ----- Idempotence by name

  predicate Cached(w: World, name: string, id: Id) {
    id in w.cache && w.cache[id].name == name && w.cache[id].id == id
  }

  predicate Deletes(e: Event, id: Id) {
    e.DeleteSnapshot? && e.id == id
  }

  lemma SuccessIsCached(w: World, e: Event)
    requires WorldOk(w) && Legal(w, e) && e.CreateSnapshot? && Step(w, e).1.Created?
    ensures Cached(Step(w, e).0, e.name, Step(w, e).1.id)
  {
  }

  lemma CachedStep(w: World, e: Event, name: string, id: Id)
    requires WorldOk(w) && Legal(w, e) && Cached(w, name, id) && !Deletes(e, id)
    ensures Cached(Step(w, e).0, name, id)
  {
  }

  lemma {:induction false} CachedUntilDeleted(s: State, events: seq<Event>, name: string, id: Id)
    requires WorldOk(s.w) && HistoryOk(s) && LegalRun(s, events) && Cached(s.w, name, id)
    requires forall e :: e in events ==> !Deletes(e, id)
    ensures Cached(Run(s, events).w, name, id)
    decreases |events|
  {
    if events != [] {
      assert events[0] in events;
      StepWorldOk(s.w, events[0]);
      StepHistoryOk(s, events[0]);
      CachedStep(s.w, events[0], name, id);
      CachedUntilDeleted(Next(s, events[0]), events[1..], name, id);
    }
  }

  lemma CreateOfCachedName(w: World, e: Event, id: Id)
    requires WorldOk(w) && Legal(w, e) && e.CreateSnapshot? && Cached(w, e.name, id)
    ensures var (w', r) := Step(w, e); (r.Created? ==> r.id == id) && w'.cloud == w.cloud
  {
  }

  lemma SuccessStaysCached(s: State, first: Event, between: seq<Event>)
    requires WorldOk(s.w) && HistoryOk(s) && first.CreateSnapshot? && Legal(s.w, first) && Step(s.w, first).1.Created?
    requires LegalRun(Next(s, first), between)
    requires forall e :: e in between ==> !Deletes(e, Step(s.w, first).1.id)
    ensures WorldOk(Run(Next(s, first), between).w)
    ensures Cached(Run(Next(s, first), between).w, first.name, Step(s.w, first).1.id)
  {
    SuccessIsCached(s.w, first);
    StepWorldOk(s.w, first);
    StepHistoryOk(s, first);
    CachedUntilDeleted(Next(s, first), between, first.name, Step(s.w, first).1.id);
    RunOk(Next(s, first), between);
  }

  /** Main result 5. Once CreateSnapshot has succeeded for a name, every later success for that name returns the
      same id and adds nothing to the cloud, until a DeleteSnapshot of that id begins. */
  lemma CreateIsIdempotent(before: seq<Event>, first: Event, between: seq<Event>, again: Event)
    requires LegalRun(START, before)
    requires var s := Run(START, before);
             && first.CreateSnapshot? && Legal(s.w, first) && Step(s.w, first).1.Created?
             && LegalRun(Next(s, first), between)
             && (forall e :: e in between ==> !Deletes(e, Step(s.w, first).1.id))
             && again.CreateSnapshot? && again.name == first.name
             && Legal(Run(Next(s, first), between).w, again)
    ensures var s := Run(START, before);
            var w := Run(Next(s, first), between).w;
            var (w', r) := Step(w, again);
            && (r.Created? ==> r.id == Step(s.w, first).1.id)
            && w'.cloud == w.cloud
  {
    RunOk(START, before);
    var s := Run(START, before);
    SuccessStaysCached(s, first, between);
    CreateOfCachedName(Run(Next(s, first), between).w, again, Step(s.w, first).1.id);
  }

  /** Before the first success it is not idempotent. A first CreateSnapshot for a name leaves a snapshot that nothing
      records exactly when it fails between the cloud's create and the cache: the create's answer is lost, or the new
      snapshot cannot be described, or the description is empty, which kills the driver. */
  predicate Leaks(io: CreateIo) {
    io.create == Lost || (io.create == Done && (!io.describe || !io.visible))
  }

  lemma CreateLeaksIff(w: World, name: string, source: string, io: CreateIo)
    requires WorldOk(w) && name != "" && source != "" && !Contains(source, ",") && !NameCached(w.cache, name)
    requires io.newId !in w.used
    ensures var (w', r) := Create(w, name, source, io);
            && (io.newId in w'.cloud && io.newId !in w'.cache && io.newId !in w'.store <==> Leaks(io))
            && (Leaks(io) ==> w'.cache == w.cache && w'.store == w.store)
            && (io.create == Refused ==> w' == w && r.Failed?)
            && (!Leaks(io) && io.create != Refused ==> Cached(w', name, io.newId) && !r.Panicked?)
            && w'.cloud.Keys == w.cloud.Keys + if io.create == Refused then {} else {io.newId}
  {
  }

  /** Exactly then the retry makes a second snapshot; and deleting the first by its id reports success and leaves it. */
  lemma RetryLeaksIff(w: World, name: string, source: string, io: CreateIo, loaded: map<Id, Snapshot>, retry: CreateIo)
    requires WorldOk(w) && name != "" && source != "" && !Contains(source, ",") && !NameCached(w.cache, name)
    requires io.newId !in w.used && io.newId != "" && retry.newId !in w.used + {io.newId}
    requires !NameCached(loaded, name) && retry.pick == io.newId
    requires retry.create == Done && retry.describe && retry.visible && retry.put == Done
    ensures var (w1, r1) := Create(w, name, source, io);
            var (w2, r2) := Create(if r1.Panicked? then w1.(cache := loaded) else w1, name, source, retry);
            && (w2.cloud.Keys == w.cloud.Keys + {io.newId, retry.newId} <==> Leaks(io))
            && r2.Created? && r2.id == (if Leaks(io) || io.create == Refused then retry.newId else io.newId)
            && (Leaks(io) ==> forall dio: DeleteIo :: dio.get ==> Delete(w2, io.newId, dio) == (w2, Deleted))
  {
    var (w1, r1) := Create(w, name, source, io);
    CreateLeaksIff(w, name, source, io);
    assert io.newId !in w.cloud && io.newId !in w.store;
    var again := if r1.Panicked? then w1.(cache := loaded) else w1;
    if Leaks(io) || io.create == Refused {
      RetryCreates(again, name, source, retry);
      assert retry.newId !in w.cloud;
    } else {
      RetryFinds(again, name, source, retry);
    }
  }

  lemma RetryCreates(w: World, name: string, source: string, io: CreateIo)
    requires name != "" && source != "" && !Contains(source, ",") && !NameCached(w.cache, name)
    requires io.create == Done && io.describe && io.visible && io.put == Done
    ensures var (w', r) := Create(w, name, source, io);
            && r.Created? && r.id == io.newId && w'.cloud.Keys == w.cloud.Keys + {io.newId}
            && w'.store.Keys == w.store.Keys + {io.newId}
  {
  }

  lemma RetryFinds(w: World, name: string, source: string, io: CreateIo)
    requires name != "" && source != "" && !Contains(source, ",") && Cached(w, name, io.pick)
    requires io.describe && io.put == Done
    ensures var (w', r) := Create(w, name, source, io); r.Created? && r.id == io.pick && w'.cloud == w.cloud
  {
    assert NameCached(w.cache, name);
  }

  /** The driver panics exactly when a new snapshot was created and its description comes back empty without an
      error; the snapshot is then in the cloud and nowhere else, as after the failures above. */
  lemma EmptyDescriptionPanics(w: World, name: string, source: string, io: CreateIo)
    requires WorldOk(w) && Legal(w, CreateSnapshot(name, source, io.(visible := true)))
    ensures var (w', r) := Create(w, name, source, io);
            && (r.Panicked? <==>
                  && name != "" && source != "" && !Contains(source, ",") && !NameCached(w.cache, name)
                  && io.create == Done && io.describe && !io.visible)
            && (r.Panicked? ==> io.newId in w'.cloud && io.newId !in w'.cache && io.newId !in w'.store)
  {
  }

  /** When every operation succeeds, creating and deleting do what they say: a create of a valid request succeeds
      for every name, and deleting what it returned leaves no trace of it. */
  lemma CreateThenDelete(w: World, name: string, source: string, io: CreateIo, dio: DeleteIo)
    requires WorldOk(w) && Legal(w, CreateSnapshot(name, source, io)) && io.newId != "" && "" !in w.used
    requires io.describe && io.visible && io.create == Done && io.put == Done && io.get
    requires dio == DeleteIo(true, Done, Done)
    ensures var (w1, r1) := Create(w, name, source, io);
            && (r1.Created? <==> name != "" && source != "" && !Contains(source, ","))
            && (r1.Created? ==>
                  && w1.cloud.Keys - w.cloud.Keys <= {r1.id} && Cached(w1, name, r1.id) && r1.id in w1.store
                  && Delete(w1, r1.id, dio).1.Deleted? && Nowhere(Delete(w1, r1.id, dio).0, r1.id))
  {
  }
}
