/** CFS Turbo node service: the volumes of one file system directory share a global mount, and a persisted
    list of volume ids per mount key says who uses it. The calls are threads that take one step at a time. */
module GlobalMount {
  import opened Strings
  import MountKey

  type Volume = string
  type Key = string

  const NFS := "nfs"
  const LUSTRE := "lustre"

  /** A volume context after the defaults are filled in. */
  datatype Options = Options(proto: string, host: string, fsid: string, rootDir: string)

  /** A volume id always comes with the same context, so its key and its mount source are fixed. */
  datatype Site = Site(key: Volume -> Key, source: Volume -> Options)

  function SiteOf(options: Volume -> Options): Site {
    Site(v => MountKey.Key(options(v).fsid, options(v).rootDir), options)
  }

  /** NodeStageVolume's checks of the volume context that come before the lock. */
  predicate ValidContext(o: Options) {
    HasPrefix(o.rootDir, "/") && o.fsid != "" && o.host != ""
  }

  /** The contexts with which a stage can succeed. */
  predicate Stageable(o: Options) {
    ValidContext(o) && o.proto in {NFS, LUSTRE}
  }

  // ----- The reference list of one key

  predicate NoDuplicates(list: seq<Volume>) {
    forall i, j :: 0 <= i < j < |list| ==> list[i] != list[j]
  }

  /** The list without the first occurrence of a volume. */
  function Removed(list: seq<Volume>, v: Volume): (r: seq<Volume>) {
    if list == [] then [] else if list[0] == v then list[1..] else [list[0]] + Removed(list[1..], v)
  }

  lemma {:induction false} RemovedMembers(list: seq<Volume>, v: Volume)
    requires NoDuplicates(list)
    ensures NoDuplicates(Removed(list, v))
    ensures v !in Removed(list, v)
    ensures forall u :: u != v ==> (u in Removed(list, v) <==> u in list)
    ensures |Removed(list, v)| == if v in list then |list| - 1 else |list|
  {
    if list != [] {
      RemovedMembers(list[1..], v);
      assert list == [list[0]] + list[1..];
      assert list[0] !in list[1..];
    }
  }

  // ----- Threads and state

  /** Where a call stands. Reading a list and writing it back are separate steps, and so are the status calls
      and reads of the several list files by which an unstage looks up its key without holding any lock. */
  datatype Pc =
    | StageAcquire
    | StageProbe
    | StageMount
    | StageRead(mountedIt: bool)
    | StageWrite(mountedIt: bool, list: seq<Volume>)
    | StageReturn(ok: bool)
    | UnstageList
    | UnstageLoad(pending: set<Key>, loaded: map<Key, seq<Volume>>)
    | UnstageOpen(file: Key, pending: set<Key>, loaded: map<Key, seq<Volume>>)
    | UnstageSkip
    | UnstageAcquire(key: Key)
    | UnstageRead(key: Key)
    | UnstageWrite(key: Key, list: seq<Volume>)
    | UnstageUnmount(key: Key)
    | UnstageForget(key: Key)
    | UnstageReturn(key: Key, ok: bool)
  {
    predicate IsUnstage() {
      UnstageList? || UnstageLoad? || UnstageOpen? || UnstageSkip? || UnstageAcquire? || UnstageRead? || UnstageWrite?
      || UnstageUnmount? || UnstageForget? || UnstageReturn?
    }
  }

  datatype Thread = Thread(volume: Volume, pc: Pc)

  /** `owned` are the volumes whose stage succeeded and whose unstage has not begun; `live` are those of
      them that were staged since the node last booted; `gone` are those whose unstage succeeded and whose stage
      has not begun since. They only record the past. */
  datatype State = State(
    locks: set<Key>,
    mounts: map<Key, Options>,
    lists: map<Key, seq<Volume>>,
    threads: map<nat, Thread>,
    owned: set<Volume>,
    live: set<Volume>,
    gone: set<Volume>)

  const INIT := State({}, map[], map[], map[], {}, {}, {})

  /** The answer to a step's file or mount operation. Halfway is a mount that was made and reported as failed, a
      clean-up that unmounted and then failed, and a list directory that is there but cannot be read. Skipped is a
      clean-up that takes a path whose status cannot be read for a missing one, and reports success. */
  datatype Io = Done | Failed | Halfway | Skipped

  /** `Step` moves one call by one step; `pick` is the file read next, or the match found first.
      A restart loses the calls and the lock set, a reboot loses the mounts as well. */
  datatype Event =
    | BeginStage(t: nat, volume: Volume)
    | BeginUnstage(t: nat, volume: Volume)
    | Step(t: nat, io: Io, pick: Key)
    | Restart
    | Reboot

  function Goto(s: State, t: nat, pc: Pc): State
    requires t in s.threads
  {
    s.(threads := s.threads[t := s.threads[t].(pc := pc)])
  }

  function End(s: State, t: nat): State {
    s.(threads := s.threads - {t})
  }

  /** The directory walk of a lookup passes its callback no file info when the file's status cannot be read,
      which after the listing is so whenever the file is gone. The callback dereferences it, and nothing recovers. */
  predicate Panics(s: State, e: Event) {
    && e.Step? && e.t in s.threads && s.threads[e.t].pc.UnstageLoad? && e.pick in s.threads[e.t].pc.pending
    && (e.io != Done || e.pick !in s.lists)
  }

  /** The driver dies, and its calls and locks with it; files and mounts stay. */
  function Crashed(s: State): State {
    s.(threads := map[], locks := {})
  }

  function Next(site: Site, s: State, e: Event): State {
    match e
    case BeginStage(t, v) =>
      if t in s.threads || !ValidContext(site.source(v)) then s
      else s.(threads := s.threads[t := Thread(v, StageAcquire)], gone := s.gone - {v})
    case BeginUnstage(t, v) =>
      if t in s.threads then s
      else s.(threads := s.threads[t := Thread(v, UnstageList)], owned := s.owned - {v}, live := s.live - {v})
    case Step(t, io, pick) =>
      if t !in s.threads then s
      else if Panics(s, e) then Crashed(s)
      else if s.threads[t].pc.IsUnstage() then UnstageStep(s, t, io, pick)
      else StageStep(site, s, t, io)
    case Restart => Crashed(s)
    case Reboot => Crashed(s).(mounts := map[], live := {})
  }

  function StageStep(site: Site, s: State, t: nat, io: Io): State
    requires t in s.threads && !s.threads[t].pc.IsUnstage()
  {
    var v := s.threads[t].volume;
    var k := site.key(v);
    match s.threads[t].pc
    case StageAcquire =>
      if k in s.locks then End(s, t) else Goto(s.(locks := s.locks + {k}), t, StageProbe)
    case StageProbe =>
      if io != Done || site.source(v).proto !in {NFS, LUSTRE} then Goto(s, t, StageReturn(false))
      else Goto(s, t, if k in s.mounts then StageRead(false) else StageMount)
    case StageMount =>
      if io != Done && io != Halfway then Goto(s, t, StageReturn(false))
      else
        Goto(s.(mounts := s.mounts[k := site.source(v)]), t, if io == Done then StageRead(true) else StageReturn(false))
    case StageRead(mountedIt) =>
      if io != Done then Goto(s, t, StageReturn(false))
      else if k !in s.lists then Goto(s.(lists := s.lists[k := []]), t, StageWrite(mountedIt, []))
      else if v in s.lists[k] then Goto(s, t, StageReturn(true))
      else Goto(s, t, StageWrite(mountedIt, s.lists[k]))
    case StageWrite(_, list) =>
      if io != Done then Goto(s, t, StageReturn(false))
      else Goto(s.(lists := s.lists[k := list + [v]]), t, StageReturn(true))
    case StageReturn(ok) =>
      var s' := End(s.(locks := s.locks - {k}), t);
      if ok then s'.(owned := s'.owned + {v}, live := s'.live + {v}) else s'
  }

  function UnstageStep(s: State, t: nat, io: Io, pick: Key): State
    requires t in s.threads && s.threads[t].pc.IsUnstage()
  {
    var v := s.threads[t].volume;
    match s.threads[t].pc
    case UnstageList =>
      if io != Done && io != Halfway then End(s, t)
      else Goto(s, t, UnstageLoad(if io == Done then s.lists.Keys else {}, map[]))
    case UnstageLoad(pending, loaded) =>
      if pending != {} then
        if pick !in pending then s else Goto(s, t, UnstageOpen(pick, pending, loaded))
      else if forall k :: k in loaded ==> v !in loaded[k] then Goto(s, t, UnstageSkip)
      else if pick in loaded && v in loaded[pick] then Goto(s, t, UnstageAcquire(pick))
      else s
    case UnstageOpen(file, pending, loaded) =>
      if io != Done || file !in s.lists then End(s, t)
      else Goto(s, t, UnstageLoad(pending - {file}, loaded[file := s.lists[file]]))
    case UnstageSkip => End(s, t).(gone := s.gone + {v})
    case UnstageAcquire(k) =>
      if k in s.locks then End(s, t) else Goto(s.(locks := s.locks + {k}), t, UnstageRead(k))
    case UnstageRead(k) =>
      if io != Done then Goto(s, t, UnstageReturn(k, false))
      else if k !in s.lists then Goto(s.(lists := s.lists[k := []]), t, UnstageWrite(k, []))
      else if |s.lists[k]| == 1 then
        if s.lists[k][0] == v then Goto(s, t, UnstageUnmount(k)) else Goto(s, t, UnstageReturn(k, true))
      else Goto(s, t, UnstageWrite(k, s.lists[k]))
    case UnstageWrite(k, list) =>
      if io != Done then Goto(s, t, UnstageReturn(k, false))
      else Goto(s.(lists := s.lists[k := Removed(list, v)]), t, UnstageReturn(k, true))
    case UnstageUnmount(k) =>
      if io == Failed then Goto(s, t, UnstageReturn(k, false))
      else if io == Skipped then Goto(s, t, UnstageForget(k))
      else Goto(s.(mounts := s.mounts - {k}), t, if io == Done then UnstageForget(k) else UnstageReturn(k, false))
    case UnstageForget(k) =>
      if io != Done then Goto(s, t, UnstageReturn(k, false))
      else Goto(s.(lists := s.lists - {k}), t, UnstageReturn(k, true))
    case UnstageReturn(k, ok) =>
      End(s.(locks := s.locks - {k}), t).(gone := if ok then s.gone + {v} else s.gone)
  }

  function Run(site: Site, s: State, events: seq<Event>): State
    decreases |events|
  {
    if events == [] then s else Run(site, Next(site, s, events[0]), events[1..])
  }

  // ----- What holds in every run

  /** Every step before the lock holds nothing; every step after it holds the key of its own volume. */
  predicate Holds(th: Thread) {
    match th.pc
    case StageAcquire | UnstageList | UnstageLoad(_, _) | UnstageOpen(_, _, _) | UnstageSkip | UnstageAcquire(_) =>
      false
    case _ => true
  }

  ghost predicate HeldBy(site: Site, s: State, k: Key, t: nat) {
    t in s.threads && Holds(s.threads[t]) && site.key(s.threads[t].volume) == k
  }

  predicate Listed(site: Site, s: State, v: Volume) {
    site.key(v) in s.lists && v in s.lists[site.key(v)]
  }

  predicate NonEmpty(s: State, k: Key) {
    k in s.lists && s.lists[k] != []
  }

  /** The lock set is exactly the keys that calls hold, each held by one call. */
  ghost predicate LocksOk(site: Site, s: State) {
    && (forall t, t' :: t in s.threads && t' in s.threads && t != t' && Holds(s.threads[t]) && Holds(s.threads[t'])
                        ==> site.key(s.threads[t].volume) != site.key(s.threads[t'].volume))
    && (forall t :: t in s.threads && Holds(s.threads[t]) ==> site.key(s.threads[t].volume) in s.locks)
    && (forall k :: k in s.locks ==> exists t :: HeldBy(site, s, k, t))
  }

  ghost predicate KeyedLists(site: Site, lists: map<Key, seq<Volume>>) {
    forall k, v :: k in lists && v in lists[k] ==> site.key(v) == k
  }

  /** Some volume with a valid context has this key and this source. */
  ghost predicate Asked(site: Site, k: Key, o: Options) {
    ValidContext(o) && exists v :: site.key(v) == k && site.source(v) == o
  }

  ghost predicate StoreOk(site: Site, s: State) {
    && KeyedLists(site, s.lists)
    && (forall k :: k in s.lists ==> NoDuplicates(s.lists[k]))
    && (forall k :: k in s.mounts ==> Asked(site, k, s.mounts[k]))
  }

  /** What a call may rely on between its steps. */
  ghost predicate ThreadOk(site: Site, s: State, th: Thread) {
    var k := site.key(th.volume);
    (!th.pc.IsUnstage() ==> ValidContext(site.source(th.volume))) &&
    match th.pc
    case StageAcquire | StageProbe | UnstageList | UnstageSkip => true
    case StageMount => k !in s.mounts
    case StageRead(_) => k in s.mounts
    case StageWrite(_, list) => k in s.mounts && k in s.lists && s.lists[k] == list && th.volume !in list
    case StageReturn(ok) => ok ==> k in s.mounts && Listed(site, s, th.volume)
    case UnstageLoad(_, loaded) => KeyedLists(site, loaded)
    case UnstageOpen(_, _, loaded) => KeyedLists(site, loaded)
    case UnstageAcquire(key) => key == k
    case UnstageRead(key) => key == k
    case UnstageWrite(key, list) => key == k && k in s.lists && s.lists[k] == list && |list| != 1
    case UnstageUnmount(key) => key == k && k in s.lists && s.lists[k] == [th.volume]
    case UnstageForget(key) => key == k && k in s.lists && s.lists[k] == [th.volume]
    case UnstageReturn(key, ok) => key == k && (ok ==> !Listed(site, s, th.volume))
  }

  ghost predicate Inv(site: Site, s: State) {
    && LocksOk(site, s)
    && StoreOk(site, s)
    && forall t :: t in s.threads ==> ThreadOk(site, s, s.threads[t])
  }

  /** A step of a call that holds its key leaves everything stored under other keys, and hence what other
      calls rely on, as it was. */
  ghost predicate SameElsewhere(s: State, s': State, k: Key) {
    forall k' :: k' != k ==>
      && (k' in s.mounts <==> k' in s'.mounts)
      && (k' in s.mounts ==> s'.mounts[k'] == s.mounts[k'])
      && (k' in s.lists <==> k' in s'.lists)
      && (k' in s.lists ==> s'.lists[k'] == s.lists[k'])
  }

  /** What one step of call `t` may change: the keyed state only under a key it holds. */
  ghost predicate StoreStep(site: Site, s: State, s': State, t: nat)
    requires t in s.threads
  {
    || (Holds(s.threads[t]) && SameElsewhere(s, s', site.key(s.threads[t].volume)))
    || (s'.mounts == s.mounts && s'.lists == s.lists)
  }

  /** And the lock set: it takes or gives back its own key, or returns without having had it. */
  ghost predicate LockStep(site: Site, s: State, s': State, t: nat)
    requires t in s.threads
  {
    var th := s.threads[t];
    var k := site.key(th.volume);
    || (s'.threads == s.threads && s'.locks == s.locks)
    || (s'.threads == s.threads - {t} && s'.locks == if Holds(th) then s.locks - {k} else s.locks)
    || (t in s'.threads && s'.threads == s.threads[t := s'.threads[t]] && s'.threads[t].volume == th.volume &&
        if Holds(s'.threads[t]) == Holds(th) then s'.locks == s.locks
        else Holds(s'.threads[t]) && k !in s.locks && s'.locks == s.locks + {k})
  }

  lemma StageStepStore(site: Site, s: State, t: nat, io: Io)
    requires t in s.threads && !s.threads[t].pc.IsUnstage()
    ensures StoreStep(site, s, StageStep(site, s, t, io), t)
  {
  }

  lemma StageStepLocks(site: Site, s: State, t: nat, io: Io)
    requires t in s.threads && !s.threads[t].pc.IsUnstage()
    ensures LockStep(site, s, StageStep(site, s, t, io), t)
  {
  }

  lemma UnstageStepStore(site: Site, s: State, t: nat, io: Io, pick: Key)
    requires t in s.threads && s.threads[t].pc.IsUnstage() && ThreadOk(site, s, s.threads[t])
    ensures StoreStep(site, s, UnstageStep(s, t, io, pick), t)
  {
  }

  lemma LookupStepLocks(site: Site, s: State, t: nat, io: Io, pick: Key)
    requires t in s.threads && s.threads[t].pc.IsUnstage() && !Holds(s.threads[t])
    requires !s.threads[t].pc.UnstageAcquire?
    ensures LockStep(site, s, UnstageStep(s, t, io, pick), t)
  {
  }

  lemma AcquireStepLocks(site: Site, s: State, t: nat, io: Io, pick: Key)
    requires t in s.threads && s.threads[t].pc.UnstageAcquire? && ThreadOk(site, s, s.threads[t])
    ensures LockStep(site, s, UnstageStep(s, t, io, pick), t)
  {
  }

  lemma LockedStepLocks(site: Site, s: State, t: nat, io: Io, pick: Key)
    requires t in s.threads && s.threads[t].pc.IsUnstage() && Holds(s.threads[t])
    requires ThreadOk(site, s, s.threads[t])
    ensures LockStep(site, s, UnstageStep(s, t, io, pick), t)
  {
  }

  lemma UnstageStepLocks(site: Site, s: State, t: nat, io: Io, pick: Key)
    requires t in s.threads && s.threads[t].pc.IsUnstage() && ThreadOk(site, s, s.threads[t])
    ensures LockStep(site, s, UnstageStep(s, t, io, pick), t)
  {
    if Holds(s.threads[t]) {
      LockedStepLocks(site, s, t, io, pick);
    } else if s.threads[t].pc.UnstageAcquire? {
      AcquireStepLocks(site, s, t, io, pick);
    } else {
      LookupStepLocks(site, s, t, io, pick);
    }
  }

  lemma OthersUntouched(site: Site, s: State, s': State, t: nat)
    requires Inv(site, s) && t in s.threads
    requires StoreStep(site, s, s', t)
    ensures forall t' :: t' in s.threads && t' != t ==> ThreadOk(site, s', s.threads[t'])
  {
    forall t' | t' in s.threads && t' != t ensures ThreadOk(site, s', s.threads[t']) {
      assert ThreadOk(site, s, s.threads[t']);
    }
  }

  lemma LocksAfter(site: Site, s: State, s': State, t: nat)
    requires LocksOk(site, s) && t in s.threads
    requires LockStep(site, s, s', t)
    ensures LocksOk(site, s')
  {
    forall k | k in s'.locks ensures exists t' :: HeldBy(site, s', k, t') {
      if k in s.locks {
        var t' :| HeldBy(site, s, k, t');
        assert HeldBy(site, s', k, t');
      } else {
        assert HeldBy(site, s', k, t);
      }
    }
  }

  lemma StageKeepsStoreOk(site: Site, s: State, t: nat, io: Io)
    requires StoreOk(site, s) && t in s.threads && !s.threads[t].pc.IsUnstage()
    requires ThreadOk(site, s, s.threads[t])
    ensures StoreOk(site, StageStep(site, s, t, io))
  {
    var v := s.threads[t].volume;
    assert Asked(site, site.key(v), site.source(v));
  }

  lemma StageKeepsThreadOk(site: Site, s: State, t: nat, io: Io)
    requires t in s.threads && !s.threads[t].pc.IsUnstage() && ThreadOk(site, s, s.threads[t])
    ensures var s' := StageStep(site, s, t, io); t in s'.threads ==> ThreadOk(site, s', s'.threads[t])
  {
  }

  lemma UnstageKeepsStoreOk(site: Site, s: State, t: nat, io: Io, pick: Key)
    requires StoreOk(site, s) && t in s.threads && s.threads[t].pc.IsUnstage()
    requires ThreadOk(site, s, s.threads[t])
    ensures StoreOk(site, UnstageStep(s, t, io, pick))
  {
    var th := s.threads[t];
    if th.pc.UnstageWrite? {
      RemovedMembers(th.pc.list, th.volume);
    }
  }

  lemma LookupKeepsThreadOk(site: Site, s: State, t: nat, io: Io, pick: Key)
    requires StoreOk(site, s) && t in s.threads && s.threads[t].pc.IsUnstage() && !Holds(s.threads[t])
    requires ThreadOk(site, s, s.threads[t])
    ensures var s' := UnstageStep(s, t, io, pick); t in s'.threads ==> ThreadOk(site, s', s'.threads[t])
  {
    var s' := UnstageStep(s, t, io, pick);
    if t in s'.threads && s'.threads[t].pc.UnstageLoad? {
      assert KeyedLists(site, s'.threads[t].pc.loaded);
    }
  }

  lemma UnstageKeepsThreadOk(site: Site, s: State, t: nat, io: Io, pick: Key)
    requires StoreOk(site, s) && t in s.threads && s.threads[t].pc.IsUnstage() && Holds(s.threads[t])
    requires ThreadOk(site, s, s.threads[t])
    ensures var s' := UnstageStep(s, t, io, pick); t in s'.threads ==> ThreadOk(site, s', s'.threads[t])
  {
    var s' := UnstageStep(s, t, io, pick);
    var th := s.threads[t];
    match th.pc
    case UnstageWrite(k, list) =>
      RemovedMembers(list, th.volume);
    case UnstageRead(k) =>
      if k in s.lists && |s.lists[k]| == 1 {
        assert s.lists[k] == [s.lists[k][0]];
      }
    case _ =>
  }

  lemma StepInv(site: Site, s: State, s': State, t: nat)
    requires Inv(site, s) && t in s.threads
    requires StoreStep(site, s, s', t) && LockStep(site, s, s', t)
    requires StoreOk(site, s') && (t in s'.threads ==> ThreadOk(site, s', s'.threads[t]))
    ensures Inv(site, s')
  {
    OthersUntouched(site, s, s', t);
    LocksAfter(site, s, s', t);
  }

  lemma BeginInv(site: Site, s: State, s': State, t: nat, th: Thread)
    requires Inv(site, s) && t !in s.threads && !Holds(th) && ThreadOk(site, s, th)
    requires s' == s.(threads := s.threads[t := th], owned := s'.owned, live := s'.live, gone := s'.gone)
    ensures Inv(site, s')
  {
    forall k | k in s'.locks ensures exists t' :: HeldBy(site, s', k, t') {
      var t' :| HeldBy(site, s, k, t');
      assert HeldBy(site, s', k, t');
    }
    forall t' | t' in s'.threads ensures ThreadOk(site, s', s'.threads[t']) {
      assert t' in s.threads ==> ThreadOk(site, s, s.threads[t']);
    }
  }

  lemma NextInv(site: Site, s: State, e: Event)
    requires Inv(site, s)
    ensures Inv(site, Next(site, s, e))
  {
    var s' := Next(site, s, e);
    match e
    case BeginStage(t, v) =>
      if s' != s {
        BeginInv(site, s, s', t, Thread(v, StageAcquire));
      }
    case BeginUnstage(t, v) =>
      if t !in s.threads {
        BeginInv(site, s, s', t, Thread(v, UnstageList));
      }
    case Step(t, io, pick) =>
      if t in s.threads && !Panics(s, e) {
        if s.threads[t].pc.IsUnstage() {
          UnstageStepStore(site, s, t, io, pick);
          UnstageStepLocks(site, s, t, io, pick);
          UnstageKeepsStoreOk(site, s, t, io, pick);
          if Holds(s.threads[t]) {
            UnstageKeepsThreadOk(site, s, t, io, pick);
          } else {
            LookupKeepsThreadOk(site, s, t, io, pick);
          }
        } else {
          StageStepStore(site, s, t, io);
          StageStepLocks(site, s, t, io);
          StageKeepsStoreOk(site, s, t, io);
          StageKeepsThreadOk(site, s, t, io);
        }
        StepInv(site, s, s', t);
      }
    case Restart =>
    case Reboot =>
  }

  lemma {:induction false} RunInv(site: Site, s: State, events: seq<Event>)
    requires Inv(site, s)
    ensures Inv(site, Run(site, s, events))
    decreases |events|
  {
    if events != [] {
      NextInv(site, s, events[0]);
      RunInv(site, Next(site, s, events[0]), events[1..]);
    }
  }
}
