/** The CFS Turbo node service as the driver runs one call: the list files, the lock set and the mount
    table are changed in place. Each call is proved to be a run of the step-by-step model. */
module GlobalMountServer {
  import opened GlobalMount
  import opened GlobalMountRuns

  /** What is stored on the node: the lock set, the mount table and the list files. */
  datatype Node = Node(locks: set<Key>, mounts: map<Key, Options>, lists: map<Key, seq<Volume>>)

  function NodeOf(s: State): Node {
    Node(s.locks, s.mounts, s.lists)
  }

  /** The environment's answers to the operations of one call, in the order the call makes them. A lookup is
      answered Halfway when the list directory is there but cannot be read. */
  datatype StageIo = StageIo(probe: bool, mount: Io, read: bool, write: bool)
  datatype UnstageIo = UnstageIo(lookup: Io, read: bool, write: bool, unmount: Io, forget: bool)

  const STAGED := StageIo(true, Done, true, true)
  const UNSTAGED := UnstageIo(Done, true, true, Done, true)

  function ListAt(n: Node, k: Key): seq<Volume> {
    if k in n.lists then n.lists[k] else []
  }

  function AddCall(n: Node, k: Key, v: Volume, io: StageIo): (r: (Node, bool)) {
    if !io.read then (n, false)
    else
      var list := ListAt(n, k);
      var n' := n.(lists := n.lists[k := list]);
      if v in list then (n', true)
      else if !io.write then (n', false)
      else (n'.(lists := n'.lists[k := list + [v]]), true)
  }

  function MountCall(n: Node, k: Key, v: Volume, o: Options, io: StageIo): (r: (Node, bool)) {
    if io.mount != Done && io.mount != Halfway then (n, false)
    else
      var n' := n.(mounts := n.mounts[k := o]);
      if io.mount == Done then AddCall(n', k, v, io) else (n', false)
  }

  /** What a stage does once it has the lock. */
  function LockedStage(site: Site, n: Node, v: Volume, io: StageIo): (r: (Node, bool)) {
    var k := site.key(v);
    var o := site.source(v);
    if !io.probe || o.proto !in {NFS, LUSTRE} then (n, false)
    else if k in n.mounts then AddCall(n, k, v, io)
    else MountCall(n, k, v, o, io)
  }

  /** A whole NodeStageVolume call, made while no other call takes a step. */
  function StageCall(site: Site, n: Node, v: Volume, io: StageIo): (r: (Node, bool)) {
    if !ValidContext(site.source(v)) || site.key(v) in n.locks then (n, false) else LockedStage(site, n, v, io)
  }

  predicate ListedNowhere(n: Node, v: Volume) {
    forall k :: k in n.lists ==> v !in n.lists[k]
  }

  /** A whole NodeUnstageVolume call; `k` is the key that its lookup found, if any list has the volume. */
  function UnstageCall(n: Node, v: Volume, k: Key, io: UnstageIo): (r: (Node, bool)) {
    if io.lookup != Done && io.lookup != Halfway then (n, false)
    else if io.lookup == Halfway || ListedNowhere(n, v) then (n, true)
    else if k in n.locks || k !in n.lists then (n, false)
    else LockedUnstage(n, v, k, io)
  }

  function CleanedUp(n: Node, k: Key, io: Io): (r: Node) {
    if io == Done || io == Halfway then n.(mounts := n.mounts - {k}) else n
  }

  function WithList(n: Node, k: Key): (r: Node) {
    if k in n.lists then n else n.(lists := n.lists[k := []])
  }

  /** What an unstage does once it has the lock; the list may have been deleted since the lookup found it. */
  function LockedUnstage(n: Node, v: Volume, k: Key, io: UnstageIo): (r: (Node, bool)) {
    if !io.read then (n, false)
    else
      var n0 := WithList(n, k);
      if n0.lists[k] == [v] then
        var n' := CleanedUp(n0, k, io.unmount);
        if io.unmount != Done && io.unmount != Skipped then (n', false)
        else if !io.forget then (n', false)
        else (n'.(lists := n'.lists - {k}), true)
      else if |n0.lists[k]| == 1 then (n0, true)
      else if !io.write then (n0, false)
      else (n0.(lists := n0.lists[k := Removed(n0.lists[k], v)]), true)
  }

  // ----- The driver's own code

  lemma {:induction false} RemovedAt(list: seq<Volume>, v: Volume, n: nat)
    requires n < |list| && list[n] == v && v !in list[..n]
    ensures Removed(list, v) == list[..n] + list[n + 1..]
  {
    if n > 0 {
      assert list[0] == list[..n][0];
      assert list[1..][..n - 1] == list[..n][1..];
      RemovedAt(list[1..], v, n - 1);
      assert list[1..][n..] == list[n + 1..];
      assert list[..n] == [list[0]] + list[1..][..n - 1];
    }
  }

  lemma {:induction false} RemovedAbsent(list: seq<Volume>, v: Volume)
    requires v !in list
    ensures Removed(list, v) == list
  {
    if list != [] {
      RemovedAbsent(list[1..], v);
      assert list == [list[0]] + list[1..];
    }
  }

  datatype KeyFound = Found(key: Key) | NoKey | LookupFailed

  class NodeServer {
    var locks: set<Key>
    var mounts: map<Key, Options>
    var lists: map<Key, seq<Volume>>

    constructor ()
      ensures Now() == NodeOf(INIT)
    {
      locks, mounts, lists := {}, map[], map[];
    }

    ghost function Now(): Node
      reads this
    {
      Node(locks, mounts, lists)
    }

    method TryAcquire(k: Key) returns (acquired: bool)
      modifies this`locks
      ensures acquired == (k !in old(locks))
      ensures locks == old(locks) + {k}
    {
      if k in locks {
        return false;
      }
      locks := locks + {k};
      return true;
    }

    method Release(k: Key)
      modifies this`locks
      ensures locks == old(locks) - {k}
    {
      locks := locks - {k};
    }

    /** Reads a key's list, creating an empty one first when there is none. */
    method GetList(k: Key, io: bool) returns (ok: bool, list: seq<Volume>)
      modifies this`lists
      ensures ok == io && (ok ==> list == ListAt(old(Now()), k))
      ensures lists == if ok then old(lists)[k := list] else old(lists)
    {
      if !io {
        return false, [];
      }
      if k !in lists {
        lists := lists[k := []];
      }
      return true, lists[k];
    }

    method AddVolumeId(k: Key, v: Volume, io: StageIo) returns (ok: bool)
      modifies this`lists
      ensures (Now(), ok) == AddCall(old(Now()), k, v, io)
    {
      var list;
      ok, list := GetList(k, io.read);
      if !ok {
        return;
      }
      var present := Member(v, list);
      if present {
        return true;
      }
      if !io.write {
        return false;
      }
      lists := lists[k := list + [v]];
      return true;
    }

    /** A mount command may fail after it has mounted. */
    method Mount(k: Key, o: Options, io: Io) returns (ok: bool)
      modifies this`mounts
      ensures ok == (io == Done)
      ensures mounts == if io == Done || io == Halfway then old(mounts)[k := o] else old(mounts)
    {
      if io == Done || io == Halfway {
        mounts := mounts[k := o];
      }
      return io == Done;
    }

    /** `CleanupMountPoint` of the mount library. */
    method CleanUp(k: Key, io: Io) returns (ok: bool)
      modifies this`mounts
      ensures ok == (io == Done || io == Skipped)
      ensures mounts == if io == Done || io == Halfway then old(mounts) - {k} else old(mounts)
    {
      if io == Done || io == Halfway {
        mounts := mounts - {k};
      }
      return io == Done || io == Skipped;
    }

    method NodeStageVolume(ghost site: Site, v: Volume, k: Key, o: Options, io: StageIo) returns (ok: bool)
      requires k == site.key(v) && o == site.source(v)
      modifies this
      ensures (Now(), ok) == StageCall(site, old(Now()), v, io)
    {
      if !ValidContext(o) {
        return false;
      }
      var acquired := TryAcquire(k);
      if !acquired {
        assert locks == old(locks);
        return false;
      }
      ok := io.probe && o.proto in {NFS, LUSTRE};
      if ok && k !in mounts {
        ok := Mount(k, o, io.mount);
      }
      if ok {
        ok := AddVolumeId(k, v, io);
      }
      Release(k);
      assert locks == old(locks);
    }

    /** Reads every list file, in no particular order; from an unreadable directory, without an error, none. */
    method LoadLists(readable: bool) returns (loaded: map<Key, seq<Volume>>)
      ensures loaded == if readable then lists else map[]
    {
      loaded := map[];
      if !readable {
        return;
      }
      var pending := lists.Keys;
      while pending != {}
        invariant pending <= lists.Keys && loaded.Keys == lists.Keys - pending
        invariant forall k :: k in loaded ==> loaded[k] == lists[k]
        decreases |pending|
      {
        var file :| file in pending;
        loaded, pending := loaded[file := lists[file]], pending - {file};
      }
    }

    static method Member(v: Volume, list: seq<Volume>) returns (found: bool)
      ensures found <==> v in list
    {
      for n := 0 to |list|
        invariant v !in list[..n]
      {
        if list[n] == v {
          return true;
        }
      }
      assert list[..|list|] == list;
      return false;
    }

    /** Searches the loaded lists, in no particular order. */
    method FindKey(v: Volume, io: Io) returns (r: KeyFound)
      ensures match r
              case LookupFailed => io != Done && io != Halfway
              case NoKey => io == Halfway || (io == Done && ListedNowhere(Now(), v))
              case Found(k) => io == Done && k in lists && v in lists[k]
    {
      if io != Done && io != Halfway {
        return LookupFailed;
      }
      var loaded := LoadLists(io == Done);
      var keys := loaded.Keys;
      while keys != {}
        invariant keys <= loaded.Keys
        invariant forall k :: k in loaded && k !in keys ==> v !in loaded[k]
        decreases |keys|
      {
        var k :| k in keys;
        var found := Member(v, loaded[k]);
        if found {
          return Found(k);
        }
        keys := keys - {k};
      }
      return NoKey;
    }

    /** Takes a volume off its list, unless it is the last one: then the caller has to unmount first. */
    method DeleteVolumeId(v: Volume, k: Key, read: bool, write: bool) returns (ok: bool, needUnmount: bool)
      modifies this`lists
      ensures ok == (read && (|ListAt(old(Now()), k)| == 1 || write))
      ensures needUnmount <==> ok && ListAt(old(Now()), k) == [v]
      ensures lists == if !read then old(lists)
                       else if |ListAt(old(Now()), k)| == 1 || !write then old(lists)[k := ListAt(old(Now()), k)]
                       else old(lists)[k := Removed(ListAt(old(Now()), k), v)]
    {
      var list;
      ok, list := GetList(k, read);
      if !ok {
        return false, false;
      }
      if |list| == 1 {
        if list[0] == v {
          return true, true;
        }
        return true, false;
      }
      var kept := list;
      var found := false;
      for n := 0 to |list|
        invariant !found && v !in list[..n] && kept == list
      {
        if list[n] == v {
          RemovedAt(list, v, n);
          kept := list[..n] + list[n + 1..];
          found := true;
          break;
        }
      }
      if !found {
        assert list[..|list|] == list;
        RemovedAbsent(list, v);
      }
      if !write {
        return false, false;
      }
      lists := lists[k := kept];
      return true, false;
    }

    /** The part of an unstage that holds the lock. */
    method DropVolume(v: Volume, key: Key, io: UnstageIo) returns (ok: bool)
      modifies this`lists, this`mounts
      ensures (Now(), ok) == LockedUnstage(old(Now()), v, key, io)
    {
      ghost var list := ListAt(Now(), key);
      assert key in lists ==> lists[key := list] == lists;
      assert lists[key := list][key := Removed(list, v)] == lists[key := Removed(list, v)];
      var needUnmount;
      ok, needUnmount := DeleteVolumeId(v, key, io.read, io.write);
      if needUnmount {
        ok := CleanUp(key, io.unmount);
        ok := ok && io.forget;
        if ok {
          lists := lists - {key};
        }
      }
    }

    method NodeUnstageVolume(v: Volume, io: UnstageIo) returns (ok: bool, ghost k: Key)
      modifies this
      ensures (Now(), ok) == UnstageCall(old(Now()), v, k, io)
      ensures ListedNowhere(old(Now()), v) || io.lookup != Done || (k in old(lists) && v in old(lists)[k])
    {
      var found := FindKey(v, io.lookup);
      if found.LookupFailed? {
        return false, "";
      }
      if found.NoKey? {
        return true, "";
      }
      var key := found.key;
      k := key;
      var acquired := TryAcquire(key);
      if !acquired {
        assert locks == old(locks);
        return false, k;
      }
      ok := DropVolume(v, key, io);
      Release(key);
      assert locks == old(locks);
    }
  }

  // ----- Each call is a run of the step-by-step model

  lemma {:induction false} RunSnoc(site: Site, s: State, events: seq<Event>, e: Event)
    ensures Run(site, s, events + [e]) == Next(site, Run(site, s, events), e)
    decreases |events|
  {
    if events == [] {
      assert events + [e] == [e];
      assert Run(site, s, [e]) == Run(site, Next(site, s, e), [e][1..]);
    } else {
      assert (events + [e])[1..] == events[1..] + [e];
      RunSnoc(site, Next(site, s, events[0]), events[1..], e);
    }
  }

  /** One call in flight per volume, no operation that fails, no restart. */
  predicate Calm(s: State, e: Event) {
    Orderly(s, e) && !Fails(s, e) && !e.Restart?
  }

  ghost predicate Smooth(site: Site, s: State, events: seq<Event>)
    decreases |events|
  {
    events != [] ==> Calm(s, events[0]) && Smooth(site, Next(site, s, events[0]), events[1..])
  }

  lemma {:induction false} SmoothMeans(site: Site, s: State, events: seq<Event>)
    requires Smooth(site, s, events)
    ensures OneInFlight(site, s, events) && Never(site, s, events, Fails)
    decreases |events|
  {
    if events != [] {
      SmoothMeans(site, Next(site, s, events[0]), events[1..]);
    }
  }

  lemma {:induction false} SmoothSnoc(site: Site, s: State, events: seq<Event>, e: Event)
    requires Smooth(site, s, events) && Calm(Run(site, s, events), e)
    ensures Smooth(site, s, events + [e])
    decreases |events|
  {
    if events == [] {
      assert (events + [e])[1..] == [];
    } else {
      assert (events + [e])[1..] == events[1..] + [e];
      SmoothSnoc(site, Next(site, s, events[0]), events[1..], e);
    }
  }

  /** One run after another. */
  lemma {:induction false} RunThen(site: Site, s: State, first: seq<Event>, second: seq<Event>)
    ensures Run(site, s, first + second) == Run(site, Run(site, s, first), second)
    ensures Smooth(site, s, first) && Smooth(site, Run(site, s, first), second) ==> Smooth(site, s, first + second)
    decreases |first|
  {
    if first == [] {
      assert first + second == second;
    } else {
      assert (first + second)[1..] == first[1..] + second;
      RunThen(site, Next(site, s, first[0]), first[1..], second);
    }
  }

  /** One more event at the end of a run. */
  lemma Then(site: Site, s: State, events: seq<Event>, now: State, e: Event) returns (events': seq<Event>, now': State)
    requires Run(site, s, events) == now
    ensures now' == Next(site, now, e) && Run(site, s, events') == now'
    ensures Smooth(site, s, events) && Calm(now, e) ==> Smooth(site, s, events')
  {
    if Smooth(site, s, events) && Calm(now, e) {
      SmoothSnoc(site, s, events, e);
    }
    RunSnoc(site, s, events, e);
    events', now' := events + [e], Next(site, now, e);
  }

  /** Storing an answer that is no success. */
  function Answer(ok: bool): Io {
    if ok then Done else Failed
  }

  function With(s: State, n: Node): State {
    s.(locks := n.locks, mounts := n.mounts, lists := n.lists)
  }

  /** State `s` with call `t` for volume `v` at `pc` and the node's store replaced. */
  function At(s: State, n: Node, t: nat, v: Volume, pc: Pc): State {
    With(s, n).(threads := s.threads[t := Thread(v, pc)])
  }

  lemma GotoAt(b: State, n: Node, t: nat, v: Volume, pc: Pc, n': Node, pc': Pc)
    ensures Goto(With(At(b, n, t, v, pc), n'), t, pc') == At(b, n', t, v, pc')
  {
    assert b.threads[t := Thread(v, pc)][t := Thread(v, pc')] == b.threads[t := Thread(v, pc')];
  }

  lemma ThenStage(site: Site, s: State, es: seq<Event>, b: State, n: Node, t: nat, v: Volume, pc: Pc, io: Io,
                  n': Node, pc': Pc) returns (es': seq<Event>)
    requires Run(site, s, es) == At(b, n, t, v, pc) && !pc.IsUnstage()
    requires StageStep(site, At(b, n, t, v, pc), t, io) == Goto(With(At(b, n, t, v, pc), n'), t, pc')
    ensures Run(site, s, es') == At(b, n', t, v, pc')
    ensures Smooth(site, s, es) && io == Done ==> Smooth(site, s, es')
  {
    var now;
    GotoAt(b, n, t, v, pc, n', pc');
    es', now := Then(site, s, es, At(b, n, t, v, pc), Step(t, io, ""));
  }

  lemma ThenReturn(site: Site, s: State, es: seq<Event>, b: State, n: Node, t: nat, v: Volume, ok: bool)
    returns (es': seq<Event>)
    requires t !in b.threads && Run(site, s, es) == At(b, n, t, v, StageReturn(ok))
    ensures Run(site, s, es') ==
            b.(locks := n.locks - {site.key(v)}, mounts := n.mounts, lists := n.lists,
               owned := if ok then b.owned + {v} else b.owned, live := if ok then b.live + {v} else b.live)
    ensures Smooth(site, s, es) ==> Smooth(site, s, es')
  {
    var now;
    es', now := Then(site, s, es, At(b, n, t, v, StageReturn(ok)), Step(t, Done, ""));
    assert b.threads[t := Thread(v, StageReturn(ok))] - {t} == b.threads;
  }

  /** A stage whose volume is not listed yet reads the list, and there is one from then on. */
  lemma ReadIsARun(site: Site, s: State, es0: seq<Event>, b: State, n: Node, t: nat, v: Volume, mine: bool)
    returns (es: seq<Event>)
    requires t !in b.threads && Run(site, s, es0) == At(b, n, t, v, StageRead(mine))
    requires v !in ListAt(n, site.key(v))
    ensures var list := ListAt(n, site.key(v));
            Run(site, s, es) == At(b, n.(lists := n.lists[site.key(v) := list]), t, v, StageWrite(mine, list))
    ensures Smooth(site, s, es0) ==> Smooth(site, s, es)
  {
    var k := site.key(v);
    var list := ListAt(n, k);
    assert k in n.lists ==> n.lists[k := list] == n.lists;
    es := ThenStage(site, s, es0, b, n, t, v, StageRead(mine), Done, n.(lists := n.lists[k := list]),
                    StageWrite(mine, list));
  }

  /** And writes it back with the volume. */
  lemma AppendIsARun(site: Site, s: State, es0: seq<Event>, b: State, n: Node, t: nat, v: Volume, mine: bool,
                     write: bool) returns (es: seq<Event>)
    requires t !in b.threads && Run(site, s, es0) == At(b, n, t, v, StageRead(mine))
    requires v !in ListAt(n, site.key(v))
    ensures var list := ListAt(n, site.key(v));
            var n1 := n.(lists := n.lists[site.key(v) := list]);
            var n2 := if write then n1.(lists := n1.lists[site.key(v) := list + [v]]) else n1;
            Run(site, s, es) == At(b, n2, t, v, StageReturn(write))
    ensures Smooth(site, s, es0) && write ==> Smooth(site, s, es)
  {
    var list := ListAt(n, site.key(v));
    var n1 := n.(lists := n.lists[site.key(v) := list]);
    var n2 := if write then n1.(lists := n1.lists[site.key(v) := list + [v]]) else n1;
    es := ReadIsARun(site, s, es0, b, n, t, v, mine);
    es := ThenStage(site, s, es, b, n1, t, v, StageWrite(mine, list), Answer(write), n2, StageReturn(write));
  }

  lemma AddIsARun(site: Site, s: State, es0: seq<Event>, b: State, n: Node, t: nat, v: Volume, mine: bool, io: StageIo)
    returns (es: seq<Event>)
    requires t !in b.threads && Run(site, s, es0) == At(b, n, t, v, StageRead(mine))
    ensures var (n', ok) := AddCall(n, site.key(v), v, io);
            Run(site, s, es) == At(b, n', t, v, StageReturn(ok))
    ensures Smooth(site, s, es0) && io == STAGED ==> Smooth(site, s, es)
  {
    var k := site.key(v);
    if !io.read {
      es := ThenStage(site, s, es0, b, n, t, v, StageRead(mine), Failed, n, StageReturn(false));
    } else if v in ListAt(n, k) {
      assert n.(lists := n.lists[k := ListAt(n, k)]) == n;
      es := ThenStage(site, s, es0, b, n, t, v, StageRead(mine), Done, n, StageReturn(true));
    } else {
      es := AppendIsARun(site, s, es0, b, n, t, v, mine, io.write);
    }
  }

  lemma StartIsARun(site: Site, b: State, t: nat, v: Volume, e: Event, pc: Pc) returns (es: seq<Event>)
    requires Next(site, b, e) == b.(threads := b.threads[t := Thread(v, pc)], owned := Next(site, b, e).owned,
                                    live := Next(site, b, e).live, gone := Next(site, b, e).gone)
    ensures Run(site, b, es) == At(Next(site, b, e), NodeOf(b), t, v, pc)
    ensures Calm(b, e) ==> Smooth(site, b, es)
  {
    var now;
    es, now := Then(site, b, [], b, e);
    assert now.threads[t := Thread(v, pc)] == now.threads;
  }

  /** A stage that finds the key unmounted mounts it first. */
  lemma MountIsARun(site: Site, s: State, es0: seq<Event>, b: State, n: Node, t: nat, v: Volume, io: StageIo)
    returns (es: seq<Event>)
    requires t !in b.threads && Run(site, s, es0) == At(b, n, t, v, StageMount)
    ensures var k := site.key(v);
            var (n', ok) := MountCall(n, k, v, site.source(v), io);
            Run(site, s, es) == At(b, n', t, v, StageReturn(ok))
    ensures Smooth(site, s, es0) && io == STAGED ==> Smooth(site, s, es)
  {
    if io.mount != Done && io.mount != Halfway {
      es := ThenStage(site, s, es0, b, n, t, v, StageMount, Failed, n, StageReturn(false));
    } else if io.mount == Halfway {
      es := ThenStage(site, s, es0, b, n, t, v, StageMount, Halfway,
                      n.(mounts := n.mounts[site.key(v) := site.source(v)]), StageReturn(false));
    } else {
      var n1 := n.(mounts := n.mounts[site.key(v) := site.source(v)]);
      es := ThenStage(site, s, es0, b, n, t, v, StageMount, Done, n1, StageRead(true));
      es := AddIsARun(site, s, es, b, n1, t, v, true, io);
    }
  }

  lemma LockedStageIgnoresLocks(site: Site, n: Node, locks: set<Key>, v: Volume, io: StageIo)
    ensures var (n', ok) := LockedStage(site, n, v, io);
            LockedStage(site, n.(locks := locks), v, io) == (n'.(locks := locks), ok) && n'.locks == n.locks
  {
  }

  /** The part of a stage that holds the lock, up to its return. */
  lemma LockedStageIsARun(site: Site, s: State, es0: seq<Event>, b: State, n: Node, t: nat, v: Volume, io: StageIo)
    returns (es: seq<Event>)
    requires t !in b.threads && Run(site, s, es0) == At(b, n, t, v, StageProbe)
    ensures var (n', ok) := LockedStage(site, n, v, io); Run(site, s, es) == At(b, n', t, v, StageReturn(ok))
    ensures Smooth(site, s, es0) && io == STAGED ==> Smooth(site, s, es)
  {
    if !io.probe || site.source(v).proto !in {NFS, LUSTRE} {
      es := ThenStage(site, s, es0, b, n, t, v, StageProbe, Answer(io.probe), n, StageReturn(false));
    } else if site.key(v) in n.mounts {
      es := ThenStage(site, s, es0, b, n, t, v, StageProbe, Done, n, StageRead(false));
      es := AddIsARun(site, s, es, b, n, t, v, false, io);
    } else {
      es := ThenStage(site, s, es0, b, n, t, v, StageProbe, Done, n, StageMount);
      es := MountIsARun(site, s, es, b, n, t, v, io);
    }
  }

  /** What is on record once a stage has begun. */
  function Begun(s: State, v: Volume): State {
    s.(gone := s.gone - {v})
  }

  /** A stage that begins and takes its lock. */
  lemma AcquireIsARun(site: Site, s: State, t: nat, v: Volume) returns (es: seq<Event>)
    requires ValidContext(site.source(v)) && t !in s.threads && site.key(v) !in s.locks
    ensures Run(site, s, es) == At(Begun(s, v), Node(s.locks + {site.key(v)}, s.mounts, s.lists), t, v, StageProbe)
    ensures Idle(s, v) ==> Smooth(site, s, es)
  {
    es := StartIsARun(site, s, t, v, BeginStage(t, v), StageAcquire);
    es := ThenStage(site, s, es, Begun(s, v), NodeOf(s), t, v, StageAcquire, Done,
                    Node(s.locks + {site.key(v)}, s.mounts, s.lists), StageProbe);
  }

  /** What is on record once an unstage has returned. */
  function Unstaged(s: State, v: Volume, ok: bool): State {
    s.(gone := if ok then s.gone + {v} else s.gone)
  }

  /** A call that ends without having taken the lock; a stage then has failed. */
  lemma ThenEnd(site: Site, s: State, es: seq<Event>, b: State, n: Node, t: nat, v: Volume, pc: Pc, e: Event, ok: bool)
    returns (es': seq<Event>)
    requires t !in b.threads && Run(site, s, es) == At(b, n, t, v, pc)
    requires Next(site, At(b, n, t, v, pc), e) ==
             End(At(b, n, t, v, pc), t).(gone := if ok then b.gone + {v} else b.gone)
    ensures Run(site, s, es') == Unstaged(With(b, n), v, ok)
    ensures Smooth(site, s, es) && e.Step? && e.io == Done ==> Smooth(site, s, es')
  {
    var now;
    es', now := Then(site, s, es, At(b, n, t, v, pc), e);
    assert b.threads[t := Thread(v, pc)] - {t} == b.threads;
  }

  /** A stage call that runs alone is a run of the model, with the same effect on the node and, when it
      succeeds, the volume recorded as staged. */
  lemma StageCallIsARun(site: Site, s: State, t: nat, v: Volume, io: StageIo) returns (es: seq<Event>)
    requires t !in s.threads
    ensures var (n, ok) := StageCall(site, NodeOf(s), v, io);
            Run(site, s, es) == With(s, n).(owned := if ok then s.owned + {v} else s.owned,
                                            live := if ok then s.live + {v} else s.live,
                                            gone := if ValidContext(site.source(v)) then s.gone - {v} else s.gone)
    ensures Idle(s, v) && io == STAGED ==> Smooth(site, s, es)
  {
    var k := site.key(v);
    var n := NodeOf(s);
    if !ValidContext(site.source(v)) {
      return [];
    }
    if k in s.locks {
      es := StartIsARun(site, s, t, v, BeginStage(t, v), StageAcquire);
      es := ThenEnd(site, s, es, Begun(s, v), n, t, v, StageAcquire, Step(t, Done, ""), false);
      return;
    }
    var n1 := Node(s.locks + {k}, s.mounts, s.lists);
    es := AcquireIsARun(site, s, t, v);
    es := LockedStageIsARun(site, s, es, Begun(s, v), n1, t, v, io);
    LockedStageIgnoresLocks(site, n, n1.locks, v, io);
    var (n2, ok) := StageCall(site, n, v, io);
    es := ThenReturn(site, s, es, Begun(s, v), n2.(locks := n1.locks), t, v, ok);
    assert n1.locks - {k} == n2.locks;
  }

  /** A lookup reads one of the files it listed. */
  lemma ReadFile(site: Site, s: State, es0: seq<Event>, s0: State, t: nat, file: Key)
    returns (es: seq<Event>, s': State)
    requires Run(site, s, es0) == s0 && t in s0.threads && s0.threads[t].pc.UnstageLoad?
    requires file in s0.threads[t].pc.pending && file in s0.lists
    ensures var pc := s0.threads[t].pc;
            && Run(site, s, es) == s'
            && s' == Goto(s0, t, UnstageLoad(pc.pending - {file}, pc.loaded[file := s0.lists[file]]))
    ensures Smooth(site, s, es0) ==> Smooth(site, s, es)
  {
    var pc := s0.threads[t].pc;
    var s1;
    es, s1 := Then(site, s, es0, s0, Step(t, Done, file));
    assert s1 == Goto(s0, t, UnstageOpen(file, pc.pending, pc.loaded));
    es, s' := Then(site, s, es, s1, Step(t, Done, file));
  }

  /** The file-by-file lookup, alone, ends with every list loaded. */
  lemma {:induction false} LookupIsARun(site: Site, s: State, es0: seq<Event>, s0: State, t: nat)
    returns (es: seq<Event>, s': State)
    requires Run(site, s, es0) == s0 && t in s0.threads && s0.threads[t].pc.UnstageLoad?
    requires var pc := s0.threads[t].pc;
             && pc.pending <= s0.lists.Keys && pc.loaded.Keys == s0.lists.Keys - pc.pending
             && forall k :: k in pc.loaded ==> pc.loaded[k] == s0.lists[k]
    ensures Run(site, s, es) == s' && s' == Goto(s0, t, UnstageLoad({}, s0.lists))
    ensures Smooth(site, s, es0) ==> Smooth(site, s, es)
    decreases s0.threads[t].pc.pending
  {
    var pc := s0.threads[t].pc;
    if pc.pending == {} {
      assert pc.loaded == s0.lists;
      es, s' := es0, s0;
    } else {
      var file :| file in pc.pending;
      var s1;
      es, s1 := ReadFile(site, s, es0, s0, t, file);
      es, s' := LookupIsARun(site, s, es, s1, t);
      GotoGoto(s0, t, s1.threads[t].pc, UnstageLoad({}, s0.lists));
    }
  }

  lemma GotoGoto(s: State, t: nat, pc: Pc, pc': Pc)
    requires t in s.threads
    ensures Goto(Goto(s, t, pc), t, pc') == Goto(s, t, pc')
  {
  }

  lemma ThenUnstage(site: Site, s: State, es: seq<Event>, b: State, n: Node, t: nat, v: Volume, pc: Pc, io: Io,
                    n': Node, pc': Pc) returns (es': seq<Event>)
    requires Run(site, s, es) == At(b, n, t, v, pc) && pc.IsUnstage() && (pc.UnstageLoad? ==> pc.pending == {})
    requires UnstageStep(At(b, n, t, v, pc), t, io, "") == Goto(With(At(b, n, t, v, pc), n'), t, pc')
    ensures Run(site, s, es') == At(b, n', t, v, pc')
    ensures Smooth(site, s, es) && io == Done ==> Smooth(site, s, es')
  {
    var now;
    GotoAt(b, n, t, v, pc, n', pc');
    es', now := Then(site, s, es, At(b, n, t, v, pc), Step(t, io, ""));
  }

  lemma CleanUpIsARun(site: Site, s: State, es0: seq<Event>, b: State, n: Node, t: nat, v: Volume, k: Key, unmount: Io,
                      forget: bool) returns (es: seq<Event>)
    requires t !in b.threads && Run(site, s, es0) == At(b, n, t, v, UnstageUnmount(k))
    ensures var n1 := CleanedUp(n, k, unmount);
            var ok := (unmount == Done || unmount == Skipped) && forget;
            Run(site, s, es) ==
            At(b, if ok then n1.(lists := n1.lists - {k}) else n1, t, v, UnstageReturn(k, ok))
    ensures Smooth(site, s, es0) && unmount == Done && forget ==> Smooth(site, s, es)
  {
    var n1 := CleanedUp(n, k, unmount);
    if unmount == Done || unmount == Skipped {
      es := ThenUnstage(site, s, es0, b, n, t, v, UnstageUnmount(k), unmount, n1, UnstageForget(k));
      var n2 := if forget then n1.(lists := n1.lists - {k}) else n1;
      es := ThenUnstage(site, s, es, b, n1, t, v, UnstageForget(k), Answer(forget), n2, UnstageReturn(k, forget));
    } else {
      es := ThenUnstage(site, s, es0, b, n, t, v, UnstageUnmount(k), unmount, n1, UnstageReturn(k, false));
    }
  }

  lemma RemovalIsARun(site: Site, s: State, es0: seq<Event>, b: State, n: Node, t: nat, v: Volume, k: Key,
                      io: UnstageIo)
    returns (es: seq<Event>)
    requires t !in b.threads && Run(site, s, es0) == At(b, n, t, v, UnstageRead(k))
    ensures var (n', ok) := LockedUnstage(n, v, k, io); Run(site, s, es) == At(b, n', t, v, UnstageReturn(k, ok))
    ensures Smooth(site, s, es0) && io == UNSTAGED ==> Smooth(site, s, es)
  {
    var n0 := WithList(n, k);
    if !io.read {
      es := ThenUnstage(site, s, es0, b, n, t, v, UnstageRead(k), Failed, n, UnstageReturn(k, false));
    } else if n0.lists[k] == [v] {
      es := ThenUnstage(site, s, es0, b, n, t, v, UnstageRead(k), Done, n, UnstageUnmount(k));
      es := CleanUpIsARun(site, s, es, b, n, t, v, k, io.unmount, io.forget);
    } else if |n0.lists[k]| == 1 {
      assert n.lists[k] == [n.lists[k][0]];
      es := ThenUnstage(site, s, es0, b, n, t, v, UnstageRead(k), Done, n, UnstageReturn(k, true));
    } else {
      es := ThenUnstage(site, s, es0, b, n, t, v, UnstageRead(k), Done, n0, UnstageWrite(k, n0.lists[k]));
      var n1 := if io.write then n0.(lists := n0.lists[k := Removed(n0.lists[k], v)]) else n0;
      es := ThenUnstage(site, s, es, b, n0, t, v, UnstageWrite(k, n0.lists[k]), Answer(io.write), n1,
                        UnstageReturn(k, io.write));
    }
  }

  lemma LockedUnstageIgnoresLocks(n: Node, locks: set<Key>, v: Volume, k: Key, io: UnstageIo)
    ensures var (n', ok) := LockedUnstage(n, v, k, io);
            LockedUnstage(n.(locks := locks), v, k, io) == (n'.(locks := locks), ok) && n'.locks == n.locks
  {
  }

  /** The lookup, alone, finds the volume's key or finds it listed nowhere. */
  lemma SearchIsARun(site: Site, s: State, t: nat, v: Volume, k: Key) returns (es: seq<Event>)
    requires t !in s.threads
    requires ListedNowhere(NodeOf(s), v) || (k in s.lists && v in s.lists[k])
    ensures Run(site, s, es) ==
            At(Next(site, s, BeginUnstage(t, v)).(threads := s.threads), NodeOf(s), t, v,
               if ListedNowhere(NodeOf(s), v) then UnstageSkip else UnstageAcquire(k))
    ensures Idle(s, v) ==> Smooth(site, s, es)
  {
    es := StartIsARun(site, s, t, v, BeginUnstage(t, v), UnstageList);
    var b := Next(site, s, BeginUnstage(t, v)).(threads := s.threads);
    es := ThenUnstage(site, s, es, b, NodeOf(s), t, v, UnstageList, Done, NodeOf(s), UnstageLoad(s.lists.Keys, map[]));
    var now;
    es, now := LookupIsARun(site, s, es, At(b, NodeOf(s), t, v, UnstageLoad(s.lists.Keys, map[])), t);
    GotoAt(b, NodeOf(s), t, v, UnstageLoad(s.lists.Keys, map[]), NodeOf(s), UnstageLoad({}, s.lists));
    es, now := Then(site, s, es, now, Step(t, Done, k));
    GotoAt(b, NodeOf(s), t, v, UnstageLoad({}, s.lists), NodeOf(s), UnstageSkip);
    GotoAt(b, NodeOf(s), t, v, UnstageLoad({}, s.lists), NodeOf(s), UnstageAcquire(k));
  }

  /** A lookup that cannot even list the files ends the call one way or the other. */
  lemma BlindUnstageIsARun(site: Site, s: State, t: nat, v: Volume, lookup: Io) returns (es: seq<Event>)
    requires t !in s.threads && lookup != Done
    ensures Run(site, s, es) == Unstaged(s.(owned := s.owned - {v}, live := s.live - {v}), v, lookup == Halfway)
  {
    var b := s.(owned := s.owned - {v}, live := s.live - {v});
    var n := NodeOf(s);
    es := StartIsARun(site, s, t, v, BeginUnstage(t, v), UnstageList);
    if lookup != Halfway {
      es := ThenEnd(site, s, es, b, n, t, v, UnstageList, Step(t, Failed, ""), false);
    } else {
      es := ThenUnstage(site, s, es, b, n, t, v, UnstageList, Halfway, n, UnstageLoad({}, map[]));
      es := ThenUnstage(site, s, es, b, n, t, v, UnstageLoad({}, map[]), Done, n, UnstageSkip);
      es := ThenEnd(site, s, es, b, n, t, v, UnstageSkip, Step(t, Done, ""), true);
    }
  }

  /** An unstage call that runs alone is a run of the model, with the same effect on the node and, when it
      succeeds, the volume recorded as gone. */
  lemma UnstageCallIsARun(site: Site, s: State, t: nat, v: Volume, k: Key, io: UnstageIo) returns (es: seq<Event>)
    requires t !in s.threads
    requires ListedNowhere(NodeOf(s), v) || io.lookup != Done || (k in s.lists && v in s.lists[k])
    ensures var (n, ok) := UnstageCall(NodeOf(s), v, k, io);
            Run(site, s, es) == Unstaged(With(s, n).(owned := s.owned - {v}, live := s.live - {v}), v, ok)
    ensures Idle(s, v) && io == UNSTAGED ==> Smooth(site, s, es)
  {
    var b := s.(owned := s.owned - {v}, live := s.live - {v});
    var n := NodeOf(s);
    if io.lookup != Done {
      es := BlindUnstageIsARun(site, s, t, v, io.lookup);
      return;
    }
    es := SearchIsARun(site, s, t, v, k);
    if ListedNowhere(n, v) {
      es := ThenEnd(site, s, es, b, n, t, v, UnstageSkip, Step(t, Done, ""), true);
      return;
    }
    if k in s.locks {
      es := ThenEnd(site, s, es, b, n, t, v, UnstageAcquire(k), Step(t, Done, ""), false);
      return;
    }
    var n1 := n.(locks := n.locks + {k});
    es := ThenUnstage(site, s, es, b, n, t, v, UnstageAcquire(k), Done, n1, UnstageRead(k));
    es := RemovalIsARun(site, s, es, b, n1, t, v, k, io);
    LockedUnstageIgnoresLocks(n, n1.locks, v, k, io);
    var (n2, ok) := UnstageCall(n, v, k, io);
    es := LastUnstageStep(site, s, es, b, n2.(locks := n1.locks), t, v, k, ok);
    assert n1.locks - {k} == n2.locks;
  }

  lemma LastUnstageStep(site: Site, s: State, es: seq<Event>, b: State, n: Node, t: nat, v: Volume, k: Key, ok: bool)
    returns (es': seq<Event>)
    requires t !in b.threads && Run(site, s, es) == At(b, n, t, v, UnstageReturn(k, ok))
    ensures Run(site, s, es') == Unstaged(With(b, n.(locks := n.locks - {k})), v, ok)
    ensures Smooth(site, s, es) ==> Smooth(site, s, es')
  {
    var now;
    es', now := Then(site, s, es, At(b, n, t, v, UnstageReturn(k, ok)), Step(t, Done, ""));
    assert b.threads[t := Thread(v, UnstageReturn(k, ok))] - {t} == b.threads;
  }

  /** Alone and without failures, staging succeeds exactly for valid contexts with a known protocol, and then the
      volume is listed and its key mounted; unstaging always succeeds once the lock is free, and undoes it. */
  lemma StageThenUnstage(site: Site, n: Node, v: Volume)
    requires site.key(v) !in n.locks && KeyedLists(site, n.lists)
    requires forall k :: k in n.lists ==> NoDuplicates(n.lists[k])
    requires site.key(v) in n.mounts <==> ListAt(n, site.key(v)) != []
    ensures var k := site.key(v);
            var (n1, staged) := StageCall(site, n, v, STAGED);
            var (n2, unstaged) := UnstageCall(n1, v, k, UNSTAGED);
            && (staged <==> var o := site.source(v);
                            && o.rootDir != "" && o.rootDir[0] == '/' && o.fsid != "" && o.host != ""
                            && o.proto in {"nfs", "lustre"})
            && (staged ==> k in n1.mounts && k in n1.lists && v in n1.lists[k])
            && (staged && v !in ListAt(n, k) ==> n1.lists[k] == ListAt(n, k) + [v])
            && unstaged && ListedNowhere(n2, v)
            && (staged && v !in ListAt(n, k) ==> ListAt(n2, k) == ListAt(n, k) && n2.mounts == n.mounts)
  {
    var k := site.key(v);
    var n1 := StageCall(site, n, v, STAGED).0;
    var list := ListAt(n, k);
    if v !in list {
      RemovedLast(list, v);
    }
    if k in n1.lists {
      RemovedMembers(n1.lists[k], v);
    }
  }

  lemma {:induction false} RemovedLast(list: seq<Volume>, v: Volume)
    requires v !in list
    ensures Removed(list + [v], v) == list
  {
    if list == [] {
      assert list + [v] == [v];
    } else {
      assert list == [list[0]] + list[1..];
      assert (list + [v])[1..] == list[1..] + [v];
      RemovedLast(list[1..], v);
    }
  }
}
