/** What a volume finds at its global path, and the failures that the guarantees of GlobalMountRuns exclude,
    each as a run or a call in which it does harm. */
module GlobalMountFindings {
  import opened Strings
  import opened GlobalMount
  import opened GlobalMountRuns
  import opened GlobalMountServer
  import MountKey

  // ----- The directory at a staged volume's path

  /** Main result 1. In every run whatsoever, as long as file system ids contain no dash, the global path of a
      valid volume's key holds the file system that the volume asked for, at its root directory up to reading
      slashes as dashes; and at exactly its root directory if no root directory contains a dash either. */
  lemma MountIsWhatWasAskedFor(options: Volume -> Options, events: seq<Event>, v: Volume)
    requires forall u :: Free(options(u).fsid, '-')
    requires ValidContext(options(v))
    ensures var s := Run(SiteOf(options), INIT, events);
            var k := SiteOf(options).key(v);
            k in s.mounts ==>
              && s.mounts[k].fsid == options(v).fsid
              && ReplaceAll(s.mounts[k].rootDir, '/', '-') == ReplaceAll(options(v).rootDir, '/', '-')
              && ((forall u :: Free(options(u).rootDir, '-')) ==> s.mounts[k].rootDir == options(v).rootDir)
  {
    var site := SiteOf(options);
    InitInv(site);
    RunInv(site, INIT, events);
    var s := Run(site, INIT, events);
    var k := site.key(v);
    if k in s.mounts {
      assert Asked(site, k, s.mounts[k]);
      var u :| site.key(u) == k && site.source(u) == s.mounts[k];
      var o, o' := options(u), options(v);
      MountKey.KeyCollisions(o.fsid, o.rootDir, o'.fsid, o'.rootDir);
      if forall w :: Free(options(w).rootDir, '-') {
        assert Free(o.rootDir, '-') && Free(o'.rootDir, '-');
        MountKey.KeyInjective(o.fsid, o.rootDir, o'.fsid, o'.rootDir);
      }
    }
  }

  /** A call past its probe has a context with which a stage can succeed, and so has every staged volume. */
  ghost predicate StagedIsStageable(site: Site, s: State) {
    && (forall v :: v in s.live ==> Stageable(site.source(v)))
    && (forall k :: k in s.mounts ==> exists u :: MountedFor(site, s, k, u))
    && (forall t :: t in s.threads && PastProbe(s.threads[t].pc) ==> Stageable(site.source(s.threads[t].volume)))
  }

  ghost predicate MountedFor(site: Site, s: State, k: Key, u: Volume)
    requires k in s.mounts
  {
    site.key(u) == k && site.source(u) == s.mounts[k] && Stageable(site.source(u))
  }

  predicate PastProbe(pc: Pc) {
    pc.StageMount? || pc.StageRead? || pc.StageWrite? || (pc.StageReturn? && pc.ok)
  }

  lemma StageMountsOwn(site: Site, s: State, t: nat, io: Io, k: Key)
    requires t in s.threads && !s.threads[t].pc.IsUnstage() && k in StageStep(site, s, t, io).mounts
    ensures (k in s.mounts && StageStep(site, s, t, io).mounts[k] == s.mounts[k]) ||
            (s.threads[t].pc.StageMount? && k == site.key(s.threads[t].volume)
             && StageStep(site, s, t, io).mounts[k] == site.source(s.threads[t].volume))
  {
  }

  lemma StageStaysStageable(site: Site, s: State, t: nat, io: Io)
    requires StagedIsStageable(site, s) && t in s.threads && !s.threads[t].pc.IsUnstage()
    requires ThreadOk(site, s, s.threads[t])
    ensures var s' := StageStep(site, s, t, io);
            && (forall v :: v in s'.live ==> Stageable(site.source(v)))
            && (t in s'.threads && PastProbe(s'.threads[t].pc) ==> Stageable(site.source(s'.threads[t].volume)))
            && (forall t' :: t' in s'.threads && t' != t ==> t' in s.threads && s'.threads[t'] == s.threads[t'])
  {
  }

  lemma StageableStage(site: Site, s: State, t: nat, io: Io)
    requires StagedIsStageable(site, s) && t in s.threads && !s.threads[t].pc.IsUnstage()
    requires ThreadOk(site, s, s.threads[t])
    ensures StagedIsStageable(site, StageStep(site, s, t, io))
  {
    var s' := StageStep(site, s, t, io);
    StageStaysStageable(site, s, t, io);
    forall k | k in s'.mounts ensures exists u :: MountedFor(site, s', k, u) {
      StageMountsOwn(site, s, t, io, k);
      if k in s.mounts && s'.mounts[k] == s.mounts[k] {
        var u :| MountedFor(site, s, k, u);
        assert MountedFor(site, s', k, u);
      } else {
        assert MountedFor(site, s', k, s.threads[t].volume);
      }
    }
  }

  /** No unstage step stages or mounts anything. */
  ghost predicate OnlyUnmounts(s: State, s': State, t: nat) {
    && s'.live == s.live
    && (forall k :: k in s'.mounts ==> k in s.mounts && s'.mounts[k] == s.mounts[k])
    && (t in s'.threads ==> s'.threads[t].pc.IsUnstage())
    && (forall t' :: t' in s'.threads && t' != t ==> t' in s.threads && s'.threads[t'] == s.threads[t'])
  }

  lemma LookupOnlyUnmounts(s: State, t: nat, io: Io, pick: Key)
    requires t in s.threads && s.threads[t].pc.IsUnstage() && !Holds(s.threads[t])
    ensures OnlyUnmounts(s, UnstageStep(s, t, io, pick), t)
  {
  }

  lemma UnstageOnlyUnmounts(s: State, t: nat, io: Io, pick: Key)
    requires t in s.threads && s.threads[t].pc.IsUnstage()
    ensures OnlyUnmounts(s, UnstageStep(s, t, io, pick), t)
  {
    if !Holds(s.threads[t]) {
      LookupOnlyUnmounts(s, t, io, pick);
    }
  }

  lemma FewerMounts(site: Site, s: State, s': State)
    requires StagedIsStageable(site, s) && s'.live <= s.live
    requires forall k :: k in s'.mounts ==> k in s.mounts && s'.mounts[k] == s.mounts[k]
    requires forall t :: t in s'.threads && PastProbe(s'.threads[t].pc) ==>
               t in s.threads && s'.threads[t] == s.threads[t]
    ensures StagedIsStageable(site, s')
  {
    forall k | k in s'.mounts ensures exists u :: MountedFor(site, s', k, u) {
      var u :| MountedFor(site, s, k, u);
      assert MountedFor(site, s', k, u);
    }
  }

  lemma StageableBegin(site: Site, s: State, e: Event)
    requires StagedIsStageable(site, s) && (e.BeginStage? || e.BeginUnstage?)
    ensures StagedIsStageable(site, Next(site, s, e))
  {
    FewerMounts(site, s, Next(site, s, e));
  }

  lemma StageableDeath(site: Site, s: State, e: Event)
    requires StagedIsStageable(site, s) && (Dies(s, e) || e.Reboot?)
    ensures StagedIsStageable(site, Next(site, s, e))
  {
    FewerMounts(site, s, Next(site, s, e));
  }

  lemma StageableUnstage(site: Site, s: State, t: nat, io: Io, pick: Key)
    requires StagedIsStageable(site, s) && t in s.threads && s.threads[t].pc.IsUnstage()
    ensures StagedIsStageable(site, UnstageStep(s, t, io, pick))
  {
    UnstageOnlyUnmounts(s, t, io, pick);
    FewerMounts(site, s, UnstageStep(s, t, io, pick));
  }

  lemma StageableNext(site: Site, s: State, e: Event)
    requires Inv(site, s) && StagedIsStageable(site, s)
    ensures StagedIsStageable(site, Next(site, s, e))
  {
    if Dies(s, e) || e.Reboot? {
      StageableDeath(site, s, e);
    } else if e.BeginStage? || e.BeginUnstage? {
      StageableBegin(site, s, e);
    } else if e.t in s.threads {
      assert ThreadOk(site, s, s.threads[e.t]);
      if s.threads[e.t].pc.IsUnstage() {
        StageableUnstage(site, s, e.t, e.io, e.pick);
      } else {
        StageableStage(site, s, e.t, e.io);
      }
    }
  }

  lemma {:induction false} StageableRun(site: Site, s: State, events: seq<Event>)
    requires Inv(site, s) && StagedIsStageable(site, s)
    ensures StagedIsStageable(site, Run(site, s, events))
    decreases |events|
  {
    if events != [] {
      NextInv(site, s, events[0]);
      StageableNext(site, s, events[0]);
      StageableRun(site, Next(site, s, events[0]), events[1..]);
    }
  }

  /** What it means for a mount to be the one a volume asked for. */
  type Sameness = (Options, Options) -> bool

  /** A file system id names one file system, whichever of its hosts and protocols it is mounted by. */
  predicate SameDirectory(o: Options, o': Options) {
    o.fsid == o'.fsid && o.rootDir == o'.rootDir
  }

  predicate SameMount(o: Options, o': Options) {
    o == o'
  }

  /** Two volumes that can be staged share a key but not what they ask for. */
  predicate Collide(same: Sameness, options: Volume -> Options, u: Volume, v: Volume) {
    && Stageable(options(u)) && Stageable(options(v))
    && SiteOf(options).key(u) == SiteOf(options).key(v) && !same(options(u), options(v))
  }

  /** A volume staged since the last boot has what it asked for at its global path. */
  ghost predicate Served(same: Sameness, options: Volume -> Options, events: seq<Event>, v: Volume) {
    var s := Run(SiteOf(options), INIT, events);
    var k := SiteOf(options).key(v);
    OneInFlight(SiteOf(options), INIT, events) && v in s.live ==> k in s.mounts && same(s.mounts[k], options(v))
  }

  lemma ServedWithoutCollision(same: Sameness, options: Volume -> Options, events: seq<Event>, v: Volume)
    requires forall u :: !Collide(same, options, u, v)
    ensures Served(same, options, events, v)
  {
    var site := SiteOf(options);
    var s := Run(site, INIT, events);
    if OneInFlight(site, INIT, events) && v in s.live {
      StagedVolumesStayMounted(site, events, v);
      InitInv(site);
      StageableRun(site, INIT, events);
      var u :| MountedFor(site, s, site.key(v), u);
      assert !Collide(same, options, u, v);
    }
  }

  /** When two volumes collide, staging one after the other succeeds, and the second has the mount of the first at
      its path; no operation fails and nothing overlaps. */
  lemma SecondOverFirstMount(same: Sameness, options: Volume -> Options, u: Volume, v: Volume) returns (es: seq<Event>)
    requires Collide(same, options, u, v)
    ensures var s := Run(SiteOf(options), INIT, es);
            var k := SiteOf(options).key(v);
            && OneInFlight(SiteOf(options), INIT, es) && Never(SiteOf(options), INIT, es, Fails)
            && s.live == {u, v} && Listed(SiteOf(options), s, u) && Listed(SiteOf(options), s, v)
            && k in s.mounts && s.mounts[k] == options(u) && !Served(same, options, es, v)
  {
    var site := SiteOf(options);
    var first := StageCallIsARun(site, INIT, 0, u, STAGED);
    var s1 := Run(site, INIT, first);
    var second := StageCallIsARun(site, s1, 0, v, STAGED);
    RunThen(site, INIT, first, second);
    es := first + second;
    SmoothMeans(site, INIT, es);
  }

  /** Main result 2. Every staged volume of every run has what it asked for at its global path, if and only if no two
      volumes that can be staged share a key and ask for different things, whatever counts as different. */
  lemma ServedIffNoCollision(same: Sameness, options: Volume -> Options)
    ensures (forall events, v :: Served(same, options, events, v)) <==>
            (forall u, v :: !Collide(same, options, u, v))
  {
    if forall u, v :: !Collide(same, options, u, v) {
      forall events, v ensures Served(same, options, events, v) {
        ServedWithoutCollision(same, options, events, v);
      }
    } else {
      var u, v :| Collide(same, options, u, v);
      var es := SecondOverFirstMount(same, options, u, v);
    }
  }

  /** With dash-free file system ids volumes collide over their directories when these are two non-default directories
      of one file system that differ only in having slashes for dashes; over their mounts also when the directory is
      the same but the hosts or the protocols are not, because the key mentions neither. */
  lemma CollideIff(options: Volume -> Options, u: Volume, v: Volume)
    requires Free(options(u).fsid, '-') && Free(options(v).fsid, '-')
    requires Stageable(options(u)) && Stageable(options(v))
    ensures Collide(SameDirectory, options, u, v) <==>
            && options(u).fsid == options(v).fsid && options(u).rootDir != options(v).rootDir
            && options(u).rootDir != MountKey.DEFAULT_ROOT_DIR && options(v).rootDir != MountKey.DEFAULT_ROOT_DIR
            && ReplaceAll(options(u).rootDir, '/', '-') == ReplaceAll(options(v).rootDir, '/', '-')
    ensures Collide(SameMount, options, u, v) <==>
            || Collide(SameDirectory, options, u, v)
            || (SameDirectory(options(u), options(v))
                && (options(u).host != options(v).host || options(u).proto != options(v).proto))
  {
    MountKey.KeyCollisions(options(u).fsid, options(u).rootDir, options(v).fsid, options(v).rootDir);
  }

  // ----- The failures that the main results exclude do break them

  /** A stage of a key that is neither mounted nor listed leaves it mounted with nobody listed exactly when the mount
      was made and reported as failed, or the list cannot be read or written after it. */
  lemma FailedAddLeavesMount(site: Site, n: Node, v: Volume, io: StageIo)
    requires var k := site.key(v); k !in n.locks && k !in n.mounts && ListAt(n, k) == []
    ensures var (n', ok) := StageCall(site, n, v, io);
            && (site.key(v) in n'.mounts && ListAt(n', site.key(v)) == [] <==>
                && Stageable(site.source(v)) && io.probe
                && (io.mount == Halfway || (io.mount == Done && !(io.read && io.write))))
            && (ok <==> Stageable(site.source(v)) && io == STAGED)
  {
  }

  /** What the last unstage of a key leaves. It loses the mount of a volume that stays listed exactly when the clean-up
      fails halfway or the list deletion fails after it; and it leaves a mount that nobody is listed for, reporting
      success, exactly when the clean-up is skipped and the list deleted. Staging again repairs the key. */
  lemma FailedCleanupLosesMount(site: Site, n: Node, v: Volume, io: UnstageIo)
    requires var k := site.key(v);
             k !in n.locks && k in n.mounts && k in n.lists && n.lists[k] == [v] && io.lookup == Done && io.read
    requires Stageable(site.source(v))
    ensures var k := site.key(v);
            var (n', ok) := UnstageCall(n, v, k, io);
            && (k !in n'.mounts && k in n'.lists && v in n'.lists[k] <==>
                io.unmount == Halfway || (io.unmount == Done && !io.forget))
            && (k in n'.mounts && k !in n'.lists <==> io.unmount == Skipped && io.forget)
            && (ok <==> (io.unmount == Done || io.unmount == Skipped) && io.forget)
            && (io.unmount == Failed ==> n' == n)
            && (ok ==> k !in n'.lists && (io.unmount == Done ==> k !in n'.mounts))
            && (var (n'', again) := StageCall(site, n', v, STAGED);
                again && k in n''.mounts && k in n''.lists && v in n''.lists[k])
  {
  }

  /** A run from the start in which an unstage reports success and leaves its key mounted with nobody listed: its
      clean-up could not read the status of the mounted path. */
  lemma SkippedCleanupLeavesMount(site: Site, v: Volume) returns (es: seq<Event>)
    requires Stageable(site.source(v))
    ensures var s := Run(site, INIT, es);
            && s.locks == {} && s.threads == map[] && v in s.gone
            && site.key(v) in s.mounts && !NonEmpty(s, site.key(v))
  {
    var k := site.key(v);
    FirstStage(site, v);
    es := StageCallIsARun(site, INIT, 0, v, STAGED);
    var s1 := Run(site, INIT, es);
    assert s1.owned == {v} && s1.owned - {v} == {};
    assert v in s1.lists[k];
    var last := UnstageCallIsARun(site, s1, 0, v, k, UNSTAGED.(unmount := Skipped));
    RunThen(site, INIT, es, last);
    es := es + last;
  }

  /** An unstage whose volume another call has taken off the key's list after the lookup, and that gets the lock,
      touches no mount and no other list: it leaves an empty list for a deleted one, and a list of others as it is. */
  lemma RacedUnstageLeavesEmptyList(n: Node, v: Volume, k: Key, io: UnstageIo)
    requires io.read && v !in ListAt(n, k)
    ensures var (n', ok) := LockedUnstage(n, v, k, io);
            && (ok <==> |ListAt(n, k)| == 1 || io.write)
            && n' == n.(lists := n.lists[k := ListAt(n, k)])
  {
    RemovedAbsent(ListAt(n, k), v);
    var list := ListAt(n, k);
    assert k in n.lists ==> n.lists[k := list] == n.lists;
    assert n.lists[k := list][k := list] == n.lists[k := list];
  }

  /** Whatever the answers, an unstage that reports success has its volume on no list, unless the list directory could
      not be read: then it succeeds without a look and leaves everything as it is. A lookup that fails makes it fail. */
  lemma UnreadableDirectoryHidesVolumes(site: Site, n: Node, v: Volume, io: UnstageIo)
    requires KeyedLists(site, n.lists) && forall k :: k in n.lists ==> NoDuplicates(n.lists[k])
    ensures var (n', ok) := UnstageCall(n, v, site.key(v), io);
            && (ok ==> (ListedNowhere(n', v) <==> io.lookup != Halfway || ListedNowhere(n, v)))
            && (io.lookup == Halfway ==> ok && n' == n)
            && (io.lookup == Failed || io.lookup == Skipped ==> !ok && n' == n)
  {
    var k := site.key(v);
    if k in n.lists {
      RemovedMembers(n.lists[k], v);
    }
  }

  /** A stage that has begun, taken the lock and found its key unmounted. */
  lemma ReachUnmounted(site: Site, s: State, t: nat, v: Volume) returns (es: seq<Event>)
    requires Stageable(site.source(v)) && t !in s.threads && Idle(s, v)
    requires site.key(v) !in s.locks && site.key(v) !in s.mounts
    ensures Run(site, s, es) == At(Begun(s, v), Node(s.locks + {site.key(v)}, s.mounts, s.lists), t, v, StageMount)
    ensures Smooth(site, s, es)
  {
    var n1 := Node(s.locks + {site.key(v)}, s.mounts, s.lists);
    es := AcquireIsARun(site, s, t, v);
    es := ThenStage(site, s, es, Begun(s, v), n1, t, v, StageProbe, Done, n1, StageMount);
  }

  /** A run on from any state in which a stage has just mounted its key and not listed anybody. */
  lemma ReachMounted(site: Site, s: State, t: nat, v: Volume) returns (es: seq<Event>)
    requires Stageable(site.source(v)) && t !in s.threads && Idle(s, v)
    requires site.key(v) !in s.locks && site.key(v) !in s.mounts
    ensures var k := site.key(v);
            Run(site, s, es) ==
            At(Begun(s, v), Node(s.locks + {k}, s.mounts[k := site.source(v)], s.lists), t, v, StageRead(true))
    ensures Smooth(site, s, es)
  {
    var k := site.key(v);
    es := ReachUnmounted(site, s, t, v);
    es := ThenStage(site, s, es, Begun(s, v), Node(s.locks + {k}, s.mounts, s.lists), t, v, StageMount, Done,
                    Node(s.locks + {k}, s.mounts[k := site.source(v)], s.lists), StageRead(true));
  }

  lemma FirstStage(site: Site, a: Volume)
    requires Stageable(site.source(a))
    ensures StageCall(site, NodeOf(INIT), a, STAGED) ==
            (Node({}, map[site.key(a) := site.source(a)], map[site.key(a) := [a]]), true)
  {
    var k := site.key(a);
    assert ListAt(NodeOf(INIT), k) + [a] == [a];
    assert map[][k := ListAt(NodeOf(INIT), k)][k := [a]] == map[k := [a]];
    assert map[][k := site.source(a)] == map[k := site.source(a)];
  }

  /** A lookup for `b` that has listed the files while `a` was the only volume staged. */
  lemma ReachLookup(site: Site, a: Volume, b: Volume) returns (es: seq<Event>)
    requires Stageable(site.source(a)) && a != b
    ensures Smooth(site, INIT, es)
    ensures var k := site.key(a);
            Run(site, INIT, es) == State({}, map[k := site.source(a)], map[k := [a]],
                                         map[1 := Thread(b, UnstageLoad({k}, map[]))], {a}, {a}, {})
  {
    es := StageCallIsARun(site, INIT, 0, a, STAGED);
    var s1 := Run(site, INIT, es);
    FirstStage(site, a);
    var s2, s3;
    es, s2 := Then(site, INIT, es, s1, BeginUnstage(1, b));
    es, s3 := Then(site, INIT, es, s2, Step(1, Done, ""));
    assert s3.lists.Keys == {site.key(a)};
  }

  /** And that has not read any when `a` has been unstaged. */
  lemma ReachStaleLookup(site: Site, a: Volume, b: Volume) returns (es: seq<Event>)
    requires Stageable(site.source(a)) && a != b
    ensures Smooth(site, INIT, es)
    ensures Run(site, INIT, es) ==
            INIT.(threads := map[1 := Thread(b, UnstageLoad({site.key(a)}, map[]))], gone := {a})
  {
    es := ReachLookup(site, a, b);
    var s := Run(site, INIT, es);
    var last := UnstageCallIsARun(site, s, 0, a, site.key(a), UNSTAGED);
    RunThen(site, INIT, es, last);
    es := es + last;
  }

  /** One call in flight per volume and not one failed operation, and yet a lookup that meets a deleted list kills
      the driver just after another call's mount, and leaves that key mounted with nobody listed. */
  lemma OverlapLeavesMount(site: Site, a: Volume, b: Volume, c: Volume) returns (es: seq<Event>)
    requires Stageable(site.source(a)) && Stageable(site.source(c))
    requires a != b && b != c && site.key(a) != site.key(c)
    ensures OneInFlight(site, INIT, es) && Never(site, INIT, es, Fails)
    ensures var s := Run(site, INIT, es); s.locks == {} && site.key(c) in s.mounts && !NonEmpty(s, site.key(c))
  {
    es := ReachStaleLookup(site, a, b);
    var s1 := Run(site, INIT, es);
    var mounting := ReachMounted(site, s1, 2, c);
    RunThen(site, INIT, es, mounting);
    es := es + mounting;
    var s2 := Run(site, INIT, es);
    var s3;
    assert Panics(s2, Step(1, Done, site.key(a)));
    es, s3 := Then(site, INIT, es, s2, Step(1, Done, site.key(a)));
    SmoothMeans(site, INIT, es);
  }

  /** A driver restart between the mount and the list write leaves, in a run from the start, a key whose lock
      is free mounted with nobody listed. */
  lemma RestartLeavesMount(site: Site, v: Volume) returns (es: seq<Event>)
    requires Stageable(site.source(v))
    ensures var s := Run(site, INIT, es); s.locks == {} && site.key(v) in s.mounts && !NonEmpty(s, site.key(v))
  {
    es := ReachMounted(site, INIT, 0, v);
    var now;
    es, now := Then(site, INIT, es, Run(site, INIT, es), Restart);
  }

  /** A node reboot after a successful stage leaves, in a run from the start, a key whose lock is free with
      its volume listed and no mount. */
  lemma RebootLosesMount(site: Site, v: Volume) returns (es: seq<Event>)
    requires Stageable(site.source(v))
    ensures var s := Run(site, INIT, es); s.locks == {} && site.key(v) !in s.mounts && NonEmpty(s, site.key(v))
  {
    es := StageCallIsARun(site, INIT, 0, v, STAGED);
    var now;
    es, now := Then(site, INIT, es, Run(site, INIT, es), Reboot);
  }
}
