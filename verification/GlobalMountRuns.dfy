/** What every run of the CFS Turbo node service guarantees, and which failures cost which guarantee. */
module GlobalMountRuns {
  import opened GlobalMount

  lemma InitInv(site: Site)
    ensures Inv(site, INIT)
  {
  }

  // ----- One call in flight per volume: staged volumes stay listed and mounted

  /** The CSI rule that the orchestrator has at most one call in flight per volume. */
  predicate Idle(s: State, v: Volume) {
    forall t :: t in s.threads ==> s.threads[t].volume != v
  }

  predicate Orderly(s: State, e: Event) {
    (e.BeginStage? || e.BeginUnstage?) ==> Idle(s, e.volume)
  }

  ghost predicate OneInFlight(site: Site, s: State, events: seq<Event>)
    decreases |events|
  {
    events != [] ==> Orderly(s, events[0]) && OneInFlight(site, Next(site, s, events[0]), events[1..])
  }

  ghost predicate Never(site: Site, s: State, events: seq<Event>, bad: (State, Event) -> bool)
    decreases |events|
  {
    events != [] ==> !bad(s, events[0]) && Never(site, Next(site, s, events[0]), events[1..], bad)
  }

  ghost predicate OwnersOk(site: Site, s: State) {
    && (forall t, t' :: t in s.threads && t' in s.threads && t != t' ==> s.threads[t].volume != s.threads[t'].volume)
    && (forall t :: t in s.threads && s.threads[t].pc.IsUnstage() ==> s.threads[t].volume !in s.owned)
    && (forall v :: v in s.owned ==> Listed(site, s, v))
    && s.live <= s.owned
    && (forall v :: v in s.live ==> site.key(v) in s.mounts)
  }

  lemma StageMembership(site: Site, s: State, t: nat, io: Io, v: Volume)
    requires t in s.threads && !s.threads[t].pc.IsUnstage() && s.threads[t].volume != v
    requires ThreadOk(site, s, s.threads[t])
    ensures Listed(site, StageStep(site, s, t, io), v) == Listed(site, s, v)
  {
  }

  lemma UnstageMembership(site: Site, s: State, t: nat, io: Io, pick: Key, v: Volume)
    requires StoreOk(site, s) && t in s.threads && s.threads[t].pc.IsUnstage() && s.threads[t].volume != v
    requires ThreadOk(site, s, s.threads[t])
    ensures Listed(site, UnstageStep(s, t, io, pick), v) == Listed(site, s, v)
  {
    var th := s.threads[t];
    match th.pc
    case UnstageWrite(k, list) =>
      RemovedMembers(list, th.volume);
    case _ =>
  }

  /** A step of one volume's call never changes whether another volume is listed. */
  lemma MembershipStable(site: Site, s: State, t: nat, io: Io, pick: Key, v: Volume)
    requires Inv(site, s) && t in s.threads && s.threads[t].volume != v
    ensures Listed(site, Next(site, s, Step(t, io, pick)), v) == Listed(site, s, v)
  {
    if Panics(s, Step(t, io, pick)) {
    } else if s.threads[t].pc.IsUnstage() {
      UnstageMembership(site, s, t, io, pick, v);
    } else {
      StageMembership(site, s, t, io, v);
    }
  }

  lemma UnmountSparesOthers(site: Site, s: State, t: nat, io: Io, pick: Key, v: Volume)
    requires t in s.threads && s.threads[t].pc.UnstageUnmount? && ThreadOk(site, s, s.threads[t])
    requires s.threads[t].volume != v && Listed(site, s, v) && site.key(v) in s.mounts
    ensures site.key(v) in UnstageStep(s, t, io, pick).mounts
  {
    assert site.key(v) != s.threads[t].pc.key;
  }

  /** A global mount is only taken away while the list names no volume but the caller's. */
  lemma MountsStable(site: Site, s: State, t: nat, io: Io, pick: Key, v: Volume)
    requires Inv(site, s) && t in s.threads && s.threads[t].volume != v
    requires Listed(site, s, v) && site.key(v) in s.mounts
    ensures site.key(v) in Next(site, s, Step(t, io, pick)).mounts
  {
    assert ThreadOk(site, s, s.threads[t]);
    if s.threads[t].pc.UnstageUnmount? {
      UnmountSparesOthers(site, s, t, io, pick, v);
    } else {
      KeepsMounts(site, s, t, io, pick);
    }
  }

  lemma KeepsMounts(site: Site, s: State, t: nat, io: Io, pick: Key)
    requires t in s.threads && !s.threads[t].pc.UnstageUnmount?
    ensures s.mounts.Keys <= Next(site, s, Step(t, io, pick)).mounts.Keys
  {
  }

  /** A call's own step records at most its own volume, and a stage only what it has established. */
  ghost predicate OwnVolumeOk(site: Site, s: State, s': State, t: nat)
    requires t in s.threads
  {
    var v := s.threads[t].volume;
    && s'.owned - {v} == s.owned - {v}
    && s'.live - {v} == s.live - {v}
    && (t in s'.threads ==> s'.threads == s.threads[t := s'.threads[t]] && s'.threads[t].volume == v
                            && s'.threads[t].pc.IsUnstage() == s.threads[t].pc.IsUnstage())
    && (t !in s'.threads ==> s'.threads == s.threads - {t})
    && (v in s'.owned ==> Listed(site, s', v) && !s.threads[t].pc.IsUnstage())
    && (v in s'.live ==> v in s'.owned && site.key(v) in s'.mounts)
  }

  lemma StageOwnVolume(site: Site, s: State, t: nat, io: Io)
    requires t in s.threads && !s.threads[t].pc.IsUnstage() && ThreadOk(site, s, s.threads[t])
    requires s.threads[t].volume in s.owned ==> Listed(site, s, s.threads[t].volume)
    requires s.live <= s.owned && (s.threads[t].volume in s.live ==> site.key(s.threads[t].volume) in s.mounts)
    ensures OwnVolumeOk(site, s, StageStep(site, s, t, io), t)
  {
    var v := s.threads[t].volume;
    var s' := StageStep(site, s, t, io);
    assert s'.owned - {v} == s.owned - {v};
    assert s'.live - {v} == s.live - {v};
  }

  lemma UnstageOwnVolume(site: Site, s: State, t: nat, io: Io, pick: Key)
    requires t in s.threads && s.threads[t].pc.IsUnstage() && s.threads[t].volume !in s.owned
    requires s.live <= s.owned
    ensures OwnVolumeOk(site, s, UnstageStep(s, t, io, pick), t)
  {
    var s' := UnstageStep(s, t, io, pick);
    assert s'.owned == s.owned && s'.live == s.live;
  }

  lemma OwnVolumeStep(site: Site, s: State, t: nat, io: Io, pick: Key)
    requires t in s.threads && ThreadOk(site, s, s.threads[t]) && s.live <= s.owned
    requires !Panics(s, Step(t, io, pick))
    requires var v := s.threads[t].volume;
             && (v in s.owned ==> Listed(site, s, v) && !s.threads[t].pc.IsUnstage())
             && (v in s.live ==> site.key(v) in s.mounts)
    ensures OwnVolumeOk(site, s, Next(site, s, Step(t, io, pick)), t)
  {
    if s.threads[t].pc.IsUnstage() {
      UnstageOwnVolume(site, s, t, io, pick);
    } else {
      StageOwnVolume(site, s, t, io);
    }
  }

  lemma OwnedStayListed(site: Site, s: State, t: nat, io: Io, pick: Key, v: Volume)
    requires Inv(site, s) && OwnersOk(site, s) && t in s.threads
    requires OwnVolumeOk(site, s, Next(site, s, Step(t, io, pick)), t)
    ensures var s' := Next(site, s, Step(t, io, pick));
            && (v in s'.owned ==> Listed(site, s', v))
            && (v in s'.live ==> v in s'.owned && site.key(v) in s'.mounts)
  {
    var s' := Next(site, s, Step(t, io, pick));
    var w := s.threads[t].volume;
    if v != w && v in s'.owned {
      assert v in s'.owned - {w};
      MembershipStable(site, s, t, io, pick, v);
    }
    if v != w && v in s'.live {
      assert v in s'.live - {w} && v in s.owned - {w};
      MountsStable(site, s, t, io, pick, v);
    }
  }

  lemma OwnersStep(site: Site, s: State, t: nat, io: Io, pick: Key)
    requires Inv(site, s) && OwnersOk(site, s) && t in s.threads && !Panics(s, Step(t, io, pick))
    ensures OwnersOk(site, Next(site, s, Step(t, io, pick)))
  {
    assert ThreadOk(site, s, s.threads[t]);
    OwnVolumeStep(site, s, t, io, pick);
    forall v {
      OwnedStayListed(site, s, t, io, pick, v);
    }
    var s' := Next(site, s, Step(t, io, pick));
    forall t' | t' in s'.threads && s'.threads[t'].pc.IsUnstage() ensures s'.threads[t'].volume !in s'.owned {
      assert t' != t ==> s'.threads[t'].volume !in s'.owned - {s.threads[t].volume};
    }
  }

  lemma BeginOwners(site: Site, s: State, e: Event)
    requires OwnersOk(site, s) && (e.BeginStage? || e.BeginUnstage?) && Idle(s, e.volume)
    ensures OwnersOk(site, Next(site, s, e))
  {
  }

  lemma OwnersNext(site: Site, s: State, e: Event)
    requires Inv(site, s) && OwnersOk(site, s) && Orderly(s, e)
    ensures OwnersOk(site, Next(site, s, e))
  {
    if e.BeginStage? || e.BeginUnstage? {
      BeginOwners(site, s, e);
    } else if e.Step? && e.t in s.threads && !Panics(s, e) {
      OwnersStep(site, s, e.t, e.io, e.pick);
    }
  }

  lemma {:induction false} OwnersRun(site: Site, s: State, events: seq<Event>)
    requires Inv(site, s) && OwnersOk(site, s) && OneInFlight(site, s, events)
    ensures Inv(site, Run(site, s, events)) && OwnersOk(site, Run(site, s, events))
    decreases |events|
  {
    if events != [] {
      NextInv(site, s, events[0]);
      OwnersNext(site, s, events[0]);
      OwnersRun(site, Next(site, s, events[0]), events[1..]);
    }
  }

  /** Main result 1. In every interleaving, with any file or mount operation failing, restarts and reboots,
      and one call in flight per volume: a volume whose stage succeeded and whose unstage has not begun is
      listed under its key; and unless the node rebooted since, its global path is mounted. */
  lemma StagedVolumesStayMounted(site: Site, events: seq<Event>, v: Volume)
    requires OneInFlight(site, INIT, events)
    ensures var s := Run(site, INIT, events);
            && (v in s.owned ==> Listed(site, s, v))
            && (v in s.live ==> v in s.owned && site.key(v) in s.mounts)
  {
    InitInv(site);
    OwnersRun(site, INIT, events);
  }

  // ----- The lookup that holds no lock

  /** The unlocked lookup has not missed its volume: the volume's file is still to be read, or was read with
      the volume in it. */
  ghost predicate LookupOk(site: Site, s: State, th: Thread) {
    var k := site.key(th.volume);
    match th.pc
    case UnstageLoad(pending, loaded) =>
      Listed(site, s, th.volume) ==> k in pending || (k in loaded && th.volume in loaded[k])
    case UnstageOpen(_, pending, loaded) =>
      Listed(site, s, th.volume) ==> k in pending || (k in loaded && th.volume in loaded[k])
    case UnstageSkip => !Listed(site, s, th.volume)
    case _ => true
  }

  ghost predicate LookupsOk(site: Site, s: State) {
    forall t :: t in s.threads ==> LookupOk(site, s, s.threads[t])
  }

  /** An unreadable list directory reads as one without files, and here there is one with the volume in it. */
  function Overlooks(site: Site): (State, Event) -> bool {
    (s: State, e: Event) => e.Step? && e.t in s.threads && s.threads[e.t].pc.UnstageList? && e.io == Halfway
                            && Listed(site, s, s.threads[e.t].volume)
  }

  lemma OwnLookupStep(site: Site, s: State, t: nat, io: Io, pick: Key)
    requires t in s.threads && ThreadOk(site, s, s.threads[t]) && LookupOk(site, s, s.threads[t])
    requires !Panics(s, Step(t, io, pick)) && !Overlooks(site)(s, Step(t, io, pick))
    ensures var s' := Next(site, s, Step(t, io, pick)); t in s'.threads ==> LookupOk(site, s', s'.threads[t])
  {
    var pc := s.threads[t].pc;
    var s' := Next(site, s, Step(t, io, pick));
    if pc.UnstageLoad? || pc.UnstageOpen? || pc.UnstageList? {
      assert s'.lists == s.lists;
    }
  }

  lemma OtherLookupStep(site: Site, s: State, t: nat, io: Io, pick: Key, t': nat)
    requires Inv(site, s) && t in s.threads && !Panics(s, Step(t, io, pick))
    requires t' in s.threads && t' != t && s.threads[t'].volume != s.threads[t].volume
    requires LookupOk(site, s, s.threads[t'])
    ensures var s' := Next(site, s, Step(t, io, pick)); t' in s'.threads && LookupOk(site, s', s'.threads[t'])
  {
    StepFrame(site, s, t, io, pick);
    MembershipStable(site, s, t, io, pick, s.threads[t'].volume);
  }

  lemma BeginLookups(site: Site, s: State, e: Event)
    requires LookupsOk(site, s) && (e.BeginStage? || e.BeginUnstage?)
    ensures LookupsOk(site, Next(site, s, e))
  {
    var s' := Next(site, s, e);
    forall t | t in s'.threads ensures LookupOk(site, s', s'.threads[t]) {
      assert t in s.threads ==> LookupOk(site, s, s.threads[t]);
    }
  }

  lemma LookupsNext(site: Site, s: State, e: Event)
    requires Inv(site, s) && OwnersOk(site, s) && LookupsOk(site, s) && !Overlooks(site)(s, e)
    ensures LookupsOk(site, Next(site, s, e))
  {
    match e
    case Step(t, io, pick) =>
      if t in s.threads && !Panics(s, e) {
        var s' := Next(site, s, e);
        StepFrame(site, s, t, io, pick);
        assert ThreadOk(site, s, s.threads[t]);
        OwnLookupStep(site, s, t, io, pick);
        forall t' | t' in s.threads && t' != t ensures t' in s'.threads && LookupOk(site, s', s'.threads[t']) {
          OtherLookupStep(site, s, t, io, pick, t');
        }
      }
    case BeginStage(_, _) => BeginLookups(site, s, e);
    case BeginUnstage(_, _) => BeginLookups(site, s, e);
    case _ =>
  }

  /** A volume whose unstage succeeded is on no list, and nobody is staging it. */
  ghost predicate GoneOk(site: Site, s: State) {
    && (forall v :: v in s.gone ==> !Listed(site, s, v))
    && (forall t :: t in s.threads && !s.threads[t].pc.IsUnstage() ==> s.threads[t].volume !in s.gone)
  }

  lemma UnstageGone(site: Site, s: State, t: nat, io: Io, pick: Key)
    requires t in s.threads && s.threads[t].pc.IsUnstage()
    requires StoreOk(site, s) && ThreadOk(site, s, s.threads[t]) && LookupOk(site, s, s.threads[t])
    ensures var s' := UnstageStep(s, t, io, pick);
            var v := s.threads[t].volume;
            && s'.gone - {v} == s.gone - {v}
            && (v in s'.gone && (v in s.gone ==> !Listed(site, s, v)) ==> !Listed(site, s', v))
  {
    var th := s.threads[t];
    if th.pc.UnstageWrite? {
      RemovedMembers(th.pc.list, th.volume);
    }
  }

  lemma StageGone(site: Site, s: State, t: nat, io: Io)
    requires t in s.threads && !s.threads[t].pc.IsUnstage()
    ensures StageStep(site, s, t, io).gone == s.gone
  {
  }

  lemma GoneStep(site: Site, s: State, t: nat, io: Io, pick: Key)
    requires Inv(site, s) && LookupsOk(site, s) && GoneOk(site, s) && OwnersOk(site, s)
    requires t in s.threads && !Panics(s, Step(t, io, pick))
    ensures GoneOk(site, Next(site, s, Step(t, io, pick)))
  {
    var s' := Next(site, s, Step(t, io, pick));
    var w := s.threads[t].volume;
    assert ThreadOk(site, s, s.threads[t]) && LookupOk(site, s, s.threads[t]);
    if s.threads[t].pc.IsUnstage() {
      UnstageGone(site, s, t, io, pick);
      UnstageStaysUnstage(s, t, io, pick);
    } else {
      StageGone(site, s, t, io);
    }
    StepFrame(site, s, t, io, pick);
    GoneElsewhere(site, s, s', t, io, pick);
  }

  lemma GoneElsewhere(site: Site, s: State, s': State, t: nat, io: Io, pick: Key)
    requires Inv(site, s) && GoneOk(site, s) && OwnersOk(site, s) && t in s.threads
    requires s' == Next(site, s, Step(t, io, pick)) && LockStep(site, s, s', t)
    requires var v := s.threads[t].volume; s'.gone - {v} == s.gone - {v} && (v in s'.gone ==> !Listed(site, s', v))
    requires t in s'.threads && !s'.threads[t].pc.IsUnstage() ==> s'.threads[t].volume !in s'.gone
    ensures GoneOk(site, s')
  {
    var w := s.threads[t].volume;
    forall v | v in s'.gone ensures !Listed(site, s', v) {
      if v != w {
        assert v in s'.gone - {w};
        MembershipStable(site, s, t, io, pick, v);
      }
    }
    forall t' | t' in s'.threads && !s'.threads[t'].pc.IsUnstage() ensures s'.threads[t'].volume !in s'.gone {
      assert t' != t ==> s'.threads[t'].volume !in s.gone - {w};
    }
  }

  lemma GoneNext(site: Site, s: State, e: Event)
    requires Inv(site, s) && LookupsOk(site, s) && GoneOk(site, s) && OwnersOk(site, s)
    ensures GoneOk(site, Next(site, s, e))
  {
    if e.Step? && e.t in s.threads && !Panics(s, e) {
      GoneStep(site, s, e.t, e.io, e.pick);
    }
  }

  lemma {:induction false} GoneRun(site: Site, s: State, events: seq<Event>)
    requires Inv(site, s) && OwnersOk(site, s) && LookupsOk(site, s) && GoneOk(site, s)
    requires OneInFlight(site, s, events) && Never(site, s, events, Overlooks(site))
    ensures Inv(site, Run(site, s, events)) && LookupsOk(site, Run(site, s, events))
    ensures GoneOk(site, Run(site, s, events))
    decreases |events|
  {
    if events != [] {
      NextInv(site, s, events[0]);
      OwnersNext(site, s, events[0]);
      LookupsNext(site, s, events[0]);
      GoneNext(site, s, events[0]);
      GoneRun(site, Next(site, s, events[0]), events[1..]);
    }
  }

  /** Main result 2. In every run with one call in flight per volume in which no lookup of a listed volume finds
      the list directory unreadable, no lookup ever misses its volume; so a volume whose unstage has succeeded and
      whose stage has not begun since is on no list. */
  lemma UnstageSuccessIsTruthful(site: Site, events: seq<Event>)
    requires OneInFlight(site, INIT, events) && Never(site, INIT, events, Overlooks(site))
    ensures var s := Run(site, INIT, events);
            && (forall t :: t in s.threads ==> LookupOk(site, s, s.threads[t]))
            && (forall v, k :: v in s.gone && k in s.lists ==> v !in s.lists[k])
  {
    InitInv(site);
    GoneRun(site, INIT, events);
    var s := Run(site, INIT, events);
    forall v, k | v in s.gone && k in s.lists ensures v !in s.lists[k] {
      assert !Listed(site, s, v);
    }
  }

  /** Main result 3. Locks are never leaked nor released by a call that does not hold them: in every run
      the lock set is the keys of the calls past their acquire, one call per key, and no list ever has a
      duplicate. */
  lemma LocksAreHeldByOneCall(site: Site, events: seq<Event>)
    ensures var s := Run(site, INIT, events);
            && (forall k :: k in s.locks <==> exists t :: HeldBy(site, s, k, t))
            && (forall t, t', k :: HeldBy(site, s, k, t) && HeldBy(site, s, k, t') ==> t == t')
            && (forall k :: k in s.lists ==> NoDuplicates(s.lists[k]))
  {
    InitInv(site);
    RunInv(site, INIT, events);
  }

  // ----- Mounted exactly when the list is non-empty, in every interleaving

  /** The driver's process ends: it is restarted, or a lookup meets a file that is gone. */
  predicate Dies(s: State, e: Event) {
    e.Restart? || Panics(s, e)
  }

  /** What can leave a mount nobody is listed for: a mount is made and reported as failed, the list cannot be read or
      written after this call made the mount, the driver dies just then, or a clean-up of a mounted key is skipped. */
  predicate LeavesMount(s: State, e: Event) {
    || (Dies(s, e) && exists t :: t in s.threads && Staging(s.threads[t].pc))
    || (e.Step? && e.t in s.threads &&
        match s.threads[e.t].pc
        case StageMount => e.io == Halfway
        case UnstageUnmount(k) => e.io == Skipped && k in s.mounts
        case pc => e.io != Done && Staging(pc))
  }

  /** What can leave volumes listed without a mount: the clean-up fails after unmounting, the list file cannot
      be deleted, the driver dies just then, or the node reboots. */
  predicate LosesMount(s: State, e: Event) {
    || (Dies(s, e) && exists t :: t in s.threads && Forgetting(s.threads[t].pc))
    || e.Reboot?
    || (e.Step? && e.t in s.threads &&
        match s.threads[e.t].pc
        case UnstageUnmount(_) => e.io == Halfway
        case UnstageForget(_) => e.io != Done
        case _ => false)
  }

  predicate Staging(pc: Pc) {
    (pc.StageRead? && pc.mountedIt) || (pc.StageWrite? && pc.mountedIt)
  }

  predicate Forgetting(pc: Pc) {
    pc.UnstageForget?
  }

  ghost predicate HeldAt(site: Site, s: State, k: Key, at: Pc -> bool) {
    exists t :: HeldBy(site, s, k, t) && at(s.threads[t].pc)
  }

  /** A call about to delete its list has its key unmounted. */
  ghost predicate ForgettingUnmounted(site: Site, s: State) {
    forall t :: t in s.threads && Forgetting(s.threads[t].pc) ==> site.key(s.threads[t].volume) !in s.mounts
  }

  /** Mounted implies listed, but for a key whose holder has just mounted it. */
  ghost predicate MountedIsListed(site: Site, s: State) {
    && ForgettingUnmounted(site, s)
    && forall k :: k in s.mounts ==> NonEmpty(s, k) || HeldAt(site, s, k, Staging)
  }

  /** Listed implies mounted, but for a key whose holder is about to delete the list. */
  ghost predicate ListedIsMounted(site: Site, s: State) {
    forall k :: NonEmpty(s, k) ==> k in s.mounts || HeldAt(site, s, k, Forgetting)
  }

  /** A step of call `t` leaves the other holders where they were. */
  lemma OtherHolders(site: Site, s: State, s': State, t: nat, k: Key, at: Pc -> bool)
    requires Inv(site, s) && t in s.threads && LockStep(site, s, s', t) && HeldAt(site, s, k, at)
    ensures HeldAt(site, s', k, at) || (HeldBy(site, s, k, t) && at(s.threads[t].pc))
  {
    var t' :| HeldBy(site, s, k, t') && at(s.threads[t'].pc);
    if t' != t {
      assert HeldBy(site, s', k, t');
    }
  }

  lemma StepFrame(site: Site, s: State, t: nat, io: Io, pick: Key)
    requires Inv(site, s) && t in s.threads && !Panics(s, Step(t, io, pick))
    ensures StoreStep(site, s, Next(site, s, Step(t, io, pick)), t)
    ensures LockStep(site, s, Next(site, s, Step(t, io, pick)), t)
  {
    assert ThreadOk(site, s, s.threads[t]);
    if s.threads[t].pc.IsUnstage() {
      UnstageStepStore(site, s, t, io, pick);
      UnstageStepLocks(site, s, t, io, pick);
    } else {
      StageStepStore(site, s, t, io);
      StageStepLocks(site, s, t, io);
    }
  }

  lemma OwnKeyMounted(site: Site, s: State, t: nat, io: Io, pick: Key)
    requires t in s.threads && Holds(s.threads[t]) && ThreadOk(site, s, s.threads[t]) && StoreOk(site, s)
    requires !LeavesMount(s, Step(t, io, pick)) && !Panics(s, Step(t, io, pick))
    requires var k := site.key(s.threads[t].volume);
             k in s.mounts ==> !Forgetting(s.threads[t].pc) && (NonEmpty(s, k) || Staging(s.threads[t].pc))
    ensures var k := site.key(s.threads[t].volume);
            var s' := Next(site, s, Step(t, io, pick));
            k in s'.mounts ==> NonEmpty(s', k) || (HeldBy(site, s', k, t) && Staging(s'.threads[t].pc))
  {
    var th := s.threads[t];
    if th.pc.UnstageWrite? {
      RemovedMembers(th.pc.list, th.volume);
    }
  }

  lemma OwnKeyListed(site: Site, s: State, t: nat, io: Io, pick: Key)
    requires t in s.threads && Holds(s.threads[t]) && ThreadOk(site, s, s.threads[t])
    requires !LosesMount(s, Step(t, io, pick)) && !Panics(s, Step(t, io, pick))
    requires var k := site.key(s.threads[t].volume);
             NonEmpty(s, k) ==> k in s.mounts || Forgetting(s.threads[t].pc)
    ensures var k := site.key(s.threads[t].volume);
            var s' := Next(site, s, Step(t, io, pick));
            NonEmpty(s', k) ==> k in s'.mounts || (HeldBy(site, s', k, t) && Forgetting(s'.threads[t].pc))
  {
  }

  lemma OwnForgettingUnmounted(site: Site, s: State, t: nat, io: Io, pick: Key)
    requires t in s.threads && s.threads[t].pc.IsUnstage() && ThreadOk(site, s, s.threads[t])
    requires !LeavesMount(s, Step(t, io, pick))
    ensures var s' := UnstageStep(s, t, io, pick);
            t in s'.threads && Forgetting(s'.threads[t].pc) ==> site.key(s'.threads[t].volume) !in s'.mounts
  {
  }

  lemma StageStaysStage(site: Site, s: State, t: nat, io: Io)
    requires t in s.threads && !s.threads[t].pc.IsUnstage()
    ensures var s' := StageStep(site, s, t, io); t in s'.threads ==> !s'.threads[t].pc.IsUnstage()
  {
  }

  lemma OtherForgettingUnmounted(site: Site, s: State, s': State, t: nat)
    requires LocksOk(site, s) && ForgettingUnmounted(site, s) && t in s.threads
    requires StoreStep(site, s, s', t) && LockStep(site, s, s', t)
    requires t in s'.threads && Forgetting(s'.threads[t].pc) ==> site.key(s'.threads[t].volume) !in s'.mounts
    ensures ForgettingUnmounted(site, s')
  {
    forall t' | t' in s'.threads && t' != t && Forgetting(s'.threads[t'].pc)
      ensures site.key(s'.threads[t'].volume) !in s'.mounts
    {
      assert s'.threads[t'] == s.threads[t'] && Holds(s.threads[t']);
    }
  }

  lemma ForgettingStep(site: Site, s: State, t: nat, io: Io, pick: Key)
    requires Inv(site, s) && ForgettingUnmounted(site, s) && t in s.threads
    requires !LeavesMount(s, Step(t, io, pick)) && !Panics(s, Step(t, io, pick))
    ensures ForgettingUnmounted(site, Next(site, s, Step(t, io, pick)))
  {
    StepFrame(site, s, t, io, pick);
    if s.threads[t].pc.IsUnstage() {
      assert ThreadOk(site, s, s.threads[t]);
      OwnForgettingUnmounted(site, s, t, io, pick);
    } else {
      StageStaysStage(site, s, t, io);
    }
    OtherForgettingUnmounted(site, s, Next(site, s, Step(t, io, pick)), t);
  }

  lemma MountedStep(site: Site, s: State, t: nat, io: Io, pick: Key)
    requires Inv(site, s) && MountedIsListed(site, s) && t in s.threads
    requires !LeavesMount(s, Step(t, io, pick)) && !Panics(s, Step(t, io, pick))
    ensures MountedIsListed(site, Next(site, s, Step(t, io, pick)))
  {
    var s' := Next(site, s, Step(t, io, pick));
    var own := site.key(s.threads[t].volume);
    StepFrame(site, s, t, io, pick);
    ForgettingStep(site, s, t, io, pick);
    forall k | k in s'.mounts ensures NonEmpty(s', k) || HeldAt(site, s', k, Staging) {
      if k == own && Holds(s.threads[t]) {
        assert ThreadOk(site, s, s.threads[t]) && HeldBy(site, s, k, t);
        OwnKeyMounted(site, s, t, io, pick);
      } else if !NonEmpty(s, k) {
        OtherHolders(site, s, s', t, k, Staging);
      }
    }
  }

  lemma ListedStep(site: Site, s: State, t: nat, io: Io, pick: Key)
    requires Inv(site, s) && ListedIsMounted(site, s) && t in s.threads
    requires !LosesMount(s, Step(t, io, pick)) && !Panics(s, Step(t, io, pick))
    ensures ListedIsMounted(site, Next(site, s, Step(t, io, pick)))
  {
    var s' := Next(site, s, Step(t, io, pick));
    var own := site.key(s.threads[t].volume);
    StepFrame(site, s, t, io, pick);
    forall k | NonEmpty(s', k) ensures k in s'.mounts || HeldAt(site, s', k, Forgetting) {
      if k == own && Holds(s.threads[t]) {
        assert ThreadOk(site, s, s.threads[t]) && HeldBy(site, s, k, t);
        OwnKeyListed(site, s, t, io, pick);
      } else if k !in s.mounts {
        OtherHolders(site, s, s', t, k, Forgetting);
      }
    }
  }

  lemma BeginHolders(site: Site, s: State, e: Event, k: Key, at: Pc -> bool)
    requires (e.BeginStage? || e.BeginUnstage?) && HeldAt(site, s, k, at)
    ensures HeldAt(site, Next(site, s, e), k, at)
  {
    var t' :| HeldBy(site, s, k, t') && at(s.threads[t'].pc);
    assert HeldBy(site, Next(site, s, e), k, t');
  }

  lemma MountedNext(site: Site, s: State, e: Event)
    requires Inv(site, s) && MountedIsListed(site, s) && !LeavesMount(s, e)
    ensures MountedIsListed(site, Next(site, s, e))
  {
    var s' := Next(site, s, e);
    if e.Step? && !Panics(s, e) {
      if e.t in s.threads {
        MountedStep(site, s, e.t, e.io, e.pick);
      }
    } else {
      forall k | k in s'.mounts ensures NonEmpty(s', k) || HeldAt(site, s', k, Staging) {
        if !NonEmpty(s, k) {
          BeginHolders(site, s, e, k, Staging);
        }
      }
    }
  }

  lemma ListedNext(site: Site, s: State, e: Event)
    requires Inv(site, s) && ListedIsMounted(site, s) && !LosesMount(s, e)
    ensures ListedIsMounted(site, Next(site, s, e))
  {
    var s' := Next(site, s, e);
    if e.Step? && !Panics(s, e) {
      if e.t in s.threads {
        ListedStep(site, s, e.t, e.io, e.pick);
      }
    } else {
      forall k | NonEmpty(s', k) ensures k in s'.mounts || HeldAt(site, s', k, Forgetting) {
        if k !in s.mounts {
          BeginHolders(site, s, e, k, Forgetting);
        }
      }
    }
  }

  lemma {:induction false} MountedRun(site: Site, s: State, events: seq<Event>)
    requires Inv(site, s) && MountedIsListed(site, s) && Never(site, s, events, LeavesMount)
    ensures Inv(site, Run(site, s, events)) && MountedIsListed(site, Run(site, s, events))
    decreases |events|
  {
    if events != [] {
      NextInv(site, s, events[0]);
      MountedNext(site, s, events[0]);
      MountedRun(site, Next(site, s, events[0]), events[1..]);
    }
  }

  lemma {:induction false} ListedRun(site: Site, s: State, events: seq<Event>)
    requires Inv(site, s) && ListedIsMounted(site, s) && Never(site, s, events, LosesMount)
    ensures Inv(site, Run(site, s, events)) && ListedIsMounted(site, Run(site, s, events))
    decreases |events|
  {
    if events != [] {
      NextInv(site, s, events[0]);
      ListedNext(site, s, events[0]);
      ListedRun(site, Next(site, s, events[0]), events[1..]);
    }
  }

  /** Main result 4. In every interleaving, even of calls for the same volume, and with every other operation
      failing, driver deaths and reboots: while no mount that was made is reported as failed, no call fails to read
      or write its list after its own mount, the driver does not die with a call at that point, and no clean-up of
      a mounted key is skipped, a mounted key whose lock is free has a non-empty list. */
  lemma MountedImpliesListed(site: Site, events: seq<Event>, k: Key)
    requires Never(site, INIT, events, LeavesMount)
    ensures var s := Run(site, INIT, events); k !in s.locks && k in s.mounts ==> NonEmpty(s, k)
  {
    InitInv(site);
    MountedRun(site, INIT, events);
  }

  /** Main result 5, the converse: while no clean-up stops halfway, no list deletion fails, the driver does not die
      with a call between the two, and the node does not reboot, a key with a non-empty list whose lock is free
      is mounted. */
  lemma ListedImpliesMounted(site: Site, events: seq<Event>, k: Key)
    requires Never(site, INIT, events, LosesMount)
    ensures var s := Run(site, INIT, events); k !in s.locks && NonEmpty(s, k) ==> k in s.mounts
  {
    InitInv(site);
    ListedRun(site, INIT, events);
  }

  // ----- Without failed operations: exactly when it always holds

  /** An operation fails or the node reboots; a restart of the driver is no failure in this sense. */
  predicate Fails(s: State, e: Event) {
    e.Reboot? || (e.Step? && e.io != Done)
  }

  /** The driver dies while a call is between its mount and its list write, or between its unmount and its list
      deletion. */
  predicate DiesMidway(s: State, e: Event) {
    Dies(s, e) && exists t :: t in s.threads && (Staging(s.threads[t].pc) || Forgetting(s.threads[t].pc))
  }

  ghost predicate Matched(s: State) {
    forall k :: k !in s.locks ==> (k in s.mounts <==> NonEmpty(s, k))
  }

  ghost predicate StaysMatched(site: Site, s: State, events: seq<Event>)
    decreases |events|
  {
    Matched(s) && (events != [] ==> StaysMatched(site, Next(site, s, events[0]), events[1..]))
  }

  /** A key that a call has just mounted has nobody listed yet. */
  ghost predicate StagingUnlisted(site: Site, s: State) {
    forall t :: t in s.threads && Staging(s.threads[t].pc) ==> !NonEmpty(s, site.key(s.threads[t].volume))
  }

  ghost predicate SoundSoFar(site: Site, s: State) {
    Inv(site, s) && MountedIsListed(site, s) && ListedIsMounted(site, s) && StagingUnlisted(site, s)
  }

  lemma UnmountedIsUnlisted(site: Site, s: State, t: nat)
    requires SoundSoFar(site, s) && t in s.threads && s.threads[t].pc.StageMount?
    ensures !NonEmpty(s, site.key(s.threads[t].volume))
  {
    var k := site.key(s.threads[t].volume);
    assert ThreadOk(site, s, s.threads[t]) && HeldBy(site, s, k, t);
    assert !HeldAt(site, s, k, Forgetting);
  }

  lemma OwnStagingUnlisted(site: Site, s: State, t: nat, io: Io)
    requires t in s.threads && !s.threads[t].pc.IsUnstage() && ThreadOk(site, s, s.threads[t])
    requires s.threads[t].pc.StageMount? || Staging(s.threads[t].pc) ==> !NonEmpty(s, site.key(s.threads[t].volume))
    ensures var s' := StageStep(site, s, t, io);
            t in s'.threads && Staging(s'.threads[t].pc) ==> !NonEmpty(s', site.key(s'.threads[t].volume))
  {
  }

  lemma UnstageStaysUnstage(s: State, t: nat, io: Io, pick: Key)
    requires t in s.threads && s.threads[t].pc.IsUnstage()
    ensures var s' := UnstageStep(s, t, io, pick); t in s'.threads ==> s'.threads[t].pc.IsUnstage()
  {
  }

  lemma OtherStagingUnlisted(site: Site, s: State, s': State, t: nat)
    requires LocksOk(site, s) && StagingUnlisted(site, s) && t in s.threads
    requires StoreStep(site, s, s', t) && LockStep(site, s, s', t)
    requires t in s'.threads && Staging(s'.threads[t].pc) ==> !NonEmpty(s', site.key(s'.threads[t].volume))
    ensures StagingUnlisted(site, s')
  {
    forall t' | t' in s'.threads && t' != t && Staging(s'.threads[t'].pc)
      ensures !NonEmpty(s', site.key(s'.threads[t'].volume))
    {
      assert s'.threads[t'] == s.threads[t'] && Holds(s.threads[t']);
    }
  }

  lemma StagingStep(site: Site, s: State, t: nat, io: Io, pick: Key)
    requires SoundSoFar(site, s) && t in s.threads && !Panics(s, Step(t, io, pick))
    ensures StagingUnlisted(site, Next(site, s, Step(t, io, pick)))
  {
    StepFrame(site, s, t, io, pick);
    if s.threads[t].pc.IsUnstage() {
      UnstageStaysUnstage(s, t, io, pick);
    } else {
      assert ThreadOk(site, s, s.threads[t]);
      if s.threads[t].pc.StageMount? {
        UnmountedIsUnlisted(site, s, t);
      }
      OwnStagingUnlisted(site, s, t, io);
    }
    OtherStagingUnlisted(site, s, Next(site, s, Step(t, io, pick)), t);
  }

  lemma StagingNext(site: Site, s: State, e: Event)
    requires SoundSoFar(site, s)
    ensures StagingUnlisted(site, Next(site, s, e))
  {
    match e
    case Step(t, io, pick) =>
      if t in s.threads && !Panics(s, e) {
        StagingStep(site, s, t, io, pick);
      }
    case _ =>
  }

  lemma OnlyMidwayDeathHarms(s: State, e: Event)
    requires !Fails(s, e) && !DiesMidway(s, e)
    ensures !LeavesMount(s, e) && !LosesMount(s, e)
  {
  }

  lemma SoundNext(site: Site, s: State, e: Event)
    requires SoundSoFar(site, s) && !LeavesMount(s, e) && !LosesMount(s, e)
    ensures SoundSoFar(site, Next(site, s, e))
  {
    NextInv(site, s, e);
    MountedNext(site, s, e);
    ListedNext(site, s, e);
    StagingNext(site, s, e);
  }

  lemma MidwayDeathShows(site: Site, s: State, t: nat)
    requires t in s.threads && ThreadOk(site, s, s.threads[t])
    requires var th := s.threads[t];
             || (Forgetting(th.pc) && site.key(th.volume) !in s.mounts)
             || (Staging(th.pc) && !NonEmpty(s, site.key(th.volume)))
    ensures !Matched(Crashed(s))
  {
    var s' := Crashed(s);
    var k := site.key(s.threads[t].volume);
    assert k !in s'.locks && NonEmpty(s', k) == NonEmpty(s, k);
  }

  lemma {:induction false} MatchedRun(site: Site, s: State, events: seq<Event>)
    requires SoundSoFar(site, s) && Never(site, s, events, Fails)
    ensures StaysMatched(site, s, events) <==> Never(site, s, events, DiesMidway)
    decreases |events|
  {
    if events != [] {
      if DiesMidway(s, events[0]) {
        var t :| t in s.threads && (Staging(s.threads[t].pc) || Forgetting(s.threads[t].pc));
        MidwayDeathShows(site, s, t);
      } else {
        OnlyMidwayDeathHarms(s, events[0]);
        SoundNext(site, s, events[0]);
        MatchedRun(site, Next(site, s, events[0]), events[1..]);
      }
    }
  }

  /** Main result 6. In a run without failed operations and reboots, whatever calls interleave: at every moment
      every key whose lock is free is mounted exactly when its list exists and is not empty, if and only if the
      driver never dies, by a restart or by a lookup that meets a deleted list, with a call halfway. */
  lemma MountedIffListed(site: Site, events: seq<Event>)
    requires Never(site, INIT, events, Fails)
    ensures StaysMatched(site, INIT, events) <==> Never(site, INIT, events, DiesMidway)
  {
    InitInv(site);
    MatchedRun(site, INIT, events);
  }

  predicate LooksUp(pc: Pc) {
    pc.UnstageLoad? || pc.UnstageOpen?
  }

  /** A list is deleted while another call's lookup is reading the lists, or the driver is restarted. */
  predicate Disturbs(s: State, e: Event) {
    || e.Restart?
    || (e.Step? && e.t in s.threads && s.threads[e.t].pc.UnstageForget?
        && exists t :: t in s.threads && LooksUp(s.threads[t].pc))
  }

  /** Every file that a lookup has still to read is there. */
  ghost predicate LookupsCurrent(s: State) {
    forall t :: t in s.threads && LooksUp(s.threads[t].pc) ==> s.threads[t].pc.pending <= s.lists.Keys
  }

  /** What a step does to the files and to what its lookup has still to read. */
  ghost predicate ListsStep(s: State, s': State, t: nat)
    requires t in s.threads
  {
    && s.lists.Keys <= s'.lists.Keys
    && (t in s'.threads && LooksUp(s'.threads[t].pc) ==>
          s'.threads[t].pc.pending <= if LooksUp(s.threads[t].pc) then s.threads[t].pc.pending else s.lists.Keys)
    && (forall t' :: t' in s'.threads && t' != t ==> t' in s.threads && s'.threads[t'] == s.threads[t'])
  }

  lemma StageLists(site: Site, s: State, t: nat, io: Io)
    requires t in s.threads && !s.threads[t].pc.IsUnstage()
    ensures ListsStep(s, StageStep(site, s, t, io), t)
  {
  }

  lemma UnstageLists(s: State, t: nat, io: Io, pick: Key)
    requires t in s.threads && s.threads[t].pc.IsUnstage() && !s.threads[t].pc.UnstageForget?
    ensures ListsStep(s, UnstageStep(s, t, io, pick), t)
  {
  }

  lemma ForgetLists(s: State, t: nat, io: Io, pick: Key)
    requires t in s.threads && s.threads[t].pc.UnstageForget?
    requires forall t' :: t' in s.threads ==> !LooksUp(s.threads[t'].pc)
    ensures LookupsCurrent(UnstageStep(s, t, io, pick))
  {
  }

  lemma CurrentNext(site: Site, s: State, e: Event)
    requires LookupsCurrent(s) && !Fails(s, e) && !Disturbs(s, e)
    ensures !Dies(s, e) && LookupsCurrent(Next(site, s, e))
  {
    if e.Step? && e.t in s.threads {
      if s.threads[e.t].pc.UnstageForget? {
        ForgetLists(s, e.t, e.io, e.pick);
      } else if s.threads[e.t].pc.IsUnstage() {
        UnstageLists(s, e.t, e.io, e.pick);
      } else {
        StageLists(site, s, e.t, e.io);
      }
    }
  }

  lemma {:induction false} CurrentRun(site: Site, s: State, events: seq<Event>)
    requires LookupsCurrent(s) && Never(site, s, events, Fails) && Never(site, s, events, Disturbs)
    ensures Never(site, s, events, DiesMidway)
    decreases |events|
  {
    if events != [] {
      CurrentNext(site, s, events[0]);
      CurrentRun(site, Next(site, s, events[0]), events[1..]);
    }
  }

  /** Hence, without failures and restarts it is enough that no list is deleted while a lookup reads the lists. */
  lemma UndisturbedStaysMatched(site: Site, events: seq<Event>)
    requires Never(site, INIT, events, Fails) && Never(site, INIT, events, Disturbs)
    ensures StaysMatched(site, INIT, events)
  {
    CurrentRun(site, INIT, events);
    MountedIffListed(site, events);
  }

  // ----- Without failed operations no call fails

  /** A call about to return reports success, unless it is a stage with an unknown protocol. */
  predicate ReturnsWell(site: Site, th: Thread) {
    match th.pc
    case StageReturn(ok) => ok || site.source(th.volume).proto !in {"nfs", "lustre"}
    case UnstageReturn(_, ok) => ok
    case _ => true
  }

  lemma StageReturnsWell(site: Site, s: State, t: nat)
    requires t in s.threads && !s.threads[t].pc.IsUnstage()
    ensures var s' := StageStep(site, s, t, Done); t in s'.threads ==> ReturnsWell(site, s'.threads[t])
    ensures forall t' :: t' in StageStep(site, s, t, Done).threads && t' != t ==>
              t' in s.threads && StageStep(site, s, t, Done).threads[t'] == s.threads[t']
  {
  }

  lemma LookupReturnsWell(site: Site, s: State, t: nat, pick: Key)
    requires t in s.threads && s.threads[t].pc.IsUnstage() && !Holds(s.threads[t])
    ensures var s' := UnstageStep(s, t, Done, pick); t in s'.threads ==> ReturnsWell(site, s'.threads[t])
    ensures forall t' :: t' in UnstageStep(s, t, Done, pick).threads && t' != t ==>
              t' in s.threads && UnstageStep(s, t, Done, pick).threads[t'] == s.threads[t']
  {
  }

  lemma UnstageReturnsWell(site: Site, s: State, t: nat, pick: Key)
    requires t in s.threads && s.threads[t].pc.IsUnstage() && Holds(s.threads[t])
    ensures var s' := UnstageStep(s, t, Done, pick); t in s'.threads ==> ReturnsWell(site, s'.threads[t])
    ensures forall t' :: t' in UnstageStep(s, t, Done, pick).threads && t' != t ==>
              t' in s.threads && UnstageStep(s, t, Done, pick).threads[t'] == s.threads[t']
  {
  }

  lemma NextReturnsWell(site: Site, s: State, e: Event)
    requires !Fails(s, e) && forall t :: t in s.threads ==> ReturnsWell(site, s.threads[t])
    ensures forall t :: t in Next(site, s, e).threads ==> ReturnsWell(site, Next(site, s, e).threads[t])
  {
    if e.Step? && e.t in s.threads && !Panics(s, e) {
      if !s.threads[e.t].pc.IsUnstage() {
        StageReturnsWell(site, s, e.t);
      } else if Holds(s.threads[e.t]) {
        UnstageReturnsWell(site, s, e.t, e.pick);
      } else {
        LookupReturnsWell(site, s, e.t, e.pick);
      }
    }
  }

  lemma {:induction false} ReturnsWellRun(site: Site, s: State, events: seq<Event>)
    requires Never(site, s, events, Fails) && forall t :: t in s.threads ==> ReturnsWell(site, s.threads[t])
    ensures forall t :: t in Run(site, s, events).threads ==> ReturnsWell(site, Run(site, s, events).threads[t])
    decreases |events|
  {
    if events != [] {
      NextReturnsWell(site, s, events[0]);
      ReturnsWellRun(site, Next(site, s, events[0]), events[1..]);
    }
  }

  /** Main result 7. In a run without failed operations and reboots, whatever calls interleave, every call that got
      its lock and is about to return reports success, but for a stage with an unknown protocol. */
  lemma FaultlessCallsSucceed(site: Site, events: seq<Event>, t: nat)
    requires Never(site, INIT, events, Fails)
    ensures var s := Run(site, INIT, events); t in s.threads ==> ReturnsWell(site, s.threads[t])
  {
    ReturnsWellRun(site, INIT, events);
  }
}
