/** CFS Turbo provisioning: the volume id printed by CreateVolume, its parser, and the directory the
    two calls make and remove through a temporary mount. */
module CfsVolumes {
  import opened Strings

  /** The volume id `fsid-host-/cluster/name`. */
  function PrintVolumeId(fsid: string, host: string, cluster: string, name: string): (id: string) {
    fsid + "-" + host + "-" + ("/" + cluster + "/" + name)
  }

  /** The parser indexes the split path without a check, so a short path stops the driver. */
  datatype Parsed = Parsed(pvName: string, fsid: string, host: string) | IndexOutOfRange

  function ParseVolumeId(id: string): (r: Parsed) {
    var options := Split(id, '-');
    if |options| < 3 then Parsed("", "", "")
    else
      var parts := Split(Join(options[2..], '-'), '/');
      if |parts| < 3 then IndexOutOfRange else Parsed(parts[2], options[0], options[1])
  }

  lemma SplitPath(cluster: string, name: string)
    ensures Split("/" + cluster + "/" + name, '/') == [""] + Split(cluster + "/" + name, '/')
    ensures |Split(cluster + "/" + name, '/')| >= 2
    ensures Free(cluster, '/') ==> Split(cluster + "/" + name, '/') == [cluster] + Split(name, '/')
  {
    var tail := cluster + "/" + name;
    assert "/" + cluster + "/" + name == "" + ['/'] + tail;
    SplitFirst("", tail, '/');
    if Free(cluster, '/') {
      assert tail == cluster + ['/'] + name;
      SplitFirst(cluster, name, '/');
    } else {
      assert tail[|cluster|] == '/';
      SplitIsOneIffFree(tail, '/');
    }
  }

  /** Past the first slash of the cluster id, the parser finds what the cluster id itself would split to. */
  lemma {:induction false} SecondPart(cluster: string, name: string)
    requires !Free(cluster, '/')
    ensures |Split(cluster, '/')| >= 2 && |Split(cluster + "/" + name, '/')| >= 2
    ensures Split(cluster + "/" + name, '/')[1] == Split(cluster, '/')[1]
  {
    var whole := cluster + "/" + name;
    assert whole[1..] == cluster[1..] + "/" + name;
    assert cluster == [cluster[0]] + cluster[1..];
    if cluster[0] == '/' {
      FirstPart(cluster[1..], name);
    } else {
      SecondPart(cluster[1..], name);
    }
  }

  lemma {:induction false} FirstPart(head: string, name: string)
    ensures Split(head + "/" + name, '/')[0] == Split(head, '/')[0]
  {
    var whole := head + "/" + name;
    if head == "" {
      assert whole[0] == '/';
    } else {
      assert whole[1..] == head[1..] + "/" + name;
      FirstPart(head[1..], name);
    }
  }

  /** Parsing a printed id, when file system id and host are dash-free; dashes elsewhere are harmless. */
  lemma ParsePrinted(fsid: string, host: string, cluster: string, name: string)
    requires Free(fsid, '-') && Free(host, '-')
    ensures |Split(cluster + "/" + name, '/')| >= 2
    ensures ParseVolumeId(PrintVolumeId(fsid, host, cluster, name)) ==
            Parsed(Split(cluster + "/" + name, '/')[1], fsid, host)
  {
    var path := "/" + cluster + "/" + name;
    var id := PrintVolumeId(fsid, host, cluster, name);
    assert id == fsid + ['-'] + (host + ['-'] + path);
    SplitFirst(fsid, host + ['-'] + path, '-');
    SplitFirst(host, path, '-');
    assert Split(id, '-')[2..] == Split(path, '-');
    JoinSplit(path, '-');
    SplitPath(cluster, name);
  }

  /** The exact ids that stop the driver: two dashes, the first two, and a path of fewer than two slashes after them. */
  lemma ParsePanicsIff(id: string)
    ensures ParseVolumeId(id).IndexOutOfRange? <==> exists fsid, host, path :: ShortPath(id, fsid, host, path)
  {
    if ParseVolumeId(id).IndexOutOfRange? {
      var path := PathOf(id);
      assert ShortPath(id, Split(id, '-')[0], Split(id, '-')[1], path);
    }
    if fsid, host, path :| ShortPath(id, fsid, host, path) {
      assert id == fsid + ['-'] + (host + ['-'] + path);
      SplitFirst(fsid, host + ['-'] + path, '-');
      SplitFirst(host, path, '-');
      assert Split(id, '-')[2..] == Split(path, '-');
      JoinSplit(path, '-');
    }
  }

  /** What follows the first two dashes. */
  lemma PathOf(id: string) returns (path: string)
    requires |Split(id, '-')| >= 3
    ensures var options := Split(id, '-');
            && path == Join(options[2..], '-') && id == options[0] + "-" + options[1] + "-" + path
            && Free(options[0], '-') && Free(options[1], '-')
  {
    var options := Split(id, '-');
    SplitPartsFree(id, '-');
    JoinSplit(id, '-');
    path := Join(options[2..], '-');
    assert options[0] in options && options[1] in options;
    assert options[1..][1..] == options[2..];
    assert id == options[0] + ['-'] + Join(options[1..], '-');
    assert Join(options[1..], '-') == options[1] + ['-'] + path;
  }

  predicate ShortPath(id: string, fsid: string, host: string, path: string) {
    id == fsid + "-" + host + "-" + path && Free(fsid, '-') && Free(host, '-') && |Split(path, '/')| < 3
  }

  /** The exact inputs on which the volume id is read back as it was written. */
  lemma VolumeIdRoundTrip(fsid: string, host: string, cluster: string, name: string)
    ensures ParseVolumeId(PrintVolumeId(fsid, host, cluster, name)) == Parsed(name, fsid, host) <==>
            && Free(fsid, '-') && Free(host, '-') && Free(name, '/')
            && (Free(cluster, '/') || (|Split(cluster, '/')| >= 2 && Split(cluster, '/')[1] == name))
  {
    var id := PrintVolumeId(fsid, host, cluster, name);
    if ParseVolumeId(id) == Parsed(name, fsid, host) {
      PartsAreFree(id);
    }
    if Free(fsid, '-') && Free(host, '-') {
      ParsePrinted(fsid, host, cluster, name);
      if Free(cluster, '/') {
        SplitPath(cluster, name);
        if Free(name, '/') {
          SplitFree(name, '/');
        }
      } else {
        SecondPart(cluster, name);
      }
    }
  }

  lemma PartsAreFree(id: string)
    requires ParseVolumeId(id).Parsed?
    ensures Free(ParseVolumeId(id).fsid, '-') && Free(ParseVolumeId(id).host, '-')
    ensures Free(ParseVolumeId(id).pvName, '/')
  {
    var options := Split(id, '-');
    if |options| >= 3 {
      SplitPartsFree(id, '-');
      assert options[0] in options && options[1] in options;
      var path := Join(options[2..], '-');
      SplitPartsFree(path, '/');
      assert Split(path, '/')[2] in Split(path, '/');
    }
  }

  // ----- Directories behind temporary mounts

  datatype Source = Source(host: string, fsid: string)

  /** A provisioned directory `/cluster/name` below the root of one file system. */
  datatype Directory = Directory(source: Source, cluster: string, name: string)

  datatype World = World(mounts: map<string, Source>, dirs: set<Directory>)

  /** An operation is carried out, refused, or carried out and reported as failed. */
  datatype Answer = Done | Refused | Lost

  /** The environment's answers to one call, in the order the call makes the operations. */
  datatype Io = Io(probe: bool, mount: Answer, change: Answer, unmount: Answer)

  datatype Outcome = Created(volumeId: string) | Deleted | Invalid | Failed | Panicked

  /** `mountCfsTurbo`: a path that is already a mount point is left as it is. */
  function MountTemp(w: World, path: string, source: Source, io: Io): (r: (World, bool)) {
    if !io.probe then (w, false)
    else if path in w.mounts then (w, true)
    else (if io.mount == Refused then w else w.(mounts := w.mounts[path := source]), io.mount == Done)
  }

  function UnmountTemp(w: World, path: string, answer: Answer): World {
    if answer == Refused then w else w.(mounts := w.mounts - {path})
  }

  function Path(name: string): string {
    "/tmp/" + name
  }

  function Create(w: World, clusterId: string, name: string, fsid: string, host: string, io: Io)
    : (r: (World, Outcome))
  {
    if name == "" || fsid == "" || host == "" || clusterId == "" then (w, Invalid)
    else
      var (w1, mounted) := MountTemp(w, Path(name), Source(host, fsid), io);
      if !mounted || io.change == Refused then (w1, Failed)
      else
        var w2 := w1.(dirs := w1.dirs + {Directory(w1.mounts[Path(name)], clusterId, name)});
        if io.change == Lost then (w2, Failed)
        else (UnmountTemp(w2, Path(name), io.unmount),
              if io.unmount == Done then Created(PrintVolumeId(fsid, host, clusterId, name)) else Failed)
  }

  function Delete(w: World, clusterId: string, volumeId: string, io: Io): (r: (World, Outcome)) {
    if volumeId == "" then (w, Invalid)
    else
      match ParseVolumeId(volumeId)
      case IndexOutOfRange => (w, Panicked)
      case Parsed(pvName, fsid, host) =>
        if fsid == "" || host == "" || pvName == "" then (w, Invalid)
        else
          var (w1, mounted) := MountTemp(w, Path(pvName), Source(host, fsid), io);
          if !mounted || io.change == Refused then (w1, Failed)
          else
            var w2 := w1.(dirs := w1.dirs - {Directory(w1.mounts[Path(pvName)], clusterId, pvName)});
            if io.change == Lost then (w2, Failed)
            else (UnmountTemp(w2, Path(pvName), io.unmount), if io.unmount == Done then Deleted else Failed)
  }

  /** The same two calls as the driver makes them, against the mount table and the file systems. */
  class ControllerServer {
    const clusterId: string
    var mounts: map<string, Source>
    var dirs: set<Directory>

    constructor (clusterId: string)
      ensures this.clusterId == clusterId && Now() == World(map[], {})
    {
      this.clusterId := clusterId;
      mounts, dirs := map[], {};
    }

    ghost function Now(): World
      reads this
    {
      World(mounts, dirs)
    }

    method MountCfsTurbo(path: string, source: Source, io: Io) returns (ok: bool)
      modifies this`mounts
      ensures (Now(), ok) == MountTemp(old(Now()), path, source, io)
    {
      if !io.probe {
        return false;
      }
      if path in mounts {
        return true;
      }
      if io.mount != Refused {
        mounts := mounts[path := source];
      }
      return io.mount == Done;
    }

    method Unmount(path: string, answer: Answer) returns (ok: bool)
      modifies this`mounts
      ensures Now() == UnmountTemp(old(Now()), path, answer) && ok == (answer == Done)
    {
      if answer != Refused {
        mounts := mounts - {path};
      }
      return answer == Done;
    }

    method CreateVolume(name: string, fsid: string, host: string, io: Io) returns (r: Outcome)
      modifies this
      ensures (Now(), r) == Create(old(Now()), clusterId, name, fsid, host, io)
    {
      if name == "" || fsid == "" || host == "" || clusterId == "" {
        return Invalid;
      }
      var path := Path(name);
      var ok := MountCfsTurbo(path, Source(host, fsid), io);
      if !ok || io.change == Refused {
        return Failed;
      }
      dirs := dirs + {Directory(mounts[path], clusterId, name)};
      if io.change == Lost {
        return Failed;
      }
      ok := Unmount(path, io.unmount);
      return if ok then Created(PrintVolumeId(fsid, host, clusterId, name)) else Failed;
    }

    method DeleteVolume(volumeId: string, io: Io) returns (r: Outcome)
      modifies this
      ensures (Now(), r) == Delete(old(Now()), clusterId, volumeId, io)
    {
      if volumeId == "" {
        return Invalid;
      }
      var parsed := ParseVolumeId(volumeId);
      if parsed.IndexOutOfRange? {
        return Panicked;
      }
      if parsed.fsid == "" || parsed.host == "" || parsed.pvName == "" {
        return Invalid;
      }
      var path := Path(parsed.pvName);
      var ok := MountCfsTurbo(path, Source(parsed.host, parsed.fsid), io);
      if !ok || io.change == Refused {
        return Failed;
      }
      dirs := dirs - {Directory(mounts[path], clusterId, parsed.pvName)};
      if io.change == Lost {
        return Failed;
      }
      ok := Unmount(path, io.unmount);
      return if ok then Deleted else Failed;
    }
  }

  // ----- Whole runs

  /** Every volume name belongs to one file system; calls come in any order, and any operation may fail. A volume is
      deleted by the id that its creation returned. */
  datatype Call = CreateCall(name: string, io: Io) | DeleteCall(name: string, io: Io)

  /** `ids` records what the last successful CreateVolume for each name returned. */
  datatype History = History(w: World, ids: map<string, string>)

  function Perform(site: string -> Source, clusterId: string, h: History, call: Call): (History, Outcome) {
    match call
    case CreateCall(name, io) =>
      var (w, r) := Create(h.w, clusterId, name, site(name).fsid, site(name).host, io);
      (History(w, if r.Created? then h.ids[name := r.volumeId] else h.ids), r)
    case DeleteCall(name, io) =>
      if name !in h.ids then (h, Invalid)
      else
        var (w, r) := Delete(h.w, clusterId, h.ids[name], io);
        (h.(w := w), r)
  }

  function Run(site: string -> Source, clusterId: string, h: History, calls: seq<Call>): History
    decreases |calls|
  {
    if calls == [] then h else Run(site, clusterId, Perform(site, clusterId, h, calls[0]).0, calls[1..])
  }

  function Own(site: string -> Source, clusterId: string, name: string): Directory {
    Directory(site(name), clusterId, name)
  }

  /** What VolumeIdRoundTrip asks of the names in use. */
  predicate Readable(site: string -> Source, clusterId: string, name: string) {
    Free(site(name).fsid, '-') && Free(site(name).host, '-') && Free(name, '/') && Free(clusterId, '/')
  }

  /** Temporary mounts are of the file system of their volume, and ids are printed from theirs. */
  ghost predicate HistoryOk(site: string -> Source, clusterId: string, h: History) {
    && (forall name :: Path(name) in h.w.mounts ==> h.w.mounts[Path(name)] == site(name))
    && (forall name :: name in h.ids ==>
          && h.ids[name] == PrintVolumeId(site(name).fsid, site(name).host, clusterId, name)
          && name != "" && site(name).fsid != "" && site(name).host != "")
  }

  lemma PathInjective(name: string, name': string)
    ensures Path(name) == Path(name') <==> name == name'
  {
    assert name == Path(name)[5..] && name' == Path(name')[5..];
  }

  /** One call touches only its own volume's directory, and a successful one has made or removed it. */
  lemma CallTouchesOwnDirectory(site: string -> Source, clusterId: string, h: History, call: Call)
    requires Readable(site, clusterId, call.name) && HistoryOk(site, clusterId, h)
    ensures var own := Own(site, clusterId, call.name);
            var (h', r) := Perform(site, clusterId, h, call);
            && HistoryOk(site, clusterId, h')
            && h'.w.dirs - {own} == h.w.dirs - {own}
            && (r.Created? ==> own in h'.w.dirs)
            && (r.Deleted? ==> own !in h'.w.dirs)
            && !r.Panicked?
  {
    var source := site(call.name);
    VolumeIdRoundTrip(source.fsid, source.host, clusterId, call.name);
    forall name {:trigger Path(name)} | true ensures Path(name) == Path(call.name) <==> name == call.name {
      PathInjective(name, call.name);
    }
  }

  /** In every run a successful CreateVolume leaves its volume's directory and a successful DeleteVolume
      removes exactly the directory that CreateVolume made, whatever failed before either of them. */
  lemma {:induction false} DeleteRemovesWhatCreateMade(site: string -> Source, clusterId: string, h: History,
                                                       calls: seq<Call>, last: Call)
    requires HistoryOk(site, clusterId, h) && Readable(site, clusterId, last.name)
    requires forall c :: c in calls ==> Readable(site, clusterId, c.name)
    ensures HistoryOk(site, clusterId, Run(site, clusterId, h, calls))
    ensures var own := Own(site, clusterId, last.name);
            var before := Run(site, clusterId, h, calls).w;
            var (after, r) := Perform(site, clusterId, Run(site, clusterId, h, calls), last);
            && (r.Created? ==> after.w.dirs == before.dirs + {own})
            && (r.Deleted? ==> after.w.dirs == before.dirs - {own})
    decreases |calls|
  {
    if calls == [] {
      CallTouchesOwnDirectory(site, clusterId, h, last);
    } else {
      CallTouchesOwnDirectory(site, clusterId, h, calls[0]);
      DeleteRemovesWhatCreateMade(site, clusterId, Perform(site, clusterId, h, calls[0]).0, calls[1..], last);
    }
  }

  /** Calls for other volumes leave a volume's directory alone. */
  lemma {:induction false} OthersKeepDirectory(site: string -> Source, clusterId: string, h: History, calls: seq<Call>,
                                               name: string)
    requires HistoryOk(site, clusterId, h)
    requires forall c :: c in calls ==> Readable(site, clusterId, c.name) && c.name != name
    ensures HistoryOk(site, clusterId, Run(site, clusterId, h, calls))
    ensures Own(site, clusterId, name) in Run(site, clusterId, h, calls).w.dirs <==>
            Own(site, clusterId, name) in h.w.dirs
    decreases |calls|
  {
    if calls != [] {
      assert calls[0] in calls;
      CallTouchesOwnDirectory(site, clusterId, h, calls[0]);
      var own, other := Own(site, clusterId, name), Own(site, clusterId, calls[0].name);
      var h' := Perform(site, clusterId, h, calls[0]).0;
      assert own != other && (own in h'.w.dirs - {other} <==> own in h.w.dirs - {other});
      OthersKeepDirectory(site, clusterId, h', calls[1..], name);
    }
  }

  /** Main result. Once CreateVolume has returned an id for a name, whatever came before and whatever is done for other
      volumes in between: the volume's directory is there, and a DeleteVolume of that very id whose operations
      succeed reports success and removes exactly it. */
  lemma CreatedVolumeCanBeDeleted(site: string -> Source, clusterId: string, h: History, name: string, io: Io,
                                  between: seq<Call>, dio: Io)
    requires HistoryOk(site, clusterId, h) && Readable(site, clusterId, name)
    requires forall c :: c in between ==> Readable(site, clusterId, c.name) && c.name != name
    requires Perform(site, clusterId, h, CreateCall(name, io)).1.Created?
    requires dio == Io(true, Done, Done, Done)
    ensures var (h1, r1) := Perform(site, clusterId, h, CreateCall(name, io));
            var h2 := Run(site, clusterId, h1, between);
            var (w3, r3) := Delete(h2.w, clusterId, r1.volumeId, dio);
            var own := Own(site, clusterId, name);
            && r1.volumeId == site(name).fsid + "-" + site(name).host + "-/" + clusterId + "/" + name
            && own in h1.w.dirs && own in h2.w.dirs && r3.Deleted? && w3.dirs == h2.w.dirs - {own}
  {
    var source := site(name);
    var (h1, r1) := Perform(site, clusterId, h, CreateCall(name, io));
    VolumeIdRoundTrip(source.fsid, source.host, clusterId, name);
    CallTouchesOwnDirectory(site, clusterId, h, CreateCall(name, io));
    OthersKeepDirectory(site, clusterId, h1, between, name);
    IdSpelledOut(source.fsid, source.host, clusterId, name);
  }

  lemma IdSpelledOut(fsid: string, host: string, cluster: string, name: string)
    ensures PrintVolumeId(fsid, host, cluster, name) == fsid + "-" + host + "-/" + cluster + "/" + name
  {
    assert "-" + ("/" + cluster + "/" + name) == "-/" + cluster + "/" + name;
    assert fsid + "-" + host + "-" + ("/" + cluster + "/" + name) == fsid + "-" + host + "-/" + cluster + "/" + name;
  }

  /** A call succeeds exactly when its arguments are complete and every operation it comes to succeeds. */
  lemma CreateSucceedsIff(w: World, clusterId: string, name: string, fsid: string, host: string, io: Io)
    ensures var (w', r) := Create(w, clusterId, name, fsid, host, io);
            && (r.Created? <==>
                && name != "" && fsid != "" && host != "" && clusterId != ""
                && io.probe && (("/tmp/" + name) in w.mounts || io.mount == Done)
                && io.change == Done && io.unmount == Done)
            && (r.Created? ==> ("/tmp/" + name) !in w'.mounts)
  {
  }

  lemma DeleteSucceedsIff(w: World, clusterId: string, volumeId: string, io: Io)
    ensures var r := Delete(w, clusterId, volumeId, io).1;
            r.Deleted? <==>
            && volumeId != "" && ParseVolumeId(volumeId).Parsed?
            && ParseVolumeId(volumeId).fsid != "" && ParseVolumeId(volumeId).host != ""
            && ParseVolumeId(volumeId).pvName != ""
            && io.probe && (("/tmp/" + ParseVolumeId(volumeId).pvName) in w.mounts || io.mount == Done)
            && io.change == Done && io.unmount == Done
  {
  }

  /** Without the naming rule it fails: a file system left mounted at the temporary path by a failed
      unmount receives the directory of the next volume of that name. */
  lemma LeftoverMountTakesTheDirectory(w: World, clusterId: string, name: string, fsid: string, host: string, io: Io)
    requires Create(w, clusterId, name, fsid, host, io).1.Created?
    requires Directory(Source(host, fsid), clusterId, name) !in w.dirs
    ensures Directory(Source(host, fsid), clusterId, name) in Create(w, clusterId, name, fsid, host, io).0.dirs <==>
            (Path(name) in w.mounts ==> w.mounts[Path(name)] == Source(host, fsid))
  {
  }
}
