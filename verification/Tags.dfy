/** Synchronising the cluster's tags to its disks: the diff against the tags saved after the last complete
    round, its application to each disk, and convergence over rounds that may fail in part. */
module Tags {

  type TagMap = map<string, string>
  type Disk = string

  // ----- The diff

  /** Keys to write: new in the cluster's tags, or saved with another value. */
  function ToReplace(cluster: TagMap, saved: TagMap): TagMap {
    map k | k in cluster && (k !in saved || saved[k] != cluster[k]) :: cluster[k]
  }

  /** Keys to remove: saved, but no longer among the cluster's tags. */
  function ToDelete(cluster: TagMap, saved: TagMap): TagMap {
    map k | k in saved && k !in cluster :: saved[k]
  }

  method CompareTags(cluster: TagMap, saved: TagMap) returns (replace: TagMap, delete: TagMap)
    ensures replace == ToReplace(cluster, saved) && delete == ToDelete(cluster, saved)
  {
    replace, delete := map[], map[];
    var keys := cluster.Keys;
    while keys != {}
      invariant keys <= cluster.Keys
      invariant forall k :: k in replace <==> k in cluster && k !in keys && (k !in saved || saved[k] != cluster[k])
      invariant forall k :: k in replace ==> replace[k] == cluster[k]
      decreases |keys|
    {
      var k :| k in keys;
      if k !in saved {
        replace := replace[k := cluster[k]];
      } else if saved[k] != cluster[k] {
        replace := replace[k := cluster[k]];
      }
      keys := keys - {k};
    }
    keys := saved.Keys;
    while keys != {}
      invariant keys <= saved.Keys
      invariant forall k :: k in delete <==> k in saved && k !in keys && k !in cluster
      invariant forall k :: k in delete ==> delete[k] == saved[k]
      decreases |keys|
    {
      var k :| k in keys;
      if k !in cluster {
        delete := delete[k := saved[k]];
      }
      keys := keys - {k};
    }
  }

  /** `ModifyResourceTags`: one request that replaces tags and deletes keys. */
  function Modify(disk: TagMap, replace: TagMap, delete: TagMap): TagMap {
    (disk - delete.Keys) + replace
  }

  predicate Agrees(disk: TagMap, tags: TagMap) {
    forall k :: k in tags ==> k in disk && disk[k] == tags[k]
  }

  /** What a disk should end up with: the cluster's tags, none of the dropped ones, the rest untouched. */
  function Target(disk: TagMap, cluster: TagMap, saved: TagMap): TagMap {
    (disk - (saved.Keys - cluster.Keys)) + cluster
  }

  /** The diff is empty exactly when nothing changed. */
  lemma DiffEmptyIffEqual(cluster: TagMap, saved: TagMap)
    ensures |ToReplace(cluster, saved)| == 0 && |ToDelete(cluster, saved)| == 0 <==> cluster == saved
  {
    if ToReplace(cluster, saved) == map[] && ToDelete(cluster, saved) == map[] {
      forall k | k in cluster.Keys + saved.Keys ensures k in cluster && k in saved && cluster[k] == saved[k] {
        assert k !in ToReplace(cluster, saved) && k !in ToDelete(cluster, saved);
      }
      assert cluster.Keys == saved.Keys;
    }
  }

  /** The diff is exact: it turns the saved tags into the cluster's tags, and only touches keys that differ. */
  lemma DiffIsExact(cluster: TagMap, saved: TagMap)
    ensures Modify(saved, ToReplace(cluster, saved), ToDelete(cluster, saved)) == cluster
    ensures ToReplace(cluster, saved).Keys !! ToDelete(cluster, saved).Keys
    ensures forall k :: k in cluster && k in saved && cluster[k] == saved[k] ==>
              k !in ToReplace(cluster, saved) && k !in ToDelete(cluster, saved)
  {
  }

  /** What a round's request makes of a disk's tags. */
  function Synced(disk: TagMap, cluster: TagMap, saved: TagMap): TagMap {
    Modify(disk, ToReplace(cluster, saved), ToDelete(cluster, saved))
  }

  /** The disk already has the cluster's tags that have not changed since they were saved. */
  predicate Ready(disk: TagMap, cluster: TagMap, saved: TagMap) {
    forall k :: k in cluster && k in saved && cluster[k] == saved[k] ==> k in disk && disk[k] == cluster[k]
  }

  lemma SyncedIsTargetIffReady(disk: TagMap, cluster: TagMap, saved: TagMap)
    ensures Synced(disk, cluster, saved) == Target(disk, cluster, saved) <==> Ready(disk, cluster, saved)
  {
    var r, target := Synced(disk, cluster, saved), Target(disk, cluster, saved);
    if Ready(disk, cluster, saved) {
      assert r.Keys == target.Keys;
    } else {
      var k :| k in cluster && k in saved && cluster[k] == saved[k] && !(k in disk && disk[k] == cluster[k]);
      assert k in target && target[k] == cluster[k];
      assert k in r ==> k in disk && r[k] == disk[k];
    }
  }

  lemma SyncedIsIdempotent(disk: TagMap, cluster: TagMap, saved: TagMap)
    ensures var r := Synced(disk, cluster, saved); Synced(r, cluster, saved) == r
  {
  }

  lemma SyncedAgreesIffReady(disk: TagMap, cluster: TagMap, saved: TagMap)
    ensures Agrees(Synced(disk, cluster, saved), cluster) <==> Ready(disk, cluster, saved)
  {
  }

  /** The diff takes exactly the ready disks to the target, and only they get all of the cluster's tags; on every
      disk it removes what was dropped and leaves what is unrelated, and applying it again changes nothing. */
  lemma DiffReachesTarget(disk: TagMap, cluster: TagMap, saved: TagMap)
    ensures var r := Synced(disk, cluster, saved);
            && (r == Target(disk, cluster, saved) <==> Ready(disk, cluster, saved))
            && (Agrees(r, cluster) <==> Ready(disk, cluster, saved))
            && (forall k :: k in saved && k !in cluster ==> k !in r)
            && (forall k :: k !in saved && k !in cluster ==> SameAt(r, disk, k))
            && Synced(r, cluster, saved) == r
    ensures Agrees(disk, saved) || Agrees(disk, cluster) ==> Ready(disk, cluster, saved)
  {
    SyncedIsTargetIffReady(disk, cluster, saved);
    SyncedAgreesIffReady(disk, cluster, saved);
    SyncedIsIdempotent(disk, cluster, saved);
  }

  predicate SameAt(a: TagMap, b: TagMap, k: string) {
    (k in a <==> k in b) && (k in a ==> a[k] == b[k])
  }

  // ----- Rounds

  /** One disk's request in a round: whether the cloud applied it, and whether the driver got an error back.
      A request without an error was applied; one with an error may have been. */
  datatype Attempt = Attempt(disk: Disk, applied: bool, error: bool) {
    predicate Possible() { applied || error }
  }

  type Fleet = map<Disk, TagMap>

  function Apply(fleet: Fleet, a: Attempt, replace: TagMap, delete: TagMap): Fleet {
    if a.applied && a.disk in fleet then fleet[a.disk := Modify(fleet[a.disk], replace, delete)] else fleet
  }

  function ApplyAll(fleet: Fleet, log: seq<Attempt>, replace: TagMap, delete: TagMap): (r: Fleet)
    ensures r.Keys == fleet.Keys
  {
    if log == [] then fleet else ApplyAll(Apply(fleet, log[0], replace, delete), log[1..], replace, delete)
  }

  predicate NoErrors(log: seq<Attempt>) {
    forall i :: 0 <= i < |log| ==> !log[i].error
  }

  datatype Sync = Sync(fleet: Fleet, saved: TagMap)

  /** The answers to a round's own operations besides the tag requests: the cluster's tags and the saved tags
      could be read, the disks and the owner's account id were found, the saved tags could be written. */
  datatype RoundIo = RoundIo(read: bool, disks: bool, write: bool)

  /** A round of UpdateDisksTags; `log` is what the worker pool did, in the order it happened to do it. */
  function Round(s: Sync, cluster: TagMap, log: seq<Attempt>, io: RoundIo): (r: (Sync, bool)) {
    if !io.read then (s, false)
    else if cluster == s.saved then (s, true)
    else if !io.disks then (s, false)
    else
      var fleet := ApplyAll(s.fleet, log, ToReplace(cluster, s.saved), ToDelete(cluster, s.saved));
      if NoErrors(log) && io.write then (Sync(fleet, cluster), true) else (s.(fleet := fleet), false)
  }

  /** What a pool run over the volume's disks yields: every disk attempted exactly once. */
  predicate Complete(log: seq<Attempt>, disks: set<Disk>) {
    && (forall i :: 0 <= i < |log| ==> log[i].Possible() && log[i].disk in disks)
    && (forall d :: d in disks ==> exists i :: 0 <= i < |log| && log[i].disk == d)
  }

  /** Between rounds CreateVolume adds disks; it gives them the cluster's tags only if it could query them. */
  datatype Event =
    | UpdateDisksTags(cluster: TagMap, log: seq<Attempt>, io: RoundIo)
    | CreateDisk(disk: Disk, tags: TagMap)

  ghost predicate Legal(s: Sync, e: Event) {
    match e
    case UpdateDisksTags(_, log, _) => Complete(log, s.fleet.Keys)
    case CreateDisk(d, _) => d !in s.fleet
  }

  function Step(s: Sync, e: Event): (r: (Sync, bool)) {
    match e
    case UpdateDisksTags(cluster, log, io) => Round(s, cluster, log, io)
    case CreateDisk(d, tags) => (s.(fleet := s.fleet[d := tags]), true)
  }

  /** The driver's own code, over the persisted tags and the disks' tags in the cloud. */
  class Synchroniser {
    var fleet: Fleet
    var saved: TagMap

    constructor (fleet: Fleet)
      ensures this.fleet == fleet && saved == map[]
    {
      this.fleet, saved := fleet, map[];
    }

    method ModifyCbsTags(a: Attempt, replace: TagMap, delete: TagMap) returns (ok: bool)
      modifies this`fleet
      ensures ok == !a.error && fleet == Apply(old(fleet), a, replace, delete)
    {
      if a.applied && a.disk in fleet {
        fleet := fleet[a.disk := Modify(fleet[a.disk], replace, delete)];
      }
      return !a.error;
    }

    /** The worker pool, with its requests in the order of `log`. */
    method UpdateAll(log: seq<Attempt>, replace: TagMap, delete: TagMap) returns (ok: bool)
      modifies this`fleet
      ensures ok == NoErrors(log) && fleet == ApplyAll(old(fleet), log, replace, delete)
    {
      ok := true;
      for i := 0 to |log|
        invariant ok == NoErrors(log[..i])
        invariant ApplyAll(fleet, log[i..], replace, delete) == ApplyAll(old(fleet), log, replace, delete)
      {
        var done := ModifyCbsTags(log[i], replace, delete);
        assert log[i..][1..] == log[i + 1..];
        assert log[..i + 1] == log[..i] + [log[i]];
        assert NoErrors(log[..i + 1]) <==> NoErrors(log[..i]) && !log[i].error by {
          if NoErrors(log[..i + 1]) {
            assert forall j :: 0 <= j < i ==> log[..i][j] == log[..i + 1][j];
            assert log[..i + 1][i] == log[i];
          }
        }
        ok := ok && done;
      }
      assert log[..|log|] == log;
    }

    method UpdateDisksTags(cluster: TagMap, log: seq<Attempt>, io: RoundIo) returns (ok: bool)
      modifies this
      ensures (Sync(fleet, saved), ok) == Round(old(Sync(fleet, saved)), cluster, log, io)
    {
      if !io.read {
        return false;
      }
      var replace, delete := CompareTags(cluster, saved);
      DiffEmptyIffEqual(cluster, saved);
      if |replace| != 0 || |delete| != 0 {
        if !io.disks {
          return false;
        }
        ok := UpdateAll(log, replace, delete);
        if !ok || !io.write {
          return false;
        }
        saved := cluster;
      }
      return true;
    }
  }

  // ----- What failing rounds do to one disk

  predicate Reached(log: seq<Attempt>, d: Disk) {
    exists i :: 0 <= i < |log| && log[i].disk == d && log[i].applied
  }

  /** A round reaches a disk when it gets as far as the requests and the cloud applies one to that disk. */
  predicate Reaches(s: Sync, e: Event, d: Disk) {
    e.UpdateDisksTags? && e.io.read && e.cluster != s.saved && e.io.disks && d in s.fleet && Reached(e.log, d)
  }

  lemma {:induction false} ApplyAllAt(fleet: Fleet, log: seq<Attempt>, cluster: TagMap, saved: TagMap, d: Disk)
    requires d in fleet
    ensures ApplyAll(fleet, log, ToReplace(cluster, saved), ToDelete(cluster, saved))[d] ==
            if Reached(log, d) then Synced(fleet[d], cluster, saved) else fleet[d]
  {
    if log != [] {
      var fleet' := Apply(fleet, log[0], ToReplace(cluster, saved), ToDelete(cluster, saved));
      ApplyAllAt(fleet', log[1..], cluster, saved, d);
      DiffReachesTarget(fleet[d], cluster, saved);
      assert Reached(log, d) <==> (log[0].disk == d && log[0].applied) || Reached(log[1..], d) by {
        if Reached(log, d) && !(log[0].disk == d && log[0].applied) {
          var i :| 0 <= i < |log| && log[i].disk == d && log[i].applied;
          assert log[1..][i - 1] == log[i];
        }
      }
    }
  }

  ghost predicate FailingRounds(s: Sync, events: seq<Event>)
    decreases |events|
  {
    events != [] ==>
      && Legal(s, events[0])
      && (events[0].UpdateDisksTags? ==> !Step(s, events[0]).1)
      && FailingRounds(Step(s, events[0]).0, events[1..])
  }

  function Run(s: Sync, events: seq<Event>): Sync
    decreases |events|
  {
    if events == [] then s else Run(Step(s, events[0]).0, events[1..])
  }

  /** A disk's tags when the first of the rounds began, or when it was created. */
  function Origin(s: Sync, events: seq<Event>, d: Disk): TagMap
    decreases |events|
  {
    if d in s.fleet then s.fleet[d] else if events == [] then map[] else Origin(Step(s, events[0]).0, events[1..], d)
  }

  /** The cluster's tags at each of the rounds that reached the disk. */
  function Changes(s: Sync, events: seq<Event>, d: Disk): seq<TagMap>
    decreases |events|
  {
    if events == [] then []
    else (if Reaches(s, events[0], d) then [events[0].cluster] else []) + Changes(Step(s, events[0]).0, events[1..], d)
  }

  /** The requests of several rounds against the same saved tags, one after the other. */
  function After(disk: TagMap, changes: seq<TagMap>, saved: TagMap): TagMap
    decreases |changes|
  {
    if changes == [] then disk else After(Synced(disk, changes[0], saved), changes[1..], saved)
  }

  lemma FailedStep(s: Sync, e: Event, d: Disk)
    requires Legal(s, e) && (e.UpdateDisksTags? ==> !Step(s, e).1)
    ensures var s' := Step(s, e).0;
            && s'.saved == s.saved && s.fleet.Keys <= s'.fleet.Keys
            && (d in s.fleet ==>
                  s'.fleet[d] == if Reaches(s, e, d) then Synced(s.fleet[d], e.cluster, s.saved) else s.fleet[d])
  {
    if e.UpdateDisksTags? && d in s.fleet {
      ApplyAllAt(s.fleet, e.log, e.cluster, s.saved, d);
    }
  }

  /** Through failing rounds, whatever the cluster's tags at each, the saved tags stay and a disk is where the rounds
      that reached it took it. */
  lemma {:induction false} FailingRoundsApply(s: Sync, events: seq<Event>, d: Disk)
    requires FailingRounds(s, events)
    ensures var s' := Run(s, events);
            && s'.saved == s.saved && s.fleet.Keys <= s'.fleet.Keys
            && (d in s'.fleet ==> s'.fleet[d] == After(Origin(s, events, d), Changes(s, events, d), s.saved))
    decreases |events|
  {
    if events != [] {
      FailedStep(s, events[0], d);
      FailingRoundsApply(Step(s, events[0]).0, events[1..], d);
      var s1 := Step(s, events[0]).0;
      var rest := Changes(s1, events[1..], d);
      assert [] + rest == rest;
      assert d in s1.fleet && d in s.fleet ==> Origin(s1, events[1..], d) == s1.fleet[d];
      if Reaches(s, events[0], d) {
        assert ([events[0].cluster] + rest)[1..] == rest;
      }
    }
  }

  predicate Touches(cluster: TagMap, saved: TagMap, k: string) {
    k in ToReplace(cluster, saved) || k in ToDelete(cluster, saved)
  }

  datatype Touch = Untouched | TouchedBy(cluster: TagMap)

  /** The last of several rounds whose diff touched a key. */
  function LastTouch(changes: seq<TagMap>, saved: TagMap, k: string): Touch
    decreases |changes|
  {
    if changes == [] then Untouched
    else
      match LastTouch(changes[1..], saved, k)
      case TouchedBy(c) => TouchedBy(c)
      case Untouched => if Touches(changes[0], saved, k) then TouchedBy(changes[0]) else Untouched
  }

  /** A disk has at each key what the last round that touched it left there. */
  lemma {:induction false} AfterAt(disk: TagMap, changes: seq<TagMap>, saved: TagMap, k: string)
    ensures match LastTouch(changes, saved, k)
            case Untouched => SameAt(After(disk, changes, saved), disk, k)
            case TouchedBy(c) =>
              c in changes && Touches(c, saved, k) && SameAt(After(disk, changes, saved), c, k)
    decreases |changes|
  {
    if changes != [] {
      AfterAt(Synced(disk, changes[0], saved), changes[1..], saved, k);
      assert changes == [changes[0]] + changes[1..];
    }
  }

  // ----- Convergence

  /** The disk that rounds with these diffs have reached is put right by a round against `now`: where its diff leaves a
      tag alone, the tag is one of the cluster's and was there all along, or it is none of them and the last
      round to touch it wrote what the disk had anyway. */
  ghost predicate PutRight(origin: TagMap, changes: seq<TagMap>, saved: TagMap, now: TagMap) {
    forall k :: !Touches(now, saved, k) ==>
      match LastTouch(changes, saved, k)
      case Untouched => k in now ==> SameAt(origin, now, k)
      case TouchedBy(c) => k !in saved && SameAt(origin, c, k)
  }

  lemma PutRightIff(origin: TagMap, changes: seq<TagMap>, saved: TagMap, now: TagMap)
    ensures Synced(After(origin, changes, saved), now, saved) == Target(origin, now, saved) <==>
            PutRight(origin, changes, saved, now)
  {
    var disk := After(origin, changes, saved);
    var got, want := Synced(disk, now, saved), Target(origin, now, saved);
    forall k
      ensures SameAt(got, want, k) <==>
              Touches(now, saved, k) ||
              match LastTouch(changes, saved, k)
              case Untouched => k in now ==> SameAt(origin, now, k)
              case TouchedBy(c) => k !in saved && SameAt(origin, c, k)
    {
      AfterAt(origin, changes, saved, k);
    }
    if forall k :: SameAt(got, want, k) {
      SameEverywhere(got, want);
    }
    if got == want {
      assert forall k :: SameAt(got, want, k);
    }
  }

  lemma SameEverywhere(a: TagMap, b: TagMap)
    requires forall k :: SameAt(a, b, k)
    ensures a == b
  {
    forall k ensures (k in a <==> k in b) && (k in a ==> a[k] == b[k]) {
      assert SameAt(a, b, k);
    }
    assert a.Keys == b.Keys;
  }

  /** A round that succeeds reaches every disk, unless there is nothing to do. */
  lemma SuccessReachesAll(s: Sync, cluster: TagMap, log: seq<Attempt>, io: RoundIo, d: Disk)
    requires Complete(log, s.fleet.Keys) && Round(s, cluster, log, io).1 && d in s.fleet
    ensures var s' := Round(s, cluster, log, io).0;
            && s'.saved == cluster && s'.fleet.Keys == s.fleet.Keys
            && s'.fleet[d] == Synced(s.fleet[d], cluster, s.saved)
  {
    if cluster != s.saved {
      ApplyAllAt(s.fleet, log, cluster, s.saved, d);
      var i :| 0 <= i < |log| && log[i].disk == d;
      assert log[i].Possible() && log[i].applied;
    }
  }

  /** Main result 1. Any number of rounds that fail in any way, against cluster tags that may change from one to the
      next, with disks created in between, followed by one that succeeds: the saved tags are the cluster's, and a disk
      is exactly at its target if and only if the last round puts it right. */
  lemma ChangingTagsConverge(s: Sync, events: seq<Event>, now: TagMap, log: seq<Attempt>, io: RoundIo, d: Disk)
    requires FailingRounds(s, events)
    requires Complete(log, Run(s, events).fleet.Keys) && d in Run(s, events).fleet
    requires Round(Run(s, events), now, log, io).1
    ensures var done := Round(Run(s, events), now, log, io).0;
            var origin := Origin(s, events, d);
            && done.saved == now && done.fleet.Keys == Run(s, events).fleet.Keys
            && (done.fleet[d] == Target(origin, now, s.saved) <==>
                PutRight(origin, Changes(s, events, d), s.saved, now))
  {
    FailingRoundsApply(s, events, d);
    SuccessReachesAll(Run(s, events), now, log, io, d);
    PutRightIff(Origin(s, events, d), Changes(s, events, d), s.saved, now);
  }

  predicate Against(events: seq<Event>, cluster: TagMap) {
    forall e :: e in events && e.UpdateDisksTags? ==> e.cluster == cluster
  }

  lemma {:induction false} OneChange(s: Sync, events: seq<Event>, d: Disk, cluster: TagMap)
    requires Against(events, cluster)
    ensures forall c :: c in Changes(s, events, d) ==> c == cluster
    decreases |events|
  {
    if events != [] {
      assert events == [events[0]] + events[1..];
      OneChange(Step(s, events[0]).0, events[1..], d, cluster);
    }
  }

  lemma {:induction false} AfterOneChange(disk: TagMap, changes: seq<TagMap>, cluster: TagMap, saved: TagMap)
    requires forall c :: c in changes ==> c == cluster
    ensures Synced(After(disk, changes, saved), cluster, saved) == Synced(disk, cluster, saved)
    decreases |changes|
  {
    if changes != [] {
      assert changes[0] in changes && forall c :: c in changes[1..] ==> c in changes;
      AfterOneChange(Synced(disk, cluster, saved), changes[1..], cluster, saved);
      DiffReachesTarget(disk, cluster, saved);
    }
  }

  /** Main result 2. When all the rounds are against the same cluster tags, every disk ends without the dropped tags
      and with its unrelated tags as they were; and it ends with all of the cluster's tags, exactly at its target, if
      and only if at its origin it had those of them that the saved tags already had. */
  lemma TagsConverge(s: Sync, events: seq<Event>, cluster: TagMap, log: seq<Attempt>, io: RoundIo)
    requires FailingRounds(s, events) && Against(events, cluster)
    requires Complete(log, Run(s, events).fleet.Keys)
    requires Round(Run(s, events), cluster, log, io).1
    ensures var done := Round(Run(s, events), cluster, log, io).0;
            && done.saved == cluster
            && done.fleet.Keys == Run(s, events).fleet.Keys
            && forall d :: d in done.fleet ==> Converged(done.fleet[d], Origin(s, events, d), cluster, s.saved)
  {
    var s' := Run(s, events);
    var (done, _) := Round(s', cluster, log, io);
    FailingRoundsApply(s, events, "");
    forall d | d in s'.fleet ensures Converged(done.fleet[d], Origin(s, events, d), cluster, s.saved) {
      FailingRoundsApply(s, events, d);
      SuccessReachesAll(s', cluster, log, io, d);
      OneChange(s, events, d, cluster);
      AfterOneChange(Origin(s, events, d), Changes(s, events, d), cluster, s.saved);
      DiffReachesTarget(Origin(s, events, d), cluster, s.saved);
    }
  }

  ghost predicate Converged(disk: TagMap, origin: TagMap, cluster: TagMap, saved: TagMap) {
    && (disk == Target(origin, cluster, saved) <==> Ready(origin, cluster, saved))
    && (Agrees(disk, cluster) <==> Ready(origin, cluster, saved))
    && (forall k :: k in saved && k !in cluster ==> k !in disk)
    && (forall k :: k !in saved && k !in cluster ==> SameAt(disk, origin, k))
  }

  /** So a disk created while the cluster's tags could not be queried stays without those that were saved before,
      through the next successful round and for as long as the cluster's tags stay: rounds have nothing to do. */
  lemma UnqueriedDiskStaysBehind(s: Sync, d: Disk, tags: TagMap, cluster: TagMap, log: seq<Attempt>, io: RoundIo,
                                 more: seq<Event>)
    requires d !in s.fleet && !Ready(tags, cluster, s.saved)
    requires Complete(log, s.fleet.Keys + {d})
    requires Round(Step(s, CreateDisk(d, tags)).0, cluster, log, io).1
    requires Against(more, cluster) && forall e :: e in more ==> e.UpdateDisksTags?
    ensures var done := Round(Step(s, CreateDisk(d, tags)).0, cluster, log, io).0;
            && done.saved == cluster && d in done.fleet && !Agrees(done.fleet[d], cluster)
            && Run(done, more) == done
  {
    var events := [CreateDisk(d, tags)];
    var s1 := Step(s, events[0]).0;
    assert events[1..] == [] && Run(s1, []) == s1 && FailingRounds(s1, []);
    assert Run(s, events) == s1 && FailingRounds(s, events) && Origin(s, events, d) == tags;
    TagsConverge(s, events, cluster, log, io);
    NothingToDo(Round(s1, cluster, log, io).0, more);
  }

  lemma {:induction false} NothingToDo(s: Sync, events: seq<Event>)
    requires Against(events, s.saved) && forall e :: e in events ==> e.UpdateDisksTags?
    ensures Run(s, events) == s
    decreases |events|
  {
    if events != [] {
      assert events == [events[0]] + events[1..];
      NothingToDo(s, events[1..]);
    }
  }
}
