/** Rebuilding the snapshot cache from the persistent store at start-up. The cache holds references to
    records, and the driver decodes every stored entry into one and the same record. */
module SnapshotLoad {
  import opened Strings
  import opened Snapshots

  class Record {
    var value: Snapshot

    constructor (value: Snapshot)
      ensures this.value == value
    {
      this.value := value;
    }
  }

  /** The unanchored pattern `snap-(.*)` that selects the entries to load. */
  predicate Matches(id: Id) {
    Contains(id, "snap-")
  }

  lemma MatchesIff(id: Id)
    ensures Matches(id) <==> exists a, b :: id == a + "snap-" + b
  {
    if Matches(id) {
      var i :| 0 <= i <= |id| && "snap-" <= id[i..];
      assert id == id[..i] + "snap-" + id[i + 5..];
    }
    if a, b :| id == a + "snap-" + b {
      assert "snap-" <= id[|a|..];
    }
  }

  function Matching(store: map<Id, Snapshot>): set<Id> {
    set id | id in store && Matches(id)
  }

  const EMPTY := Snapshot("", "", "", 0, 0)

  /** What a cache of references shows to its readers. */
  ghost predicate Shows(cache: map<Id, Record>, content: map<Id, Snapshot>)
    reads cache.Values
  {
    cache.Keys == content.Keys && forall id :: id in cache ==> cache[id].value == content[id]
  }

  /** What the load is for: exactly the matching entries of the store. */
  function Wanted(store: map<Id, Snapshot>): map<Id, Snapshot> {
    map id | id in Matching(store) :: store[id]
  }

  /** What it gives when every entry refers to the record that `last` was decoded into. */
  function Aliased(store: map<Id, Snapshot>, last: Id): map<Id, Snapshot>
    requires last in store || Matching(store) == {}
  {
    map id | id in Matching(store) :: store[last]
  }

  /** `ForAll`'s selection of the entries to decode, in no particular order. */
  method Select(store: map<Id, Snapshot>) returns (ids: seq<Id>)
    ensures forall id :: id in ids <==> id in Matching(store)
  {
    ids := [];
    var pending := store.Keys;
    while pending != {}
      invariant pending <= store.Keys
      invariant forall id :: id in ids <==> id in Matching(store) && id !in pending
      decreases |pending|
    {
      var id :| id in pending;
      var matches := Matches(id);
      if matches {
        ids := ids + [id];
      }
      pending := pending - {id};
    }
  }

  /** The driver's load: `ForAll` decodes each matching entry into the record it was given, and the callback
      caches that record. A failed listing is ignored. */
  method LoadShared(store: map<Id, Snapshot>, listed: bool) returns (cache: map<Id, Record>, ghost last: Id)
    ensures last in Matching(store) || Matching(store) == {} || !listed
    ensures listed ==> Shows(cache, Aliased(store, last))
    ensures !listed ==> cache == map[]
    ensures forall id :: id in cache ==> fresh(cache[id])
  {
    cache, last := map[], "";
    if !listed {
      return;
    }
    var snap := new Record(EMPTY);
    var ids := Select(store);
    for i := 0 to |ids|
      invariant forall id :: id in cache <==> id in ids[..i]
      invariant forall id :: id in cache ==> cache[id] == snap
      invariant i > 0 ==> last in Matching(store) && snap.value == store[last]
    {
      assert ids[i] in Matching(store);
      snap.value := store[ids[i]];
      cache := cache[ids[i] := snap];
      last := ids[i];
    }
    assert ids[..|ids|] == ids;
    if |ids| > 0 {
      assert ids[0] in Matching(store);
    }
  }

  /** The same load with a record of its own for every entry. */
  method LoadFresh(store: map<Id, Snapshot>, listed: bool) returns (cache: map<Id, Record>)
    ensures listed ==> Shows(cache, Wanted(store))
    ensures !listed ==> cache == map[]
    ensures forall id :: id in cache ==> fresh(cache[id])
  {
    cache := map[];
    if !listed {
      return;
    }
    var ids := Select(store);
    for i := 0 to |ids|
      invariant forall id :: id in cache <==> id in ids[..i]
      invariant forall id :: id in cache ==> id in store && fresh(cache[id]) && cache[id].value == store[id]
    {
      assert ids[i] in Matching(store);
      var snap := new Record(EMPTY);
      snap.value := store[ids[i]];
      cache := cache[ids[i] := snap];
    }
    assert ids[..|ids|] == ids;
  }

  /** Stored entries carry their own id, as every entry written by CreateSnapshot does. */
  predicate WellKeyed(store: map<Id, Snapshot>) {
    forall id :: id in store ==> store[id].id == id
  }

  lemma AtMostOne(ids: set<Id>, last: Id)
    requires last in ids
    ensures |ids| <= 1 <==> ids == {last}
  {
    if ids != {last} {
      assert ids == {last} + (ids - {last});
      assert |ids - {last}| > 0;
    }
  }

  /** The driver's load rebuilds the cache exactly when at most one stored entry matches; and only then is
      every cache entry keyed by its own id, on which the lookup by name rests. */
  lemma SharedLoadAgreesIff(store: map<Id, Snapshot>, last: Id)
    requires WellKeyed(store)
    requires last in Matching(store) || Matching(store) == {}
    ensures Aliased(store, last) == Wanted(store) <==> |Matching(store)| <= 1
    ensures (forall id :: id in Aliased(store, last) ==> Aliased(store, last)[id].id == id) <==> |Matching(store)| <= 1
  {
    if last in Matching(store) {
      AtMostOne(Matching(store), last);
      if |Matching(store)| > 1 {
        assert Matching(store) - {last} == {} ==> Matching(store) == {last};
        var other :| other in Matching(store) - {last};
        assert Aliased(store, last)[other].id == last;
        assert Wanted(store)[other].id == other;
      }
    }
  }

  /** Main result: a restart after any run of the driver, earlier panics and restarts included. With one record per
      entry the new cache shows exactly what is stored; with the driver's shared record it does so exactly when at
      most one entry matches. */
  lemma RestartRebuildsCacheIff(events: seq<Event>, last: Id)
    requires PossibleRun(START, events)
    requires var store := Run(START, events).w.store; last in Matching(store) || Matching(store) == {}
    ensures var store := Run(START, events).w.store;
            && (forall id :: id in Wanted(store) ==> Wanted(store)[id].id == id)
            && (Aliased(store, last) == Wanted(store) <==> |Matching(store)| <= 1)
  {
    DurableRun(START, events);
    SharedLoadAgreesIff(Run(START, events).w.store, last);
  }

  /** Both loads are restarts in the sense of SnapshotsSurviveRestarts. */
  lemma LoadsArePossible(w: World, last: Id)
    requires last in Matching(w.store) || Matching(w.store) == {}
    ensures Possible(w, Restart(Aliased(w.store, last))) && Possible(w, Restart(Wanted(w.store)))
  {
    forall id | id in Matching(w.store) ensures w.store[last] in w.store.Values && w.store[id] in w.store.Values {
    }
  }
}
