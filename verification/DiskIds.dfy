/** The CBS volume id: the ids of the volume's disks joined with commas. */
module DiskIds {
  import opened Strings

  const PREFIX := "disk-"

  predicate IsDiskId(id: string) {
    HasPrefix(id, PREFIX) && Free(id, ',')
  }

  /** The parts of a volume id that name disks, in order. */
  function DisksAmong(parts: seq<string>): (ids: seq<string>) {
    if |parts| == 0 then []
    else (if HasPrefix(parts[0], PREFIX) then [parts[0]] else []) + DisksAmong(parts[1..])
  }

  function DisksOf(volumeId: string): (ids: seq<string>) {
    DisksAmong(Split(volumeId, ','))
  }

  /** How CreateVolume prints the volume id: a comma after every disk but the last. */
  method JoinDiskIds(ids: seq<string>) returns (volumeId: string)
    ensures volumeId == Join(ids, ',')
  {
    volumeId := "";
    for idx := 0 to |ids|
      invariant volumeId + Join(ids[idx..], ',') == Join(ids, ',')
    {
      assert ids[idx..][1..] == ids[idx + 1..];
      if idx == |ids| - 1 {
        volumeId := volumeId + ids[idx];
      } else {
        volumeId := volumeId + ids[idx] + ",";
      }
    }
  }

  /** How every controller call takes the volume id apart again. */
  method SplitDiskIds(volumeId: string) returns (ids: seq<string>)
    ensures ids == DisksOf(volumeId)
  {
    ids := [];
    var parts := Split(volumeId, ',');
    for n := 0 to |parts|
      invariant ids + DisksAmong(parts[n..]) == DisksAmong(parts)
    {
      assert parts[n..][1..] == parts[n + 1..];
      if HasPrefix(parts[n], PREFIX) {
        ids := ids + [parts[n]];
      }
    }
  }

  lemma {:induction false} DisksAmongKeepsDisks(parts: seq<string>)
    ensures forall id :: id in DisksAmong(parts) ==> id in parts && HasPrefix(id, PREFIX)
    ensures |DisksAmong(parts)| <= |parts|
    ensures DisksAmong(parts) == parts <==> forall p :: p in parts ==> HasPrefix(p, PREFIX)
  {
    if |parts| > 0 {
      DisksAmongKeepsDisks(parts[1..]);
      assert parts == [parts[0]] + parts[1..];
      if HasPrefix(parts[0], PREFIX) {
        assert DisksAmong(parts) == parts <==> DisksAmong(parts[1..]) == parts[1..];
      }
    }
  }

  /** Whatever the string, what it is taken apart into are disk ids. */
  lemma DisksOfAreDiskIds(volumeId: string)
    ensures forall id :: id in DisksOf(volumeId) ==> IsDiskId(id)
  {
    SplitPartsFree(volumeId, ',');
    DisksAmongKeepsDisks(Split(volumeId, ','));
  }

  /** A printed list of disks is read back unchanged exactly when every entry is a comma-free `disk-` id. */
  lemma VolumeIdRoundTrip(ids: seq<string>)
    ensures DisksOf(Join(ids, ',')) == ids <==> forall id :: id in ids ==> "disk-" <= id && ',' !in id
  {
    DisksOfAreDiskIds(Join(ids, ','));
    if forall id :: id in ids ==> IsDiskId(id) {
      if |ids| == 0 {
        assert Split("", ',') == [""];
        assert DisksAmong([""]) == [];
      } else {
        SplitJoin(ids, ',');
        DisksAmongKeepsDisks(ids);
      }
    }
  }

  /** Distinct lists of disks get distinct volume ids. */
  lemma VolumeIdInjective(ids: seq<string>, ids': seq<string>)
    requires (forall id :: id in ids ==> IsDiskId(id)) && (forall id :: id in ids' ==> IsDiskId(id))
    requires Join(ids, ',') == Join(ids', ',')
    ensures ids == ids'
  {
    VolumeIdRoundTrip(ids);
    VolumeIdRoundTrip(ids');
  }

  /** The comma the node side tests for is there exactly when the volume has two or more disks. */
  lemma CommaMeansSeveralDisks(ids: seq<string>)
    requires |ids| >= 1
    requires forall id :: id in ids ==> IsDiskId(id)
    ensures Contains(Join(ids, ','), ",") <==> |ids| >= 2
    ensures |Split(Join(ids, ','), ',')| == |ids|
  {
    SplitJoin(ids, ',');
    SplitIsOneIffFree(Join(ids, ','), ',');
    ContainsChar(Join(ids, ','), ',');
  }

  const LVM := "LVM"

  /** CreateVolume's check of the `devicemapper` and `devices` parameters. */
  predicate DevicesAccepted(deviceMapper: string, devices: int) {
    if deviceMapper != "" then deviceMapper == LVM && devices >= 2 else devices == 1
  }

  /** The volume context that a re-stage from NodePublishVolume rebuilds from the volume id alone. */
  function RestageContext(volumeId: string): (context: (string, int)) {
    if Contains(volumeId, ",") then (LVM, |Split(volumeId, ',')|) else ("", 1)
  }

  /** Whatever the disks, the rebuilt context is one that create accepts, and the only one for that many disks. */
  lemma RestageContextIsAccepted(ids: seq<string>, deviceMapper: string)
    requires |ids| >= 1 && forall id :: id in ids ==> IsDiskId(id)
    ensures RestageContext(Join(ids, ',')) == (if |ids| == 1 then "" else "LVM", |ids|)
    ensures DevicesAccepted(deviceMapper, |ids|) <==> deviceMapper == RestageContext(Join(ids, ',')).0
  {
    CommaMeansSeveralDisks(ids);
  }

  datatype Found = Found(sources: seq<string>) | NotFound

  /** The block devices of a list of disks, where `device` answers what the node finds under a disk's id. */
  function SourcesAmong(ids: seq<string>, device: map<string, string>): (r: Found) {
    if |ids| == 0 then Found([])
    else if ids[0] !in device then NotFound
    else
      match SourcesAmong(ids[1..], device)
      case NotFound => NotFound
      case Found(rest) => Found([device[ids[0]]] + rest)
  }

  method GetDiskSourceList(volumeId: string, device: map<string, string>) returns (r: Found)
    ensures r == SourcesAmong(DisksOf(volumeId), device)
  {
    var ids := SplitDiskIds(volumeId);
    var sources := [];
    for n := 0 to |ids|
      invariant SourcesAmong(ids, device) ==
                match SourcesAmong(ids[n..], device)
                case NotFound => NotFound
                case Found(rest) => Found(sources + rest)
    {
      assert ids[n..][1..] == ids[n + 1..];
      if ids[n] !in device {
        return NotFound;
      }
      sources := sources + [device[ids[n]]];
    }
    assert ids[|ids|..] == [];
    return Found(sources);
  }

  lemma {:induction false} SourcesOnePerDisk(ids: seq<string>, device: map<string, string>)
    ensures SourcesAmong(ids, device).Found? <==> forall id :: id in ids ==> id in device
    ensures SourcesAmong(ids, device).Found? ==>
              |SourcesAmong(ids, device).sources| == |ids| &&
              forall i :: 0 <= i < |ids| ==> SourcesAmong(ids, device).sources[i] == device[ids[i]]
  {
    if |ids| > 0 {
      SourcesOnePerDisk(ids[1..], device);
      assert ids == [ids[0]] + ids[1..];
    }
  }

  /** The check of lvmCreate: as many devices as the `devices` that the stage was given. */
  predicate CountCheck(devices: int, ids: seq<string>, device: map<string, string>) {
    SourcesAmong(ids, device).Found? && |SourcesAmong(ids, device).sources| == devices
  }

  /** The LVM branches end to end. CreateVolume accepts any response with at least as many disks as `devices` asked
      for. The context that a re-stage rebuilds is the accepted one exactly when there are no more; once the node finds
      every disk it always passes its own count check, and the accepted context passes it, again, exactly then. */
  lemma RestageAgreesWithCreate(deviceMapper: string, devices: int, ids: seq<string>, device: map<string, string>)
    requires DevicesAccepted(deviceMapper, devices)
    requires |ids| >= devices && forall id :: id in ids ==> IsDiskId(id)
    ensures var volumeId := Join(ids, ',');
            && (RestageContext(volumeId) == (deviceMapper, devices) <==> |ids| == devices)
            && (CountCheck(RestageContext(volumeId).1, DisksOf(volumeId), device) <==>
                forall id :: id in ids ==> id in device)
            && (CountCheck(devices, DisksOf(volumeId), device) <==>
                (forall id :: id in ids ==> id in device) && |ids| == devices)
  {
    CommaMeansSeveralDisks(ids);
    VolumeIdRoundTrip(ids);
    SourcesOnePerDisk(ids, device);
  }
}
