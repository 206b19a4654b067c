/** CreateVolume's parameter loop. Go ranges over a map in an arbitrary order; shown is exactly for which parameters
    the loop's result does not depend on it. */
module Parameters {
  import opened Strings
  import opened Folds
  import DiskIds

  const PREPAID := "PREPAID"
  const POSTPAID_BY_HOUR := "POSTPAID_BY_HOUR"
  const CDCPAID := "CDCPAID"
  const CLOUD_PREMIUM := "CLOUD_PREMIUM"
  const NOTIFY_AND_MANUAL_RENEW := "NOTIFY_AND_MANUAL_RENEW"

  datatype Settings = Settings(
    aspId: string,
    volumeType: string,
    zone: string,
    chargeType: string,
    renewFlag: string,
    period: int,
    projectId: int,
    tags: map<string, string>,
    throughput: int,
    cdcId: string,
    deviceMapper: string,
    devices: int)

  /** The settings before the loop; `tags` are the cluster's deletion tags, if it has an id. */
  function Defaults(tags: map<string, string>): Settings {
    Settings("", CLOUD_PREMIUM, "", POSTPAID_BY_HOUR, NOTIFY_AND_MANUAL_RENEW, 1, 0, tags, 0, "", "", 1)
  }

  /** The loop returns an error at once when `devices` is not positive. */
  datatype Result = Parsed(settings: Settings) | Rejected

  /** Go's `strings.ToLower` and the value that `strconv.Atoi` yields, errors included. */
  datatype Library = Library(lower: string -> string, atoi: string -> int)

  datatype Field = AspId | VolumeType | Zone | ChargeType | RenewFlag | Period | Project | Tags | Throughput | CdcId
                 | DeviceMapper | Devices

  /** What a lower-case key stands for. */
  datatype Kind = AspKey | TypeKey | ZoneKey | PayKey | RenewKey | PeriodKey | ProjectKey | TagsKey | ThroughputKey
                | CdcKey | MapperKey | DevicesKey | UnknownKey

  function KindOf(key: string): Kind {
    if key == "aspid" then AspKey
    else if key == "type" || key == "disktype" then TypeKey
    else if key == "zone" || key == "diskzone" then ZoneKey
    else if key == "paymode" || key == "diskchargetype" then PayKey
    else if key == "renewflag" || key == "diskchargeprepaidrenewflag" then RenewKey
    else if key == "diskchargetypeprepaidperiod" then PeriodKey
    else if key == "project" then ProjectKey
    else if key == "disktags" then TagsKey
    else if key == "throughputperformance" then ThroughputKey
    else if key == "cdcid" then CdcKey
    else if key == "devicemapper" then MapperKey
    else if key == "devices" then DevicesKey
    else UnknownKey
  }

  /** The fields that a key may write: the dedicated cluster's id also decides how the disk is charged. */
  function Fields(kind: Kind): set<Field> {
    match kind
    case AspKey => {AspId}
    case TypeKey => {VolumeType}
    case ZoneKey => {Zone}
    case PayKey => {ChargeType}
    case RenewKey => {RenewFlag}
    case PeriodKey => {Period}
    case ProjectKey => {Project}
    case TagsKey => {Tags}
    case ThroughputKey => {Throughput}
    case CdcKey => {CdcId, ChargeType}
    case MapperKey => {DeviceMapper}
    case DevicesKey => {Devices}
    case UnknownKey => {}
  }

  function AddTags(tags: map<string, string>, parts: seq<string>): map<string, string>
    decreases |parts|
  {
    if parts == [] then tags
    else
      var kv := Split(parts[0], ':');
      AddTags(if |kv| == 2 then tags[kv[0] := kv[1]] else tags, parts[1..])
  }

  function Write(lib: Library, s: Settings, kind: Kind, v: string): Result {
    match kind
    case AspKey => Parsed(s.(aspId := v))
    case TypeKey => Parsed(s.(volumeType := v))
    case ZoneKey => Parsed(s.(zone := v))
    case PayKey => Parsed(if v == PREPAID then s.(chargeType := v) else s)
    case RenewKey => Parsed(s.(renewFlag := v))
    case PeriodKey => Parsed(s.(period := lib.atoi(v)))
    case ProjectKey => Parsed(s.(projectId := lib.atoi(v)))
    case TagsKey => Parsed(s.(tags := AddTags(s.tags, Split(v, ','))))
    case ThroughputKey => Parsed(s.(throughput := lib.atoi(v)))
    case CdcKey => Parsed(s.(cdcId := v, chargeType := CDCPAID))
    case MapperKey => Parsed(s.(deviceMapper := v))
    case DevicesKey => if lib.atoi(v) <= 0 then Rejected else Parsed(s.(devices := lib.atoi(v)))
    case UnknownKey => Parsed(s)
  }

  /** One turn of the loop. */
  function Turn(lib: Library, r: Result, k: string, v: string): Result {
    if r.Rejected? then r else Write(lib, r.settings, KindOf(lib.lower(k)), v)
  }

  /** The loop over the keys in a given order. */
  function Loop(lib: Library, params: map<string, string>, order: seq<string>, r: Result): Result
    requires forall k :: k in order ==> k in params
  {
    if order == [] then r else Loop(lib, params, order[1..], Turn(lib, r, order[0], params[order[0]]))
  }

  /** An order in which Go may visit the parameters. */
  ghost predicate IsOrder(order: seq<string>, params: map<string, string>) {
    multiset(order) == multiset(params.Keys)
  }

  predicate Compatible(lib: Library, k: string, k': string) {
    Fields(KindOf(lib.lower(k))) !! Fields(KindOf(lib.lower(k')))
  }

  predicate NoConflict(lib: Library, params: map<string, string>) {
    forall k, k' :: k in params && k' in params && k != k' ==> Compatible(lib, k, k')
  }

  function TagsOf(v: string): map<string, string> {
    AddTags(map[], Split(v, ','))
  }

  /** Two values that can be written in either order. Keys with a field in common have to mean the same there; a
      pay mode writes only PREPAID, and a `devices` value that is not positive rejects the request anyway. */
  predicate Commute(lib: Library, kind: Kind, v: string, kind': Kind, v': string) {
    match (kind, kind')
    case (PayKey, PayKey) => true
    case (PayKey, CdcKey) => v != PREPAID
    case (CdcKey, PayKey) => v' != PREPAID
    case (TagsKey, TagsKey) =>
      forall k :: k in TagsOf(v) && k in TagsOf(v') ==> TagsOf(v)[k] == TagsOf(v')[k]
    case (DevicesKey, DevicesKey) => lib.atoi(v) == lib.atoi(v') || lib.atoi(v) <= 0 || lib.atoi(v') <= 0
    case _ =>
      kind != kind' || kind.UnknownKey?
      || (if kind.PeriodKey? || kind.ProjectKey? || kind.ThroughputKey? then lib.atoi(v) == lib.atoi(v') else v == v')
  }

  predicate KeysCommute(lib: Library, params: map<string, string>, k: string, k': string)
    requires k in params && k' in params
  {
    Commute(lib, KindOf(lib.lower(k)), params[k], KindOf(lib.lower(k')), params[k'])
  }

  predicate AllCommute(lib: Library, params: map<string, string>) {
    forall k, k' :: k in params && k' in params && k != k' ==> KeysCommute(lib, params, k, k')
  }

  predicate BadDevices(lib: Library, params: map<string, string>, k: string) {
    k in params && Rejects(lib, k, params[k])
  }

  method AddDiskTags(tags: map<string, string>, v: string) returns (r: map<string, string>)
    ensures r == AddTags(tags, Split(v, ','))
  {
    r := tags;
    var parts := Split(v, ',');
    for i := 0 to |parts|
      invariant AddTags(r, parts[i..]) == AddTags(tags, parts)
    {
      assert parts[i..][1..] == parts[i + 1..];
      var kv := Split(parts[i], ':');
      if |kv| == 2 {
        r := r[kv[0] := kv[1]];
      }
    }
  }

  /** The loop as it runs, with the order it happened to take. */
  method ParseParameters(lib: Library, params: map<string, string>, tags: map<string, string>)
    returns (r: Result, ghost order: seq<string>)
    ensures (forall k :: k in order ==> k in params) && r == Loop(lib, params, order, Parsed(Defaults(tags)))
    ensures !r.Rejected? ==> IsOrder(order, params)
    ensures r.Rejected? ==> exists k :: BadDevices(lib, params, k)
  {
    var s := Defaults(tags);
    order := [];
    var keys := params.Keys;
    while keys != {}
      invariant keys <= params.Keys
      invariant multiset(order) + multiset(keys) == multiset(params.Keys)
      invariant forall k :: k in order ==> k in params
      invariant Loop(lib, params, order, Parsed(Defaults(tags))) == Parsed(s)
      decreases |keys|
    {
      var k :| k in keys;
      keys := keys - {k};
      LoopSnoc(lib, params, order, k, Parsed(Defaults(tags)));
      order := order + [k];
      var v := params[k];
      match KindOf(lib.lower(k)) {
        case AspKey => s := s.(aspId := v);
        case TypeKey => s := s.(volumeType := v);
        case ZoneKey => s := s.(zone := v);
        case PayKey =>
          if v == PREPAID {
            s := s.(chargeType := v);
          }
        case RenewKey => s := s.(renewFlag := v);
        case PeriodKey => s := s.(period := lib.atoi(v));
        case ProjectKey => s := s.(projectId := lib.atoi(v));
        case TagsKey =>
          var t := AddDiskTags(s.tags, v);
          s := s.(tags := t);
        case ThroughputKey => s := s.(throughput := lib.atoi(v));
        case CdcKey => s := s.(cdcId := v, chargeType := CDCPAID);
        case MapperKey => s := s.(deviceMapper := v);
        case DevicesKey =>
          if lib.atoi(v) <= 0 {
            assert BadDevices(lib, params, k);
            return Rejected, order;
          }
          s := s.(devices := lib.atoi(v));
        case UnknownKey =>
      }
    }
    r := Parsed(s);
  }

  lemma {:induction false} LoopSnoc(lib: Library, params: map<string, string>, order: seq<string>, k: string, r: Result)
    requires k in params && forall i :: i in order ==> i in params
    ensures Loop(lib, params, order + [k], r) == Turn(lib, Loop(lib, params, order, r), k, params[k])
    decreases |order|
  {
    if order == [] {
      assert order + [k] == [k];
      assert [k][1..] == [];
    } else {
      assert (order + [k])[1..] == order[1..] + [k];
      LoopSnoc(lib, params, order[1..], k, Turn(lib, r, order[0], params[order[0]]));
    }
  }

  lemma {:induction false} AddTagsIsUnion(tags: map<string, string>, parts: seq<string>)
    ensures AddTags(tags, parts) == tags + AddTags(map[], parts)
    decreases |parts|
  {
    if parts != [] {
      var kv := Split(parts[0], ':');
      if |kv| == 2 {
        AddTagsIsUnion(tags[kv[0] := kv[1]], parts[1..]);
        AddTagsIsUnion(map[kv[0] := kv[1]], parts[1..]);
      } else {
        AddTagsIsUnion(tags, parts[1..]);
      }
    }
  }

  lemma UnionsCommute(t: map<string, string>, a: map<string, string>, b: map<string, string>)
    ensures t + a + b == t + b + a <==> forall k :: k in a && k in b ==> a[k] == b[k]
  {
    if k :| k in a && k in b && a[k] != b[k] {
      assert (t + a + b)[k] == b[k] && (t + b + a)[k] == a[k];
    }
  }

  lemma TagsCommute(tags: map<string, string>, v: string, v': string)
    ensures AddTags(AddTags(tags, Split(v, ',')), Split(v', ',')) ==
            AddTags(AddTags(tags, Split(v', ',')), Split(v, ',')) <==>
            forall k :: k in TagsOf(v) && k in TagsOf(v') ==> TagsOf(v)[k] == TagsOf(v')[k]
  {
    var parts, parts' := Split(v, ','), Split(v', ',');
    AddTagsIsUnion(tags, parts);
    AddTagsIsUnion(tags, parts');
    AddTagsIsUnion(AddTags(tags, parts), parts');
    AddTagsIsUnion(AddTags(tags, parts'), parts);
    UnionsCommute(tags, TagsOf(v), TagsOf(v'));
  }

  /** Two writes have the same outcome in both orders exactly when their values commute, whatever the settings. */
  lemma WritesCommuteIff(lib: Library, s: Settings, kind: Kind, v: string, kind': Kind, v': string)
    ensures Then(lib, Write(lib, s, kind, v), kind', v') == Then(lib, Write(lib, s, kind', v'), kind, v) <==>
            Commute(lib, kind, v, kind', v')
  {
    if kind.TagsKey? && kind'.TagsKey? {
      TagsCommute(s.tags, v, v');
    }
  }

  function Then(lib: Library, r: Result, kind: Kind, v: string): Result {
    if r.Rejected? then r else Write(lib, r.settings, kind, v)
  }

  /** The loop as a fold over its keys. */
  function Turns(lib: Library, params: map<string, string>): (Result, string) -> Result {
    (r: Result, k: string) => if k in params then Turn(lib, r, k, params[k]) else r
  }

  lemma {:induction false} LoopIsFold(lib: Library, params: map<string, string>, o: seq<string>, r: Result)
    requires forall k :: k in o ==> k in params
    ensures Loop(lib, params, o, r) == Fold(Turns(lib, params), o, r)
    decreases |o|
  {
    if o != [] {
      LoopIsFold(lib, params, o[1..], Turn(lib, r, o[0], params[o[0]]));
    }
  }

  lemma TurnsCommute(lib: Library, params: map<string, string>, k: string, k': string)
    requires k in params && k' in params && KeysCommute(lib, params, k, k')
    ensures Swappable(Turns(lib, params), k, k')
  {
    forall r
      ensures Turn(lib, Turn(lib, r, k, params[k]), k', params[k']) ==
              Turn(lib, Turn(lib, r, k', params[k']), k, params[k])
    {
      if r.Parsed? {
        WritesCommuteIff(lib, r.settings, KindOf(lib.lower(k)), params[k], KindOf(lib.lower(k')), params[k']);
      }
    }
  }

  lemma CommutingKeysAgree(lib: Library, params: map<string, string>, o: seq<string>, o': seq<string>, r: Result)
    requires AllCommute(lib, params)
    requires multiset(o) == multiset(o') && Distinct(o) && Distinct(o')
    requires (forall k :: k in o ==> k in params) && (forall k :: k in o' ==> k in params)
    ensures Loop(lib, params, o, r) == Loop(lib, params, o', r)
  {
    LoopIsFold(lib, params, o, r);
    LoopIsFold(lib, params, o', r);
    forall k, k' | k in o' && k' in o' && k != k' ensures Swappable(Turns(lib, params), k, k') {
      TurnsCommute(lib, params, k, k');
    }
    SwappableOrdersAgree(Turns(lib, params), o, o', r);
  }

  lemma {:induction false} OnceIsDistinct(o: seq<string>)
    requires forall k :: k in o ==> multiset(o)[k] == 1
    ensures Distinct(o)
  {
    if o != [] {
      assert o == [o[0]] + o[1..];
      assert multiset(o) == multiset{o[0]} + multiset(o[1..]);
      assert o[0] in o && o[0] !in multiset(o[1..]);
      forall k | k in o[1..] ensures multiset(o[1..])[k] == 1 {
        assert k in o && k != o[0];
      }
      OnceIsDistinct(o[1..]);
    }
  }

  lemma OrderVisitsOnce(o: seq<string>, params: map<string, string>)
    requires IsOrder(o, params)
    ensures Distinct(o) && forall k :: k in o ==> k in params
  {
    forall k | k in o ensures k in params && multiset(o)[k] == 1 {
      assert k in multiset(o);
    }
    OnceIsDistinct(o);
  }

  predicate Rejects(lib: Library, k: string, v: string) {
    KindOf(lib.lower(k)) == DevicesKey && lib.atoi(v) <= 0
  }

  lemma TurnRejects(lib: Library, s: Settings, k: string, v: string)
    ensures Turn(lib, Parsed(s), k, v).Rejected? <==> Rejects(lib, k, v)
  {
  }

  lemma {:induction false} RejectedIffRejects(lib: Library, params: map<string, string>, o: seq<string>, s: Settings)
    requires forall k :: k in o ==> k in params
    ensures Loop(lib, params, o, Parsed(s)).Rejected? <==> exists k :: k in o && Rejects(lib, k, params[k])
    decreases |o|
  {
    if o != [] {
      assert o == [o[0]] + o[1..];
      var r := Turn(lib, Parsed(s), o[0], params[o[0]]);
      TurnRejects(lib, s, o[0], params[o[0]]);
      if r.Parsed? {
        RejectedIffRejects(lib, params, o[1..], r.settings);
      } else {
        assert o[0] in o;
        RejectedForGood(lib, params, o[1..]);
      }
    }
  }

  /** Whatever the order, and even with conflicting keys, the loop rejects exactly when some `devices` key, in any case,
      has a value that is not positive. */
  lemma RejectedIffBadDevices(lib: Library, params: map<string, string>, o: seq<string>, s: Settings)
    requires forall k :: k in o ==> k in params
    ensures Loop(lib, params, o, Parsed(s)).Rejected? <==>
            exists k :: k in o && lib.lower(k) == "devices" && lib.atoi(params[k]) <= 0
  {
    RejectedIffRejects(lib, params, o, s);
    forall k | k in o ensures Rejects(lib, k, params[k]) <==> lib.lower(k) == "devices" && lib.atoi(params[k]) <= 0 {
    }
  }

  lemma {:induction false} RejectedForGood(lib: Library, params: map<string, string>, o: seq<string>)
    requires forall k :: k in o ==> k in params
    ensures Loop(lib, params, o, Rejected) == Rejected
    decreases |o|
  {
    if o != [] {
      RejectedForGood(lib, params, o[1..]);
    }
  }

  /** What a key's value means for the settings that the loop started from and ended with. */
  predicate Reflects(lib: Library, before: Settings, after: Settings, kind: Kind, v: string) {
    match kind
    case AspKey => after.aspId == v
    case TypeKey => after.volumeType == v
    case ZoneKey => after.zone == v
    case PayKey => after.chargeType == if v == PREPAID then PREPAID else before.chargeType
    case RenewKey => after.renewFlag == v
    case PeriodKey => after.period == lib.atoi(v)
    case ProjectKey => after.projectId == lib.atoi(v)
    case TagsKey => after.tags == AddTags(before.tags, Split(v, ','))
    case ThroughputKey => after.throughput == lib.atoi(v)
    case CdcKey => after.cdcId == v && after.chargeType == CDCPAID
    case MapperKey => after.deviceMapper == v
    case DevicesKey => after.devices == lib.atoi(v) > 0
    case UnknownKey => true
  }

  predicate SameField(f: Field, s: Settings, s': Settings) {
    match f
    case AspId => s.aspId == s'.aspId
    case VolumeType => s.volumeType == s'.volumeType
    case Zone => s.zone == s'.zone
    case ChargeType => s.chargeType == s'.chargeType
    case RenewFlag => s.renewFlag == s'.renewFlag
    case Period => s.period == s'.period
    case Project => s.projectId == s'.projectId
    case Tags => s.tags == s'.tags
    case Throughput => s.throughput == s'.throughput
    case CdcId => s.cdcId == s'.cdcId
    case DeviceMapper => s.deviceMapper == s'.deviceMapper
    case Devices => s.devices == s'.devices
  }

  lemma WriteReflects(lib: Library, s: Settings, kind: Kind, v: string)
    requires Write(lib, s, kind, v).Parsed?
    ensures Reflects(lib, s, Write(lib, s, kind, v).settings, kind, v)
    ensures forall f :: f !in Fields(kind) ==> SameField(f, s, Write(lib, s, kind, v).settings)
  {
  }

  /** A kind of key looks at its own fields only. */
  lemma ReflectsFrame(lib: Library, s: Settings, a: Settings, s': Settings, a': Settings, kind: Kind, v: string)
    requires Reflects(lib, s, a, kind, v)
    requires forall f :: f in Fields(kind) ==> SameField(f, s, s') && SameField(f, a, a')
    ensures Reflects(lib, s', a', kind, v)
  {
    match kind
    case AspKey => assert AspId in Fields(kind);
    case TypeKey => assert VolumeType in Fields(kind);
    case ZoneKey => assert Zone in Fields(kind);
    case PayKey => assert ChargeType in Fields(kind);
    case RenewKey => assert RenewFlag in Fields(kind);
    case PeriodKey => assert Period in Fields(kind);
    case ProjectKey => assert Project in Fields(kind);
    case TagsKey => assert Tags in Fields(kind);
    case ThroughputKey => assert Throughput in Fields(kind);
    case CdcKey => assert CdcId in Fields(kind) && ChargeType in Fields(kind);
    case MapperKey => assert DeviceMapper in Fields(kind);
    case DevicesKey => assert Devices in Fields(kind);
    case UnknownKey =>
  }

  lemma SameFieldTransitive(f: Field, s: Settings, s': Settings, s'': Settings)
    requires SameField(f, s, s') && SameField(f, s', s'')
    ensures SameField(f, s, s'')
  {
  }

  predicate Untouched(lib: Library, o: seq<string>, f: Field) {
    forall k :: k in o ==> f !in Fields(KindOf(lib.lower(k)))
  }

  lemma {:induction false} UntouchedFieldsStay(lib: Library, params: map<string, string>, o: seq<string>, s: Settings,
                                               f: Field)
    requires (forall k :: k in o ==> k in params) && Untouched(lib, o, f)
    requires Loop(lib, params, o, Parsed(s)).Parsed?
    ensures SameField(f, s, Loop(lib, params, o, Parsed(s)).settings)
    decreases |o|
  {
    if o != [] {
      assert o[0] in o;
      var r := Turn(lib, Parsed(s), o[0], params[o[0]]);
      if r.Rejected? {
        RejectedForGood(lib, params, o[1..]);
      }
      WriteReflects(lib, s, KindOf(lib.lower(o[0])), params[o[0]]);
      assert Untouched(lib, o[1..], f);
      UntouchedFieldsStay(lib, params, o[1..], r.settings, f);
      SameFieldTransitive(f, s, r.settings, Loop(lib, params, o, Parsed(s)).settings);
    }
  }

  /** The fields of one key are not touched by the others. */
  lemma OthersDoNotTouch(lib: Library, params: map<string, string>, o: seq<string>, k: string, f: Field)
    requires NoConflict(lib, params) && k in params && k !in o && forall i :: i in o ==> i in params
    requires f in Fields(KindOf(lib.lower(k)))
    ensures Untouched(lib, o, f)
  {
    forall i | i in o ensures f !in Fields(KindOf(lib.lower(i))) {
      assert Compatible(lib, i, k);
    }
  }

  /** Main result 2. When no two keys write the same field, the settings say exactly what the parameters say: every
      key's value is in force. Together with UntouchedFieldsStay, nothing else is. */
  lemma {:induction false} SettingsReflectParameters(lib: Library, params: map<string, string>, o: seq<string>,
                                                     s: Settings, k: string)
    requires NoConflict(lib, params) && Distinct(o) && k in o && forall i :: i in o ==> i in params
    requires Loop(lib, params, o, Parsed(s)).Parsed?
    ensures Reflects(lib, s, Loop(lib, params, o, Parsed(s)).settings, KindOf(lib.lower(k)), params[k])
    decreases |o|
  {
    var kind := KindOf(lib.lower(k));
    var r := Turn(lib, Parsed(s), o[0], params[o[0]]);
    var after := Loop(lib, params, o, Parsed(s)).settings;
    if r.Rejected? {
      RejectedForGood(lib, params, o[1..]);
    }
    WriteReflects(lib, s, KindOf(lib.lower(o[0])), params[o[0]]);
    assert forall j :: 0 < j < |o| ==> o[j] != o[0];
    if k == o[0] {
      forall f | f in Fields(kind) ensures SameField(f, s, s) && SameField(f, r.settings, after) {
        OthersDoNotTouch(lib, params, o[1..], k, f);
        UntouchedFieldsStay(lib, params, o[1..], r.settings, f);
      }
      ReflectsFrame(lib, s, r.settings, s, after, kind, params[k]);
    } else {
      SettingsReflectParameters(lib, params, o[1..], r.settings, k);
      forall f | f in Fields(kind) ensures SameField(f, r.settings, s) && SameField(f, after, after) {
        assert Compatible(lib, k, o[0]);
      }
      ReflectsFrame(lib, r.settings, after, s, after, kind, params[k]);
    }
  }

  /** CreateVolume goes on when the loop and the device check that follows it accept. */
  predicate Accepted(r: Result) {
    r.Parsed? && DiskIds.DevicesAccepted(r.settings.deviceMapper, r.settings.devices)
  }

  /** The result of the loop for an order in which Go may visit the parameters. */
  ghost function Outcome(lib: Library, params: map<string, string>, tags: map<string, string>, o: seq<string>): Result
    requires IsOrder(o, params)
  {
    OrderVisitsOnce(o, params);
    Loop(lib, params, o, Parsed(Defaults(tags)))
  }

  ghost predicate OrdersAgree(lib: Library, params: map<string, string>, tags: map<string, string>) {
    forall o, o' :: IsOrder(o, params) && IsOrder(o', params) ==>
      Outcome(lib, params, tags, o) == Outcome(lib, params, tags, o')
  }

  lemma OrderVisitsAll(o: seq<string>, params: map<string, string>, k: string)
    requires IsOrder(o, params) && k in params
    ensures k in o
  {
    assert k in multiset(params.Keys);
    assert k in multiset(o);
  }

  lemma BadDevicesReject(lib: Library, params: map<string, string>, tags: map<string, string>, o: seq<string>)
    requires IsOrder(o, params)
    ensures Outcome(lib, params, tags, o).Rejected? <==> exists k :: BadDevices(lib, params, k)
  {
    OrderVisitsOnce(o, params);
    RejectedIffRejects(lib, params, o, Defaults(tags));
    if k :| BadDevices(lib, params, k) {
      OrderVisitsAll(o, params, k);
    } else {
      forall k | k in o ensures !Rejects(lib, k, params[k]) {
        assert !BadDevices(lib, params, k);
      }
    }
  }

  lemma AnOrder(keys: set<string>) returns (o: seq<string>)
    ensures multiset(o) == multiset(keys)
  {
    o := [];
    var left := keys;
    while left != {}
      invariant left <= keys && multiset(o) + multiset(left) == multiset(keys)
      decreases |left|
    {
      var k :| k in left;
      o, left := o + [k], left - {k};
    }
  }

  /** Two orders that differ in their last two keys only. */
  lemma SwappedOrders(lib: Library, params: map<string, string>, tags: map<string, string>, k: string, k': string)
    returns (rest: seq<string>)
    requires k in params && k' in params && k != k'
    ensures IsOrder(rest + [k, k'], params) && IsOrder(rest + [k', k], params)
    ensures forall i :: i in rest ==> i in params
    ensures var r := Loop(lib, params, rest, Parsed(Defaults(tags)));
            && Outcome(lib, params, tags, rest + [k, k']) == Turn(lib, Turn(lib, r, k, params[k]), k', params[k'])
            && Outcome(lib, params, tags, rest + [k', k]) == Turn(lib, Turn(lib, r, k', params[k']), k, params[k])
  {
    rest := AnOrder(params.Keys - {k, k'});
    assert multiset(params.Keys) == multiset(params.Keys - {k, k'}) + multiset{k, k'};
    OrderVisitsOnce(rest + [k, k'], params);
    OrderVisitsOnce(rest + [k', k], params);
    forall i | i in rest ensures i in params {
      assert i in rest + [k, k'];
    }
    LastTwo(lib, params, rest, k, k', Parsed(Defaults(tags)));
    LastTwo(lib, params, rest, k', k, Parsed(Defaults(tags)));
  }

  lemma LastTwo(lib: Library, params: map<string, string>, rest: seq<string>, k: string, k': string, r: Result)
    requires k in params && k' in params && forall i :: i in rest ==> i in params
    ensures forall i :: i in rest + [k, k'] ==> i in params
    ensures Loop(lib, params, rest + [k, k'], r) ==
            Turn(lib, Turn(lib, Loop(lib, params, rest, r), k, params[k]), k', params[k'])
  {
    assert rest + [k, k'] == rest + [k] + [k'];
    LoopSnoc(lib, params, rest, k, r);
    LoopSnoc(lib, params, rest + [k], k', r);
  }

  /** Main result 1. All orders of visiting the parameters have the same outcome, if and only if some `devices` value
      is not positive, and every order rejects, or the values of any two keys commute. */
  lemma OrderIndependentIff(lib: Library, params: map<string, string>, tags: map<string, string>)
    ensures OrdersAgree(lib, params, tags) <==> (exists k :: BadDevices(lib, params, k)) || AllCommute(lib, params)
  {
    if exists k :: BadDevices(lib, params, k) {
      forall o, o' | IsOrder(o, params) && IsOrder(o', params)
        ensures Outcome(lib, params, tags, o) == Outcome(lib, params, tags, o')
      {
        BadDevicesReject(lib, params, tags, o);
        BadDevicesReject(lib, params, tags, o');
      }
    } else if AllCommute(lib, params) {
      forall o, o' | IsOrder(o, params) && IsOrder(o', params)
        ensures Outcome(lib, params, tags, o) == Outcome(lib, params, tags, o')
      {
        OrderVisitsOnce(o, params);
        OrderVisitsOnce(o', params);
        CommutingKeysAgree(lib, params, o, o', Parsed(Defaults(tags)));
      }
    } else {
      var k, k' :| k in params && k' in params && k != k' && !KeysCommute(lib, params, k, k');
      var rest := DisagreeingOrders(lib, params, tags, k, k');
    }
  }

  lemma DisagreeingOrders(lib: Library, params: map<string, string>, tags: map<string, string>, k: string, k': string)
    returns (rest: seq<string>)
    requires k in params && k' in params && k != k' && !KeysCommute(lib, params, k, k')
    requires forall i :: !BadDevices(lib, params, i)
    ensures IsOrder(rest + [k, k'], params) && IsOrder(rest + [k', k], params)
    ensures Outcome(lib, params, tags, rest + [k, k']) != Outcome(lib, params, tags, rest + [k', k])
  {
    rest := SwappedOrders(lib, params, tags, k, k');
    var r := Loop(lib, params, rest, Parsed(Defaults(tags)));
    RejectedIffRejects(lib, params, rest, Defaults(tags));
    forall i | i in rest ensures !Rejects(lib, i, params[i]) {
      assert !BadDevices(lib, params, i);
    }
    WritesCommuteIff(lib, r.settings, KindOf(lib.lower(k)), params[k], KindOf(lib.lower(k')), params[k']);
  }

  /** In particular no two keys may disagree about a field that both write; and then CreateVolume's device check gives
      the same verdict in every order. */
  lemma SameVerdict(lib: Library, params: map<string, string>, tags: map<string, string>)
    ensures NoConflict(lib, params) ==> AllCommute(lib, params)
    ensures forall o :: IsOrder(o, params) ==>
              var r := Outcome(lib, params, tags, o);
              Accepted(r) <==>
              r.Parsed? && ((r.settings.deviceMapper == "LVM" && r.settings.devices >= 2) ||
                            (r.settings.deviceMapper == "" && r.settings.devices == 1))
    ensures OrdersAgree(lib, params, tags) ==>
              forall o, o' :: IsOrder(o, params) && IsOrder(o', params) ==>
                (Accepted(Outcome(lib, params, tags, o)) <==> Accepted(Outcome(lib, params, tags, o')))
  {
    if NoConflict(lib, params) {
      forall k, k' | k in params && k' in params && k != k' ensures KeysCommute(lib, params, k, k') {
        DisjointFieldsCommute(lib, KindOf(lib.lower(k)), params[k], KindOf(lib.lower(k')), params[k']);
      }
    }
  }

  lemma DisjointFieldsCommute(lib: Library, kind: Kind, v: string, kind': Kind, v': string)
    requires Fields(kind) !! Fields(kind')
    ensures Commute(lib, kind, v, kind', v')
  {
    if kind == kind' && !kind.UnknownKey? {
      var f :| f in Fields(kind);
    }
  }

  /** A pay mode beside a dedicated cluster id, among whatever other parameters: the pair commutes exactly when the
      pay mode is not PREPAID; and when it is, and nothing is rejected, some order charges the disk to the dedicated
      cluster and another order prepaid. */
  lemma CdcAndPayModeConflict(lib: Library, params: map<string, string>, tags: map<string, string>, pay: string,
                              cdc: string) returns (o: seq<string>, o': seq<string>)
    requires pay in params && cdc in params
    requires KindOf(lib.lower(pay)) == PayKey && KindOf(lib.lower(cdc)) == CdcKey
    ensures KeysCommute(lib, params, pay, cdc) <==> params[pay] != PREPAID
    ensures IsOrder(o, params) && IsOrder(o', params)
    ensures params[pay] == PREPAID && (forall k :: !BadDevices(lib, params, k)) ==>
              && Outcome(lib, params, tags, o).Parsed?
              && Outcome(lib, params, tags, o).settings.chargeType == CDCPAID
              && Outcome(lib, params, tags, o').Parsed?
              && Outcome(lib, params, tags, o').settings.chargeType == PREPAID
  {
    var rest := SwappedOrders(lib, params, tags, pay, cdc);
    o, o' := rest + [pay, cdc], rest + [cdc, pay];
    BadDevicesReject(lib, params, tags, o);
    BadDevicesReject(lib, params, tags, o');
  }

  // ----- The keys by name

  predicate Absent(lib: Library, params: map<string, string>, names: set<string>) {
    forall k :: k in params ==> lib.lower(k) !in names
  }

  /** Main result 3. When no two keys write the same field and nothing is rejected, each key decides what its name
      says, whatever its case. */
  lemma KeysMeanWhatTheySay(lib: Library, params: map<string, string>, tags: map<string, string>, o: seq<string>,
                            k: string)
    requires NoConflict(lib, params) && IsOrder(o, params) && k in params && Outcome(lib, params, tags, o).Parsed?
    ensures var s := Outcome(lib, params, tags, o).settings;
            var (name, v) := (lib.lower(k), params[k]);
            && (name == "aspid" ==> s.aspId == v)
            && (name in {"type", "disktype"} ==> s.volumeType == v)
            && (name in {"zone", "diskzone"} ==> s.zone == v)
            && (name in {"paymode", "diskchargetype"} ==>
                  s.chargeType == if v == "PREPAID" then "PREPAID" else "POSTPAID_BY_HOUR")
            && (name in {"renewflag", "diskchargeprepaidrenewflag"} ==> s.renewFlag == v)
            && (name == "diskchargetypeprepaidperiod" ==> s.period == lib.atoi(v))
            && (name == "project" ==> s.projectId == lib.atoi(v))
            && (name == "disktags" ==> s.tags == AddTags(tags, Split(v, ',')))
            && (name == "throughputperformance" ==> s.throughput == lib.atoi(v))
            && (name == "cdcid" ==> s.cdcId == v && s.chargeType == "CDCPAID")
            && (name == "devicemapper" ==> s.deviceMapper == v)
            && (name == "devices" ==> s.devices == lib.atoi(v) > 0)
  {
    OrderVisitsOnce(o, params);
    OrderVisitsAll(o, params, k);
    SettingsReflectParameters(lib, params, o, Defaults(tags), k);
  }

  /** The names of the keys that may write a field. */
  function NamesOf(f: Field): set<string> {
    match f
    case AspId => {"aspid"}
    case VolumeType => {"type", "disktype"}
    case Zone => {"zone", "diskzone"}
    case ChargeType => {"paymode", "diskchargetype", "cdcid"}
    case RenewFlag => {"renewflag", "diskchargeprepaidrenewflag"}
    case Period => {"diskchargetypeprepaidperiod"}
    case Project => {"project"}
    case Tags => {"disktags"}
    case Throughput => {"throughputperformance"}
    case CdcId => {"cdcid"}
    case DeviceMapper => {"devicemapper"}
    case Devices => {"devices"}
  }

  function KeysOf(kind: Kind): set<string> {
    match kind
    case AspKey => {"aspid"}
    case TypeKey => {"type", "disktype"}
    case ZoneKey => {"zone", "diskzone"}
    case PayKey => {"paymode", "diskchargetype"}
    case RenewKey => {"renewflag", "diskchargeprepaidrenewflag"}
    case PeriodKey => {"diskchargetypeprepaidperiod"}
    case ProjectKey => {"project"}
    case TagsKey => {"disktags"}
    case ThroughputKey => {"throughputperformance"}
    case CdcKey => {"cdcid"}
    case MapperKey => {"devicemapper"}
    case DevicesKey => {"devices"}
    case UnknownKey => {}
  }

  lemma KindIsNamed(name: string)
    ensures !KindOf(name).UnknownKey? ==> name in KeysOf(KindOf(name))
  {
  }

  lemma OnlyNamedKeysWrite(f: Field, name: string)
    requires f in Fields(KindOf(name))
    ensures name in NamesOf(f)
  {
    KindIsNamed(name);
  }

  lemma AbsentFieldStays(lib: Library, params: map<string, string>, tags: map<string, string>, o: seq<string>, f: Field)
    requires IsOrder(o, params) && Outcome(lib, params, tags, o).Parsed?
    ensures Absent(lib, params, NamesOf(f)) ==> SameField(f, Defaults(tags), Outcome(lib, params, tags, o).settings)
  {
    OrderVisitsOnce(o, params);
    if Absent(lib, params, NamesOf(f)) {
      forall k | k in o ensures f !in Fields(KindOf(lib.lower(k))) {
        if f in Fields(KindOf(lib.lower(k))) {
          OnlyNamedKeysWrite(f, lib.lower(k));
        }
      }
      UntouchedFieldsStay(lib, params, o, Defaults(tags), f);
    }
  }

  /** And what no key names has its default. */
  lemma AbsentKeysMeanDefaults(lib: Library, params: map<string, string>, tags: map<string, string>, o: seq<string>)
    requires IsOrder(o, params) && Outcome(lib, params, tags, o).Parsed?
    ensures var s := Outcome(lib, params, tags, o).settings;
            && (Absent(lib, params, {"aspid"}) ==> s.aspId == "")
            && (Absent(lib, params, {"type", "disktype"}) ==> s.volumeType == "CLOUD_PREMIUM")
            && (Absent(lib, params, {"zone", "diskzone"}) ==> s.zone == "")
            && (Absent(lib, params, {"paymode", "diskchargetype", "cdcid"}) ==> s.chargeType == "POSTPAID_BY_HOUR")
            && (Absent(lib, params, {"renewflag", "diskchargeprepaidrenewflag"}) ==>
                  s.renewFlag == "NOTIFY_AND_MANUAL_RENEW")
            && (Absent(lib, params, {"diskchargetypeprepaidperiod"}) ==> s.period == 1)
  {
    AbsentFieldStays(lib, params, tags, o, AspId);
    AbsentFieldStays(lib, params, tags, o, VolumeType);
    AbsentFieldStays(lib, params, tags, o, Zone);
    AbsentFieldStays(lib, params, tags, o, ChargeType);
    AbsentFieldStays(lib, params, tags, o, RenewFlag);
    AbsentFieldStays(lib, params, tags, o, Period);
  }

  lemma MoreAbsentKeysMeanDefaults(lib: Library, params: map<string, string>, tags: map<string, string>, o: seq<string>)
    requires IsOrder(o, params) && Outcome(lib, params, tags, o).Parsed?
    ensures var s := Outcome(lib, params, tags, o).settings;
            && (Absent(lib, params, {"project"}) ==> s.projectId == 0)
            && (Absent(lib, params, {"disktags"}) ==> s.tags == tags)
            && (Absent(lib, params, {"throughputperformance"}) ==> s.throughput == 0)
            && (Absent(lib, params, {"cdcid"}) ==> s.cdcId == "")
            && (Absent(lib, params, {"devicemapper"}) ==> s.deviceMapper == "")
            && (Absent(lib, params, {"devices"}) ==> s.devices == 1)
  {
    AbsentFieldStays(lib, params, tags, o, Project);
    AbsentFieldStays(lib, params, tags, o, Tags);
    AbsentFieldStays(lib, params, tags, o, Throughput);
    AbsentFieldStays(lib, params, tags, o, CdcId);
    AbsentFieldStays(lib, params, tags, o, DeviceMapper);
    AbsentFieldStays(lib, params, tags, o, Devices);
  }

  /** A part of `disktags` that sets a tag. */
  predicate Sets(part: string, k: string) {
    |Split(part, ':')| == 2 && Split(part, ':')[0] == k
  }

  /** A disk has a tag with a value exactly when the last part that sets the tag gives it that value, or no part sets
      it and it had it before. Parts with fewer or more colons are ignored. */
  lemma {:induction false} LastPartSetsTag(tags: map<string, string>, parts: seq<string>, k: string, v: string)
    ensures k in AddTags(tags, parts) && AddTags(tags, parts)[k] == v <==>
            || (exists i :: 0 <= i < |parts| && Split(parts[i], ':') == [k, v]
                            && forall j :: i < j < |parts| ==> !Sets(parts[j], k))
            || (k in tags && tags[k] == v && forall j :: 0 <= j < |parts| ==> !Sets(parts[j], k))
    decreases |parts|
  {
    if parts != [] {
      var kv := Split(parts[0], ':');
      var tags' := if |kv| == 2 then tags[kv[0] := kv[1]] else tags;
      var rest := parts[1..];
      LastPartSetsTag(tags', rest, k, v);
      assert forall j :: 0 < j < |parts| ==> parts[j] == rest[j - 1];
      assert forall j :: 0 <= j < |rest| ==> rest[j] == parts[j + 1];
      assert kv == [k, v] <==> |kv| == 2 && kv[0] == k && kv[1] == v;
      if i :| 0 <= i < |rest| && Split(rest[i], ':') == [k, v] && forall j :: i < j < |rest| ==> !Sets(rest[j], k) {
        assert Split(parts[i + 1], ':') == [k, v];
      }
      if i :| 0 <= i < |parts| && Split(parts[i], ':') == [k, v] && forall j :: i < j < |parts| ==> !Sets(parts[j], k) {
        assert i > 0 ==> Split(rest[i - 1], ':') == [k, v];
      }
    }
  }

  lemma PrintedTag(k: string, v: string)
    requires Free(k, ':') && Free(v, ':')
    ensures Split(k + ":" + v, ':') == [k, v]
  {
    SplitFirst(k, v, ':');
    SplitFree(v, ':');
  }
}
