/** The CBS controller's publish, unpublish and expand calls over the disks of the cloud. Calls for several
    volumes, their goroutines, and the cloud's own progress interleave in any order. */
module CbsDisks {
  import opened Strings
  import opened FanOut
  import DiskIds
  import Capacity

  type DiskId = string
  type Instance = string
  type Volume = string

  datatype Option<T> = None | Some(value: T)

  // ----- The cloud

  /** An expanding disk is in state EXPANDING, which hides whether it is attached. */
  datatype Phase =
    | Unattached
    | Attaching(to: Instance)
    | Attached(to: Instance)
    | Detaching(from: Instance)
    | Expanding(holder: Option<Instance>, target: nat)

  datatype Disk = Disk(phase: Phase, size: nat)

  /** The instance that a disk is, will be or was last attached to. */
  function Holder(p: Phase): Option<Instance> {
    match p
    case Unattached => None
    case Attaching(i) => Some(i)
    case Attached(i) => Some(i)
    case Detaching(i) => Some(i)
    case Expanding(h, _) => h
  }

  /** Requests are asynchronous; the cloud completes or abandons them by itself. */
  function CloudStep(d: Disk, ok: bool): Disk {
    match d.phase
    case Unattached => d
    case Attached(_) => d
    case Attaching(i) => d.(phase := if ok then Attached(i) else Unattached)
    case Detaching(i) => d.(phase := if ok then Unattached else Attached(i))
    case Expanding(h, target) =>
      Disk(if h.None? then Unattached else Attached(h.value), if ok then target else d.size)
  }

  // ----- The driver

  const NODE_ID_LENGTH := 12

  /** The check of the node id that publish and unpublish make. */
  predicate Supported(node: Instance) {
    (HasPrefix(node, "ins-") || HasPrefix(node, "eks-")) && |node| == NODE_ID_LENGTH
  }

  datatype Op = Publish(node: Instance) | Unpublish(node: Instance) | Expand(required: int)

  function Target(required: int): nat {
    Capacity.ToUint64(Capacity.RoundUpGiB(required))
  }

  /** Where a disk's goroutine stands: the first look, the request, the polling, the response to be sent. */
  datatype At = Look | Request | Poll | Deliver(response: Response)

  /** The answer to a goroutine's next cloud call. A request that is answered with an error may have been
      carried out all the same, a description may be empty for a disk that exists, and the deadline ends the polling. */
  datatype Answer = Answered | Hidden | Refused | LostAnswer | Deadline

  /** What a description that is answered shows. */
  function Shown(disk: Option<Disk>, a: Answer): Option<Disk> {
    if a == Hidden then None else disk
  }

  function LookStep(op: Op, disk: Option<Disk>, a: Answer): At {
    if a != Answered && a != Hidden then Deliver(Error)
    else
      var d := Shown(disk, a);
      match op
      case Publish(node) =>
        if d.None? then Deliver(Error)
        else if d.value.phase == Attached(node) then Deliver(Ok)
        else if d.value.phase.Attached? then Deliver(Error)
        else Request
      case Unpublish(node) =>
        if d.None? || d.value.phase.Unattached? then Deliver(Ok)
        else if d.value.phase.Attached? && d.value.phase.to != node then Deliver(Ok)
        else Request
      case Expand(required) =>
        if d.None? then Deliver(Error)
        else if Target(required) <= d.value.size then Deliver(Ok)
        else Request
  }

  /** The cloud's rules: only an unattached disk can be attached, only an attached one detached, only an idle
      one expanded, and only to a larger size. */
  predicate Accepts(op: Op, d: Disk) {
    match op
    case Publish(_) => d.phase.Unattached?
    case Unpublish(_) => d.phase.Attached?
    case Expand(required) => (d.phase.Unattached? || d.phase.Attached?) && Target(required) > d.size
  }

  function Carried(op: Op, d: Disk): Disk
    requires Accepts(op, d)
  {
    match op
    case Publish(node) => d.(phase := Attaching(node))
    case Unpublish(_) => d.(phase := Detaching(d.phase.to))
    case Expand(required) => d.(phase := Expanding(Holder(d.phase), Target(required)))
  }

  function RequestStep(op: Op, d: Option<Disk>, a: Answer): (At, Option<Disk>) {
    var accepted := d.Some? && Accepts(op, d.value);
    var d' := if accepted && (a == Answered || a == LostAnswer) then Some(Carried(op, d.value)) else d;
    (if accepted && a == Answered then Poll else Deliver(Error), d')
  }

  /** Attach polls for ATTACHED and does not look at the instance; expand polls for anything but EXPANDING and
      does not look at the size. */
  function PollStep(op: Op, d: Option<Disk>, a: Answer): At {
    if a == Deadline then Deliver(Error)
    else if a != Answered || d.None? then Poll
    else
      var done := match op
        case Publish(_) => d.value.phase.Attached?
        case Unpublish(_) => d.value.phase.Unattached?
        case Expand(_) => !d.value.phase.Expanding?;
      if done then Deliver(Ok) else Poll
  }

  function TaskStep(op: Op, d: Option<Disk>, at: At, a: Answer): (Work<At>, Option<Disk>) {
    match at
    case Look => (Goto(LookStep(op, d, a)), d)
    case Request => var (at', d') := RequestStep(op, d, a); (Goto(at'), d')
    case Poll => (Goto(PollStep(op, d, a)), d)
    case Deliver(r) => (Reply(r), d)
  }

  // ----- The system

  datatype Call = Call(op: Op, fan: Fan<At>)

  datatype State = State(disks: map<DiskId, Disk>, calls: map<Volume, Call>)

  const INIT := State(map[], map[])

  /** `CreateDisk` and `DeleteVolume` are the other two calls, which take no attached disks. The orchestrator has
      one call in flight per volume, and knows only the volumes in `volumes`. A restart of the driver loses
      the calls. */
  datatype Event =
    | Begin(v: Volume, op: Op)
    | CallStep(v: Volume)
    | Goroutine(v: Volume, j: nat, a: Answer)
    | Return(v: Volume)
    | Restart
    | Cloud(d: DiskId, ok: bool)
    | CreateDisk(d: DiskId, size: nat)
    | DeleteVolume(v: Volume)

  function Lookup(s: State, id: DiskId): Option<Disk> {
    if id in s.disks then Some(s.disks[id]) else None
  }

  function Store(s: State, id: DiskId, d: Option<Disk>): State {
    if d.None? then s else s.(disks := s.disks[id := d.value])
  }

  /** Publish refuses an unsupported node; unpublish reports success for it without looking at any disk. */
  function NewCall(v: Volume, op: Op): Call {
    match op
    case Expand(_) => Call(op, FanOut.Begin(|DiskIds.DisksOf(v)|))
    case Publish(node) =>
      Call(op, if Supported(node) then FanOut.Begin(|DiskIds.DisksOf(v)|) else Fan(Returned(false), [], [], 0))
    case Unpublish(node) =>
      Call(op, if Supported(node) then FanOut.Begin(|DiskIds.DisksOf(v)|) else Fan(Returned(true), [], [], 0))
  }

  function GoroutineAt(s: State, v: Volume, j: nat, a: Answer): State
    requires v in s.calls
  {
    var call := s.calls[v];
    var ids := DiskIds.DisksOf(v);
    if j >= |call.fan.gs| || j >= |ids| then s
    else if call.fan.gs[j].Running? then
      var (work, d) := TaskStep(call.op, Lookup(s, ids[j]), call.fan.gs[j].at, a);
      Store(s, ids[j], d).(calls := s.calls[v := call.(fan := GoroutineStep(call.fan, j, work))])
    else
      s.(calls := s.calls[v := call.(fan := GoroutineStep(call.fan, j, Reply(Ok)))])
  }

  function Next(volumes: set<Volume>, s: State, e: Event): State {
    match e
    case Begin(v, op) =>
      if v in s.calls || v !in volumes then s else s.(calls := s.calls[v := NewCall(v, op)])
    case CallStep(v) =>
      if v !in s.calls then s
      else s.(calls := s.calls[v := s.calls[v].(fan := MainStep(s.calls[v].fan, Look))])
    case Goroutine(v, j, a) => if v !in s.calls then s else GoroutineAt(s, v, j, a)
    case Return(v) =>
      if v in s.calls && s.calls[v].fan.main.Returned? then s.(calls := s.calls - {v}) else s
    case Restart => s.(calls := map[])
    case Cloud(d, ok) => if d in s.disks then s.(disks := s.disks[d := CloudStep(s.disks[d], ok)]) else s
    case CreateDisk(d, size) => if d in s.disks then s else s.(disks := s.disks[d := Disk(Unattached, size)])
    case DeleteVolume(v) =>
      var ids := set id | id in DiskIds.DisksOf(v);
      if v in s.calls || v !in volumes || exists id :: id in ids && id in s.disks && !s.disks[id].phase.Unattached?
      then s
      else s.(disks := s.disks - ids)
  }

  function Run(volumes: set<Volume>, s: State, events: seq<Event>): State
    decreases |events|
  {
    if events == [] then s else Run(volumes, Next(volumes, s, events[0]), events[1..])
  }

  /** A disk belongs to one volume, and a volume's disks are distinct. */
  predicate Separate(volumes: set<Volume>) {
    && (forall v, w, id :: v in volumes && w in volumes && v != w && id in DiskIds.DisksOf(v) ==>
          id !in DiskIds.DisksOf(w))
    && (forall v, i, j :: v in volumes && 0 <= i < j < |DiskIds.DisksOf(v)| ==>
          DiskIds.DisksOf(v)[i] != DiskIds.DisksOf(v)[j])
  }

  // ----- What every run keeps

  /** What a successful call of each kind promises of each of the volume's disks. */
  predicate Achieved(op: Op, d: Option<Disk>) {
    match op
    case Publish(node) => d.Some? && d.value.phase == Attached(node)
    case Unpublish(node) =>
      d.Some? ==> d.value.phase.Unattached? || (d.value.phase.Attached? && d.value.phase.to != node)
    case Expand(required) => d.Some? && d.value.size >= Target(required)
  }

  /** What a polling goroutine knows: an accepted attach can only end at its own node, an accepted expansion
      only at its own size. */
  predicate PollOk(op: Op, d: Option<Disk>) {
    match op
    case Publish(node) =>
      d.Some? && (d.value.phase.Unattached? || d.value.phase == Attaching(node) || d.value.phase == Attached(node))
    case Unpublish(_) => true
    case Expand(required) =>
      d.Some? && if d.value.phase.Expanding? then d.value.phase.target >= Target(required)
                 else d.value.size >= Target(required)
  }

  /** What is taken for granted of the cloud: that it completes every expansion it accepts, and that it shows an
      unpublish the disks that are held. Otherwise nothing is known of expand calls, or of unpublish calls. */
  datatype Trust = Trust(completes: bool, shows: bool)

  const NOTHING := Trust(false, false)
  const COMPLETES := Trust(true, false)
  const SHOWS := Trust(false, true)

  predicate Excused(op: Op, trust: Trust) {
    (op.Expand? && !trust.completes) || (op.Unpublish? && !trust.shows)
  }

  predicate ResponseOk(op: Op, d: Option<Disk>, r: Response, trust: Trust) {
    r.Ok? ==> Achieved(op, d) || Excused(op, trust)
  }

  predicate TaskOk(op: Op, d: Option<Disk>, g: Goroutine<At>, trust: Trust) {
    match g
    case NotStarted => true
    case Running(at) =>
      && (at.Poll? ==> PollOk(op, d) || Excused(op, trust))
      && (at.Deliver? ==> ResponseOk(op, d, at.response, trust))
    case Sent(r) => ResponseOk(op, d, r, trust)
    case Finished(r) => ResponseOk(op, d, r, trust)
  }

  predicate Checked(op: Op) {
    op.Expand? || Supported(op.node)
  }

  predicate TasksOk(s: State, v: Volume, trust: Trust)
    requires v in s.calls
  {
    var call := s.calls[v];
    var ids := DiskIds.DisksOf(v);
    && |call.fan.gs| == |ids|
    && forall j :: 0 <= j < |ids| ==> TaskOk(call.op, Lookup(s, ids[j]), call.fan.gs[j], trust)
  }

  predicate CallOk(s: State, v: Volume, trust: Trust)
    requires v in s.calls
  {
    var call := s.calls[v];
    if Checked(call.op) then FanOut.Inv(call.fan) && TasksOk(s, v, trust)
    else call.fan == Fan(Returned(call.op.Unpublish?), [], [], 0)
  }

  predicate DiskOk(d: Disk) {
    && (Holder(d.phase).Some? ==> Supported(Holder(d.phase).value))
    && (d.phase.Expanding? ==> d.phase.target > d.size)
  }

  predicate Inv(volumes: set<Volume>, s: State, trust: Trust) {
    && s.calls.Keys <= volumes
    && (forall v :: v in s.calls ==> CallOk(s, v, trust))
    && (forall id :: id in s.disks ==> DiskOk(s.disks[id]))
  }

  /** An unpublish is shown no disk although the disk is still held at its node. */
  predicate HidesHeld(op: Op, d: Option<Disk>, at: At, a: Answer) {
    op.Unpublish? && at.Look? && a == Hidden && !Achieved(op, d)
  }

  predicate HidesHeldAt(s: State, v: Volume, j: nat, a: Answer)
    requires v in s.calls
  {
    var call := s.calls[v];
    var ids := DiskIds.DisksOf(v);
    && j < |call.fan.gs| && j < |ids| && call.fan.gs[j].Running?
    && HidesHeld(call.op, Lookup(s, ids[j]), call.fan.gs[j].at, a)
  }

  predicate Expected(s: State, e: Event, trust: Trust) {
    && (trust.completes && e.Cloud? && e.d in s.disks && s.disks[e.d].phase.Expanding? ==> e.ok)
    && (trust.shows && e.Goroutine? && e.v in s.calls ==> !HidesHeldAt(s, e.v, e.j, e.a))
  }

  lemma TaskKeeps(op: Op, d: Option<Disk>, at: At, a: Answer, trust: Trust)
    requires TaskOk(op, d, Running(at), trust)
    requires trust.shows ==> !HidesHeld(op, d, at, a)
    ensures var (work, d') := TaskStep(op, d, at, a);
            && (work.Goto? ==> TaskOk(op, d', Running(work.at), trust))
            && (work.Reply? ==> ResponseOk(op, d', work.response, trust))
  {
  }

  lemma TaskKeepsDisk(op: Op, d: Option<Disk>, at: At, a: Answer)
    ensures var d' := TaskStep(op, d, at, a).1;
            && (d.Some? <==> d'.Some?)
            && (d.Some? && Checked(op) && DiskOk(d.value) ==> DiskOk(d'.value))
            && (d.Some? ==> d'.value.size == d.value.size)
  {
  }

  lemma CloudKeeps(op: Op, d: Disk, g: Goroutine<At>, ok: bool, trust: Trust)
    requires TaskOk(op, Some(d), g, trust) && DiskOk(d)
    requires trust.completes && d.phase.Expanding? ==> ok
    ensures TaskOk(op, Some(CloudStep(d, ok)), g, trust)
    ensures DiskOk(CloudStep(d, ok))
  {
  }

  /** Another volume's call is untouched by changes to disks that are not its own. */
  lemma OtherCallKeeps(s: State, s': State, v: Volume, trust: Trust)
    requires v in s.calls && v in s'.calls && s'.calls[v] == s.calls[v] && CallOk(s, v, trust)
    requires forall id :: id in DiskIds.DisksOf(v) ==> Lookup(s', id) == Lookup(s, id)
    ensures CallOk(s', v, trust)
  {
    if Checked(s.calls[v].op) {
      var ids := DiskIds.DisksOf(v);
      forall j | 0 <= j < |ids| ensures TaskOk(s'.calls[v].op, Lookup(s', ids[j]), s'.calls[v].fan.gs[j], trust) {
        assert ids[j] in ids;
      }
    }
  }

  lemma BeginKeeps(volumes: set<Volume>, s: State, v: Volume, op: Op, trust: Trust)
    requires Inv(volumes, s, trust)
    ensures Inv(volumes, Next(volumes, s, Begin(v, op)), trust)
  {
    var s' := Next(volumes, s, Begin(v, op));
    BeginInv<At>(|DiskIds.DisksOf(v)|);
    forall w | w in s'.calls ensures CallOk(s', w, trust) {
      if w in s.calls {
        OtherCallKeeps(s, s', w, trust);
      }
    }
  }

  lemma CallStepKeeps(volumes: set<Volume>, s: State, v: Volume, trust: Trust)
    requires Inv(volumes, s, trust) && v in s.calls
    ensures Inv(volumes, Next(volumes, s, CallStep(v)), trust)
  {
    var s' := Next(volumes, s, CallStep(v));
    assert CallOk(s, v, trust);
    if Checked(s.calls[v].op) {
      MainInv(s.calls[v].fan, Look);
    }
    forall w | w in s'.calls ensures CallOk(s', w, trust) {
      if w != v {
        OtherCallKeeps(s, s', w, trust);
      }
    }
  }

  lemma OwnTasksKeep(s: State, v: Volume, j: nat, a: Answer, trust: Trust)
    requires v in s.calls && CallOk(s, v, trust) && j < |s.calls[v].fan.gs| && s.calls[v].fan.gs[j].Running?
    requires j < |DiskIds.DisksOf(v)| && (trust.shows ==> !HidesHeldAt(s, v, j, a))
    requires forall i, k :: 0 <= i < k < |DiskIds.DisksOf(v)| ==> DiskIds.DisksOf(v)[i] != DiskIds.DisksOf(v)[k]
    ensures CallOk(GoroutineAt(s, v, j, a), v, trust)
  {
    var s' := GoroutineAt(s, v, j, a);
    var call := s.calls[v];
    var ids := DiskIds.DisksOf(v);
    var (work, d) := TaskStep(call.op, Lookup(s, ids[j]), call.fan.gs[j].at, a);
    TaskKeeps(call.op, Lookup(s, ids[j]), call.fan.gs[j].at, a, trust);
    TaskKeepsDisk(call.op, Lookup(s, ids[j]), call.fan.gs[j].at, a);
    GoroutineInv(call.fan, j, work);
    SendNeverBlocks(call.fan, j);
    assert Lookup(s', ids[j]) == d;
    forall i | 0 <= i < |ids| ensures TaskOk(call.op, Lookup(s', ids[i]), s'.calls[v].fan.gs[i], trust) {
      assert TaskOk(call.op, Lookup(s, ids[i]), call.fan.gs[i], trust);
      if i != j {
        assert Lookup(s', ids[i]) == Lookup(s, ids[i]);
      }
    }
  }

  lemma OthersKeep(volumes: set<Volume>, s: State, v: Volume, j: nat, a: Answer, trust: Trust)
    requires Inv(volumes, s, trust) && Separate(volumes) && v in s.calls
    ensures forall w :: w in s.calls && w != v ==> CallOk(GoroutineAt(s, v, j, a), w, trust)
  {
    var s' := GoroutineAt(s, v, j, a);
    var ids := DiskIds.DisksOf(v);
    forall w | w in s.calls && w != v ensures CallOk(s', w, trust) {
      assert j < |ids| ==> ids[j] in ids;
      OtherCallKeeps(s, s', w, trust);
    }
  }

  lemma DisksStayOk(s: State, v: Volume, j: nat, a: Answer, trust: Trust)
    requires v in s.calls && CallOk(s, v, trust)
    requires forall id :: id in s.disks ==> DiskOk(s.disks[id])
    ensures forall id :: id in GoroutineAt(s, v, j, a).disks ==> DiskOk(GoroutineAt(s, v, j, a).disks[id])
  {
    var call := s.calls[v];
    var ids := DiskIds.DisksOf(v);
    if j < |call.fan.gs| && j < |ids| && call.fan.gs[j].Running? {
      TaskKeepsDisk(call.op, Lookup(s, ids[j]), call.fan.gs[j].at, a);
    }
  }

  lemma OwnCallKeeps(s: State, v: Volume, j: nat, a: Answer, trust: Trust)
    requires v in s.calls && CallOk(s, v, trust) && (trust.shows ==> !HidesHeldAt(s, v, j, a))
    requires forall i, k :: 0 <= i < k < |DiskIds.DisksOf(v)| ==> DiskIds.DisksOf(v)[i] != DiskIds.DisksOf(v)[k]
    ensures v in GoroutineAt(s, v, j, a).calls && CallOk(GoroutineAt(s, v, j, a), v, trust)
  {
    var call := s.calls[v];
    if j < |call.fan.gs| && j < |DiskIds.DisksOf(v)| {
      if call.fan.gs[j].Running? {
        OwnTasksKeep(s, v, j, a, trust);
      } else {
        GoroutineInv(call.fan, j, Reply(Ok));
      }
    }
  }

  lemma GoroutineKeeps(volumes: set<Volume>, s: State, v: Volume, j: nat, a: Answer, trust: Trust)
    requires Inv(volumes, s, trust) && Separate(volumes) && v in s.calls
    requires trust.shows ==> !HidesHeldAt(s, v, j, a)
    ensures Inv(volumes, GoroutineAt(s, v, j, a), trust)
  {
    assert CallOk(s, v, trust);
    OthersKeep(volumes, s, v, j, a, trust);
    OwnCallKeeps(s, v, j, a, trust);
    DisksStayOk(s, v, j, a, trust);
    assert GoroutineAt(s, v, j, a).calls.Keys == s.calls.Keys;
  }

  /** What a change to the cloud's disks must respect for the calls in flight. */
  lemma DisksChangeKeeps(volumes: set<Volume>, s: State, s': State, trust: Trust)
    requires Inv(volumes, s, trust) && s'.calls == s.calls
    requires forall id :: id in s'.disks ==> DiskOk(s'.disks[id])
    requires forall v, id, g ::
               v in s.calls && id in DiskIds.DisksOf(v) && TaskOk(s.calls[v].op, Lookup(s, id), g, trust) ==>
                 TaskOk(s.calls[v].op, Lookup(s', id), g, trust)
    ensures Inv(volumes, s', trust)
  {
    forall v | v in s'.calls ensures CallOk(s', v, trust) {
      assert CallOk(s, v, trust);
      if Checked(s.calls[v].op) {
        var ids := DiskIds.DisksOf(v);
        forall j | 0 <= j < |ids| ensures TaskOk(s'.calls[v].op, Lookup(s', ids[j]), s'.calls[v].fan.gs[j], trust) {
          assert ids[j] in ids;
          assert TaskOk(s.calls[v].op, Lookup(s, ids[j]), s.calls[v].fan.gs[j], trust);
        }
      }
    }
  }

  lemma CloudEventKeeps(volumes: set<Volume>, s: State, e: Event, trust: Trust)
    requires Inv(volumes, s, trust) && Separate(volumes) && Expected(s, e, trust)
    requires e.Cloud? || e.CreateDisk? || e.DeleteVolume?
    ensures Inv(volumes, Next(volumes, s, e), trust)
  {
    var s' := Next(volumes, s, e);
    forall v, id, g | v in s.calls && id in DiskIds.DisksOf(v) && TaskOk(s.calls[v].op, Lookup(s, id), g, trust)
      ensures TaskOk(s.calls[v].op, Lookup(s', id), g, trust)
    {
      if e.Cloud? && e.d == id && id in s.disks {
        CloudKeeps(s.calls[v].op, s.disks[id], g, e.ok, trust);
      } else if e.DeleteVolume? && s' != s {
        assert Lookup(s', id) == Lookup(s, id);
      }
    }
    DisksChangeKeeps(volumes, s, s', trust);
  }

  lemma NextKeeps(volumes: set<Volume>, s: State, e: Event, trust: Trust)
    requires Inv(volumes, s, trust) && Separate(volumes) && Expected(s, e, trust)
    ensures Inv(volumes, Next(volumes, s, e), trust)
  {
    match e
    case Begin(v, op) => BeginKeeps(volumes, s, v, op, trust);
    case CallStep(v) =>
      if v in s.calls {
        CallStepKeeps(volumes, s, v, trust);
      }
    case Goroutine(v, j, a) =>
      if v in s.calls {
        GoroutineKeeps(volumes, s, v, j, a, trust);
      }
    case Return(v) =>
      var s' := Next(volumes, s, e);
      forall w | w in s'.calls ensures CallOk(s', w, trust) {
        OtherCallKeeps(s, s', w, trust);
      }
    case Restart =>
    case _ => CloudEventKeeps(volumes, s, e, trust);
  }

  ghost predicate AllExpected(volumes: set<Volume>, s: State, events: seq<Event>, trust: Trust)
    decreases |events|
  {
    events != [] ==>
      Expected(s, events[0], trust) && AllExpected(volumes, Next(volumes, s, events[0]), events[1..], trust)
  }

  lemma {:induction false} RunKeeps(volumes: set<Volume>, s: State, events: seq<Event>, trust: Trust)
    requires Inv(volumes, s, trust) && Separate(volumes) && AllExpected(volumes, s, events, trust)
    ensures Inv(volumes, Run(volumes, s, events), trust)
    decreases |events|
  {
    if events != [] {
      NextKeeps(volumes, s, events[0], trust);
      RunKeeps(volumes, Next(volumes, s, events[0]), events[1..], trust);
    }
  }

  lemma {:induction false} AnyRunIsExpected(volumes: set<Volume>, s: State, events: seq<Event>)
    ensures AllExpected(volumes, s, events, NOTHING)
    decreases |events|
  {
    if events != [] {
      AnyRunIsExpected(volumes, Next(volumes, s, events[0]), events[1..]);
    }
  }

  // ----- Main results

  predicate Succeeded(s: State, v: Volume) {
    v in s.calls && s.calls[v].fan.main == Returned(true)
  }

  lemma SuccessAchieves(volumes: set<Volume>, s: State, v: Volume, trust: Trust, id: DiskId)
    requires Inv(volumes, s, trust) && Succeeded(s, v) && Checked(s.calls[v].op) && id in DiskIds.DisksOf(v)
    ensures Achieved(s.calls[v].op, Lookup(s, id)) || Excused(s.calls[v].op, trust)
  {
    var call := s.calls[v];
    var ids := DiskIds.DisksOf(v);
    assert CallOk(s, v, trust);
    ReturnedMeansAllResponded(call.fan);
    var j :| 0 <= j < |ids| && ids[j] == id;
    assert TaskOk(call.op, Lookup(s, ids[j]), call.fan.gs[j], trust);
  }

  /** Main result 1. However the goroutines, the calls for other volumes and the cloud interleave, and whatever
      earlier calls left behind: when publish has succeeded every disk of the volume is attached to the
      requested node, although the polling never looked at the instance. */
  lemma PublishIsTruthful(volumes: set<Volume>, events: seq<Event>, v: Volume, node: Instance)
    requires Separate(volumes)
    ensures var s := Run(volumes, INIT, events);
            Succeeded(s, v) && s.calls[v].op == Publish(node) ==>
            forall id :: id in DiskIds.DisksOf(v) ==> id in s.disks && s.disks[id].phase == Attached(node)
  {
    AnyRunIsExpected(volumes, INIT, events);
    RunKeeps(volumes, INIT, events, NOTHING);
    var s := Run(volumes, INIT, events);
    if Succeeded(s, v) && s.calls[v].op == Publish(node) {
      assert CallOk(s, v, NOTHING);
      forall id | id in DiskIds.DisksOf(v) ensures Achieved(Publish(node), Lookup(s, id)) {
        SuccessAchieves(volumes, s, v, NOTHING, id);
      }
    }
  }

  /** Main result 2. No disk is ever attached, attaching or detaching at a node that the publish check rejects. */
  lemma UnsupportedNodesHoldNothing(volumes: set<Volume>, events: seq<Event>, id: DiskId)
    requires Separate(volumes)
    ensures var s := Run(volumes, INIT, events);
            id in s.disks && Holder(s.disks[id].phase).Some? ==> Supported(Holder(s.disks[id].phase).value)
  {
    AnyRunIsExpected(volumes, INIT, events);
    RunKeeps(volumes, INIT, events, NOTHING);
  }

  /** Main result 3. As long as no unpublish is shown an empty description of a disk that is still held: when unpublish
      has succeeded no disk of the volume is attached to the node, attaching to it or still detaching from it; for an
      unsupported node, where the call looks at no disk, this is because nothing was ever attached there. */
  lemma UnpublishIsTruthful(volumes: set<Volume>, events: seq<Event>, v: Volume, node: Instance)
    requires Separate(volumes) && (Supported(node) ==> AllExpected(volumes, INIT, events, SHOWS))
    ensures var s := Run(volumes, INIT, events);
            Succeeded(s, v) && s.calls[v].op == Unpublish(node) ==>
            forall id :: id in DiskIds.DisksOf(v) && id in s.disks ==> Holder(s.disks[id].phase) != Some(node)
  {
    var s := Run(volumes, INIT, events);
    if Supported(node) && Succeeded(s, v) && s.calls[v].op == Unpublish(node) {
      RunKeeps(volumes, INIT, events, SHOWS);
      forall id | id in DiskIds.DisksOf(v) ensures Achieved(Unpublish(node), Lookup(s, id)) {
        SuccessAchieves(volumes, s, v, SHOWS, id);
      }
      forall id | id in DiskIds.DisksOf(v) && id in s.disks ensures Holder(s.disks[id].phase) != Some(node) {
        assert Achieved(Unpublish(node), Lookup(s, id));
      }
    } else if !Supported(node) {
      forall id | id in s.disks ensures Holder(s.disks[id].phase) != Some(node) {
        UnsupportedNodesHoldNothing(volumes, events, id);
      }
    }
  }

  // ----- Expansion

  /** Main result 4. No step of any run ever makes a disk smaller, except that a deleted disk is gone. */
  lemma DisksNeverShrink(volumes: set<Volume>, events: seq<Event>, e: Event, id: DiskId)
    requires Separate(volumes)
    ensures var s := Run(volumes, INIT, events);
            var s' := Next(volumes, s, e);
            id in s.disks && id in s'.disks ==> s'.disks[id].size >= s.disks[id].size
  {
    AnyRunIsExpected(volumes, INIT, events);
    RunKeeps(volumes, INIT, events, NOTHING);
    var s := Run(volumes, INIT, events);
    if e.Goroutine? && e.v in s.calls && e.j < |s.calls[e.v].fan.gs| && e.j < |DiskIds.DisksOf(e.v)| {
      var call := s.calls[e.v];
      assert CallOk(s, e.v, NOTHING);
      if call.fan.gs[e.j].Running? {
        TaskKeepsDisk(call.op, Lookup(s, DiskIds.DisksOf(e.v)[e.j]), call.fan.gs[e.j].at, e.a);
      }
    } else if e.Cloud? && id in s.disks {
      assert DiskOk(s.disks[id]);
    }
  }

  /** A disk of the target size holds the request and what expand reports of it. */
  lemma TargetHoldsRequest(required: int, size: nat)
    requires 0 <= required < Capacity.TWO_63 && size >= Target(required)
    ensures Capacity.CapacityCheck(size * Capacity.GIB, required)
    ensures (Target(required) - 1) * 1073741824 < required <= Target(required) * 1073741824
    ensures required <= Capacity.TWO_63 - Capacity.GIB ==>
              var reported := Capacity.GiBToBytes(Capacity.RoundUpGiB(required));
              required <= reported < required + Capacity.GIB && reported <= size * Capacity.GIB
  {
    Capacity.RoundUpIsCeiling(required);
    Capacity.ReportedCapacity(required);
  }

  /** Main result 5. As long as the cloud completes the expansions it accepts, a successful expand leaves every
      disk of the volume with at least the requested bytes. Up to 2^63 - 2^30 requested bytes the capacity it
      reports is at least the request, less than a gibibyte above it, and held by every disk, so the node's
      check passes on each of them. */
  lemma ExpandIsTruthful(volumes: set<Volume>, events: seq<Event>, v: Volume, required: int, id: DiskId)
    requires Separate(volumes) && AllExpected(volumes, INIT, events, COMPLETES)
    requires 0 <= required < Capacity.TWO_63
    requires Succeeded(Run(volumes, INIT, events), v)
    requires Run(volumes, INIT, events).calls[v].op == Expand(required)
    requires id in DiskIds.DisksOf(v)
    ensures var s := Run(volumes, INIT, events);
            && id in s.disks
            && Capacity.CapacityCheck(s.disks[id].size * Capacity.GIB, required)
            && (required <= Capacity.TWO_63 - Capacity.GIB ==>
                  var reported := Capacity.GiBToBytes(Capacity.RoundUpGiB(required));
                  required <= reported < required + Capacity.GIB && reported <= s.disks[id].size * Capacity.GIB)
  {
    RunKeeps(volumes, INIT, events, COMPLETES);
    var s := Run(volumes, INIT, events);
    SuccessAchieves(volumes, s, v, COMPLETES, id);
    assert Achieved(Expand(required), Lookup(s, id));
    TargetHoldsRequest(required, s.disks[id].size);
  }

  // ----- Success is possible

  /** The disks for which a call can do what it is asked: an attached disk can be detached from any node, but
      not attached to another one, and a disk in transition is refused by the cloud. */
  predicate Serviceable(op: Op, d: Option<Disk>) {
    match op
    case Publish(node) => d.Some? && (d.value.phase.Unattached? || d.value.phase == Attached(node))
    case Unpublish(_) => d.Some? ==> d.value.phase.Unattached? || d.value.phase.Attached?
    case Expand(required) =>
      d.Some? && (Target(required) <= d.value.size || d.value.phase.Unattached? || d.value.phase.Attached?)
  }

  /** What a goroutine delivers when every call is answered and the cloud completes the request before the poll. */
  function Delivered(op: Op, d: Option<Disk>): At {
    match LookStep(op, d, Answered)
    case Request =>
      var (at, d') := RequestStep(op, d, Answered);
      if at.Poll? && d'.Some? then PollStep(op, Some(CloudStep(d'.value, true)), Answered) else at
    case at => at
  }

  /** With a cloud that answers and completes everything, a goroutine succeeds exactly for serviceable disks. */
  lemma DeliversIffServiceable(op: Op, d: Option<Disk>)
    ensures Delivered(op, d) == Deliver(if Serviceable(op, d) then Ok else Error)
  {
  }

  lemma {:induction false} RunSnoc(volumes: set<Volume>, s: State, events: seq<Event>, e: Event)
    ensures Run(volumes, s, events + [e]) == Next(volumes, Run(volumes, s, events), e)
    decreases |events|
  {
    if events == [] {
      assert events + [e] == [e];
      assert Run(volumes, s, [e]) == Run(volumes, Next(volumes, s, e), [e][1..]);
    } else {
      assert (events + [e])[1..] == events[1..] + [e];
      RunSnoc(volumes, Next(volumes, s, events[0]), events[1..], e);
    }
  }

  lemma Then(volumes: set<Volume>, s: State, events: seq<Event>, now: State, e: Event)
    returns (events': seq<Event>, now': State)
    requires Run(volumes, s, events) == now
    ensures now' == Next(volumes, now, e) && Run(volumes, s, events') == now'
  {
    RunSnoc(volumes, s, events, e);
    events', now' := events + [e], Next(volumes, now, e);
  }

  /** The state of a call in a run: its goroutines, and the disks of the goroutines from `j` on untouched. */
  ghost predicate Underway(s: State, now: State, v: Volume, op: Op, j: nat)
    requires j <= |DiskIds.DisksOf(v)|
  {
    var ids := DiskIds.DisksOf(v);
    && v in now.calls && now.calls[v].op == op && |now.calls[v].fan.gs| == |ids|
    && FanOut.Inv(now.calls[v].fan)
    && forall i :: j <= i < |ids| ==> Lookup(now, ids[i]) == Lookup(s, ids[i])
  }

  /** One step of the call itself. */
  lemma ThenCallStep(volumes: set<Volume>, s: State, es: seq<Event>, base: State, now: State, v: Volume, op: Op, j: nat)
    returns (es': seq<Event>, now': State)
    requires Run(volumes, s, es) == now && j <= |DiskIds.DisksOf(v)| && Underway(base, now, v, op, j)
    ensures Run(volumes, s, es') == now' && Underway(base, now', v, op, j)
    ensures now'.calls[v].fan == MainStep(now.calls[v].fan, Look) && now'.disks == now.disks
  {
    MainInv(now.calls[v].fan, Look);
    es', now' := Then(volumes, s, es, now, CallStep(v));
  }

  /** The call starts all its goroutines and waits. */
  lemma StartsAll(volumes: set<Volume>, s: State, v: Volume, op: Op) returns (es: seq<Event>, now: State)
    requires v in volumes && v !in s.calls && Checked(op)
    ensures Run(volumes, s, es) == now && Underway(s, now, v, op, 0)
    ensures now.calls[v].fan.main == Waiting
    ensures forall i :: 0 <= i < |DiskIds.DisksOf(v)| ==> now.calls[v].fan.gs[i] == Running(Look)
  {
    var n := |DiskIds.DisksOf(v)|;
    BeginInv<At>(n);
    es, now := Then(volumes, s, [], s, Begin(v, op));
    for i := 0 to n
      invariant Run(volumes, s, es) == now && Underway(s, now, v, op, 0)
      invariant now.calls[v].fan.main == Adding(i)
      invariant forall k :: 0 <= k < i ==> now.calls[v].fan.gs[k] == Running(Look)
    {
      es, now := ThenCallStep(volumes, s, es, s, now, v, op, 0);
      es, now := ThenCallStep(volumes, s, es, s, now, v, op, 0);
    }
    es, now := ThenCallStep(volumes, s, es, s, now, v, op, 0);
  }

  /** One step of goroutine `j`. */
  lemma ThenGoroutine(volumes: set<Volume>, s: State, es: seq<Event>, base: State, now: State, v: Volume, op: Op,
                      j: nat, a: Answer)
    returns (es': seq<Event>, now': State)
    requires Run(volumes, s, es) == now && j < |DiskIds.DisksOf(v)| && Underway(base, now, v, op, j + 1)
    requires forall i, k :: 0 <= i < k < |DiskIds.DisksOf(v)| ==> DiskIds.DisksOf(v)[i] != DiskIds.DisksOf(v)[k]
    ensures Run(volumes, s, es') == now' && now' == GoroutineAt(now, v, j, a)
    ensures Underway(base, now', v, op, j + 1) && now'.calls[v].fan.main == now.calls[v].fan.main
    ensures forall i :: 0 <= i < |DiskIds.DisksOf(v)| && i != j ==> now'.calls[v].fan.gs[i] == now.calls[v].fan.gs[i]
  {
    var ids := DiskIds.DisksOf(v);
    var fan := now.calls[v].fan;
    es', now' := Then(volumes, s, es, now, Goroutine(v, j, a));
    if fan.gs[j].Running? {
      var (work, d) := TaskStep(op, Lookup(now, ids[j]), fan.gs[j].at, a);
      GoroutineInv(fan, j, work);
    } else {
      GoroutineInv(fan, j, Reply(Ok));
    }
  }

  /** A goroutine that has its answer sends it and finishes. */
  lemma DeliversAndFinishes(volumes: set<Volume>, s: State, es0: seq<Event>, base: State, s0: State, v: Volume, op: Op,
                            j: nat)
    returns (es: seq<Event>, now: State)
    requires Run(volumes, s, es0) == s0 && j < |DiskIds.DisksOf(v)| && Underway(base, s0, v, op, j + 1)
    requires forall i, k :: 0 <= i < k < |DiskIds.DisksOf(v)| ==> DiskIds.DisksOf(v)[i] != DiskIds.DisksOf(v)[k]
    requires s0.calls[v].fan.gs[j].Running? && s0.calls[v].fan.gs[j].at.Deliver?
    ensures Run(volumes, s, es) == now && Underway(base, now, v, op, j + 1)
    ensures now.calls[v].fan.main == s0.calls[v].fan.main
    ensures now.calls[v].fan.gs[j] == Finished(s0.calls[v].fan.gs[j].at.response)
    ensures now.disks == s0.disks
    ensures forall i :: 0 <= i < |DiskIds.DisksOf(v)| && i != j ==> now.calls[v].fan.gs[i] == s0.calls[v].fan.gs[i]
  {
    SendNeverBlocks(s0.calls[v].fan, j);
    es, now := ThenGoroutine(volumes, s, es0, base, s0, v, op, j, Answered);
    assert now.calls[v].fan.gs[j] == Goroutine<At>.Sent(s0.calls[v].fan.gs[j].at.response);
    es, now := ThenGoroutine(volumes, s, es, base, now, v, op, j, Answered);
  }

  /** The cloud carries out what is under way on one disk. */
  lemma ThenCloud(volumes: set<Volume>, s: State, es: seq<Event>, base: State, now: State, v: Volume, op: Op, j: nat,
                  ok: bool)
    returns (es': seq<Event>, now': State)
    requires Run(volumes, s, es) == now && j < |DiskIds.DisksOf(v)| && Underway(base, now, v, op, j + 1)
    requires forall i, k :: 0 <= i < k < |DiskIds.DisksOf(v)| ==> DiskIds.DisksOf(v)[i] != DiskIds.DisksOf(v)[k]
    requires Lookup(now, DiskIds.DisksOf(v)[j]).Some?
    ensures Run(volumes, s, es') == now' && Underway(base, now', v, op, j + 1) && now'.calls == now.calls
    ensures var id := DiskIds.DisksOf(v)[j]; Lookup(now', id) == Some(CloudStep(Lookup(now, id).value, ok))
  {
    es', now' := Then(volumes, s, es, now, Cloud(DiskIds.DisksOf(v)[j], ok));
  }

  /** A goroutine whose request the cloud accepts has its answer once the cloud has carried the request out. */
  lemma RequestComesToAnswer(volumes: set<Volume>, s: State, es0: seq<Event>, base: State, s0: State, v: Volume, op: Op,
                             j: nat)
    returns (es: seq<Event>, now: State)
    requires Run(volumes, s, es0) == s0 && j < |DiskIds.DisksOf(v)| && Underway(base, s0, v, op, j + 1)
    requires forall i, k :: 0 <= i < k < |DiskIds.DisksOf(v)| ==> DiskIds.DisksOf(v)[i] != DiskIds.DisksOf(v)[k]
    requires var d := Lookup(s0, DiskIds.DisksOf(v)[j]); Serviceable(op, d) && LookStep(op, d, Answered).Request?
    requires s0.calls[v].fan.gs[j] == Running(Request)
    ensures Run(volumes, s, es) == now && Underway(base, now, v, op, j + 1)
    ensures now.calls[v].fan.main == s0.calls[v].fan.main && now.calls[v].fan.gs[j] == Running(Deliver(Ok))
    ensures forall i :: 0 <= i < |DiskIds.DisksOf(v)| && i != j ==> now.calls[v].fan.gs[i] == s0.calls[v].fan.gs[i]
  {
    var id := DiskIds.DisksOf(v)[j];
    var d := Lookup(s0, id);
    DeliversIffServiceable(op, d);
    es, now := ThenGoroutine(volumes, s, es0, base, s0, v, op, j, Answered);
    var (at, d') := RequestStep(op, d, Answered);
    assert now.calls[v].fan.gs[j] == Running(at) && Lookup(now, id) == d';
    es, now := ThenCloud(volumes, s, es, base, now, v, op, j, true);
    es, now := ThenGoroutine(volumes, s, es, base, now, v, op, j, Answered);
  }

  /** A goroutine for a serviceable disk comes to a successful answer. */
  lemma ComesToAnswer(volumes: set<Volume>, s: State, es0: seq<Event>, base: State, s0: State, v: Volume, op: Op,
                      j: nat)
    returns (es: seq<Event>, now: State)
    requires Run(volumes, s, es0) == s0 && j < |DiskIds.DisksOf(v)| && Underway(base, s0, v, op, j + 1)
    requires forall i, k :: 0 <= i < k < |DiskIds.DisksOf(v)| ==> DiskIds.DisksOf(v)[i] != DiskIds.DisksOf(v)[k]
    requires s0.calls[v].fan.gs[j] == Running(Look) && Serviceable(op, Lookup(s0, DiskIds.DisksOf(v)[j]))
    ensures Run(volumes, s, es) == now && Underway(base, now, v, op, j + 1)
    ensures now.calls[v].fan.main == s0.calls[v].fan.main && now.calls[v].fan.gs[j] == Running(Deliver(Ok))
    ensures forall i :: 0 <= i < |DiskIds.DisksOf(v)| && i != j ==> now.calls[v].fan.gs[i] == s0.calls[v].fan.gs[i]
  {
    var id := DiskIds.DisksOf(v)[j];
    var d := Lookup(s0, id);
    DeliversIffServiceable(op, d);
    es, now := ThenGoroutine(volumes, s, es0, base, s0, v, op, j, Answered);
    assert now.calls[v].fan.gs[j] == Running(LookStep(op, d, Answered));
    if LookStep(op, d, Answered).Request? {
      assert Lookup(now, id) == d;
      es, now := RequestComesToAnswer(volumes, s, es, base, now, v, op, j);
    }
  }

  /** Main result 6. Nothing that earlier calls have done keeps a call from succeeding: whenever no call is in
      flight for a volume and its disks are serviceable, publish, unpublish and expand can still succeed. */
  lemma CallCanSucceed(volumes: set<Volume>, s: State, v: Volume, op: Op) returns (es: seq<Event>)
    requires Separate(volumes) && v in volumes && v !in s.calls && Checked(op)
    requires forall id :: id in DiskIds.DisksOf(v) ==> Serviceable(op, Lookup(s, id))
    ensures Succeeded(Run(volumes, s, es), v) && Run(volumes, s, es).calls[v].op == op
  {
    var ids := DiskIds.DisksOf(v);
    var now;
    es, now := StartsAll(volumes, s, v, op);
    for j := 0 to |ids|
      invariant Run(volumes, s, es) == now && Underway(s, now, v, op, j) && now.calls[v].fan.main == Waiting
      invariant forall i :: 0 <= i < |ids| ==> now.calls[v].fan.gs[i] == if i < j then Finished(Ok) else Running(Look)
    {
      assert ids[j] in ids;
      es, now := ComesToAnswer(volumes, s, es, s, now, v, op, j);
      es, now := DeliversAndFinishes(volumes, s, es, s, now, v, op, j);
    }
    AllFinishedWakesWait(now.calls[v].fan);
    es, now := ThenCallStep(volumes, s, es, s, now, v, op, |ids|);
    ReturnedMeansAllResponded(now.calls[v].fan);
  }

  /** A goroutine for an idle disk that is too small gets its expansion accepted and polls. */
  lemma ExpansionIsAccepted(volumes: set<Volume>, s: State, es0: seq<Event>, s0: State, v: Volume, required: int)
    returns (es: seq<Event>, now: State)
    requires var op := Expand(required);
             && Run(volumes, s, es0) == s0 && |DiskIds.DisksOf(v)| == 1 && Underway(s0, s0, v, op, 1)
             && s0.calls[v].fan.gs[0] == Running(Look)
    requires var d := Lookup(s0, DiskIds.DisksOf(v)[0]);
             d.Some? && d.value.phase.Unattached? && d.value.size < Target(required)
    ensures Run(volumes, s, es) == now && Underway(s0, now, v, Expand(required), 1)
    ensures now.calls[v].fan.main == s0.calls[v].fan.main && now.calls[v].fan.gs[0] == Running(Poll)
    ensures var id := DiskIds.DisksOf(v)[0];
            Lookup(now, id) == Some(Disk(Expanding(None, Target(required)), s0.disks[id].size))
  {
    var op, id := Expand(required), DiskIds.DisksOf(v)[0];
    es, now := ThenGoroutine(volumes, s, es0, s0, s0, v, op, 0, Answered);
    assert now.calls[v].fan.gs[0] == Running(Request) && Lookup(now, id) == Lookup(s0, id);
    es, now := ThenGoroutine(volumes, s, es, s0, now, v, op, 0, Answered);
  }

  /** And it comes to a successful answer, whether the cloud completes the expansion or abandons it: polling stops at
      any state but EXPANDING. */
  lemma ExpansionComesToAnswer(volumes: set<Volume>, s: State, es0: seq<Event>, s0: State, v: Volume, required: int,
                               completes: bool) returns (es: seq<Event>, now: State)
    requires var op := Expand(required);
             && Run(volumes, s, es0) == s0 && |DiskIds.DisksOf(v)| == 1 && Underway(s0, s0, v, op, 1)
             && s0.calls[v].fan.gs[0] == Running(Look)
    requires var d := Lookup(s0, DiskIds.DisksOf(v)[0]);
             d.Some? && d.value.phase.Unattached? && d.value.size < Target(required)
    ensures Run(volumes, s, es) == now && Underway(s0, now, v, Expand(required), 1)
    ensures now.calls[v].fan.main == s0.calls[v].fan.main && now.calls[v].fan.gs[0] == Running(Deliver(Ok))
    ensures var id := DiskIds.DisksOf(v)[0];
            Lookup(now, id) == Some(Disk(Unattached, if completes then Target(required) else s0.disks[id].size))
  {
    es, now := ExpansionIsAccepted(volumes, s, es0, s0, v, required);
    es, now := ThenCloud(volumes, s, es, s0, now, v, Expand(required), 0, completes);
    es, now := ThenGoroutine(volumes, s, es, s0, now, v, Expand(required), 0, Answered);
  }

  /** The proviso of ExpandIsTruthful is needed: from the start there is a run in which a volume of one disk is expanded
      and the call succeeds, and the disk holds the request if and only if the cloud completed the expansion. */
  lemma AbandonedExpansionIsReportedDone(volumes: set<Volume>, v: Volume, id: DiskId, required: int, size: nat,
                                         completes: bool) returns (es: seq<Event>)
    requires v in volumes && DiskIds.DisksOf(v) == [id]
    requires 0 <= required < Capacity.TWO_63 && size < Target(required)
    ensures var s := Run(volumes, INIT, es);
            && Succeeded(s, v) && s.calls[v].op == Expand(required) && id in s.disks
            && s.disks[id].size == (if completes then Target(required) else size)
            && (Capacity.CapacityCheck(s.disks[id].size * Capacity.GIB, required) <==> completes)
  {
    var s0 := Next(volumes, INIT, CreateDisk(id, size));
    var now;
    assert s0.disks == map[id := Disk(Unattached, size)];
    es, now := ExpandsFrom(volumes, s0, v, id, required, completes);
    Capacity.RoundUpIsCeiling(required);
    assert ([CreateDisk(id, size)] + es)[1..] == es;
    es := [CreateDisk(id, size)] + es;
  }

  lemma ExpandsFrom(volumes: set<Volume>, s0: State, v: Volume, id: DiskId, required: int, completes: bool)
    returns (es: seq<Event>, now: State)
    requires v in volumes && v !in s0.calls && DiskIds.DisksOf(v) == [id]
    requires id in s0.disks && s0.disks[id].phase.Unattached? && s0.disks[id].size < Target(required)
    ensures now == Run(volumes, s0, es) && Succeeded(now, v) && now.calls[v].op == Expand(required)
    ensures Lookup(now, id) == Some(Disk(Unattached, if completes then Target(required) else s0.disks[id].size))
  {
    var op := Expand(required);
    var started;
    es, started := StartsAll(volumes, s0, v, op);
    assert DiskIds.DisksOf(v)[0] == id && Lookup(started, id) == Lookup(s0, id);
    es, now := ExpansionComesToAnswer(volumes, s0, es, started, v, required, completes);
    es, now := AnswerReturns(volumes, s0, es, started, now, v, op);
  }

  // ----- The empty description

  /** A look alone makes unpublish report success exactly when the disk is shown released, or is not shown; and that is
      truthful exactly when no held disk is hidden. */
  lemma LookReleasesIff(node: Instance, d: Option<Disk>, a: Answer)
    ensures var op := Unpublish(node);
            && (LookStep(op, d, a) == Deliver(Ok) <==> a == Hidden || (a == Answered && Achieved(op, d)))
            && (LookStep(op, d, a) == Deliver(Ok) ==> (Achieved(op, d) <==> !HidesHeld(op, d, Look, a)))
  {
  }

  lemma {:induction false} RunThen(volumes: set<Volume>, s: State, first: seq<Event>, second: seq<Event>)
    ensures Run(volumes, s, first + second) == Run(volumes, Run(volumes, s, first), second)
    decreases |first|
  {
    if first == [] {
      assert first + second == second;
    } else {
      assert (first + second)[1..] == first[1..] + second;
      RunThen(volumes, Next(volumes, s, first[0]), first[1..], second);
    }
  }

  /** A goroutine of an unpublish that is shown no disk has its answer, and nothing has changed. */
  lemma HiddenComesToAnswer(volumes: set<Volume>, s: State, es0: seq<Event>, s0: State, v: Volume, node: Instance)
    returns (es: seq<Event>, now: State)
    requires Run(volumes, s, es0) == s0 && |DiskIds.DisksOf(v)| == 1 && Underway(s0, s0, v, Unpublish(node), 1)
    requires s0.calls[v].fan.gs[0] == Running(Look)
    ensures Run(volumes, s, es) == now && Underway(s0, now, v, Unpublish(node), 1)
    ensures now.calls[v].fan.main == s0.calls[v].fan.main && now.calls[v].fan.gs[0] == Running(Deliver(Ok))
    ensures Lookup(now, DiskIds.DisksOf(v)[0]) == Lookup(s0, DiskIds.DisksOf(v)[0])
  {
    es, now := ThenGoroutine(volumes, s, es0, s0, s0, v, Unpublish(node), 0, Hidden);
  }

  /** An unpublish whose look at its one disk is answered with an empty description succeeds and does nothing. */
  lemma HiddenUnpublish(volumes: set<Volume>, s0: State, v: Volume, id: DiskId, node: Instance)
    returns (es: seq<Event>, now: State)
    requires v in volumes && v !in s0.calls && DiskIds.DisksOf(v) == [id] && Supported(node)
    ensures now == Run(volumes, s0, es) && Succeeded(now, v) && now.calls[v].op == Unpublish(node)
    ensures Lookup(now, id) == Lookup(s0, id)
  {
    var started, looked;
    es, started := StartsAll(volumes, s0, v, Unpublish(node));
    assert DiskIds.DisksOf(v)[0] == id && Lookup(started, id) == Lookup(s0, id);
    es, looked := HiddenComesToAnswer(volumes, s0, es, started, v, node);
    es, now := AnswerReturns(volumes, s0, es, started, looked, v, Unpublish(node));
  }

  /** A call for one disk whose goroutine has its answer returns with success. */
  lemma AnswerReturns(volumes: set<Volume>, s: State, es0: seq<Event>, base: State, s0: State, v: Volume, op: Op)
    returns (es: seq<Event>, now: State)
    requires Run(volumes, s, es0) == s0 && |DiskIds.DisksOf(v)| == 1 && Underway(base, s0, v, op, 1)
    requires s0.calls[v].fan.main == Waiting && s0.calls[v].fan.gs[0] == Running(Deliver(Ok))
    ensures Run(volumes, s, es) == now && Succeeded(now, v) && now.calls[v].op == op && now.disks == s0.disks
  {
    es, now := DeliversAndFinishes(volumes, s, es0, base, s0, v, op, 0);
    AllFinishedWakesWait(now.calls[v].fan);
    es, now := ThenCallStep(volumes, s, es, base, now, v, op, 1);
    ReturnedMeansAllResponded(now.calls[v].fan);
  }

  /** The proviso of UnpublishIsTruthful is needed: from the start there is a run in which a volume of one disk is
      published and then unpublished, both with success, and the disk is still attached to the node. */
  lemma HiddenDiskIsReportedDetached(volumes: set<Volume>, v: Volume, id: DiskId, node: Instance, size: nat)
    returns (es: seq<Event>)
    requires Separate(volumes) && v in volumes && DiskIds.DisksOf(v) == [id] && Supported(node)
    ensures var s := Run(volumes, INIT, es);
            && Succeeded(s, v) && s.calls[v].op == Unpublish(node)
            && id in s.disks && s.disks[id].phase == Attached(node)
  {
    var s0 := Next(volumes, INIT, CreateDisk(id, size));
    var published, returned, now;
    var publish := CallCanSucceed(volumes, s0, v, Publish(node));
    var first := [CreateDisk(id, size)] + publish;
    assert first[1..] == publish && DiskIds.DisksOf(v)[0] == id;
    published := Run(volumes, INIT, first);
    PublishIsTruthful(volumes, first, v, node);
    es, returned := Then(volumes, INIT, first, published, Return(v));
    var last;
    last, now := HiddenUnpublish(volumes, returned, v, id, node);
    RunThen(volumes, INIT, es, last);
    es := es + last;
  }

  // ----- Which nodes volumes can be published to

  /** The volume's disks, created one after the other. */
  lemma DisksCanExist(volumes: set<Volume>, v: Volume) returns (es: seq<Event>, now: State)
    ensures Run(volumes, INIT, es) == now && now.calls == map[]
    ensures forall id :: id in DiskIds.DisksOf(v) ==> Lookup(now, id) == Some(Disk(Unattached, 0))
  {
    var ids := DiskIds.DisksOf(v);
    es, now := [], INIT;
    for i := 0 to |ids|
      invariant Run(volumes, INIT, es) == now && now.calls == map[]
      invariant forall id :: id in now.disks ==> now.disks[id] == Disk(Unattached, 0)
      invariant forall k :: 0 <= k < i ==> ids[k] in now.disks
    {
      es, now := Then(volumes, INIT, es, now, CreateDisk(ids[i], 0));
    }
  }

  lemma CheckedInFull(node: Instance)
    ensures Supported(node) <==> exists x :: |x| == 8 && (node == "ins-" + x || node == "eks-" + x)
  {
    if Supported(node) {
      assert node == node[..4] + node[4..] && |node[4..]| == 8;
    }
  }

  /** Main result 7. There is a run from the start in which a volume is published to a node, if and only if the node's
      id is one of the two prefixes and eight more characters. */
  lemma PublishableIff(volumes: set<Volume>, v: Volume, node: Instance)
    requires Separate(volumes) && v in volumes
    ensures (exists es :: PublishedBy(volumes, es, v, node)) <==>
            exists x :: |x| == 8 && (node == "ins-" + x || node == "eks-" + x)
  {
    CheckedInFull(node);
    if Supported(node) {
      var created, now := DisksCanExist(volumes, v);
      var es := CallCanSucceed(volumes, now, v, Publish(node));
      RunThen(volumes, INIT, created, es);
      assert PublishedBy(volumes, created + es, v, node);
    } else {
      forall es ensures !PublishedBy(volumes, es, v, node) {
        AnyRunIsExpected(volumes, INIT, es);
        RunKeeps(volumes, INIT, es, NOTHING);
        assert v in Run(volumes, INIT, es).calls ==> CallOk(Run(volumes, INIT, es), v, NOTHING);
      }
    }
  }

  /** An unpublish from any other node succeeds at once, and a publish to it fails at once; neither looks at a disk. */
  lemma UncheckedReturnsAtOnce(volumes: set<Volume>, s: State, v: Volume, node: Instance)
    requires v in volumes && v !in s.calls
    requires !exists x :: |x| == 8 && (node == "ins-" + x || node == "eks-" + x)
    ensures var unpublished := Next(volumes, s, Begin(v, Unpublish(node)));
            Succeeded(unpublished, v) && unpublished.disks == s.disks
    ensures var published := Next(volumes, s, Begin(v, Publish(node)));
            v in published.calls && published.calls[v].fan.main == Returned(false) && published.disks == s.disks
  {
    CheckedInFull(node);
  }

  ghost predicate PublishedBy(volumes: set<Volume>, es: seq<Event>, v: Volume, node: Instance) {
    var s := Run(volumes, INIT, es); Succeeded(s, v) && s.calls[v].op == Publish(node)
  }

  // ----- Every call can end

  /** Any call in flight can return without any help from the cloud: a refused description or request ends a
      goroutine's work, and so does the deadline while it polls. */
  function EndingAnswer(at: At): Answer {
    match at
    case Look => Refused
    case Request => Refused
    case Poll => Deadline
    case Deliver(_) => Answered
  }

  lemma GoroutineGivesUp(volumes: set<Volume>, s: State, es0: seq<Event>, s0: State, v: Volume, op: Op, j: nat)
    returns (es: seq<Event>, now: State)
    requires Run(volumes, s, es0) == s0 && j < |DiskIds.DisksOf(v)| && Underway(s0, s0, v, op, j + 1)
    requires forall i, k :: 0 <= i < k < |DiskIds.DisksOf(v)| ==> DiskIds.DisksOf(v)[i] != DiskIds.DisksOf(v)[k]
    requires s0.calls[v].fan.gs[j].Running?
    ensures Run(volumes, s, es) == now && Underway(s0, now, v, op, j + 1)
    ensures now.calls[v].fan.main == s0.calls[v].fan.main
    ensures now.calls[v].fan.gs[j].Running? && now.calls[v].fan.gs[j].at.Deliver?
    ensures forall i :: 0 <= i < |DiskIds.DisksOf(v)| && i != j ==> now.calls[v].fan.gs[i] == s0.calls[v].fan.gs[i]
  {
    es, now := es0, s0;
    var at := s0.calls[v].fan.gs[j].at;
    if !at.Deliver? {
      es, now := ThenGoroutine(volumes, s, es, s0, now, v, op, j, EndingAnswer(at));
    }
  }

  lemma GoroutineEnds(volumes: set<Volume>, s: State, es0: seq<Event>, s0: State, v: Volume, op: Op, j: nat)
    returns (es: seq<Event>, now: State)
    requires Run(volumes, s, es0) == s0 && j < |DiskIds.DisksOf(v)| && Underway(s0, s0, v, op, j + 1)
    requires forall i, k :: 0 <= i < k < |DiskIds.DisksOf(v)| ==> DiskIds.DisksOf(v)[i] != DiskIds.DisksOf(v)[k]
    requires !s0.calls[v].fan.gs[j].NotStarted?
    ensures Run(volumes, s, es) == now && Underway(now, now, v, op, 0)
    ensures now.calls[v].fan.main == s0.calls[v].fan.main && now.calls[v].fan.gs[j].Finished?
    ensures forall i :: 0 <= i < |DiskIds.DisksOf(v)| && i != j ==> now.calls[v].fan.gs[i] == s0.calls[v].fan.gs[i]
  {
    es, now := es0, s0;
    if s0.calls[v].fan.gs[j].Running? {
      es, now := GoroutineGivesUp(volumes, s, es, s0, v, op, j);
      es, now := DeliversAndFinishes(volumes, s, es, s0, now, v, op, j);
    } else if s0.calls[v].fan.gs[j].Sent? {
      es, now := ThenGoroutine(volumes, s, es, s0, s0, v, op, j, Answered);
    }
  }

  /** A call that has not started all its goroutines yet does so, and waits. */
  lemma StartsRest(volumes: set<Volume>, s: State, v: Volume, op: Op) returns (es: seq<Event>, now: State)
    requires Underway(s, s, v, op, 0) && !s.calls[v].fan.main.Returned?
    ensures Run(volumes, s, es) == now && Underway(s, now, v, op, 0) && now.calls[v].fan.main == Waiting
    decreases |DiskIds.DisksOf(v)| - Started(s.calls[v].fan),
              if s.calls[v].fan.main.Waiting? then 0 else if s.calls[v].fan.main.Starting? then 1 else 2
  {
    if s.calls[v].fan.main.Waiting? {
      es, now := [], s;
    } else {
      var s1;
      es, s1 := ThenCallStep(volumes, s, [], s, s, v, op, 0);
      var rest;
      rest, now := StartsRest(volumes, s1, v, op);
      RunThen(volumes, s, es, rest);
      es := es + rest;
    }
  }

  /** Main result 8. From any state of any run a call in flight can still return. */
  lemma CallCanEnd(volumes: set<Volume>, events: seq<Event>, v: Volume) returns (es: seq<Event>)
    requires Separate(volumes) && v in Run(volumes, INIT, events).calls
    ensures var s := Run(volumes, INIT, events + es); v in s.calls && s.calls[v].fan.main.Returned?
  {
    var s := Run(volumes, INIT, events);
    AnyRunIsExpected(volumes, INIT, events);
    RunKeeps(volumes, INIT, events, NOTHING);
    assert CallOk(s, v, NOTHING);
    var op, ids := s.calls[v].op, DiskIds.DisksOf(v);
    if s.calls[v].fan.main.Returned? {
      es := [];
      assert events + es == events;
      return;
    }
    var now;
    es, now := StartsRest(volumes, s, v, op);
    for j := 0 to |ids|
      invariant Run(volumes, s, es) == now && Underway(now, now, v, op, 0) && now.calls[v].fan.main == Waiting
      invariant forall i :: 0 <= i < j ==> now.calls[v].fan.gs[i].Finished?
    {
      es, now := GoroutineEnds(volumes, s, es, now, v, op, j);
    }
    AllFinishedWakesWait(now.calls[v].fan);
    es, now := ThenCallStep(volumes, s, es, now, now, v, op, 0);
    RunThen(volumes, INIT, events, es);
  }

  /** A description or a request that is answered with an error ends the goroutine's work with an error, whether or not
      the cloud has carried the request out; and so does a request that the cloud does not accept. A look that is
      answered ends it for a disk that is as asked for, missing or, for publish, attached elsewhere. */
  lemma ErrorsAreReported(op: Op, d: Option<Disk>, a: Answer)
    ensures a in {Refused, LostAnswer, Deadline} ==> LookStep(op, d, a) == Deliver(Error)
    ensures var (at, d') := RequestStep(op, d, a);
            && (at == Poll <==> a == Answered && d.Some? && Accepts(op, d.value))
            && (at != Poll ==> at == Deliver(Error))
            && (a == Refused ==> d' == d)
            && (at == Poll ==> d' == RequestStep(op, d, LostAnswer).1)
    ensures op.Publish? && a == Answered ==>
              && (LookStep(op, d, a) == Deliver(Ok) <==> d.Some? && d.value.phase == Attached(op.node))
              && (LookStep(op, d, a) == Deliver(Error) <==>
                  d.None? || (d.value.phase.Attached? && d.value.phase.to != op.node))
    ensures op.Expand? && a == Answered ==>
              && (LookStep(op, d, a) == Deliver(Ok) <==> d.Some? && Target(op.required) <= d.value.size)
              && (LookStep(op, d, a) == Deliver(Error) <==> d.None?)
  {
  }

  /** What a polling goroutine of each kind waits for. */
  predicate Reached(op: Op, d: Disk) {
    match op
    case Publish(_) => d.phase.Attached?
    case Unpublish(_) => d.phase.Unattached?
    case Expand(_) => !d.phase.Expanding?
  }

  function PollAll(op: Op, d: Option<Disk>, answers: seq<Answer>): At
    decreases |answers|
  {
    if answers == [] then Poll
    else
      match PollStep(op, d, answers[0])
      case Poll => PollAll(op, d, answers[1..])
      case at => at
  }

  /** Failed and empty descriptions do not end the polling: before the deadline it ends, and with success, exactly when
      some description shows that the disk has got there. */
  lemma {:induction false} PollingOutlastsFailures(op: Op, d: Option<Disk>, answers: seq<Answer>)
    requires Deadline !in answers
    ensures PollAll(op, d, answers) ==
            if Answered in answers && d.Some? && Reached(op, d.value) then Deliver(Ok) else Poll
    decreases |answers|
  {
    if answers != [] {
      assert answers == [answers[0]] + answers[1..];
      PollingOutlastsFailures(op, d, answers[1..]);
    }
  }
}
