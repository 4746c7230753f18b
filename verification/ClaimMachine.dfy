/**
 The claim lifecycle as a step machine (cmd/tpu-dra-kubeletplugin/state.go). One step is one durable
 operation, which may fail before or after its effect; a crash may fall between any two steps, and a
 restart runs NewDeviceState again on whatever the disk then holds.
 */
module ClaimMachine {
  import opened Wrappers
  import opened Cdi
  import Text

  const DRIVER_NAME := "tpu.google.com"

  datatype AllocationResult = AllocationResult(driver: string, request: string, pool: string, device: string)
  datatype Claim = Claim(uid: Uid, allocation: Option<seq<AllocationResult>>)

  /** What one start of the plugin fixes: the enumerated devices, the labels' chip count, the sharing policy. */
  datatype Node = Node(chipCount: nat, devices: set<string>, devDirectory: string, tpuGen: string,
                       sharing: bool, commonEnv: seq<string>)

  /** ChipCount rejects counts below one, enumeration any count but the number of devices it found. */
  predicate ValidNode(node: Node) {
    0 < node.chipCount == |node.devices|
  }

  // ----- prepareDevices

  datatype PrepareError = NotAllocated | PartialAllocation(results: nat) | NotAllocatable

  /** The allocation results owned by this driver, in order. */
  function OwnResults(results: seq<AllocationResult>): (own: seq<AllocationResult>)
    ensures forall r :: r in own <==> r in results && r.driver == DRIVER_NAME
  {
    if results == [] then []
    else (if results[0].driver == DRIVER_NAME then [results[0]] else []) + OwnResults(results[1..])
  }

  /** DeviceNodeContainerEdits: the chip's own node and, for v5 and v6e, the vfio control node. */
  function DeviceNodes(node: Node, device: string): seq<DeviceNode> {
    [DeviceNode(node.devDirectory + "/" + device, "mrw")] +
    if Text.HasPrefix(node.tpuGen, "v5") || Text.HasPrefix(node.tpuGen, "v6e")
    then [DeviceNode(node.devDirectory + "/vfio", "mrw")] else []
  }

  function PreparedFor(node: Node, uid: Uid, r: AllocationResult): PreparedDevice {
    PreparedDevice(Device([r.request], r.pool, r.device, ClaimDeviceIds(uid, [r.device])), DeviceNodes(node, r.device))
  }

  function PreparedAll(node: Node, uid: Uid, own: seq<AllocationResult>): (ps: seq<PreparedDevice>)
    ensures |ps| == |own|
    ensures forall i :: 0 <= i < |ps| ==> ps[i] == PreparedFor(node, uid, own[i])
  {
    if own == [] then [] else [PreparedFor(node, uid, own[0])] + PreparedAll(node, uid, own[1..])
  }

  function PrepareDevices(node: Node, claim: Claim): Result<seq<PreparedDevice>, PrepareError> {
    if claim.allocation.None? then Err(NotAllocated) else
    var own := OwnResults(claim.allocation.value);
    if |own| != node.chipCount then Err(PartialAllocation(|own|))
    else if exists r :: r in own && r.device !in node.devices then Err(NotAllocatable)
    else Ok(PreparedAll(node, claim.uid, own))
  }

  function GetDevices(ps: seq<PreparedDevice>): (ds: seq<Device>)
    ensures |ds| == |ps|
    ensures forall i :: 0 <= i < |ds| ==> ds[i] == ps[i].device
  {
    if ps == [] then [] else [ps[0].device] + GetDevices(ps[1..])
  }

  function Names(ps: seq<PreparedDevice>): set<string> {
    set p | p in ps :: p.device.name
  }

  // ----- state

  type Checkpoint = map<Uid, seq<PreparedDevice>>

  /** What survives a crash. */
  datatype Disk = Disk(checkpoint: Option<Checkpoint>, specs: map<Uid, Spec>, logs: set<string>)

  datatype Call = PrepareCall(claim: Claim) | UnprepareCall(uid: Uid)

  /** What the process is doing; `loaded` is the checkpoint the call read. Nothing of it survives a crash. */
  datatype Pc =
    | Down
    | BootCommon(node: Node)
    | BootList(node: Node)
    | BootCreate(node: Node)
    | Idle(node: Node)
    | PrepareRead(node: Node, claim: Claim)
    | PrepareSpec(node: Node, uid: Uid, devices: seq<PreparedDevice>, loaded: Checkpoint, restored: bool)
    | PrepareCommit(node: Node, uid: Uid, devices: seq<PreparedDevice>, loaded: Checkpoint)
    | UnprepareRead(node: Node, uid: Uid)
    | UnprepareList(node: Node, uid: Uid, loaded: Checkpoint)
    | UnprepareWipe(node: Node, uid: Uid, loaded: Checkpoint, todo: seq<string>)
    | UnprepareSpec(node: Node, uid: Uid, loaded: Checkpoint)
    | UnprepareCommit(node: Node, uid: Uid, loaded: Checkpoint)

  /**
   What an observer outside the process knows.
   - answers: the live claims (a Prepare succeeded, no Unprepare invoked since) and the devices answered;
   - openPrepare: a Prepare was invoked and neither it nor a later one succeeded, nor was the claim torn down;
   - openUnprepare: an Unprepare was invoked and neither it nor a later call for the claim succeeded;
   - usedCommon: some call named the UID "common".
   */
  datatype History = History(answers: map<Uid, seq<Device>>, openPrepare: set<Uid>, openUnprepare: set<Uid>,
                             usedCommon: bool)

  datatype State = State(disk: Disk, pc: Pc, hist: History)

  /** The reply that ends a call; `removed` tells a teardown from an Unprepare of an unknown claim. */
  datatype Reply = Prepared(uid: Uid, devices: seq<Device>) | Unprepared(uid: Uid, removed: bool) | Failed(uid: Uid)

  datatype Event =
    | Start(node: Node)
    | Invoke(call: Call)
    | Step(io: Io)
    | ListLogs(names: seq<string>)
    | LogWrite(written: set<string>)
    | Crash

  function Initial(logs: set<string>): State {
    State(Disk(None, map[], logs), Down, History(map[], {}, {}, false))
  }

  // ----- transitions

  /** A claim counts as prepared when its entry is there and not nil. */
  predicate Known(loaded: Checkpoint, uid: Uid) {
    uid in loaded && loaded[uid] != []
  }

  predicate HasOtherPreparedClaims(loaded: Checkpoint, uid: Uid) {
    exists u :: u in loaded && u != uid
  }

  datatype Transition = Transition(disk: Disk, pc: Pc, reply: Option<Reply>)

  function Reading(disk: Disk, io: Io): Option<Checkpoint> {
    if io.Done? then disk.checkpoint else None
  }

  function CheckpointAfter(disk: Disk, loaded: Checkpoint, io: Io): Option<Checkpoint> {
    if io.FailedBefore? then disk.checkpoint else Some(loaded)
  }

  function Fail(disk: Disk, node: Node, uid: Uid): Transition {
    Transition(disk, Idle(node), Some(Failed(uid)))
  }

  predicate IsStep(pc: Pc) {
    !pc.Down? && !pc.Idle? && !pc.UnprepareList? && (pc.UnprepareWipe? ==> pc.todo != [])
  }

  /** After the log wipe has dealt with everything but `todo`. */
  function Wiping(node: Node, uid: Uid, loaded: Checkpoint, todo: seq<string>): Pc {
    if todo == [] then UnprepareSpec(node, uid, loaded) else UnprepareWipe(node, uid, loaded, todo)
  }

  /** One durable operation of the running boot, Prepare or Unprepare. */
  function Advance(disk: Disk, pc: Pc, io: Io): Transition
    requires IsStep(pc)
  {
    match pc
    case BootCommon(node) =>
      var disk' := disk.(specs := AfterWrite(disk.specs, COMMON, CommonSpec(node.commonEnv), io));
      Transition(disk', if io.Done? then BootList(node) else Down, None)
    case BootList(node) =>
      Transition(disk, if !io.Done? then Down else if disk.checkpoint.Some? then Idle(node) else BootCreate(node), None)
    case BootCreate(node) =>
      var disk' := disk.(checkpoint := CheckpointAfter(disk, map[], io));
      Transition(disk', if io.Done? then Idle(node) else Down, None)
    case PrepareRead(node, claim) =>
      var read := Reading(disk, io);
      if read.None? then Fail(disk, node, claim.uid)
      else if Known(read.value, claim.uid) then
        Transition(disk, PrepareSpec(node, claim.uid, read.value[claim.uid], read.value, true), None)
      else
        var prepared := PrepareDevices(node, claim);
        if prepared.Err? then Fail(disk, node, claim.uid)
        else Transition(disk, PrepareSpec(node, claim.uid, prepared.value, read.value, false), None)
    case PrepareSpec(node, uid, devices, loaded, restored) =>
      var spec := Render(uid, devices);
      var disk' := disk.(specs := AfterWrite(disk.specs, uid, spec, io));
      if !SpecWritten(spec, io) then Fail(disk', node, uid)
      else if restored then Transition(disk', Idle(node), Some(Prepared(uid, GetDevices(devices))))
      else Transition(disk', PrepareCommit(node, uid, devices, loaded), None)
    case PrepareCommit(node, uid, devices, loaded) =>
      var disk' := disk.(checkpoint := CheckpointAfter(disk, loaded[uid := devices], io));
      if !io.Done? then Fail(disk', node, uid)
      else Transition(disk', Idle(node), Some(Prepared(uid, GetDevices(devices))))
    case UnprepareRead(node, uid) =>
      var read := Reading(disk, io);
      if read.None? then Fail(disk, node, uid)
      else if !Known(read.value, uid) then Transition(disk, Idle(node), Some(Unprepared(uid, false)))
      else if node.sharing && HasOtherPreparedClaims(read.value, uid) then
        Transition(disk, UnprepareSpec(node, uid, read.value), None)
      else Transition(disk, UnprepareList(node, uid, read.value), None)
    case UnprepareWipe(node, uid, loaded, todo) =>
      var disk' := disk.(logs := if io.FailedBefore? then disk.logs else disk.logs - {todo[0]});
      if !io.Done? then Fail(disk', node, uid) else Transition(disk', Wiping(node, uid, loaded, todo[1..]), None)
    case UnprepareSpec(node, uid, loaded) =>
      var disk' := disk.(specs := AfterRemove(disk.specs, uid, io));
      if !io.Done? then Fail(disk', node, uid) else Transition(disk', UnprepareCommit(node, uid, loaded), None)
    case UnprepareCommit(node, uid, loaded) =>
      var disk' := disk.(checkpoint := CheckpointAfter(disk, loaded - {uid}, io));
      if !io.Done? then Fail(disk', node, uid) else Transition(disk', Idle(node), Some(Unprepared(uid, true)))
  }

  function CallUid(call: Call): Uid {
    match call case PrepareCall(claim) => claim.uid case UnprepareCall(uid) => uid
  }

  function Invoked(hist: History, call: Call): History {
    var h := hist.(usedCommon := hist.usedCommon || CallUid(call) == COMMON);
    match call
    case PrepareCall(claim) => h.(openPrepare := h.openPrepare + {claim.uid})
    case UnprepareCall(uid) => h.(answers := h.answers - {uid}, openUnprepare := h.openUnprepare + {uid})
  }

  function Replied(hist: History, reply: Option<Reply>): History {
    match reply
    case Some(Prepared(uid, devices)) =>
      hist.(answers := hist.answers[uid := devices], openPrepare := hist.openPrepare - {uid},
      openUnprepare := hist.openUnprepare - {uid})
    case Some(Unprepared(uid, removed)) =>
      hist.(openUnprepare := hist.openUnprepare - {uid},
      openPrepare := if removed then hist.openPrepare - {uid} else hist.openPrepare)
    case _ => hist
  }

  predicate Enabled(s: State, e: Event) {
    match e
    case Start(node) => s.pc.Down? && ValidNode(node)
    case Invoke(_) => s.pc.Idle?
    case Step(_) => IsStep(s.pc)
    case ListLogs(_) => s.pc.UnprepareList?
    case LogWrite(_) => true
    case Crash => true
  }

  /** The reply event `e` produces, if any. */
  function ReplyOf(s: State, e: Event): Option<Reply>
    requires Enabled(s, e)
  {
    if e.Step? then Advance(s.disk, s.pc, e.io).reply else None
  }

  function Apply(s: State, e: Event): State
    requires Enabled(s, e)
  {
    match e
    case Start(node) => s.(pc := BootCommon(node))
    case Invoke(call) =>
      var pc := match call
                case PrepareCall(claim) => PrepareRead(s.pc.node, claim)
                case UnprepareCall(uid) => UnprepareRead(s.pc.node, uid);
      s.(pc := pc, hist := Invoked(s.hist, call))
    case Step(io) =>
      var t := Advance(s.disk, s.pc, io);
      State(t.disk, t.pc, Replied(s.hist, t.reply))
    case ListLogs(names) => s.(pc := Wiping(s.pc.node, s.pc.uid, s.pc.loaded, names))
    case LogWrite(written) => s.(disk := s.disk.(logs := s.disk.logs + written))
    case Crash => s.(pc := Down)
  }

  // ----- runs

  /** Every event of the run is enabled when it happens. */
  predicate Allowed(s: State, es: seq<Event>)
    decreases |es|
  {
    es == [] || (Enabled(s, es[0]) && Allowed(Apply(s, es[0]), es[1..]))
  }

  /** The state after the first `n` events of a run. */
  function After(s: State, es: seq<Event>, n: nat): State
    requires Allowed(s, es) && n <= |es|
    decreases n
  {
    if n == 0 then s else After(Apply(s, es[0]), es[1..], n - 1)
  }

  lemma {:induction false} AfterStep(s: State, es: seq<Event>, n: nat)
    requires Allowed(s, es) && n < |es|
    ensures Enabled(After(s, es, n), es[n])
    ensures After(s, es, n + 1) == Apply(After(s, es, n), es[n])
    decreases n
  {
    if n > 0 {
      AfterStep(Apply(s, es[0]), es[1..], n - 1);
    }
  }

  /** The reply that event `n` of a run produces, if any. */
  function ReplyAt(s: State, es: seq<Event>, n: nat): Option<Reply>
    requires Allowed(s, es) && n < |es|
  {
    AfterStep(s, es, n);
    ReplyOf(After(s, es, n), es[n])
  }

  // ----- one call run to its reply

  /** The outcomes of the durable operations of one call. */
  datatype CallIo = CallIo(read: Io, listing: seq<string>, wipe: map<string, Io>, spec: Io, commit: Io)

  /** Nothing fails and the listing is complete. */
  predicate FaultFree(io: CallIo, disk: Disk) {
    && io.read.Done? && io.spec.Done? && io.commit.Done? && io.wipe == map[]
    && (set n | n in io.listing) == disk.logs
  }

  predicate InCall(pc: Pc) {
    pc.PrepareRead? || pc.PrepareSpec? || pc.PrepareCommit? || pc.UnprepareRead? || pc.UnprepareList? ||
    (pc.UnprepareWipe? && pc.todo != []) || pc.UnprepareSpec? || pc.UnprepareCommit?
  }

  function NextEvent(pc: Pc, io: CallIo): Event
    requires InCall(pc)
  {
    match pc
    case PrepareRead(_, _) => Step(io.read)
    case PrepareSpec(_, _, _, _, _) => Step(io.spec)
    case PrepareCommit(_, _, _, _) => Step(io.commit)
    case UnprepareRead(_, _) => Step(io.read)
    case UnprepareList(_, _, _) => ListLogs(io.listing)
    case UnprepareWipe(_, _, _, todo) => Step(if todo[0] in io.wipe then io.wipe[todo[0]] else Done)
    case UnprepareSpec(_, _, _) => Step(io.spec)
    case UnprepareCommit(_, _, _) => Step(io.commit)
  }

  function Remaining(pc: Pc): nat {
    match pc
    case PrepareRead(_, _) => 3
    case PrepareSpec(_, _, _, _, _) => 2
    case PrepareCommit(_, _, _, _) => 1
    case UnprepareRead(_, _) => 5
    case UnprepareList(_, _, _) => 4
    case UnprepareWipe(_, _, _, _) => 3
    case UnprepareSpec(_, _, _) => 2
    case UnprepareCommit(_, _, _) => 1
    case _ => 0
  }

  /** Runs the call in progress to its reply, undisturbed by a crash. */
  function Finish(s: State, io: CallIo): (State, Reply)
    requires InCall(s.pc)
    decreases Remaining(s.pc), if s.pc.UnprepareWipe? then |s.pc.todo| else 0
  {
    var e := NextEvent(s.pc, io);
    var s' := Apply(s, e);
    var reply := ReplyOf(s, e);
    if reply.Some? then (s', reply.value) else Finish(s', io)
  }

  /**
   Removing the listed entries one by one until one removal reports an error: what is left, and whether all went
   through.
   */
  function Wiped(logs: set<string>, todo: seq<string>, wipe: map<string, Io>): (set<string>, bool) {
    if todo == [] then (logs, true) else
    var io := if todo[0] in wipe then wipe[todo[0]] else Done;
    var logs' := if io.FailedBefore? then logs else logs - {todo[0]};
    if io.Done? then Wiped(logs', todo[1..], wipe) else (logs', false)
  }

  /** A call's wipe steps come to what Wiped says. */
  lemma {:induction false} FinishWipe(s: State, io: CallIo)
    requires s.pc.UnprepareWipe? && s.pc.todo != []
    ensures var (logs, ok) := Wiped(s.disk.logs, s.pc.todo, io.wipe);
            var s' := s.(disk := s.disk.(logs := logs));
            Finish(s, io) == if ok then Finish(s'.(pc := UnprepareSpec(s.pc.node, s.pc.uid, s.pc.loaded)), io)
                             else (s'.(pc := Idle(s.pc.node)), Failed(s.pc.uid))
    decreases |s.pc.todo|
  {
    hide Render, Writable, GetDevices;
    var e := NextEvent(s.pc, io);
    var s' := Apply(s, e);
    if e.io.Done? {
      assert Finish(s, io) == Finish(s', io);
      if s.pc.todo[1..] != [] {
        FinishWipe(s', io);
      }
    } else {
      assert Finish(s, io) == (s', Failed(s.pc.uid));
    }
  }

  /** A wipe that goes through removes exactly the entries listed. */
  lemma {:induction false} WipedRemovesTheListing(logs: set<string>, todo: seq<string>, wipe: map<string, Io>)
    ensures Wiped(logs, todo, wipe).1 ==> Wiped(logs, todo, wipe).0 == logs - (set n | n in todo)
    ensures wipe == map[] ==> Wiped(logs, todo, wipe).1
  {
    if todo != [] {
      assert todo == [todo[0]] + todo[1..];
      var io := if todo[0] in wipe then wipe[todo[0]] else Done;
      WipedRemovesTheListing(if io.FailedBefore? then logs else logs - {todo[0]}, todo[1..], wipe);
    }
  }

  // ----- one start of the plugin

  datatype BootIo = BootIo(common: Io, list: Io, create: Io)

  /** NewDeviceState from a process that is down, undisturbed by a crash. */
  function Boot(s: State, node: Node, io: BootIo): State
    requires s.pc.Down? && ValidNode(node)
  {
    var s1 := Apply(Apply(s, Start(node)), Step(io.common));
    if s1.pc.Down? then s1 else
    var s2 := Apply(s1, Step(io.list));
    if !s2.pc.BootCreate? then s2 else Apply(s2, Step(io.create))
  }

  /** A crash followed by a start in which nothing fails. */
  function Restarted(s: State, node: Node): State
    requires ValidNode(node)
  {
    Boot(Apply(s, Crash), node, BootIo(Done, Done, Done))
  }
}
