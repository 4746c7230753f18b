/**
 The plugin's DeviceState object (cmd/tpu-dra-kubeletplugin/state.go): each method is proved to do, to the
 durable stores and in its reply, exactly what the claim machine does when the call runs to its end.
 */
module DeviceStates {
  import opened Wrappers
  import opened Cdi
  import opened ClaimMachine
  import Publication

  /** The file the checkpoint manager keeps. */
  class CheckpointStore {
    var saved: Option<Checkpoint>

    method GetCheckpoint(io: Io) returns (loaded: Option<Checkpoint>)
      ensures loaded == if io.Done? then saved else None
    {
      loaded := if io == Done then saved else None;
    }

    method CreateCheckpoint(checkpoint: Checkpoint, io: Io) returns (ok: bool)
      modifies this
      ensures ok == io.Done?
      ensures saved == if io.FailedBefore? then old(saved) else Some(checkpoint)
    {
      if io != FailedBefore {
        saved := Some(checkpoint);
      }
      ok := io == Done;
    }
  }

  /** The libtpu log directory every claim on the node shares. */
  class LogDirectory {
    var entries: set<string>

    method RemoveAll(name: string, io: Io) returns (ok: bool)
      modifies this
      ensures ok == io.Done?
      ensures entries == if io.FailedBefore? then old(entries) else old(entries) - {name}
    {
      if io != FailedBefore {
        entries := entries - {name};
      }
      ok := io == Done;
    }

    /** RemoveDirContents: whatever the listing returned is removed, in order, up to the first error. */
    method RemoveContents(listing: seq<string>, wipe: map<string, Io>) returns (ok: bool)
      modifies this
      ensures (entries, ok) == Wiped(old(entries), listing, wipe)
    {
      for k := 0 to |listing|
        invariant Wiped(old(entries), listing, wipe) == Wiped(entries, listing[k..], wipe)
      {
        assert listing[k..][0] == listing[k] && listing[k..][1..] == listing[k + 1..];
        ok := RemoveAll(listing[k], if listing[k] in wipe then wipe[listing[k]] else Done);
        if !ok {
          return false;
        }
      }
      ok := true;
    }
  }

  class DeviceState {
    const node: Node
    const cdi: CdiHandler
    const checkpoints: CheckpointStore
    const logDir: LogDirectory

    /** Health by device name; the device set is fixed by enumeration. */
    var allocatable: map<string, bool>

    /** Signals sent on publishchan. */
    var signals: nat

    /** What an observer of the calls knows. */
    ghost var hist: History

    ghost predicate Valid()
      reads this
    {
      allocatable.Keys == node.devices
    }

    /** The claim machine between two calls. */
    ghost function Machine(): State
      reads this, cdi, checkpoints, logDir
    {
      State(Disk(checkpoints.saved, cdi.specs, logDir.entries), Idle(node), hist)
    }

    constructor (node: Node, cdi: CdiHandler, checkpoints: CheckpointStore, logDir: LogDirectory, ghost hist: History)
      ensures Valid() && fresh(this)
      ensures this.node == node && this.cdi == cdi && this.checkpoints == checkpoints && this.logDir == logDir
      ensures this.hist == hist && signals == 0 && forall d :: d in allocatable ==> allocatable[d]
    {
      this.node, this.cdi, this.checkpoints, this.logDir := node, cdi, checkpoints, logDir;
      this.allocatable := map d | d in node.devices :: true;
      this.signals := 0;
      this.hist := hist;
    }

    method Prepare(claim: Claim, io: CallIo) returns (r: Option<seq<Device>>)
      requires Valid()
      modifies this`hist, cdi, checkpoints
      ensures Valid() && allocatable == old(allocatable)
      ensures (Machine(), if r.Some? then Prepared(claim.uid, r.value) else Failed(claim.uid))
              == Finish(Apply(old(Machine()), Invoke(PrepareCall(claim))), io)
    {
      hide Writable, Render, DeviceNodes, PreparedAll, OwnResults;
      ghost var s1 := Apply(Machine(), Invoke(PrepareCall(claim)));
      hist := Invoked(hist, PrepareCall(claim));
      var loaded := checkpoints.GetCheckpoint(io.read);
      if loaded.None? {
        assert Finish(s1, io) == (Machine(), Failed(claim.uid));
        return None;
      }
      var preparedClaims := loaded.value;
      ghost var s2 := Apply(s1, Step(io.read));
      if claim.uid in preparedClaims && preparedClaims[claim.uid] != [] {
        assert Finish(s1, io) == Finish(s2, io);
        var restored := cdi.CreateClaimSpecFile(claim.uid, preparedClaims[claim.uid], io.spec);
        if !restored {
          return None;
        }
        ghost var devices := GetDevices(preparedClaims[claim.uid]);
        hist := Replied(hist, Some(Prepared(claim.uid, devices)));
        var answer := CollectDevices(preparedClaims[claim.uid]);
        return Some(answer);
      }
      var prepared := ComputePrepared(claim);
      if prepared.Err? {
        assert Finish(s1, io) == (Machine(), Failed(claim.uid));
        return None;
      }
      assert Finish(s1, io) == Finish(s2, io);
      var ok := cdi.CreateClaimSpecFile(claim.uid, prepared.value, io.spec);
      if !ok {
        return None;
      }
      ghost var s3 := Apply(s2, Step(io.spec));
      assert Finish(s2, io) == Finish(s3, io);
      preparedClaims := preparedClaims[claim.uid := prepared.value];
      ok := checkpoints.CreateCheckpoint(preparedClaims, io.commit);
      if !ok {
        return None;
      }
      hist := Replied(hist, Some(Prepared(claim.uid, GetDevices(prepared.value))));
      var answer := CollectDevices(preparedClaims[claim.uid]);
      r := Some(answer);
    }

    method Unprepare(uid: Uid, io: CallIo) returns (ok: bool)
      requires Valid()
      modifies this`hist, cdi, checkpoints, logDir
      ensures Valid() && allocatable == old(allocatable)
      ensures var (s, reply) := Finish(Apply(old(Machine()), Invoke(UnprepareCall(uid))), io);
              Machine() == s && ok == reply.Unprepared?
    {
      ghost var s1 := Apply(Machine(), Invoke(UnprepareCall(uid)));
      hist := Invoked(hist, UnprepareCall(uid));
      var loaded := checkpoints.GetCheckpoint(io.read);
      if loaded.None? {
        assert Finish(s1, io) == (Machine(), Failed(uid));
        return false;
      }
      var preparedClaims := loaded.value;
      if !(uid in preparedClaims && preparedClaims[uid] != []) {
        hist := Replied(hist, Some(Unprepared(uid, false)));
        assert Finish(s1, io) == (Machine(), Unprepared(uid, false));
        return true;
      }
      ok := UnprepareDevices(uid, preparedClaims, io, s1);
      if !ok {
        return false;
      }
      ghost var s2 := Machine().(pc := UnprepareSpec(node, uid, preparedClaims));
      ghost var s3 := Apply(s2, Step(io.spec));
      ok := cdi.DeleteClaimSpecFile(uid, io.spec);
      if !ok {
        assert Finish(s2, io) == (Machine(), Failed(uid));
        return false;
      }
      assert Finish(s2, io) == Finish(s3, io);
      preparedClaims := preparedClaims - {uid};
      ok := checkpoints.CreateCheckpoint(preparedClaims, io.commit);
      if !ok {
        return false;
      }
      hist := Replied(hist, Some(Unprepared(uid, true)));
    }

    /** Wipes the shared logs unless sharing is on and another claim is checkpointed; `s1` is the call as invoked. */
    method UnprepareDevices(uid: Uid, loaded: Checkpoint, io: CallIo, ghost s1: State) returns (ok: bool)
      requires s1 == State(Disk(Some(loaded), cdi.specs, logDir.entries), UnprepareRead(node, uid), hist)
      requires checkpoints.saved == Some(loaded) && io.read.Done? && Known(loaded, uid)
      modifies logDir
      ensures var s2 := s1.(disk := s1.disk.(logs := logDir.entries), pc := UnprepareSpec(node, uid, loaded));
              Finish(s1, io) == if ok then Finish(s2, io) else (s2.(pc := Idle(node)), Failed(uid))
    {
      ghost var s2 := Apply(s1, Step(io.read));
      assert Finish(s1, io) == Finish(s2, io);
      if node.sharing && HasOtherPreparedClaims(loaded, uid) {
        return true;
      }
      ghost var s3 := Apply(s2, ListLogs(io.listing));
      assert Finish(s2, io) == Finish(s3, io);
      if s3.pc.UnprepareWipe? {
        FinishWipe(s3, io);
      }
      ok := logDir.RemoveContents(io.listing, io.wipe);
    }

    /** UpdateHealth run on its own: an unknown device is an error, a real change is stored and signalled once. */
    method UpdateHealth(device: string, value: bool) returns (ok: bool)
      requires Valid()
      modifies this`allocatable, this`signals
      ensures Valid()
      ensures ok <==> device in old(allocatable)
      ensures allocatable == if ok then old(allocatable)[device := value] else old(allocatable)
      ensures signals == old(signals) + if ok && old(allocatable)[device] != value then 1 else 0
      ensures allocatable == Publication.Flipped(old(allocatable), device, value)
    {
      var changed := false;
      if device !in allocatable {
        return false;
      }
      var oldHealth := allocatable[device];
      if oldHealth != value {
        allocatable := allocatable[device := value];
        changed := true;
      }
      if changed {
        signals := signals + 1;
      }
      ok := true;
    }

    method CollectDevices(ps: seq<PreparedDevice>) returns (ds: seq<Device>)
      ensures ds == GetDevices(ps)
    {
      ds := [];
      for k := 0 to |ps|
        invariant ds == GetDevices(ps)[..k]
      {
        ds := ds + [ps[k].device];
      }
    }

    /** prepareDevices: the own results, counted and looked up before anything is built from them. */
    method ComputePrepared(claim: Claim) returns (r: Result<seq<PreparedDevice>, PrepareError>)
      requires Valid()
      ensures r == PrepareDevices(node, claim)
    {
      if claim.allocation == None {
        return Err(NotAllocated);
      }
      var results := FilterOwn(claim.allocation.value);
      if |results| != node.chipCount {
        return Err(PartialAllocation(|results|));
      }
      for k := 0 to |results|
        invariant forall i :: 0 <= i < k ==> results[i].device in node.devices
      {
        if results[k].device !in allocatable {
          assert results[k] in results;
          return Err(NotAllocatable);
        }
      }
      var prepared := BuildPrepared(claim.uid, results);
      r := Ok(prepared);
    }

    method FilterOwn(all: seq<AllocationResult>) returns (results: seq<AllocationResult>)
      ensures results == OwnResults(all)
    {
      results := [];
      for k := 0 to |all|
        invariant results + OwnResults(all[k..]) == OwnResults(all)
      {
        assert all[k..][0] == all[k] && all[k..][1..] == all[k + 1..];
        if all[k].driver != DRIVER_NAME {
          continue;
        }
        results := results + [all[k]];
      }
    }

    method BuildPrepared(uid: Uid, results: seq<AllocationResult>) returns (prepared: seq<PreparedDevice>)
      ensures prepared == PreparedAll(node, uid, results)
    {
      var edits := ContainerEdits(results);
      prepared := [];
      for k := 0 to |results|
        invariant |prepared| == k
        invariant forall i :: 0 <= i < k ==> prepared[i] == PreparedFor(node, uid, results[i])
      {
        assert results[k] in results;
        var ids := cdi.GetClaimDevices(uid, [results[k].device]);
        var device := Device([results[k].request], results[k].pool, results[k].device, ids);
        prepared := prepared + [PreparedDevice(device, edits[results[k].device])];
      }
    }

    /** getDeviceContainerEdits: the device nodes of every device named in the results. */
    method ContainerEdits(results: seq<AllocationResult>) returns (edits: map<string, seq<DeviceNode>>)
      ensures forall r :: r in results ==> r.device in edits
      ensures forall d :: d in edits ==> edits[d] == DeviceNodes(node, d)
    {
      edits := map[];
      for k := 0 to |results|
        invariant forall i :: 0 <= i < k ==> results[i].device in edits
        invariant forall d :: d in edits ==> edits[d] == DeviceNodes(node, d)
      {
        edits := edits[results[k].device := DeviceNodes(node, results[k].device)];
      }
    }
  }

  /**
   NewDeviceState on the stores an earlier process left: the common spec is written, and a checkpoint is
   created only if none is there.
   */
  method NewDeviceState(node: Node, cdi: CdiHandler, checkpoints: CheckpointStore, logDir: LogDirectory,
                        io: BootIo, ghost hist: History) returns (state: DeviceState?)
    requires ValidNode(node)
    modifies cdi, checkpoints
    ensures var s := Boot(State(Disk(old(checkpoints.saved), old(cdi.specs), logDir.entries), Down, hist), node, io);
            && s.disk == Disk(checkpoints.saved, cdi.specs, logDir.entries)
            && (state != null <==> s.pc == Idle(node))
            && (state != null ==> fresh(state) && state.Valid() && state.Machine() == s)
            && (state != null ==> forall d :: d in node.devices ==> state.allocatable[d])
  {
    state := null;
    var ok := cdi.CreateCommonSpecFile(node.commonEnv, io.common);
    if !ok {
      return;
    }
    if io.list != Done {
      return;
    }
    if checkpoints.saved == None {
      ok := checkpoints.CreateCheckpoint(map[], io.create);
      if !ok {
        return;
      }
    }
    state := new DeviceState(node, cdi, checkpoints, logDir, hist);
  }
}
