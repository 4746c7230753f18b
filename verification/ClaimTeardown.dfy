/**
 One call carried to its reply: what it leaves, recovery from crash residue, and what the allocation of a
 claim holds.
 */
module ClaimTeardown {
  import opened Wrappers
  import opened Cdi
  import opened ClaimMachine
  import opened ClaimSafety

  // ----- one call, from invocation to reply

  function Elements(names: seq<string>): set<string> {
    set n | n in names
  }

  /** A call from its invocation to its reply. */
  function Call(s: State, call: ClaimMachine.Call, io: CallIo): (State, Reply)
    requires s.pc.Idle?
  {
    Finish(Apply(s, Invoke(call)), io)
  }

  /** No other claim is checkpointed. */
  ghost predicate Alone(s: State, uid: Uid) {
    Entries(s).Keys <= {uid}
  }

  lemma FinishTeardown(s: State, io: CallIo)
    requires s.pc.UnprepareSpec?
    requires Finish(s, io).1 == Unprepared(s.pc.uid, true)
    ensures var s' := Finish(s, io).0;
            && s'.disk == Disk(Some(s.pc.loaded - {s.pc.uid}), s.disk.specs - {s.pc.uid}, s.disk.logs)
            && s'.pc == Idle(s.pc.node)
  {
    var t := Apply(s, Step(io.spec));
    assert io.spec.Done?;
    assert Finish(s, io) == Finish(t, io);
  }

  /**
   An Unprepare that reports a teardown, with no log written meanwhile, has removed the claim from both
   stores, left every other claim's entry and spec alone, and kept the logs if sharing is enabled and
   another claim is checkpointed, else removed exactly the entries its listing returned.
   */
  lemma UndisturbedUnprepare(s: State, uid: Uid, io: CallIo)
    requires Inv(s) && s.pc.Idle?
    requires Call(s, UnprepareCall(uid), io).1 == Unprepared(uid, true)
    ensures var s' := Call(s, UnprepareCall(uid), io).0;
            && uid in Entries(s)
            && s'.disk.checkpoint == Some(Entries(s) - {uid})
            && s'.disk.specs == s.disk.specs - {uid}
            && s'.disk.logs == (if s.pc.node.sharing && !Alone(s, uid) then s.disk.logs
                                else s.disk.logs - Elements(io.listing))
            && s'.pc == s.pc
  {
    hide Render, Writable, GetDevices;
    var s1 := Apply(s, Invoke(UnprepareCall(uid)));
    var s2 := Apply(s1, Step(io.read));
    assert io.read.Done? && Known(Entries(s), uid);
    assert Finish(s1, io) == Finish(s2, io);
    if s2.pc.UnprepareSpec? {
      FinishTeardown(s2, io);
    } else {
      var s3 := Apply(s2, ListLogs(io.listing));
      assert Finish(s2, io) == Finish(s3, io);
      if io.listing == [] {
        assert Elements(io.listing) == {};
        FinishTeardown(s3, io);
      } else {
        FinishWipe(s3, io);
        WipedRemovesTheListing(s.disk.logs, io.listing, io.wipe);
        var t := s3.(pc := UnprepareSpec(s.pc.node, uid, Entries(s)),
                     disk := s3.disk.(logs := s.disk.logs - Elements(io.listing)));
        FinishTeardown(t, io);
      }
    }
  }

  /** The listing can fail unnoticed: the claim is torn down, the checkpoint is empty, and the logs are still there. */
  lemma FailedListingKeepsTheLogs(s: State, uid: Uid, entry: string)
    requires Inv(s) && s.pc.Idle? && Entries(s).Keys == {uid} && entry in s.disk.logs
    ensures var io := CallIo(Done, [], map[], Done, Done);
            var (s', reply) := Call(s, UnprepareCall(uid), io);
            reply == Unprepared(uid, true) && s'.disk.checkpoint == Some(map[]) && entry in s'.disk.logs
  {
    hide Render, Writable, GetDevices;
    var io := CallIo(Done, [], map[], Done, Done);
    var s1 := Apply(s, Invoke(UnprepareCall(uid)));
    assert uid in Entries(s);
    var s2 := Apply(s1, Step(Done));
    assert s2.pc.UnprepareList?;
    var s3 := Apply(s2, ListLogs([]));
    var s4 := Apply(s3, Step(Done));
    var s5 := Apply(s4, Step(Done));
    assert Finish(s1, io) == Finish(s2, io) == Finish(s3, io) == Finish(s4, io) == (s5, Unprepared(uid, true));
    assert s5.disk.checkpoint == Some(Entries(s) - {uid});
    assert Entries(s) - {uid} == map[];
  }

  lemma TeardownSucceeds(s: State, io: CallIo)
    requires s.pc.UnprepareSpec? && io.spec.Done? && io.commit.Done?
    ensures Finish(s, io).1 == Unprepared(s.pc.uid, true)
  {
    hide Render, Writable, GetDevices;
    var t := Apply(s, Step(io.spec));
    assert Finish(s, io) == Finish(t, io);
  }

  /**
   In any reachable idle state, one fault-free Unprepare of a checkpointed claim succeeds
   (UndisturbedUnprepare says what it leaves).
   */
  lemma FaultFreeUnprepareSucceeds(s: State, uid: Uid, io: CallIo)
    requires Inv(s) && s.pc.Idle? && uid in Entries(s) && FaultFree(io, s.disk)
    ensures Call(s, UnprepareCall(uid), io).1 == Unprepared(uid, true)
  {
    hide Render, Writable, GetDevices;
    var s1 := Apply(s, Invoke(UnprepareCall(uid)));
    var s2 := Apply(s1, Step(io.read));
    assert Finish(s1, io) == Finish(s2, io);
    if s2.pc.UnprepareSpec? {
      TeardownSucceeds(s2, io);
    } else {
      var s3 := Apply(s2, ListLogs(io.listing));
      assert Finish(s2, io) == Finish(s3, io);
      if io.listing == [] {
        TeardownSucceeds(s3, io);
      } else {
        FinishWipe(s3, io);
        WipedRemovesTheListing(s.disk.logs, io.listing, io.wipe);
        TeardownSucceeds(s3.(pc := UnprepareSpec(s.pc.node, uid, Entries(s)),
                         disk := s.disk.(logs := s.disk.logs - Elements(io.listing))), io);
      }
    }
  }

  /** An Unprepare of a claim that is not checkpointed succeeds and changes nothing on disk, an orphan spec included. */
  lemma UnknownUnprepareIsNoOp(s: State, uid: Uid, io: CallIo)
    requires Inv(s) && s.pc.Idle? && uid !in Entries(s)
    ensures var (s', reply) := Call(s, UnprepareCall(uid), io);
            s'.disk == s.disk && reply == if io.read.Done? then Unprepared(uid, false) else Failed(uid)
  {
    hide Render, Writable, GetDevices;
    var s1 := Apply(s, Invoke(UnprepareCall(uid)));
    var s2 := Apply(s1, Step(io.read));
    assert Finish(s1, io).0 == s2;
  }

  /** A second Unprepare is a no-op, whatever fails in it. */
  lemma SecondUnprepareIsNoOp(s: State, uid: Uid, io: CallIo, again: CallIo)
    requires Inv(s) && s.pc.Idle? && Call(s, UnprepareCall(uid), io).1 == Unprepared(uid, true)
    ensures var s' := Call(s, UnprepareCall(uid), io).0;
            s'.pc.Idle? && Call(s', UnprepareCall(uid), again).0.disk == s'.disk
  {
    UndisturbedUnprepare(s, uid, io);
    hide Advance, Inv, Finish, Invoked, Replied;
    InvokeKeepsInv(s, UnprepareCall(uid));
    FinishKeepsInv(Apply(s, Invoke(UnprepareCall(uid))), io);
    UnknownUnprepareIsNoOp(Call(s, UnprepareCall(uid), io).0, uid, again);
  }

  lemma {:induction false} FinishKeepsInv(s: State, io: CallIo)
    requires InCall(s.pc) && Inv(s)
    ensures Inv(Finish(s, io).0)
    decreases Remaining(s.pc), if s.pc.UnprepareWipe? then |s.pc.todo| else 0
  {
    hide Inv, Replied, Invoked, Render, Writable;
    ApplyKeepsInv(s, NextEvent(s.pc, io));
    if ReplyOf(s, NextEvent(s.pc, io)).None? {
      FinishKeepsInv(Apply(s, NextEvent(s.pc, io)), io);
    }
  }

  /**
   A fault-free Unprepare leaves no trace of a claim in either store exactly when the claim is checkpointed
   or has no spec file: the spec orphaned by a failed Prepare outlives an Unprepare that reports success.
   */
  lemma UnprepareClearsBothStores(s: State, uid: Uid, io: CallIo)
    requires Inv(s) && s.pc.Idle? && FaultFree(io, s.disk)
    ensures var s' := Call(s, UnprepareCall(uid), io).0;
            (uid !in Entries(s') && uid !in s'.disk.specs) <==> (uid in Entries(s) || uid !in s.disk.specs)
  {
    if uid in Entries(s) {
      FaultFreeUnprepareSucceeds(s, uid, io);
      UndisturbedUnprepare(s, uid, io);
    } else {
      UnknownUnprepareIsNoOp(s, uid, io);
    }
  }

  // ----- Prepare

  lemma {:induction false} DistinctNamesCount(devices: seq<PreparedDevice>)
    requires DistinctNames(devices)
    ensures |Names(devices)| == |devices|
  {
    if devices != [] {
      var rest := devices[1..];
      DistinctNamesCount(rest);
      assert devices == [devices[0]] + rest;
      assert Names(devices) == {devices[0].device.name} + Names(rest);
    }
  }

  lemma SubsetOfEqualSize<T>(small: set<T>, large: set<T>)
    requires small <= large && |small| == |large|
    ensures small == large
  {
    if small != large {
      assert exists x :: x in large && x !in small;
      var x :| x in large && x !in small;
      assert |large - {x}| == |large| - 1;
      SubsetHasFewer(small, large - {x});
    }
  }

  lemma {:induction false} SubsetHasFewer<T>(small: set<T>, large: set<T>)
    requires small <= large
    ensures |small| <= |large|
    decreases small
  {
    if small != {} {
      var x :| x in small;
      SubsetHasFewer(small - {x}, large - {x});
    }
  }

  /** Pigeonhole: as many distinct allocatable names as there are chips are all of them. */
  lemma FullAllocation(node: Node, devices: seq<PreparedDevice>)
    requires ValidNode(node) && |devices| == node.chipCount && Names(devices) <= node.devices
    requires DistinctNames(devices)
    ensures Names(devices) == node.devices
  {
    DistinctNamesCount(devices);
    SubsetOfEqualSize(Names(devices), node.devices);
  }

  /** Without distinct names an allocation can pass every check of prepareDevices and still miss a chip. */
  lemma RepeatedDevicePassesTheChecks(node: Node, uid: Uid, name: string, other: string)
    requires node.devices == {name, other} && name != other && node.chipCount == 2
    ensures var r := AllocationResult(DRIVER_NAME, "tpu", "pool", name);
            var prepared := PrepareDevices(node, Claim(uid, Some([r, r])));
            prepared.Ok? && Names(prepared.value) != node.devices
  {
    var r := AllocationResult(DRIVER_NAME, "tpu", "pool", name);
    assert OwnResults([r, r]) == [r, r] by {
      assert [r, r][1..] == [r] && [r][1..] == [];
      assert OwnResults([r]) == [r] + OwnResults([]);
      assert OwnResults([r, r]) == [r] + OwnResults([r]);
    }
    var devices := PreparedAll(node, uid, [r, r]);
    assert forall p :: p in devices ==> p.device.name == name;
    assert other !in Names(devices);
  }

  /** What a Prepare stores for a claim: the checkpointed devices if there are any, else this allocation's. */
  ghost predicate Stored(s: State, claim: Claim, devices: seq<PreparedDevice>)
    requires s.pc.Idle?
  {
    if claim.uid in Entries(s) then devices == Entries(s)[claim.uid]
    else PrepareDevices(s.pc.node, claim) == Ok(devices)
  }

  /**
   Every successful Prepare leaves both stores agreeing on the claim, has touched no other claim, and for a
   claim not checkpointed before holds the node's whole allocatable set, each device once.
   */
  lemma SuccessfulPrepare(s: State, claim: Claim, io: CallIo) returns (stored: seq<PreparedDevice>)
    requires Inv(s) && s.pc.Idle?
    requires Call(s, PrepareCall(claim), io).1.Prepared?
    ensures Stored(s, claim, stored)
    ensures claim.uid !in Entries(s) ==> Names(stored) == s.pc.node.devices && DistinctNames(stored)
    ensures var (s', reply) := Call(s, PrepareCall(claim), io);
            && reply == Prepared(claim.uid, GetDevices(stored))
            && s'.disk == Disk(Some(Entries(s)[claim.uid := stored]),
                               s.disk.specs[claim.uid := Render(claim.uid, stored)], s.disk.logs)
            && s'.pc == s.pc
  {
    hide Writable, Render, DeviceNodes, GetDevices, PreparedAll, OwnResults, CommonSpec, Names;
    var s1 := Apply(s, Invoke(PrepareCall(claim)));
    var s2 := Apply(s1, Step(io.read));
    assert Finish(s1, io) == Finish(s2, io);
    stored := s2.pc.devices;
    var s3 := Apply(s2, Step(io.spec));
    assert SpecWritten(Render(claim.uid, stored), io.spec);
    RenderIsWritable(claim.uid, stored);
    if claim.uid in Entries(s) {
      assert Finish(s2, io).0 == s3;
      assert Entries(s)[claim.uid := stored] == Entries(s);
    } else {
      assert Finish(s2, io) == Finish(s3, io);
      PreparedNamesAreAllocatable(s.pc.node, claim);
      FullAllocation(s.pc.node, stored);
    }
  }

  /**
   The claim is allocated; its own results are as many as the node has chips and name distinct allocatable devices;
   and the CDI library takes the names built from the UID and the devices.
   */
  predicate Acceptable(node: Node, claim: Claim) {
    claim.allocation.Some? &&
    var own := OwnResults(claim.allocation.value);
    && |own| == node.chipCount
    && (forall k :: 0 <= k < |own| ==> own[k].device in node.devices && ValidEnding(own[k].device))
    && (forall i, j :: 0 <= i < j < |own| ==> own[i].device != own[j].device)
    && ValidUid(claim.uid)
  }

  lemma AcceptableMeans(node: Node, claim: Claim)
    ensures Acceptable(node, claim) <==>
            PrepareDevices(node, claim).Ok? && Renderable(claim.uid, PrepareDevices(node, claim).value)
  {
    hide DeviceNodes, OwnResults, ValidUid, ValidEnding;
    if PrepareDevices(node, claim).Ok? {
      var own, devices := OwnResults(claim.allocation.value), PrepareDevices(node, claim).value;
      assert forall k :: 0 <= k < |own| ==> own[k] in own && devices[k].device.name == own[k].device;
    }
  }

  /**
   In any reachable idle state, a fault-free Prepare succeeds exactly when the claim is checkpointed, or its own
   results name, each once, as many allocatable devices as the node has chips and the CDI library accepts the
   names built from them and the UID.
   */
  lemma FaultFreePrepareSucceeds(s: State, claim: Claim, io: CallIo)
    requires Inv(s) && s.pc.Idle? && FaultFree(io, s.disk)
    ensures Call(s, PrepareCall(claim), io).1.Prepared? <==>
            claim.uid in Entries(s) || Acceptable(s.pc.node, claim)
  {
    AcceptableMeans(s.pc.node, claim);
    if PrepareDevices(s.pc.node, claim).Ok? {
      PreparedNamesAreAllocatable(s.pc.node, claim);
    }
    hide Acceptable, Renderable, Render, Writable, GetDevices, PrepareDevices, CommonSpec, Names;
    hide SpecsAgree, LiveOk, ResidueOk, CommonOk, Replied, Invoked;
    var s1 := Apply(s, Invoke(PrepareCall(claim)));
    var s2 := Apply(s1, Step(io.read));
    if s2.pc.PrepareSpec? {
      assert Finish(s1, io) == Finish(s2, io);
      RenderIsWritable(claim.uid, s2.pc.devices);
      WritableIsPrepared(s2, io);
    }
  }

  lemma WritableIsPrepared(s: State, io: CallIo)
    requires s.pc.PrepareSpec? && io.spec.Done? && io.commit.Done?
    ensures Finish(s, io).1.Prepared? <==> Writable(Render(s.pc.uid, s.pc.devices))
  {
    hide Render, Writable, GetDevices;
    var t := Apply(s, Step(io.spec));
    if t.pc.PrepareCommit? {
      assert Finish(s, io) == Finish(t, io);
    }
  }

  // ----- recovery from crash residue

  /** A crash and a fault-free restart lead to a state with the same claims, entries and logs. */
  lemma RestartedIsIdle(s: State, node: Node)
    requires Inv(s) && ValidNode(node)
    ensures var t := Restarted(s, node);
            && Inv(t) && t.pc == Idle(node) && t.hist == s.hist && Entries(t) == Entries(s)
            && t.disk.specs == s.disk.specs[COMMON := CommonSpec(node.commonEnv)] && t.disk.logs == s.disk.logs
  {
    hide Inv, Render, GetDevices;
    var s0 := Apply(s, Crash);
    var s1 := Apply(s0, Start(node));
    var s2 := Apply(s1, Step(Done));
    var s3 := Apply(s2, Step(Done));
    ApplyKeepsInv(s, Crash);
    ApplyKeepsInv(s0, Start(node));
    ApplyKeepsInv(s1, Step(Done));
    ApplyKeepsInv(s2, Step(Done));
    if s3.pc.BootCreate? {
      ApplyKeepsInv(s3, Step(Done));
    }
  }

  /**
   Recovery by teardown: whatever the process was doing when it crashed, a fault-free restart and a fault-free
   Unprepare of a checkpointed claim take it out of both stores and leave every other claim as it was.
   */
  lemma TeardownRecovers(s: State, node: Node, uid: Uid, io: CallIo)
    requires Inv(s) && ValidNode(node) && uid in Entries(s) && FaultFree(io, s.disk)
    ensures Restarted(s, node).pc.Idle?
    ensures var (s', reply) := Call(Restarted(s, node), UnprepareCall(uid), io);
            && reply == Unprepared(uid, true)
            && s'.disk.checkpoint == Some(Entries(s) - {uid})
            && s'.disk.specs == s.disk.specs[COMMON := CommonSpec(node.commonEnv)] - {uid}
  {
    RestartedIsIdle(s, node);
    hide Inv, Restarted, Finish, Apply;
    FaultFreeUnprepareSucceeds(Restarted(s, node), uid, io);
    UndisturbedUnprepare(Restarted(s, node), uid, io);
  }

  /**
   Recovery by preparation: whatever the process was doing when it crashed, after a fault-free restart a
   fault-free Prepare of a checkpointed or acceptable claim makes both stores agree on it and leaves every
   other claim as it was.
   */
  lemma PrepareRecovers(s: State, node: Node, claim: Claim, io: CallIo) returns (stored: seq<PreparedDevice>)
    requires Inv(s) && ValidNode(node) && FaultFree(io, s.disk)
    requires claim.uid in Entries(s)
             || Acceptable(node, claim)
    ensures Restarted(s, node).pc.Idle? && Stored(Restarted(s, node), claim, stored)
    ensures var (s', reply) := Call(Restarted(s, node), PrepareCall(claim), io);
            && reply == Prepared(claim.uid, GetDevices(stored))
            && s'.disk.checkpoint == Some(Entries(s)[claim.uid := stored])
            && s'.disk.specs
               == s.disk.specs[COMMON := CommonSpec(node.commonEnv)][claim.uid := Render(claim.uid, stored)]
  {
    RestartedIsIdle(s, node);
    hide Inv, Restarted, Finish, Apply, Acceptable, PrepareDevices, Render, GetDevices;
    FaultFreePrepareSucceeds(Restarted(s, node), claim, io);
    stored := SuccessfulPrepare(Restarted(s, node), claim, io);
  }

  // ----- calls and runs

  /**
   A call run to its reply is a run of the machine: its last event makes the reply, none before it does, and no
   other call, crash or start is in it. So every promise about runs and their replies holds of it.
   */
  lemma {:induction false} FinishIsARun(s: State, io: CallIo) returns (es: seq<Event>)
    requires InCall(s.pc)
    ensures Allowed(s, es) && After(s, es, |es|) == Finish(s, io).0
    ensures es != [] && ReplyAt(s, es, |es| - 1) == Some(Finish(s, io).1)
    ensures forall k :: 0 <= k < |es| - 1 ==> ReplyAt(s, es, k) == None
    ensures forall e :: e in es ==> e.Step? || e.ListLogs?
    decreases Remaining(s.pc), if s.pc.UnprepareWipe? then |s.pc.todo| else 0
  {
    hide Advance, Replied, Invoked;
    var e := NextEvent(s.pc, io);
    var s' := Apply(s, e);
    if ReplyOf(s, e).Some? {
      es := [e];
      assert es[1..] == [];
    } else {
      StaysInCall(s, e);
      var rest := FinishIsARun(s', io);
      es := [e] + rest;
      assert es[1..] == rest;
      forall k | 1 <= k < |es| ensures ReplyAt(s, es, k) == ReplyAt(s', rest, k - 1) {
        assert es[k] == rest[k - 1];
      }
    }
  }

  /** A step of a call that makes no reply leaves the call in progress, with fewer operations to go. */
  lemma StaysInCall(s: State, e: Event)
    requires InCall(s.pc) && Enabled(s, e) && (e.Step? || e.ListLogs?) && ReplyOf(s, e).None?
    ensures var pc := Apply(s, e).pc;
            && InCall(pc)
            && (Remaining(pc) < Remaining(s.pc)
                || (Remaining(pc) == Remaining(s.pc) && pc.UnprepareWipe? && s.pc.UnprepareWipe?
                    && |pc.todo| < |s.pc.todo|))
  {
    hide Render, Writable, GetDevices, Replied;
  }

  // ----- other drivers' results

  predicate NoneOwn(results: seq<AllocationResult>) {
    forall r :: r in results ==> r.driver != DRIVER_NAME
  }

  lemma {:induction false} OwnResultsConcat(a: seq<AllocationResult>, b: seq<AllocationResult>)
    ensures OwnResults(a + b) == OwnResults(a) + OwnResults(b)
  {
    if a == [] {
      assert a + b == b;
    } else {
      assert (a + b)[0] == a[0] && (a + b)[1..] == a[1..] + b;
      OwnResultsConcat(a[1..], b);
    }
  }

  lemma OwnResultOfOne(r: AllocationResult)
    ensures OwnResults([]) == []
    ensures OwnResults([r]) == if r.driver == "tpu.google.com" then [r] else []
  {
    assert [r][1..] == [];
  }

  /** The own results are the allocation results of the driver "tpu.google.com", in order. */
  lemma OwnResultsAreThisDrivers(before: seq<AllocationResult>, r: AllocationResult, after: seq<AllocationResult>)
    ensures OwnResults([]) == []
    ensures OwnResults(before + [r] + after)
            == OwnResults(before) + (if r.driver == "tpu.google.com" then [r] else []) + OwnResults(after)
  {
    hide OwnResults;
    OwnResultOfOne(r);
    OwnResultsConcat(before + [r], after);
    OwnResultsConcat(before, [r]);
  }

  /** Results of other drivers, inserted anywhere, change nothing, and the own results keep their order. */
  lemma ForeignResultsChangeNothing(node: Node, uid: Uid, before: seq<AllocationResult>,
                                    foreign: seq<AllocationResult>, after: seq<AllocationResult>)
    requires NoneOwn(foreign)
    ensures PrepareDevices(node, Claim(uid, Some(before + foreign + after)))
            == PrepareDevices(node, Claim(uid, Some(before + after)))
    ensures OwnResults(before + after) == OwnResults(before) + OwnResults(after)
  {
    OwnResultsConcat(before + foreign, after);
    OwnResultsConcat(before, foreign);
    OwnResultsConcat(before, after);
    NoOwnResults(foreign);
    assert OwnResults(before) + [] == OwnResults(before);
    assert OwnResults(before + foreign + after) == OwnResults(before + after);
  }

  lemma NoOwnResults(foreign: seq<AllocationResult>)
    requires NoneOwn(foreign)
    ensures OwnResults(foreign) == []
  {
    if OwnResults(foreign) != [] {
      assert OwnResults(foreign)[0] in OwnResults(foreign);
    }
  }
}
