/**
 What every run of the claim machine keeps, whatever operations fail and wherever the plugin crashes.
 */
module ClaimSafety {
  import opened Wrappers
  import opened Cdi
  import opened ClaimMachine

  ghost function Entries(s: State): Checkpoint {
    if s.disk.checkpoint.Some? then s.disk.checkpoint.value else map[]
  }

  // ----- the inductive invariant

  /** Every entry could be rendered, so its devices are distinct and there is at least one. */
  ghost predicate EntriesRender(s: State) {
    forall u :: u in Entries(s) ==> Entries(s)[u] != [] && Writable(Render(u, Entries(s)[u]))
  }

  ghost predicate SpecsAgree(s: State) {
    forall u :: u in Entries(s) && u in s.disk.specs && u != COMMON ==> s.disk.specs[u] == Render(u, Entries(s)[u])
  }

  ghost predicate LiveOk(s: State) {
    forall u :: u in s.hist.answers ==>
                  && u in Entries(s)
                  && s.hist.answers[u] == GetDevices(Entries(s)[u])
                  && (u != COMMON ==> u in s.disk.specs)
  }

  ghost predicate ResidueOk(s: State) {
    && (forall u :: u in s.disk.specs && u !in Entries(s) && u != COMMON ==> u in s.hist.openPrepare)
    && (forall u :: u in Entries(s) && u !in s.disk.specs && u != COMMON ==> u in s.hist.openUnprepare)
  }

  predicate Booted(pc: Pc) {
    !pc.Down? && !pc.BootCommon?
  }

  ghost predicate CommonInPlace(specs: map<Uid, Spec>) {
    COMMON in specs && exists env :: specs[COMMON] == CommonSpec(env)
  }

  ghost predicate CommonOk(s: State) {
    !s.hist.usedCommon && (Booted(s.pc) || s.hist.answers != map[]) ==> CommonInPlace(s.disk.specs)
  }

  /** The UID of the call in progress. */
  function PcUid(pc: Pc): Option<Uid> {
    match pc
    case PrepareRead(_, claim) => Some(claim.uid)
    case PrepareSpec(_, uid, _, _, _) => Some(uid)
    case PrepareCommit(_, uid, _, _) => Some(uid)
    case UnprepareRead(_, uid) => Some(uid)
    case UnprepareList(_, uid, _) => Some(uid)
    case UnprepareWipe(_, uid, _, _) => Some(uid)
    case UnprepareSpec(_, uid, _) => Some(uid)
    case UnprepareCommit(_, uid, _) => Some(uid)
    case _ => None
  }

  /** Tearing down: the claim is still checkpointed, no longer live, and alone if its logs may be wiped. */
  ghost predicate TearingDown(s: State, uid: Uid, loaded: Checkpoint) {
    && s.disk.checkpoint == Some(loaded)
    && uid in loaded
    && uid !in s.hist.answers
    && uid in s.hist.openUnprepare
  }

  ghost predicate PcOk(s: State) {
    && (!s.hist.usedCommon ==> PcUid(s.pc) != Some(COMMON))
    && (!s.pc.Down? ==> ValidNode(s.pc.node))
    && match s.pc
       case Down => true
       case BootCommon(_) => true
       case BootList(_) => true
       case BootCreate(_) => s.disk.checkpoint.None?
       case Idle(_) => s.disk.checkpoint.Some?
       case PrepareRead(_, claim) => s.disk.checkpoint.Some? && claim.uid in s.hist.openPrepare
       case PrepareSpec(node, uid, devices, loaded, restored) =>
         && s.disk.checkpoint == Some(loaded)
         && uid in s.hist.openPrepare
         && (if restored then uid in loaded && loaded[uid] == devices
             else uid !in loaded && |devices| == node.chipCount && Names(devices) <= node.devices)
       case PrepareCommit(node, uid, devices, loaded) =>
         && s.disk.checkpoint == Some(loaded)
         && uid in s.hist.openPrepare
         && uid !in loaded
         && uid in s.disk.specs && s.disk.specs[uid] == Render(uid, devices) && Writable(s.disk.specs[uid])
         && |devices| == node.chipCount && Names(devices) <= node.devices
       case UnprepareRead(_, uid) =>
         s.disk.checkpoint.Some? && uid !in s.hist.answers && uid in s.hist.openUnprepare
       case UnprepareList(node, uid, loaded) =>
         TearingDown(s, uid, loaded) && (node.sharing ==> loaded.Keys == {uid})
       case UnprepareWipe(node, uid, loaded, todo) =>
         TearingDown(s, uid, loaded) && (node.sharing ==> loaded.Keys == {uid}) && todo != []
       case UnprepareSpec(_, uid, loaded) => TearingDown(s, uid, loaded)
       case UnprepareCommit(_, uid, loaded) => TearingDown(s, uid, loaded) && uid !in s.disk.specs
  }

  ghost predicate Inv(s: State) {
    && EntriesRender(s)
    && SpecsAgree(s)
    && LiveOk(s)
    && ResidueOk(s)
    && CommonOk(s)
    && PcOk(s)
  }

  lemma PreparedNamesAreAllocatable(node: Node, claim: Claim)
    requires PrepareDevices(node, claim).Ok?
    ensures var devices := PrepareDevices(node, claim).value;
            |devices| == node.chipCount && Names(devices) <= node.devices
  {
    var own := OwnResults(claim.allocation.value);
    var devices := PreparedAll(node, claim.uid, own);
    forall p | p in devices ensures p.device.name in node.devices {
      var i :| 0 <= i < |devices| && devices[i] == p;
      assert own[i] in own;
    }
  }

  lemma CommonBootKeepsInv(s: State, io: Io)
    requires Inv(s) && s.pc.BootCommon?
    ensures Inv(Apply(s, Step(io)))
  {
    hide Render, GetDevices, DeviceNodes, PreparedAll, OwnResults;
    var s' := Apply(s, Step(io));
    assert s'.hist == s.hist;
    assert Entries(s') == Entries(s);
    if !io.FailedBefore? {
      assert s'.disk.specs[COMMON] == CommonSpec(s.pc.node.commonEnv);
    }
  }

  lemma BootKeepsInv(s: State, io: Io)
    requires Inv(s) && (s.pc.BootList? || s.pc.BootCreate?)
    ensures Inv(Apply(s, Step(io)))
  {
    hide Writable, Render, GetDevices, DeviceNodes, PreparedAll, OwnResults, CommonSpec;
    var s' := Apply(s, Step(io));
    assert s'.hist == s.hist && s'.disk.specs == s.disk.specs;
    assert Entries(s') == Entries(s);
  }

  lemma PrepareReadKeepsInv(s: State, io: Io)
    requires Inv(s) && s.pc.PrepareRead?
    ensures Inv(Apply(s, Step(io)))
  {
    hide Writable, Render, GetDevices, DeviceNodes, PreparedAll, OwnResults, CommonSpec;
    assert Entries(Apply(s, Step(io))) == Entries(s);
    if PrepareDevices(s.pc.node, s.pc.claim).Ok? {
      PreparedNamesAreAllocatable(s.pc.node, s.pc.claim);
    }
  }

  lemma RejectedSpecKeepsInv(s: State, io: Io)
    requires Inv(s) && s.pc.PrepareSpec? && !SpecWritten(Render(s.pc.uid, s.pc.devices), io)
    ensures Inv(Apply(s, Step(io)))
  {
    hide Writable, Render, GetDevices, DeviceNodes, PreparedAll, OwnResults, CommonSpec;
    var s' := Apply(s, Step(io));
    assert Entries(s') == Entries(s);
    assert !s.hist.usedCommon && COMMON in s.disk.specs ==> s'.disk.specs[COMMON] == s.disk.specs[COMMON];
  }

  lemma WrittenSpecKeepsInv(s: State, io: Io)
    requires Inv(s) && s.pc.PrepareSpec? && SpecWritten(Render(s.pc.uid, s.pc.devices), io)
    ensures Inv(Apply(s, Step(io)))
  {
    hide Writable, Render, GetDevices, DeviceNodes, PreparedAll, OwnResults, CommonSpec;
    var s' := Apply(s, Step(io));
    assert Entries(s') == Entries(s);
    assert !s.hist.usedCommon && COMMON in s.disk.specs ==> s'.disk.specs[COMMON] == s.disk.specs[COMMON];
  }

  lemma FailedCommitKeepsInv(s: State, io: Io)
    requires Inv(s) && s.pc.PrepareCommit? && !io.Done?
    ensures Inv(Apply(s, Step(io)))
  {
    hide Writable, Render, GetDevices, DeviceNodes, PreparedAll, OwnResults, CommonSpec;
    var s' := Apply(s, Step(io));
    assert s'.disk.specs == s.disk.specs && s'.hist == s.hist;
    assert Entries(s') == if io.FailedBefore? then Entries(s) else Entries(s)[s.pc.uid := s.pc.devices];
  }

  lemma PrepareCommitKeepsInv(s: State)
    requires Inv(s) && s.pc.PrepareCommit?
    ensures Inv(Apply(s, Step(Done)))
  {
    hide Writable, Render, GetDevices, DeviceNodes, PreparedAll, OwnResults, CommonSpec;
    var s' := Apply(s, Step(Done));
    assert s'.disk.specs == s.disk.specs;
    assert Entries(s') == Entries(s)[s.pc.uid := s.pc.devices];
  }

  lemma UnprepareReadKeepsInv(s: State, io: Io)
    requires Inv(s) && s.pc.UnprepareRead?
    ensures Inv(Apply(s, Step(io)))
  {
    hide Writable, Render, GetDevices, DeviceNodes, PreparedAll, OwnResults, CommonSpec;
    var s' := Apply(s, Step(io));
    assert Entries(s') == Entries(s);
    if s'.pc.UnprepareList? && s.pc.node.sharing {
      assert forall u :: u in s'.pc.loaded ==> u == s.pc.uid;
    }
  }

  lemma UnprepareWipeKeepsInv(s: State, io: Io)
    requires Inv(s) && s.pc.UnprepareWipe?
    ensures Inv(Apply(s, Step(io)))
  {
    hide Writable, Render, GetDevices, DeviceNodes, PreparedAll, OwnResults, CommonSpec;
    var s' := Apply(s, Step(io));
    assert Entries(s') == Entries(s);
    assert s'.disk.specs == s.disk.specs;
  }

  lemma UnprepareSpecKeepsInv(s: State, io: Io)
    requires Inv(s) && s.pc.UnprepareSpec?
    ensures Inv(Apply(s, Step(io)))
  {
    hide Writable, Render, GetDevices, DeviceNodes, PreparedAll, OwnResults, CommonSpec;
    var s' := Apply(s, Step(io));
    assert Entries(s') == Entries(s);
    assert !s.hist.usedCommon && COMMON in s.disk.specs ==> s'.disk.specs[COMMON] == s.disk.specs[COMMON];
  }

  lemma UnprepareCommitKeepsInv(s: State, io: Io)
    requires Inv(s) && s.pc.UnprepareCommit?
    ensures Inv(Apply(s, Step(io)))
  {
    hide Writable, Render, GetDevices, DeviceNodes, PreparedAll, OwnResults, CommonSpec;
    var s' := Apply(s, Step(io));
    assert s'.disk.specs == s.disk.specs;
    assert forall u :: u in Entries(s') ==> u in Entries(s) && Entries(s')[u] == Entries(s)[u];
  }

  lemma StepKeepsInv(s: State, io: Io)
    requires Inv(s) && IsStep(s.pc)
    ensures Inv(Apply(s, Step(io)))
  {
    match s.pc
    case PrepareRead(_, _) => PrepareReadKeepsInv(s, io);
    case PrepareSpec(_, uid, devices, _, _) =>
      if SpecWritten(Render(uid, devices), io) { WrittenSpecKeepsInv(s, io); } else { RejectedSpecKeepsInv(s, io); }
    case PrepareCommit(_, _, _, _) => if io.Done? { PrepareCommitKeepsInv(s); } else { FailedCommitKeepsInv(s, io); }
    case UnprepareRead(_, _) => UnprepareReadKeepsInv(s, io);
    case UnprepareWipe(_, _, _, _) => UnprepareWipeKeepsInv(s, io);
    case UnprepareSpec(_, _, _) => UnprepareSpecKeepsInv(s, io);
    case UnprepareCommit(_, _, _) => UnprepareCommitKeepsInv(s, io);
    case BootCommon(_) => CommonBootKeepsInv(s, io);
    case _ => BootKeepsInv(s, io);
  }

  lemma InvokeKeepsInv(s: State, call: Call)
    requires Inv(s) && s.pc.Idle?
    ensures Inv(Apply(s, Invoke(call)))
  {
    hide Writable, Render, GetDevices, DeviceNodes, PreparedAll, OwnResults, CommonSpec;
    assert Entries(Apply(s, Invoke(call))) == Entries(s);
  }

  lemma EnvironmentKeepsInv(s: State, e: Event)
    requires Inv(s) && Enabled(s, e) && !e.Step? && !e.Invoke?
    ensures Inv(Apply(s, e))
  {
    hide Writable, Render, GetDevices, DeviceNodes, PreparedAll, OwnResults, CommonSpec;
    assert Entries(Apply(s, e)) == Entries(s);
  }

  lemma ApplyKeepsInv(s: State, e: Event)
    requires Inv(s) && Enabled(s, e)
    ensures Inv(Apply(s, e))
  {
    match e
    case Step(io) => StepKeepsInv(s, io);
    case Invoke(call) => InvokeKeepsInv(s, call);
    case _ => EnvironmentKeepsInv(s, e);
  }

  /** The invariant holds in every state of every run. */
  lemma {:induction false} InvHolds(logs: set<string>, es: seq<Event>, n: nat)
    requires Allowed(Initial(logs), es) && n <= |es|
    ensures Inv(After(Initial(logs), es, n))
    decreases n
  {
    if n > 0 {
      InvHolds(logs, es, n - 1);
      AfterStep(Initial(logs), es, n - 1);
      ApplyKeepsInv(After(Initial(logs), es, n - 1), es[n - 1]);
    }
  }
}
