/**
 Whether the CDI ids handed out for a claim resolve, over every run; and the one claim UID for which the
 promises fail.
 */
module ClaimIds {
  import opened Wrappers
  import opened Cdi
  import opened ClaimMachine
  import opened ClaimSafety
  import opened ClaimTeardown
  import opened ClaimDevices
  import opened ClaimGuarantees

  // ----- the ids answered

  predicate IdsShaped(u: Uid, devices: seq<PreparedDevice>) {
    forall p :: p in devices ==> p.device.cdiIds == ClaimDeviceIds(u, [p.device.name])
  }

  ghost predicate ShapeOk(s: State) {
    && (forall u :: u in Entries(s) ==> IdsShaped(u, Entries(s)[u]))
    && (s.pc.PrepareSpec? || s.pc.PrepareCommit? ==> IdsShaped(s.pc.uid, s.pc.devices))
  }

  lemma PreparedIsShaped(node: Node, uid: Uid, own: seq<AllocationResult>)
    ensures IdsShaped(uid, PreparedAll(node, uid, own))
  {
  }

  lemma ApplyKeepsShape(s: State, e: Event)
    requires Inv(s) && ShapeOk(s) && Enabled(s, e)
    ensures ShapeOk(Apply(s, e))
  {
    EntriesFrom(s, e);
    PcKeepsShape(s, e);
    hide Advance, Apply, Inv, IdsShaped;
  }

  lemma PcKeepsShape(s: State, e: Event)
    requires Inv(s) && ShapeOk(s) && Enabled(s, e)
    ensures var pc := Apply(s, e).pc; pc.PrepareSpec? || pc.PrepareCommit? ==> IdsShaped(pc.uid, pc.devices)
  {
    hide Render, Writable, GetDevices, PreparedAll, OwnResults, IdsShaped;
    if s.pc.PrepareRead? {
      assert s.pc.claim.uid in Entries(s) ==> IdsShaped(s.pc.claim.uid, Entries(s)[s.pc.claim.uid]);
    }
    if e.Step? && s.pc.PrepareRead? && s.pc.claim.allocation.Some? {
      PreparedIsShaped(s.pc.node, s.pc.claim.uid, OwnResults(s.pc.claim.allocation.value));
    }
  }

  lemma EmptyIsOk(s: State)
    requires s.pc.Down? && s.disk.checkpoint == None && s.disk.specs == map[]
    ensures ShapeOk(s) && PlainOk(s)
  {
  }

  lemma {:induction false} ShapeHolds(logs: set<string>, es: seq<Event>, n: nat)
    requires Allowed(Initial(logs), es) && n <= |es|
    ensures ShapeOk(After(Initial(logs), es, n))
    decreases n
  {
    hide ShapeOk, Inv, Apply, Enabled;
    if n == 0 {
      EmptyIsOk(Initial(logs));
    } else {
      ShapeHolds(logs, es, n - 1);
      InvHolds(logs, es, n - 1);
      AfterStep(Initial(logs), es, n - 1);
      ApplyKeepsShape(After(Initial(logs), es, n - 1), es[n - 1]);
    }
  }

  lemma DefinedAt(spec: Spec, k: nat, id: string)
    requires k < |spec| && QualifiedName(spec[k].name) == id
    ensures Defines(spec, id)
  {
  }

  /**
   The ids answered for a device of a live claim are the common id and the device's own, which the claim's spec
   file defines; the common file defines the common id as long as no call names the UID "common".
   */
  lemma AnsweredIdsAreDefined(logs: set<string>, es: seq<Event>, n: nat, u: Uid, k: nat)
    requires Allowed(Initial(logs), es) && n <= |es| && u != COMMON
    requires var s := After(Initial(logs), es, n); u in s.hist.answers && k < |s.hist.answers[u]|
    ensures var s := After(Initial(logs), es, n);
            var device := s.hist.answers[u][k];
            var own := QualifiedName(ClaimDeviceName(u, device.name));
            && device.cdiIds == [QualifiedName(COMMON), own]
            && u in s.disk.specs && Defines(s.disk.specs[u], own)
            && (!NamesCommon(es, n) ==> COMMON in s.disk.specs && Defines(s.disk.specs[COMMON], QualifiedName(COMMON)))
  {
    InvHolds(logs, es, n);
    ShapeHolds(logs, es, n);
    var s := After(Initial(logs), es, n);
    var devices := Entries(s)[u];
    AnsweredDevice(s, u, k);
    UsedCommonMeans(logs, es, n);
    IdsOfOne(u, devices[k].device.name);
    hide Inv, ShapeOk, After, ClaimDeviceIds, Defines;
    DefinedAt(s.disk.specs[u], k, QualifiedName(ClaimDeviceName(u, devices[k].device.name)));
    if !s.hist.usedCommon {
      DefinedAt(s.disk.specs[COMMON], 0, QualifiedName(COMMON));
    }
  }

  lemma IdsOfOne(u: Uid, device: string)
    ensures ClaimDeviceIds(u, [device]) == [QualifiedName(COMMON), QualifiedName(ClaimDeviceName(u, device))]
  {
    assert IdsOf(u, [device]) == [QualifiedName(ClaimDeviceName(u, device))];
  }

  lemma AnsweredDevice(s: State, u: Uid, k: nat)
    requires Inv(s) && ShapeOk(s) && u != COMMON && u in s.hist.answers && k < |s.hist.answers[u]|
    ensures u in Entries(s) && k < |Entries(s)[u]| && u in s.disk.specs
    ensures var device := s.hist.answers[u][k];
            && device == Entries(s)[u][k].device && device.cdiIds == ClaimDeviceIds(u, [device.name])
            && s.disk.specs[u] == Render(u, Entries(s)[u])
    ensures !s.hist.usedCommon ==> CommonInPlace(s.disk.specs)
  {
    hide Writable, Render, CommonSpec, ClaimDeviceIds;
    assert Entries(s)[u][k] in Entries(s)[u];
  }

  // ----- no other file defines them

  predicate DashFree(name: string) {
    '-' !in name
  }

  /** Every start finds devices without a dash in their names, as enumeration admits them. */
  predicate PlainNames(es: seq<Event>) {
    forall k :: 0 <= k < |es| && es[k].Start? ==> forall d :: d in es[k].node.devices ==> DashFree(d)
  }

  /** The name is `uid-device` for a device name without a dash. */
  predicate NamedFor(uid: Uid, name: string) {
    |uid| < |name| && name[..|uid|] == uid && name[|uid|] == '-' && DashFree(name[|uid| + 1..])
  }

  /** A spec file holds names of its own UID only, or is the common one. */
  predicate OwnNames(file: Uid, spec: Spec) {
    || (forall k :: 0 <= k < |spec| ==> NamedFor(file, spec[k].name))
    || (file == COMMON && forall k :: 0 <= k < |spec| ==> spec[k].name == COMMON)
  }

  predicate PlainDevices(devices: seq<PreparedDevice>) {
    forall p :: p in devices ==> DashFree(p.device.name)
  }

  ghost predicate PlainOk(s: State) {
    && (!s.pc.Down? ==> forall d :: d in s.pc.node.devices ==> DashFree(d))
    && (forall u :: u in Entries(s) ==> PlainDevices(Entries(s)[u]))
    && forall file :: file in s.disk.specs ==> OwnNames(file, s.disk.specs[file])
  }

  /** Every spec file after a step was there before or is the one the step writes. */
  lemma SpecsFrom(s: State, e: Event)
    requires Enabled(s, e)
    ensures var specs := Apply(s, e).disk.specs;
            forall file :: file in specs ==>
              || (file in s.disk.specs && specs[file] == s.disk.specs[file])
              || (s.pc.BootCommon? && file == COMMON && specs[file] == CommonSpec(s.pc.node.commonEnv))
              || (s.pc.PrepareSpec? && file == s.pc.uid && specs[file] == Render(file, s.pc.devices))
  {
    hide Writable, Render, GetDevices, PrepareDevices, CommonSpec;
  }

  lemma RenderedNames(uid: Uid, devices: seq<PreparedDevice>)
    requires PlainDevices(devices)
    ensures OwnNames(uid, Render(uid, devices))
  {
    forall k | 0 <= k < |devices| ensures NamedFor(uid, Render(uid, devices)[k].name) {
      assert devices[k] in devices;
      assert ClaimDeviceName(uid, devices[k].device.name)[|uid| + 1..] == devices[k].device.name;
    }
  }

  /** The devices a call works on are checkpointed or allocatable ones. */
  lemma PcDevicesArePlain(s: State)
    requires Inv(s) && PlainOk(s) && (s.pc.PrepareSpec? || s.pc.PrepareCommit?)
    ensures PlainDevices(s.pc.devices)
  {
    hide Writable, Render, GetDevices, CommonSpec, DashFree, OwnNames, PlainDevices;
    if s.pc.PrepareSpec? && s.pc.restored {
      assert s.pc.devices == Entries(s)[s.pc.uid];
    } else {
      AllocatableArePlain(s.pc.node, s.pc.devices);
    }
  }

  lemma AllocatableArePlain(node: Node, devices: seq<PreparedDevice>)
    requires Names(devices) <= node.devices && forall d :: d in node.devices ==> DashFree(d)
    ensures PlainDevices(devices)
  {
    forall p | p in devices ensures DashFree(p.device.name) {
      assert p.device.name in Names(devices);
    }
  }

  lemma ApplyKeepsPlain(s: State, e: Event)
    requires Inv(s) && PlainOk(s) && Enabled(s, e)
    requires e.Start? ==> forall d :: d in e.node.devices ==> DashFree(d)
    ensures PlainOk(Apply(s, e))
  {
    NodeStays(s, e);
    EntriesFrom(s, e);
    SpecsFrom(s, e);
    if s.pc.PrepareSpec? || s.pc.PrepareCommit? {
      PcDevicesArePlain(s);
      RenderedNames(s.pc.uid, s.pc.devices);
    }
    hide Advance, Apply, Inv, Render, DashFree, PlainDevices, NamedFor;
  }

  lemma {:induction false} PlainHolds(logs: set<string>, es: seq<Event>, n: nat)
    requires Allowed(Initial(logs), es) && n <= |es| && PlainNames(es)
    ensures PlainOk(After(Initial(logs), es, n))
    decreases n
  {
    hide PlainOk, Inv, Apply, Enabled, DashFree;
    if n == 0 {
      EmptyIsOk(Initial(logs));
    } else {
      PlainHolds(logs, es, n - 1);
      InvHolds(logs, es, n - 1);
      AfterStep(Initial(logs), es, n - 1);
      ApplyKeepsPlain(After(Initial(logs), es, n - 1), es[n - 1]);
    }
  }

  lemma QualifiedNamesAreInjective(a: string, b: string)
    requires QualifiedName(a) == QualifiedName(b)
    ensures a == b
  {
    var prefix := VENDOR + "/" + CLASS + "=";
    assert a == QualifiedName(a)[|prefix|..] && b == QualifiedName(b)[|prefix|..];
  }

  /** Two files that define one id are the same file. */
  lemma OneFilePerId(file: Uid, spec: Spec, other: Uid, otherSpec: Spec, id: string)
    requires OwnNames(file, spec) && OwnNames(other, otherSpec)
    requires Defines(spec, id) && Defines(otherSpec, id)
    ensures file == other
  {
    var k :| 0 <= k < |spec| && QualifiedName(spec[k].name) == id;
    var m :| 0 <= m < |otherSpec| && QualifiedName(otherSpec[m].name) == id;
    var name := spec[k].name;
    QualifiedNamesAreInjective(name, otherSpec[m].name);
    if NamedFor(file, name) && NamedFor(other, name) {
      assert name == ClaimDeviceName(file, name[|file| + 1..]) == ClaimDeviceName(other, name[|other| + 1..]);
      ClaimDeviceNamesAreInjective(file, name[|file| + 1..], other, name[|other| + 1..]);
    } else {
      assert '-' !in COMMON;
      assert NamedFor(file, name) || NamedFor(other, name) ==> '-' in name;
    }
  }

  /**
   The ids answered for a live claim resolve: over any run on nodes whose device names hold no dash, the claim's
   own id is a device of its spec file and of no other, orphaned files included; and so is the common id of
   the common file, as long as no call names the UID "common".
   */
  lemma IdsResolve(logs: set<string>, es: seq<Event>, n: nat, u: Uid, k: nat)
    requires Allowed(Initial(logs), es) && n <= |es| && u != COMMON && PlainNames(es)
    requires var s := After(Initial(logs), es, n); u in s.hist.answers && k < |s.hist.answers[u]|
    ensures var s := After(Initial(logs), es, n);
            var device := s.hist.answers[u][k];
            && device.cdiIds == ClaimDeviceIds(u, [device.name])
            && device.cdiIds == [QualifiedName(COMMON), QualifiedName(ClaimDeviceName(u, device.name))]
            && Resolves(s.disk.specs, device.cdiIds[1], u)
            && (!NamesCommon(es, n) ==> Resolves(s.disk.specs, device.cdiIds[0], COMMON))
  {
    AnsweredIdsAreDefined(logs, es, n, u, k);
    PlainHolds(logs, es, n);
    var s := After(Initial(logs), es, n);
    var device := s.hist.answers[u][k];
    IdsOfOne(u, device.name);
    hide Defines, OwnNames, QualifiedName, ClaimDeviceName;
    forall f, file, id | f in s.disk.specs && file in s.disk.specs && Defines(s.disk.specs[f], id)
                         && Defines(s.disk.specs[file], id)
      ensures f == file
    {
      OneFilePerId(f, s.disk.specs[f], file, s.disk.specs[file], id);
    }
  }

  // ----- the UID "common"

  ghost predicate Reached(s: State, logs: set<string>, es: seq<Event>) {
    Allowed(Initial(logs), es) && After(Initial(logs), es, |es|) == s
  }

  lemma {:induction false} AllowedSnoc(s: State, es: seq<Event>, e: Event)
    requires Allowed(s, es) && Enabled(After(s, es, |es|), e)
    ensures Allowed(s, es + [e]) && After(s, es + [e], |es| + 1) == Apply(After(s, es, |es|), e)
    decreases |es|
  {
    if es == [] {
      assert es + [e] == [e];
    } else {
      assert (es + [e])[1..] == es[1..] + [e];
      AllowedSnoc(Apply(s, es[0]), es[1..], e);
    }
  }

  lemma Extend(s: State, logs: set<string>, es: seq<Event>, e: Event) returns (s': State, es': seq<Event>)
    requires Reached(s, logs, es) && Enabled(s, e)
    ensures es' == es + [e] && s' == Apply(s, e) && Reached(s', logs, es')
  {
    AllowedSnoc(Initial(logs), es, e);
    s', es' := Apply(s, e), es + [e];
  }

  /** Two successful steps of the boot: the common spec is written, the checkpoint found. */
  lemma Reboot(s: State, logs: set<string>, es: seq<Event>, node: Node) returns (s': State, es': seq<Event>)
    requires Reached(s, logs, es) && s.disk.checkpoint.Some? && ValidNode(node)
    ensures Reached(s', logs, es') && s'.pc == Idle(node) && s'.hist == s.hist
    ensures s'.disk == s.disk.(specs := s.disk.specs[COMMON := CommonSpec(node.commonEnv)])
  {
    s', es' := Extend(s, logs, es, Crash);
    s', es' := Extend(s', logs, es', Start(node));
    s', es' := Extend(s', logs, es', Step(Done));
    s', es' := Extend(s', logs, es', Step(Done));
  }

  lemma FirstBoot(node: Node) returns (s: State, es: seq<Event>)
    requires ValidNode(node)
    ensures Reached(s, {}, es) && s.pc == Idle(node) && s.disk.checkpoint == Some(map[])
  {
    s, es := Initial({}), [];
    s, es := Extend(s, {}, es, Start(node));
    s, es := Extend(s, {}, es, Step(Done));
    s, es := Extend(s, {}, es, Step(Done));
    s, es := Extend(s, {}, es, Step(Done));
  }

  lemma RunPrepare(s: State, es: seq<Event>, claim: Claim) returns (s': State, es': seq<Event>)
    requires Reached(s, {}, es) && s.pc.Idle? && s.disk.checkpoint.Some? && claim.uid !in s.disk.checkpoint.value
    requires PrepareDevices(s.pc.node, claim).Ok? && |PrepareDevices(s.pc.node, claim).value| == 1
    requires Renderable(claim.uid, PrepareDevices(s.pc.node, claim).value)
    ensures Reached(s', {}, es') && s'.pc == s.pc
    ensures var devices := PrepareDevices(s.pc.node, claim).value;
            && s'.disk.checkpoint == Some(s.disk.checkpoint.value[claim.uid := devices])
            && s'.hist.answers == s.hist.answers[claim.uid := GetDevices(devices)]
  {
    RenderIsWritable(claim.uid, PrepareDevices(s.pc.node, claim).value);
    s', es' := Extend(s, {}, es, Invoke(PrepareCall(claim)));
    s', es' := Extend(s', {}, es', Step(Done));
    s', es' := Extend(s', {}, es', Step(Done));
    s', es' := Extend(s', {}, es', Step(Done));
  }

  lemma RunTeardown(s: State, es: seq<Event>, uid: Uid, other: Uid) returns (s': State, es': seq<Event>)
    requires Reached(s, {}, es) && s.pc.Idle? && s.disk.checkpoint.Some? && s.pc.node.sharing
    requires Known(s.disk.checkpoint.value, uid) && other in s.disk.checkpoint.value && other != uid
    ensures Reached(s', {}, es') && s'.pc.Idle?
    ensures uid !in s'.disk.specs && s'.hist.answers == s.hist.answers - {uid}
  {
    hide Render, Writable, GetDevices;
    s', es' := Extend(s, {}, es, Invoke(UnprepareCall(uid)));
    s', es' := Extend(s', {}, es', Step(Done));
    s', es' := Extend(s', {}, es', Step(Done));
    s', es' := Extend(s', {}, es', Step(Done));
  }

  /** In no run does the spec file of claim `u` fail it while it is live. */
  ghost predicate AlwaysServed(u: Uid) {
    forall logs, es :: Allowed(Initial(logs), es) ==> Served(After(Initial(logs), es, |es|), u)
  }

  ghost predicate Served(s: State, u: Uid) {
    u in s.hist.answers ==> u in Entries(s) && u in s.disk.specs && s.disk.specs[u] == Render(u, Entries(s)[u])
  }

  lemma SingleChipClaim(node: Node, uid: Uid) returns (claim: Claim)
    requires node.chipCount == 1 && node.devices == {"0"} && ValidUid(uid)
    ensures claim.uid == uid && PrepareDevices(node, claim).Ok? && |PrepareDevices(node, claim).value| == 1
    ensures Renderable(uid, PrepareDevices(node, claim).value)
  {
    var r := AllocationResult(DRIVER_NAME, "tpu", "pool", "0");
    claim := Claim(uid, Some([r]));
    assert OwnResults([r]) == [r] + OwnResults([r][1..]) && [r][1..] == [];
  }

  /**
   The spec promise holds in every run exactly for the claims not called "common": that transient id is the
   one NewDeviceState writes the shared spec under, so a restart replaces such a claim's spec file.
   */
  lemma ServedUnlessNamedCommon(u: Uid)
    ensures AlwaysServed(u) <==> u != COMMON
  {
    if u != COMMON {
      forall logs, es | Allowed(Initial(logs), es) ensures Served(After(Initial(logs), es, |es|), u) {
        InvHolds(logs, es, |es|);
      }
    } else {
      var node := Node(1, {"0"}, "/dev/vfio", "v6e", false, []);
      var claim := SingleChipClaim(node, u);
      var s, es := FirstBoot(node);
      s, es := RunPrepare(s, es, claim);
      s, es := Reboot(s, {}, es, node);
      InvHolds({}, es, |es|);
      assert s.disk.specs[u][0].name == COMMON;
      assert Entries(s)[u] != [];
      assert Render(u, Entries(s)[u])[0].name == ClaimDeviceName(u, Entries(s)[u][0].device.name);
      assert |ClaimDeviceName(u, Entries(s)[u][0].device.name)| > |COMMON|;
      assert !Served(s, u);
    }
  }

  /**
   The UID "common" also harms the others: tearing it down removes the spec that every other claim's first id
   needs.
   */
  lemma CommonTeardownBreaksIds(u: Uid) returns (s: State, es: seq<Event>)
    requires u != COMMON && ValidUid(u)
    ensures Reached(s, {}, es) && s.pc.Idle?
    ensures u in s.hist.answers && s.hist.answers[u] != [] && QualifiedName(COMMON) in s.hist.answers[u][0].cdiIds
    ensures COMMON !in s.disk.specs
  {
    var node := Node(1, {"0"}, "/dev/vfio", "v6e", true, []);
    var claim := SingleChipClaim(node, u);
    s, es := FirstBoot(node);
    s, es := RunPrepare(s, es, claim);
    var devices := PrepareDevices(node, claim).value;
    assert devices[0].device.cdiIds[0] == QualifiedName(COMMON);
    var common := SingleChipClaim(node, COMMON);
    s, es := RunPrepare(s, es, common);
    s, es := RunTeardown(s, es, COMMON, u);
  }
}
