/**
 What a live claim is given, down to the last field: the devices answered for it and the contents of its spec
 file, traced back to the allocation of the Prepare that made its entry.
 */
module ClaimGrants {
  import opened Wrappers
  import opened Cdi
  import opened ClaimMachine
  import opened ClaimSafety
  import opened ClaimDevices
  import opened ClaimGuarantees

  // ----- where an entry comes from

  /** The devices were prepared for the Prepare of `u` invoked at event `i`. */
  ghost predicate Origin(s: State, es: seq<Event>, i: nat, u: Uid, devices: seq<PreparedDevice>)
    requires Allowed(s, es) && i < |es|
  {
    && es[i].Invoke? && es[i].call.PrepareCall? && es[i].call.claim.uid == u && es[i].call.claim.allocation.Some?
    && After(s, es, i).pc.Idle?
    && devices == PreparedAll(After(s, es, i).pc.node, u, OwnResults(es[i].call.claim.allocation.value))
  }

  lemma ReadStays(s: State, e: Event)
    requires Enabled(s, e) && Apply(s, e).pc.PrepareRead?
    ensures s.pc == Apply(s, e).pc
            || (s.pc == Idle(Apply(s, e).pc.node) && e == Invoke(PrepareCall(Apply(s, e).pc.claim)))
  {
    hide Render, Writable, GetDevices, PrepareDevices;
  }

  lemma {:induction false} ReadOrigin(s: State, es: seq<Event>, n: nat) returns (i: nat)
    requires Allowed(s, es) && n <= |es| && !s.pc.PrepareRead? && After(s, es, n).pc.PrepareRead?
    ensures i < n && After(s, es, i).pc == Idle(After(s, es, n).pc.node)
    ensures es[i] == Invoke(PrepareCall(After(s, es, n).pc.claim))
    decreases n
  {
    AfterStep(s, es, n - 1);
    ReadStays(After(s, es, n - 1), es[n - 1]);
    if After(s, es, n - 1).pc.PrepareRead? {
      i := ReadOrigin(s, es, n - 1);
    } else {
      i := n - 1;
    }
  }

  /** A call is about to commit devices it has just prepared. */
  predicate Fresh(pc: Pc) {
    (pc.PrepareSpec? && !pc.restored) || pc.PrepareCommit?
  }

  lemma FreshFrom(s: State, e: Event)
    requires Enabled(s, e) && Fresh(Apply(s, e).pc)
    ensures var pc := Apply(s, e).pc;
            || (Fresh(s.pc) && pc.uid == s.pc.uid && pc.devices == s.pc.devices)
            || (s.pc.PrepareRead? && pc.uid == s.pc.claim.uid && s.pc.claim.allocation.Some?
                && pc.devices == PreparedAll(s.pc.node, pc.uid, OwnResults(s.pc.claim.allocation.value)))
  {
    hide Render, Writable, GetDevices, PreparedAll, OwnResults;
  }

  lemma {:induction false} FreshOrigin(s: State, es: seq<Event>, n: nat) returns (i: nat)
    requires Allowed(s, es) && n <= |es| && s.pc.Down? && Fresh(After(s, es, n).pc)
    ensures i < n && Origin(s, es, i, After(s, es, n).pc.uid, After(s, es, n).pc.devices)
    decreases n
  {
    hide Apply, Enabled, PreparedAll, OwnResults;
    AfterStep(s, es, n - 1);
    FreshFrom(After(s, es, n - 1), es[n - 1]);
    if Fresh(After(s, es, n - 1).pc) {
      i := FreshOrigin(s, es, n - 1);
    } else {
      i := ReadOrigin(s, es, n - 1);
    }
  }

  /** Every checkpoint entry was made by a Prepare of its claim, from the allocation the call was given. */
  lemma {:induction false} EntryOrigin(logs: set<string>, es: seq<Event>, n: nat, u: Uid) returns (i: nat)
    requires Allowed(Initial(logs), es) && n <= |es| && u in Entries(After(Initial(logs), es, n))
    ensures i < n && Origin(Initial(logs), es, i, u, Entries(After(Initial(logs), es, n))[u])
    decreases n
  {
    hide Apply, Inv, Origin;
    InvHolds(logs, es, n - 1);
    AfterStep(Initial(logs), es, n - 1);
    var s := After(Initial(logs), es, n - 1);
    EntriesFrom(s, es[n - 1]);
    if u in Entries(s) && Entries(After(Initial(logs), es, n))[u] == Entries(s)[u] {
      i := EntryOrigin(logs, es, n - 1, u);
    } else {
      i := FreshOrigin(Initial(logs), es, n - 1);
    }
  }

  // ----- what is granted

  /** Every start runs on the same host: one device directory, one TPU generation. */
  predicate SameHost(es: seq<Event>, devDirectory: string, gen: string) {
    forall k :: 0 <= k < |es| && es[k].Start? ==> es[k].node.devDirectory == devDirectory && es[k].node.tpuGen == gen
  }

  lemma {:induction false} HostOfNode(s: State, es: seq<Event>, n: nat, devDirectory: string, gen: string)
    requires Allowed(s, es) && n <= |es| && s.pc.Down? && SameHost(es, devDirectory, gen)
    ensures var pc := After(s, es, n).pc; pc.Down? || (pc.node.devDirectory == devDirectory && pc.node.tpuGen == gen)
    decreases n
  {
    hide Apply;
    if n > 0 {
      HostOfNode(s, es, n - 1, devDirectory, gen);
      AfterStep(s, es, n - 1);
      NodeStays(After(s, es, n - 1), es[n - 1]);
    }
  }

  predicate NeedsControlNode(gen: string) {
    (|gen| >= 2 && gen[..2] == "v5") || (|gen| >= 3 && gen[..3] == "v6e")
  }

  lemma Prefixes(s: string, prefix: string)
    ensures prefix <= s <==> |s| >= |prefix| && s[..|prefix|] == prefix
  {
  }

  /** A container may use the chip's own node and, where the generation needs it, the vfio control node; no other. */
  predicate GrantsChip(nodes: seq<DeviceNode>, devDirectory: string, gen: string, device: string) {
    && |nodes| == (if NeedsControlNode(gen) then 2 else 1)
    && nodes[0] == DeviceNode(devDirectory + "/" + device, "mrw")
    && (NeedsControlNode(gen) ==> nodes[1] == DeviceNode(devDirectory + "/vfio", "mrw"))
  }

  lemma NodesGrantChip(node: Node, device: string)
    ensures GrantsChip(DeviceNodes(node, device), node.devDirectory, node.tpuGen, device)
  {
    Prefixes(node.tpuGen, "v5");
    Prefixes(node.tpuGen, "v6e");
  }

  lemma QualifiedLiteral(name: string)
    ensures QualifiedName(name) == "k8s.tpu.google.com/tpu=" + name
  {
    assert VENDOR + "/" + CLASS + "=" == "k8s.tpu.google.com/tpu=";
  }

  /** What a device prepared for an allocation result tells the kubelet, and what its device in a spec file grants. */
  lemma PreparedMeans(node: Node, u: Uid, r: AllocationResult)
    ensures PreparedFor(node, u, r).device
            == Device([r.request], r.pool, r.device,
                      ["k8s.tpu.google.com/tpu=common", "k8s.tpu.google.com/tpu=" + (u + "-" + r.device)])
    ensures var granted := RenderDevice(u, PreparedFor(node, u, r));
            && granted.name == u + "-" + r.device
            && granted.env == ["TPU_DEVICE_" + r.device + "_RESOURCE_CLAIM=" + u]
            && GrantsChip(granted.nodes, node.devDirectory, node.tpuGen, r.device)
  {
    NodesGrantChip(node, r.device);
    QualifiedLiteral(COMMON);
    QualifiedLiteral(ClaimDeviceName(u, r.device));
    assert "k8s.tpu.google.com/tpu=" + COMMON == "k8s.tpu.google.com/tpu=common";
    assert IdsOf(u, [r.device]) == [QualifiedName(ClaimDeviceName(u, r.device))];
  }

  /**
   What a live claim is given, in every run on one host. Some Prepare of it, invoked at event `i`, was allocated
   this driver's results `own`; the kubelet was answered one device per result, in order, with its request, pool
   and name and exactly two ids; and the claim's spec file holds one device per result, in order, under the name
   the second id ends in, with the one variable that names the claim and exactly the chip's nodes.
   */
  lemma LiveClaimsAreGranted(logs: set<string>, es: seq<Event>, n: nat, u: Uid, devDirectory: string, gen: string)
    returns (i: nat, own: seq<AllocationResult>)
    requires Allowed(Initial(logs), es) && n <= |es| && u != "common" && SameHost(es, devDirectory, gen)
    requires u in After(Initial(logs), es, n).hist.answers
    ensures i < n && es[i].Invoke? && es[i].call.PrepareCall? && es[i].call.claim.uid == u
    ensures es[i].call.claim.allocation.Some? && own == OwnResults(es[i].call.claim.allocation.value)
    ensures var s := After(Initial(logs), es, n);
            && u in s.disk.specs && |s.disk.specs[u]| == |s.hist.answers[u]| == |own|
            && forall k :: 0 <= k < |own| ==>
                 var (d, granted) := (own[k].device, s.disk.specs[u][k]);
                 && s.hist.answers[u][k]
                    == Device([own[k].request], own[k].pool, d,
                              ["k8s.tpu.google.com/tpu=common", "k8s.tpu.google.com/tpu=" + (u + "-" + d)])
                 && granted.name == u + "-" + d
                 && granted.env == ["TPU_DEVICE_" + d + "_RESOURCE_CLAIM=" + u]
                 && GrantsChip(granted.nodes, devDirectory, gen, d)
  {
    var s := After(Initial(logs), es, n);
    InvHolds(logs, es, n);
    var entry := Entries(s)[u];
    assert s.hist.answers[u] == GetDevices(entry) && s.disk.specs[u] == Render(u, entry);
    hide Inv;
    i := EntryOrigin(logs, es, n, u);
    own := OwnResults(es[i].call.claim.allocation.value);
    var node := After(Initial(logs), es, i).pc.node;
    HostOfNode(Initial(logs), es, i, devDirectory, gen);
    hide After, Origin, OwnResults, PreparedFor, RenderDevice, GrantsChip;
    forall k | 0 <= k < |own|
      ensures s.hist.answers[u][k] == PreparedFor(node, u, own[k]).device
      ensures s.disk.specs[u][k] == RenderDevice(u, PreparedFor(node, u, own[k]))
    {
      assert entry[k] == PreparedFor(node, u, own[k]);
    }
    forall k | 0 <= k < |own| {
      PreparedMeans(node, u, own[k]);
    }
  }

  // ----- the common spec

  /** The process has got past writing the common spec. */
  predicate Started(pc: Pc) {
    !pc.Down? && !pc.BootCommon?
  }

  ghost predicate CommonCurrent(s: State) {
    !s.hist.usedCommon && Started(s.pc) ==>
      COMMON in s.disk.specs && s.disk.specs[COMMON] == [CdiDevice("common", s.pc.node.commonEnv, [])]
  }

  lemma DownIsCurrent(s: State)
    requires s.pc.Down?
    ensures CommonCurrent(s)
  {
  }

  lemma ApplyKeepsCommonCurrent(s: State, e: Event)
    requires Inv(s) && CommonCurrent(s) && Enabled(s, e)
    ensures CommonCurrent(Apply(s, e))
  {
    hide Render, GetDevices, PrepareDevices, EntriesRender, SpecsAgree, LiveOk, ResidueOk, CommonOk;
    if s.pc.BootCommon? {
      CommonIsWritable(s.pc.node.commonEnv);
    }
    hide Writable;
  }

  lemma CommonIsWritable(env: seq<string>)
    ensures Writable(CommonSpec(env)) && CommonSpec(env) == [CdiDevice("common", env, [])]
  {
    assert ValidDeviceName(COMMON);
  }

  /**
   As long as no call names the UID "common", the common spec file of a plugin that has started holds one
   device, named "common", with the environment this start computed and no device node.
   */
  lemma CommonSpecIsCurrent(logs: set<string>, es: seq<Event>, n: nat)
    requires Allowed(Initial(logs), es) && n <= |es| && !NamesCommon(es, n)
    requires Started(After(Initial(logs), es, n).pc)
    ensures var s := After(Initial(logs), es, n);
            "common" in s.disk.specs && s.disk.specs["common"] == [CdiDevice("common", s.pc.node.commonEnv, [])]
  {
    CommonStaysCurrent(logs, es, n);
    UsedCommonMeans(logs, es, n);
  }

  lemma {:induction false} CommonStaysCurrent(logs: set<string>, es: seq<Event>, n: nat)
    requires Allowed(Initial(logs), es) && n <= |es|
    ensures CommonCurrent(After(Initial(logs), es, n))
    decreases n
  {
    hide CommonCurrent, Inv, Apply, Enabled;
    if n == 0 {
      DownIsCurrent(Initial(logs));
    } else {
      CommonStaysCurrent(logs, es, n - 1);
      InvHolds(logs, es, n - 1);
      AfterStep(Initial(logs), es, n - 1);
      ApplyKeepsCommonCurrent(After(Initial(logs), es, n - 1), es[n - 1]);
    }
  }
}
