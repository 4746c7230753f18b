/**
 What the host tells about its TPU chips (cmd/tpu-dra-kubeletplugin/hardware.go): folds over directory
 listings whose order means nothing.
 */
module Hardware {
  import opened Wrappers
  import opened Text
  import opened Accelerator
  import opened Manager
  import opened Sequences

  /** One PCI device of an IOMMU group, as its sysfs files read; None is a file that cannot be read. */
  datatype PciDevice = PciDevice(vendor: Option<string>, device: Option<string>, subsystem: string)

  /** /dev/vfio and the devices of each IOMMU group; a group that is not there cannot be read. */
  datatype Host = Host(vfio: Option<seq<DirEntry>>, groups: map<string, seq<PciDevice>>)

  const GOOGLE := "0x1ae0"

  predicate KnownNonTpu(device: string) {
    device == "0x001f" || device == "0x0042" || device == "0xabcd"
  }

  // ----- generations from PCI ids

  predicate FamilyMatches(f: Family, device: string, subsystem: string) {
    f.pciDeviceId == device && (f.pciSubsystemId == "" || f.pciSubsystemId == subsystem)
  }

  /** tpuGenerationFromPCIIDs: the empty string stands for ids this driver does not recognise. */
  method GenerationFromPciIds(device: string, subsystem: string) returns (gen: string)
    ensures gen == PciGeneration(device, subsystem)
  {
    for k := 0 to |FAMILIES|
      invariant PciGeneration(device, subsystem) == FirstGeneration(FAMILIES[k..], device, subsystem)
    {
      assert FAMILIES[k..][0] == FAMILIES[k] && FAMILIES[k..][1..] == FAMILIES[k + 1..];
      if FAMILIES[k].pciDeviceId != device {
        continue;
      }
      if FAMILIES[k].pciSubsystemId != "" && FAMILIES[k].pciSubsystemId != subsystem {
        continue;
      }
      return if FAMILIES[k].generations == [] then "" else FAMILIES[k].generations[0];
    }
    gen := "";
  }

  function FirstGeneration(families: seq<Family>, device: string, subsystem: string): string {
    if families == [] then ""
    else if FamilyMatches(families[0], device, subsystem)
    then if families[0].generations == [] then "" else families[0].generations[0]
    else FirstGeneration(families[1..], device, subsystem)
  }

  function PciGeneration(device: string, subsystem: string): string {
    FirstGeneration(FAMILIES, device, subsystem)
  }

  lemma {:induction false} FirstGenerationIsListed(families: seq<Family>, device: string, subsystem: string)
    ensures var gen := FirstGeneration(families, device, subsystem);
            gen == "" || exists f :: f in families && gen in f.generations
  {
    if families != [] && !FamilyMatches(families[0], device, subsystem) {
      FirstGenerationIsListed(families[1..], device, subsystem);
    }
  }

  /** The generation of each PCI id this driver recognises. */
  lemma PciGenerationMeans(device: string, subsystem: string)
    ensures PciGeneration(device, subsystem)
            == if device == "0x0027" && subsystem == "0x004f" then "v3"
               else if device == "0x005e" then "v4"
               else if device == "0x0063" then "v5lite"
               else if device == "0x0062" then "v5p"
               else if device == "0x006f" then "v6e"
               else ""
  {
    var fs := FAMILIES;
    assert FirstGeneration(fs[5..], device, subsystem) == "";
    forall k | 0 <= k < 5
      ensures FirstGeneration(fs[k..], device, subsystem)
              == if FamilyMatches(fs[k], device, subsystem) then fs[k].generations[0]
                 else FirstGeneration(fs[k + 1..], device, subsystem)
    {
      assert fs[k..][0] == fs[k] && fs[k..][1..] == fs[k + 1..];
    }
    assert fs[0..] == fs;
  }

  // ----- one IOMMU group

  predicate IsTpu(d: PciDevice) {
    && d.vendor.Some? && Lower(TrimSpace(d.vendor.value)) == GOOGLE
    && d.device.Some? && !KnownNonTpu(TrimSpace(d.device.value))
  }

  /** tpuGenerationOfIOMMUGroup: the generation of the group's first TPU, "" if unrecognised; None without a TPU. */
  function GroupGeneration(devices: seq<PciDevice>): Option<string> {
    if devices == [] then None
    else if IsTpu(devices[0])
    then Some(PciGeneration(TrimSpace(devices[0].device.value), TrimSpace(devices[0].subsystem)))
    else GroupGeneration(devices[1..])
  }

  /**
   A PCI device of the vendor 0x1ae0, in any case and padding, whose device id can be read and is not a known
   other.
   */
  predicate IsTpuDevice(d: PciDevice) {
    && d.vendor.Some? && Lower(TrimSpace(d.vendor.value)) == "0x1ae0"
    && d.device.Some? && TrimSpace(d.device.value) !in {"0x001f", "0x0042", "0xabcd"}
  }

  /** A group bears a TPU exactly if some device of it is one, and its generation is that of the first. */
  lemma {:induction false} GroupGenerationMeans(devices: seq<PciDevice>)
    ensures GroupGeneration(devices).Some? <==> exists k :: 0 <= k < |devices| && IsTpuDevice(devices[k])
    ensures forall k :: 0 <= k < |devices| && IsTpuDevice(devices[k])
                        && (forall m :: 0 <= m < k ==> !IsTpuDevice(devices[m])) ==>
              GroupGeneration(devices)
              == Some(PciGeneration(TrimSpace(devices[k].device.value), TrimSpace(devices[k].subsystem)))
  {
    if devices != [] {
      hide PciGeneration, Lower, TrimSpace;
      var rest := devices[1..];
      GroupGenerationMeans(rest);
      assert forall k :: 1 <= k < |devices| ==> devices[k] == rest[k - 1];
      assert IsTpu(devices[0]) <==> IsTpuDevice(devices[0]);
      hide IsTpu, IsTpuDevice;
      if GroupGeneration(rest).Some? {
        var k :| 0 <= k < |rest| && IsTpuDevice(rest[k]);
        assert IsTpuDevice(devices[k + 1]);
      }
      if !IsTpuDevice(devices[0]) {
        forall k | 0 <= k < |devices| && IsTpuDevice(devices[k])
                   && (forall m :: 0 <= m < k ==> !IsTpuDevice(devices[m]))
          ensures GroupGeneration(devices)
                  == Some(PciGeneration(TrimSpace(devices[k].device.value), TrimSpace(devices[k].subsystem)))
        {
          assert rest[k - 1] == devices[k];
          assert forall m :: 0 <= m < k - 1 ==> rest[m] == devices[m + 1];
        }
      }
    }
  }

  method GenerationOfGroup(host: Host, group: string) returns (r: Option<string>)
    ensures r == if group in host.groups then GroupGeneration(host.groups[group]) else None
  {
    if group !in host.groups {
      return None;
    }
    var devices := host.groups[group];
    for k := 0 to |devices|
      invariant GroupGeneration(devices) == GroupGeneration(devices[k..])
    {
      assert devices[k..][0] == devices[k] && devices[k..][1..] == devices[k + 1..];
      if devices[k].vendor == None || Lower(TrimSpace(devices[k].vendor.value)) != GOOGLE {
        continue;
      }
      if devices[k].device == None {
        continue;
      }
      if KnownNonTpu(TrimSpace(devices[k].device.value)) {
        continue;
      }
      var gen := GenerationFromPciIds(TrimSpace(devices[k].device.value), TrimSpace(devices[k].subsystem));
      return Some(gen);
    }
    r := None;
  }

  // ----- all groups

  /** What one entry of /dev/vfio contributes. */
  function EntryGeneration(host: Host, entry: DirEntry): Option<string> {
    if entry.isDir || !IsDeviceName(true, entry.name) || entry.name !in host.groups then None
    else GroupGeneration(host.groups[entry.name])
  }

  /** The generations of the TPU-bearing groups, in listing order. */
  function Generations(host: Host, entries: seq<DirEntry>): seq<string> {
    if entries == [] then [] else
    var gen := EntryGeneration(host, entries[|entries| - 1]);
    Generations(host, entries[..|entries| - 1]) + if gen.Some? then [gen.value] else []
  }

  predicate AllAre(gens: seq<string>, g: string) {
    forall i :: 0 <= i < |gens| ==> gens[i] == g
  }

  /** The generation all groups agree on, or "". */
  function Consensus(gens: seq<string>): string {
    if gens != [] && AllAre(gens, gens[0]) then gens[0] else ""
  }

  /** The answer is a non-empty g exactly when there is a TPU-bearing group and all of them report g. */
  lemma ConsensusMeans(gens: seq<string>, g: string)
    requires g != ""
    ensures Consensus(gens) == g <==> gens != [] && AllAre(gens, g)
  {
  }

  lemma AllAreSnoc(gens: seq<string>, g: string, last: string)
    ensures AllAre(gens + [last], g) <==> AllAre(gens, g) && last == g
  {
    assert (gens + [last])[|gens|] == last;
    assert forall i :: 0 <= i < |gens| ==> (gens + [last])[i] == gens[i];
  }

  /**
   countVfioTPUDevices: the number of TPU-bearing groups, and the generation they agree on.
   */
  method CountVfioTpuDevices(host: Host) returns (count: nat, generation: string)
    ensures var gens := if host.vfio.Some? then Generations(host, host.vfio.value) else [];
            count == |gens| && generation == Consensus(gens)
    ensures count == if host.vfio.Some? then |TpuEntries(host, host.vfio.value)| else 0
  {
    if host.vfio.Some? {
      CountMeans(host, host.vfio.value);
    }
    hide TpuEntries;
    if host.vfio == None {
      return 0, "";
    }
    var entries := host.vfio.value;
    count, generation := 0, "";
    var sawGeneration, mixed := false, false;
    for k := 0 to |entries|
      invariant Folded(Generations(host, entries[..k]), count, generation, sawGeneration, mixed)
    {
      assert entries[..k + 1][..k] == entries[..k];
      assert Generations(host, entries[..k]) + [] == Generations(host, entries[..k]);
      if entries[k].isDir || !IsDeviceName(true, entries[k].name) {
        continue;
      }
      var gen := GenerationOfGroup(host, entries[k].name);
      if gen == None {
        continue;
      }
      assert Generations(host, entries[..k + 1]) == Generations(host, entries[..k]) + [gen.value];
      FoldedStep(Generations(host, entries[..k]), gen.value, count, generation, sawGeneration, mixed);
      count := count + 1;
      if !sawGeneration {
        generation := gen.value;
        sawGeneration := true;
      } else if generation != gen.value {
        mixed := true;
      }
    }
    assert entries[..|entries|] == entries;
    if mixed {
      generation := "";
    }
  }

  /** The loop's variables after folding in these generations. */
  ghost predicate Folded(gens: seq<string>, count: nat, generation: string, sawGeneration: bool, mixed: bool) {
    && count == |gens|
    && (sawGeneration <==> gens != [])
    && (if sawGeneration then generation == gens[0] && (mixed <==> !AllAre(gens, generation))
        else generation == "" && !mixed)
  }

  lemma FoldedStep(gens: seq<string>, g: string, count: nat, generation: string, sawGeneration: bool, mixed: bool)
    requires Folded(gens, count, generation, sawGeneration, mixed)
    ensures Folded(gens + [g], count + 1, if sawGeneration then generation else g, true,
                   if sawGeneration && generation != g then true else mixed)
  {
    AllAreSnoc(gens, if sawGeneration then generation else g, g);
  }

  /** A file in /dev/vfio named by a number whose IOMMU group holds a TPU. */
  ghost predicate BearsTpu(host: Host, entry: DirEntry) {
    && !entry.isDir && entry.name != "" && (forall c :: c in entry.name ==> '0' <= c <= '9')
    && entry.name in host.groups
    && exists d :: d in host.groups[entry.name] && IsTpuDevice(d)
  }

  ghost function TpuEntries(host: Host, entries: seq<DirEntry>): set<int> {
    set i | 0 <= i < |entries| && BearsTpu(host, entries[i])
  }

  lemma BearsTpuMeans(host: Host, entry: DirEntry)
    ensures EntryGeneration(host, entry).Some? <==> BearsTpu(host, entry)
  {
    if entry.name in host.groups {
      GroupGenerationMeans(host.groups[entry.name]);
    }
  }

  lemma {:induction false} CountMeans(host: Host, entries: seq<DirEntry>)
    ensures |Generations(host, entries)| == |TpuEntries(host, entries)|
  {
    if entries != [] {
      var init, n := entries[..|entries| - 1], |entries| - 1;
      CountMeans(host, init);
      BearsTpuMeans(host, entries[n]);
      hide BearsTpu, EntryGeneration;
      assert n !in TpuEntries(host, init);
      assert TpuEntries(host, entries) == TpuEntries(host, init) + if BearsTpu(host, entries[n]) then {n} else {};
    }
  }

  lemma {:induction false} GenerationsAre(host: Host, entries: seq<DirEntry>, g: string)
    ensures g in Generations(host, entries) <==> exists e :: e in entries && EntryGeneration(host, e) == Some(g)
  {
    if entries != [] {
      hide EntryGeneration;
      GenerationsAre(host, entries[..|entries| - 1], g);
      assert entries == entries[..|entries| - 1] + [entries[|entries| - 1]];
    }
  }

  lemma AllAreMeans(gens: seq<string>, g: string)
    ensures AllAre(gens, g) <==> forall x :: x in gens ==> x == g
  {
    if forall x :: x in gens ==> x == g {
      assert forall i :: 0 <= i < |gens| ==> gens[i] in gens;
    }
  }

  /** The generation is `g` exactly if some entry bears a TPU and every entry that does reports `g`. */
  lemma AgreedGenerationMeans(host: Host, entries: seq<DirEntry>, g: string)
    requires g != ""
    ensures Consensus(Generations(host, entries)) == g <==>
            && (exists e :: e in entries && BearsTpu(host, e))
            && forall e :: e in entries && BearsTpu(host, e) ==> GroupGeneration(host.groups[e.name]) == Some(g)
  {
    var gens := Generations(host, entries);
    forall e | e in entries ensures EntryGeneration(host, e).Some? <==> BearsTpu(host, e) {
      BearsTpuMeans(host, e);
    }
    forall x ensures x in gens <==> exists e :: e in entries && EntryGeneration(host, e) == Some(x) {
      GenerationsAre(host, entries, x);
    }
    ConsensusMeans(gens, g);
    AllAreMeans(gens, g);
    assert forall e :: BearsTpu(host, e) ==> EntryGeneration(host, e) == GroupGeneration(host.groups[e.name]);
    hide BearsTpu, EntryGeneration, Generations, Consensus, AllAre;
    if gens != [] {
      assert gens[0] in gens;
    }
  }

  /** An agreed generation is one AcceleratorGen can return. */
  lemma ConsensusIsValid(host: Host, entries: seq<DirEntry>)
    requires Consensus(Generations(host, entries)) != ""
    ensures IsValidGeneration(Consensus(Generations(host, entries)))
  {
    GenerationsAreListed(host, entries);
    assert Generations(host, entries)[0] in Generations(host, entries);
  }

  lemma {:induction false} GenerationsAreListed(host: Host, entries: seq<DirEntry>)
    ensures forall g :: g in Generations(host, entries) ==> g == "" || IsValidGeneration(g)
  {
    if entries != [] {
      GenerationsAreListed(host, entries[..|entries| - 1]);
      var entry := entries[|entries| - 1];
      if entry.name in host.groups {
        GroupIsListed(host.groups[entry.name]);
      }
    }
  }

  lemma {:induction false} GroupIsListed(devices: seq<PciDevice>)
    ensures var gen := GroupGeneration(devices); gen.Some? ==> gen.value == "" || IsValidGeneration(gen.value)
  {
    if devices != [] {
      if IsTpu(devices[0]) {
        FirstGenerationIsListed(FAMILIES, TrimSpace(devices[0].device.value), TrimSpace(devices[0].subsystem));
      } else {
        GroupIsListed(devices[1..]);
      }
    }
  }

  function Contribution(host: Host, entry: DirEntry): multiset<string> {
    var gen := EntryGeneration(host, entry);
    if gen.Some? then multiset{gen.value} else multiset{}
  }

  /** How often each generation is reported. */
  function Tally(host: Host, entries: seq<DirEntry>): multiset<string> {
    if entries == [] then multiset{}
    else Tally(host, entries[..|entries| - 1]) + Contribution(host, entries[|entries| - 1])
  }

  lemma {:induction false} TallyOfGenerations(host: Host, entries: seq<DirEntry>)
    ensures multiset(Generations(host, entries)) == Tally(host, entries)
  {
    if entries != [] {
      hide EntryGeneration;
      TallyOfGenerations(host, entries[..|entries| - 1]);
    }
  }

  lemma {:induction false} TallyTakeOut(host: Host, entries: seq<DirEntry>, k: nat)
    requires k < |entries|
    ensures Tally(host, entries) == Tally(host, entries[..k] + entries[k + 1..]) + Contribution(host, entries[k])
    decreases |entries|
  {
    hide Contribution;
    var init, rest := entries[..|entries| - 1], entries[..k] + entries[k + 1..];
    if k == |entries| - 1 {
      assert rest == init;
    } else {
      assert rest[..|rest| - 1] == init[..k] + init[k + 1..] && rest[|rest| - 1] == entries[|entries| - 1];
      TallyTakeOut(host, init, k);
    }
  }

  lemma {:induction false} TallyPermutes(host: Host, a: seq<DirEntry>, b: seq<DirEntry>)
    requires multiset(a) == multiset(b)
    ensures Tally(host, a) == Tally(host, b)
    decreases |a|
  {
    if a == [] {
      assert |multiset(a)| == 0 && |multiset(b)| == 0;
    } else {
      hide Contribution;
      var init, last := a[..|a| - 1], a[|a| - 1];
      var k := OccursIn(a, b);
      var rest := b[..k] + b[k + 1..];
      MultisetTakeOut(a, |a| - 1);
      MultisetTakeOut(b, k);
      assert a[..|a| - 1] + a[|a|..] == init;
      TallyPermutes(host, init, rest);
      TallyTakeOut(host, b, k);
    }
  }

  lemma AllArePermutes(a: seq<string>, b: seq<string>, g: string)
    requires multiset(a) == multiset(b) && AllAre(a, g)
    ensures AllAre(b, g)
  {
    forall i | 0 <= i < |b| ensures b[i] == g {
      assert b[i] in multiset(b);
      assert b[i] in multiset(a);
    }
  }

  /** Neither answer depends on the order in which the directory is listed. */
  lemma CountIgnoresOrder(host: Host, a: seq<DirEntry>, b: seq<DirEntry>)
    requires multiset(a) == multiset(b)
    ensures |Generations(host, a)| == |Generations(host, b)|
    ensures Consensus(Generations(host, a)) == Consensus(Generations(host, b))
  {
    TallyPermutes(host, a, b);
    TallyOfGenerations(host, a);
    TallyOfGenerations(host, b);
    var x, y := Generations(host, a), Generations(host, b);
    assert |x| == |multiset(x)| == |multiset(y)| == |y|;
    if x != [] && AllAre(x, x[0]) {
      AllArePermutes(x, y, x[0]);
    } else if y != [] && AllAre(y, y[0]) {
      AllArePermutes(y, x, y[0]);
    }
  }
}
