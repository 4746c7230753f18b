/**
 Container Device Interface specs: what the plugin writes for a claim and the ids it hands to the
 kubelet (cmd/tpu-dra-kubeletplugin/cdi.go).
 */
module Cdi {
  const VENDOR := "k8s.tpu.google.com"
  const CLASS := "tpu"

  /** Both the device name and the transient id of the spec shared by all claims. */
  const COMMON := "common"

  type Uid = string

  datatype DeviceNode = DeviceNode(path: string, permissions: string)
  datatype CdiDevice = CdiDevice(name: string, env: seq<string>, nodes: seq<DeviceNode>)
  type Spec = seq<CdiDevice>

  /** What the kubelet is told about one prepared device. */
  datatype Device = Device(requests: seq<string>, pool: string, name: string, cdiIds: seq<string>)
  datatype PreparedDevice = PreparedDevice(device: Device, edits: seq<DeviceNode>)

  /** The outcome of one durable operation: an error may be reported before or after its effect. */
  datatype Io = Done | FailedBefore | FailedAfter

  function QualifiedName(name: string): string {
    VENDOR + "/" + CLASS + "=" + name
  }

  function ClaimDeviceName(uid: Uid, device: string): string {
    uid + "-" + device
  }

  /** The ids GetClaimDevices returns: the common id, then one per device. */
  function ClaimDeviceIds(uid: Uid, devices: seq<string>): seq<string> {
    [QualifiedName(COMMON)] + IdsOf(uid, devices)
  }

  function IdsOf(uid: Uid, devices: seq<string>): (ids: seq<string>)
    ensures |ids| == |devices|
    ensures forall i :: 0 <= i < |ids| ==> ids[i] == QualifiedName(ClaimDeviceName(uid, devices[i]))
  {
    if devices == [] then [] else [QualifiedName(ClaimDeviceName(uid, devices[0]))] + IdsOf(uid, devices[1..])
  }

  function RenderDevice(uid: Uid, p: PreparedDevice): CdiDevice {
    CdiDevice(ClaimDeviceName(uid, p.device.name),
              ["TPU_DEVICE_" + p.device.name + "_RESOURCE_CLAIM=" + uid],
              p.edits)
  }

  /** The contents of the spec file of a claim. */
  function Render(uid: Uid, devices: seq<PreparedDevice>): (spec: Spec)
    ensures |spec| == |devices|
    ensures forall i :: 0 <= i < |spec| ==> spec[i] == RenderDevice(uid, devices[i])
  {
    if devices == [] then [] else [RenderDevice(uid, devices[0])] + Render(uid, devices[1..])
  }

  function CommonSpec(env: seq<string>): Spec {
    [CdiDevice(COMMON, env, [])]
  }

  predicate IsAlphaNumeric(c: char) {
    'A' <= c <= 'Z' || 'a' <= c <= 'z' || '0' <= c <= '9'
  }

  predicate IsNameChar(c: char) {
    IsAlphaNumeric(c) || c == '_' || c == '-' || c == '.' || c == ':'
  }

  /** The device names the CDI library accepts. */
  predicate ValidDeviceName(name: string) {
    && name != ""
    && IsAlphaNumeric(name[0]) && IsAlphaNumeric(name[|name| - 1])
    && forall k :: 0 < k < |name| - 1 ==> IsNameChar(name[k])
  }

  /** The CDI cache refuses to write a spec with no device, an invalid device name, or two devices of one name. */
  predicate Writable(spec: Spec) {
    && spec != []
    && (forall k :: 0 <= k < |spec| ==> ValidDeviceName(spec[k].name))
    && forall i, j :: 0 <= i < j < |spec| ==> spec[i].name != spec[j].name
  }

  function SpecWritten(spec: Spec, io: Io): bool {
    Writable(spec) && io.Done?
  }

  /** The spec directory after a write: the file is replaced as a whole or not at all. */
  function AfterWrite(specs: map<Uid, Spec>, id: Uid, spec: Spec, io: Io): map<Uid, Spec> {
    if Writable(spec) && !io.FailedBefore? then specs[id := spec] else specs
  }

  /** The spec directory after a removal; removing an absent spec succeeds. */
  function AfterRemove(specs: map<Uid, Spec>, id: Uid, io: Io): map<Uid, Spec> {
    if io.FailedBefore? then specs else specs - {id}
  }

  predicate Defines(spec: Spec, id: string) {
    exists k :: 0 <= k < |spec| && QualifiedName(spec[k].name) == id
  }

  /** The id resolves to a device of `file`: that file defines it, and no other does, or the CDI cache would drop it. */
  ghost predicate Resolves(specs: map<Uid, Spec>, id: string, file: Uid) {
    && file in specs && Defines(specs[file], id)
    && forall f :: f in specs && Defines(specs[f], id) ==> f == file
  }

  /** Two claims never name the same CDI device, whatever dashes their UIDs hold. */
  lemma ClaimDeviceNamesAreInjective(uid1: Uid, device1: string, uid2: Uid, device2: string)
    requires '-' !in device1 && '-' !in device2
    requires ClaimDeviceName(uid1, device1) == ClaimDeviceName(uid2, device2)
    ensures uid1 == uid2 && device1 == device2
  {
    var name := ClaimDeviceName(uid1, device1);
    assert name[|uid1|] == '-' && name[|uid2|] == '-';
    assert forall k :: |uid1| < k < |name| ==> name[k] == device1[k - |uid1| - 1] != '-';
    assert forall k :: |uid2| < k < |name| ==> name[k] == device2[k - |uid2| - 1] != '-';
    assert uid1 == name[..|uid1|] && uid2 == name[..|uid2|];
    assert device1 == name[|uid1| + 1..] && device2 == name[|uid2| + 1..];
  }

  /** The UIDs that can begin a device name. */
  predicate ValidUid(uid: Uid) {
    uid != "" && IsAlphaNumeric(uid[0]) && forall k :: 0 < k < |uid| ==> IsNameChar(uid[k])
  }

  /** The device names that can end one. */
  predicate ValidEnding(device: string) {
    && device != "" && IsAlphaNumeric(device[|device| - 1])
    && forall k :: 0 <= k < |device| - 1 ==> IsNameChar(device[k])
  }

  lemma ClaimDeviceNameIsValid(uid: Uid, device: string)
    ensures ValidDeviceName(ClaimDeviceName(uid, device)) <==> ValidUid(uid) && ValidEnding(device)
  {
    var name := ClaimDeviceName(uid, device);
    assert forall k :: 0 <= k < |uid| ==> name[k] == uid[k];
    assert name[|uid|] == '-';
    assert forall k :: 0 <= k < |device| ==> name[|uid| + 1 + k] == device[k];
    if ValidDeviceName(name) {
      forall k | 0 <= k < |device| - 1 ensures IsNameChar(device[k]) {
        assert device[k] == name[|uid| + 1 + k];
      }
    }
  }

  predicate DistinctNames(devices: seq<PreparedDevice>) {
    forall i, j :: 0 <= i < j < |devices| ==> devices[i].device.name != devices[j].device.name
  }

  /** What Prepare asks of the devices and the UID besides what prepareDevices checks. */
  predicate Renderable(uid: Uid, devices: seq<PreparedDevice>) {
    && ValidUid(uid)
    && (forall k :: 0 <= k < |devices| ==> ValidEnding(devices[k].device.name))
    && DistinctNames(devices)
  }

  /** A claim's spec is accepted exactly when the claim lists some device, none twice, and UID and names are valid. */
  lemma RenderIsWritable(uid: Uid, devices: seq<PreparedDevice>)
    ensures Writable(Render(uid, devices)) <==> devices != [] && Renderable(uid, devices)
  {
    forall k | 0 <= k < |devices|
      ensures ValidDeviceName(Render(uid, devices)[k].name) <==> ValidUid(uid) && ValidEnding(devices[k].device.name)
    {
      ClaimDeviceNameIsValid(uid, devices[k].device.name);
    }
    hide ValidDeviceName, ValidUid, ValidEnding;
    forall i, j | 0 <= i < j < |devices|
      ensures Render(uid, devices)[i].name == Render(uid, devices)[j].name
              <==> devices[i].device.name == devices[j].device.name
    {
      var a, b := devices[i].device.name, devices[j].device.name;
      if ClaimDeviceName(uid, a) == ClaimDeviceName(uid, b) {
        assert a == ClaimDeviceName(uid, a)[|uid| + 1..];
        assert b == ClaimDeviceName(uid, b)[|uid| + 1..];
      }
    }
  }

  /** The CDI handler and the directory of spec files it writes to. */
  class CdiHandler {
    var specs: map<Uid, Spec>

    method CreateCommonSpecFile(env: seq<string>, io: Io) returns (ok: bool)
      modifies this
      ensures ok == io.Done?
      ensures specs == AfterWrite(old(specs), COMMON, CommonSpec(env), io)
    {
      ok := WriteSpec([CdiDevice(COMMON, env, [])], COMMON, io);
    }

    method CreateClaimSpecFile(uid: Uid, devices: seq<PreparedDevice>, io: Io) returns (ok: bool)
      modifies this
      ensures ok == SpecWritten(Render(uid, devices), io)
      ensures specs == AfterWrite(old(specs), uid, Render(uid, devices), io)
      ensures ok ==> uid in specs && |specs[uid]| == |devices| && forall k :: 0 <= k < |devices| ==>
                && specs[uid][k].name == uid + "-" + devices[k].device.name
                && specs[uid][k].env == ["TPU_DEVICE_" + devices[k].device.name + "_RESOURCE_CLAIM=" + uid]
                && specs[uid][k].nodes == devices[k].edits
    {
      var spec: Spec := [];
      for k := 0 to |devices|
        invariant |spec| == k
        invariant forall i :: 0 <= i < k ==> spec[i] == RenderDevice(uid, devices[i])
        invariant specs == old(specs)
      {
        var claimEnv := "TPU_DEVICE_" + devices[k].device.name + "_RESOURCE_CLAIM=" + uid;
        spec := spec + [CdiDevice(uid + "-" + devices[k].device.name, [claimEnv], devices[k].edits)];
      }
      assert spec == Render(uid, devices);
      ok := WriteSpec(spec, uid, io);
    }

    method DeleteClaimSpecFile(uid: Uid, io: Io) returns (ok: bool)
      modifies this
      ensures ok == io.Done?
      ensures specs == AfterRemove(old(specs), uid, io)
    {
      if io != FailedBefore {
        specs := specs - {uid};
      }
      ok := io == Done;
    }

    method WriteSpec(spec: Spec, id: Uid, io: Io) returns (ok: bool)
      modifies this
      ensures ok == SpecWritten(spec, io)
      ensures specs == AfterWrite(old(specs), id, spec, io)
    {
      if !Writable(spec) {
        return false;
      }
      if io != FailedBefore {
        specs := specs[id := spec];
      }
      ok := io == Done;
    }

    method GetClaimDevices(uid: Uid, devices: seq<string>) returns (ids: seq<string>)
      ensures ids == ClaimDeviceIds(uid, devices)
    {
      ids := [QualifiedName(COMMON)];
      for k := 0 to |devices|
        invariant ids == [QualifiedName(COMMON)] + IdsOf(uid, devices)[..k]
      {
        ids := ids + [QualifiedName(ClaimDeviceName(uid, devices[k]))];
      }
    }
  }
}
