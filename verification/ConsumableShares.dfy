/**
 The sharing policy of a node and what it adds to a published device
 (cmd/tpu-dra-kubeletplugin/consumable_shares.go).
 */
module ConsumableShares {
  import opened Wrappers
  import opened Text

  datatype Policy = Policy(enabled: bool, unlimited: bool, shares: int)

  const DISABLED := Policy(false, false, 0)

  datatype Capacity = Capacity(value: int, default: int, min: int, max: int, step: int)

  /** A device as the ResourceSlice lists it, sharing fields only. */
  datatype PublishedDevice = PublishedDevice(name: string, allowMultiple: bool, shares: Option<Capacity>)

  /** resolveConsumableShares, given the feature gate and whether the node is single-host. */
  function Resolve(gate: bool, flag: string, singleHost: bool): Policy {
    if !gate then DISABLED else
    var f := TrimSpace(flag);
    if f == "" || f == "disabled" then DISABLED
    else if !singleHost then DISABLED
    else if f == "unlimited" then Policy(true, true, 0)
    else if Atoi(f).None? || Atoi(f).value <= 0 then DISABLED
    else Policy(true, false, Atoi(f).value)
  }

  predicate AsksForSharing(flag: string) {
    TrimSpace(flag) != "" && TrimSpace(flag) != "disabled"
  }

  /** validateConsumableShares accepts the flag. */
  predicate Validates(gate: bool, flag: string) {
    var f := TrimSpace(flag);
    if f == "" || f == "disabled" then true
    else if !gate then false
    else f == "unlimited" || (Atoi(f).Some? && Atoi(f).value > 0)
  }

  /**
   The two functions agree although they parse the flag separately: sharing is enabled exactly when start-up
   accepts a flag that asks for it on a single-host node with the gate on, and then it is unlimited or
   capped at a positive number of claims.
   */
  lemma SharingIsEnabledWhen(gate: bool, flag: string, singleHost: bool)
    ensures Resolve(gate, flag, singleHost).enabled <==>
            gate && Validates(gate, flag) && AsksForSharing(flag) && singleHost
    ensures var p := Resolve(gate, flag, singleHost); p.enabled ==> p.unlimited || p.shares > 0
    ensures var p := Resolve(gate, flag, singleHost); !p.enabled ==> p == DISABLED
  {
  }

  /** applyConsumableShares on a device without sharing fields. */
  function Shared(name: string, policy: Policy): PublishedDevice {
    if !policy.enabled then PublishedDevice(name, false, None)
    else if policy.unlimited then PublishedDevice(name, true, None)
    else PublishedDevice(name, true, Some(Capacity(policy.shares, 1, 1, policy.shares, 1)))
  }

  /**
   From the flag to the published device: it can be allocated more than once exactly when sharing was asked for
   and can be granted; it carries a cap exactly when, besides, the flag is a number; and the cap is that number,
   which the default and the minimum of one request never exceed.
   */
  lemma PublishedSharing(name: string, gate: bool, flag: string, singleHost: bool)
    ensures var dev := Shared(name, Resolve(gate, flag, singleHost));
            var f := TrimSpace(flag);
            var granted := gate && singleHost && (f == "unlimited" || (Atoi(f).Some? && Atoi(f).value > 0));
            && (granted <==> gate && singleHost && Validates(gate, flag) && f != "" && f != "disabled")
            && dev.name == name
            && (dev.allowMultiple <==> granted)
            && (dev.shares.Some? <==> granted && f != "unlimited")
            && (dev.shares.Some? ==>
                  var cap := dev.shares.value;
                  && Some(cap.value) == Atoi(f) && cap.max == cap.value
                  && 0 < cap.min <= cap.default <= cap.value && 0 < cap.step <= cap.value)
  {
    var f := TrimSpace(flag);
    if f == "disabled" || f == "unlimited" {
      assert f[0] in f;
    }
  }
}
