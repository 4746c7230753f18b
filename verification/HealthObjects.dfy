/**
 The objects around device health, each run on its own: the checker's probing pass
 (cmd/tpu-dra-kubeletplugin/health_check.go), the broadcaster (device_health_status.go) and the driver's
 GatherStateAndPublish (driver.go). Publication and HealthStatus say what their interleavings do.
 */
module HealthObjects {
  import opened Wrappers
  import opened ConsumableShares
  import opened DeviceStates
  import opened Sequences
  import HealthStatus
  import Publication

  /** The order in which one range statement visits the keys of a map: any order, each key once. */
  method RangeOrder(keys: set<string>) returns (order: seq<string>)
    ensures Distinct(order)
    ensures forall d :: d in order <==> d in keys
  {
    order := [];
    assert Distinct(order);
    hide Distinct;
    var todo := keys;
    while todo != {}
      invariant todo <= keys && Distinct(order)
      invariant forall d :: d in order <==> d in keys - todo
      decreases todo
    {
      var d :| d in todo;
      DistinctSnoc(order, d);
      order := order + [d];
      todo := todo - {d};
    }
  }

  /** A notification channel of capacity one. */
  class Channel {
    var full: bool

    constructor ()
      ensures !full
    {
      full := false;
    }

    /** A select with a default case: a pending notification absorbs the new one. */
    method TrySend()
      modifies this
      ensures full
    {
      if !full {
        full := true;
      }
    }
  }

  datatype DeviceHealth = DeviceHealth(pool: string, device: string, healthy: bool, message: string)

  function HealthOf(pool: string, device: string, health: Publication.Health): DeviceHealth
    requires device in health
  {
    DeviceHealth(pool, device, health[device],
                 if health[device] then "TPU device file is present" else "TPU device file is missing")
  }

  /** A report names every device of `health` once, with its health and the message that goes with it. */
  ghost predicate Reports(report: seq<DeviceHealth>, health: Publication.Health, pool: string) {
    && (forall i, j :: 0 <= i < j < |report| ==> report[i].device != report[j].device)
    && (forall d :: d in health ==> exists h :: h in report && h.device == d)
    && forall h :: h in report ==>
         && h.device in health && h.pool == pool && h.healthy == health[h.device]
         && h.message == if health[h.device] then "TPU device file is present" else "TPU device file is missing"
  }

  lemma ReportIsComplete(report: seq<DeviceHealth>, order: seq<string>, health: Publication.Health, pool: string)
    requires Distinct(order) && forall d :: d in order <==> d in health
    requires |report| == |order|
    requires forall i :: 0 <= i < |order| ==> order[i] in health && report[i] == HealthOf(pool, order[i], health)
    ensures Reports(report, health, pool)
  {
    forall d | d in health ensures exists h :: h in report && h.device == d {
      var i :| 0 <= i < |order| && order[i] == d;
      assert report[i] in report;
    }
  }

  class HealthBroadcaster {
    const state: DeviceState
    const poolName: string
    var subscribers: seq<Channel>

    constructor (state: DeviceState, poolName: string)
      ensures this.state == state && this.poolName == poolName && subscribers == [] && fresh(this)
    {
      this.state, this.poolName := state, poolName;
      this.subscribers := [];
    }

    method Subscribe() returns (subscriber: Channel)
      modifies this
      ensures fresh(subscriber) && !subscriber.full
      ensures subscribers == old(subscribers) + [subscriber]
    {
      subscriber := new Channel();
      subscribers := subscribers + [subscriber];
    }

    method Unsubscribe(subscriber: Channel)
      modifies this
      ensures subscribers == HealthStatus.Without(old(subscribers), subscriber)
    {
      for i := 0 to |subscribers|
        invariant subscribers == old(subscribers)
        invariant forall k :: 0 <= k < i ==> subscribers[k] != subscriber
      {
        if subscribers[i] == subscriber {
          HealthStatus.WithoutAt(subscribers, subscriber, i);
          subscribers := subscribers[..i] + subscribers[i + 1..];
          return;
        }
      }
      HealthStatus.WithoutAt(subscribers, subscriber, |subscribers|);
    }

    /** Every subscriber has a notification afterwards; no other channel is touched. */
    method Broadcast()
      modifies subscribers
      ensures subscribers == old(subscribers)
      ensures forall c :: c in subscribers ==> c.full
    {
      for i := 0 to |subscribers|
        invariant subscribers == old(subscribers)
        invariant forall k :: 0 <= k < i ==> subscribers[k].full
      {
        subscribers[i].TrySend();
      }
    }

    method BuildReport() returns (report: seq<DeviceHealth>)
      ensures Reports(report, state.allocatable, poolName)
      ensures forall h :: h in report ==> h.device in state.allocatable && h.healthy == state.allocatable[h.device]
    {
      report := [];
      var order := RangeOrder(state.allocatable.Keys);
      for k := 0 to |order|
        invariant |report| == k
        invariant forall i :: 0 <= i < k ==>
                                order[i] in order && report[i] == HealthOf(poolName, order[i], state.allocatable)
      {
        assert order[k] in order;
        var healthy, message := true, "TPU device file is present";
        if !state.allocatable[order[k]] {
          healthy, message := false, "TPU device file is missing";
        }
        report := report + [DeviceHealth(poolName, order[k], healthy, message)];
      }
      ReportIsComplete(report, order, state.allocatable, poolName);
    }
  }

  /** What a poll pass observes: the health of each device by the presence of its device file. */
  ghost function Observed(devices: set<string>, present: set<string>): Publication.Health {
    map d | d in devices :: d in present
  }

  ghost function Changed(health: Publication.Health, present: set<string>): set<string> {
    set d | d in health && health[d] != (d in present)
  }

  ghost function CountChanged(health: Publication.Health, present: set<string>, order: seq<string>): nat
    requires forall d :: d in order ==> d in health
  {
    if order == [] then 0 else
    var last := order[|order| - 1];
    CountChanged(health, present, order[..|order| - 1]) + if health[last] != (last in present) then 1 else 0
  }

  /** The health map once the devices in `order` have been probed. */
  ghost function Probed(health: Publication.Health, present: set<string>, order: seq<string>)
    : (after: Publication.Health)
    ensures forall d :: d in after <==> d in health || d in order
    ensures forall d :: d in after ==> after[d] == if d in order then d in present else health[d]
  {
    map d | d in health.Keys + (set d | d in order) :: if d in order then d in present else health[d]
  }

  lemma ProbeStep(health: Publication.Health, present: set<string>, order: seq<string>, k: nat)
    requires k < |order| && Distinct(order) && forall d :: d in order ==> d in health
    ensures Probed(health, present, order[..k])[order[k]] == health[order[k]]
    ensures Probed(health, present, order[..k + 1])
            == Probed(health, present, order[..k])[order[k] := order[k] in present]
  {
    hide Probed;
    assert order[k] !in order[..k];
    assert forall d :: d in order[..k + 1] <==> d in order[..k] || d == order[k];
  }

  lemma CountChangedStep(health: Publication.Health, present: set<string>, order: seq<string>, k: nat)
    requires k < |order| && forall d :: d in order ==> d in health
    ensures CountChanged(health, present, order[..k + 1])
            == CountChanged(health, present, order[..k]) + if health[order[k]] != (order[k] in present) then 1 else 0
  {
    assert order[..k + 1][..k] == order[..k];
  }

  ghost function ChangedAmong(health: Publication.Health, present: set<string>, order: seq<string>): set<string>
    requires forall d :: d in order ==> d in health
  {
    set d | d in order && health[d] != (d in present)
  }

  lemma {:induction false} CountedAreChanged(health: Publication.Health, present: set<string>, order: seq<string>)
    requires Distinct(order) && forall d :: d in order ==> d in health
    ensures CountChanged(health, present, order) == |ChangedAmong(health, present, order)|
  {
    if order != [] {
      var init, last := order[..|order| - 1], order[|order| - 1];
      DistinctInit(order);
      hide Distinct;
      CountedAreChanged(health, present, init);
      assert order == init + [last];
      assert ChangedAmong(health, present, order)
          == ChangedAmong(health, present, init) + if health[last] != (last in present) then {last} else {};
    }
  }

  lemma CountChangedIsSize(health: Publication.Health, present: set<string>, order: seq<string>)
    requires Distinct(order) && forall d :: d in order <==> d in health
    ensures CountChanged(health, present, order) == |Changed(health, present)|
  {
    CountedAreChanged(health, present, order);
    assert ChangedAmong(health, present, order) == Changed(health, present);
  }

  class TpuHealthChecker {
    const state: DeviceState
    const broadcaster: HealthBroadcaster
    var devices: map<string, bool>

    /** The checker's private copy agrees with the devices it reports to. */
    ghost predicate Valid()
      reads this, state
    {
      state.Valid() && devices == state.allocatable
    }

    constructor (state: DeviceState, broadcaster: HealthBroadcaster)
      requires state.Valid()
      ensures Valid() && this.state == state && this.broadcaster == broadcaster
    {
      this.state, this.broadcaster := state, broadcaster;
      this.devices := state.allocatable;
    }

    /** The body of the pass for one device. */
    method CheckDevice(id: string, found: bool) returns (accepted: bool)
      requires Valid() && id in devices
      modifies this`devices, state`allocatable, state`signals
      ensures Valid() && accepted
      ensures devices == old(devices)[id := found]
      ensures state.signals == old(state.signals) + if old(devices)[id] != found then 1 else 0
    {
      accepted := true;
      if found && !devices[id] {
        devices := devices[id := true];
        accepted := state.UpdateHealth(id, true);
      } else if !found && devices[id] {
        devices := devices[id := false];
        accepted := state.UpdateHealth(id, false);
      }
    }

    method CheckDevices(present: set<string>) returns (accepted: bool)
      requires Valid()
      modifies this`devices, state`allocatable, state`signals
      ensures Valid() && accepted
      ensures devices == Observed(old(devices).Keys, present)
      ensures state.signals == old(state.signals) + |Changed(old(devices), present)|
    {
      ghost var start := devices;
      assert CountChanged(start, present, []) == 0;
      hide CountChanged, Changed, Probed, Distinct;
      accepted := true;
      var order := RangeOrder(devices.Keys);
      for k := 0 to |order|
        invariant Valid() && accepted && devices == Probed(start, present, order[..k])
        invariant state.signals == old(state.signals) + CountChanged(start, present, order[..k])
      {
        ProbeStep(start, present, order, k);
        CountChangedStep(start, present, order, k);
        var ok := CheckDevice(order[k], order[k] in present);
        accepted := accepted && ok;
      }
      assert order[..|order|] == order;
      CountChangedIsSize(start, present, order);
    }

    /**
     One probing pass over the device files in `present`: afterwards both copies equal what was observed, no
     device was rejected, one signal was sent per device that changed, and every subscriber is notified.
     */
    method Pass(present: set<string>) returns (accepted: bool)
      requires Valid()
      modifies this`devices, state`allocatable, state`signals, broadcaster.subscribers
      ensures Valid() && accepted
      ensures devices.Keys == old(devices).Keys && forall d :: d in devices ==> (devices[d] <==> d in present)
      ensures state.signals == old(state.signals) + |set d | d in old(devices) && old(devices)[d] != (d in present)|
      ensures broadcaster.subscribers == old(broadcaster.subscribers)
      ensures forall c :: c in broadcaster.subscribers ==> c.full
    {
      accepted := CheckDevices(present);
      broadcaster.Broadcast();
    }

    /**
     A pass and the report a subscription then builds: a device is called healthy exactly if the pass saw its
     file.
     */
    method PassThenReport(present: set<string>) returns (report: seq<DeviceHealth>)
      requires Valid() && broadcaster.state == state
      modifies this`devices, state`allocatable, state`signals, broadcaster.subscribers
      ensures Valid()
      ensures forall d :: d in state.node.devices ==> exists h :: h in report && h.device == d
      ensures forall h :: h in report ==>
                && h.device in state.node.devices && (h.healthy <==> h.device in present)
                && h.message == if h.device in present then "TPU device file is present"
                                else "TPU device file is missing"
    {
      var accepted := Pass(present);
      report := broadcaster.BuildReport();
    }
  }

  /** The slice lists exactly the healthy devices, each once, with the policy's sharing fields. */
  ghost predicate Lists(slice: seq<PublishedDevice>, health: Publication.Health, policy: Policy) {
    && (forall i, j :: 0 <= i < j < |slice| ==> slice[i].name != slice[j].name)
    && (forall d :: d in Publication.Healthy(health) ==> Shared(d, policy) in slice)
    && (forall dev :: dev in slice ==> dev.name in Publication.Healthy(health) && dev == Shared(dev.name, policy))
  }

  class Driver {
    const deviceState: DeviceState
    const sharesPolicy: Policy
    var handed: Option<seq<PublishedDevice>>

    constructor (deviceState: DeviceState, sharesPolicy: Policy)
      ensures this.deviceState == deviceState && this.sharesPolicy == sharesPolicy && handed == None
    {
      this.deviceState, this.sharesPolicy := deviceState, sharesPolicy;
      this.handed := None;
    }

    method GatherStateAndPublish()
      modifies this
      ensures handed.Some? && Lists(handed.value, deviceState.allocatable, sharesPolicy)
      ensures (set dev | dev in handed.value :: dev.name)
              == (set d | d in deviceState.allocatable && deviceState.allocatable[d])
    {
      var slice: seq<PublishedDevice> := [];
      var order := RangeOrder(deviceState.allocatable.Keys);
      for k := 0 to |order|
        invariant forall i, j :: 0 <= i < j < |slice| ==> slice[i].name != slice[j].name
        invariant forall d :: d in order[..k] && deviceState.allocatable[d] ==> Shared(d, sharesPolicy) in slice
        invariant forall dev :: dev in slice ==> dev.name in order[..k] && deviceState.allocatable[dev.name]
                                                 && dev == Shared(dev.name, sharesPolicy)
      {
        assert order[k] in order;
        assert order[..k + 1] == order[..k] + [order[k]];
        if deviceState.allocatable[order[k]] {
          var dev := ApplyConsumableShares(PublishedDevice(order[k], false, None));
          slice := slice + [dev];
        }
      }
      assert order[..|order|] == order;
      handed := Some(slice);
    }

    method ApplyConsumableShares(dev: PublishedDevice) returns (shared: PublishedDevice)
      requires dev == PublishedDevice(dev.name, false, None)
      ensures shared == Shared(dev.name, sharesPolicy)
    {
      shared := dev;
      if !sharesPolicy.enabled {
        return;
      }
      shared := shared.(allowMultiple := true);
      if sharesPolicy.unlimited {
        return;
      }
      shared := shared.(shares := Some(Capacity(sharesPolicy.shares, 1, 1, sharesPolicy.shares, 1)));
    }
  }
}
