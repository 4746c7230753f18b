/**
 The publication protocol: any number of concurrent UpdateHealth calls, each flipping a device's health
 under the mutex and then sending, outside it, on a channel of capacity one; and the republisher, which
 receives, scans the devices under the mutex and publishes later
 (cmd/tpu-dra-kubeletplugin/state.go, cmd/tpu-dra-kubeletplugin/driver.go).
 */
module Publication {
  import opened Wrappers

  type Health = map<string, bool>

  function Healthy(health: Health): set<string> {
    set d | d in health && health[d]
  }

  /** What UpdateHealth does to the devices in its critical section. */
  function Flipped(health: Health, device: string, value: bool): Health {
    if device in health then health[device := value] else health
  }

  predicate Changes(health: Health, device: string, value: bool) {
    device in health && health[device] != value
  }

  datatype Updater =
    | Calling(device: string, value: bool)
    | Critical(device: string, value: bool)
    | Unlocking(changed: bool)
    | Sending
    | Finished

  /** Republisher; NewDriver's own first GatherStateAndPublish runs the same code, so a run starts at Received. */
  datatype Republisher =
    | Waiting
    | Received
    | Scanning(todo: set<string>, found: set<string>)
    | Holding(slice: set<string>)
    | Stopped

  datatype Owner = Nobody | ByUpdater(i: nat) | ByRepublisher | ByOther

  datatype State = State(
    health: Health,
    mutex: Owner,
    updaters: seq<Updater>,
    token: bool,
    repub: Republisher,
    handed: Option<set<string>>,  // the last slice handed to PublishResources
    flips: nat,
    sends: nat)

  datatype Event =
    | Spawn(device: string, value: bool)
    | Lock(i: nat)
    | Flip(i: nat)
    | Unlock(i: nat)
    | Send(i: nat)
    | Receive
    | Gather
    | Visit(device: string)
    | Release
    | Publish
    | Stop
    | OtherLock
    | OtherUnlock

  function Initial(health: Health): State {
    State(health, Nobody, [], false, Received, None, 0, 0)
  }

  predicate Enabled(s: State, e: Event) {
    match e
    case Spawn(_, _) => true
    case Lock(i) => i < |s.updaters| && s.updaters[i].Calling? && s.mutex.Nobody?
    case Flip(i) => i < |s.updaters| && s.updaters[i].Critical?
    case Unlock(i) => i < |s.updaters| && s.updaters[i].Unlocking?
    case Send(i) => i < |s.updaters| && s.updaters[i].Sending? && !s.token
    case Receive => s.repub.Waiting? && s.token
    case Gather => s.repub.Received? && s.mutex.Nobody?
    case Visit(device) => s.repub.Scanning? && device in s.repub.todo && device in s.health
    case Release => s.repub.Scanning? && s.repub.todo == {}
    case Publish => s.repub.Holding?
    case Stop => s.repub.Waiting?
    case OtherLock => s.mutex.Nobody?
    case OtherUnlock => s.mutex.ByOther?
  }

  function Apply(s: State, e: Event): State
    requires Enabled(s, e)
  {
    match e
    case Spawn(device, value) => s.(updaters := s.updaters + [Calling(device, value)])
    case Lock(i) =>
      s.(mutex := ByUpdater(i), updaters := s.updaters[i := Critical(s.updaters[i].device, s.updaters[i].value)])
    case Flip(i) =>
      var u := s.updaters[i];
      var changed := Changes(s.health, u.device, u.value);
      s.(health := Flipped(s.health, u.device, u.value), updaters := s.updaters[i := Unlocking(changed)],
      flips := s.flips + if changed then 1 else 0)
    case Unlock(i) =>
      s.(mutex := Nobody, updaters := s.updaters[i := if s.updaters[i].changed then Sending else Finished])
    case Send(i) => s.(token := true, updaters := s.updaters[i := Finished], sends := s.sends + 1)
    case Receive => s.(token := false, repub := Received)
    case Gather => s.(mutex := ByRepublisher, repub := Scanning(s.health.Keys, {}))
    case Visit(device) =>
      s.(repub := Scanning(s.repub.todo - {device}, s.repub.found + if s.health[device] then {device} else {}))
    case Release => s.(mutex := Nobody, repub := Holding(s.repub.found))
    case Publish => s.(handed := Some(s.repub.slice), repub := Waiting)
    case Stop => s.(repub := Stopped)
    case OtherLock => s.(mutex := ByOther)
    case OtherUnlock => s.(mutex := Nobody)
  }

  predicate Allowed(s: State, es: seq<Event>)
    decreases |es|
  {
    es == [] || (Enabled(s, es[0]) && Allowed(Apply(s, es[0]), es[1..]))
  }

  function After(s: State, es: seq<Event>): State
    requires Allowed(s, es)
    decreases |es|
  {
    if es == [] then s else After(Apply(s, es[0]), es[1..])
  }

  // ----- the invariant

  predicate Owes(u: Updater) {
    u.Sending? || (u.Unlocking? && u.changed)
  }

  predicate Pending(updaters: seq<Updater>) {
    exists i :: 0 <= i < |updaters| && Owes(updaters[i])
  }

  function Debt(u: Updater): nat {
    if Owes(u) then 1 else 0
  }

  function Debts(updaters: seq<Updater>): nat {
    if updaters == [] then 0 else Debt(updaters[0]) + Debts(updaters[1..])
  }

  /** The slice the republisher has handed over or is about to. */
  function Latest(s: State): Option<set<string>> {
    if s.repub.Holding? then Some(s.repub.slice) else s.handed
  }

  ghost predicate MutexOk(s: State) {
    && (forall i :: 0 <= i < |s.updaters| ==>
                      ((s.updaters[i].Critical? || s.updaters[i].Unlocking?) <==> s.mutex == ByUpdater(i)))
    && (s.mutex.ByUpdater? ==> s.mutex.i < |s.updaters|)
    && (s.repub.Scanning? <==> s.mutex.ByRepublisher?)
  }

  ghost predicate ScanOk(s: State) {
    s.repub.Scanning? ==> s.repub.todo <= s.health.Keys && s.repub.found == Healthy(s.health) - s.repub.todo
  }

  ghost predicate NoLostUpdate(s: State) {
    || Latest(s) == Some(Healthy(s.health))
    || s.token
    || Pending(s.updaters)
    || s.repub.Received? || s.repub.Scanning? || s.repub.Stopped?
  }

  ghost predicate Inv(s: State) {
    MutexOk(s) && ScanOk(s) && NoLostUpdate(s) && s.flips == s.sends + Debts(s.updaters)
  }

  lemma {:induction false} DebtsUpdate(us: seq<Updater>, i: nat, u: Updater)
    requires i < |us|
    ensures Debts(us[i := u]) == Debts(us) - Debt(us[i]) + Debt(u)
  {
    if i > 0 {
      assert us[i := u][1..] == us[1..][i - 1 := u];
      DebtsUpdate(us[1..], i - 1, u);
    } else {
      assert us[i := u][1..] == us[1..];
    }
  }

  lemma {:induction false} DebtsAppend(us: seq<Updater>, u: Updater)
    ensures Debts(us + [u]) == Debts(us) + Debt(u)
  {
    if us == [] {
      assert us + [u] == [u];
    } else {
      assert (us + [u])[1..] == us[1..] + [u];
      DebtsAppend(us[1..], u);
    }
  }

  lemma PendingKept(us: seq<Updater>, i: nat, u: Updater)
    requires i < |us| && (Owes(us[i]) ==> Owes(u))
    ensures Pending(us) ==> Pending(us[i := u])
    ensures Owes(u) ==> Pending(us[i := u])
  {
    if Pending(us) {
      var k :| 0 <= k < |us| && Owes(us[k]);
      assert Owes(us[i := u][k]);
    }
    if Owes(u) {
      assert Owes(us[i := u][i]);
    }
  }

  lemma UpdaterKeepsInv(s: State, e: Event)
    requires Inv(s) && Enabled(s, e) && (e.Lock? || e.Flip? || e.Unlock? || e.Send?)
    ensures Inv(Apply(s, e))
  {
    var s' := Apply(s, e);
    DebtsUpdate(s.updaters, e.i, s'.updaters[e.i]);
    if !e.Send? {
      PendingKept(s.updaters, e.i, s'.updaters[e.i]);
    }
    if e.Flip? {
      assert s.mutex == ByUpdater(e.i);
      assert !s'.updaters[e.i].changed ==> s'.health == s.health;
    }
  }

  lemma SpawnKeepsInv(s: State, device: string, value: bool)
    requires Inv(s)
    ensures Inv(Apply(s, Spawn(device, value)))
  {
    var s' := Apply(s, Spawn(device, value));
    DebtsAppend(s.updaters, Calling(device, value));
    if Pending(s.updaters) {
      var k :| 0 <= k < |s.updaters| && Owes(s.updaters[k]);
      assert Owes(s'.updaters[k]);
    }
  }

  lemma RepublisherKeepsInv(s: State, e: Event)
    requires Inv(s) && Enabled(s, e) && !e.Spawn? && !e.Lock? && !e.Flip? && !e.Unlock? && !e.Send?
    ensures Inv(Apply(s, e))
  {
    var s' := Apply(s, e);
    assert s'.updaters == s.updaters && s'.health == s.health;
    if e.Gather? {
      assert Healthy(s.health) - s.health.Keys == {};
    } else if e.Visit? {
      assert s'.repub.found == Healthy(s.health) - s'.repub.todo;
    } else if e.Release? {
      assert Healthy(s.health) - {} == Healthy(s.health);
    }
  }

  lemma ApplyKeepsInv(s: State, e: Event)
    requires Inv(s) && Enabled(s, e)
    ensures Inv(Apply(s, e))
  {
    match e
    case Spawn(device, value) => SpawnKeepsInv(s, device, value);
    case Lock(_) => UpdaterKeepsInv(s, e);
    case Flip(_) => UpdaterKeepsInv(s, e);
    case Unlock(_) => UpdaterKeepsInv(s, e);
    case Send(_) => UpdaterKeepsInv(s, e);
    case _ => RepublisherKeepsInv(s, e);
  }

  lemma {:induction false} AfterKeepsInv(s: State, es: seq<Event>)
    requires Inv(s) && Allowed(s, es)
    ensures Inv(After(s, es)) && After(s, es).health.Keys == s.health.Keys
    decreases |es|
  {
    if es != [] {
      ApplyKeepsInv(s, es[0]);
      AfterKeepsInv(Apply(s, es[0]), es[1..]);
    }
  }

  lemma {:induction false} DebtsArePending(us: seq<Updater>)
    ensures Debts(us) > 0 <==> Pending(us)
  {
    if us != [] {
      DebtsArePending(us[1..]);
      if Pending(us[1..]) {
        var k :| 0 <= k < |us[1..]| && Owes(us[1..][k]);
        assert Owes(us[k + 1]);
      }
      if Pending(us) && !Owes(us[0]) {
        var k :| 0 <= k < |us| && Owes(us[k]);
        assert Owes(us[1..][k - 1]);
      }
    }
  }

  // ----- deadlock freedom and draining

  /** A step of some process, as opposed to a new call, a new lock holder or the end of the run. */
  predicate Progress(e: Event) {
    !e.Spawn? && !e.OtherLock? && !e.Stop?
  }

  predicate Quiet(s: State) {
    && (forall i :: 0 <= i < |s.updaters| ==> s.updaters[i].Finished?)
    && !s.token && s.repub.Waiting? && s.mutex.Nobody?
  }

  /** No deadlock: unless everything is done, some process can take a step. */
  lemma SomeProcessCanStep(s: State) returns (e: Event)
    requires Inv(s) && !s.repub.Stopped? && !Quiet(s)
    ensures Progress(e) && Enabled(s, e)
  {
    match s.mutex
    case ByUpdater(i) =>
      e := if s.updaters[i].Critical? then Flip(i) else Unlock(i);
    case ByRepublisher =>
      if s.repub.todo == {} {
        e := Release;
      } else {
        var d :| d in s.repub.todo;
        e := Visit(d);
      }
    case ByOther =>
      e := OtherUnlock;
    case Nobody =>
      if s.repub.Received? {
        e := Gather;
      } else if s.repub.Holding? {
        e := Publish;
      } else if s.token {
        e := Receive;
      } else {
        var i :| 0 <= i < |s.updaters| && !s.updaters[i].Finished?;
        e := if s.updaters[i].Calling? then Lock(i) else Send(i);
      }
  }

  /** Everything done means everything published. */
  lemma QuietMeansPublished(s: State)
    requires Inv(s) && Quiet(s)
    ensures s.handed == Some(Healthy(s.health)) && s.flips == s.sends
  {
    DebtsArePending(s.updaters);
  }

  function UpdaterWork(u: Updater, devices: nat): nat {
    match u
    case Calling(_, _) => devices + 9
    case Critical(_, _) => devices + 8
    case Unlocking(_) => devices + 7
    case Sending => devices + 6
    case Finished => 0
  }

  function UpdatersWork(us: seq<Updater>, devices: nat): nat {
    if us == [] then 0 else UpdaterWork(us[0], devices) + UpdatersWork(us[1..], devices)
  }

  function RepublisherWork(r: Republisher, devices: nat): nat {
    match r
    case Waiting => 0
    case Received => devices + 4
    case Scanning(todo, _) => |todo| + 3
    case Holding(_) => 1
    case Stopped => 0
  }

  /** Bounds the steps the processes can still take on their own. */
  function Work(s: State): nat {
    var devices := |s.health|;
    UpdatersWork(s.updaters, devices) + (if s.token then devices + 5 else 0)
    + RepublisherWork(s.repub, devices) + if s.mutex.ByOther? then 1 else 0
  }

  lemma {:induction false} WorkUpdate(us: seq<Updater>, i: nat, u: Updater, devices: nat)
    requires i < |us|
    ensures UpdatersWork(us[i := u], devices)
            == UpdatersWork(us, devices) - UpdaterWork(us[i], devices) + UpdaterWork(u, devices)
  {
    if i > 0 {
      assert us[i := u][1..] == us[1..][i - 1 := u];
      WorkUpdate(us[1..], i - 1, u, devices);
    } else {
      assert us[i := u][1..] == us[1..];
    }
  }

  lemma UpdaterDecreasesWork(s: State, e: Event)
    requires Enabled(s, e) && (e.Lock? || e.Flip? || e.Unlock? || e.Send?)
    ensures Work(Apply(s, e)) < Work(s)
  {
    var s' := Apply(s, e);
    assert s'.health.Keys == s.health.Keys;
    assert |s'.health| == |s.health.Keys| == |s.health|;
    WorkUpdate(s.updaters, e.i, s'.updaters[e.i], |s.health|);
  }

  lemma TakeOne(todo: set<string>, device: string)
    requires device in todo
    ensures |todo - {device}| == |todo| - 1
  {
  }

  lemma RepublisherDecreasesWork(s: State, e: Event)
    requires Enabled(s, e) && Progress(e) && !e.Lock? && !e.Flip? && !e.Unlock? && !e.Send?
    ensures Work(Apply(s, e)) < Work(s)
  {
    var s' := Apply(s, e);
    assert s'.health == s.health && s'.updaters == s.updaters;
    match e
    case Visit(device) => TakeOne(s.repub.todo, device);
    case Gather => assert |s.health.Keys| == |s.health|;
    case _ =>
  }

  lemma ProgressDecreasesWork(s: State, e: Event)
    requires Enabled(s, e) && Progress(e)
    ensures Work(Apply(s, e)) < Work(s)
  {
    if e.Lock? || e.Flip? || e.Unlock? || e.Send? {
      UpdaterDecreasesWork(s, e);
    } else {
      RepublisherDecreasesWork(s, e);
    }
  }

  /** Every schedule drains: left to themselves, the processes stop after at most Work steps, whoever goes first. */
  lemma {:induction false} EveryScheduleDrains(s: State, es: seq<Event>)
    requires Inv(s) && Allowed(s, es) && forall k :: 0 <= k < |es| ==> Progress(es[k])
    ensures |es| <= Work(s)
    decreases |es|
  {
    if es != [] {
      ProgressDecreasesWork(s, es[0]);
      ApplyKeepsInv(s, es[0]);
      EveryScheduleDrains(Apply(s, es[0]), es[1..]);
    }
  }
}
