/**
 Device health reports to the kubelet (cmd/tpu-dra-kubeletplugin/device_health_status.go): coalescing,
 non-blocking notifications to any number of WatchHealthStatus subscriptions. A report is built when the
 select statement is entered and may go stale while its send blocks, so building and delivering are two
 steps.
 */
module HealthStatus {
  import opened Wrappers
  import opened Sequences
  import Publication

  type Health = Publication.Health

  /** slices.Delete of the first occurrence, if there is one. */
  function Without<T(==)>(xs: seq<T>, x: T): (rest: seq<T>)
    ensures forall y :: y in rest ==> y in xs
    ensures forall y :: y in xs && y != x ==> y in rest
  {
    if xs == [] then [] else if xs[0] == x then xs[1..] else [xs[0]] + Without(xs[1..], x)
  }

  lemma {:induction false} WithoutAt<T>(xs: seq<T>, x: T, k: nat)
    requires k <= |xs| && forall i :: 0 <= i < k ==> xs[i] != x
    ensures k == |xs| ==> Without(xs, x) == xs
    ensures k < |xs| && xs[k] == x ==> Without(xs, x) == xs[..k] + xs[k + 1..]
  {
    if k > 0 {
      WithoutAt(xs[1..], x, k - 1);
    }
  }

  lemma {:induction false} WithoutDistinct<T>(xs: seq<T>, x: T)
    requires Distinct(xs)
    ensures Distinct(Without(xs, x)) && x !in Without(xs, x)
  {
    if xs != [] && xs[0] != x {
      WithoutDistinct(xs[1..], x);
      forall k | 0 <= k < |Without(xs[1..], x)| ensures Without(xs[1..], x)[k] != xs[0] {
        assert Without(xs[1..], x)[k] in xs[1..];
      }
    }
  }

  // ----- the protocol

  /** One WatchHealthStatus call. Versions index the history of the devices' health. */
  datatype Phase =
    | Connecting
    | Woken                    // about to build a report
    | Built(version: nat)      // blocked sending it
    | Watching                 // in the outer select
    | Leaving                  // cancelled, not yet unsubscribed
    | Gone

  /**
   `owed` is the version current when the watcher subscribed or was last notified; `builds` and
   `notified` count the reports built and the notifications it was offered.
   */
  datatype Watcher = Watcher(phase: Phase, token: bool, owed: nat, delivered: Option<nat>, builds: nat, notified: nat)

  /** A broadcast in progress holds the read lock: the subscriber list cannot change under it. */
  datatype Broadcast = Idle | Notifying(next: nat, since: nat)

  datatype State = State(
    history: seq<Health>,     // every health map so far, the last one current
    subscribers: seq<nat>,
    watchers: seq<Watcher>,
    broadcast: Broadcast,
    lastBroadcast: nat)       // the version current when the last completed broadcast began

  datatype Event =
    | Change(health: Health)
    | Connect
    | Subscribe(i: nat)
    | Build(i: nat)
    | Deliver(i: nat)
    | Wake(i: nat)
    | Cancel(i: nat)
    | Unsubscribe(i: nat)
    | StartBroadcast
    | Notify
    | EndBroadcast

  function Initial(health: Health): State {
    State([health], [], [], Idle, 0)
  }

  function Current(s: State): int {
    |s.history| - 1
  }

  predicate At(s: State, i: nat) {
    i < |s.watchers|
  }

  predicate Enabled(s: State, e: Event) {
    match e
    case Change(_) => true
    case Connect => true
    case Subscribe(i) => At(s, i) && s.watchers[i].phase.Connecting? && s.broadcast.Idle?
    case Build(i) => At(s, i) && s.watchers[i].phase.Woken?
    case Deliver(i) => At(s, i) && s.watchers[i].phase.Built?
    case Wake(i) => At(s, i) && s.watchers[i].phase.Watching? && s.watchers[i].token
    case Cancel(i) => At(s, i) && (s.watchers[i].phase.Built? || s.watchers[i].phase.Watching?)
    case Unsubscribe(i) => At(s, i) && s.watchers[i].phase.Leaving? && s.broadcast.Idle?
    case StartBroadcast => s.broadcast.Idle?
    case Notify =>
      && s.broadcast.Notifying? && s.broadcast.next < |s.subscribers|
      && At(s, s.subscribers[s.broadcast.next])
    case EndBroadcast => s.broadcast.Notifying? && s.broadcast.next == |s.subscribers|
  }

  function Put(s: State, i: nat, w: Watcher): State
    requires At(s, i)
  {
    s.(watchers := s.watchers[i := w])
  }

  function Apply(s: State, e: Event): State
    requires Enabled(s, e) && s.history != []
  {
    match e
    case Change(health) => s.(history := s.history + [health])
    case Connect => s.(watchers := s.watchers + [Watcher(Connecting, false, 0, None, 0, 0)])
    case Subscribe(i) =>
      Put(s, i, s.watchers[i].(phase := Woken, owed := Current(s))).(subscribers := s.subscribers + [i])
    case Build(i) => Put(s, i, s.watchers[i].(phase := Built(Current(s)), builds := s.watchers[i].builds + 1))
    case Deliver(i) => Put(s, i, s.watchers[i].(phase := Watching, delivered := Some(s.watchers[i].phase.version)))
    case Wake(i) => Put(s, i, s.watchers[i].(phase := Woken, token := false))
    case Cancel(i) => Put(s, i, s.watchers[i].(phase := Leaving))
    case Unsubscribe(i) => Put(s, i, s.watchers[i].(phase := Gone)).(subscribers := Without(s.subscribers, i))
    case StartBroadcast => s.(broadcast := Notifying(0, Current(s)))
    case Notify =>
      var i := s.subscribers[s.broadcast.next];
      var w := s.watchers[i];
      Put(s, i, w.(token := true, owed := Current(s), notified := w.notified + 1))
      .(broadcast := s.broadcast.(next := s.broadcast.next + 1))
    case EndBroadcast => s.(broadcast := Idle, lastBroadcast := s.broadcast.since)
  }

  predicate Allowed(s: State, es: seq<Event>)
    requires s.history != []
    decreases |es|
  {
    es == [] || (Enabled(s, es[0]) && Allowed(Apply(s, es[0]), es[1..]))
  }

  function After(s: State, es: seq<Event>): State
    requires s.history != [] && Allowed(s, es)
    decreases |es|
  {
    if es == [] then s else After(Apply(s, es[0]), es[1..])
  }

  // ----- the invariant

  predicate Subscribed(w: Watcher) {
    w.phase.Woken? || w.phase.Built? || w.phase.Watching? || w.phase.Leaving?
  }

  /** The four ways a subscription can stand to version `since`, unless it is not running. */
  predicate NoLostWakeup(w: Watcher, since: nat) {
    || w.token
    || w.phase.Woken?
    || (w.phase.Built? && since <= w.phase.version)
    || (w.phase.Watching? && w.delivered.Some? && since <= w.delivered.value)
    || w.phase.Connecting? || w.phase.Leaving? || w.phase.Gone?
  }

  predicate WatcherOk(w: Watcher, current: int) {
    && NoLostWakeup(w, w.owed)
    && w.owed <= current
    && (w.phase.Built? ==> w.phase.version <= current)
    && (w.delivered.Some? ==> w.delivered.value <= if w.phase.Built? then w.phase.version else current)
    && (w.phase.Connecting? ==> w.builds == 0 && !w.token)
    && w.builds + (if w.token then 1 else 0) + (if w.phase.Woken? then 1 else 0) <= 1 + w.notified
  }

  /** A subscription is owed the last broadcast, and the one in progress once it has been visited. */
  ghost predicate OwedOk(s: State) {
    forall k :: 0 <= k < |s.subscribers| && At(s, s.subscribers[k]) ==>
      var owed := s.watchers[s.subscribers[k]].owed;
      s.lastBroadcast <= owed && (s.broadcast.Notifying? && k < s.broadcast.next ==> s.broadcast.since <= owed)
  }

  ghost predicate ListOk(s: State) {
    && Distinct(s.subscribers)
    && (forall i :: i in s.subscribers ==> i < |s.watchers|)
    && (forall i :: 0 <= i < |s.watchers| ==> (Subscribed(s.watchers[i]) <==> i in s.subscribers))
    && (s.broadcast.Notifying? ==> s.broadcast.next <= |s.subscribers| && s.broadcast.since <= Current(s))
    && s.lastBroadcast <= Current(s)
  }

  ghost predicate Inv(s: State) {
    && s.history != []
    && ListOk(s)
    && OwedOk(s)
    && (forall i :: 0 <= i < |s.watchers| ==> WatcherOk(s.watchers[i], Current(s)))
  }

  lemma WatcherKeepsInv(s: State, e: Event)
    requires Inv(s) && Enabled(s, e) && (e.Build? || e.Deliver? || e.Wake? || e.Cancel?)
    ensures Inv(Apply(s, e))
  {
    var s' := Apply(s, e);
    assert forall k :: 0 <= k < |s.watchers| && k != e.i ==> s'.watchers[k] == s.watchers[k];
    assert Subscribed(s.watchers[e.i]) && Subscribed(s'.watchers[e.i]);
  }

  lemma SubscribeKeepsInv(s: State, i: nat)
    requires Inv(s) && Enabled(s, Subscribe(i))
    ensures Inv(Apply(s, Subscribe(i)))
  {
    hide Without;
    var s' := Apply(s, Subscribe(i));
    assert forall k :: 0 <= k < |s.watchers| && k != i ==> s'.watchers[k] == s.watchers[k];
    assert !Subscribed(s.watchers[i]);
    assert i !in s.subscribers;
  }

  lemma UnsubscribeKeepsInv(s: State, i: nat)
    requires Inv(s) && Enabled(s, Unsubscribe(i))
    ensures Inv(Apply(s, Unsubscribe(i)))
  {
    var s' := Apply(s, Unsubscribe(i));
    WithoutDistinct(s.subscribers, i);
    forall j | j in s.subscribers ensures s.lastBroadcast <= s.watchers[j].owed {
      var k :| 0 <= k < |s.subscribers| && s.subscribers[k] == j;
      assert At(s, s.subscribers[k]);
    }
    hide Without, Distinct;
    assert forall k :: 0 <= k < |s.watchers| && k != i ==> s'.watchers[k] == s.watchers[k];
    forall k | 0 <= k < |s'.subscribers| ensures s'.subscribers[k] in s.subscribers && s'.subscribers[k] != i {
      assert s'.subscribers[k] in s'.subscribers;
    }
  }

  lemma NotifyKeepsInv(s: State)
    requires Inv(s) && Enabled(s, Notify)
    ensures Inv(Apply(s, Notify))
  {
    var s' := Apply(s, Notify);
    var i := s.subscribers[s.broadcast.next];
    assert forall k :: 0 <= k < |s.watchers| && k != i ==> s'.watchers[k] == s.watchers[k];
    assert i in s.subscribers && Subscribed(s.watchers[i]);
  }

  lemma ApplyKeepsInv(s: State, e: Event)
    requires Inv(s) && Enabled(s, e)
    ensures Inv(Apply(s, e))
  {
    match e
    case Build(_) => WatcherKeepsInv(s, e);
    case Deliver(_) => WatcherKeepsInv(s, e);
    case Wake(_) => WatcherKeepsInv(s, e);
    case Cancel(_) => WatcherKeepsInv(s, e);
    case Subscribe(i) => SubscribeKeepsInv(s, i);
    case Unsubscribe(i) => UnsubscribeKeepsInv(s, i);
    case Notify => NotifyKeepsInv(s);
    case _ =>
  }

  lemma {:induction false} AfterKeepsInv(s: State, es: seq<Event>)
    requires Inv(s) && Allowed(s, es)
    ensures Inv(After(s, es))
    decreases |es|
  {
    if es != [] {
      ApplyKeepsInv(s, es[0]);
      AfterKeepsInv(Apply(s, es[0]), es[1..]);
    }
  }

  /** A subscription is on the list exactly while its call is between subscribing and unsubscribing, and once only. */
  lemma SubscribersAreTheActiveCalls(health: Health, es: seq<Event>, i: nat)
    requires Allowed(Initial(health), es)
    requires At(After(Initial(health), es), i)
    ensures var s := After(Initial(health), es);
            Distinct(s.subscribers) && (i in s.subscribers <==> Subscribed(s.watchers[i]))
  {
    AfterKeepsInv(Initial(health), es);
  }

  /** Reports never go back in time: a delivery is at least as new as the one before. */
  lemma DeliveriesAreMonotone(s: State, i: nat)
    requires Inv(s) && Enabled(s, Deliver(i))
    ensures var before, after := s.watchers[i].delivered, Apply(s, Deliver(i)).watchers[i].delivered;
            after.Some? && after.value <= Current(s) && (before.Some? ==> before.value <= after.value)
  {
    assert WatcherOk(s.watchers[i], Current(s));
  }

  // ----- what is delivered in the end

  /** A step of the broadcast or of a subscription whose reader keeps reading. */
  predicate Progress(e: Event) {
    e.Build? || e.Deliver? || e.Wake? || e.Notify? || e.EndBroadcast?
  }

  /** A live subscription with no step left anywhere has been delivered a report as new as the last broadcast. */
  lemma SettledIsDelivered(s: State, i: nat)
    requires Inv(s) && forall e :: Progress(e) ==> !Enabled(s, e)
    requires i in s.subscribers && !s.watchers[i].phase.Leaving?
    ensures s.broadcast.Idle?
    ensures s.watchers[i].phase.Watching? && s.watchers[i].delivered.Some?
    ensures s.lastBroadcast <= s.watchers[i].delivered.value < |s.history|
  {
    forall k | 0 <= k < |s.subscribers| ensures At(s, s.subscribers[k]) {
      assert s.subscribers[k] in s.subscribers;
    }
    assert !Enabled(s, Notify) && !Enabled(s, EndBroadcast);
    assert !Enabled(s, Build(i)) && !Enabled(s, Deliver(i)) && !Enabled(s, Wake(i));
    assert WatcherOk(s.watchers[i], Current(s)) && Subscribed(s.watchers[i]);
    var k :| 0 <= k < |s.subscribers| && s.subscribers[k] == i;
    assert At(s, s.subscribers[k]);
  }

  function WatcherWork(w: Watcher): nat {
    (if w.token then 3 else 0) + match w.phase case Woken => 2 case Built(_) => 1 case _ => 0
  }

  function WatchersWork(ws: seq<Watcher>): nat {
    if ws == [] then 0 else WatcherWork(ws[0]) + WatchersWork(ws[1..])
  }

  function Work(s: State): int {
    WatchersWork(s.watchers) + if s.broadcast.Idle? then 0 else 4 * (|s.subscribers| - s.broadcast.next) + 1
  }

  lemma {:induction false} WorkUpdate(ws: seq<Watcher>, i: nat, w: Watcher)
    requires i < |ws|
    ensures WatchersWork(ws[i := w]) == WatchersWork(ws) - WatcherWork(ws[i]) + WatcherWork(w)
  {
    if i > 0 {
      assert ws[i := w][1..] == ws[1..][i - 1 := w];
      WorkUpdate(ws[1..], i - 1, w);
    } else {
      assert ws[i := w][1..] == ws[1..];
    }
  }

  lemma ProgressDecreasesWork(s: State, e: Event)
    requires Inv(s) && Enabled(s, e) && Progress(e)
    ensures 0 <= Work(Apply(s, e)) < Work(s)
  {
    var s' := Apply(s, e);
    if e.Notify? {
      var i := s.subscribers[s.broadcast.next];
      WorkUpdate(s.watchers, i, s'.watchers[i]);
    } else if !e.EndBroadcast? {
      WorkUpdate(s.watchers, e.i, s'.watchers[e.i]);
    }
  }

  /**
   However the broadcast and the subscriptions interleave, they settle after at most Work steps: the broadcast
   never waits for a reader.
   */
  lemma {:induction false} EveryScheduleSettles(s: State, es: seq<Event>)
    requires Inv(s) && Allowed(s, es) && forall k :: 0 <= k < |es| ==> Progress(es[k])
    ensures |es| <= Work(s)
    decreases |es|
  {
    if es != [] {
      ProgressDecreasesWork(s, es[0]);
      ApplyKeepsInv(s, es[0]);
      EveryScheduleSettles(Apply(s, es[0]), es[1..]);
    } else {
      assert Work(s) >= 0;
    }
  }
}
