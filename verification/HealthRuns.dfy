/**
 What the health subscriptions guarantee of their runs, said of the events alone: which health the devices had
 when a broadcast began, and what a subscription has been sent since.
 */
module HealthRuns {
  import opened Wrappers
  import opened Sequences
  import opened HealthStatus

  lemma {:induction false} AfterLast(s: State, es: seq<Event>)
    requires s.history != [] && Allowed(s, es) && es != []
    ensures Allowed(s, Init(es)) && After(s, Init(es)).history != []
    ensures Enabled(After(s, Init(es)), Last(es)) && After(s, es) == Apply(After(s, Init(es)), Last(es))
    decreases |es|
  {
    if |es| == 1 {
      assert es[1..] == [];
    } else {
      assert Init(es)[1..] == Init(es[1..]) && Init(es)[0] == es[0];
      AfterLast(Apply(s, es[0]), es[1..]);
    }
  }

  // ----- what the events say

  /** The health of the devices at the start and after each change. */
  function Healths(health: Health, es: seq<Event>): (hs: seq<Health>)
    ensures |hs| == Changes(es) + 1
  {
    if es == [] then [health] else
    Healths(health, Init(es)) + if Last(es).Change? then [Last(es).health] else []
  }

  /** How often the health has changed; a report of version `v` shows the health after `v` changes. */
  function Changes(es: seq<Event>): nat {
    if es == [] then 0 else Changes(Init(es)) + if Last(es).Change? then 1 else 0
  }

  /** The version of the report that subscription `i` built last. */
  function BuiltLast(es: seq<Event>, i: nat): Option<nat> {
    if es == [] then None
    else if Last(es) == Build(i) then Some(Changes(Init(es)))
    else BuiltLast(Init(es), i)
  }

  /** The version of the report that subscription `i` was sent last: the one it had built when the send completed. */
  function SentLast(es: seq<Event>, i: nat): Option<nat> {
    if es == [] then None
    else if Last(es) == Deliver(i) then BuiltLast(Init(es), i)
    else SentLast(Init(es), i)
  }

  function Builds(es: seq<Event>, i: nat): nat {
    if es == [] then 0 else Builds(Init(es), i) + if Last(es) == Build(i) then 1 else 0
  }

  function Broadcasts(es: seq<Event>): nat {
    if es == [] then 0 else Broadcasts(Init(es)) + if Last(es).StartBroadcast? then 1 else 0
  }

  lemma {:induction false} ChangesGrow(es: seq<Event>, b: nat)
    requires b <= |es|
    ensures Changes(es[..b]) <= Changes(es)
    ensures (forall k :: b <= k < |es| ==> !es[k].Change?) ==> Changes(es[..b]) == Changes(es)
    decreases |es|
  {
    if b == |es| {
      assert es[..b] == es;
    } else {
      assert Init(es)[..b] == es[..b];
      ChangesGrow(Init(es), b);
    }
  }

  /** A broadcast begins at event `b`, and one completes at the later event `e`. */
  predicate Broadcasted(es: seq<Event>, b: int, e: int) {
    0 <= b < e < |es| && es[b].StartBroadcast? && es[e].EndBroadcast?
  }

  // ----- the state keeps what the events say

  predicate Remembered(es: seq<Event>, i: nat, w: Watcher) {
    && (w.phase.Built? ==> BuiltLast(es, i) == Some(w.phase.version))
    && w.delivered == SentLast(es, i) && w.builds == Builds(es, i)
  }

  predicate Untouched(es: seq<Event>, i: nat) {
    BuiltLast(es, i) == None && SentLast(es, i) == None && Builds(es, i) == 0
  }

  lemma StepIsRemembered(es: seq<Event>, s: State, e: Event, i: nat)
    requires es != [] && e == Last(es) && s.history != [] && Enabled(s, e) && |s.history| == Changes(Init(es)) + 1
    requires if At(s, i) then Remembered(Init(es), i, s.watchers[i]) else Untouched(Init(es), i)
    ensures var s' := Apply(s, e); if At(s', i) then Remembered(es, i, s'.watchers[i]) else Untouched(es, i)
  {
  }

  ghost predicate Faithful(health: Health, es: seq<Event>, s: State) {
    && s.history == Healths(health, es)
    && (forall i: nat :: if At(s, i) then Remembered(es, i, s.watchers[i]) else Untouched(es, i))
    && (forall b, e :: Broadcasted(es, b, e) ==> Changes(es[..b]) <= s.lastBroadcast)
    && (s.broadcast.Notifying? ==>
          forall b :: 0 <= b < |es| && es[b].StartBroadcast? ==> Changes(es[..b]) <= s.broadcast.since)
  }

  lemma StepIsFaithful(health: Health, es: seq<Event>, s: State, e: Event)
    requires es != [] && Faithful(health, Init(es), s) && s.history != [] && Enabled(s, e) && e == Last(es)
    ensures Faithful(health, es, Apply(s, e))
  {
    var s', n := Apply(s, e), |es| - 1;
    forall i: nat ensures if At(s', i) then Remembered(es, i, s'.watchers[i]) else Untouched(es, i) {
      StepIsRemembered(es, s, e, i);
    }
    hide Remembered, Untouched;
    assert forall b :: 0 <= b <= n ==> Init(es)[..b] == es[..b];
    forall b, f | Broadcasted(es, b, f) ensures Changes(es[..b]) <= s'.lastBroadcast {
      if f < n {
        assert Broadcasted(Init(es), b, f);
      } else {
        assert Init(es)[b].StartBroadcast?;
      }
    }
    if s'.broadcast.Notifying? {
      forall b | 0 <= b < |es| && es[b].StartBroadcast? ensures Changes(es[..b]) <= s'.broadcast.since {
        if e.StartBroadcast? {
          ChangesGrow(Init(es), b);
        } else {
          assert Init(es)[b].StartBroadcast?;
        }
      }
    }
  }

  lemma {:induction false} RunIsFaithful(health: Health, es: seq<Event>)
    requires Allowed(Initial(health), es)
    ensures Faithful(health, es, After(Initial(health), es))
    decreases |es|
  {
    hide Faithful, Apply;
    if es == [] {
      NothingHappened(health);
    } else {
      AfterLast(Initial(health), es);
      RunIsFaithful(health, Init(es));
      StepIsFaithful(health, es, After(Initial(health), Init(es)), Last(es));
    }
  }

  lemma NothingHappened(health: Health)
    ensures Faithful(health, [], Initial(health))
  {
  }

  /** Each broadcast notifies a subscription at most once. */
  ghost predicate NotifiedOnce(es: seq<Event>, s: State) {
    && (forall i :: 0 <= i < |s.watchers| ==> s.watchers[i].notified <= Broadcasts(es))
    && (s.broadcast.Notifying? ==>
          forall k :: s.broadcast.next <= k < |s.subscribers| && At(s, s.subscribers[k]) ==>
            s.watchers[s.subscribers[k]].notified < Broadcasts(es))
  }

  lemma StepNotifiesOnce(es: seq<Event>, s: State, e: Event)
    requires es != [] && e == Last(es) && HealthStatus.Inv(s) && Enabled(s, e) && NotifiedOnce(Init(es), s)
    ensures NotifiedOnce(es, Apply(s, e))
  {
    hide Without;
    var s' := Apply(s, e);
    assert Broadcasts(es) == Broadcasts(Init(es)) + if e.StartBroadcast? then 1 else 0;
    forall i | 0 <= i < |s'.watchers| ensures s'.watchers[i].notified <= Broadcasts(es) {
      assert i < |s.watchers| ==> s.watchers[i].notified <= Broadcasts(Init(es));
    }
    if s'.broadcast.Notifying? {
      assert s'.subscribers == s.subscribers;
      forall k | s'.broadcast.next <= k < |s.subscribers| && At(s', s.subscribers[k])
        ensures s'.watchers[s.subscribers[k]].notified < Broadcasts(es)
      {
        var i := s.subscribers[k];
        assert i in s.subscribers && At(s, i);
        if !e.StartBroadcast? {
          assert s.watchers[i].notified < Broadcasts(Init(es));
        }
      }
    }
  }

  lemma {:induction false} RunNotifiesOnce(health: Health, es: seq<Event>)
    requires Allowed(Initial(health), es)
    ensures NotifiedOnce(es, After(Initial(health), es))
    decreases |es|
  {
    hide NotifiedOnce, Apply, HealthStatus.Inv;
    if es == [] {
      NobodyNotified(health);
    } else {
      AfterLast(Initial(health), es);
      RunNotifiesOnce(health, Init(es));
      InitialInv(health);
      AfterKeepsInv(Initial(health), Init(es));
      StepNotifiesOnce(es, After(Initial(health), Init(es)), Last(es));
    }
  }

  lemma NobodyNotified(health: Health)
    ensures NotifiedOnce([], Initial(health))
  {
  }

  lemma InitialInv(health: Health)
    ensures HealthStatus.Inv(Initial(health))
  {
  }

  // ----- the guarantees

  /**
   No lost wakeup: once a broadcast has begun (event `b`) and one has completed since (event `e`), every
   subscription has a notification pending, is about to build, holds a report at least as new as the health when
   the broadcast began, or was delivered one, unless it is not running; the same is true of the notification it
   was last given. It has built at most one report more than there were broadcasts, however notifications
   coalesced.
   */
  lemma WakeupsAreNotLost(health: Health, es: seq<Event>, i: nat)
    requires Allowed(Initial(health), es) && At(After(Initial(health), es), i)
    ensures var s := After(Initial(health), es);
            var w := s.watchers[i];
            && NoLostWakeup(w, w.owed) && Builds(es, i) <= 1 + Broadcasts(es)
            && forall b, e :: Broadcasted(es, b, e) ==>
                 || w.token
                 || w.phase.Woken?
                 || (w.phase.Built? && AtLeast(BuiltLast(es, i), Changes(es[..b])))
                 || (w.phase.Watching? && AtLeast(SentLast(es, i), Changes(es[..b])))
                 || w.phase.Connecting? || w.phase.Leaving? || w.phase.Gone?
  {
    RunIsFaithful(health, es);
    RunNotifiesOnce(health, es);
    NotBehindLastBroadcast(health, es, i);
  }

  predicate AtLeast(version: Option<nat>, least: nat) {
    version.Some? && least <= version.value
  }

  lemma NotBehindLastBroadcast(health: Health, es: seq<Event>, i: nat)
    requires Allowed(Initial(health), es) && At(After(Initial(health), es), i)
    ensures var s := After(Initial(health), es);
            var w := s.watchers[i];
            NoLostWakeup(w, s.lastBroadcast) && NoLostWakeup(w, w.owed) && w.builds <= 1 + w.notified
  {
    AfterKeepsInv(Initial(health), es);
    var s := After(Initial(health), es);
    if Subscribed(s.watchers[i]) {
      var k :| 0 <= k < |s.subscribers| && s.subscribers[k] == i;
      assert At(s, s.subscribers[k]);
    }
  }

  /** A report shows the health of a moment that has been: it is never newer than the devices. */
  lemma ReportsShowSomeHealth(health: Health, es: seq<Event>, i: nat)
    requires Allowed(Initial(health), es) && At(After(Initial(health), es), i)
    ensures var s := After(Initial(health), es);
            && s.history == Healths(health, es)
            && (s.watchers[i].phase.Built? ==> Some(s.watchers[i].phase.version) == BuiltLast(es, i))
            && s.watchers[i].delivered == SentLast(es, i)
            && (SentLast(es, i).Some? ==> SentLast(es, i).value <= Changes(es))
  {
    RunIsFaithful(health, es);
    AfterKeepsInv(Initial(health), es);
    var s := After(Initial(health), es);
    assert WatcherOk(s.watchers[i], Current(s));
  }

  /**
   When neither the broadcast nor any subscription has a step left, each live subscription has been delivered a
   report at least as new as the health when any completed broadcast began; if the devices have not changed
   since that moment, the report shows the health they have now.
   */
  lemma SettledMeansInformed(health: Health, es: seq<Event>, i: nat, b: int, e: int)
    requires Allowed(Initial(health), es) && Broadcasted(es, b, e)
    requires var s := After(Initial(health), es);
             && (forall p :: Progress(p) ==> !Enabled(s, p))
             && i in s.subscribers && At(s, i) && !s.watchers[i].phase.Leaving?
    ensures var w := After(Initial(health), es).watchers[i];
            && w.phase.Watching? && SentLast(es, i).Some?
            && Changes(es[..b]) <= SentLast(es, i).value <= Changes(es)
            && ((forall k :: b <= k < |es| ==> !es[k].Change?) ==>
                  Healths(health, es)[SentLast(es, i).value] == Last(Healths(health, es)))
  {
    RunIsFaithful(health, es);
    AfterKeepsInv(Initial(health), es);
    hide Inv, Allowed, After, Apply;
    SettledIsDelivered(After(Initial(health), es), i);
    ChangesGrow(es, b);
  }
}
