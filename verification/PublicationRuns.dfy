/**
 What the publication protocol guarantees of its runs, said of the events alone: which health was last reported
 for each device, how often it changed, how many signals were sent and received.
 */
module PublicationRuns {
  import opened Wrappers
  import opened Sequences
  import opened Publication

  lemma {:induction false} AfterLast(s: State, es: seq<Event>)
    requires Allowed(s, es) && es != []
    ensures Allowed(s, Init(es)) && Enabled(After(s, Init(es)), Last(es))
    ensures After(s, es) == Apply(After(s, Init(es)), Last(es))
    decreases |es|
  {
    hide Apply, Enabled;
    if |es| == 1 {
      assert es[1..] == [];
    } else {
      assert Init(es)[1..] == Init(es[1..]) && Init(es)[0] == es[0];
      AfterLast(Apply(s, es[0]), es[1..]);
    }
  }

  // ----- what the events say

  /** The UpdateHealth calls, in the order in which they were made. */
  function Calls(es: seq<Event>): seq<(string, bool)> {
    if es == [] then [] else
    Calls(Init(es)) + if Last(es).Spawn? then [(Last(es).device, Last(es).value)] else []
  }

  /** The event is the critical section of a call that names the device. */
  predicate Reports(es: seq<Event>, e: Event, device: string) {
    e.Flip? && e.i < |Calls(es)| && Calls(es)[e.i].0 == device
  }

  /** The health last reported for a device: by the latest critical section of a call naming it, or at the start. */
  function Reported(health: Health, es: seq<Event>, device: string): bool
    requires device in health
  {
    if es == [] then health[device]
    else if Reports(Init(es), Last(es), device) then Calls(Init(es))[Last(es).i].1
    else Reported(health, Init(es), device)
  }

  function ReportedHealthy(health: Health, es: seq<Event>): set<string> {
    set d | d in health && Reported(health, es, d)
  }

  /** How many critical sections reported something new. */
  function News(health: Health, es: seq<Event>): nat {
    if es == [] then 0 else
    var e := Last(es);
    News(health, Init(es)) +
    if e.Flip? && e.i < |Calls(Init(es))|
       && Calls(Init(es))[e.i].0 in health
       && Calls(Init(es))[e.i].1 != Reported(health, Init(es), Calls(Init(es))[e.i].0)
    then 1 else 0
  }

  function Sends(es: seq<Event>): nat {
    if es == [] then 0 else Sends(Init(es)) + if Last(es).Send? then 1 else 0
  }

  function Receives(es: seq<Event>): nat {
    if es == [] then 0 else Receives(Init(es)) + if Last(es).Receive? then 1 else 0
  }

  // ----- the state keeps what the events say

  predicate CallsMatch(updaters: seq<Updater>, calls: seq<(string, bool)>) {
    && |updaters| == |calls|
    && forall i :: 0 <= i < |updaters| ==>
         (updaters[i].Calling? || updaters[i].Critical? ==>
            updaters[i].device == calls[i].0 && updaters[i].value == calls[i].1)
  }

  ghost predicate Faithful(health: Health, es: seq<Event>, s: State) {
    && CallsMatch(s.updaters, Calls(es))
    && s.health.Keys == health.Keys && (forall d :: d in health ==> s.health[d] == Reported(health, es, d))
    && s.flips == News(health, es) && s.sends == Sends(es)
    && Sends(es) == Receives(es) + if s.token then 1 else 0
  }

  lemma FlipIsFaithful(health: Health, es: seq<Event>, s: State, i: nat)
    requires es != [] && Faithful(health, Init(es), s) && Enabled(s, Flip(i)) && Flip(i) == Last(es)
    ensures Faithful(health, es, Apply(s, Flip(i)))
  {
  }

  lemma OtherIsFaithful(health: Health, es: seq<Event>, s: State, e: Event)
    requires es != [] && Faithful(health, Init(es), s) && Enabled(s, e) && e == Last(es) && !e.Flip?
    ensures Faithful(health, es, Apply(s, e))
  {
    hide Healthy, Flipped, Changes;
  }

  lemma {:induction false} RunIsFaithful(health: Health, es: seq<Event>)
    requires Allowed(Initial(health), es)
    ensures Faithful(health, es, After(Initial(health), es))
    decreases |es|
  {
    if es != [] {
      AfterLast(Initial(health), es);
      RunIsFaithful(health, Init(es));
      var s := After(Initial(health), Init(es));
      hide Faithful, Apply, Enabled;
      if Last(es).Flip? {
        FlipIsFaithful(health, es, s, Last(es).i);
      } else {
        OtherIsFaithful(health, es, s, Last(es));
      }
    }
  }

  lemma HealthyIsReported(health: Health, es: seq<Event>)
    requires Allowed(Initial(health), es)
    ensures Healthy(After(Initial(health), es).health) == ReportedHealthy(health, es)
  {
    RunIsFaithful(health, es);
  }

  // ----- the guarantees

  /**
   No lost update: in every reachable state the last slice handed over lists exactly the devices last reported
   healthy, or something that will bring such a slice is under way: a signal in the channel, an updater between
   its critical section and its send, a republisher that has not finished its snapshot, or one holding an
   up-to-date snapshot.
   */
  lemma UpdatesAreNotLost(health: Health, es: seq<Event>)
    requires Allowed(Initial(health), es)
    ensures var s := After(Initial(health), es);
            || s.handed == Some(ReportedHealthy(health, es))
            || s.token
            || Pending(s.updaters)
            || s.repub.Received? || s.repub.Scanning?
            || s.repub == Holding(ReportedHealthy(health, es))
            || s.repub.Stopped?
  {
    AfterKeepsInv(Initial(health), es);
    HealthyIsReported(health, es);
  }

  /**
   One signal per report of something new: none is missing except those updaters still have to send. And the
   channel loses none: what was sent has been received or is the one signal in the channel.
   */
  lemma SignalsCountNews(health: Health, es: seq<Event>)
    requires Allowed(Initial(health), es)
    ensures var s := After(Initial(health), es);
            && Sends(es) <= News(health, es) && (Sends(es) == News(health, es) <==> !Pending(s.updaters))
            && Sends(es) == Receives(es) + if s.token then 1 else 0
  {
    AfterKeepsInv(Initial(health), es);
    RunIsFaithful(health, es);
    DebtsArePending(After(Initial(health), es).updaters);
  }

  lemma {:induction false} NeverStopped(s: State, es: seq<Event>)
    requires !s.repub.Stopped? && Allowed(s, es) && Stop !in es
    ensures !After(s, es).repub.Stopped?
    decreases |es|
  {
    if es != [] {
      assert es[0] in es && forall e :: e in es[1..] ==> e in es;
      NeverStopped(Apply(s, es[0]), es[1..]);
    }
  }

  /**
   A run that no process can extend has published: however the calls interleaved, the last slice handed over
   lists exactly the devices last reported healthy, and one signal was sent and received per report of something
   new.
   */
  lemma DrainedRunHasPublished(health: Health, es: seq<Event>)
    requires Allowed(Initial(health), es) && Stop !in es
    requires forall e :: Progress(e) ==> !Enabled(After(Initial(health), es), e)
    ensures var s := After(Initial(health), es);
            && Quiet(s) && s.handed == Some(ReportedHealthy(health, es))
            && News(health, es) == Sends(es) == Receives(es)
  {
    AfterKeepsInv(Initial(health), es);
    NeverStopped(Initial(health), es);
    var s := After(Initial(health), es);
    if !Quiet(s) {
      var e := SomeProcessCanStep(s);
      assert false;
    }
    QuietMeansPublished(s);
    RunIsFaithful(health, es);
    HealthyIsReported(health, es);
  }
}
