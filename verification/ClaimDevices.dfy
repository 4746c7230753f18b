/**
 Which devices a claim holds, over every run.
 */
module ClaimDevices {
  import opened Wrappers
  import opened Cdi
  import opened ClaimMachine
  import opened ClaimSafety
  import opened ClaimGuarantees
  import opened ClaimTeardown

  // ----- every claim holds every device

  predicate DevicesAre(es: seq<Event>, all: set<string>) {
    forall k :: 0 <= k < |es| && es[k].Start? ==> es[k].node.devices == all
  }

  ghost predicate HoldAll(s: State, all: set<string>) {
    && (!s.pc.Down? ==> s.pc.node.devices == all)
    && forall u :: u in Entries(s) ==> Names(Entries(s)[u]) == all && |Entries(s)[u]| == |all|
  }

  /** Every entry after a step was there before or is the one the step commits. */
  lemma EntriesFrom(s: State, e: Event)
    requires Inv(s) && Enabled(s, e)
    ensures forall u :: u in Entries(Apply(s, e)) ==>
                          || (u in Entries(s) && Entries(Apply(s, e))[u] == Entries(s)[u])
                          || (s.pc.PrepareCommit? && u == s.pc.uid && Entries(Apply(s, e))[u] == s.pc.devices)
  {
    CheckpointChanges(s, e);
    hide Advance, Apply, Render, Writable, GetDevices;
  }

  lemma NodeStays(s: State, e: Event)
    requires Enabled(s, e)
    ensures var pc := Apply(s, e).pc;
            pc.Down? || (if e.Start? then pc.node == e.node else !s.pc.Down? && pc.node == s.pc.node)
  {
    hide Render, Writable, GetDevices, PreparedAll, OwnResults;
  }

  lemma ApplyKeepsHoldAll(s: State, e: Event, all: set<string>)
    requires Inv(s) && HoldAll(s, all) && Enabled(s, e)
    requires e.Start? ==> e.node.devices == all
    ensures HoldAll(Apply(s, e), all)
  {
    NodeStays(s, e);
    EntriesFrom(s, e);
    if s.pc.PrepareCommit? {
      CommittedHoldsAll(s);
    }
    hide Advance, Apply, Inv, Names;
  }

  lemma CommittedHoldsAll(s: State)
    requires Inv(s) && s.pc.PrepareCommit?
    ensures Names(s.pc.devices) == s.pc.node.devices && |s.pc.devices| == |s.pc.node.devices|
  {
    hide Render, Writable, GetDevices, Names;
    RenderIsWritable(s.pc.uid, s.pc.devices);
    FullAllocation(s.pc.node, s.pc.devices);
  }

  /**
   While the node's devices stay the same across restarts, every checkpointed claim holds all of them,
   each once: counting claims counts the users of every chip.
   */
  lemma {:induction false} EveryClaimHoldsEveryDevice(logs: set<string>, es: seq<Event>, n: nat, all: set<string>)
    requires Allowed(Initial(logs), es) && n <= |es| && DevicesAre(es, all)
    ensures HoldAll(After(Initial(logs), es, n), all)
    decreases n
  {
    if n > 0 {
      EveryClaimHoldsEveryDevice(logs, es, n - 1, all);
      InvHolds(logs, es, n - 1);
      AfterStep(Initial(logs), es, n - 1);
      ApplyKeepsHoldAll(After(Initial(logs), es, n - 1), es[n - 1], all);
    }
  }
}
