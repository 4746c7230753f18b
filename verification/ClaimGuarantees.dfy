/**
 What the claim lifecycle promises, over every run: any calls, any failing operations, any crashes and
 restarts, any log files written meanwhile.
 */
module ClaimGuarantees {
  import opened Wrappers
  import opened Cdi
  import opened ClaimMachine
  import opened ClaimSafety

  // ----- live claims

  /** A live claim is checkpointed, was answered what is checkpointed, and its spec file renders exactly that. */
  lemma LiveClaimsAreServed(logs: set<string>, es: seq<Event>, n: nat, u: Uid)
    requires Allowed(Initial(logs), es) && n <= |es|
    requires u in After(Initial(logs), es, n).hist.answers
    ensures var s := After(Initial(logs), es, n);
            && s.disk.checkpoint.Some? && u in s.disk.checkpoint.value
            && s.hist.answers[u] == GetDevices(s.disk.checkpoint.value[u])
            && (u != COMMON ==> u in s.disk.specs && s.disk.specs[u] == Render(u, s.disk.checkpoint.value[u]))
  {
    InvHolds(logs, es, n);
  }

  /**
   The checkpoint changes only by the commit of a call, and then only in that call's claim; a restart creates
   one only where none exists.
   */
  lemma CheckpointChanges(s: State, e: Event)
    requires Inv(s) && Enabled(s, e)
    ensures var before, after := s.disk.checkpoint, Apply(s, e).disk.checkpoint;
            || after == before
            || (s.pc.BootCreate? && before.None? && after == Some(map[]))
            || (s.pc.PrepareCommit? && before.Some? && s.pc.uid !in before.value
                && after == Some(before.value[s.pc.uid := s.pc.devices]))
            || (s.pc.UnprepareCommit? && before.Some? && after == Some(before.value - {s.pc.uid}))
  {
    hide Writable, Render, GetDevices, DeviceNodes, PreparedAll, OwnResults, CommonSpec;
  }

  lemma PreparedReplyAgrees(s: State, e: Event, u: Uid, devices: seq<Device>)
    requires Inv(s) && Enabled(s, e) && ReplyOf(s, e) == Some(Prepared(u, devices))
    ensures u in s.hist.answers ==> s.hist.answers[u] == devices
    ensures var s' := Apply(s, e); u in s'.hist.answers && s'.hist.answers[u] == devices
  {
    hide Writable, Render, DeviceNodes, PreparedAll, OwnResults, CommonSpec;
  }

  /** One of the first `n` events invokes a call for the UID "common". */
  predicate NamesCommon(es: seq<Event>, n: nat)
    requires n <= |es|
  {
    exists k :: 0 <= k < n && InvokesCommon(es[k])
  }

  predicate InvokesCommon(e: Event) {
    e.Invoke? && (if e.call.PrepareCall? then e.call.claim.uid else e.call.uid) == "common"
  }

  lemma UsedCommonStep(s: State, e: Event)
    requires Enabled(s, e)
    ensures Apply(s, e).hist.usedCommon <==> s.hist.usedCommon || InvokesCommon(e)
  {
    hide Render, Writable, GetDevices, PrepareDevices;
  }

  lemma {:induction false} UsedCommonMeans(logs: set<string>, es: seq<Event>, n: nat)
    requires Allowed(Initial(logs), es) && n <= |es|
    ensures After(Initial(logs), es, n).hist.usedCommon <==> NamesCommon(es, n)
    decreases n
  {
    hide Apply, InvokesCommon;
    if n > 0 {
      UsedCommonMeans(logs, es, n - 1);
      AfterStep(Initial(logs), es, n - 1);
      UsedCommonStep(After(Initial(logs), es, n - 1), es[n - 1]);
    }
  }

  predicate NoUnprepare(es: seq<Event>, i: nat, j: nat, u: Uid)
    requires i <= j <= |es|
  {
    forall k :: i <= k < j ==> es[k] != Invoke(UnprepareCall(u))
  }

  lemma EntryStep(s: State, e: Event, u: Uid)
    requires Inv(s) && Enabled(s, e)
    requires u in s.hist.answers && e != Invoke(UnprepareCall(u))
    ensures var s' := Apply(s, e);
            && u in s'.hist.answers && s'.hist.answers[u] == s.hist.answers[u]
            && u in Entries(s') && Entries(s')[u] == Entries(s)[u]
  {
    hide Advance, Writable, Render, GetDevices;
    CheckpointChanges(s, e);
    var reply := ReplyOf(s, e);
    if reply.Some? && reply.value.Prepared? {
      PreparedReplyAgrees(s, e, reply.value.uid, reply.value.devices);
    }
  }

  lemma LiveMeansCheckpointed(s: State, u: Uid)
    requires Inv(s) && u in s.hist.answers
    ensures u in Entries(s)
  {
  }

  /** A live claim stays live, with the same answer and the same entry, until an Unprepare of it is invoked. */
  lemma {:induction false} AnswerIsKept(logs: set<string>, es: seq<Event>, i: nat, j: nat, u: Uid)
    requires Allowed(Initial(logs), es) && i <= j <= |es|
    requires u in After(Initial(logs), es, i).hist.answers
    requires NoUnprepare(es, i, j, u)
    ensures var s, s' := After(Initial(logs), es, i), After(Initial(logs), es, j);
            && u in s'.hist.answers && s'.hist.answers[u] == s.hist.answers[u]
            && u in Entries(s) && u in Entries(s') && Entries(s')[u] == Entries(s)[u]
    decreases j
  {
    hide Inv, Apply, Enabled, Entries;
    InvHolds(logs, es, i);
    LiveMeansCheckpointed(After(Initial(logs), es, i), u);
    if i < j {
      AnswerIsKept(logs, es, i, j - 1, u);
      InvHolds(logs, es, j - 1);
      AfterStep(Initial(logs), es, j - 1);
      EntryStep(After(Initial(logs), es, j - 1), es[j - 1], u);
    }
  }

  lemma AnswerStep(s: State, e: Event, u: Uid)
    requires Enabled(s, e) && u in Apply(s, e).hist.answers
    ensures e != Invoke(UnprepareCall(u))
    ensures var answer := Apply(s, e).hist.answers[u];
            ReplyOf(s, e) == Some(Prepared(u, answer)) || (u in s.hist.answers && s.hist.answers[u] == answer)
  {
    hide Render, Writable, GetDevices, PrepareDevices;
  }

  predicate AnsweredAt(logs: set<string>, es: seq<Event>, i: nat, n: nat, u: Uid, devices: seq<Device>)
    requires Allowed(Initial(logs), es) && i < n <= |es|
  {
    ReplyAt(Initial(logs), es, i) == Some(Prepared(u, devices)) && NoUnprepare(es, i + 1, n, u)
  }

  lemma {:induction false} AnsweredBefore(logs: set<string>, es: seq<Event>, n: nat, u: Uid) returns (i: nat)
    requires Allowed(Initial(logs), es) && n <= |es| && u in After(Initial(logs), es, n).hist.answers
    ensures i < n && AnsweredAt(logs, es, i, n, u, After(Initial(logs), es, n).hist.answers[u])
    decreases n
  {
    hide Apply, Enabled;
    AfterStep(Initial(logs), es, n - 1);
    var s, e := After(Initial(logs), es, n - 1), es[n - 1];
    AnswerStep(s, e, u);
    if ReplyOf(s, e) == Some(Prepared(u, After(Initial(logs), es, n).hist.answers[u])) {
      i := n - 1;
    } else {
      i := AnsweredBefore(logs, es, n - 1, u);
    }
  }

  /**
   Live is what it says: a Prepare of the claim was answered these devices and no Unprepare of it was invoked
   since.
   */
  lemma LiveMeans(logs: set<string>, es: seq<Event>, n: nat, u: Uid, devices: seq<Device>)
    requires Allowed(Initial(logs), es) && n <= |es|
    ensures var answers := After(Initial(logs), es, n).hist.answers;
            (u in answers && answers[u] == devices)
            <==> exists i :: 0 <= i < n && AnsweredAt(logs, es, i, n, u, devices)
  {
    if u in After(Initial(logs), es, n).hist.answers {
      var i := AnsweredBefore(logs, es, n, u);
    }
    hide AnsweredAt;
    forall i | 0 <= i < n && AnsweredAt(logs, es, i, n, u, devices)
      ensures var answers := After(Initial(logs), es, n).hist.answers; u in answers && answers[u] == devices
    {
      AnsweredStaysLive(logs, es, i, n, u, devices);
    }
  }

  lemma AnsweredStaysLive(logs: set<string>, es: seq<Event>, i: nat, n: nat, u: Uid, devices: seq<Device>)
    requires Allowed(Initial(logs), es) && i < n <= |es| && AnsweredAt(logs, es, i, n, u, devices)
    ensures var answers := After(Initial(logs), es, n).hist.answers; u in answers && answers[u] == devices
  {
    hide Inv, Apply, Enabled, ReplyOf;
    InvHolds(logs, es, i);
    AfterStep(Initial(logs), es, i);
    PreparedReplyAgrees(After(Initial(logs), es, i), es[i], u, devices);
    AnswerIsKept(logs, es, i + 1, n, u);
  }

  /**
   Sticky answers: two successful Prepares of a claim with no Unprepare invoked between them answer the
   same devices, whatever the claim's allocation says by then and however often the plugin restarted.
   */
  lemma StickyAnswers(logs: set<string>, es: seq<Event>, i: nat, j: nat, u: Uid,
                      first: seq<Device>, second: seq<Device>)
    requires Allowed(Initial(logs), es) && i < j < |es|
    requires ReplyAt(Initial(logs), es, i) == Some(Prepared(u, first))
    requires ReplyAt(Initial(logs), es, j) == Some(Prepared(u, second))
    requires NoUnprepare(es, i, j, u)
    ensures first == second
  {
    hide Inv, Apply, Enabled, Entries, ReplyOf;
    InvHolds(logs, es, i);
    AfterStep(Initial(logs), es, i);
    PreparedReplyAgrees(After(Initial(logs), es, i), es[i], u, first);
    AnswerIsKept(logs, es, i + 1, j, u);
    InvHolds(logs, es, j);
    AfterStep(Initial(logs), es, j);
    PreparedReplyAgrees(After(Initial(logs), es, j), es[j], u, second);
  }

  /** A stretch of restarts, crashes and log writes without any call, however it fails, keeps an existing checkpoint. */
  lemma {:induction false} RestartsKeepTheCheckpoint(s: State, es: seq<Event>, n: nat)
    requires Inv(s) && s.pc.Down? && s.disk.checkpoint.Some?
    requires Allowed(s, es) && n <= |es| && forall k :: 0 <= k < |es| ==> !es[k].Invoke?
    ensures After(s, es, n).disk.checkpoint == s.disk.checkpoint
    ensures PcUid(After(s, es, n).pc).None? && Inv(After(s, es, n)) && !After(s, es, n).pc.BootCreate?
    decreases n
  {
    hide Writable, Render, GetDevices, DeviceNodes, PreparedAll, OwnResults, CommonSpec;
    if n > 0 {
      RestartsKeepTheCheckpoint(s, es, n - 1);
      AfterStep(s, es, n - 1);
      var t := After(s, es, n - 1);
      ApplyKeepsInv(t, es[n - 1]);
    }
  }

  // ----- crash residue

  /** Claim `u` was asked for at event `i` and no event up to `n` ended its preparation for good. */
  predicate PrepareUnfinishedSince(s: State, es: seq<Event>, i: nat, n: nat, u: Uid)
    requires Allowed(s, es) && i < n <= |es|
  {
    && es[i].Invoke? && es[i].call.PrepareCall? && es[i].call.claim.uid == u
    && forall k :: i <= k < n ==> !EndsPrepare(s, es, k, u)
  }

  predicate EndsPrepare(s: State, es: seq<Event>, k: nat, u: Uid)
    requires Allowed(s, es) && k < |es|
  {
    var reply := ReplyAt(s, es, k);
    reply.Some? && reply.value.uid == u && (reply.value.Prepared? || (reply.value.Unprepared? && reply.value.removed))
  }

  predicate UnprepareUnfinishedSince(s: State, es: seq<Event>, i: nat, n: nat, u: Uid)
    requires Allowed(s, es) && i < n <= |es|
  {
    && es[i] == Invoke(UnprepareCall(u))
    && forall k :: i <= k < n ==> !EndsCall(s, es, k, u)
  }

  predicate EndsCall(s: State, es: seq<Event>, k: nat, u: Uid)
    requires Allowed(s, es) && k < |es|
  {
    var reply := ReplyAt(s, es, k);
    reply.Some? && reply.value.uid == u && !reply.value.Failed?
  }

  lemma {:induction false} OpenPrepareSince(logs: set<string>, es: seq<Event>, n: nat, u: Uid) returns (i: nat)
    requires Allowed(Initial(logs), es) && n <= |es|
    requires u in After(Initial(logs), es, n).hist.openPrepare
    ensures i < n && PrepareUnfinishedSince(Initial(logs), es, i, n, u)
    decreases n
  {
    AfterStep(Initial(logs), es, n - 1);
    var s, e := After(Initial(logs), es, n - 1), es[n - 1];
    if e.Invoke? && e.call.PrepareCall? && e.call.claim.uid == u {
      i := n - 1;
    } else {
      assert u in s.hist.openPrepare;
      i := OpenPrepareSince(logs, es, n - 1, u);
      assert !EndsPrepare(Initial(logs), es, n - 1, u);
    }
  }

  lemma {:induction false} OpenUnprepareSince(logs: set<string>, es: seq<Event>, n: nat, u: Uid) returns (i: nat)
    requires Allowed(Initial(logs), es) && n <= |es|
    requires u in After(Initial(logs), es, n).hist.openUnprepare
    ensures i < n && UnprepareUnfinishedSince(Initial(logs), es, i, n, u)
    decreases n
  {
    AfterStep(Initial(logs), es, n - 1);
    var s, e := After(Initial(logs), es, n - 1), es[n - 1];
    if e == Invoke(UnprepareCall(u)) {
      i := n - 1;
    } else {
      assert u in s.hist.openUnprepare;
      i := OpenUnprepareSince(logs, es, n - 1, u);
      assert !EndsCall(Initial(logs), es, n - 1, u);
    }
  }

  /**
   A spec file without a checkpoint entry is left only by a Prepare that was interrupted or failed and never
   made good.
   */
  lemma OrphanSpecIsLeftByPrepare(logs: set<string>, es: seq<Event>, n: nat, u: Uid) returns (i: nat)
    requires Allowed(Initial(logs), es) && n <= |es| && u != COMMON
    requires u in After(Initial(logs), es, n).disk.specs && u !in Entries(After(Initial(logs), es, n))
    ensures i < n && PrepareUnfinishedSince(Initial(logs), es, i, n, u)
  {
    InvHolds(logs, es, n);
    i := OpenPrepareSince(logs, es, n, u);
  }

  /**
   A checkpoint entry without a spec file is left only by an Unprepare that was interrupted or failed, with no
   later success.
   */
  lemma EntryWithoutSpecIsLeftByUnprepare(logs: set<string>, es: seq<Event>, n: nat, u: Uid) returns (i: nat)
    requires Allowed(Initial(logs), es) && n <= |es| && u != COMMON
    requires u in Entries(After(Initial(logs), es, n)) && u !in After(Initial(logs), es, n).disk.specs
    ensures i < n && UnprepareUnfinishedSince(Initial(logs), es, i, n, u)
  {
    InvHolds(logs, es, n);
    i := OpenUnprepareSince(logs, es, n, u);
  }
}
