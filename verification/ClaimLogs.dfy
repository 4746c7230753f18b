/**
 The libtpu log directory that every claim on the node shares: who empties it, when, and what is left.
 */
module ClaimLogs {
  import opened Wrappers
  import opened Cdi
  import opened ClaimMachine
  import opened ClaimSafety
  import opened ClaimTeardown

  // ----- last one out

  /**
   A log entry disappears only inside an Unprepare of a checkpointed claim that is no longer live; with
   sharing enabled no other claim is then checkpointed, so no claim at all is live.
   */
  lemma LogsAreRemovedByTheLastClaim(s: State, e: Event, entry: string)
    requires Inv(s) && Enabled(s, e)
    requires entry in s.disk.logs && entry !in Apply(s, e).disk.logs
    ensures s.pc.UnprepareWipe? && entry == s.pc.todo[0]
    ensures s.pc.uid in Entries(s) && s.pc.uid !in s.hist.answers
    ensures s.pc.node.sharing ==> Entries(s).Keys == {s.pc.uid} && s.hist.answers == map[]
  {
    hide Writable, Render, GetDevices, DeviceNodes, PreparedAll, OwnResults, CommonSpec;
    if s.pc.UnprepareWipe? && s.pc.node.sharing {
      assert forall u :: u in s.hist.answers ==> u in Entries(s).Keys;
    }
  }

  predicate SharingThroughout(es: seq<Event>) {
    forall k :: 0 <= k < |es| && es[k].Start? ==> es[k].node.sharing
  }

  lemma {:induction false} RunningNodeShares(logs: set<string>, es: seq<Event>, n: nat)
    requires Allowed(Initial(logs), es) && n <= |es| && SharingThroughout(es)
    ensures var pc := After(Initial(logs), es, n).pc; pc.Down? || pc.node.sharing
    decreases n
  {
    if n > 0 {
      RunningNodeShares(logs, es, n - 1);
      AfterStep(Initial(logs), es, n - 1);
    }
  }

  /** With sharing enabled, no log entry is removed as long as some claim is live. */
  lemma {:induction false} LogsOutliveLiveClaims(logs: set<string>, es: seq<Event>, i: nat, j: nat)
    requires Allowed(Initial(logs), es) && i <= j <= |es| && SharingThroughout(es)
    requires forall k :: i <= k < j ==> After(Initial(logs), es, k).hist.answers != map[]
    ensures After(Initial(logs), es, i).disk.logs <= After(Initial(logs), es, j).disk.logs
    decreases j
  {
    hide Advance, Apply, Inv, Invoked, Replied;
    if i < j {
      LogsOutliveLiveClaims(logs, es, i, j - 1);
      InvHolds(logs, es, j - 1);
      RunningNodeShares(logs, es, j - 1);
      AfterStep(Initial(logs), es, j - 1);
      var s := After(Initial(logs), es, j - 1);
      forall entry | entry in s.disk.logs ensures entry in Apply(s, es[j - 1]).disk.logs {
        if entry !in Apply(s, es[j - 1]).disk.logs {
          LogsAreRemovedByTheLastClaim(s, es[j - 1], entry);
        }
      }
    }
  }

  // ----- what a stretch of a run leaves in the directory

  predicate Writes(e: Event, entry: string) {
    e.LogWrite? && entry in e.written
  }

  predicate Removes(s: State, e: Event, entry: string) {
    e.Step? && !e.io.FailedBefore? && s.pc.UnprepareWipe? && s.pc.todo != [] && s.pc.todo[0] == entry
  }

  /** The entry is removed by one of the events from `a` up to `b`. */
  ghost predicate Removed(s: State, es: seq<Event>, a: nat, b: nat, entry: string)
    requires Allowed(s, es) && b <= |es|
  {
    exists m :: a <= m < b && Removes(After(s, es, m), es[m], entry)
  }

  /** The entry is written by some event from `a` up to `b`, and not removed after the last one that writes it. */
  ghost predicate LeftWritten(s: State, es: seq<Event>, a: nat, b: nat, entry: string)
    requires Allowed(s, es) && b <= |es|
    decreases b
  {
    a < b && (Writes(es[b - 1], entry)
              || (LeftWritten(s, es, a, b - 1, entry) && !Removes(After(s, es, b - 1), es[b - 1], entry)))
  }

  ghost predicate NothingLeftWritten(s: State, es: seq<Event>, a: nat, b: nat)
    requires Allowed(s, es) && b <= |es|
  {
    forall entry :: !LeftWritten(s, es, a, b, entry)
  }

  lemma LogStep(s: State, e: Event, entry: string)
    requires Enabled(s, e)
    ensures entry in Apply(s, e).disk.logs <==> Writes(e, entry) || (entry in s.disk.logs && !Removes(s, e, entry))
  {
    hide Render, Writable, GetDevices, PrepareDevices;
  }

  lemma RemovedSnoc(s: State, es: seq<Event>, a: nat, b: nat, entry: string)
    requires Allowed(s, es) && a <= b < |es|
    ensures Removed(s, es, a, b + 1, entry) <==>
            Removed(s, es, a, b, entry) || Removes(After(s, es, b), es[b], entry)
  {
  }

  /** An entry is there at the end of a stretch exactly if it was there and not removed, or was left written. */
  lemma {:induction false} LogsOver(s: State, es: seq<Event>, a: nat, b: nat, entry: string)
    requires Allowed(s, es) && a <= b <= |es|
    ensures entry in After(s, es, b).disk.logs <==>
            || (entry in After(s, es, a).disk.logs && !Removed(s, es, a, b, entry))
            || LeftWritten(s, es, a, b, entry)
    decreases b
  {
    hide Apply, Removes, Writes;
    if a < b {
      LogsOver(s, es, a, b - 1, entry);
      AfterStep(s, es, b - 1);
      LogStep(After(s, es, b - 1), es[b - 1], entry);
      RemovedSnoc(s, es, a, b - 1, entry);
    }
  }

  // ----- a teardown within a run

  predicate InUnprepare(pc: Pc) {
    pc.UnprepareRead? || pc.UnprepareList? || pc.UnprepareWipe? || pc.UnprepareSpec? || pc.UnprepareCommit?
  }

  /** Claim `uid` is not the last user of the shared logs. */
  ghost predicate LogsShared(s: State, uid: Uid) {
    s.pc.Idle? && s.pc.node.sharing && !Alone(s, uid)
  }

  /** State `t` of an Unprepare invoked in `s`: the stores are as they were, except for a spec file already removed. */
  ghost predicate Underway(s: State, t: State, uid: Uid)
    requires s.pc.Idle?
  {
    && InUnprepare(t.pc) && t.pc.node == s.pc.node && t.pc.uid == uid
    && t.disk.checkpoint == s.disk.checkpoint
    && t.disk.specs == (if t.pc.UnprepareCommit? then s.disk.specs - {uid} else s.disk.specs)
    && (!t.pc.UnprepareRead? ==> s.disk.checkpoint == Some(t.pc.loaded) && Known(t.pc.loaded, uid))
    && (t.pc.UnprepareList? || t.pc.UnprepareWipe? ==> !LogsShared(s, uid))
  }

  /** The logs are to be wiped and have been listed. */
  ghost predicate Listed(s: State, t: State, uid: Uid) {
    (t.pc.UnprepareWipe? || t.pc.UnprepareSpec? || t.pc.UnprepareCommit?) && !LogsShared(s, uid)
  }

  lemma UnderwayStep(s: State, t: State, e: Event, uid: Uid)
    requires s.pc.Idle? && Enabled(t, e) && !e.Invoke? && InUnprepare(Apply(t, e).pc)
    requires InUnprepare(t.pc) ==> Underway(s, t, uid)
    ensures InUnprepare(t.pc) && Underway(s, Apply(t, e), uid)
    ensures Listed(s, Apply(t, e), uid) ==> Listed(s, t, uid) || e.ListLogs?
    ensures e.Step? && t.pc.UnprepareWipe? ==> !e.io.FailedBefore?
  {
    hide Render, Writable, GetDevices, PrepareDevices;
  }

  /** No other call is invoked from event `i` up to event `j`. */
  predicate OneCall(es: seq<Event>, i: nat, j: nat, call: Call)
    requires i < j <= |es|
  {
    es[i] == Invoke(call) && forall k :: i < k < j ==> !es[k].Invoke?
  }

  lemma {:induction false} TeardownUnderway(s: State, es: seq<Event>, i: nat, k: nat, uid: Uid)
    requires Allowed(s, es) && i < k <= |es| && OneCall(es, i, k, UnprepareCall(uid))
    requires InUnprepare(After(s, es, k).pc)
    ensures After(s, es, i).pc.Idle? && Underway(After(s, es, i), After(s, es, k), uid)
    decreases k
  {
    AfterStep(s, es, i);
    if i + 1 < k {
      AfterStep(s, es, k - 1);
      hide After;
      if InUnprepare(After(s, es, k - 1).pc) {
        TeardownUnderway(s, es, i, k - 1, uid);
      }
      UnderwayStep(After(s, es, i), After(s, es, k - 1), es[k - 1], uid);
    }
  }

  /** The listed entries still to be removed. */
  function Todo(pc: Pc): seq<string> {
    if pc.UnprepareWipe? then pc.todo else []
  }

  lemma WipeStep(t: State, e: Event)
    requires Enabled(t, e) && !e.Invoke? && !e.ListLogs? && InUnprepare(t.pc) && InUnprepare(Apply(t, e).pc)
    ensures var before, after := Todo(t.pc), Todo(Apply(t, e).pc);
            || (after == before && forall entry :: !Removes(t, e, entry))
            || (before != [] && after == before[1..] && forall entry :: Removes(t, e, entry) <==> entry == before[0])
  {
    hide Render, Writable, GetDevices, PrepareDevices;
  }

  /** Since the listing at event `l`, exactly the listed entries that are not `todo` have been removed. */
  ghost predicate WipedSince(s: State, es: seq<Event>, l: nat, k: nat, todo: seq<string>)
    requires Allowed(s, es) && l < k <= |es| && es[l].ListLogs?
  {
    exists done :: es[l].names == done + todo && forall entry :: Removed(s, es, l + 1, k, entry) <==> entry in done
  }

  lemma WipedSinceStep(s: State, es: seq<Event>, l: nat, k: nat, todo: seq<string>)
    requires Allowed(s, es) && l < k < |es| && es[l].ListLogs? && WipedSince(s, es, l, k, todo)
    ensures (forall entry :: !Removes(After(s, es, k), es[k], entry)) ==> WipedSince(s, es, l, k + 1, todo)
    ensures todo != [] && (forall entry :: Removes(After(s, es, k), es[k], entry) <==> entry == todo[0])
            ==> WipedSince(s, es, l, k + 1, todo[1..])
  {
    hide Removes, Removed;
    var done :| es[l].names == done + todo && forall entry :: Removed(s, es, l + 1, k, entry) <==> entry in done;
    forall entry
      ensures Removed(s, es, l + 1, k + 1, entry) <==> entry in done || Removes(After(s, es, k), es[k], entry)
    {
      RemovedSnoc(s, es, l + 1, k, entry);
    }
    if todo != [] {
      assert es[l].names == done + [todo[0]] + todo[1..];
    }
  }

  lemma {:induction false} ListingFound(s: State, es: seq<Event>, i: nat, k: nat, uid: Uid) returns (l: nat)
    requires Allowed(s, es) && i < k <= |es| && OneCall(es, i, k, UnprepareCall(uid))
    requires After(s, es, i).pc.Idle? && Listed(After(s, es, i), After(s, es, k), uid)
    ensures i < l < k && es[l].ListLogs? && WipedSince(s, es, l, k, Todo(After(s, es, k).pc))
    decreases k
  {
    TeardownUnderway(s, es, i, k, uid);
    AfterStep(s, es, i);
    AfterStep(s, es, k - 1);
    var t, e := After(s, es, k - 1), es[k - 1];
    assert k - 1 != i;
    if InUnprepare(t.pc) {
      TeardownUnderway(s, es, i, k - 1, uid);
    }
    UnderwayStep(After(s, es, i), t, e, uid);
    hide After, Removed, Underway;
    if e.ListLogs? {
      l := k - 1;
      assert e.names == [] + Todo(After(s, es, k).pc);
    } else {
      l := ListingFound(s, es, i, k - 1, uid);
      WipeStep(t, e);
      WipedSinceStep(s, es, l, k - 1, Todo(t.pc));
    }
  }

  /** A wipe that is to keep shared logs removes nothing. */
  lemma {:induction false} SharedLogsKept(s: State, es: seq<Event>, i: nat, k: nat, uid: Uid, entry: string)
    requires Allowed(s, es) && i < k <= |es| && OneCall(es, i, k, UnprepareCall(uid))
    requires InUnprepare(After(s, es, k).pc) && After(s, es, i).pc.Idle? && LogsShared(After(s, es, i), uid)
    ensures !Removed(s, es, i, k, entry)
    decreases k
  {
    forall m | i <= m < k ensures !Removes(After(s, es, m), es[m], entry) {
      if m > i && InUnprepare(After(s, es, m).pc) {
        TeardownUnderway(s, es, i, m, uid);
      }
    }
  }

  /**
   A teardown as part of any run, with logs written by others at any moment: from the invocation at event `i`
   to the reply at event `j`, the claim has left both stores, and every other claim's entry and spec is as it
   was. If sharing is enabled and another claim is checkpointed, no log was removed. Otherwise the directory was
   listed at event `l`; what is left are the entries missing from that listing and those written after it and
   not removed again.
   */
  lemma SuccessfulUnprepare(logs: set<string>, es: seq<Event>, i: nat, j: nat, uid: Uid) returns (l: nat)
    requires Allowed(Initial(logs), es) && i < j < |es| && OneCall(es, i, j, UnprepareCall(uid))
    requires ReplyAt(Initial(logs), es, j) == Some(Unprepared(uid, true))
    ensures var s, t := After(Initial(logs), es, i), After(Initial(logs), es, j + 1);
            && s.pc.Idle? && uid in Entries(s) && t.pc == s.pc
            && t.disk.checkpoint == Some(Entries(s) - {uid}) && t.disk.specs == s.disk.specs - {uid}
    ensures var s, t := After(Initial(logs), es, i), After(Initial(logs), es, j + 1);
            if LogsShared(s, uid) then
              forall entry :: entry in t.disk.logs <==>
                              entry in s.disk.logs || LeftWritten(Initial(logs), es, i, j + 1, entry)
            else
              && i < l < j && es[l].ListLogs?
              && (forall entry :: entry in es[l].names ==> Removed(Initial(logs), es, l + 1, j, entry))
              && forall entry :: entry in t.disk.logs <==>
                   || (entry in After(Initial(logs), es, l).disk.logs && entry !in es[l].names)
                   || LeftWritten(Initial(logs), es, l + 1, j, entry)
  {
    var s0 := Initial(logs);
    AfterStep(s0, es, i);
    AfterStep(s0, es, j);
    var s, t, e := After(s0, es, i), After(s0, es, j), es[j];
    CommitReplies(t, e, uid);
    TeardownUnderway(s0, es, i, j, uid);
    hide After, LeftWritten, Removed, Apply;
    if LogsShared(s, uid) {
      l := 0;
      forall entry
        ensures entry in Apply(t, e).disk.logs <==> entry in s.disk.logs || LeftWritten(s0, es, i, j + 1, entry)
      {
        SharedLogsKept(s0, es, i, j, uid, entry);
        RemovedSnoc(s0, es, i, j, entry);
        LogsOver(s0, es, i, j + 1, entry);
      }
    } else {
      l := ListingFound(s0, es, i, j, uid);
      AfterStep(s0, es, l);
      forall entry
        ensures entry in es[l].names <==> Removed(s0, es, l + 1, j, entry)
        ensures entry in t.disk.logs <==>
                || (entry in After(s0, es, l).disk.logs && entry !in es[l].names)
                || LeftWritten(s0, es, l + 1, j, entry)
      {
        LogsOver(s0, es, l + 1, j, entry);
        LogStep(After(s0, es, l), es[l], entry);
      }
    }
  }

  lemma CommitReplies(t: State, e: Event, uid: Uid)
    requires Enabled(t, e) && ReplyOf(t, e) == Some(Unprepared(uid, true))
    ensures t.pc.UnprepareCommit? && t.pc.uid == uid && e.Step?
    ensures var t' := Apply(t, e);
            && t'.disk == t.disk.(checkpoint := Some(t.pc.loaded - {uid})) && t'.pc == Idle(t.pc.node)
    ensures forall entry :: !Removes(t, e, entry)
  {
    hide Render, Writable, GetDevices, PrepareDevices;
  }

  /**
   A teardown that empties the checkpoint leaves the log directory empty exactly when its listing was complete
   and nothing was left written after it. RemoveDirContents ignores the error of a listing that failed, and
   other processes may write while it runs, so both are conditions.
   */
  lemma LastUnprepareWipesTheLogs(logs: set<string>, es: seq<Event>, i: nat, j: nat, uid: Uid) returns (l: nat)
    requires Allowed(Initial(logs), es) && i < j < |es| && OneCall(es, i, j, UnprepareCall(uid))
    requires ReplyAt(Initial(logs), es, j) == Some(Unprepared(uid, true))
    requires After(Initial(logs), es, j + 1).disk.checkpoint == Some(map[])
    ensures i < l < j && es[l].ListLogs?
    ensures After(Initial(logs), es, j + 1).disk.logs == {} <==>
            && After(Initial(logs), es, l).disk.logs <= Elements(es[l].names)
            && NothingLeftWritten(Initial(logs), es, l + 1, j)
  {
    l := SuccessfulUnprepare(logs, es, i, j, uid);
    var s := After(Initial(logs), es, i);
    hide After, LeftWritten, Removed;
    forall u | u in Entries(s) ensures u == uid {
      assert u != uid ==> u in Entries(s) - {uid};
    }
    var listed, left := After(Initial(logs), es, l).disk.logs, After(Initial(logs), es, j + 1).disk.logs;
    assert forall entry :: entry in listed && entry !in es[l].names ==> entry in left;
    if !NothingLeftWritten(Initial(logs), es, l + 1, j) {
      var entry :| LeftWritten(Initial(logs), es, l + 1, j, entry);
      assert entry in left;
    }
  }
}
