/** Scripts, and the locks as one ESI sees them. */
module Scripts {
  import opened Types
  import opened Lists
  import opened PlannerSpec
  import opened PlannerSound
  import opened KeyTable
  import opened LockHistory
  import opened System
  import opened Invariant
  import opened OneOrder
  import opened Locks

  /** The keys taken and not yet stored. */
  function HeldKeys(ops: seq<Op>): set<string> {
    if ops == [] then {}
    else
      var before := HeldKeys(ops[..|ops| - 1]);
      match ops[|ops| - 1]
      case Get(key) => before + {key}
      case Set(_, _) => before
      case Store(key) => before - {key}
  }

  predicate GoodLines(script: seq<Line>, n: nat) {
    n <= |script| && forall i :: 0 <= i < n ==> script[i].Valid?
  }

  /** The operations on the first n lines. */
  function OpsOf(script: seq<Line>, n: nat): seq<Op>
    requires GoodLines(script, n)
  {
    seq(n, i requires 0 <= i < n => script[i].op)
  }

  /** Every SET and STORE lies in its ESI's own open window. */
  ghost predicate Windowed(script: seq<Line>) {
    forall i {:trigger script[i]} ::
      0 <= i < |script| && GoodLines(script, i) && script[i].Valid? && !script[i].op.Get? ==>
      script[i].op.key in HeldKeys(OpsOf(script, i))
  }

  lemma PrefixOps(ops: seq<Op>, script: seq<Line>)
    requires PrefixOf(ops, script)
    ensures GoodLines(script, |ops|) && ops == OpsOf(script, |ops|)
  {}

  /** What a script takes and does not store, up to its end or its first bad line. */
  function Leftover(script: seq<Line>): set<string> {
    HeldKeys(OpsOf(script, FirstBad(script)))
  }

  /** The first bad line, or the end. */
  function FirstBad(script: seq<Line>): (n: nat)
    ensures GoodLines(script, n) && (n == |script| || script[n].Garbage?)
  {
    if script == [] || script[0].Garbage? then 0
    else
      var n := FirstBad(script[1..]);
      assert forall i :: 0 < i < |script| ==> script[i] == script[1..][i - 1];
      1 + n
  }

  // ---------- Locks seen from one ESI ----------

  /** A key is locked by an ESI exactly if it is among the keys the ESI's own operations have taken and not stored. */
  lemma {:induction false} HeldIsLocked(log: seq<Event>, key: string, name: string)
    requires LockAfter(log, key) != Broken
    ensures key in HeldKeys(Applied(log, name)) <==> LockAfter(log, key) == Held(name)
  {
    if log != [] {
      var before, e := log[..|log| - 1], log[|log| - 1];
      assert log == before + [e];
      LockGrows(before, e, key);
      AppliedGrows(before, e, name);
      HeldIsLocked(before, key, name);
      var a := Applied(before, name);
      assert (a + [e.op])[..|a|] == a;
    }
  }

  lemma RunningKnown(s: State) returns (w: nat, ops: seq<Op>)
    requires Inv(s) && s.net != []
    ensures w == s.net[0].who && RunningIs(s, w) && w < |s.procs|
    ensures ops == Applied(s.log, s.procs[w].name) && PrefixOf(ops, s.procs[w].script)
    ensures Stage(s.net[0], s.procs[w], |ops|, s.log)
    ensures Carries(s.net[0], s.procs[w].name)
  {
    hide Sound, Wired, Placed, OfKnown, QueuesOnScript, Counted, Applied;
    w := s.net[0].who;
    ops := Applied(s.log, s.procs[w].name);
  }

  /** A SET or STORE in its ESI's own window always finds a holder and is always approved, when table and history
      agree, whatever was preloaded. */
  lemma NeverRefused(s: State, pre: set<string>)
    requires Inv(s) && KeysOk(s.planner.taken, s.log, s.net, pre)
    requires s.net != [] && s.net[0].Question? && !s.net[0].op.Get?
    requires s.net[0].who < |s.procs| ==> Windowed(s.procs[s.net[0].who].script)
    ensures var m := s.net[0];
            && KeyHeld(s.planner.taken, m.op.key)
            && s.planner.taken[AllocIndex(s.planner.taken, m.op.key, Blocked)].name == m.name
  {
    hide Sound, Wired, Placed, OfKnown, QueuesOnScript, Counted, Applied, LockAfter, HeldKeys, InOrder, FlightOnScript;
    var m := s.net[0];
    var w, ops := RunningKnown(s);
    PrefixOps(ops, s.procs[w].script);
    assert m.op.key in HeldKeys(ops);
    HeldIsLocked(s.log, m.op.key, m.name);
    HolderIsFirst(s.planner.taken, m.op.key);
    if m.op.key in pre {
      UntouchedIsFree(s.log, m.op.key);
    }
  }

  // ---------- Finished ESIs and their keys ----------

  /** An ESI that does not run holds exactly the keys that it took and did not store. */
  lemma RestingHolds(s: State, name: string, key: string, pre: set<string>)
    requires Inv(s) && KeysOk(s.planner.taken, s.log, s.net, pre)
    requires name != "" && forall r :: r in s.planner.running ==> r.id != name
    ensures Holder(s.planner.taken, key) == Some(name) <==> key in HeldKeys(Applied(s.log, name))
  {
    hide Sound, Wired, Placed, InOrder, OfKnown, QueuesOnScript, Counted, LockAfter, HeldKeys, Applied;
    HeldIsLocked(s.log, key, name);
    if Noticed(s.log, s.net) != s.log {
      PendingIsRunning(s);
      assert s.planner.running[0] in s.planner.running;
      OtherLast(s.log, key, name);
    }
    if key in pre {
      UntouchedIsFree(s.log, key);
    }
  }

  /** A finished ESI goes on holding exactly the keys that it took and did not store. */
  lemma FinishedHolds(s: State, e: Esi, key: string, pre: set<string>)
    requires Inv(s) && KeysOk(s.planner.taken, s.log, s.net, pre) && e in s.planner.finished
    ensures Holder(s.planner.taken, key) == Some(e.id) <==> key in HeldKeys(Applied(s.log, e.id))
  {
    hide Sound, Wired, Placed, InOrder, OfKnown, QueuesOnScript, FlightOnScript, Counted, OneOutstanding, KeysOk,
         HeldKeys, Applied;
    Apart(s.planner);
    var p := Known(s.planner, e);
    IdsDiffer(s.planner.config, p, p);
    RestingHolds(s, e.id, key, pre);
  }

  /** Only preloaded keys are held by nobody. */
  lemma NotPreloaded(s: State, key: string, pre: set<string>)
    requires Inv(s) && KeysOk(s.planner.taken, s.log, s.net, pre) && key !in pre
    ensures Holder(s.planner.taken, key) != Some("")
  {
    hide Sound, Placed, InOrder, QueuesOnScript, FlightOnScript, Counted, OneOutstanding, LockAfter, HeldKeys, Applied;
    var heard := Noticed(s.log, s.net);
    forall i | 0 <= i < |heard|
      ensures heard[i].name != ""
    {
      assert heard[i] == s.log[i] && Belongs(s.procs, s.log[i].name);
      var p :| 0 <= p < |s.procs| && s.procs[p].name == s.log[i].name;
      IdsDiffer(s.planner.config, p, p);
    }
    NothingApplied(heard, "");
    NothingHeld();
    HeldBefore(s.log, s.net, key);
    HeldIsLocked(heard, key, "");
  }

  /** A broken history stays broken. */
  lemma HeldBefore(log: seq<Event>, net: seq<Msg>, key: string)
    requires LockAfter(log, key) != Broken
    ensures LockAfter(Noticed(log, net), key) != Broken
  {
    hide LockAfter;
    if Noticed(log, net) != log {
      LastStep(log, key);
    }
  }

  lemma NothingHeld()
    ensures HeldKeys([]) == {}
  {}

  /** A finished ESI has had all its lines, up to the first bad one. */
  lemma FinishedWhole(s: State, e: Esi, p: nat)
    requires Inv(s) && e in s.planner.finished && Mine(s.procs, e, p)
    ensures Applied(s.log, e.id) == OpsOf(s.procs[p].script, FirstBad(s.procs[p].script))
  {
    hide Sound, Wired, Placed, OfKnown, FlightOnScript, Counted, OneOutstanding, Applied, FirstBad;
    var ops, script := Applied(s.log, e.id), s.procs[p].script;
    PrefixOps(ops, script);
    assert |ops| == FirstBad(script);
  }

  /** The operation whose notice is outstanding was the running ESI's. */
  lemma PendingIsRunning(s: State)
    requires Inv(s) && Noticed(s.log, s.net) != s.log
    ensures s.log != [] && Noticed(s.log, s.net) == s.log[..|s.log| - 1] && |s.planner.running| == 1
    ensures s.log[|s.log| - 1].name == s.planner.running[0].id
  {
    hide Sound, Wired, Placed, InOrder, OfKnown, QueuesOnScript, Counted;
  }

  /** An operation by somebody else neither gives `name` a lock nor takes one from it. */
  lemma OtherLast(log: seq<Event>, key: string, name: string)
    requires log != [] && log[|log| - 1].name != name && LockAfter(log, key) != Broken
    ensures LockAfter(log, key) == Held(name) <==> LockAfter(log[..|log| - 1], key) == Held(name)
  {
    hide LockAfter;
    LastStep(log, key);
  }
}
