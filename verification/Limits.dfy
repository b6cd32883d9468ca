/** Where the code gives less than one might expect of it, and exactly when. */
module Limits {
  import opened Types
  import opened Lists
  import opened PlannerSpec
  import opened WakeUp
  import opened PlannerSound
  import opened EsiSpec
  import opened InstanceSpec
  import opened InstanceLaws
  import opened KeyTable
  import opened LockHistory
  import opened System
  import opened Invariant
  import opened Moves
  import opened OneOrder
  import opened Locks
  import opened Termination
  import opened Deadlock
  import opened Chains
  import opened Stuck
  import CoordinatorSpec
  import EquitableLoad

  // ---------- Console block ----------

  /** The console's `block` inserts its entry unconditionally. It keeps mutual exclusion exactly if nobody holds the
      key and nobody has been permitted to take it. */
  lemma BlockKeepsExclusionIff(s: State, key: string, name: string)
    requires Exclusive(s.planner.taken, s.net)
    ensures Exclusive(LoadKey(s.planner, key, name).taken, s.net) <==>
            Holders(s.planner.taken, key) == 0 && !(s.net != [] && Taking(s.net[0], key))
  {
    var a := Alloc(name, key, Blocked);
    forall k
      ensures Holders(s.planner.taken + [a], k) == Holders(s.planner.taken, k) + if k == key then 1 else 0
    {
      Appended(s.planner.taken, a, k);
    }
    assert LoadKey(s.planner, key, name).taken == s.planner.taken + [a];
  }

  /** The planner's answer: granted, denied, or none because it dereferences null. */
  function Verdict(ps: Planner, name: string, op: Op): Option<bool> {
    match Ask(ps, name, op)
    case None => None
    case Some(a) => Some(a.granted)
  }

  /** A `block` while a question is under way changes the answer exactly if the question is about that key and nobody
      holds it. For a key that somebody holds the entry goes behind the holder's. */
  lemma BlockChangesAnswerIff(s: State, key: string, name: string)
    requires Inv(s) && s.net != [] && s.net[0].Question?
    ensures var m := s.net[0];
            Verdict(LoadKey(s.planner, key, name), m.name, m.op) != Verdict(s.planner, m.name, m.op) <==>
            m.op.key == key && !KeyHeld(s.planner.taken, key)
  {
    hide Sound, Wired, Placed, InOrder, OfKnown, QueuesOnScript, FlightOnScript, Counted, Verdict, KeyHeld;
    AnswersAfterBlock(s.planner, key, name, s.net[0].name, s.net[0].op);
  }

  lemma AnswersAfterBlock(ps: Planner, key: string, name: string, asker: string, op: Op)
    requires ps.running != [] && ps.running[0].id == asker
    ensures Verdict(LoadKey(ps, key, name), asker, op) == Verdict(ps, asker, op) <==>
            !(op.key == key && !KeyHeld(ps.taken, key))
  {
    hide AllocIndex, KeyHeld;
    var after := LoadKey(ps, key, name);
    LoadedHolder(ps, key, name, op.key);
    VerdictByHolder(ps, asker, op);
    VerdictByHolder(after, asker, op);
    HolderIsFirst(ps.taken, key);
    HolderIsFirst(after.taken, key);
  }

  /** The answer to the running ESI depends on who holds the key first. */
  lemma VerdictByHolder(ps: Planner, asker: string, op: Op)
    requires ps.running != [] && ps.running[0].id == asker
    ensures Verdict(ps, asker, op) ==
            match Holder(ps.taken, op.key)
            case None => (if op.Get? then Some(true) else None)
            case Some(holder) => Some(!op.Get? && holder == asker)
  {
    HolderIsFirst(ps.taken, op.key);
  }

  // ---------- Finished ESIs and their keys ----------

  ghost predicate Leaked(s: State, name: string, key: string) {
    name in Ids(s.planner.finished) && Holder(s.planner.taken, key) == Some(name)
  }

  /** A key that a finished ESI holds stays held through every step but the console's `unblock` of it. */
  lemma StepLeaks(s: State, step: Step, name: string, key: string, pre: set<string>)
    requires Inv(s) && Enabled(s, step) && Harmless(s, step)
    requires KeysOk(s.planner.taken, s.log, s.net, pre) && Leaked(s, name, key)
    ensures Leaked(Perform(s, step), name, key)
  {
    hide Sound, Wired, Placed, InOrder, OfKnown, QueuesOnScript, Counted, Perform, LockAfter, Process, InRange,
         CheckWhosWaiting, KeyHeld, KeysOk, Run, Written;
    var t := Perform(s, step);
    StepForm(s, step);
    if step.Deliver? {
      var m := s.net[0];
      if m.Notice? && !t.crashed {
        NoticeLeaks(s, m, name, key, pre);
      } else if m.Question? {
        Appended(s.planner.taken, Alloc(m.name, m.op.key, Waiting), key);
      } else if m.Finished? {
        IdsConcat(s.planner.finished, [EndBurst(s.planner.config, s.planner.running[0])]);
      }
    } else if step.ConsoleUnblock? {
      ReleaseFree(s.planner, step.key);
    }
  }

  lemma NoticeLeaks(s: State, m: Msg, name: string, key: string, pre: set<string>)
    requires Inv(s) && s.net != [] && m == s.net[0] && m.Notice? && ChangeKeyStatus(s.planner, m.change).Some?
    requires KeysOk(s.planner.taken, s.log, s.net, pre) && Leaked(s, name, key)
    ensures Leaked(AfterNotice(s, m), name, key)
  {
    hide Sound, Wired, Placed, InOrder, OfKnown, QueuesOnScript, Counted, LockAfter, CheckWhosWaiting;
    var a := m.change;
    if a.status == Blocked {
      Appended(s.planner.taken, Alloc(a.name, a.key, Blocked), key);
    } else {
      ReleaseIsFilter(s.planner, a.key);
      TableReleased(s.planner.taken, a.key, key);
      LastLock(s.log, a.name, Store(a.key));
      OthersRun(s, name);
    }
  }

  lemma OthersRun(s: State, name: string)
    requires Inv(s) && name in Ids(s.planner.finished) && |s.planner.running| == 1
    ensures s.planner.running[0].id != name
  {
    hide Sound, Wired, Placed, InOrder, OfKnown, QueuesOnScript, Counted, FlightOnScript, OneOutstanding;
    Apart(s.planner);
    var e := NamedIn(s.planner.finished, name);
    assert s.planner.running[0] in s.planner.running;
  }

  /** So a key that was not stored is lost to everybody else for the rest of every run in which the console does
      nothing to the locks. */
  lemma {:induction false} LeakedForever(s: State, steps: seq<Step>, name: string, key: string, pre: set<string>)
    requires Inv(s) && Runs(s, steps) && Exclusive(s.planner.taken, s.net) && KeysOk(s.planner.taken, s.log, s.net, pre)
    requires HarmlessRun(s, steps)
    requires Leaked(s, name, key)
    ensures Leaked(After(s, steps), name, key)
    decreases |steps|
  {
    hide Inv, Perform, Enabled, Exclusive, KeysOk, Leaked;
    if steps != [] {
      StepKeeps(s, steps[0]);
      StepExclusive(s, steps[0]);
      StepKeys(s, steps[0], pre);
      StepLeaks(s, steps[0], name, key, pre);
      LeakedForever(Perform(s, steps[0]), steps[1..], name, key, pre);
    }
  }

  // ---------- Several instances ----------

  /** Equitable Load does not ask which instance has the key. A permitted SET or STORE whose key lies on the instance
      used last goes elsewhere as soon as a second instance is available; it fails there, and the system stands
      still for ever: the ESI keeps the processor, and nothing is delivered or dispatched any more. */
  lemma OtherInstanceStrands(s: State)
    requires Inv(s) && !s.crashed && s.net != [] && s.net[0].Permit? && !s.net[0].op.Get?
    requires forall n :: 0 <= n < |s.nodes| && n != s.lastUsed ==> !Has(s.nodes[n].store, s.net[0].op.key)
    requires exists n :: 0 <= n < |s.nodes| && n != s.lastUsed && s.nodes[n].available
    ensures Runs(s, [Deliver(0), Deliver(0), Deliver(0)])
    ensures var t := After(s, [Deliver(0), Deliver(0), Deliver(0)]);
            && StandsStill(t) && t.planner == s.planner && t.log == s.log
            && forall more :: Runs(t, more) ==>
                 StandsStill(After(t, more)) && ProductiveIn(more) == 0 && After(t, more).log == s.log
  {
    hide Sound, Wired, Placed, InOrder, OfKnown, QueuesOnScript, FlightOnScript, Counted, OneOutstanding, Perform,
         Runs, After;
    var d := Deliver(0);
    assert Enabled(s, d);
    var a := NextIsOther(s);
    StepKeeps(s, d);
    var b := FailsThere(a);
    StepKeeps(a, d);
    var c := FailureStands(b);
    StepKeeps(b, d);
    OneStep(s, d);
    StepMore(s, [d], d);
    StepMore(s, [d] + [d], d);
    assert [d] + [d] + [d] == [d, d, d];
    forall more | Runs(c, more)
      ensures StandsStill(After(c, more)) && ProductiveIn(more) == 0 && After(c, more).log == s.log
    {
      StandsForever(c, more);
    }
  }

  lemma NextIsOther(s: State) returns (a: State)
    requires Inv(s) && Enabled(s, Deliver(0)) && s.net[0].Permit?
    requires exists n :: 0 <= n < |s.nodes| && n != s.lastUsed && s.nodes[n].available
    ensures a == Perform(s, Deliver(0))
    ensures a.net != [] && a.net[0].Apply? && a == AfterPermit(s, s.net[0], a.net[0].node)
    ensures a.net[0].node < |s.nodes| && a.net[0].node != s.lastUsed
  {
    hide Sound, Wired, Circular, InOrder, OfKnown, QueuesOnScript, FlightOnScript, CoordinatorSpec.Choose, Availability;
    ShapeOfNet(s, 0);
    OtherChosen(s.nodes, s.lastUsed);
    NothingObserved(s, Act(s, Deliver(0)));
    a := Perform(s, Deliver(0));
  }

  lemma OtherChosen(nodes: seq<Node>, last: int)
    requires -1 <= last < |nodes|
    requires exists n :: 0 <= n < |nodes| && n != last && nodes[n].available
    ensures var node := CoordinatorSpec.Choose(Availability(nodes), last); 0 <= node < |nodes| && node != last
  {
    var free := Availability(nodes);
    EquitableLoad.ChooseIsNext(free, last);
    var n :| 0 <= n < |nodes| && n != last && nodes[n].available;
    assert free[n];
  }

  lemma FailsThere(a: State) returns (b: State)
    requires Inv(a) && Enabled(a, Deliver(0)) && a.net[0].Apply? && !a.net[0].op.Get?
    requires a.net[0].node < |a.nodes| && !Has(a.nodes[a.net[0].node].store, a.net[0].op.key)
    ensures b == Perform(a, Deliver(0)) && b == AfterApply(a, a.net[0]) && CanExecute(a, a.net[0])
    ensures |b.net| == 1 && b.net[0].Reply? && !b.net[0].success && b.log == a.log && b.planner == a.planner
  {
    hide Sound, Wired, InOrder, OfKnown, QueuesOnScript, FlightOnScript, Counted, Perform, Circular;
    StepForm(a, Deliver(0));
    b := Perform(a, Deliver(0));
  }

  lemma FailureStands(b: State) returns (c: State)
    requires Inv(b) && Enabled(b, Deliver(0)) && |b.net| == 1 && b.net[0].Reply? && !b.net[0].success
    ensures c == Perform(b, Deliver(0)) && c == b.(net := [])
    ensures StandsStill(c)
  {
    hide Sound, Wired, InOrder, OfKnown, QueuesOnScript, FlightOnScript, Counted, Perform, Circular;
    StepForm(b, Deliver(0));
    c := Perform(b, Deliver(0));
  }

  /** Of the available instances, the first after the one used last. */
  ghost predicate NextInTurn(nodes: seq<Node>, last: int, node: nat) {
    && node < |nodes| && nodes[node].available
    && forall i :: 0 <= i < |nodes| && nodes[i].available ==>
         EquitableLoad.Steps(|nodes|, last, node) <= EquitableLoad.Steps(|nodes|, last, i)
  }

  /** A permitted operation is carried out exactly if it is a GET or the next instance in turn has its key. */
  lemma CarriedOutIff(s: State, node: nat)
    requires Inv(s) && !s.crashed && s.net != [] && s.net[0].Permit?
    requires NextInTurn(s.nodes, s.lastUsed, node)
    ensures Runs(s, [Deliver(0), Deliver(0)])
    ensures var t, op := After(s, [Deliver(0), Deliver(0)]), s.net[0].op;
            if op.Get? || Has(s.nodes[node].store, op.key) then |t.log| == |s.log| + 1 && t.log[|s.log|].op == op
            else t.log == s.log
  {
    hide Sound, Wired, Placed, InOrder, OfKnown, QueuesOnScript, FlightOnScript, Counted, OneOutstanding, Perform,
         Runs, After, NextInTurn;
    var d := Deliver(0);
    var a := NextIs(s, node);
    StepKeeps(s, d);
    NextExecutes(a);
    OneStep(s, d);
    StepMore(s, [d], d);
    assert [d] + [d] == [d, d];
  }

  lemma NextIs(s: State, node: nat) returns (a: State)
    requires Inv(s) && Enabled(s, Deliver(0)) && s.net[0].Permit? && NextInTurn(s.nodes, s.lastUsed, node)
    ensures a == Perform(s, Deliver(0)) && a == AfterPermit(s, s.net[0], node) && node < |s.nodes|
  {
    hide Sound, Wired, Circular, InOrder, OfKnown, QueuesOnScript, FlightOnScript, CoordinatorSpec.Choose, Availability;
    ShapeOfNet(s, 0);
    InTurnChosen(s.nodes, s.lastUsed, node);
    NothingObserved(s, Act(s, Deliver(0)));
    a := Perform(s, Deliver(0));
  }

  lemma InTurnChosen(nodes: seq<Node>, last: int, node: nat)
    requires -1 <= last < |nodes| && NextInTurn(nodes, last, node)
    ensures CoordinatorSpec.Choose(Availability(nodes), last) == node
  {
    var free := Availability(nodes);
    EquitableLoad.ChooseIsNext(free, last);
    assert free[node];
  }

  lemma NextExecutes(a: State)
    requires Inv(a) && Enabled(a, Deliver(0)) && a.net[0].Apply? && a.net[0].node < |a.nodes|
    ensures var t, m := Perform(a, Deliver(0)), a.net[0];
            if m.op.Get? || Has(a.nodes[m.node].store, m.op.key)
            then |t.log| == |a.log| + 1 && t.log[|a.log|].op == m.op
            else t.log == a.log
  {
    hide Sound, Wired, InOrder, OfKnown, QueuesOnScript, FlightOnScript, Counted, Perform, Circular;
    StepForm(a, Deliver(0));
  }

  // ---------- Past capacity ----------

  /** Creating a key leaves the value of every other key as it was exactly if a block is free or the block that is
      reused held the initial value anyway. */
  lemma CreationClobbersIff(inst: Instance, key: string)
    requires Circular(inst) && InRange(inst) && !Has(inst, key)
    ensures InRange(Create(inst, key)) && forall k :: Has(inst, k) ==> Has(Create(inst, key), k)
    ensures (forall k :: Has(inst, k) ==> Read(Create(inst, key), k) == Read(inst, k)) <==>
            |inst.dictionary| < |inst.blocks| || inst.blocks[inst.pointer].data == DEFAULT_VALUE
  {
    hide Circular, EntryIndex, Create, Read;
    forall k | Has(inst, k)
      ensures InRange(Create(inst, key)) && Has(Create(inst, key), k)
      ensures Read(Create(inst, key), k) == if SlotOf(inst, k) == inst.pointer then DEFAULT_VALUE else Read(inst, k)
      ensures SlotOf(inst, k) == inst.pointer ==> Read(inst, k) == inst.blocks[inst.pointer].data
    {
      AfterCreation(inst, key, k);
    }
    CreateInRange(inst, key);
    if |inst.dictionary| < |inst.blocks| {
      forall k | Has(inst, k)
        ensures Read(Create(inst, key), k) == Read(inst, k)
      {
        ReadAfterCreate(inst, key, k);
      }
    } else {
      var k := Displaced(inst);
    }
  }

  lemma CreateInRange(inst: Instance, key: string)
    requires Circular(inst) && InRange(inst) && !Has(inst, key)
    ensures InRange(Create(inst, key))
  {
    KeepsCircular(inst, Get(key));
  }

  lemma AfterCreation(inst: Instance, key: string, k: string)
    requires Circular(inst) && InRange(inst) && !Has(inst, key) && Has(inst, k)
    ensures InRange(Create(inst, key)) && Has(Create(inst, key), k)
    ensures Read(Create(inst, key), k) == if SlotOf(inst, k) == inst.pointer then DEFAULT_VALUE else Read(inst, k)
    ensures SlotOf(inst, k) == inst.pointer ==> Read(inst, k) == inst.blocks[inst.pointer].data
  {
    KeepsCircular(inst, Get(key));
    var after := Create(inst, key);
    var i := EntryIndex(inst.dictionary, k);
    assert after.dictionary[i + 1] == inst.dictionary[i];
    RowIndex(after, i + 1);
  }

  /** Past capacity, the key created |blocks| creations before the next one has the block that is reused. */
  lemma Displaced(inst: Instance) returns (k: string)
    requires Circular(inst) && |inst.dictionary| >= |inst.blocks|
    ensures Has(inst, k) && SlotOf(inst, k) == inst.pointer
  {
    var m := |inst.blocks|;
    RowIndex(inst, m - 1);
    OneTurnBack(|inst.dictionary|, m);
    k := inst.dictionary[m - 1].key;
  }

  function SlotOf(inst: Instance, key: string): nat
    requires Has(inst, key)
  {
    inst.dictionary[EntryIndex(inst.dictionary, key)].slot
  }

  lemma OneTurnBack(n: nat, m: nat)
    requires 0 < m <= n
    ensures (n - m) % m == n % m
  {
    var q, r := n / m, n % m;
    assert n - m == m * (q - 1) + r;
    ModIs(n - m, m, q - 1, r);
  }
}
