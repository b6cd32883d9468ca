/** What goes well with one available instance and scripts that bracket their keys: nothing is refused, nothing fails,
    nobody crashes. */
module Progress {
  import opened Types
  import opened Lists
  import opened PlannerSpec
  import opened WakeUp
  import opened PlannerSound
  import opened EsiSpec
  import opened InstanceSpec
  import opened InstanceLaws
  import opened KeyTable
  import opened LockHistory
  import opened System
  import opened Invariant
  import opened Moves
  import opened OneOrder
  import opened Locks
  import opened Isolation
  import opened Scripts
  import opened Termination

  // ---------- What is kept in a progressing run ----------

  /** A waiting entry is for the key of the line on which its ESI is parked. */
  ghost predicate WaitsForLine(taken: seq<Alloc>, procs: seq<Proc>, log: seq<Event>) {
    forall a, p :: a in taken && a.status == Waiting && 0 <= p < |procs| && procs[p].name == a.name ==>
      Done(log, procs[p]) < |procs[p].script| && procs[p].script[Done(log, procs[p])] == Valid(Get(a.key))
  }

  /** One available instance, keys `pre` preloaded, and scripts that bracket their keys. */
  ghost predicate Orderly(s: State, pre: set<string>) {
    && Inv(s) && !s.crashed
    && Exclusive(s.planner.taken, s.net)
    && KeysOk(s.planner.taken, s.log, s.net, pre)
    && Stored(s.nodes, s.log) && s.nodes[0].available
    && WaitsForLine(s.planner.taken, s.procs, s.log)
    && (s.planner.running != [] ==> s.net != [])
    && (s.net != [] && s.net[0].Reply? ==> s.net[0].success)
    && (forall p :: 0 <= p < |s.procs| ==> Windowed(s.procs[p].script))
  }

  /** The instance always knows the key of a permitted operation. */
  lemma NeverFails(s: State, pre: set<string>)
    requires Orderly(s, pre) && s.net != [] && s.net[0].Apply?
    ensures CanExecute(s, s.net[0])
    ensures Process(s.nodes[0].store, s.net[0].op).success
  {
    hide Sound, Wired, Placed, OfKnown, QueuesOnScript, Counted, Exclusive, WaitsForLine, Windowed, Applied, InOrder,
         FlightOnScript, Holds, WritesMap, Circular;
    var op := s.net[0].op;
    assert LockView(s.planner.taken, op.key) == LockAfter(s.log, op.key);
    assert !op.Get? ==> KeyLog(s.log, op.key) != [];
  }

  // ---------- Every productive step ----------

  /** What a productive step leaves of the run's circumstances. */
  ghost predicate Advanced(s: State, t: State) {
    && !t.crashed
    && |t.nodes| == 1 && t.nodes[0].available
    && (t.planner.running != [] ==> t.net != [])
    && (t.net != [] && t.net[0].Reply? ==> t.net[0].success)
    && |t.procs| == |s.procs|
    && (forall p :: 0 <= p < |s.procs| ==> t.procs[p].script == s.procs[p].script && t.procs[p].name == s.procs[p].name)
  }

  lemma ReceivedAdvances(s: State, t: State, pre: set<string>)
    requires Orderly(s, pre) && s.net != [] && Received(s, s.net[0], t)
    ensures Advanced(s, t)
  {
    hide Sound, Wired, OfKnown, QueuesOnScript, Counted, Exclusive, KeysOk, Stored, WaitsForLine, Windowed, Applied,
         InOrder, FlightOnScript, Process, InRange, KeyHeld, Circular, CheckWhosWaiting, NextNode, Run,
         ChangeKeyStatus, EndBurst, AllocIndex;
    var m := s.net[0];
    assert |s.nodes| == 1 by { OneNode(s, pre); }
    match m
    case Apply(_, _, _, _) => ApplyAdvances(s, t, pre);
    case Question(_, _, _) => if !m.op.Get? { BracketedHere(s, pre); NeverRefused(s, pre); }
    case Notice(_, change) => ChangeKeepsRunning(s.planner, change);
    case RunOrder(_, _) => RunSends(s.procs[m.who], m.who, m.again);
    case Reply(_, _, op, _, _) =>
    case _ =>
  }

  lemma BracketedHere(s: State, pre: set<string>)
    requires Orderly(s, pre)
    ensures Inv(s) && KeysOk(s.planner.taken, s.log, s.net, pre)
    ensures forall p :: 0 <= p < |s.procs| ==> Windowed(s.procs[p].script)
  {
    hide Inv, KeysOk, Exclusive, Stored, WaitsForLine;
  }

  lemma OneNode(s: State, pre: set<string>)
    requires Orderly(s, pre)
    ensures |s.nodes| == 1 && Sound(s.planner)
  {}

  lemma ApplyAdvances(s: State, t: State, pre: set<string>)
    requires Orderly(s, pre) && s.net != [] && s.net[0].Apply? && Received(s, s.net[0], t)
    ensures Advanced(s, t)
  {
    hide Sound, Wired, OfKnown, QueuesOnScript, Counted, Exclusive, KeysOk, WaitsForLine, Windowed, Applied, InOrder,
         FlightOnScript, Process, Written, Circular;
    NeverFails(s, pre);
  }

  lemma StartAdvances(s: State, order: seq<Esi>, t: State, pre: set<string>)
    requires Orderly(s, pre) && Enabled(s, StartEsi(order)) && Moved(s, StartEsi(order), t)
    ensures Advanced(s, t)
  {
    hide Sound, Wired, OfKnown, QueuesOnScript, Counted, Exclusive, KeysOk, WaitsForLine, Windowed, Applied, InOrder,
         FlightOnScript;
  }

  // ---------- Waiting entries ----------

  /** Whoever waits is blocked, so it is not the ESI in the running queue. */
  lemma WaiterIsBlocked(s: State, a: Alloc) returns (b: Esi)
    requires Inv(s) && a in s.planner.taken && a.status == Waiting
    ensures b in s.planner.blocked && b.id == a.name
    ensures |s.planner.running| == 1 ==> s.planner.running[0].id != a.name
  {
    hide Wired, Placed, OfKnown, QueuesOnScript, Counted, InOrder, FlightOnScript, OneOutstanding, Everyone, Backed,
         SocketsMatch;
    var i :| 0 <= i < |s.planner.taken| && s.planner.taken[i] == a;
    WaiterListed(s.planner.taken, i);
    var j :| 0 <= j < |Ids(s.planner.blocked)| && Ids(s.planner.blocked)[j] == a.name;
    b := s.planner.blocked[j];
    Apart(s.planner);
    assert |s.planner.running| == 1 ==> s.planner.running[0] in s.planner.running;
  }

  lemma WaitersStay(s: State, t: State)
    requires WaitsForLine(s.planner.taken, s.procs, s.log)
    requires forall a :: a in t.planner.taken && a.status == Waiting ==> a in s.planner.taken
    requires t.procs == s.procs && t.log == s.log
    ensures WaitsForLine(t.planner.taken, t.procs, t.log)
  {}

  lemma ReceivedWaits(s: State, t: State, pre: set<string>)
    requires Orderly(s, pre) && s.net != [] && Received(s, s.net[0], t) && !t.crashed
    ensures WaitsForLine(t.planner.taken, t.procs, t.log)
  {
    hide Sound, Wired, Placed, OfKnown, QueuesOnScript, Counted, Exclusive, KeysOk, Stored, WaitsForLine, Windowed,
         Applied, InOrder, FlightOnScript, Process, InRange, KeyHeld, Written, CheckWhosWaiting;
    var m := s.net[0];
    match m
    case RunOrder(_, _) => ReadWaits(s, t, pre);
    case Apply(_, _, _, _) => ApplyWaits(s, t, pre);
    case Question(_, _, _) =>
      if m.op.Get? && KeyHeld(s.planner.taken, m.op.key) { DenialWaits(s, t); } else { WaitersStay(s, t); }
    case Notice(_, change) =>
      ChangeWaiters(s.planner, change);
      assert change.status != Waiting by { NoticeStatus(s, pre); }
      WaitersStay(s, t);
    case _ => WaitersStay(s, t);
  }

  lemma NoticeStatus(s: State, pre: set<string>)
    requires Orderly(s, pre) && s.net != [] && s.net[0].Notice?
    ensures s.net[0].change.status != Waiting
  {
    var w, ops := RunningKnown(s);
  }

  lemma ChangeWaiters(ps: Planner, change: Alloc)
    requires Sound(ps) && ChangeKeyStatus(ps, change).Some?
    ensures change.status != Waiting ==>
              forall a :: a in ChangeKeyStatus(ps, change).value.taken && a.status == Waiting ==> a in ps.taken
  {
    if change.status == Released {
      ReleaseIsFilter(ps, change.key);
      var mid := RemoveHolder(ps.taken, change.key);
      forall a | a in Without(mid, change.key)
        ensures a in ps.taken
      {
        WithoutKeeps(mid, change.key, a);
      }
    }
  }

  lemma ReadWaits(s: State, t: State, pre: set<string>)
    requires Orderly(s, pre) && s.net != [] && s.net[0].RunOrder? && Received(s, s.net[0], t)
    ensures WaitsForLine(t.planner.taken, t.procs, t.log)
  {
    hide Sound, Wired, Placed, OfKnown, QueuesOnScript, Counted, Exclusive, KeysOk, Stored, Windowed, Applied, InOrder,
         FlightOnScript;
    assert forall p :: 0 <= p < |s.procs| ==>
             t.procs[p].script == s.procs[p].script && t.procs[p].name == s.procs[p].name;
  }

  lemma ApplyWaits(s: State, t: State, pre: set<string>)
    requires Orderly(s, pre) && s.net != [] && s.net[0].Apply? && Received(s, s.net[0], t) && !t.crashed
    ensures WaitsForLine(t.planner.taken, t.procs, t.log)
  {
    hide Sound, Wired, Placed, OfKnown, QueuesOnScript, Counted, Exclusive, KeysOk, Stored, Windowed, Applied, InOrder,
         FlightOnScript, Process, Written, InRange;
    NeverFails(s, pre);
    var w, ops := RunningKnown(s);
    forall a, p | a in s.planner.taken && a.status == Waiting && 0 <= p < |s.procs| && s.procs[p].name == a.name
      ensures Applied(t.log, s.procs[p].name) == Applied(s.log, s.procs[p].name)
    {
      var b := WaiterIsBlocked(s, a);
      if t.log != s.log {
        AppliedGrows(s.log, t.log[|s.log|], s.procs[p].name);
      }
    }
  }

  lemma DenialWaits(s: State, t: State)
    requires Inv(s) && WaitsForLine(s.planner.taken, s.procs, s.log)
    requires s.net != [] && s.net[0].Question? && s.net[0].op.Get?
    requires t.planner.taken == s.planner.taken + [Alloc(s.net[0].name, s.net[0].op.key, Waiting)]
    requires t.procs == s.procs && t.log == s.log
    ensures WaitsForLine(t.planner.taken, t.procs, t.log)
  {
    hide Inv, Applied, WaitsForLine;
    var m := s.net[0];
    forall p | 0 <= p < |s.procs| && s.procs[p].name == m.name
      ensures Done(s.log, s.procs[p]) < |s.procs[p].script|
      ensures s.procs[p].script[Done(s.log, s.procs[p])] == Valid(m.op)
    {
      AskerOnLine(s, p);
    }
    OneMoreWaits(s.planner.taken, Alloc(m.name, m.op.key, Waiting), s.procs, s.log);
  }

  lemma OneMoreWaits(taken: seq<Alloc>, w: Alloc, procs: seq<Proc>, log: seq<Event>)
    requires WaitsForLine(taken, procs, log)
    requires forall p :: 0 <= p < |procs| && procs[p].name == w.name ==>
               Done(log, procs[p]) < |procs[p].script| && procs[p].script[Done(log, procs[p])] == Valid(Get(w.key))
    ensures WaitsForLine(taken + [w], procs, log)
  {
    hide Done;
  }

  /** Whoever asks about a line has read it and not carried it out. */
  lemma AskerOnLine(s: State, p: nat)
    requires Inv(s) && s.net != [] && s.net[0].Question? && p < |s.procs| && s.procs[p].name == s.net[0].name
    ensures Done(s.log, s.procs[p]) < |s.procs[p].script|
    ensures s.procs[p].script[Done(s.log, s.procs[p])] == Valid(s.net[0].op)
  {
    hide Sound, Placed, OfKnown, QueuesOnScript, Counted, Applied, InOrder;
    var w, ops := RunningKnown(s);
    IdsDiffer(s.planner.config, p, w);
  }

  /** A productive step of an orderly state leads to an orderly state: nothing is refused, nothing fails, nobody
      crashes. */
  lemma StepAdvances(s: State, step: Step, pre: set<string>)
    requires Orderly(s, pre) && Enabled(s, step) && Productive(step)
    ensures Orderly(Perform(s, step), pre)
  {
    hide Inv, Perform, Exclusive, KeysOk, Stored, WaitsForLine, Windowed, Received, SortResult;
    var t := Perform(s, step);
    StepKeeps(s, step);
    StepForm(s, step);
    if step.Deliver? {
      ReceivedAdvances(s, t, pre);
      ReceivedWaits(s, t, pre);
    } else {
      StartAdvances(s, step.order, t, pre);
      WaitersStay(s, t);
    }
    StepExclusive(s, step);
    StepKeys(s, step, pre);
    StepStored(s, step);
  }

  /** A step that neither delivers nor dispatches, brings nobody and does nothing to the locks keeps the state
      orderly. */
  lemma AsideOrderly(s: State, step: Step, pre: set<string>)
    requires Orderly(s, pre) && Enabled(s, step) && Harmless(s, step)
    requires !Productive(step) && !step.Arrive? && !step.Join?
    ensures Orderly(Perform(s, step), pre)
  {
    hide Inv, Perform, Exclusive, KeysOk, Stored, WaitsForLine, Windowed, KeyHeld, ReleaseKey;
    var t := Perform(s, step);
    StepKeeps(s, step);
    StepForm(s, step);
    StepExclusive(s, step);
    StepKeys(s, step, pre);
    StepStored(s, step);
    if step.ConsoleUnblock? {
      ReleaseFree(s.planner, step.key) by { OneNode(s, pre); }
    }
    WaitersStay(s, t);
  }

  /** Another ESI with a bracketing script may arrive at any time. */
  lemma ArrivalOrderly(s: State, script: seq<Line>, pre: set<string>)
    requires Orderly(s, pre) && Enabled(s, Arrive(script)) && Windowed(script)
    ensures Orderly(Perform(s, Arrive(script)), pre)
  {
    hide Inv, Perform, Exclusive, KeysOk, Stored, Windowed, WaitsForLine;
    StepKeeps(s, Arrive(script));
    StepForm(s, Arrive(script));
    StepExclusive(s, Arrive(script));
    StepKeys(s, Arrive(script), pre);
    StepStored(s, Arrive(script));
    ArrivalWaits(s, script);
  }

  lemma TakenAfterArrival(ps: Planner, socket: nat)
    ensures Register(ps, socket).taken == ps.taken
  {}

  lemma ArrivalWaits(s: State, script: seq<Line>)
    requires Inv(s) && WaitsForLine(s.planner.taken, s.procs, s.log)
    ensures var t := AfterArrival(s, script); WaitsForLine(t.planner.taken, t.procs, t.log)
  {
    hide Inv, Applied, Register;
    var t := AfterArrival(s, script);
    assert t.planner.taken == s.planner.taken by { TakenAfterArrival(s.planner, |s.procs|); }
    forall a, p | a in t.planner.taken && a.status == Waiting && 0 <= p < |t.procs| && t.procs[p].name == a.name
      ensures p < |s.procs| && t.procs[p] == s.procs[p]
    {
      var b := WaiterIsBlocked(s, a);
      NewcomerApart(s, b);
    }
  }

  lemma NewcomerApart(s: State, b: Esi)
    requires Inv(s) && b in s.planner.blocked
    ensures b.id != IdOf(s.planner.config, |s.procs|)
  {
    hide Inv;
    Newcomer(s);
  }

  function AsSet(keys: seq<string>): set<string> {
    set k | k in keys
  }

  lemma {:induction false} PreloadedHolders(keys: seq<string>, key: string)
    requires Distinct(keys)
    ensures Holders(Preloaded(keys), key) == if key in keys then 1 else 0
    ensures Holder(Preloaded(keys), key) == if key in keys then Some("") else None
  {
    if keys != [] {
      assert Preloaded(keys)[1..] == Preloaded(keys[1..]);
      PreloadedHolders(keys[1..], key);
      Head(keys);
    }
  }

  lemma InitLocks(config: Config, keys: seq<string>, nodes: seq<Node>)
    requires Distinct(keys)
    ensures var s := Init(config, keys, nodes);
            Exclusive(s.planner.taken, s.net) && KeysOk(s.planner.taken, s.log, s.net, AsSet(keys))
  {
    forall key
      ensures Holders(Preloaded(keys), key) <= 1
      ensures Holder(Preloaded(keys), key) == if key in keys then Some("") else None
    {
      PreloadedHolders(keys, key);
    }
    assert LockOf([]) == Free;
  }

  lemma InitOrderly(config: Config, keys: seq<string>, maxEntries: nat)
    requires maxEntries > 0 && Distinct(keys)
    ensures Orderly(Init(config, keys, [Node(true, Fresh(maxEntries))]), AsSet(keys))
  {
    hide Exclusive, KeysOk;
    var nodes := [Node(true, Fresh(maxEntries))];
    assert nodes[0].store == Fresh(maxEntries);
    InitInv(config, keys, nodes);
    InitLocks(config, keys, nodes);
    FreshCircular(maxEntries);
  }

  /** A run in which no instance joins, all scripts bracket their keys, and the console does nothing to the locks. */
  ghost predicate Undisturbed(s: State, steps: seq<Step>)
    requires Runs(s, steps)
  {
    && HarmlessRun(s, steps)
    && forall i :: 0 <= i < |steps| ==> !steps[i].Join? && (steps[i].Arrive? ==> Windowed(steps[i].script))
  }

  lemma {:induction false} RunStaysOrderly(s: State, steps: seq<Step>, pre: set<string>)
    requires Orderly(s, pre) && Runs(s, steps) && Undisturbed(s, steps)
    ensures Orderly(After(s, steps), pre)
    decreases |steps|
  {
    hide Orderly, Perform, Enabled, Windowed, KeyHeld;
    if steps != [] {
      if Productive(steps[0]) {
        StepAdvances(s, steps[0], pre);
      } else if steps[0].Arrive? {
        ArrivalOrderly(s, steps[0].script, pre);
      } else {
        AsideOrderly(s, steps[0], pre);
      }
      RunStaysOrderly(Perform(s, steps[0]), steps[1..], pre);
    }
  }

  lemma OrderlyInv(s: State, pre: set<string>)
    requires Orderly(s, pre)
    ensures Inv(s)
  {}
}
