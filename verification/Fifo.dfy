/** The order in which FIFO serves. */
module Fifo {
  import opened Types
  import opened PlannerSpec
  import opened WakeUp
  import opened PlannerSound
  import opened EsiSpec
  import opened InstanceSpec
  import opened System
  import opened Invariant
  import opened Moves
  import opened OneOrder

  // ---------- The mark for repetition ----------

  /** Of the ready ESIs exactly those that ran before are marked for repetition; the blocked ones all ran before. */
  ghost predicate MarksRight(s: State) {
    && (forall e, p :: e in s.planner.ready && Mine(s.procs, e, p) ==>
          p < |s.obs| && (e.redo <==> s.obs[p].bursts != []))
    && (forall e, p :: e in s.planner.blocked && Mine(s.procs, e, p) ==> p < |s.obs| && s.obs[p].bursts != [])
  }

  lemma RunOrderMarks(s: State, t: State)
    requires MarksRight(s) && |t.procs| == |s.procs| && |t.obs| == |s.obs|
    requires forall p :: 0 <= p < |s.procs| ==> t.procs[p].name == s.procs[p].name
    requires forall p :: 0 <= p < |s.obs| ==> t.obs[p].bursts == s.obs[p].bursts
    requires forall e :: e in t.planner.ready ==> e in s.planner.ready
    requires t.planner.blocked == s.planner.blocked
    ensures MarksRight(t)
  {
    assert forall e, p :: Mine(t.procs, e, p) ==> Mine(s.procs, e, p);
  }

  /** The running ESI's burst ends, in the blocked or the finished queue. */
  lemma BurstMarks(s: State, t: State, w: nat)
    requires Inv(s) && MarksRight(s) && RunningIs(s, w) && w < |s.obs|
    requires t.procs == s.procs && t.obs == s.obs[w := CloseBurst(s.obs[w])] && t.planner.ready == s.planner.ready
    requires var e := EndBurst(s.planner.config, s.planner.running[0]);
             t.planner.blocked == s.planner.blocked || t.planner.blocked == s.planner.blocked + [e]
    ensures MarksRight(t)
  {
    hide Sound, Placed, FlightOnScript, OneOutstanding, QueuesOnScript, InOrder, OfKnown, Counted;
    Apart(s.planner);
    assert s.planner.running[0] in s.planner.running;
    forall e, p | (e in s.planner.ready || e in s.planner.blocked) && Mine(s.procs, e, p)
      ensures p != w
    {}
    forall p | Mine(s.procs, EndBurst(s.planner.config, s.planner.running[0]), p)
      ensures p == w
    {
      IdsDiffer(s.planner.config, p, w);
    }
  }

  lemma ReleaseMarks(s: State, t: State, key: string)
    requires Inv(s) && MarksRight(s) && t.procs == s.procs && t.obs == s.obs
    requires ReleaseKey(s.planner, key).Some? && t.planner == ReleaseKey(s.planner, key).value
    ensures MarksRight(t)
  {
    hide Sound, Wired, Placed, InOrder, OfKnown, QueuesOnScript, FlightOnScript, OneOutstanding, Counted, ReleaseKey;
    ReleasedQueues(s.planner, key);
    forall e, p | e in t.planner.ready && Mine(t.procs, e, p)
      ensures p < |s.obs| && (e.redo <==> s.obs[p].bursts != [])
    {
      if e !in s.planner.ready {
        var b :| b in s.planner.blocked && e == b.(redo := true);
        assert Mine(s.procs, b, p);
      }
    }
  }

  lemma ArrivalMarks(s: State, script: seq<Line>)
    requires Inv(s) && MarksRight(s)
    ensures MarksRight(AfterArrival(s, script))
  {
    hide Sound, Placed, InOrder, OfKnown, QueuesOnScript, FlightOnScript, OneOutstanding, Applied;
    var t := AfterArrival(s, script);
    var e := NewEsi(s.planner.config, s.planner.counter);
    Newcomer(s);
    forall p | Mine(t.procs, e, p)
      ensures p == |s.procs|
    {
      IdsDiffer(s.planner.config, p, |s.procs|);
    }
    forall f, p | (f in s.planner.ready || f in s.planner.blocked) && Mine(t.procs, f, p)
      ensures p < |s.procs| && Mine(s.procs, f, p) && t.obs[p] == s.obs[p]
    {}
  }

  lemma StepMarks(s: State, step: Step)
    requires Inv(s) && Enabled(s, step) && MarksRight(s)
    ensures MarksRight(Perform(s, step))
  {
    hide Sound, Wired, Placed, InOrder, OfKnown, QueuesOnScript, FlightOnScript, Counted, Perform, Process, InRange,
         CheckWhosWaiting, KeyHeld, Written, NextNode, MarksRight, Register;
    var t := Perform(s, step);
    StepForm(s, step);
    if step.Deliver? && t != s.(crashed := true) {
      var m := s.net[0];
      if m.Finished? || (m.Question? && m.op.Get? && KeyHeld(s.planner.taken, m.op.key)) {
        BurstMarks(s, t, m.who);
      } else if m.Notice? && m.change.status == Released {
        ReleaseMarks(s, t, m.change.key);
      } else {
        RunOrderMarks(s, t);
      }
    } else if step.Arrive? {
      ArrivalMarks(s, step.script);
    } else if step.ConsoleUnblock? {
      ReleaseMarks(s, t, step.key);
    } else {
      RunOrderMarks(s, t);
    }
  }

  // ---------- The ready queue under FIFO ----------

  /** ESI e registered before f. */
  predicate Earlier(procs: seq<Proc>, e: Esi, f: Esi) {
    exists p, q :: 0 <= p < q < |procs| && Mine(procs, e, p) && Mine(procs, f, q)
  }

  /** In front the n ESIs that never ran, the latest first, and behind them those that were woken. */
  ghost predicate InFront(ready: seq<Esi>, procs: seq<Proc>, n: int) {
    && 0 <= n <= |ready|
    && (forall i :: 0 <= i < n ==> !ready[i].redo)
    && (forall i :: n <= i < |ready| ==> ready[i].redo)
    && (forall i, j :: 0 <= i < j < n ==> Earlier(procs, ready[j], ready[i]))
  }

  ghost predicate NewestFirst(s: State) {
    exists n :: InFront(s.planner.ready, s.procs, n)
  }

  lemma EarlierStays(procs: seq<Proc>, procs': seq<Proc>, e: Esi, f: Esi)
    requires Earlier(procs, e, f) && |procs| <= |procs'|
    requires forall p :: 0 <= p < |procs| ==> procs'[p].name == procs[p].name
    ensures Earlier(procs', e, f)
  {
    var p, q :| 0 <= p < q < |procs| && Mine(procs, e, p) && Mine(procs, f, q);
    assert Mine(procs', e, p) && Mine(procs', f, q);
  }

  /** Woken ESIs go to the end. */
  lemma WokenBehind(s: State, t: State, woken: seq<Esi>)
    requires NewestFirst(s) && t.planner.ready == s.planner.ready + woken && forall e :: e in woken ==> e.redo
    requires |t.procs| == |s.procs| && forall p :: 0 <= p < |s.procs| ==> t.procs[p].name == s.procs[p].name
    ensures NewestFirst(t)
  {
    var n :| InFront(s.planner.ready, s.procs, n);
    forall i, j | 0 <= i < j < n
      ensures Earlier(t.procs, t.planner.ready[j], t.planner.ready[i])
    {
      EarlierStays(s.procs, t.procs, s.planner.ready[j], s.planner.ready[i]);
    }
    assert InFront(t.planner.ready, t.procs, n);
  }

  lemma ReleaseOrder(s: State, t: State, key: string)
    requires Inv(s) && NewestFirst(s) && t.procs == s.procs
    requires ReleaseKey(s.planner, key).Some? && t.planner == ReleaseKey(s.planner, key).value
    ensures NewestFirst(t)
  {
    hide Sound, Wired, Placed, InOrder, OfKnown, QueuesOnScript, FlightOnScript, OneOutstanding, Counted, NewestFirst;
    ReleaseIsFilter(s.planner, key);
    WokenBehind(s, t, Redo(Pick(s.planner.blocked, Waiters(RemoveHolder(s.planner.taken, key), key))));
  }

  /** A newcomer goes to the front. */
  lemma ArrivalOrder(s: State, script: seq<Line>)
    requires Inv(s) && NewestFirst(s)
    ensures NewestFirst(AfterArrival(s, script))
  {
    hide Inv, Earlier, Register;
    var t := AfterArrival(s, script);
    var queue, ready := s.planner.ready, t.planner.ready;
    assert ready == [NewEsi(s.planner.config, s.planner.counter)] + queue by { NewInFront(s.planner, |s.procs|); }
    var n :| InFront(queue, s.procs, n);
    forall i, j | 0 <= i < j < n + 1
      ensures Earlier(t.procs, ready[j], ready[i])
    {
      assert ready[j] == queue[j - 1];
      if i == 0 {
        NewcomerLater(s, script, queue[j - 1]);
      } else {
        EarlierStays(s.procs, t.procs, queue[j - 1], queue[i - 1]);
      }
    }
    assert InFront(ready, t.procs, n + 1);
  }

  lemma NewInFront(ps: Planner, socket: nat)
    ensures Register(ps, socket).ready == [NewEsi(ps.config, ps.counter)] + ps.ready
  {}

  lemma NewcomerLater(s: State, script: seq<Line>, f: Esi)
    requires Inv(s) && f in s.planner.ready
    ensures Earlier(AfterArrival(s, script).procs, f, NewEsi(s.planner.config, s.planner.counter))
  {
    hide Sound, Placed, InOrder, OfKnown, QueuesOnScript, FlightOnScript, OneOutstanding, Counted;
    var t := AfterArrival(s, script);
    var p := OwnerOf(s, f);
    assert Mine(t.procs, f, p) && Mine(t.procs, NewEsi(s.planner.config, s.planner.counter), |s.procs|);
  }

  lemma DispatchOrder(s: State, t: State)
    requires NewestFirst(s) && s.planner.ready != [] && t.planner.ready == s.planner.ready[1..] && t.procs == s.procs
    ensures NewestFirst(t)
  {
    var n :| InFront(s.planner.ready, s.procs, n);
    assert InFront(t.planner.ready, t.procs, if n == 0 then 0 else n - 1);
  }

  lemma StepOrder(s: State, step: Step)
    requires Inv(s) && Enabled(s, step) && s.planner.config.algorithm == FIFO && NewestFirst(s)
    ensures NewestFirst(Perform(s, step))
  {
    hide Sound, Wired, Placed, InOrder, OfKnown, QueuesOnScript, FlightOnScript, Counted, Perform, Process, InRange,
         CheckWhosWaiting, KeyHeld, Written, NextNode, NewestFirst;
    var t := Perform(s, step);
    StepForm(s, step);
    assert s.planner.ready + [] == s.planner.ready;
    match step
    case Deliver(_) =>
      if s.net[0].Notice? && s.net[0].change.status == Released && !t.crashed {
        ReleaseOrder(s, t, s.net[0].change.key);
      } else {
        WokenBehind(s, t, []);
      }
    case ConsoleUnblock(key) => ReleaseOrder(s, t, key);
    case Arrive(script) => ArrivalOrder(s, script);
    case StartEsi(_) => DispatchOrder(s, t);
    case _ => WokenBehind(s, t, []);
  }

  // ---------- Whole runs ----------

  lemma ConfigStays(s: State, step: Step)
    requires Inv(s) && Enabled(s, step)
    ensures Perform(s, step).planner.config == s.planner.config
  {
    hide Sound, Wired, Placed, InOrder, OfKnown, QueuesOnScript, FlightOnScript, Counted, Perform, Process, InRange,
         CheckWhosWaiting, KeyHeld, Written, NextNode;
    StepForm(s, step);
    if step.ConsoleUnblock? {
      ReleaseIsFilter(s.planner, step.key);
    } else if step.Deliver? && s.net[0].Notice? && s.net[0].change.status == Released {
      ReleaseIsFilter(s.planner, s.net[0].change.key);
    }
  }

  lemma {:induction false} RunOrders(s: State, steps: seq<Step>)
    requires Inv(s) && Runs(s, steps) && MarksRight(s)
    requires s.planner.config.algorithm == FIFO ==> NewestFirst(s)
    ensures MarksRight(After(s, steps)) && After(s, steps).planner.config == s.planner.config
    ensures s.planner.config.algorithm == FIFO ==> NewestFirst(After(s, steps))
    decreases |steps|
  {
    hide Inv, Perform, Enabled, MarksRight, NewestFirst;
    if steps != [] {
      StepKeeps(s, steps[0]);
      StepMarks(s, steps[0]);
      ConfigStays(s, steps[0]);
      if s.planner.config.algorithm == FIFO {
        StepOrder(s, steps[0]);
      }
      RunOrders(Perform(s, steps[0]), steps[1..]);
    }
  }

  // ---------- Overtaking ----------

  /** The ESI overtakes a ready one that registered before it and never ran. */
  ghost predicate Overtakes(s: State, e: Esi) {
    exists f :: f in s.planner.ready && !f.redo && Earlier(s.procs, f, e)
  }

  /** Of the ESIs that never ran, the next dispatch starts the latest; so it overtakes exactly if there are two. */
  lemma FirstOvertakesIff(s: State)
    requires Inv(s) && NewestFirst(s) && s.planner.ready != []
    ensures Overtakes(s, s.planner.ready[0]) <==> |s.planner.ready| >= 2 && !s.planner.ready[1].redo
  {
    hide Placed, InOrder, OfKnown, QueuesOnScript, FlightOnScript, OneOutstanding, Counted, Sound;
    var ready := s.planner.ready;
    var n :| InFront(ready, s.procs, n);
    if |ready| >= 2 && !ready[1].redo {
      assert ready[1] in ready && Earlier(s.procs, ready[1], ready[0]);
    }
    if f :| f in ready && !f.redo && Earlier(s.procs, f, ready[0]) {
      var j :| 0 <= j < |ready| && ready[j] == f;
      if j == 0 {
        EarlierNotSelf(s, f);
      }
    }
  }

  lemma EarlierNotSelf(s: State, e: Esi)
    requires Wired(s.planner, s.procs)
    ensures !Earlier(s.procs, e, e)
  {
    forall p, q | 0 <= p < q < |s.procs| && Mine(s.procs, e, p) && Mine(s.procs, e, q)
      ensures false
    {
      IdsDiffer(s.planner.config, p, q);
    }
  }
}
