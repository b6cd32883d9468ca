/** Every run ends: a measure that all deliveries and dispatches lower, whatever the scripts, instances, keys and
    history are. */
module Termination {
  import opened Types
  import opened Lists
  import opened PlannerSpec
  import opened PlannerSound
  import opened EsiSpec
  import opened InstanceSpec
  import opened System
  import opened Invariant
  import opened Moves
  import opened OneOrder
  import opened Locks

  /** A step of the planner's running thread that starts somebody, or the delivery of a message. */
  predicate Productive(step: Step) {
    step.StartEsi? || step.Deliver?
  }

  // ---------- The measure ----------

  /** Lines not yet carried out. */
  function Remaining(procs: seq<Proc>, log: seq<Event>): int {
    if procs == [] then 0
    else |procs[0].script| - |Applied(log, procs[0].name)| + Remaining(procs[1..], log)
  }

  /** Carried out operations whose notice or end-of-line report the planner has not handled. */
  function Unhandled(net: seq<Msg>): nat {
    if net == [] then 0
    else match net[0]
      case Reply(_, _, _, _, success) => if success then 2 else 0
      case Notice(_, _) => 2
      case LineOk(_) => 1
      case _ => 0
  }

  /** How far the outstanding order has to go. */
  function Phase(net: seq<Msg>): nat {
    if net == [] then 0
    else match net[0]
      case RunOrder(_, _) => 7
      case Instruction(_, _, _) => 6
      case Question(_, _, _) => 5
      case Permit(_, _, _) => 4
      case Apply(_, _, _, _) => 3
      case Reply(_, _, _, _, _) => 2
      case Notice(_, _) => 1
      case Finished(_) => 1
      case LineOk(_) => 1
  }

  function Work(s: State): int {
    3 * Remaining(s.procs, s.log) + Unhandled(s.net)
  }

  /** The lexicographic measure: work left, ESIs ready or running, ESIs ready, phase of the order. */
  ghost predicate Lower(t: State, s: State) {
    var active, active' := |s.planner.ready| + |s.planner.running|, |t.planner.ready| + |t.planner.running|;
    || Work(t) < Work(s)
    || (Work(t) == Work(s) && active' < active)
    || (Work(t) == Work(s) && active' == active && |t.planner.ready| < |s.planner.ready|)
    || (Work(t) == Work(s) && active' == active && |t.planner.ready| == |s.planner.ready|
        && Phase(t.net) < Phase(s.net))
  }

  lemma {:induction false} RemainingSame(procs: seq<Proc>, procs': seq<Proc>, log: seq<Event>)
    requires |procs| == |procs'|
    requires forall p :: 0 <= p < |procs| ==> procs'[p].script == procs[p].script && procs'[p].name == procs[p].name
    ensures Remaining(procs', log) == Remaining(procs, log)
  {
    if procs != [] {
      RemainingSame(procs[1..], procs'[1..], log);
    }
  }

  lemma {:induction false} RemainingDrops(procs: seq<Proc>, log: seq<Event>, e: Event, w: nat)
    requires w < |procs| && procs[w].name == e.name
    requires forall p :: 0 <= p < |procs| && p != w ==> procs[p].name != e.name
    ensures Remaining(procs, log + [e]) == Remaining(procs, log) - 1
  {
    AppliedGrows(log, e, procs[0].name);
    if w == 0 {
      RemainingUntouched(procs[1..], log, e);
    } else {
      RemainingDrops(procs[1..], log, e, w - 1);
    }
  }

  lemma {:induction false} RemainingUntouched(procs: seq<Proc>, log: seq<Event>, e: Event)
    requires forall p :: 0 <= p < |procs| ==> procs[p].name != e.name
    ensures Remaining(procs, log + [e]) == Remaining(procs, log)
  {
    if procs != [] {
      AppliedGrows(log, e, procs[0].name);
      RemainingUntouched(procs[1..], log, e);
    }
  }

  lemma {:induction false} RemainingNatural(procs: seq<Proc>, log: seq<Event>)
    requires InOrder(procs, log)
    ensures Remaining(procs, log) >= 0
  {
    if procs != [] {
      assert forall p :: 0 <= p < |procs[1..]| ==> procs[1..][p] == procs[p + 1];
      RemainingNatural(procs[1..], log);
    }
  }

  // ---------- Every productive step ----------

  lemma RunOrderLowers(s: State, m: Msg)
    requires m.RunOrder? && s.net != [] && s.net[0] == m && m.who < |s.procs|
    ensures Lower(AfterRunOrder(s, m), s)
  {
    hide Run, Remaining;
    RunSends(s.procs[m.who], m.who, m.again);
    RemainingSame(s.procs, AfterRunOrder(s, m).procs, s.log);
  }

  lemma ApplyLowers(s: State, m: Msg)
    requires Inv(s) && s.net == [m] && CanExecute(s, m)
    ensures Lower(AfterApply(s, m), s)
  {
    hide Sound, Placed, InOrder, OfKnown, QueuesOnScript, FlightOnScript, Counted, Process, Written, Applied, InRange;
    var t := AfterApply(s, m);
    if t.net[0].success {
      var e := t.log[|s.log|];
      assert t.log == s.log + [e];
      forall p | 0 <= p < |s.procs| && p != m.who
        ensures s.procs[p].name != e.name
      {
        IdsDiffer(s.planner.config, p, m.who);
      }
      RemainingDrops(s.procs, s.log, e, m.who);
    }
  }

  lemma ReceivedLowers(s: State, t: State)
    requires Inv(s) && s.net != [] && Received(s, s.net[0], t) && !t.crashed
    ensures Lower(t, s) && |t.procs| == |s.procs|
  {
    hide Sound, Wired, Placed, InOrder, OfKnown, QueuesOnScript, FlightOnScript, Counted, Process, InRange, KeyHeld,
         NextNode, Remaining, Run, ChangeKeyStatus, EndBurst, AllocIndex, Written;
    var m := s.net[0];
    assert s.net == if m.Notice? then [m, LineOk(m.who)] else [m];
    match m
    case RunOrder(_, _) => RunOrderLowers(s, m);
    case Apply(_, _, _, _) => ApplyLowers(s, m);
    case _ =>
  }

  lemma StartLowers(s: State, order: seq<Esi>, t: State)
    requires Enabled(s, StartEsi(order)) && Moved(s, StartEsi(order), t)
    ensures Lower(t, s) && |t.procs| == |s.procs|
  {
    hide Remaining;
    assert |order| == |multiset(order)| == |multiset(s.planner.ready)| == |s.planner.ready| by {
      assert multiset(order) == multiset(s.planner.ready);
    }
  }

  /** A delivery or dispatch that does not crash lowers the measure. */
  lemma StepLowers(s: State, step: Step)
    requires Inv(s) && Enabled(s, step) && Productive(step)
    ensures |Perform(s, step).procs| == |s.procs|
    ensures !Perform(s, step).crashed ==> Lower(Perform(s, step), s)
  {
    hide Sound, Wired, Placed, InOrder, OfKnown, QueuesOnScript, FlightOnScript, Counted, OneOutstanding, Perform,
         Received, Lower;
    var t := Perform(s, step);
    StepForm(s, step);
    if step.StartEsi? {
      StartLowers(s, step.order, t);
    } else if t.crashed {
      CrashOnly(s, t);
    } else {
      ReceivedLowers(s, t);
    }
  }

  // ---------- Finitely many steps ----------

  /** A number written with digits b, c < n and d < 8 below a. */
  function Mixed(n: int, a: int, b: int, c: int, d: int): int {
    ((a * n + b) * n + c) * 8 + d
  }

  /** The measure as one number. */
  function Fuel(s: State): int {
    Mixed(|s.procs| + 1, Work(s), |s.planner.ready| + |s.planner.running|, |s.planner.ready|, Phase(s.net))
  }

  lemma MixedDrops(n: int, a: int, b: int, c: int, d: int, a': int, b': int, c': int, d': int)
    requires 0 <= b < n && 0 <= c < n && 0 <= d < 8 && 0 <= b' < n && 0 <= c' < n && 0 <= d' < 8
    requires || a' < a || (a' == a && b' < b) || (a' == a && b' == b && c' < c)
             || (a' == a && b' == b && c' == c && d' < d)
    ensures Mixed(n, a', b', c', d') < Mixed(n, a, b, c, d)
  {
    var x, x' := a * n + b, a' * n + b';
    if a' < a { Smaller(n, a, a', b, b'); }
    var y, y' := x * n + c, x' * n + c';
    if x' < x { Smaller(n, x, x', c, c'); }
  }

  lemma MixedNatural(n: int, a: int, b: int, c: int, d: int)
    requires 0 <= a && 0 <= b < n && 0 <= c && 0 <= d
    ensures 0 <= Mixed(n, a, b, c, d)
  {
    assert a * n >= 0;
    assert (a * n + b) * n >= 0;
  }

  lemma Smaller(n: int, a: int, a': int, b: int, b': int)
    requires 0 <= b && 0 <= b' < n && a' < a
    ensures a' * n + b' < a * n + b
  {
    assert (a' + 1) * n <= a * n;
    assert (a' + 1) * n == a' * n + n;
  }

  lemma QueueBounds(s: State)
    requires Inv(s)
    ensures |s.planner.ready| + |s.planner.running| + |s.planner.blocked| + |s.planner.finished| == |s.procs|
    ensures Remaining(s.procs, s.log) >= 0
  {
    hide Sound, Placed, OfKnown, QueuesOnScript, Counted, FlightOnScript, OneOutstanding;
    Conservation(s.planner);
    RemainingNatural(s.procs, s.log);
  }

  lemma FuelDrops(s: State, t: State)
    requires Inv(s) && Inv(t) && Lower(t, s) && |t.procs| == |s.procs|
    ensures 0 <= Fuel(t) < Fuel(s)
  {
    hide Inv, Remaining, Mixed;
    QueueBounds(s);
    FuelNatural(t);
    QueueBounds(t);
    MixedDrops(|s.procs| + 1, Work(s), |s.planner.ready| + |s.planner.running|, |s.planner.ready|, Phase(s.net),
                Work(t), |t.planner.ready| + |t.planner.running|, |t.planner.ready|, Phase(t.net));
  }

  lemma FuelNatural(s: State)
    requires Inv(s)
    ensures Fuel(s) >= 0
  {
    hide Inv, Remaining, Mixed;
    QueueBounds(s);
    MixedNatural(|s.procs| + 1, Work(s), |s.planner.ready| + |s.planner.running|, |s.planner.ready|, Phase(s.net));
  }

  // ---------- Whole runs ----------

  /** A step that neither delivers nor dispatches, brings no ESI and wakes none: a sorting turn, an instance that
      joins, pause, resume, `block`, or an `unblock` of a key that nobody holds. */
  predicate Idle(s: State, step: Step) {
    !Productive(step) && !step.Arrive? && (step.ConsoleUnblock? ==> !KeyHeld(s.planner.taken, step.key))
  }

  /** Such steps leave the measure alone. */
  lemma IdleFuel(s: State, step: Step)
    requires Inv(s) && Enabled(s, step) && Idle(s, step)
    ensures Fuel(Perform(s, step)) == Fuel(s)
  {
    hide Wired, Placed, InOrder, OfKnown, QueuesOnScript, FlightOnScript, Counted, OneOutstanding, Sound, Perform,
         KeyHeld, ReleaseKey;
    StepForm(s, step);
    if step.ConsoleUnblock? {
      ReleaseFree(s.planner, step.key);
    } else if step.Tick? {
      assert |step.order| == |multiset(step.order)| == |multiset(s.planner.ready)| == |s.planner.ready| by {
        assert multiset(step.order) == multiset(s.planner.ready);
      }
    }
  }

  /** The number of deliveries and dispatches. */
  function ProductiveIn(steps: seq<Step>): nat {
    if steps == [] then 0 else (if Productive(steps[0]) then 1 else 0) + ProductiveIn(steps[1..])
  }

  /** A run of deliveries, dispatches and idle steps. */
  predicate NobodyArrives(s: State, steps: seq<Step>)
    requires Runs(s, steps)
    decreases |steps|
  {
    steps == []
    || ((Productive(steps[0]) || Idle(s, steps[0])) && NobodyArrives(Perform(s, steps[0]), steps[1..]))
  }

  /** A crash is the delivery of a message, and nothing follows it. */
  lemma CrashEnds(s: State, step: Step, more: seq<Step>)
    requires Inv(s) && Enabled(s, step) && Perform(s, step).crashed && Runs(Perform(s, step), more)
    ensures more == [] && Fuel(s) >= 1 && Productive(step)
  {
    hide Sound, Wired, Placed, InOrder, OfKnown, QueuesOnScript, FlightOnScript, Counted, Perform, Received, Mixed,
         Remaining;
    var t := Perform(s, step);
    StepForm(s, step);
    if step.Deliver? {
      CrashOnly(s, t);
    }
    FuelPositive(s);
  }

  lemma FuelPositive(s: State)
    requires Inv(s) && Phase(s.net) >= 1
    ensures Fuel(s) >= 1
  {
    hide Inv, Remaining;
    QueueBounds(s);
    MixedNatural(|s.procs| + 1, Work(s), |s.planner.ready| + |s.planner.running|, |s.planner.ready|, Phase(s.net) - 1);
  }

  /** Such a run holds at most as many productive steps as the measure of its first state says. */
  lemma {:induction false} RunsAreFinite(s: State, steps: seq<Step>)
    requires Inv(s) && Runs(s, steps) && NobodyArrives(s, steps)
    ensures ProductiveIn(steps) <= Fuel(s)
    decreases |steps|
  {
    hide Inv, Perform, Enabled, Fuel, Lower, Idle;
    if steps == [] {
      FuelNatural(s);
    } else {
      var t := Perform(s, steps[0]);
      StepKeeps(s, steps[0]);
      if t.crashed {
        CrashEnds(s, steps[0], steps[1..]);
      } else {
        if Productive(steps[0]) {
          StepLowers(s, steps[0]);
          FuelDrops(s, t);
        } else {
          IdleFuel(s, steps[0]);
        }
        RunsAreFinite(t, steps[1..]);
      }
    }
  }
}
