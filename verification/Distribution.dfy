/** Over whole runs the instances get the permitted operations in turn. */
module Distribution {
  import opened PlannerSound
  import opened InstanceSpec
  import opened InstanceLaws
  import opened EquitableLoad
  import CoordinatorSpec
  import opened System
  import opened Invariant
  import opened Moves
  import opened OneOrder

  /** The step passes a permitted operation on to instance n. */
  predicate PassesTo(s: State, step: Step, n: int) {
    step.Deliver? && s.net != [] && s.net[0].Permit? && NextNode(s) == n
  }

  /** How many operations a run passes on to instance n. */
  function PassedTo(s: State, steps: seq<Step>, n: nat): nat
    requires Runs(s, steps)
    decreases |steps|
  {
    if steps == [] then 0
    else (if PassesTo(s, steps[0], n) then 1 else 0) + PassedTo(Perform(s, steps[0]), steps[1..], n)
  }

  predicate SomeFree(free: seq<bool>) {
    exists i :: 0 <= i < |free| && free[i]
  }

  /** Only a permission moves the last used index, to the instance it is passed on to. */
  lemma StepPasses(s: State, step: Step)
    requires Inv(s) && Enabled(s, step) && !step.Join? && SomeFree(Availability(s.nodes))
    ensures Availability(Perform(s, step).nodes) == Availability(s.nodes)
    ensures Perform(s, step).lastUsed ==
            if step.Deliver? && s.net != [] && s.net[0].Permit? then NextNode(s) else s.lastUsed
  {
    hide Sound, Wired, InOrder, OfKnown, QueuesOnScript, FlightOnScript, Counted, Perform, Process, Circular, Written,
         NextNode, InRange;
    StepForm(s, step);
    var i :| 0 <= i < |s.nodes| && Availability(s.nodes)[i];
    assert s.nodes[i].available;
  }

  lemma LastInRange(s: State)
    requires Inv(s)
    ensures -1 <= s.lastUsed < |s.nodes|
  {
    PlacedBounds(s);
  }

  /** A run goes on with the turns where it found them. */
  lemma {:induction false} RunPasses(s: State, steps: seq<Step>, last: int, m: nat) returns (k: nat)
    requires Inv(s) && Runs(s, steps) && forall i :: 0 <= i < |steps| ==> !steps[i].Join?
    requires -1 <= last < |s.nodes| && SomeFree(Availability(s.nodes))
    requires s.lastUsed == LastAfter(Availability(s.nodes), last, m)
    ensures forall n: nat :: Turns(Availability(s.nodes), last, k, n) ==
                             Turns(Availability(s.nodes), last, m, n) + PassedTo(s, steps, n)
    decreases |steps|
  {
    hide Inv, Perform, Enabled, NextNode, Availability;
    k := m;
    if steps != [] {
      var free, t := Availability(s.nodes), Perform(s, steps[0]);
      StepKeeps(s, steps[0]);
      StepPasses(s, steps[0]);
      var passes := steps[0].Deliver? && s.net != [] && s.net[0].Permit?;
      NextIsChosen(s);
      k := RunPasses(t, steps[1..], last, if passes then m + 1 else m);
    }
  }

  lemma NextIsChosen(s: State)
    requires Inv(s)
    ensures -1 <= s.lastUsed < |s.nodes| == |Availability(s.nodes)|
    ensures NextNode(s) == CoordinatorSpec.Choose(Availability(s.nodes), s.lastUsed)
  {
    LastInRange(s);
  }
}
