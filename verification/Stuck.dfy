/** States in which an ESI keeps the processor and nothing is in flight. */
module Stuck {
  import opened Types
  import opened Lists
  import opened PlannerSpec
  import opened PlannerSound
  import opened InstanceSpec
  import opened System
  import opened Invariant
  import opened Moves
  import opened OneOrder
  import opened Termination

  predicate StandsStill(s: State) {
    s.net == [] && s.planner.running != []
  }

  /** The planner refuses a SET or STORE: the first holder of its key is somebody else. */
  predicate Refused(s: State, m: Msg) {
    && m.Question? && !m.op.Get? && KeyHeld(s.planner.taken, m.op.key)
    && s.planner.taken[AllocIndex(s.planner.taken, m.op.key, Blocked)].name != m.name
  }

  /** A SET or STORE arrives at an instance that does not have its key. */
  predicate Lacking(s: State, m: Msg) {
    m.Apply? && !m.op.Get? && m.node < |s.nodes| && !Has(s.nodes[m.node].store, m.op.key)
  }

  /** The step delivers a question that is refused, or an operation to an instance that lacks its key. */
  predicate Strands(s: State, step: Step) {
    step.Deliver? && s.net != [] && (Refused(s, s.net[0]) || Lacking(s, s.net[0]))
  }

  /** The system stands still, or will when the report of a failure is delivered. */
  predicate Lost(s: State) {
    StandsStill(s) || (s.net != [] && s.net[0].Reply? && !s.net[0].success)
  }

  lemma SucceedsIff(inst: Instance, op: Op)
    requires InRange(inst)
    ensures Process(inst, op).success <==> op.Get? || Has(inst, op.key)
  {}

  /** Only a refusal, or an instance that lacks the key, brings the system there. */
  lemma LostIff(s: State, step: Step)
    requires Inv(s) && Enabled(s, step) && !Lost(s)
    ensures Lost(Perform(s, step)) <==> Strands(s, step)
  {
    hide Sound, Wired, Placed, InOrder, OfKnown, QueuesOnScript, FlightOnScript, Counted, Perform, CheckWhosWaiting,
         KeyHeld, Written, NextNode, Process, Has, InRange;
    StepForm(s, step);
    if step.Deliver? && s.net[0].Apply? && CanExecute(s, s.net[0]) {
      SucceedsIff(s.nodes[s.net[0].node].store, s.net[0].op);
    } else if step.ConsoleUnblock? {
      ReleaseKeepsRunning(s.planner, step.key);
    }
  }

  /** Nothing leads out of a stand: sorting turns, arrivals and console commands go on, but nothing is delivered or
      dispatched, and the ESI keeps the processor. */
  lemma StillStands(s: State, step: Step)
    requires Inv(s) && Enabled(s, step) && StandsStill(s)
    ensures !Productive(step)
    ensures var t := Perform(s, step); t.net == [] && t.planner.running == s.planner.running && t.log == s.log
  {
    hide Sound, Wired, Placed, InOrder, OfKnown, QueuesOnScript, FlightOnScript, Counted, Perform, CheckWhosWaiting;
    StepForm(s, step);
    if step.ConsoleUnblock? {
      ReleaseKeepsRunning(s.planner, step.key);
    }
  }

  lemma {:induction false} StandsForever(s: State, steps: seq<Step>)
    requires Inv(s) && Runs(s, steps) && StandsStill(s)
    ensures StandsStill(After(s, steps)) && ProductiveIn(steps) == 0
    ensures After(s, steps).planner.running == s.planner.running && After(s, steps).log == s.log
    decreases |steps|
  {
    hide Inv, Perform, Enabled;
    if steps != [] {
      StepKeeps(s, steps[0]);
      StillStands(s, steps[0]);
      StandsForever(Perform(s, steps[0]), steps[1..]);
    }
  }

  /** The report of a failure is the last message that is delivered. */
  lemma StillLost(s: State, step: Step)
    requires Inv(s) && Enabled(s, step) && Lost(s) && !StandsStill(s)
    ensures var t := Perform(s, step);
            && t.planner.running == s.planner.running && t.log == s.log
            && if Productive(step) then StandsStill(t) else Lost(t) && !StandsStill(t)
  {
    hide Sound, Wired, Placed, InOrder, OfKnown, QueuesOnScript, FlightOnScript, Counted, Perform, CheckWhosWaiting;
    StepForm(s, step);
    if step.ConsoleUnblock? {
      ReleaseKeepsRunning(s.planner, step.key);
    }
  }

  lemma {:induction false} LostForever(s: State, steps: seq<Step>)
    requires Inv(s) && Runs(s, steps) && Lost(s)
    ensures Lost(After(s, steps)) && ProductiveIn(steps) <= 1
    ensures After(s, steps).planner.running == s.planner.running && After(s, steps).log == s.log
    decreases |steps|
  {
    hide Inv, Perform, Enabled, StandsStill;
    if StandsStill(s) {
      StandsForever(s, steps);
    } else if steps != [] {
      StepKeeps(s, steps[0]);
      StillLost(s, steps[0]);
      if Productive(steps[0]) {
        StandsForever(Perform(s, steps[0]), steps[1..]);
      } else {
        LostForever(Perform(s, steps[0]), steps[1..]);
      }
    }
  }

  /** Some step of the run delivers a question that is refused, or an operation to an instance that lacks its key. */
  predicate EverStrands(s: State, steps: seq<Step>)
    requires Runs(s, steps)
    decreases |steps|
  {
    steps != [] && (Strands(s, steps[0]) || EverStrands(Perform(s, steps[0]), steps[1..]))
  }

  /** A run loses the system if and only if a SET or STORE was refused or sent to an instance without its key. */
  lemma {:induction false} RunLostIff(s: State, steps: seq<Step>)
    requires Inv(s) && Runs(s, steps) && !Lost(s)
    ensures Lost(After(s, steps)) <==> EverStrands(s, steps)
    decreases |steps|
  {
    hide Inv, Perform, Enabled, Lost, Strands;
    if steps != [] {
      StepKeeps(s, steps[0]);
      LostIff(s, steps[0]);
      var t := Perform(s, steps[0]);
      if Lost(t) {
        LostForever(t, steps[1..]);
      } else {
        RunLostIff(t, steps[1..]);
      }
    }
  }
}
