/** Runs put together from shorter ones. */
module Chains {
  import opened System

  lemma {:induction false} RunThen(s: State, first: seq<Step>, second: seq<Step>)
    requires Runs(s, first) && Runs(After(s, first), second)
    ensures Runs(s, first + second) && After(s, first + second) == After(After(s, first), second)
    decreases |first|
  {
    hide Enabled, Perform;
    if first == [] {
      assert first + second == second;
    } else {
      RunThen(Perform(s, first[0]), first[1..], second);
      assert (first + second)[1..] == first[1..] + second;
    }
  }

  lemma OneStep(s: State, step: Step)
    requires Enabled(s, step)
    ensures Runs(s, [step]) && After(s, [step]) == Perform(s, step)
  {
    hide Enabled, Perform;
    assert [step][1..] == [];
  }

  /** One more step at the end of a run. */
  lemma StepMore(s: State, steps: seq<Step>, step: Step)
    requires Runs(s, steps) && Enabled(After(s, steps), step)
    ensures Runs(s, steps + [step]) && After(s, steps + [step]) == Perform(After(s, steps), step)
  {
    hide Enabled, Perform;
    OneStep(After(s, steps), step);
    RunThen(s, steps, [step]);
  }
}
