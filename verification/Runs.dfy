/** Putting runs of the step machine together. */
module Runs {
  import opened Actors
  import opened RuntimeModel

  lemma {:induction false} RunThen(h: Behaviour, s: World, steps: seq<Step>, s1: World, more: seq<Step>, s2: World)
    requires Run(h, s, steps, s1) && Run(h, s1, more, s2)
    ensures Run(h, s, steps + more, s2)
    decreases |steps|
  {
    hide Enabled, Apply;
    if steps == [] {
      assert steps + more == more;
    } else {
      assert (steps + more)[1..] == steps[1..] + more;
      RunThen(h, Apply(h, s, steps[0]), steps[1..], s1, more, s2);
    }
  }

  lemma RunNothing(h: Behaviour, s: World)
    ensures Run(h, s, [], s)
  {
  }

  lemma RunSnoc(h: Behaviour, s: World, steps: seq<Step>, s1: World, step: Step)
    requires Run(h, s, steps, s1) && Enabled(s1, step)
    ensures Run(h, s, steps + [step], Apply(h, s1, step))
  {
    hide Enabled, Apply;
    assert [step][1..] == [];
    RunThen(h, s, steps, s1, [step], Apply(h, s1, step));
  }
}
