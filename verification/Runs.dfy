/** Putting runs together, step by step and end to end. */
module Runs {
  import opened Schedule
  import opened Protocol

  lemma StepThen(site: Site, w: World, step: Step, rest: seq<Step>)
    requires Enabled(site, w, step) && Possible(site, Apply(site, w, step), rest)
    ensures Possible(site, w, [step] + rest)
    ensures After(site, w, [step] + rest) == After(site, Apply(site, w, step), rest)
  {
    assert ([step] + rest)[1..] == rest;
  }

  lemma OneStep(site: Site, w: World, step: Step)
    requires Enabled(site, w, step)
    ensures Possible(site, w, [step]) && After(site, w, [step]) == Apply(site, w, step)
  {
    StepThen(site, w, step, []);
    assert [step] + [] == [step];
  }

  lemma TwoSteps(site: Site, w: World, first: Step, w': World, second: Step)
    requires Enabled(site, w, first) && Apply(site, w, first) == w' && Enabled(site, w', second)
    ensures Possible(site, w, [first, second]) && After(site, w, [first, second]) == Apply(site, w', second)
  {
    OneStep(site, w', second);
    StepThen(site, w, first, [second]);
    assert [first] + [second] == [first, second];
  }

  lemma {:induction false} RunThen(site: Site, w: World, first: seq<Step>, rest: seq<Step>)
    requires Possible(site, w, first) && Possible(site, After(site, w, first), rest)
    ensures Possible(site, w, first + rest)
    ensures After(site, w, first + rest) == After(site, After(site, w, first), rest)
    decreases |first|
  {
    if first == [] {
      assert first + rest == rest;
    } else {
      RunThen(site, Apply(site, w, first[0]), first[1..], rest);
      StepThen(site, w, first[0], first[1..] + rest);
      assert [first[0]] + (first[1..] + rest) == first + rest;
    }
  }

  // One more step at the end of a run.
  lemma ThenStep(site: Site, w: World, steps: seq<Step>, step: Step)
    requires Possible(site, w, steps) && Enabled(site, After(site, w, steps), step)
    ensures Possible(site, w, steps + [step])
    ensures After(site, w, steps + [step]) == Apply(site, After(site, w, steps), step)
  {
    var w' := After(site, w, steps);
    StepThen(site, w', step, []);
    assert [step] + [] == [step];
    RunThen(site, w, steps, [step]);
  }
}
