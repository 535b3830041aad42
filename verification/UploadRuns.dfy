/** Putting runs of the upload protocol together. */
module UploadRuns {
  import opened UploadProtocol

  lemma {:induction false} RunJoins(c: Config, s: State, steps: seq<Step>, more: seq<Step>)
    ensures Run(c, s, steps + more) == Run(c, Run(c, s, steps), more)
  {
    hide Apply;
    if more == [] {
      assert steps + more == steps;
    } else {
      RunJoins(c, s, steps, more[..|more| - 1]);
      assert (steps + more)[..|steps + more| - 1] == steps + more[..|more| - 1];
    }
  }

  lemma RunOne(c: Config, s: State, step: Step)
    ensures Run(c, s, [step]) == Apply(c, s, step)
  {
    hide Apply;
    assert [step][..0] == [];
  }

  lemma RunNext(c: Config, s: State, steps: seq<Step>, step: Step)
    ensures Run(c, s, steps + [step]) == Apply(c, Run(c, s, steps), step)
  {
    hide Apply, Run;
    RunJoins(c, s, steps, [step]);
    RunOne(c, Run(c, s, steps), step);
  }
}
