/** What the scheduler's one sample of the announced hand-overs is good for: by the time it clears the
    counters, as many processes have resumed as had been announced when it looked. */
module KernelSample {
  import opened Gathering
  import opened Kernel

  /** Between the sample of `n` hand-overs and the clear: still waiting for them, or they are there. */
  predicate Awaited(s: State, n: nat) {
    match s.control
    case Catch(sample) => sample == n
    case Wait2 => n <= s.unlockedPrc
    case Clear => n <= s.unlockedPrc
    case _ => false
  }

  lemma StepKeepsAwaited(s: State, step: Step, n: nat)
    requires Awaited(s, n) && Enabled(s, step) && !step.ClearCounters?
    ensures Awaited(Apply(s, step), n)
  {
    hide MinIndex, RemoveAt;
  }

  lemma {:induction false} AwaitedUntilClear(states: seq<State>, steps: seq<Step>, i: nat, j: nat, n: nat)
    requires Path(states, steps) && i <= j < |states| && Awaited(states[i], n)
    requires forall k :: i <= k < j ==> !steps[k].ClearCounters?
    ensures Awaited(states[j], n)
    decreases j
  {
    hide Enabled, Apply;
    if i < j {
      AwaitedUntilClear(states, steps, i, j - 1, n);
      assert Next(states[j - 1], steps[j - 1], states[j - 1 + 1]);
      hide Awaited;
      StepKeepsAwaited(states[j - 1], steps[j - 1], n);
    }
  }

  lemma SampleAwaits(s: State, step: Step)
    requires Enabled(s, step) && step.TakeSample?
    ensures Awaited(Apply(s, step), s.unlockEvt)
  {
  }

  lemma ClearIsThere(s: State, step: Step, n: nat)
    requires Awaited(s, n) && Enabled(s, step) && step.ClearCounters?
    ensures n <= s.unlockedPrc
  {
  }

  /** In every run, from a sample to the clear that follows it: every hand-over announced before the sample
      has been picked up by a process that resumed, before the counters are cleared. */
  lemma SampledArePickedUp(states: seq<State>, steps: seq<Step>, i: nat, j: nat)
    requires Path(states, steps) && i < j < |steps| && steps[i].TakeSample? && steps[j].ClearCounters?
    requires forall k :: i < k < j ==> !steps[k].ClearCounters?
    ensures states[i].unlockEvt <= states[j].unlockedPrc
  {
    assert Next(states[i], steps[i], states[i + 1]);
    assert Next(states[j], steps[j], states[j + 1]);
    hide Enabled, Apply, Awaited;
    SampleAwaits(states[i], steps[i]);
    AwaitedUntilClear(states, steps, i + 1, j, states[i].unlockEvt);
    ClearIsThere(states[j], steps[j], states[i].unlockEvt);
  }
}
