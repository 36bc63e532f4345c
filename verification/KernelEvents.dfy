/** A process passes through at most one Ready per delta-cycle, whatever events fire. */
module KernelEvents {
  import opened Gathering
  import opened Kernel

  /** Step `step` polls an Event future of process `p` and the answer is Ready. */
  predicate Ready(s: State, step: Step, p: Pid) {
    || (step.Await? && step.p == p && IsTriggered(s, step.evt, p))
    || (step.Poll? && step.p == p && p in s.resuming && IsTriggered(s, s.resuming[p], p))
  }

  /** The scheduler starts a new delta-cycle and clears the triggered events. */
  predicate Clears(s: State, step: Step, t: State) { step.Jump? && t.control.Fire? }

  lemma WokenStays(s: State, step: Step, t: State, p: Pid)
    requires Next(s, step, t) && !Clears(s, step, t) && p in s.woken
    ensures p in t.woken
  {
    hide MinIndex;
  }

  lemma ReadyIsRecorded(s: State, step: Step, t: State, p: Pid)
    requires Next(s, step, t) && Ready(s, step, p)
    ensures p !in s.woken && p in t.woken
  {
  }

  lemma {:induction false} WokenUntilClear(states: seq<State>, steps: seq<Step>, i: nat, j: nat, p: Pid)
    requires Path(states, steps) && i <= j < |states| && p in states[i].woken
    requires forall k :: i <= k < j ==> !Clears(states[k], steps[k], states[k + 1])
    ensures p in states[j].woken
    decreases j - i
  {
    hide Next, Clears;
    if i < j {
      assert Next(states[i], steps[i], states[i + 1]);
      WokenStays(states[i], steps[i], states[i + 1], p);
      WokenUntilClear(states, steps, i + 1, j, p);
    }
  }

  /** Two Ready answers to one process are separated by a clear, in every interleaving. */
  lemma ReadyOncePerCycle(states: seq<State>, steps: seq<Step>, i: nat, j: nat, p: Pid)
    requires Path(states, steps) && i < j < |steps|
    requires Ready(states[i], steps[i], p) && Ready(states[j], steps[j], p)
    ensures exists k :: i < k < j && Clears(states[k], steps[k], states[k + 1])
  {
    assert Next(states[i], steps[i], states[i + 1]);
    ReadyIsRecorded(states[i], steps[i], states[i + 1], p);
    assert Next(states[j], steps[j], states[j + 1]);
    ReadyIsRecorded(states[j], steps[j], states[j + 1], p);
    if forall k :: i < k < j ==> !Clears(states[k], steps[k], states[k + 1]) {
      WokenUntilClear(states, steps, i + 1, j, p);
      assert false;
    }
  }

  /** So a loop that awaits events until some condition holds stops in the scheduler: after one
      Ready, the next await in the same cycle pushes a WaitOn order and halts the process. */
  lemma SecondAwaitHalts(states: seq<State>, steps: seq<Step>, i: nat, j: nat, p: Pid)
    requires Path(states, steps) && i < j < |steps|
    requires Ready(states[i], steps[i], p) && steps[j].Await? && steps[j].p == p
    requires forall k :: i < k < j ==> !Clears(states[k], steps[k], states[k + 1])
    ensures p !in states[j + 1].runnable
    ensures var q := states[j + 1].orderQ; q != [] && q[|q| - 1].val == WaitOn(steps[j].evt, p)
    ensures states[j + 1].alivePrc == states[j].alivePrc - 1
  {
    assert Next(states[i], steps[i], states[i + 1]);
    ReadyIsRecorded(states[i], steps[i], states[i + 1], p);
    WokenUntilClear(states, steps, i + 1, j, p);
    assert Next(states[j], steps[j], states[j + 1]);
  }
}
