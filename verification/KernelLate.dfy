/** The one way to be late is real: a process that comes back from a port while the scheduler stands
    in Advance pushes an order that is not even read when it is due. */
module KernelLate {
  import opened Gathering
  import opened Kernel
  import opened KernelTiming

  /** Two processes; process 0 will be blocked on a port. */
  function Start0(): State {
    State(0, 0, 0, 0, 0, [], [], map[], 0, 0, [], [], 0, Idle(NotStarted), {}, {}, map[], {}, [], [])
  }

  /** Process 1 sleeps until tick 5, process 0 is blocked, the scheduler has read the whole queue. */
  function Closing0(): State {
    State(2, 0, 1, 0, 0, [], [Tagged(0, Wakeup(5, 1))], map[], 0, 0, [], [], 10, Advance,
          {}, {0}, map[], {0, 1}, [Issued(WaitUntil(5, 1), 0)], [])
  }

  lemma ExtendThrice(before: seq<State>, beforeSteps: seq<Step>, p: Step, a: State, q: Step, b: State, r: Step, c: State)
    returns (states: seq<State>, steps: seq<Step>)
    requires Path(before, beforeSteps) && Next(before[|beforeSteps|], p, a) && Next(a, q, b) && Next(b, r, c)
    ensures Path(states, steps) && states[0] == before[0] && states[|steps|] == c
  {
    hide Next;
    Extend(before, beforeSteps, p, a);
    states, steps := before + [a], beforeSteps + [p];
    Extend(states, steps, q, b);
    states, steps := states + [b], steps + [q];
    Extend(states, steps, r, c);
    states, steps := states + [c], steps + [r];
  }

  function Registered0(): State { DoRegister(DoRegister(Start0(), 0), 1) }

  function Running0(): State { Registered0().(duration := 10, control := Wait1) }

  /** The order of process 1 is queued, and nobody is alive. */
  function Waiting0(): State { Closing0().(control := Wait1, heap := [], orderQ := [Tagged(0, WaitUntil(5, 1))]) }

  lemma RegisterSteps()
    ensures Next(Start0(), Register(0), DoRegister(Start0(), 0))
    ensures Next(DoRegister(Start0(), 0), Register(1), Registered0())
    ensures Next(Registered0(), Start(10), Running0())
  {
  }

  lemma WaitSteps()
    ensures Next(Running0(), Lock(0), DoLock(Running0(), 0))
    ensures Next(DoLock(Running0(), 0), Push(1, WaitUntil(5, 1)), Waiting0())
  {
    assert Registered0().runnable == {0, 1} && Registered0().prcs == {0, 1};
    var s := DoLock(Running0(), 0);
    assert s.runnable == {1} && s.blocked == {0};
    assert s.runnable - {1} == {};
  }

  /** Both register, the simulation starts, process 0 blocks and process 1 sleeps. */
  lemma FirstCycle() returns (states: seq<State>, steps: seq<Step>)
    ensures Path(states, steps) && Init(states[0]) && states[|steps|] == Waiting0()
  {
    assert Init(Start0());
    hide Next, Init, Start0, Registered0, Running0, Waiting0, DoRegister, DoLock;
    RegisterSteps();
    WaitSteps();
    assert Path([Start0()], []);
    states, steps := ExtendThrice([Start0()], [], Register(0), DoRegister(Start0(), 0), Register(1), Registered0(), Start(10), Running0());
    Extend(states, steps, Lock(0), DoLock(Running0(), 0));
    states, steps := states + [DoLock(Running0(), 0)], steps + [Lock(0)];
    Extend(states, steps, Push(1, WaitUntil(5, 1)), Waiting0());
    states, steps := states + [Waiting0()], steps + [Push(1, WaitUntil(5, 1))];
  }

  lemma CountSteps()
    ensures Next(Waiting0(), CycleEnded, Waiting0().(control := Sample))
    ensures Next(Waiting0().(control := Sample), TakeSample, Waiting0().(control := Clear))
    ensures Next(Waiting0().(control := Clear), ClearCounters, Waiting0().(control := Drain))
  {
    hide DrainFirst;
  }

  lemma DrainSteps()
    ensures Next(Waiting0().(control := Drain), DrainOne, Closing0().(control := Drain))
    ensures Next(Closing0().(control := Drain), DrainDone, Closing0())
  {
    assert DrainFirst(Waiting0().(control := Drain)) == Closing0().(control := Drain);
  }

  /** The scheduler sees nobody alive, samples no hand-over and reads the queue. */
  lemma CycleCloses(before: seq<State>, beforeSteps: seq<Step>) returns (states: seq<State>, steps: seq<Step>)
    requires Path(before, beforeSteps) && before[|beforeSteps|] == Waiting0()
    ensures Path(states, steps) && states[0] == before[0] && states[|steps|] == Closing0()
  {
    CountSteps();
    DrainSteps();
    hide Next, Closing0, Waiting0;
    var drain := Closing0().(control := Drain);
    states, steps := ExtendThrice(before, beforeSteps, CycleEnded, Waiting0().(control := Sample),
                                  TakeSample, Waiting0().(control := Clear), ClearCounters, Waiting0().(control := Drain));
    Extend(states, steps, DrainOne, drain);
    states, steps := states + [drain], steps + [DrainOne];
    Extend(states, steps, DrainDone, Closing0());
    states, steps := states + [Closing0()], steps + [DrainDone];
  }

  /** Process 0 gets its port back while the queue is closed, and pushes an order. */
  function Disturbed0(): State {
    Kernel.PushOrder(DoUnlock(Closing0(), 0), WaitUntil(1, 0))
  }

  lemma LastSteps()
    ensures Next(Closing0(), Unlock(0), DoUnlock(Closing0(), 0))
    ensures Next(DoUnlock(Closing0(), 0), Push(0, WaitUntil(1, 0)), Disturbed0())
    ensures Next(Disturbed0(), Jump, JumpTime(Disturbed0()))
  {
    hide MinIndex;
  }

  /** The order to resume at tick 1 was issued at tick 0 and is not read when the clock shows 5. */
  ghost predicate Late(s: State) {
    && |s.issued| == 2 && s.issued[1] == Issued(WaitUntil(1, 0), 0)
    && Due(0, 1) == 1 < s.tick == 5 && !TookEffect(s, 1)
  }

  lemma IsLate()
    ensures Late(JumpTime(Disturbed0()))
  {
  }

  /** Process 0 asks at tick 0 for a delay of one tick; the clock has jumped to tick 5 and the order
      has not even been read. */
  lemma DisturbedRunIsLate() returns (states: seq<State>, steps: seq<Step>)
    ensures Path(states, steps) && Init(states[0]) && Late(states[|steps|])
  {
    hide Path, Next, DoUnlock, JumpTime, Disturbed0, Closing0, Init, Late;
    states, steps := FirstCycle();
    states, steps := CycleCloses(states, steps);
    LastSteps();
    IsLate();
    states, steps := ExtendThrice(states, steps, Unlock(0), DoUnlock(Closing0(), 0),
                                  Push(0, WaitUntil(1, 0)), Disturbed0(), Jump, JumpTime(Disturbed0()));
  }
}
