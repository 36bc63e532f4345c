/** `simulate` is a run of the step system: with processes that act by steps, its loops are nothing but
    one interleaving, so whatever holds of all runs holds of it. */
module KernelSimulateRun {
  import opened Gathering
  import opened Kernel
  import opened KernelCensus
  import opened KernelResume
  import opened KernelSimulate
  import R = KernelReads

  /** A run takes `s` to `t`. */
  ghost predicate Leads(s: State, t: State) {
    exists states, steps :: Path(states, steps) && states[0] == s && states[|steps|] == t
  }

  lemma Join(states: seq<State>, steps: seq<Step>, more: seq<State>, moreSteps: seq<Step>)
    requires Path(states, steps) && Path(more, moreSteps) && states[|steps|] == more[0]
    ensures Path(states[..|steps|] + more, steps + moreSteps)
  {
    hide Next;
    var all, allSteps := states[..|steps|] + more, steps + moreSteps;
    forall i | 0 <= i < |allSteps|
      ensures Next(all[i], allSteps[i], all[i + 1])
    {
      if i < |steps| {
        assert Next(states[i], steps[i], states[i + 1]);
      } else {
        assert Next(more[i - |steps|], moreSteps[i - |steps|], more[i - |steps| + 1]);
      }
    }
  }

  lemma LeadsOn(s: State, t: State, u: State)
    requires Leads(s, t) && Leads(t, u)
    ensures Leads(s, u)
  {
    hide Next;
    var states, steps :| Path(states, steps) && states[0] == s && states[|steps|] == t;
    var more, moreSteps :| Path(more, moreSteps) && more[0] == t && more[|moreSteps|] == u;
    Join(states, steps, more, moreSteps);
    var all := states[..|steps|] + more;
    assert all[0] == s && all[|steps + moreSteps|] == u;
  }

  lemma StepLeads(s: State, step: Step, t: State)
    requires Next(s, step, t)
    ensures Leads(s, t)
  {
    hide Next;
    assert Path([s, t], [step]);
  }

  lemma NoStepLeads(s: State)
    ensures Leads(s, s)
  {
    assert Path([s], []);
  }

  lemma StepThenLeads(s: State, step: Step, t: State, u: State)
    requires Next(s, step, t) && Leads(t, u)
    ensures Leads(s, u)
  {
    hide Next, Leads;
    StepLeads(s, step, t);
    LeadsOn(s, t, u);
  }

  // ------------------------------------------------------------ the scheduler's loops

  /** Reading the whole queue is a run of the step system. */
  lemma {:induction false} DrainAllIsRun(s: State)
    requires s.control.Drain?
    ensures Leads(s, DrainAll(s))
    decreases |s.orderQ|
  {
    hide DrainFirst, Leads;
    if s.orderQ == [] {
      StepLeads(s, DrainDone, s.(control := Advance));
    } else {
      var t := DrainFirst(s);
      assert Next(s, DrainOne, t);
      if s.orderQ[0].val.Exit? {
        StepLeads(s, DrainOne, t);
      } else {
        DrainShrinks(s);
        DrainAllIsRun(t);
        StepThenLeads(s, DrainOne, t, DrainAll(t));
      }
    }
  }

  lemma DrainShrinks(s: State)
    requires s.control.Drain? && s.orderQ != [] && !s.orderQ[0].val.Exit?
    ensures DrainFirst(s).control.Drain? && |DrainFirst(s).orderQ| < |s.orderQ|
  {
  }

  /** Popping the tasks of one tick and crediting the wake-ups is a run of the step system. */
  lemma {:induction false} FireAllIsRun(s: State)
    requires s.control.Fire?
    ensures Leads(s, FireAll(s))
    decreases |s.heap|
  {
    hide DoFire, MinIndex, Leads;
    if s.heap == [] || s.tick < s.heap[MinIndex(s.heap)].val.t {
      StepLeads(s, Credit, CreditAll(s));
    } else {
      var i := MinIndex(s.heap);
      assert Next(s, FireOne(i), DoFire(s, i));
      FireShrinks(s, i);
      FireAllIsRun(DoFire(s, i));
      StepThenLeads(s, FireOne(i), DoFire(s, i), FireAll(DoFire(s, i)));
    }
  }

  lemma FireShrinks(s: State, i: nat)
    requires MayFire(s, i)
    ensures DoFire(s, i).control.Fire? && |DoFire(s, i).heap| < |s.heap|
  {
  }

  // ------------------------------------------------------------ processes that act by steps

  predicate ByProcess(step: Step) {
    || step.NewEvent? || step.Register? || step.Unregister? || step.Push? || step.Await?
    || step.Poll? || step.Lock? || step.Unlock? || step.HandOver?
  }

  /** Processes take `s` to `t` by steps of their own. */
  ghost predicate Acts(s: State, t: State) {
    exists states, steps :: Path(states, steps) && states[0] == s && states[|steps|] == t && forall i :: 0 <= i < |steps| ==> ByProcess(steps[i])
  }

  /** What all runs keep. */
  ghost predicate Kept(s: State) { Accounted(s) && ResumeOk(s) }

  /** Every announced hand-over has its process: one that resumed since the last clear, or one still
      blocked on its port. */
  predicate Covered(s: State) {
    && s.unlockEvt <= s.unlockedPrc + |s.blocked|
    && (s.control.Catch? ==> s.control.sample <= s.unlockEvt)
  }

  /** The processes act by steps, and announce a hand-over only to a blocked process. */
  ghost predicate Behaving(w: World) {
    forall s: State :: Awaits(s) && Kept(s) && Covered(s) ==> Acts(s, w.run(s)) && Covered(w.run(s))
  }

  lemma {:induction false} PathKeeps(states: seq<State>, steps: seq<Step>, k: nat)
    requires Path(states, steps) && Kept(states[0]) && k < |states|
    ensures Kept(states[k])
  {
    hide Enabled, Apply, Accounted, ResumeOk;
    if k > 0 {
      PathKeeps(states, steps, k - 1);
      assert Next(states[k - 1], steps[k - 1], states[k - 1 + 1]);
      StepKeepsAccounts(states[k - 1], steps[k - 1]);
      StepKeepsResume(states[k - 1], steps[k - 1]);
    }
  }

  lemma LeadsKeeps(s: State, t: State)
    requires Kept(s) && Leads(s, t)
    ensures Kept(t)
  {
    hide Next, Kept;
    var states, steps :| Path(states, steps) && states[0] == s && states[|steps|] == t;
    PathKeeps(states, steps, |steps|);
  }

  ghost predicate Good(s: State) { Kept(s) && Covered(s) }

  lemma WorldActs(s: State, w: World)
    requires Awaits(s) && Good(s) && Behaving(w) && Settling(w)
    ensures Leads(s, w.run(s)) && Good(w.run(s)) && Untouched(s, w.run(s))
  {
    hide Next, Kept, Covered;
    var states, steps :| Path(states, steps) && states[0] == s && states[|steps|] == w.run(s)
      && forall i :: 0 <= i < |steps| ==> ByProcess(steps[i]);
    LeadsKeeps(s, w.run(s));
  }

  lemma AwaitIsRun(s: State, w: World)
    requires (s.control.Wait1? || s.control.Wait2?) && Good(s) && Behaving(w) && Settling(w)
    ensures Leads(s, AwaitEnd(s, w)) && Good(AwaitEnd(s, w))
  {
    hide Good, Leads, Behaving, Settling;
    if s.alivePrc == 0 {
      NoStepLeads(s);
    } else {
      WorldActs(s, w);
    }
  }

  lemma {:induction false} CatchUpIsRun(s: State, w: World)
    requires s.control.Catch? && Good(s) && Behaving(w) && Settling(w)
    ensures Leads(s, CatchUp(s, w)) && Good(CatchUp(s, w))
    decreases s.control.sample - s.unlockedPrc
  {
    hide Good, Leads, Behaving;
    if s.control.sample <= s.unlockedPrc {
      NoStepLeads(s);
    } else {
      WorldActs(s, w);
      assert Settles(s, w.run(s));
      hide Settling;
      CatchUpIsRun(w.run(s), w);
      LeadsOn(s, w.run(s), CatchUp(w.run(s), w));
    }
  }

  /** A step of the scheduler between two waits. */
  lemma ControlLeads(s: State, step: Step, t: State)
    requires Kept(s) && Next(s, step, t)
    ensures Kept(t) && Leads(s, t)
  {
    hide Next, Kept, Leads;
    StepLeads(s, step, t);
    LeadsKeeps(s, t);
  }

  lemma SampleIsRun(a: State)
    requires a.control.Wait1? && a.alivePrc == 0 && Good(a)
    ensures var b := if a.unlockEvt == 0 then a.(control := Clear) else a.(control := Catch(a.unlockEvt));
      Leads(a, b) && Good(b)
  {
    hide Kept, Leads;
    var b := if a.unlockEvt == 0 then a.(control := Clear) else a.(control := Catch(a.unlockEvt));
    assert Next(a, CycleEnded, a.(control := Sample));
    assert Next(a.(control := Sample), TakeSample, b);
    ControlLeads(a, CycleEnded, a.(control := Sample));
    ControlLeads(a.(control := Sample), TakeSample, b);
    LeadsOn(a, a.(control := Sample), b);
  }

  lemma CaughtUpIsRun(b: State)
    requires b.control.Catch? && b.control.sample <= b.unlockedPrc && Good(b)
    ensures Leads(b, b.(control := Wait2)) && Good(b.(control := Wait2))
  {
    hide Kept, Leads;
    assert Next(b, CaughtUp, b.(control := Wait2));
    ControlLeads(b, CaughtUp, b.(control := Wait2));
  }

  lemma SecondWaitIsRun(c: State)
    requires c.control.Wait2? && c.alivePrc == 0 && Good(c)
    ensures Leads(c, c.(control := Clear)) && Good(c.(control := Clear))
  {
    hide Kept, Leads;
    assert Next(c, CycleEnded, c.(control := Clear));
    ControlLeads(c, CycleEnded, c.(control := Clear));
  }

  lemma CloseIsRun(s: State, w: World)
    requires s.control.Wait1? && Good(s) && Behaving(w) && Settling(w)
    ensures Leads(s, Close(s, w)) && Good(Close(s, w))
  {
    hide Good, Leads, Behaving, Settling, AwaitEnd, CatchUp;
    var a := AwaitEnd(s, w);
    AwaitIsRun(s, w);
    SampleIsRun(a);
    if a.unlockEvt == 0 {
      LeadsOn(s, a, a.(control := Clear));
    } else {
      var c := a.(control := Catch(a.unlockEvt));
      LeadsOn(s, a, c);
      CatchUpIsRun(c, w);
      var b := CatchUp(c, w);
      LeadsOn(s, c, b);
      CaughtUpIsRun(b);
      LeadsOn(s, b, b.(control := Wait2));
      AwaitIsRun(b.(control := Wait2), w);
      var e := AwaitEnd(b.(control := Wait2), w);
      LeadsOn(s, b.(control := Wait2), e);
      SecondWaitIsRun(e);
      LeadsOn(s, e, e.(control := Clear));
    }
  }

  lemma ClearIsRun(s: State)
    requires s.control.Clear? && Kept(s)
    ensures Leads(s, ClearBoth(s)) && Kept(ClearBoth(s))
  {
    hide Kept, Leads;
    assert Next(s, ClearCounters, ClearBoth(s));
    ControlLeads(s, ClearCounters, ClearBoth(s));
  }

  /** A whole delta-cycle up to its decision. */
  lemma DecisionIsRun(s: State, w: World)
    requires s.control.Wait1? && Ahead(s) && Good(s) && Behaving(w) && Settling(w)
    ensures Leads(s, Decision(s, w)) && Kept(Decision(s, w))
  {
    hide Covered, Kept, Leads, Behaving, Settling, Close, ClearBoth, DrainAll;
    CloseIsRun(s, w);
    ClearIsRun(Close(s, w));
    LeadsOn(s, Close(s, w), Drained(s, w));
    DrainAllIsRun(Drained(s, w));
    LeadsOn(s, Drained(s, w), Decision(s, w));
    LeadsKeeps(s, Decision(s, w));
  }

  lemma AdvancedIsRun(a: State, stop: bool)
    requires a.control.Advance?
    ensures Leads(a, Advanced(a, stop))
  {
    hide MinIndex, TaskWithin, Leads;
    if stop && TaskWithin(a) {
      StepLeads(a, EarlyExit, Advanced(a, stop));
    } else {
      StepLeads(a, Jump, Advanced(a, stop));
    }
  }

  lemma ClearedIsCovered(s: State)
    requires s.unlockEvt == 0 && s.control.Wait1?
    ensures Covered(s)
  {
  }

  lemma {:induction false} LoopIsRun(s: State, w: World)
    requires s.control.Wait1? && Ahead(s) && Good(s) && Behaving(w) && Settling(w)
    ensures Leads(s, Loop(s, w).state)
    decreases s.duration - s.tick
  {
    hide Kept, Covered, Leads, Behaving, Settling, FireAll, Decision;
    var a := Decision(s, w);
    DecisionIsRun(s, w);
    if a.control.Advance? {
      var j := Advanced(a, w.stop(a));
      AdvancedIsRun(a, w.stop(a));
      JumpMovesForward(a, w.stop(a));
      hide Advanced;
      LeadsOn(s, a, j);
      if j.control.Fire? {
        var f := FireAll(j);
        FireAllIsRun(j);
        LeadsOn(s, j, f);
        LeadsKeeps(s, f);
        ClearedIsCovered(f);
        LoopIsRun(f, w);
        LeadsOn(s, f, Loop(f, w).state);
      }
    }
  }

  /** With behaving processes `simulate` as written, two waits and catching up included, is a run of the
      step system from any state that a run reaches. */
  lemma SimulateIsRun(states: seq<State>, steps: seq<Step>, k: nat, d: Tick, w: World)
    requires Path(states, steps) && Init(states[0]) && k < |states| && states[k].control.Idle? && Covered(states[k])
    requires Behaving(w) && Settling(w)
    ensures Ahead(states[k]) && Leads(states[k], Simulate(states[k], d, w))
  {
    hide Leads, Behaving, Settling, Loop, Accounted, ResumeOk, Path, Init;
    var s := states[k];
    IdleIsAhead(states, steps, k);
    AlwaysAccounted(states, steps, k);
    AlwaysResumes(states, steps, k);
    var v := s.(duration := d, control := Wait1);
    assert Next(s, Start(d), v);
    hide Next, Kept;
    assert Kept(s) by { IsKept(s); }
    ControlLeads(s, Start(d), v);
    LoopIsRun(v, w);
    LeadsOn(s, v, Loop(v, w).state);
  }

  lemma IsKept(s: State)
    requires Accounted(s) && ResumeOk(s)
    ensures Kept(s)
  {
  }

  lemma IdleIsAhead(states: seq<State>, steps: seq<Step>, k: nat)
    requires Path(states, steps) && Init(states[0]) && k < |states| && states[k].control.Idle?
    ensures Ahead(states[k])
  {
    hide Init, Next;
    R.AlwaysInv(states, steps, k);
    assert R.HeapOk(states[k], R.ReadTicks(states, steps, k));
  }

  // ------------------------------------------------------------ such processes exist

  ghost function Pick(ps: set<Pid>): (p: Pid)
    requires ps != {}
    ensures p in ps
  {
    var p :| p in ps; p
  }

  /** Process `p`, polled if it was released from an event, sleeps for one tick. */
  function Sleep(s: State, p: Pid): State {
    PushOrder(if p in s.resuming then PollEvent(s, p) else s, WaitUntil(s.tick + 1, p))
  }

  /** All runnable processes go to sleep, in some order. */
  ghost function SleepAll(s: State): State
    decreases |s.runnable|
  {
    if s.runnable == {} then s
    else
      var p := Pick(s.runnable);
      var t := Sleep(s, p);
      assert t.runnable == s.runnable - {p} && |t.runnable| < |s.runnable| by { Fewer(s.runnable, p); }
      SleepAll(t)
  }

  lemma Fewer(ps: set<Pid>, p: Pid)
    requires p in ps
    ensures |ps - {p}| < |ps|
  {
    assert ps == (ps - {p}) + {p};
  }

  /** While the scheduler catches up a blocked process resumes; otherwise everybody goes to sleep. What
      happens outside states that a run can reach is of no interest. */
  ghost function Turn(s: State): State {
    if s.control.Catch? then
      if s.blocked == {} then s.(unlockedPrc := s.unlockedPrc + 1) else DoUnlock(s, Pick(s.blocked))
    else if Kept(s) then SleepAll(s)
    else s.(alivePrc := 0)
  }

  lemma SleepSteps(s: State, p: Pid)
    requires ResumeOk(s) && p in s.runnable
    ensures p in s.resuming ==> Next(s, Poll(p), PollEvent(s, p))
    ensures var t := if p in s.resuming then PollEvent(s, p) else s;
      Next(t, Push(p, WaitUntil(s.tick + 1, p)), Sleep(s, p))
  {
  }

  lemma ActsOn(s: State, step: Step, t: State, u: State)
    requires ByProcess(step) && Next(s, step, t) && Acts(t, u)
    ensures Acts(s, u)
  {
    hide Next;
    var states, steps :| Path(states, steps) && states[0] == t && states[|steps|] == u
      && forall i :: 0 <= i < |steps| ==> ByProcess(steps[i]);
    Join([s, t], [step], states, steps);
    var all, allSteps := [s, t][..1] + states, [step] + steps;
    assert all[0] == s && all[|allSteps|] == u;
    assert forall i :: 0 <= i < |allSteps| ==> ByProcess(allSteps[i]);
  }

  lemma StepKept(s: State, step: Step, t: State)
    requires Kept(s) && Next(s, step, t)
    ensures Kept(t)
  {
    hide Next, Kept, Leads;
    StepLeads(s, step, t);
    LeadsKeeps(s, t);
  }

  lemma SleepIsKept(s: State, p: Pid)
    requires Kept(s) && p in s.runnable
    ensures Kept(Sleep(s, p))
  {
    SleepSteps(s, p);
    hide Next, Kept, Sleep, PollEvent;
    var t := if p in s.resuming then PollEvent(s, p) else s;
    if p in s.resuming {
      StepKept(s, Poll(p), t);
    }
    StepKept(t, Push(p, WaitUntil(s.tick + 1, p)), Sleep(s, p));
  }

  lemma SleepActs(s: State, p: Pid, u: State)
    requires ResumeOk(s) && p in s.runnable && Acts(Sleep(s, p), u)
    ensures Acts(s, u)
  {
    SleepSteps(s, p);
    hide Next, Acts, Sleep, PollEvent;
    var t := if p in s.resuming then PollEvent(s, p) else s;
    ActsOn(t, Push(p, WaitUntil(s.tick + 1, p)), Sleep(s, p), u);
    if p in s.resuming {
      ActsOn(s, Poll(p), t, u);
    }
  }

  /** Nothing but the processes' own business changes. */
  predicate SameHandOvers(s: State, t: State) {
    t.unlockEvt == s.unlockEvt && t.unlockedPrc == s.unlockedPrc && t.blocked == s.blocked
  }

  lemma SleepFrame(s: State, p: Pid)
    ensures Untouched(s, Sleep(s, p)) && SameHandOvers(s, Sleep(s, p)) && Sleep(s, p).runnable == s.runnable - {p}
  {
  }

  lemma {:induction false} SleepAllActs(s: State)
    requires Kept(s) && (s.control.Wait1? || s.control.Wait2?)
    ensures var t := SleepAll(s);
      Acts(s, t) && Untouched(s, t) && SameHandOvers(s, t) && Kept(t) && t.runnable == {}
    decreases |s.runnable|
  {
    if s.runnable == {} {
      assert Path([s], []);
    } else {
      var p := Pick(s.runnable);
      Fewer(s.runnable, p);
      SleepFrame(s, p);
      SleepIsKept(s, p);
      hide Acts, Sleep, Accounted, ResumeOk;
      SleepAllActs(Sleep(s, p));
      SleepActs(s, p, SleepAll(s));
    }
  }

  lemma NobodyAlive(s: State)
    requires Kept(s) && s.runnable == {} && !s.control.Fire?
    ensures s.alivePrc == 0
  {
  }

  lemma TurnSettles(s: State)
    requires Awaits(s)
    ensures Settles(s, Turn(s))
  {
    hide Kept, Acts;
    if !s.control.Catch? && Kept(s) {
      SleepAllActs(s);
      NobodyAlive(SleepAll(s));
    }
  }

  lemma UnlockActs(s: State, p: Pid)
    requires p in s.blocked && s.control.Catch? && Covered(s)
    ensures Acts(s, DoUnlock(s, p)) && Covered(DoUnlock(s, p))
  {
    var t := DoUnlock(s, p);
    assert Next(s, Unlock(p), t);
    assert s.blocked == t.blocked + {p};
    hide Next;
    assert Path([s, t], [Unlock(p)]);
  }

  lemma TurnBehaves(s: State)
    requires Awaits(s) && Kept(s) && Covered(s)
    ensures Acts(s, Turn(s)) && Covered(Turn(s))
  {
    hide Kept, Acts;
    if s.control.Catch? {
      assert s.blocked != {};
      UnlockActs(s, Pick(s.blocked));
    } else {
      SleepAllActs(s);
    }
  }

  lemma KeptDuration(s: State, d: Tick)
    ensures Kept(s.(duration := d)) <==> Kept(s)
  {
    hide Gather, GatherMap;
    var t := s.(duration := d);
    assert forall p: Pid :: Spots(t, p) == Spots(s, p);
  }

  lemma {:induction false} SleepAllDuration(s: State, d: Tick)
    ensures SleepAll(s.(duration := d)) == SleepAll(s).(duration := d)
    decreases |s.runnable|
  {
    if s.runnable != {} {
      var p := Pick(s.runnable);
      Fewer(s.runnable, p);
      assert Sleep(s.(duration := d), p) == Sleep(s, p).(duration := d);
      SleepAllDuration(Sleep(s, p), d);
    }
  }

  lemma TurnDuration(s: State, d: Tick)
    ensures Turn(s.(duration := d)) == Turn(s).(duration := d)
  {
    KeptDuration(s, d);
    SleepAllDuration(s, d);
    hide Kept, SleepAll;
    var t := s.(duration := d);
    assert t.control == s.control && t.blocked == s.blocked;
  }

  /** Processes that act by steps, end each delta-cycle and pick up each hand-over do exist: for instance
      those that resume when they get their lock, and sleep for a tick whenever they run. */
  lemma ProcessesExist()
    ensures exists w: World :: Settling(w) && Unhurried(w) && Behaving(w)
  {
    hide Turn, Settles, Acts, Kept, Covered;
    var run: State -> State := s => Turn(s);
    var w := World(run, s => false);
    forall s: State | Awaits(s)
      ensures Settles(s, w.run(s))
    {
      TurnSettles(s);
    }
    assert Settling(w);
    forall s: State | Awaits(s) && Kept(s) && Covered(s)
      ensures Acts(s, w.run(s)) && Covered(w.run(s))
    {
      TurnBehaves(s);
    }
    assert Behaving(w);
    forall s: State, d: Tick
      ensures w.run(s.(duration := d)) == w.run(s).(duration := d)
    {
      TurnDuration(s, d);
    }
    assert Unhurried(w);
  }
}
