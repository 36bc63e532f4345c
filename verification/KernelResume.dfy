/** A process that a notification released finds its event triggered when it is polled again. */
module KernelResume {
  import opened Gathering
  import opened Kernel
  import opened KernelCensus
  import R = KernelReads

  /** From the end of a delta-cycle to the next firing no process is between release and poll. */
  predicate Settled(c: Control) {
    c.Sample? || c.Catch? || c.Wait2? || c.Clear? || c.Drain? || c.Advance?
  }

  /** A released process will find its event triggered, once, when it is polled. */
  ghost predicate ResumeOk(s: State) {
    && (forall p :: p in s.resuming ==> p in s.runnable && s.resuming[p] in s.triggered && p !in s.woken)
    && (s.control.Fire? ==> forall e, j :: e in s.waitOn && 0 <= j < |s.waitOn[e]| ==> s.waitOn[e][j].val !in s.woken)
    && (Settled(s.control) ==> s.resuming == map[])
  }

  lemma WaiterNotRunnable(s: State, e: EventId, j: nat)
    requires OnePlaceEach(s) && EventsKnown(s) && e in s.waitOn && j < |s.waitOn[e]|
    ensures s.waitOn[e][j].val !in s.runnable
  {
    hide Gather, GatherMap;
    var p := s.waitOn[e][j].val;
    GatherMember(s.waitOn[e], j, WaiterPid);
    GatherMapMember(s.waitOn, s.nextEvent, e, WaiterPid);
    assert Waiting(s, p) >= 1;
    assert Spots(s, p) == Bit(p in s.prcs);
  }

  lemma ReleaseKeepsResume(s: State, i: nat)
    requires ResumeOk(s) && MayFire(s, i)
    ensures ResumeOk(DoFire(s, i))
  {
    var t := DoFire(s, i);
    if s.heap[i].val.Notify? {
      var e := s.heap[i].val.evt;
      forall p | p in t.resuming
        ensures p in t.runnable && t.resuming[p] in t.triggered && p !in t.woken
      {
        if p in Pids(Waiters(s.waitOn, e)) {
          var j :| 0 <= j < |Waiters(s.waitOn, e)| && Pids(Waiters(s.waitOn, e))[j] == p;
          assert s.waitOn[e][j].val == p;
        }
      }
    }
  }

  lemma PollKeepsResume(s: State, t: State, p: Pid)
    requires ResumeOk(s) && OnePlaceEach(s) && EventsKnown(s) && p in s.runnable
    requires t.waitOn == s.waitOn && t.runnable == s.runnable && t.triggered == s.triggered && t.control == s.control
    requires t.woken == s.woken + [p] && t.resuming == s.resuming - {p}
    ensures ResumeOk(t)
  {
    if s.control.Fire? {
      forall e, j | e in t.waitOn && 0 <= j < |t.waitOn[e]|
        ensures t.waitOn[e][j].val !in t.woken
      {
        WaiterNotRunnable(s, e, j);
      }
    }
  }

  lemma QuietKeepsResume(s: State, step: Step)
    requires ResumeOk(s) && Enabled(s, step)
    requires step.NewEvent? || step.Register? || step.Unregister? || step.Lock? || step.Unlock? || step.HandOver?
    ensures ResumeOk(Apply(s, step))
  {
  }

  lemma PushKeepsResume(s: State, p: Pid, o: Order)
    requires ResumeOk(s) && MayPush(s, p, o)
    ensures ResumeOk(PushOrder(s, o))
  {
  }

  lemma PollStepKeepsResume(s: State, p: Pid)
    requires ResumeOk(s) && Accounted(s) && p in s.resuming
    ensures ResumeOk(PollEvent(s, p))
  {
    hide Spots, OnePlaceEach, EventsKnown;
    if IsTriggered(s, s.resuming[p], p) {
      PollKeepsResume(s, PollEvent(s, p), p);
    }
  }

  lemma AwaitKeepsResume(s: State, p: Pid, e: EventId)
    requires ResumeOk(s) && Accounted(s) && Running(s, p)
    ensures ResumeOk(AwaitEvent(s, p, e))
  {
    hide Spots, OnePlaceEach, EventsKnown;
    if IsTriggered(s, e, p) {
      assert s.resuming - {p} == s.resuming;
      PollKeepsResume(s, AwaitEvent(s, p, e), p);
    }
  }

  lemma JumpKeepsResume(s: State)
    requires ResumeOk(s) && s.control.Advance?
    ensures ResumeOk(JumpTime(s))
  {
    hide MinIndex;
  }

  lemma ControlKeepsResume(s: State, step: Step)
    requires ResumeOk(s) && Counters(s) && ControlEnabled(s, step)
    ensures ResumeOk(ControlApply(s, step))
  {
    if step.CycleEnded? {
      assert s.control.Wait1? || s.control.Wait2?;
      assert |s.runnable| == 0;
      assert forall p :: p in s.resuming ==> p in s.runnable;
    }
  }

  lemma DrainKeepsResume(s: State)
    requires ResumeOk(s) && s.control.Drain? && s.orderQ != []
    ensures ResumeOk(DrainFirst(s))
  {
  }

  lemma StepKeepsResume(s: State, step: Step)
    requires ResumeOk(s) && Accounted(s) && Enabled(s, step)
    ensures ResumeOk(Apply(s, step))
  {
    hide ResumeOk, Accounted, DrainFirst, JumpTime, DoFire, MayFire, ControlApply, PollEvent, AwaitEvent, PushOrder;
    match step {
      case FireOne(i) => ReleaseKeepsResume(s, i);
      case Poll(p) => PollStepKeepsResume(s, p);
      case Await(p, e) => AwaitKeepsResume(s, p, e);
      case DrainOne => DrainKeepsResume(s);
      case Jump => JumpKeepsResume(s);
      case Push(p, o) => PushKeepsResume(s, p, o);
      case NewEvent => QuietKeepsResume(s, step);
      case Register(_) => QuietKeepsResume(s, step);
      case Unregister(_) => QuietKeepsResume(s, step);
      case Lock(_) => QuietKeepsResume(s, step);
      case Unlock(_) => QuietKeepsResume(s, step);
      case HandOver => QuietKeepsResume(s, step);
      case _ =>
        CountersHold(s);
        ControlKeepsResume(s, step);
    }
  }

  lemma CountersHold(s: State)
    requires Accounted(s)
    ensures Counters(s)
  {
  }

  lemma {:induction false} AlwaysResumes(states: seq<State>, steps: seq<Step>, k: nat)
    requires Path(states, steps) && Init(states[0]) && k < |states|
    ensures ResumeOk(states[k])
  {
    hide Enabled, Apply, Accounted;
    if k > 0 {
      AlwaysResumes(states, steps, k - 1);
      AlwaysAccounted(states, steps, k - 1);
      assert Next(states[k - 1], steps[k - 1], states[k - 1 + 1]);
      hide ResumeOk;
      StepKeepsResume(states[k - 1], steps[k - 1]);
    }
  }

  /** In every run a process released by a notification gets Ready at its next poll: it is never
      left pending. */
  lemma ReleasedProcessIsReady(states: seq<State>, steps: seq<Step>, k: nat)
    requires Path(states, steps) && Init(states[0]) && k < |steps| && steps[k].Poll?
    ensures var p := steps[k].p;
      && p in states[k].resuming && IsTriggered(states[k], states[k].resuming[p], p)
      && p !in states[k + 1].resuming && p in states[k + 1].runnable
  {
    AlwaysResumes(states, steps, k);
    assert Next(states[k], steps[k], states[k + 1]);
  }

  /** What a notification does to the waits it releases: each of their processes may run, is yet to be polled
      for that very event, and does not count as running before. */
  lemma ReleasedIsPolledFirst(states: seq<State>, steps: seq<Step>, k: nat, w: nat)
    requires Path(states, steps) && Init(states[0]) && k < |steps| && steps[k].FireOne?
    requires |states[k + 1].log| == |states[k].log| + 1 && w in states[k + 1].log[|states[k].log|].served
    ensures w < |states[k + 1].issued| && states[k + 1].issued[w].order.WaitOn?
    ensures var t, o := states[k + 1], states[k + 1].issued[w].order;
      o.w in t.runnable && o.w in t.resuming && t.resuming[o.w] == o.evt && !Running(t, o.w)
  {
    R.AlwaysInv(states, steps, k);
    assert Next(states[k], steps[k], states[k + 1]);
    hide Path, Init;
    FiredIsPolledFirst(states[k], R.ReadTicks(states, steps, k), steps[k].i, w);
  }

  lemma FiredIsPolledFirst(s: State, r: R.Reads, i: nat, w: nat)
    requires R.Inv(s, r) && MayFire(s, i) && w in DoFire(s, i).log[|s.log|].served
    ensures w < |s.issued| && s.issued[w].order.WaitOn? && DoFire(s, i).issued == s.issued
    ensures var t, o := DoFire(s, i), s.issued[w].order; o.w in t.runnable && o.w in t.resuming && t.resuming[o.w] == o.evt
  {
    hide R.QueueOk, R.HeapOk, R.LogOk, R.ListedOrServed, R.NoneMissed, RemoveAt;
    var e := s.heap[i].val.evt;
    var ws := Waiters(s.waitOn, e);
    var j :| 0 <= j < |Ids(ws)| && Ids(ws)[j] == w;
    assert R.WaiterOk(s, r, e, s.waitOn[e][j]);
    assert ws[j].val == s.issued[w].order.w && Pids(ws)[j] == ws[j].val;
  }
}
