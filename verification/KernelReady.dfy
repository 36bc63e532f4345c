/** When an awaiting process goes on at once: exactly when its event fired in this delta-cycle and the
    process was not let through in it before. */
module KernelReady {
  import opened Gathering
  import opened Kernel
  import R = KernelReads
  import KernelResume
  import KernelCensus
  import KernelTiming

  /** A notification of event `e` took effect at the present tick. */
  predicate FiredNow(s: State, e: EventId) {
    exists j :: 0 <= j < |s.log| && FiresAt(s, j, e)
  }

  predicate FiresAt(s: State, j: nat, e: EventId)
    requires j < |s.log|
  {
    && s.log[j].tick == s.tick && s.log[j].src < |s.issued|
    && s.issued[s.log[j].src].order.NotifyAt? && s.issued[s.log[j].src].order.evt == e
  }

  /** The events recorded as triggered are those that fired at the present tick. */
  ghost predicate TriggeredOk(s: State) {
    forall e :: e in s.triggered <==> FiredNow(s, e)
  }

  /** Log and orders only grow, and the clock stands still. */
  predicate Grows(s: State, t: State) {
    t.log == s.log && t.tick == s.tick && s.issued <= t.issued && t.triggered == s.triggered
  }

  lemma GrowsKeeps(s: State, r: R.Reads, t: State)
    requires TriggeredOk(s) && R.Inv(s, r) && Grows(s, t)
    ensures TriggeredOk(t)
  {
    forall j | 0 <= j < |s.log|
      ensures s.log[j].src < |s.issued| && t.issued[s.log[j].src] == s.issued[s.log[j].src]
    {
      assert R.FiringOk(s.issued, r, s.log[j]);
    }
    forall e
      ensures FiredNow(t, e) <==> FiredNow(s, e)
    {
      assert forall j :: 0 <= j < |s.log| ==> (FiresAt(t, j, e) <==> FiresAt(s, j, e));
    }
  }

  /** One more entry in the log, and its event, if it is a notification, among the triggered ones. */
  lemma EntryKeeps(s: State, t: State, f: Firing)
    requires TriggeredOk(s) && t.log == s.log + [f] && t.tick == s.tick == f.tick && t.issued == s.issued
    requires f.src < |s.issued|
    requires forall e :: e in t.triggered <==> e in s.triggered || (s.issued[f.src].order.NotifyAt? && s.issued[f.src].order.evt == e)
    ensures TriggeredOk(t)
  {
    forall e
      ensures e in t.triggered <==> FiredNow(t, e)
    {
      assert forall j :: 0 <= j < |s.log| ==> t.log[j] == s.log[j] && (FiresAt(t, j, e) <==> FiresAt(s, j, e));
      assert FiresAt(t, |s.log|, e) <==> s.issued[f.src].order.NotifyAt? && s.issued[f.src].order.evt == e;
    }
  }

  lemma FireKeeps(s: State, r: R.Reads, i: nat)
    requires TriggeredOk(s) && R.Inv(s, r) && MayFire(s, i)
    ensures TriggeredOk(DoFire(s, i))
  {
    hide RemoveAt, TriggeredOk;
    var k := s.heap[i];
    assert R.Made(s.issued[k.id].order, r[k.id], k.val);
    var t := DoFire(s, i);
    EntryKeeps(s, t, t.log[|s.log|]);
  }

  lemma DrainKeeps(s: State, r: R.Reads)
    requires TriggeredOk(s) && R.Inv(s, r) && s.control.Drain? && s.orderQ != []
    ensures TriggeredOk(DrainFirst(s))
  {
    hide TriggeredOk;
    var o, t := s.orderQ[0], DrainFirst(s);
    assert s.issued[o.id].order == o.val;
    if o.val.Exit? {
      EntryKeeps(s, t, t.log[|s.log|]);
    } else {
      GrowsKeeps(s, r, t);
    }
  }

  /** Nothing has fired yet at the tick to which the clock jumps. */
  lemma JumpKeeps(s: State, r: R.Reads)
    requires TriggeredOk(s) && R.Inv(s, r) && s.control.Advance?
    ensures TriggeredOk(JumpTime(s))
  {
    hide MinIndex;
    var t := JumpTime(s);
    if t.control.Fire? {
      assert s.tick < t.tick;
      forall e
        ensures !FiredNow(t, e)
      {
        assert forall j :: 0 <= j < |t.log| ==> t.log[j].tick <= s.tick;
      }
    } else {
      hide TriggeredOk;
      GrowsKeeps(s, r, t);
    }
  }

  lemma OthersGrow(s: State, step: Step)
    requires Enabled(s, step) && !step.DrainOne? && !step.FireOne? && !step.Jump?
    ensures Grows(s, Apply(s, step))
  {
  }

  lemma StepKeeps(s: State, r: R.Reads, step: Step)
    requires TriggeredOk(s) && R.Inv(s, r) && Enabled(s, step)
    ensures TriggeredOk(Apply(s, step))
  {
    hide TriggeredOk, R.Inv, JumpTime, DoFire, DrainFirst, MayFire, PushOrder, AwaitEvent, PollEvent, ControlApply;
    if step.DrainOne? {
      DrainKeeps(s, r);
    } else if step.FireOne? {
      FireKeeps(s, r, step.i);
    } else if step.Jump? {
      JumpKeeps(s, r);
    } else {
      OthersGrow(s, step);
      hide Apply, Enabled;
      GrowsKeeps(s, r, Apply(s, step));
    }
  }

  lemma {:induction false} AlwaysTriggered(states: seq<State>, steps: seq<Step>, k: nat)
    requires Path(states, steps) && Init(states[0]) && k < |states|
    ensures TriggeredOk(states[k])
  {
    hide Enabled, Apply;
    if k > 0 {
      AlwaysTriggered(states, steps, k - 1);
      R.AlwaysInv(states, steps, k - 1);
      assert Next(states[k - 1], steps[k - 1], states[k - 1 + 1]);
      hide Init, TriggeredOk, R.Inv;
      StepKeeps(states[k - 1], R.ReadTicks(states, steps, k - 1), steps[k - 1]);
    }
  }

  // ------------------------------------------------------------ who was let through

  /** Step `k` polls a wait of process `p` for event `e`: an await, or the poll after a release. */
  predicate Polls(states: seq<State>, steps: seq<Step>, k: nat, p: Pid, e: EventId) {
    && k < |steps| < |states|
    && (steps[k] == Await(p, e) || (steps[k] == Poll(p) && p in states[k].resuming && states[k].resuming[p] == e))
  }

  /** It lets the process go on. */
  predicate LetsThrough(states: seq<State>, steps: seq<Step>, k: nat, p: Pid) {
    && k < |steps| < |states| && (steps[k].Await? || steps[k].Poll?) && steps[k].p == p
    && Running(states[k + 1], p)
  }

  /** Process `p` was let through at the present tick, by one of the first `n` steps. */
  predicate WentOn(states: seq<State>, steps: seq<Step>, n: nat, p: Pid)
    requires n <= |steps| < |states|
  {
    exists k: nat :: k < n && states[k].tick == states[n].tick && LetsThrough(states, steps, k, p)
  }

  /** The processes recorded as woken are those let through at the present tick. */
  ghost predicate WokenOk(states: seq<State>, steps: seq<Step>, n: nat)
    requires n <= |steps| < |states|
  {
    forall p :: p in states[n].woken <==> WentOn(states, steps, n, p)
  }

  lemma AwaitRuns(s: State, p: Pid, e: EventId)
    requires Enabled(s, Await(p, e))
    ensures var t := Apply(s, Await(p, e));
      && t.tick == s.tick && (Running(t, p) <==> IsTriggered(s, e, p))
      && t.woken == (if Running(t, p) then s.woken + [p] else s.woken)
      && t.issued == (if Running(t, p) then s.issued else s.issued + [Issued(WaitOn(e, p), s.tick)])
      && (!Running(t, p) ==> p !in t.runnable)
  {
  }

  lemma PollRuns(s: State, p: Pid)
    requires Enabled(s, Poll(p)) && KernelResume.ResumeOk(s)
    ensures var t := Apply(s, Poll(p));
      && t.tick == s.tick && (Running(t, p) <==> IsTriggered(s, s.resuming[p], p))
      && t.woken == (if Running(t, p) then s.woken + [p] else s.woken) && t.issued == s.issued
  {
  }

  lemma OthersKeepWoken(s: State, r: R.Reads, step: Step)
    requires Enabled(s, step) && !step.Await? && !step.Poll? && R.Inv(s, r)
    ensures var t := Apply(s, step);
      if t.tick == s.tick then t.woken == s.woken else t.woken == [] && s.tick < t.tick
  {
    hide MinIndex, RemoveAt, R.QueueOk, R.WaitersOk, R.LogOk, R.ListedOrServed, R.NoneMissed;
  }

  lemma {:induction false} TickGrows(states: seq<State>, steps: seq<Step>, i: nat, j: nat)
    requires Path(states, steps) && Init(states[0]) && i <= j < |states|
    ensures states[i].tick <= states[j].tick
    decreases j
  {
    if i < j {
      TickGrows(states, steps, i, j - 1);
      KernelTiming.CyclesBoundedByTime(states, steps, j);
    }
  }

  /** What step `n` adds to those let through at the present tick. */
  lemma WentOnNext(states: seq<State>, steps: seq<Step>, n: nat, p: Pid)
    requires n < |steps| < |states| && states[n].tick == states[n + 1].tick
    ensures WentOn(states, steps, n + 1, p) <==> WentOn(states, steps, n, p) || LetsThrough(states, steps, n, p)
  {
    hide LetsThrough;
  }

  lemma WokenNext(states: seq<State>, steps: seq<Step>, n: nat)
    requires Path(states, steps) && Init(states[0]) && n < |steps| && WokenOk(states, steps, n)
    requires states[n].tick == states[n + 1].tick
    ensures WokenOk(states, steps, n + 1)
  {
    R.AlwaysInv(states, steps, n);
    KernelResume.AlwaysResumes(states, steps, n);
    var s, step := states[n], steps[n];
    assert Next(s, step, states[n + 1]);
    hide Init, R.Inv, KernelResume.ResumeOk, Enabled, Apply, WentOn;
    if step.Await? {
      AwaitRuns(s, step.p, step.evt);
    } else if step.Poll? {
      PollRuns(s, step.p);
    } else {
      OthersKeepWoken(s, R.ReadTicks(states, steps, n), step);
    }
    var m, woken := n + 1, states[n + 1].woken;
    forall p
      ensures p in woken <==> WentOn(states, steps, m, p)
    {
      WentOnNext(states, steps, n, p);
    }
  }

  lemma NobodyYet(states: seq<State>, steps: seq<Step>, n: nat)
    requires Path(states, steps) && Init(states[0]) && n < |steps| && states[n].tick < states[n + 1].tick
    ensures WokenOk(states, steps, n + 1)
  {
    R.AlwaysInv(states, steps, n);
    KernelResume.AlwaysResumes(states, steps, n);
    var s, step := states[n], steps[n];
    assert Next(s, step, states[n + 1]);
    hide R.Inv, KernelResume.ResumeOk, Enabled, Apply, LetsThrough;
    if step.Await? {
      AwaitRuns(s, step.p, step.evt);
    } else if step.Poll? {
      PollRuns(s, step.p);
    } else {
      OthersKeepWoken(s, R.ReadTicks(states, steps, n), step);
    }
    forall k: nat | k < n + 1
      ensures states[k].tick < states[n + 1].tick
    {
      TickGrows(states, steps, k, n);
    }
  }

  lemma {:induction false} AlwaysWoken(states: seq<State>, steps: seq<Step>, n: nat)
    requires Path(states, steps) && Init(states[0]) && n < |states|
    ensures WokenOk(states, steps, n)
  {
    hide Next;
    if n > 0 {
      AlwaysWoken(states, steps, n - 1);
      TickGrows(states, steps, n - 1, n);
      hide Init, WokenOk;
      if states[n - 1].tick == states[n].tick {
        WokenNext(states, steps, n - 1);
      } else {
        NobodyYet(states, steps, n - 1);
      }
    }
  }

  /** In every run a process that awaits event e, or is polled after a release from it, goes on at once if and
      only if a notification of e took effect at the present tick and no earlier wait let the process go on at
      that tick; a first wait that does not let it go on stops it and orders one WaitOn, and no other poll
      orders anything. */
  lemma GoesOnIff(states: seq<State>, steps: seq<Step>, n: nat, p: Pid, e: EventId)
    requires Path(states, steps) && Init(states[0]) && Polls(states, steps, n, p, e)
    ensures Running(states[n + 1], p) <==> FiredNow(states[n], e) && !WentOn(states, steps, n, p)
    ensures states[n + 1].issued ==
      states[n].issued + (if steps[n].Await? && !Running(states[n + 1], p) then [Issued(WaitOn(e, p), states[n].tick)] else [])
    ensures steps[n].Await? && !Running(states[n + 1], p) ==> p !in states[n + 1].runnable
  {
    AlwaysTriggered(states, steps, n);
    AlwaysWoken(states, steps, n);
    KernelResume.AlwaysResumes(states, steps, n);
    assert Next(states[n], steps[n], states[n + 1]);
    hide Init, KernelResume.ResumeOk, Enabled, Apply, WentOn, FiredNow;
    if steps[n].Await? {
      AwaitRuns(states[n], p, e);
    } else {
      PollRuns(states[n], p);
    }
  }
}
