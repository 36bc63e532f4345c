/** When the scheduler can rely on its view of the processes: exactly when, at the time it clears the
    hand-over counters, no waiter was handed a lock and no blocked end of a channel can go on, nobody
    comes back before the clock is updated, and then every order takes effect on time. */
module KernelQuiet {
  import opened Wrappers
  import opened Gathering
  import opened KernelCensus
  import opened KernelHandOver
  import opened KernelResume
  import K = Kernel
  import R = KernelReads
  import T = KernelTiming

  ghost predicate NoneReady(s: State) {
    forall c :: 0 <= c < |s.channels| ==>
      var ch := s.channels[c];
      !(ch.sender.Some? && ch.items < ch.cap) && !(ch.receiver.Some? && ch.items > 0)
  }

  /** Nobody runs, and nobody waits for something that is already there. */
  ghost predicate Quiet(s: State) { s.k.runnable == {} && NoneGranted(s) && NoneReady(s) }

  lemma QuietStep(s: State, step: Step)
    requires Quiet(s) && Settled(s.k.control) && Enabled(s, step)
    ensures step.Other? && !step.step.Push? && !step.step.Await?
  {
    hide K.Apply;
  }

  lemma SettledStep(k: K.State, step: K.Step)
    requires Settled(k.control) && OtherEnabled(k, step) && k.runnable == {}
    ensures var t := K.Apply(k, step); Settled(t.control) ==> t.runnable == {} && t.issued == k.issued && t.tick == k.tick
    ensures K.Apply(k, step).issued == k.issued
  {
    hide K.MinIndex, RemoveAt;
  }

  /** In a quiet system nothing is ordered, and it stays quiet until the clock is updated. */
  lemma QuietStays(s: State, step: Step)
    requires Quiet(s) && Settled(s.k.control) && Enabled(s, step)
    ensures var t := Apply(s, step);
      Settled(t.k.control) ==> Quiet(t) && t.k.tick == s.k.tick
    ensures Apply(s, step).k.issued == s.k.issued
  {
    QuietStep(s, step);
    SettledStep(s.k, step.step);
    hide K.Apply, K.Enabled, OtherEnabled;
  }

  /** No process comes back, whatever the runtime schedules, from a quiet state up to the next update of
      the clock. */
  lemma {:induction false} NobodyComesBack(states: seq<State>, steps: seq<Step>, a: nat, b: nat)
    requires Path(states, steps) && a <= b < |states| && Quiet(states[a])
    requires forall i :: a <= i <= b ==> Settled(states[i].k.control)
    ensures Quiet(states[b]) && states[b].k.issued == states[a].k.issued && states[b].k.tick == states[a].k.tick
    decreases b
  {
    hide Quiet, Enabled, Apply, Settled;
    if a < b {
      NobodyComesBack(states, steps, a, b - 1);
      assert Next(states[b - 1], steps[b - 1], states[b - 1 + 1]);
      QuietStays(states[b - 1], steps[b - 1]);
    }
  }

  lemma GrantedIsBlocked(s: State, i: nat)
    requires WaitsOnce(s) && i < |s.ports| && s.ports[i].holder.Granted?
    ensures s.ports[i].holder.p in s.k.blocked
  {
    hide Gather;
    var p := s.ports[i].holder.p;
    GatherMember(s.ports, i, PortPids);
    assert Waits(s, p) == Bit(p in s.k.blocked);
    assert p in PortPids(s.ports[i]);
  }

  lemma ReadyIsBlocked(s: State, c: nat)
    requires WaitsOnce(s) && c < |s.channels|
    ensures s.channels[c].sender.Some? ==> s.channels[c].sender.value in s.k.blocked
    ensures s.channels[c].receiver.Some? ==> s.channels[c].receiver.value in s.k.blocked
  {
    hide Gather;
    GatherMember(s.channels, c, ChannelPids);
    if s.channels[c].sender.Some? {
      var p := s.channels[c].sender.value;
      assert Waits(s, p) == Bit(p in s.k.blocked);
      assert p in ChannelPids(s.channels[c]);
    }
    if s.channels[c].receiver.Some? {
      var p := s.channels[c].receiver.value;
      assert Waits(s, p) == Bit(p in s.k.blocked);
      assert p in ChannelPids(s.channels[c]);
    }
  }

  /** A run of the closing phase, from `s`, at whose end some process runs. */
  ghost predicate ComesBack(s: State, states: seq<State>, steps: seq<Step>) {
    && Path(states, steps) && states[0] == s && states[|steps|].k.runnable != {}
    && forall i :: 0 <= i < |states| ==> Settled(states[i].k.control)
  }

  lemma BackAtOnce(s: State, step: Step)
    requires Enabled(s, step) && Settled(s.k.control) && (step.Resume? || step.Sent? || step.Received?)
    ensures ComesBack(s, [s, Apply(s, step)], [step])
  {
    var t := Apply(s, step);
    assert Next(s, step, t);
    assert t.k.runnable != {} by {
      if step.Resume? {
        assert s.ports[step.i].holder.p in t.k.runnable;
      } else if step.Sent? {
        assert s.channels[step.c].sender.value in t.k.runnable;
      } else {
        assert s.channels[step.c].receiver.value in t.k.runnable;
      }
    }
    assert t.k.control == s.k.control;
    hide Next;
    assert Path([s, t], [step]);
  }

  lemma PendingComesBack(s: State) returns (step: Step)
    requires WaitsOnce(s) && PortsOk(s) && !(NoneGranted(s) && NoneReady(s))
    ensures Enabled(s, step) && (step.Resume? || step.Sent? || step.Received?)
  {
    hide WaitsOnce, K.Enabled;
    if !NoneGranted(s) {
      var i :| 0 <= i < |s.ports| && s.ports[i].holder.Granted?;
      GrantedIsBlocked(s, i);
      assert PortOk(s.ports[i]);
      step := Resume(i);
    } else {
      var c :| 0 <= c < |s.channels| && (SenderReady(s.channels[c]) || ReceiverReady(s.channels[c]));
      ReadyIsBlocked(s, c);
      step := if SenderReady(s.channels[c]) then Sent(c) else Received(c);
    }
  }

  /** Exactly when: with nobody running, a process can come back before the clock is updated if and only
      if a waiter was handed its lock or a blocked end of a channel can go on. */
  lemma ComesBackIff(s: State)
    requires Inv(s) && Settled(s.k.control) && s.k.runnable == {}
    ensures (exists states, steps :: ComesBack(s, states, steps)) <==> !(NoneGranted(s) && NoneReady(s))
  {
    hide WaitsOnce, PortsOk, Accounted, Counted, NoneGranted, NoneReady, Settled, Enabled, Apply;
    if NoneGranted(s) && NoneReady(s) {
      forall states, steps
        ensures !ComesBack(s, states, steps)
      {
        if ComesBack(s, states, steps) {
          NobodyComesBack(states, steps, 0, |steps|);
          assert false;
        }
      }
    } else {
      var step := PendingComesBack(s);
      BackAtOnce(s, step);
    }
  }

  /** The counters decide the locks but not the channels: when the scheduler, having lost nothing so far,
      finds nobody alive and the counters equal, a process comes back only through a channel. */
  lemma EqualCountersLeaveChannels(s: State)
    requires Inv(s) && Settled(s.k.control) && s.base == 0 && s.k.alivePrc == 0
    ensures (exists states, steps :: ComesBack(s, states, steps)) <==> !(s.k.unlockEvt == s.k.unlockedPrc && NoneReady(s))
  {
    assert s.k.runnable == {};
    SafeToClose(s);
    ComesBackIff(s);
  }

  // ------------------------------------------------------------ timing

  /** Whenever the scheduler clears the counters in the first `n` steps, nobody is alive, the counters are
      equal and no blocked end of a channel can go on. */
  ghost predicate ClosedQuietly(states: seq<State>, steps: seq<Step>, n: nat)
    requires n <= |steps| < |states|
  {
    forall i :: 0 <= i < n && steps[i] == Other(K.ClearCounters) ==>
      states[i].k.alivePrc == 0 && states[i].k.unlockEvt == states[i].k.unlockedPrc && NoneReady(states[i])
  }

  predicate Closed(c: K.Control) { c.Drain? || c.Advance? }

  lemma KernelEntersClosed(k: K.State, step: K.Step)
    requires K.Enabled(k, step) && !Closed(k.control) && Closed(K.Apply(k, step).control)
    ensures step.ClearCounters?
  {
    hide K.MinIndex, RemoveAt;
  }

  lemma OthersKeepControl(s: State, step: Step)
    requires Enabled(s, step) && !step.Other?
    ensures Apply(s, step).k.control == s.k.control
  {
  }

  lemma EntersClosed(s: State, step: Step)
    requires Enabled(s, step) && !Closed(s.k.control) && Closed(Apply(s, step).k.control)
    ensures step == Other(K.ClearCounters)
  {
    if step.Other? {
      KernelEntersClosed(s.k, step.step);
    } else {
      OthersKeepControl(s, step);
    }
  }

  lemma ClearIsQuiet(s: State)
    requires Inv(s) && s.base == 0 && s.k.alivePrc == 0 && s.k.unlockEvt == s.k.unlockedPrc && NoneReady(s)
    requires s.k.control.Clear?
    ensures Quiet(s) && Outstanding(s.ports) == 0
  {
    SafeToClose(s);
    NoneOutstanding(s.ports);
  }

  lemma {:induction false} ClosedIsQuiet(states: seq<State>, steps: seq<Step>, n: nat)
    requires Path(states, steps) && Init(states[0]) && n < |states| && ClosedQuietly(states, steps, n)
    ensures states[n].base == 0 && (Closed(states[n].k.control) ==> Quiet(states[n]))
  {
    hide Enabled, Apply, Quiet, Inv, Outstanding;
    if n > 0 {
      var s, step := states[n - 1], steps[n - 1];
      ClosedIsQuiet(states, steps, n - 1);
      AlwaysInv(states, steps, n - 1);
      assert Next(states[n - 1], steps[n - 1], states[n - 1 + 1]);
      StepKeepsBase(s, step);
      hide Init;
      if step == Other(K.ClearCounters) {
        assert s.k.control.Clear? by { ClearsInClear(s); }
        hide NoneReady;
        ClearIsQuiet(s);
      }
      if Closed(states[n].k.control) {
        if !Closed(s.k.control) {
          EntersClosed(s, step);
        }
        QuietStays(s, step);
      }
    }
  }

  lemma ClearsInClear(s: State)
    requires Enabled(s, Other(K.ClearCounters))
    ensures s.k.control.Clear?
  {
  }

  /** Each issued order was issued by some step of the run. */
  lemma {:induction false} SomeStepIssued(ks: seq<K.State>, kst: seq<K.Step>, k: nat, n: nat) returns (i: nat)
    requires K.Path(ks, kst) && K.Init(ks[0]) && k < |ks| && n < |ks[k].issued|
    ensures i < k && T.IssuedBy(ks, kst, i, n)
  {
    assert K.Next(ks[k - 1], kst[k - 1], ks[k - 1 + 1]);
    IssuesOne(ks[k - 1], kst[k - 1]);
    if n < |ks[k - 1].issued| {
      i := SomeStepIssued(ks, kst, k - 1, n);
    } else {
      i := k - 1;
    }
  }

  lemma IssuesOne(k: K.State, step: K.Step)
    requires K.Enabled(k, step)
    ensures |k.issued| <= |K.Apply(k, step).issued| <= |k.issued| + 1
  {
    hide K.MinIndex, RemoveAt;
  }

  /** What that means for time: if every clear so far was quiet, every delay and notification that took
      effect did so at exactly max(c + 1, t) for the tick c at which it was ordered, whatever the ports
      and channels did in between. */
  lemma QuietRunsAreOnTime(states: seq<State>, steps: seq<Step>, n: nat, j: nat)
    requires Path(states, steps) && Init(states[0]) && n < |states| && ClosedQuietly(states, steps, n)
    requires j < |states[n].k.log|
    ensures var k := states[n].k; k.log[j].src < |k.issued|
    ensures var k := states[n].k; T.Timed(k.issued[k.log[j].src].order) ==>
      k.log[j].tick == K.Due(k.issued[k.log[j].src].at, k.issued[k.log[j].src].order.t)
  {
    forall i | 0 <= i < n && states[i].k.control.Advance?
      ensures |states[i + 1].k.issued| == |states[i].k.issued|
    {
      ClosedIsQuiet(states, steps, i);
      assert Next(states[i], steps[i], states[i + 1]);
      hide Enabled, Apply, Quiet, ClosedQuietly;
      QuietStays(states[i], steps[i]);
    }
    assert K.Init(states[0].k);
    hide Path, Init, ClosedQuietly, K.Path, K.Init;
    var ks, kst := RunsAreKernelRuns(states, steps, n);
    KernelOnTime(ks, kst, |kst|, j);
  }

  lemma KernelOnTime(ks: seq<K.State>, kst: seq<K.Step>, k: nat, j: nat)
    requires K.Path(ks, kst) && K.Init(ks[0]) && k == |kst| && NoneInAdvance(ks, kst) && j < |ks[k].log|
    ensures var s := ks[k]; s.log[j].src < |s.issued|
    ensures var s := ks[k]; T.Timed(s.issued[s.log[j].src].order) ==>
      s.log[j].tick == K.Due(s.issued[s.log[j].src].at, s.issued[s.log[j].src].order.t)
  {
    hide K.Path, K.Init;
    var r := R.ReadTicks(ks, kst, k);
    R.AlwaysInv(ks, kst, k);
    assert R.FiringOk(ks[k].issued, r, ks[k].log[j]);
    hide R.Inv;
    var n := ks[k].log[j].src;
    if T.Timed(ks[k].issued[n].order) {
      var i := SomeStepIssued(ks, kst, k, n);
      T.OnTimeIff(ks, kst, i, k, j);
    }
  }
}
