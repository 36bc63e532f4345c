/** Port locks and channels over the kernel: the FIFO mutex around a port endpoint, the bounded
    channel behind it, and the two counters with which the scheduler learns that a waiter was handed
    a lock and did not run yet. */
module KernelHandOver {
  import opened Wrappers
  import opened Gathering
  import opened KernelCensus
  import K = Kernel

  type Pid = K.Pid

  datatype Holder =
    | Free
    | Held(p: Pid)
    | Granted(p: Pid)   // the lock was handed to waiter p, which did not resume yet

  /** `waiters` is the atomic counter beside the mutex; `queue` is the mutex's own FIFO. */
  datatype Port = Port(holder: Holder, queue: seq<Pid>, waiters: nat)

  /** A bounded FIFO of `items` packets. Its ends are used under their port locks, so that at most one
      process waits for room and at most one for a packet. `sent` and `got` are history: how many packets
      went in and came out. */
  datatype Channel = Channel(cap: nat, items: nat, sender: Option<Pid>, receiver: Option<Pid>, sent: nat, got: nat)

  /** `base` is history: locks granted and not resumed at the last clear. */
  datatype State = State(k: K.State, ports: seq<Port>, channels: seq<Channel>, base: nat)

  datatype Step =
    | TryLock(p: Pid, i: nat)
    | Block(p: Pid, i: nat)
    | Drop(p: Pid, i: nat)
    | Resume(i: nat)
    | Send(p: Pid, c: nat)
    | BlockSend(p: Pid, c: nat)
    | Sent(c: nat)
    | Receive(p: Pid, c: nat)
    | BlockReceive(p: Pid, c: nat)
    | Received(c: nat)
    | Other(step: K.Step)   // every step that is not about ports

  function Pending(port: Port): nat { if port.holder.Granted? then 1 else 0 }

  /** Waiters that were handed a lock and did not resume yet, over all ports. */
  function Outstanding(ports: seq<Port>): nat {
    if ports == [] then 0 else Pending(ports[0]) + Outstanding(ports[1..])
  }

  /** A process is spawned by a process, or before the simulation runs. */
  predicate OtherEnabled(k: K.State, step: K.Step) {
    && !step.Lock? && !step.Unlock? && !step.HandOver? && K.Enabled(k, step)
    && (step.Register? ==> k.control.Idle? || k.runnable != {})
  }

  predicate SenderReady(c: Channel) { c.sender.Some? && c.items < c.cap }

  predicate ReceiverReady(c: Channel) { c.receiver.Some? && c.items > 0 }

  predicate Enabled(s: State, step: Step) {
    match step
    case TryLock(p, i) => K.Running(s.k, p) && i < |s.ports| && s.ports[i].holder.Free?
    case Block(p, i) => K.Running(s.k, p) && i < |s.ports| && !s.ports[i].holder.Free?
    case Drop(p, i) => K.Running(s.k, p) && i < |s.ports| && s.ports[i].holder == Held(p)
    case Resume(i) =>
      i < |s.ports| && s.ports[i].holder.Granted? && s.ports[i].waiters > 0 && s.ports[i].holder.p in s.k.blocked
    case Send(p, c) => K.Running(s.k, p) && c < |s.channels| && s.channels[c].sender.None? && s.channels[c].items < s.channels[c].cap
    case BlockSend(p, c) => K.Running(s.k, p) && c < |s.channels| && s.channels[c].sender.None? && s.channels[c].items >= s.channels[c].cap
    case Sent(c) => c < |s.channels| && SenderReady(s.channels[c]) && s.channels[c].sender.value in s.k.blocked
    case Receive(p, c) => K.Running(s.k, p) && c < |s.channels| && s.channels[c].receiver.None? && s.channels[c].items > 0
    case BlockReceive(p, c) => K.Running(s.k, p) && c < |s.channels| && s.channels[c].receiver.None? && s.channels[c].items == 0
    case Received(c) => c < |s.channels| && ReceiverReady(s.channels[c]) && s.channels[c].receiver.value in s.k.blocked
    case Other(step) => OtherEnabled(s.k, step)
  }

  function Release(port: Port): Port {
    if port.queue == [] then port.(holder := Free)
    else port.(holder := Granted(port.queue[0]), queue := port.queue[1..])
  }

  function PutIn(c: Channel): Channel { c.(items := c.items + 1, sent := c.sent + 1) }

  function TakeOut(c: Channel): Channel
    requires c.items > 0
  {
    c.(items := c.items - 1, got := c.got + 1)
  }

  /** A process back from a channel announces and counts itself. */
  function Back(k: K.State, p: Pid): K.State { K.DoUnlock(k.(unlockEvt := k.unlockEvt + 1), p) }

  function SetPort(s: State, i: nat, port: Port): State
    requires i < |s.ports|
  {
    s.(ports := s.ports[i := port])
  }

  function SetChannel(s: State, c: nat, channel: Channel): State
    requires c < |s.channels|
  {
    s.(channels := s.channels[c := channel])
  }

  function Apply(s: State, step: Step): State
    requires Enabled(s, step)
  {
    match step
    case TryLock(p, i) => SetPort(s, i, s.ports[i].(holder := Held(p)))
    case Block(p, i) =>
      SetPort(s, i, s.ports[i].(queue := s.ports[i].queue + [p], waiters := s.ports[i].waiters + 1)).(k := K.DoLock(s.k, p))
    case Drop(p, i) =>
      SetPort(s, i, Release(s.ports[i])).(
        k := if s.ports[i].waiters > 0 then s.k.(unlockEvt := s.k.unlockEvt + 1) else s.k)
    case Resume(i) =>
      var p := s.ports[i].holder.p;
      SetPort(s, i, s.ports[i].(holder := Held(p), waiters := s.ports[i].waiters - 1)).(k := K.DoUnlock(s.k, p))
    case Send(p, c) => SetChannel(s, c, PutIn(s.channels[c]))
    case BlockSend(p, c) => SetChannel(s, c, s.channels[c].(sender := Some(p))).(k := K.DoLock(s.k, p))
    case Sent(c) =>
      SetChannel(s, c, PutIn(s.channels[c]).(sender := None)).(k := Back(s.k, s.channels[c].sender.value))
    case Receive(p, c) => SetChannel(s, c, TakeOut(s.channels[c]))
    case BlockReceive(p, c) => SetChannel(s, c, s.channels[c].(receiver := Some(p))).(k := K.DoLock(s.k, p))
    case Received(c) =>
      SetChannel(s, c, TakeOut(s.channels[c]).(receiver := None)).(k := Back(s.k, s.channels[c].receiver.value))
    case Other(step) =>
      s.(k := K.Apply(s.k, step), base := if step.ClearCounters? then Outstanding(s.ports) else s.base)
  }

  predicate Next(s: State, step: Step, s': State) { Enabled(s, step) && s' == Apply(s, step) }

  predicate Path(states: seq<State>, steps: seq<Step>) {
    && |states| == |steps| + 1
    && forall i :: 0 <= i < |steps| ==> Next(states[i], steps[i], states[i + 1])
  }

  predicate Init(s: State) {
    && K.Init(s.k) && s.base == 0
    && (forall i :: 0 <= i < |s.ports| ==> s.ports[i] == Port(Free, [], 0))
    && (forall c :: 0 <= c < |s.channels| ==> s.channels[c] == Channel(s.channels[c].cap, 0, None, None, 0, 0))
  }

  // ------------------------------------------------------------ the kernel's part

  /** What a step is to the kernel: nothing, one of its steps, or an announcement and an unlock. */
  function KernelSteps(s: State, step: Step): seq<K.Step>
    requires Enabled(s, step)
  {
    match step
    case TryLock(_, _) => []
    case Block(p, _) => [K.Lock(p)]
    case Drop(_, i) => if s.ports[i].waiters > 0 then [K.HandOver] else []
    case Resume(i) => [K.Unlock(s.ports[i].holder.p)]
    case Send(_, _) => []
    case BlockSend(p, _) => [K.Lock(p)]
    case Sent(c) => [K.HandOver, K.Unlock(s.channels[c].sender.value)]
    case Receive(_, _) => []
    case BlockReceive(p, _) => [K.Lock(p)]
    case Received(c) => [K.HandOver, K.Unlock(s.channels[c].receiver.value)]
    case Other(step) => [step]
  }

  /** `steps` take the kernel from `k` to `t`. */
  predicate Takes(k: K.State, steps: seq<K.Step>, t: K.State)
    decreases |steps|
  {
    if steps == [] then t == k
    else K.Enabled(k, steps[0]) && Takes(K.Apply(k, steps[0]), steps[1..], t)
  }

  lemma StepTakes(s: State, step: Step)
    requires Enabled(s, step)
    ensures Takes(s.k, KernelSteps(s, step), Apply(s, step).k)
  {
    var ks := KernelSteps(s, step);
    if |ks| == 2 {
      assert ks[1..][1..] == [];
    } else if |ks| == 1 {
      assert ks[1..] == [];
    }
  }

  /** No order is issued while the scheduler stands in Advance. */
  predicate NoneInAdvance(ks: seq<K.State>, kst: seq<K.Step>) {
    |ks| == |kst| + 1 && forall i :: 0 <= i < |kst| && ks[i].control.Advance? ==> |ks[i + 1].issued| == |ks[i].issued|
  }

  lemma {:induction false} TakesOnlyAdds(k: K.State, steps: seq<K.Step>, t: K.State)
    requires Takes(k, steps, t)
    ensures |k.issued| <= |t.issued|
    decreases |steps|
  {
    if steps != [] {
      StepOnlyAdds(k, steps[0]);
      hide K.Apply, K.Enabled;
      TakesOnlyAdds(K.Apply(k, steps[0]), steps[1..], t);
    }
  }

  lemma StepOnlyAdds(k: K.State, step: K.Step)
    requires K.Enabled(k, step)
    ensures |k.issued| <= |K.Apply(k, step).issued|
  {
    hide K.MinIndex, RemoveAt;
  }

  lemma ExtendNone(ks: seq<K.State>, kst: seq<K.Step>, step: K.Step, t: K.State)
    requires NoneInAdvance(ks, kst) && (ks[|kst|].control.Advance? ==> |t.issued| == |ks[|kst|].issued|)
    ensures NoneInAdvance(ks + [t], kst + [step])
  {
  }

  lemma {:induction false} AppendRun(states: seq<K.State>, steps: seq<K.Step>, more: seq<K.Step>, t: K.State)
    returns (states': seq<K.State>, steps': seq<K.Step>)
    requires K.Path(states, steps) && Takes(states[|steps|], more, t)
    ensures K.Path(states', steps') && states'[0] == states[0] && states'[|steps'|] == t
    ensures var k := states[|steps|];
      NoneInAdvance(states, steps) && (|t.issued| == |k.issued| || (|more| == 1 && !k.control.Advance?)) ==> NoneInAdvance(states', steps')
    decreases |more|
  {
    if more == [] {
      states', steps' := states, steps;
    } else {
      var k := states[|steps|];
      var next := K.Apply(k, more[0]);
      assert K.Next(k, more[0], next);
      StepOnlyAdds(k, more[0]);
      hide K.Next, K.Apply, K.Enabled;
      TakesOnlyAdds(next, more[1..], t);
      K.Extend(states, steps, more[0], next);
      if NoneInAdvance(states, steps) && (|t.issued| == |k.issued| || (|more| == 1 && !k.control.Advance?)) {
        ExtendNone(states, steps, more[0], next);
      }
      states', steps' := AppendRun(states + [next], steps + [more[0]], more[1..], t);
    }
  }

  lemma IssuesAreSingle(s: State, step: Step)
    requires Enabled(s, step)
    ensures |Apply(s, step).k.issued| == |s.k.issued| || |KernelSteps(s, step)| == 1
  {
    hide K.Apply, K.Enabled;
  }

  /** Every run with ports and channels is, seen from the kernel, a run of the kernel: whatever
      holds of all kernel runs holds here. */
  lemma {:induction false} RunsAreKernelRuns(states: seq<State>, steps: seq<Step>, n: nat)
    returns (ks: seq<K.State>, kst: seq<K.Step>)
    requires Path(states, steps) && n < |states|
    ensures K.Path(ks, kst) && ks[0] == states[0].k && ks[|kst|] == states[n].k
    ensures (forall i :: 0 <= i < n && states[i].k.control.Advance? ==> |states[i + 1].k.issued| == |states[i].k.issued|) ==> NoneInAdvance(ks, kst)
  {
    if n == 0 {
      ks, kst := [states[0].k], [];
    } else {
      ks, kst := RunsAreKernelRuns(states, steps, n - 1);
      assert Next(states[n - 1], steps[n - 1], states[n - 1 + 1]);
      StepTakes(states[n - 1], steps[n - 1]);
      IssuesAreSingle(states[n - 1], steps[n - 1]);
      hide Next, Takes, K.Path, NoneInAdvance;
      ks, kst := AppendRun(ks, kst, KernelSteps(states[n - 1], steps[n - 1]), states[n].k);
    }
  }

  // ------------------------------------------------------------ who waits where

  lemma {:induction false} OutstandingUpdate(ports: seq<Port>, i: nat, port: Port)
    requires i < |ports|
    ensures Outstanding(ports[i := port]) + Pending(ports[i]) == Outstanding(ports) + Pending(port)
  {
    if i == 0 {
      assert ports[0 := port][1..] == ports[1..];
    } else {
      OutstandingUpdate(ports[1..], i - 1, port);
      assert ports[i := port][1..] == ports[1..][i - 1 := port];
    }
  }

  lemma {:induction false} NoneOutstanding(ports: seq<Port>)
    ensures Outstanding(ports) == 0 <==> forall i :: 0 <= i < |ports| ==> !ports[i].holder.Granted?
  {
    if ports != [] {
      NoneOutstanding(ports[1..]);
      assert forall i :: 1 <= i < |ports| ==> ports[i] == ports[1..][i - 1];
    }
  }

  lemma GatherUpdate<X>(xs: seq<X>, i: nat, x: X, f: X -> multiset<nat>)
    requires i < |xs|
    ensures Gather(xs[i := x], f) + f(xs[i]) == Gather(xs, f) + f(x)
  {
    GatherRemove(xs, i, f);
    GatherRemove(xs[i := x], i, f);
    assert RemoveAt(xs[i := x], i) == RemoveAt(xs, i);
  }

  function PortPids(port: Port): multiset<nat> {
    multiset(port.queue) + if port.holder.Granted? then multiset{port.holder.p} else multiset{}
  }

  function One(o: Option<Pid>): multiset<nat> { if o.Some? then multiset{o.value} else multiset{} }

  function ChannelPids(c: Channel): multiset<nat> { One(c.sender) + One(c.receiver) }

  /** At how many ports and channels process `p` waits. */
  ghost function Waits(s: State, p: Pid): nat { Gather(s.ports, PortPids)[p] + Gather(s.channels, ChannelPids)[p] }

  /** Every blocked process waits at exactly one port or channel, and no other process does. */
  ghost predicate WaitsOnce(s: State) {
    forall p: Pid :: Waits(s, p) == Bit(p in s.k.blocked)
  }

  /** The atomic counter counts the mutex queue and a waiter that was handed the lock. */
  predicate PortOk(port: Port) {
    && port.waiters == |port.queue| + Pending(port)
    && (port.holder.Free? ==> port.queue == [])
  }

  ghost predicate PortsOk(s: State) { forall i :: 0 <= i < |s.ports| ==> PortOk(s.ports[i]) }

  /** No packet is lost or made up, and the channel never holds more than it may. */
  ghost predicate ChannelsOk(s: State) {
    forall c :: 0 <= c < |s.channels| ==> s.channels[c].items <= s.channels[c].cap && s.channels[c].got + s.channels[c].items == s.channels[c].sent
  }

  ghost predicate Counted(s: State) { s.k.unlockEvt - s.k.unlockedPrc == Outstanding(s.ports) - s.base }

  ghost predicate Inv(s: State) { Accounted(s.k) && WaitsOnce(s) && PortsOk(s) && ChannelsOk(s) && Counted(s) }

  lemma RunningIsNotBlocked(k: K.State, p: Pid)
    requires Accounted(k) && p in k.runnable
    ensures p !in k.blocked
  {
    assert Spots(k, p) == Bit(p in k.prcs);
  }

  /** One port changes, and the blocked processes with it. */
  lemma PortKeepsWaits(s: State, i: nat, port: Port, k: K.State)
    requires WaitsOnce(s) && i < |s.ports|
    requires forall p: Pid :: PortPids(port)[p] + Bit(p in s.k.blocked) == PortPids(s.ports[i])[p] + Bit(p in k.blocked)
    ensures WaitsOnce(SetPort(s, i, port).(k := k))
  {
    hide Gather, PortPids, ChannelPids;
    var t := SetPort(s, i, port).(k := k);
    GatherUpdate(s.ports, i, port, PortPids);
    forall p: Pid
      ensures Waits(t, p) == Bit(p in t.k.blocked)
    {
      assert Waits(s, p) == Bit(p in s.k.blocked);
      assert (Gather(t.ports, PortPids) + PortPids(s.ports[i]))[p] == (Gather(s.ports, PortPids) + PortPids(port))[p];
    }
  }

  lemma ChannelKeepsWaits(s: State, c: nat, channel: Channel, k: K.State)
    requires WaitsOnce(s) && c < |s.channels|
    requires forall p: Pid :: ChannelPids(channel)[p] + Bit(p in s.k.blocked) == ChannelPids(s.channels[c])[p] + Bit(p in k.blocked)
    ensures WaitsOnce(SetChannel(s, c, channel).(k := k))
  {
    hide Gather, PortPids, ChannelPids;
    var t := SetChannel(s, c, channel).(k := k);
    GatherUpdate(s.channels, c, channel, ChannelPids);
    forall p: Pid
      ensures Waits(t, p) == Bit(p in t.k.blocked)
    {
      assert Waits(s, p) == Bit(p in s.k.blocked);
      assert (Gather(t.channels, ChannelPids) + ChannelPids(s.channels[c]))[p] == (Gather(s.channels, ChannelPids) + ChannelPids(channel))[p];
    }
  }

  lemma ReleasePids(port: Port)
    requires port.holder.Held?
    ensures PortPids(Release(port)) == PortPids(port) && (PortOk(port) ==> PortOk(Release(port)))
  {
    if port.queue != [] {
      assert port.queue == [port.queue[0]] + port.queue[1..];
    }
  }

  lemma BlockKeepsWaits(s: State, p: Pid, i: nat)
    requires WaitsOnce(s) && Accounted(s.k) && Enabled(s, Block(p, i))
    ensures WaitsOnce(Apply(s, Block(p, i)))
  {
    hide WaitsOnce, Accounted;
    RunningIsNotBlocked(s.k, p);
    PortKeepsWaits(s, i, Apply(s, Block(p, i)).ports[i], K.DoLock(s.k, p));
  }

  lemma ResumeKeepsWaits(s: State, i: nat)
    requires WaitsOnce(s) && Enabled(s, Resume(i))
    ensures WaitsOnce(Apply(s, Resume(i)))
  {
    hide WaitsOnce;
    PortKeepsWaits(s, i, Apply(s, Resume(i)).ports[i], K.DoUnlock(s.k, s.ports[i].holder.p));
  }

  lemma LockStepKeepsWaits(s: State, step: Step)
    requires WaitsOnce(s) && Enabled(s, step) && (step.TryLock? || step.Drop?)
    ensures WaitsOnce(Apply(s, step))
  {
    hide WaitsOnce;
    if step.Drop? {
      ReleasePids(s.ports[step.i]);
    }
    PortKeepsWaits(s, step.i, Apply(s, step).ports[step.i], Apply(s, step).k);
  }

  lemma TransferKeepsWaits(s: State, step: Step)
    requires WaitsOnce(s) && Enabled(s, step) && (step.Send? || step.Receive?)
    ensures WaitsOnce(Apply(s, step))
  {
    hide WaitsOnce;
    ChannelKeepsWaits(s, step.c, Apply(s, step).channels[step.c], s.k);
  }

  lemma BlockSendKeepsWaits(s: State, p: Pid, c: nat)
    requires WaitsOnce(s) && Accounted(s.k) && Enabled(s, BlockSend(p, c))
    ensures WaitsOnce(Apply(s, BlockSend(p, c)))
  {
    hide WaitsOnce, Accounted;
    RunningIsNotBlocked(s.k, p);
    ChannelKeepsWaits(s, c, s.channels[c].(sender := Some(p)), K.DoLock(s.k, p));
  }

  lemma BlockReceiveKeepsWaits(s: State, p: Pid, c: nat)
    requires WaitsOnce(s) && Accounted(s.k) && Enabled(s, BlockReceive(p, c))
    ensures WaitsOnce(Apply(s, BlockReceive(p, c)))
  {
    hide WaitsOnce, Accounted;
    RunningIsNotBlocked(s.k, p);
    ChannelKeepsWaits(s, c, s.channels[c].(receiver := Some(p)), K.DoLock(s.k, p));
  }

  lemma SentKeepsWaits(s: State, c: nat)
    requires WaitsOnce(s) && Enabled(s, Sent(c))
    ensures WaitsOnce(Apply(s, Sent(c)))
  {
    hide WaitsOnce;
    ChannelKeepsWaits(s, c, Apply(s, Sent(c)).channels[c], Back(s.k, s.channels[c].sender.value));
  }

  lemma ReceivedKeepsWaits(s: State, c: nat)
    requires WaitsOnce(s) && Enabled(s, Received(c))
    ensures WaitsOnce(Apply(s, Received(c)))
  {
    hide WaitsOnce;
    ChannelKeepsWaits(s, c, Apply(s, Received(c)).channels[c], Back(s.k, s.channels[c].receiver.value));
  }

  lemma OtherKeepsBlocked(k: K.State, step: K.Step)
    requires K.Enabled(k, step) && !step.Lock? && !step.Unlock?
    ensures K.Apply(k, step).blocked == k.blocked
  {
    hide K.MinIndex, RemoveAt;
  }

  lemma OtherKeepsWaits(s: State, step: K.Step)
    requires WaitsOnce(s) && OtherEnabled(s.k, step)
    ensures WaitsOnce(Apply(s, Other(step)))
  {
    OtherKeepsBlocked(s.k, step);
    hide Gather, K.Apply, OtherEnabled;
    var t := Apply(s, Other(step));
    forall p: Pid
      ensures Waits(t, p) == Bit(p in t.k.blocked)
    {
      assert Waits(s, p) == Bit(p in s.k.blocked);
    }
  }

  lemma OtherStepKeepsWaits(s: State, step: K.Step)
    requires WaitsOnce(s) && Enabled(s, Other(step))
    ensures WaitsOnce(Apply(s, Other(step)))
  {
    hide WaitsOnce, Apply, OtherEnabled;
    OtherKeepsWaits(s, step);
  }

  lemma {:induction false} TakesKeepsAccounts(k: K.State, steps: seq<K.Step>, t: K.State)
    requires Accounted(k) && Takes(k, steps, t)
    ensures Accounted(t)
    decreases |steps|
  {
    hide Accounted, K.Apply, K.Enabled;
    if steps != [] {
      StepKeepsAccounts(k, steps[0]);
      TakesKeepsAccounts(K.Apply(k, steps[0]), steps[1..], t);
    }
  }

  // ------------------------------------------------------------ the counters

  lemma OtherKeepsCounters(k: K.State, step: K.Step)
    requires K.Enabled(k, step) && !step.Unlock? && !step.HandOver? && !step.ClearCounters?
    ensures K.Apply(k, step).unlockEvt == k.unlockEvt && K.Apply(k, step).unlockedPrc == k.unlockedPrc
  {
    hide K.MinIndex, RemoveAt;
  }

  lemma StepKeepsCounted(s: State, step: Step)
    requires Counted(s) && PortsOk(s) && Enabled(s, step)
    ensures Counted(Apply(s, step)) && PortsOk(Apply(s, step))
  {
    hide Outstanding;
    match step {
      case TryLock(p, i) => OutstandingUpdate(s.ports, i, Apply(s, step).ports[i]);
      case Block(p, i) => OutstandingUpdate(s.ports, i, Apply(s, step).ports[i]);
      case Drop(p, i) => OutstandingUpdate(s.ports, i, Apply(s, step).ports[i]);
      case Resume(i) => OutstandingUpdate(s.ports, i, Apply(s, step).ports[i]);
      case Other(other) =>
        if !other.ClearCounters? {
          OtherKeepsCounters(s.k, other);
          hide K.Apply, K.Enabled;
        }
      case _ =>
    }
  }

  lemma StepKeepsChannels(s: State, step: Step)
    requires ChannelsOk(s) && Enabled(s, step)
    ensures ChannelsOk(Apply(s, step))
  {
    hide K.Apply, K.Enabled, OtherEnabled, Outstanding, Release;
  }

  lemma StepKeepsInv(s: State, step: Step)
    requires Inv(s) && Enabled(s, step)
    ensures Inv(Apply(s, step))
  {
    hide Accounted, WaitsOnce, PortsOk, ChannelsOk, Counted, Apply, Enabled;
    StepKeepsCounted(s, step);
    StepKeepsChannels(s, step);
    StepTakes(s, step);
    TakesKeepsAccounts(s.k, KernelSteps(s, step), Apply(s, step).k);
    assert WaitsOnce(Apply(s, step)) by { StepKeepsWaits(s, step); }
  }

  lemma StepKeepsWaits(s: State, step: Step)
    requires WaitsOnce(s) && Accounted(s.k) && Enabled(s, step)
    ensures WaitsOnce(Apply(s, step))
  {
    hide WaitsOnce, Accounted, Apply, Enabled;
    match step {
      case TryLock(_, _) => LockStepKeepsWaits(s, step);
      case Block(p, i) => BlockKeepsWaits(s, p, i);
      case Drop(_, _) => LockStepKeepsWaits(s, step);
      case Resume(i) => ResumeKeepsWaits(s, i);
      case Other(other) => OtherStepKeepsWaits(s, other);
      case Send(_, _) => TransferKeepsWaits(s, step);
      case BlockSend(p, c) => BlockSendKeepsWaits(s, p, c);
      case Sent(c) => SentKeepsWaits(s, c);
      case Receive(_, _) => TransferKeepsWaits(s, step);
      case BlockReceive(p, c) => BlockReceiveKeepsWaits(s, p, c);
      case Received(c) => ReceivedKeepsWaits(s, c);
    }
  }

  lemma {:induction false} InitWaits(s: State)
    requires Init(s)
    ensures Inv(s)
  {
    InitAccounted(s.k);
    NoneOutstanding(s.ports);
    NothingGathered(s.ports, PortPids);
    NothingGathered(s.channels, ChannelPids);
  }

  lemma {:induction false} NothingGathered<X>(xs: seq<X>, f: X -> multiset<nat>)
    requires forall i :: 0 <= i < |xs| ==> f(xs[i]) == multiset{}
    ensures Gather(xs, f) == multiset{}
  {
    if xs != [] {
      NothingGathered(xs[1..], f);
    }
  }

  lemma {:induction false} AlwaysInv(states: seq<State>, steps: seq<Step>, n: nat)
    requires Path(states, steps) && Init(states[0]) && n < |states|
    ensures Inv(states[n])
  {
    hide Enabled, Apply, Inv, Init;
    if n == 0 {
      InitWaits(states[0]);
    } else {
      AlwaysInv(states, steps, n - 1);
      assert Next(states[n - 1], steps[n - 1], states[n - 1 + 1]);
      StepKeepsInv(states[n - 1], steps[n - 1]);
    }
  }

  // ------------------------------------------------------------ what the counters tell

  /** Across any number of ports, channels and processes, the two counters differ by the number of
      waiters that were handed a lock and did not resume, up to those outstanding at the last clear. */
  lemma CountersCountHandOvers(states: seq<State>, steps: seq<Step>, n: nat)
    requires Path(states, steps) && Init(states[0]) && n < |states|
    ensures var s := states[n]; s.k.unlockEvt - s.k.unlockedPrc == Outstanding(s.ports) - s.base
  {
    hide Path, Init;
    AlwaysInv(states, steps, n);
  }

  /** In every run each channel holds just the packets sent into it and not received yet, and never more than
      its capacity. */
  lemma ChannelsKeepPackets(states: seq<State>, steps: seq<Step>, n: nat, c: nat)
    requires Path(states, steps) && Init(states[0]) && n < |states| && c < |states[n].channels|
    ensures var ch := states[n].channels[c]; ch.got + ch.items == ch.sent && ch.items <= ch.cap
  {
    hide Path, Init;
    AlwaysInv(states, steps, n);
    hide Accounted, WaitsOnce, PortsOk, Counted;
  }

  /** A running process that sends either sends at once, exactly when there is room, or blocks; one that
      receives either receives at once, exactly when there is a packet, or blocks. */
  lemma SendsOrBlocks(s: State, p: Pid, c: nat)
    requires K.Running(s.k, p) && c < |s.channels|
    ensures s.channels[c].sender.None? ==> (Enabled(s, Send(p, c)) <==> s.channels[c].items < s.channels[c].cap)
    ensures s.channels[c].sender.None? ==> (Enabled(s, BlockSend(p, c)) <==> !Enabled(s, Send(p, c)))
    ensures s.channels[c].receiver.None? ==> (Enabled(s, Receive(p, c)) <==> s.channels[c].items > 0)
    ensures s.channels[c].receiver.None? ==> (Enabled(s, BlockReceive(p, c)) <==> !Enabled(s, Receive(p, c)))
  {
  }

  /** A dropped guard hands the lock to the waiter that has waited longest, and with no waiter leaves it free
      for whoever asks next; only then can a process take it at once. */
  lemma DropHandsOver(s: State, p: Pid, i: nat, q: Pid)
    requires PortsOk(s) && Enabled(s, Drop(p, i)) && K.Running(s.k, q)
    ensures var t := Apply(s, Drop(p, i));
      && (Enabled(t, TryLock(q, i)) <==> s.ports[i].waiters == 0)
      && (s.ports[i].waiters > 0 ==> s.ports[i].queue != [] && t.ports[i].holder == Granted(s.ports[i].queue[0]) && t.ports[i].queue == s.ports[i].queue[1..])
  {
    assert PortOk(s.ports[i]);
  }

  /** Every clear of the run finds the two counters equal. */
  predicate EvenClears(states: seq<State>, steps: seq<Step>)
    requires |states| == |steps| + 1
  {
    forall i :: 0 <= i < |steps| && steps[i] == Other(K.ClearCounters) ==> states[i].k.unlockEvt == states[i].k.unlockedPrc
  }

  lemma StepKeepsBase(s: State, step: Step)
    requires Enabled(s, step)
    ensures Apply(s, step).base == if step == Other(K.ClearCounters) then Outstanding(s.ports) else s.base
  {
    hide K.Apply, K.Enabled;
  }

  /** Nothing was lost up to state n exactly when every clear so far found the counters equal. */
  lemma {:induction false} LostExactlyAtUnevenClears(states: seq<State>, steps: seq<Step>, n: nat)
    requires Path(states, steps) && Init(states[0]) && n < |states|
    ensures EvenClears(states[..n + 1], steps[..n]) <==> forall i :: 0 <= i <= n ==> states[i].base == 0
  {
    hide Enabled, Outstanding, Apply;
    if n > 0 {
      var ss, st, ss1, st1 := states[..n + 1], steps[..n], states[..n], steps[..n - 1];
      LostExactlyAtUnevenClears(states, steps, n - 1);
      CountersCountHandOvers(states, steps, n - 1);
      var a, step := states[n - 1], steps[n - 1];
      assert Next(states[n - 1], steps[n - 1], states[n - 1 + 1]);
      StepKeepsBase(a, step);
      assert states[..n - 1 + 1] == ss1;
      assert forall i :: 0 <= i < |st1| ==> st[i] == st1[i] && ss[i] == ss1[i];
      assert st[n - 1] == step && ss[n - 1] == a;
      assert EvenClears(ss, st) <==> EvenClears(ss1, st1) && (step == Other(K.ClearCounters) ==> a.k.unlockEvt == a.k.unlockedPrc);
    }
  }

  ghost predicate NoneGranted(s: State) { forall i :: 0 <= i < |s.ports| ==> !s.ports[i].holder.Granted? }

  /** While nothing is lost, a sample of zero proves that no waiter is outstanding, and after a
      positive sample it is exactly the equality of the counters that proves it. */
  lemma SafeToClose(s: State)
    requires Inv(s) && s.base == 0
    ensures NoneGranted(s) <==> s.k.unlockEvt == s.k.unlockedPrc
    ensures s.k.unlockEvt == 0 ==> s.k.unlockedPrc == 0
  {
    hide WaitsOnce, Accounted, PortsOk;
    NoneOutstanding(s.ports);
  }

  // ------------------------------------------------------------ the objects

  /** The two hand-over counters of SchedulerAPI. */
  class Api {
    var unlockEvt: nat
    var unlockedPrc: nat
  }

  class PortMutex {
    var holder: Holder
    var queue: seq<Pid>
    var waiters: nat

    function View(): Port
      reads this
    {
      Port(holder, queue, waiters)
    }

    /** Taken at once, or counted as a waiter and queued. */
    method Lock(p: Pid) returns (held: bool)
      modifies this
      ensures held <==> old(holder).Free?
      ensures held ==> View() == old(View()).(holder := Held(p))
      ensures !held ==> View() == old(View()).(queue := old(queue) + [p], waiters := old(waiters) + 1)
      ensures old(PortOk(View())) ==> PortOk(View())
    {
      held := holder.Free?;
      if held {
        holder := Held(p);
      } else {
        waiters := waiters + 1;
        queue := queue + [p];
      }
    }

    /** A waiter that was handed the lock runs again. */
    method Resume(api: Api)
      requires holder.Granted? && PortOk(View())
      modifies this, api
      ensures View() == old(View()).(holder := Held(old(holder).p), waiters := old(waiters) - 1) && PortOk(View())
      ensures api.unlockedPrc == old(api.unlockedPrc) + 1 && api.unlockEvt == old(api.unlockEvt)
    {
      api.unlockedPrc := api.unlockedPrc + 1;
      waiters := waiters - 1;
      holder := Held(holder.p);
    }

    /** The guard is dropped: announced when there are waiters, then handed to the first one. */
    method Drop(api: Api)
      requires holder.Held? && PortOk(View())
      modifies this, api
      ensures View() == Release(old(View())) && PortOk(View())
      ensures api.unlockEvt == old(api.unlockEvt) + Pending(View()) && api.unlockedPrc == old(api.unlockedPrc)
    {
      if waiters > 0 {
        api.unlockEvt := api.unlockEvt + 1;
      }
      if queue == [] {
        holder := Free;
      } else {
        holder, queue := Granted(queue[0]), queue[1..];
      }
    }
  }
}
