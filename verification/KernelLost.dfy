/** Two runs in which the scheduler closes a delta-cycle too early: a chain of two hand-overs of which
    its sample saw only the first, and a packet for a blocked receiver that no counter announces. */
module KernelLost {
  import opened Wrappers
  import opened KernelHandOver
  import opened KernelQuiet
  import opened KernelResume
  import K = Kernel

  lemma Extend(states: seq<State>, steps: seq<Step>, step: Step, t: State) returns (states': seq<State>, steps': seq<Step>)
    requires Path(states, steps) && Next(states[|steps|], step, t)
    ensures Path(states', steps') && states'[0] == states[0] && states'[|steps'|] == t
  {
    hide Next;
    states', steps' := states + [t], steps + [step];
    forall i | 0 <= i < |steps'|
      ensures Next(states'[i], steps'[i], states'[i + 1])
    {
      if i < |steps| {
        assert Next(states[i], steps[i], states[i + 1]);
      }
    }
  }

  /** A kernel in which nothing was ordered yet. */
  function Fresh(hw: nat, alive: nat, locked: nat, evt: nat, prc: nat, control: K.Control,
                 runnable: set<Pid>, blocked: set<Pid>, prcs: set<Pid>): K.State
  {
    K.State(hw, alive, locked, prc, evt, [], [], map[], 0, 0, [], [], 10, control, runnable, blocked, map[], prcs, [], [])
  }

  function Below(n: nat): (r: set<Pid>)
    ensures forall p: Pid :: p in r <==> p < n
  {
    if n == 0 then {} else Below(n - 1) + {n - 1}
  }

  // ------------------------------------------------------------ the chain

  /** One port, and whether its last hand-over was forgotten. */
  function Locks(k: K.State, port: Port): State { State(k, [port], [], 0) }

  /** Processes 0, 1 and 2 want the port; 0 holds it. */
  function Wanted(): State {
    Locks(Fresh(3, 3, 0, 0, 0, K.Wait1, {0, 1, 2}, {}, {0, 1, 2}), Port(Held(0), [], 0))
  }

  function Queued(): State {
    Locks(Fresh(3, 1, 2, 0, 0, K.Wait1, {0}, {1, 2}, {0, 1, 2}), Port(Held(0), [1, 2], 2))
  }

  /** Process 0 handed the lock to 1 and is gone. */
  function First(control: K.Control): State {
    Locks(Fresh(2, 0, 2, 1, 0, control, {}, {1, 2}, {1, 2}), Port(Granted(1), [2], 2))
  }

  /** Process 1 is back. */
  function Back1(control: K.Control): State {
    Locks(Fresh(2, 1, 1, 1, 1, control, {1}, {2}, {1, 2}), Port(Held(1), [2], 1))
  }

  /** Process 1 handed the lock to 2 and is gone. */
  function Second(control: K.Control): State {
    Locks(Fresh(1, 0, 1, 2, 1, control, {}, {2}, {2}), Port(Granted(2), [], 1))
  }

  function Idle0(n: nat): State
    requires n <= 3
  {
    Locks(Fresh(n, n, 0, 0, 0, K.Idle(K.NotStarted), Below(n), {}, Below(n)), Port(Free, [], 0))
  }

  lemma Registers(n: nat)
    requires n < 3
    ensures Next(Idle0(n), Other(K.Register(n)), Idle0(n + 1))
  {
    hide K.MinIndex;
  }

  lemma StartSteps(started: State)
    requires started == Locks(Idle0(3).k.(control := K.Wait1), Port(Free, [], 0))
    ensures Init(Idle0(0)) && Next(Idle0(3), Other(K.Start(10)), started) && Next(started, TryLock(0, 0), Wanted())
  {
    hide K.MinIndex;
    assert Below(3) == {0, 1, 2};
  }

  lemma ChainStarts() returns (states: seq<State>, steps: seq<Step>)
    ensures Path(states, steps) && Init(states[0]) && states[|steps|] == Wanted()
  {
    var started := Locks(Idle0(3).k.(control := K.Wait1), Port(Free, [], 0));
    StartSteps(started);
    Registers(0);
    Registers(1);
    Registers(2);
    hide Next, Idle0, Wanted, Init;
    states, steps := [Idle0(0)], [];
    states, steps := Extend(states, steps, Other(K.Register(0)), Idle0(1));
    states, steps := Extend(states, steps, Other(K.Register(1)), Idle0(2));
    states, steps := Extend(states, steps, Other(K.Register(2)), Idle0(3));
    states, steps := Extend(states, steps, Other(K.Start(10)), started);
    states, steps := Extend(states, steps, TryLock(0, 0), Wanted());
  }

  function OneQueued(): State {
    Locks(Fresh(3, 2, 1, 0, 0, K.Wait1, {0, 2}, {1}, {0, 1, 2}), Port(Held(0), [1], 1))
  }

  function Dropped(): State {
    Locks(Fresh(3, 1, 2, 1, 0, K.Wait1, {0}, {1, 2}, {0, 1, 2}), Port(Granted(1), [2], 2))
  }

  lemma QueueSteps()
    ensures Next(Wanted(), Block(1, 0), OneQueued())
    ensures Next(OneQueued(), Block(2, 0), Queued())
  {
    hide K.Enabled, K.Apply, Outstanding;
    assert {0, 1, 2} - {1} == {0, 2} && {0, 2} - {2} == {0};
    assert {} + {1} == {1} && {1} + {2} == {1, 2};
    assert [] + [1] == [1] && [1] + [2] == [1, 2];
  }

  lemma DropSteps()
    ensures Next(Queued(), Drop(0, 0), Dropped())
    ensures Next(Dropped(), Other(K.Unregister(0)), First(K.Wait1))
  {
    hide K.MinIndex, Outstanding;
    assert {0} - {0} == {} && {0, 1, 2} - {0} == {1, 2};
    assert [1, 2][1..] == [2];
  }

  lemma SampleSteps()
    ensures Next(First(K.Wait1), Other(K.CycleEnded), First(K.Sample))
    ensures Next(First(K.Sample), Other(K.TakeSample), First(K.Catch(1)))
  {
    hide K.MinIndex, Outstanding;
  }

  lemma CatchSteps()
    ensures Next(First(K.Catch(1)), Resume(0), Back1(K.Catch(1)))
    ensures Next(Back1(K.Catch(1)), Other(K.CaughtUp), Back1(K.Wait2))
  {
    hide K.MinIndex, Outstanding;
    assert {} + {1} == {1} && {1, 2} - {1} == {2};
  }

  function DroppedAgain(): State {
    Locks(Fresh(2, 1, 1, 2, 1, K.Wait2, {1}, {2}, {1, 2}), Port(Granted(2), [], 1))
  }

  lemma DropAgainSteps()
    ensures Next(Back1(K.Wait2), Drop(1, 0), DroppedAgain())
    ensures Next(DroppedAgain(), Other(K.Unregister(1)), Second(K.Wait2))
  {
    hide K.MinIndex, Outstanding;
    assert {1} - {1} == {} && {1, 2} - {1} == {2};
    assert [2][1..] == [];
  }

  function Cleared(): State { Second(K.Drain).(k := Fresh(1, 0, 1, 0, 0, K.Drain, {}, {2}, {2}), base := 1) }

  lemma ClearSteps()
    ensures Next(Second(K.Wait2), Other(K.CycleEnded), Second(K.Clear))
    ensures Next(Second(K.Clear), Other(K.ClearCounters), Cleared())
  {
    hide K.MinIndex;
    var ports := [Port(Granted(2), [], 1)];
    assert ports[1..] == [];
    assert Outstanding(ports) == 1;
  }

  lemma ChainQueues(before: seq<State>, beforeSteps: seq<Step>) returns (states: seq<State>, steps: seq<Step>)
    requires Path(before, beforeSteps) && before[|beforeSteps|] == Wanted()
    ensures Path(states, steps) && states[0] == before[0] && states[|steps|] == First(K.Wait1)
  {
    QueueSteps();
    DropSteps();
    hide Next, Wanted, OneQueued, Queued, Dropped, First;
    states, steps := Extend(before, beforeSteps, Block(1, 0), OneQueued());
    states, steps := Extend(states, steps, Block(2, 0), Queued());
    states, steps := Extend(states, steps, Drop(0, 0), Dropped());
    states, steps := Extend(states, steps, Other(K.Unregister(0)), First(K.Wait1));
  }

  lemma ChainCloses(before: seq<State>, beforeSteps: seq<Step>) returns (states: seq<State>, steps: seq<Step>)
    requires Path(before, beforeSteps) && before[|beforeSteps|] == First(K.Wait1)
    ensures Path(states, steps) && states[0] == before[0] && states[|steps|] == Cleared()
  {
    SampleSteps();
    CatchSteps();
    DropAgainSteps();
    ClearSteps();
    hide Next, First, Back1, DroppedAgain, Second, Cleared;
    states, steps := Extend(before, beforeSteps, Other(K.CycleEnded), First(K.Sample));
    states, steps := Extend(states, steps, Other(K.TakeSample), First(K.Catch(1)));
    states, steps := Extend(states, steps, Resume(0), Back1(K.Catch(1)));
    states, steps := Extend(states, steps, Other(K.CaughtUp), Back1(K.Wait2));
    states, steps := Extend(states, steps, Drop(1, 0), DroppedAgain());
    states, steps := Extend(states, steps, Other(K.Unregister(1)), Second(K.Wait2));
    states, steps := Extend(states, steps, Other(K.CycleEnded), Second(K.Clear));
    states, steps := Extend(states, steps, Other(K.ClearCounters), Cleared());
  }

  /** The scheduler does clear with a waiter outstanding: it sampled one hand-over, waited for it, and
      the resumed process made another. Both counters read zero, and that waiter can still come back
      before the clock is updated. */
  lemma ChainedHandOverIsLost() returns (states: seq<State>, steps: seq<Step>)
    ensures Path(states, steps) && Init(states[0])
    ensures var s := states[|steps|];
      s.k.control.Drain? && s.k.alivePrc == 0 && s.k.unlockEvt == s.k.unlockedPrc == 0 && |s.ports| == 1 && s.ports[0].holder == Granted(2)
    ensures exists ss, st :: ComesBack(states[|steps|], ss, st)
  {
    hide Path, Init, Inv, ComesBack, Cleared;
    states, steps := ChainRun();
    AlwaysInv(states, steps, |steps|);
    ClearedComesBack();
  }

  lemma ChainRun() returns (states: seq<State>, steps: seq<Step>)
    ensures Path(states, steps) && |states| == |steps| + 1 && Init(states[0]) && states[|steps|] == Cleared()
  {
    hide Next, Init, Wanted, First, Cleared;
    states, steps := ChainStarts();
    states, steps := ChainQueues(states, steps);
    states, steps := ChainCloses(states, steps);
  }

  lemma ClearedComesBack()
    requires Inv(Cleared())
    ensures var s := Cleared();
      s.k.control.Drain? && s.k.alivePrc == 0 && s.k.unlockEvt == s.k.unlockedPrc == 0 && |s.ports| == 1 && s.ports[0].holder == Granted(2)
    ensures exists ss, st :: ComesBack(Cleared(), ss, st)
  {
    hide Inv, ComesBack;
    assert Cleared().ports[0].holder.Granted?;
    ComesBackIff(Cleared());
  }

  // ------------------------------------------------------------ the channel

  function Packets(k: K.State, c: Channel): State { State(k, [], [c], 0) }

  function Empty0(n: nat): State
    requires n <= 2
  {
    Packets(Fresh(n, n, 0, 0, 0, K.Idle(K.NotStarted), Below(n), {}, Below(n)), Channel(1, 0, None, None, 0, 0))
  }

  /** Process 0 sent to the blocked process 1 and is gone. */
  function Sent0(control: K.Control): State {
    Packets(Fresh(1, 0, 1, 0, 0, control, {}, {1}, {1}), Channel(1, 1, None, Some(1), 1, 0))
  }

  lemma PacketRegisters(n: nat)
    requires n < 2
    ensures Next(Empty0(n), Other(K.Register(n)), Empty0(n + 1))
  {
    hide K.MinIndex;
  }

  function Started0(): State { Packets(Fresh(2, 2, 0, 0, 0, K.Wait1, {0, 1}, {}, {0, 1}), Channel(1, 0, None, None, 0, 0)) }

  function Blocked1(items: nat): State {
    Packets(Fresh(2, 1, 1, 0, 0, K.Wait1, {0}, {1}, {0, 1}), Channel(1, items, None, Some(1), items, 0))
  }

  lemma PacketSteps()
    ensures Next(Empty0(2), Other(K.Start(10)), Started0())
    ensures Next(Started0(), BlockReceive(1, 0), Blocked1(0))
  {
    hide K.MinIndex;
    assert Below(2) == {0, 1} && {0, 1} - {1} == {0} && {} + {1} == {1};
  }

  lemma SendSteps()
    ensures Next(Blocked1(0), Send(0, 0), Blocked1(1))
    ensures Next(Blocked1(1), Other(K.Unregister(0)), Sent0(K.Wait1))
  {
    hide K.MinIndex;
    assert {0} - {0} == {} && {0, 1} - {0} == {1};
  }

  lemma PacketCloses()
    ensures Next(Sent0(K.Wait1), Other(K.CycleEnded), Sent0(K.Sample))
    ensures Next(Sent0(K.Sample), Other(K.TakeSample), Sent0(K.Clear))
  {
    hide K.MinIndex;
  }

  /** A packet is in the channel of a blocked receiver when the scheduler samples zero hand-overs and goes
      on to close the cycle: the receiver announces itself only once it is back. */
  lemma SampleMissesChannel() returns (states: seq<State>, steps: seq<Step>)
    ensures Path(states, steps) && Init(states[0])
    ensures var s := states[|steps|];
      s.k.control.Clear? && s.k.alivePrc == 0 && s.k.unlockEvt == s.k.unlockedPrc == 0 && |s.channels| == 1 && ReceiverReady(s.channels[0])
    ensures exists ss, st :: ComesBack(states[|steps|], ss, st)
  {
    hide Path, Init, Inv, ComesBack, Sent0, ReceiverReady;
    states, steps := PacketRun();
    AlwaysInv(states, steps, |steps|);
    PacketComesBack();
  }

  lemma PacketRun() returns (states: seq<State>, steps: seq<Step>)
    ensures Path(states, steps) && |states| == |steps| + 1 && Init(states[0]) && states[|steps|] == Sent0(K.Clear)
  {
    assert Init(Empty0(0));
    PacketRegisters(0);
    PacketRegisters(1);
    PacketSteps();
    SendSteps();
    PacketCloses();
    hide Next, Empty0, Init, Started0, Blocked1, Sent0;
    states, steps := [Empty0(0)], [];
    states, steps := Extend(states, steps, Other(K.Register(0)), Empty0(1));
    states, steps := Extend(states, steps, Other(K.Register(1)), Empty0(2));
    states, steps := Extend(states, steps, Other(K.Start(10)), Started0());
    states, steps := Extend(states, steps, BlockReceive(1, 0), Blocked1(0));
    states, steps := Extend(states, steps, Send(0, 0), Blocked1(1));
    states, steps := Extend(states, steps, Other(K.Unregister(0)), Sent0(K.Wait1));
    states, steps := Extend(states, steps, Other(K.CycleEnded), Sent0(K.Sample));
    states, steps := Extend(states, steps, Other(K.TakeSample), Sent0(K.Clear));
  }

  lemma PacketComesBack()
    requires Inv(Sent0(K.Clear))
    ensures var s := Sent0(K.Clear);
      s.k.control.Clear? && s.k.alivePrc == 0 && s.k.unlockEvt == s.k.unlockedPrc == 0 && |s.channels| == 1 && ReceiverReady(s.channels[0])
    ensures exists ss, st :: ComesBack(Sent0(K.Clear), ss, st)
  {
    hide Inv, ComesBack;
    assert ReceiverReady(Sent0(K.Clear).channels[0]);
    ComesBackIff(Sent0(K.Clear));
  }
}
