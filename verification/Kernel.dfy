/** The simulation kernel as a step system: hardware processes that push orders, lock and
    unlock on ports, and the scheduler that turns orders into tasks and moves time forward.

    One step is one atomic action of one party, so a run is any interleaving of the processes
    with the scheduler. Orders, tasks and waiters carry the serial number of the order they
    come from; serial numbers, `issued` and `log` are history that no step reads. */
module Kernel {
  import opened Gathering

  type Pid = nat
  type Tick = nat
  type EventId = nat

  datatype ExitKind = NoHwPrc | EndOfTick | PrcExit

  datatype Order =
    | WaitUntil(t: Tick, w: Pid)
    | WaitOn(evt: EventId, w: Pid)
    | NotifyAt(t: Tick, evt: EventId)
    | Exit(kind: ExitKind)
  {
    /** Orders that stop the process that pushes them. */
    predicate Halts() { WaitUntil? || WaitOn? }
  }

  datatype Task = Wakeup(t: Tick, w: Pid) | Notify(t: Tick, evt: EventId)

  datatype Tagged<T> = Tagged(id: nat, val: T)

  datatype Issued = Issued(order: Order, at: Tick)

  /** Order `src` took effect at `tick` and released the waits `served`. */
  datatype Firing = Firing(src: nat, tick: Tick, served: seq<nat>)

  datatype Last = NotStarted | Returned(tick: Tick, kind: ExitKind)

  /** Where the scheduler stands in `simulate`. */
  datatype Control =
    | Idle(last: Last)      // not simulating
    | Wait1                 // first wait for the end of the delta-cycle
    | Sample                // about to read unlock_evt
    | Catch(sample: int)    // waiting for the sampled hand-overs to be picked up
    | Wait2                 // second wait for the end of the delta-cycle
    | Clear                 // about to clear both hand-over counters
    | Drain                 // reading the order queue
    | Advance               // queue found empty, about to look at the heap
    | Fire(credit: nat)     // popping the tasks of this tick; `credit` processes woken so far

  datatype State = State(
    // SchedulerAPI
    hwPrc: int, alivePrc: int, lockedPrc: int, unlockedPrc: nat, unlockEvt: nat,
    orderQ: seq<Tagged<Order>>,
    // Scheduler
    heap: seq<Tagged<Task>>, waitOn: map<EventId, seq<Tagged<Pid>>>,
    // TimeKeeper and EventKeeper
    tick: Tick, nextEvent: EventId, triggered: seq<EventId>, woken: seq<Pid>,
    // simulate
    duration: Tick, control: Control,
    // host runtime: processes that may run, processes blocked on a port, and processes
    // released from an event wait whose future was not polled yet
    runnable: set<Pid>, blocked: set<Pid>, resuming: map<Pid, EventId>, prcs: set<Pid>,
    // history
    issued: seq<Issued>, log: seq<Firing>)

  datatype Step =
    // processes
    | NewEvent
    | Register(p: Pid)
    | Unregister(p: Pid)
    | Push(p: Pid, order: Order)
    | Await(p: Pid, evt: EventId)
    | Poll(p: Pid)
    | Lock(p: Pid)
    | Unlock(p: Pid)
    | HandOver
    // scheduler
    | Start(duration: Tick)
    | CycleEnded
    | TakeSample
    | CaughtUp
    | ClearCounters
    | DrainOne
    | DrainDone
    | EarlyExit
    | Jump
    | FireOne(i: nat)
    | Credit

  function Max(a: int, b: int): int { if a > b then a else b }

  /** The tick at which an order issued at `at` for `t` must take effect. */
  function Due(at: Tick, t: Tick): (r: Tick)
    ensures at < r && t <= r && (r == at + 1 || r == t)
  {
    Max(at + 1, t)
  }

  function OrderPid(o: Tagged<Order>): multiset<nat> {
    match o.val
    case WaitUntil(_, w) => multiset{w}
    case WaitOn(_, w) => multiset{w}
    case _ => multiset{}
  }

  function TaskPid(t: Tagged<Task>): multiset<nat> {
    if t.val.Wakeup? then multiset{t.val.w} else multiset{}
  }

  function WaiterPid(w: Tagged<Pid>): multiset<nat> { multiset{w.val} }

  function Pids(ws: seq<Tagged<Pid>>): (r: seq<Pid>)
    ensures |r| == |ws|
    ensures forall k :: 0 <= k < |r| ==> r[k] == ws[k].val
  {
    seq(|ws|, k requires 0 <= k < |ws| => ws[k].val)
  }

  function Ids(ws: seq<Tagged<Pid>>): (r: seq<nat>)
    ensures |r| == |ws|
    ensures forall k :: 0 <= k < |r| ==> r[k] == ws[k].id
  {
    seq(|ws|, k requires 0 <= k < |ws| => ws[k].id)
  }

  function Waiters(m: map<EventId, seq<Tagged<Pid>>>, e: EventId): seq<Tagged<Pid>> {
    if e in m then m[e] else []
  }

  /** A process that runs and is not in the middle of resuming from an event. */
  predicate Running(s: State, p: Pid) { p in s.runnable && p !in s.resuming }

  /** The push of order `o`, as process `p` or from outside any process. */
  function PushOrder(s: State, o: Order): State {
    var s1 := s.(orderQ := s.orderQ + [Tagged(|s.issued|, o)], issued := s.issued + [Issued(o, s.tick)]);
    if o.Halts() then s1.(alivePrc := s.alivePrc - 1, runnable := s.runnable - {o.w}) else s1
  }

  predicate IsTriggered(s: State, e: EventId, p: Pid) { e in s.triggered && p !in s.woken }

  /** First poll of an Event future: ready at once, or registered with the scheduler. */
  function AwaitEvent(s: State, p: Pid, e: EventId): State {
    if IsTriggered(s, e, p) then s.(woken := s.woken + [p]) else PushOrder(s, WaitOn(e, p))
  }

  /** Poll of an Event future that was registered before: its order is not pushed twice. */
  function PollEvent(s: State, p: Pid): State
    requires p in s.resuming
  {
    if IsTriggered(s, s.resuming[p], p) then
      s.(woken := s.woken + [p], resuming := s.resuming - {p})
    else s
  }

  /** Order `o` leaves the queue. */
  function Accept(s: State, o: Tagged<Order>): State {
    match o.val
    case WaitUntil(t, w) => s.(heap := s.heap + [Tagged(o.id, Wakeup(Due(s.tick, t), w))])
    case NotifyAt(t, e) => s.(heap := s.heap + [Tagged(o.id, Notify(Due(s.tick, t), e))])
    case WaitOn(e, w) => s.(waitOn := s.waitOn[e := Waiters(s.waitOn, e) + [Tagged(o.id, w)]])
    case Exit(kind) => s.(control := Idle(Returned(s.tick, kind)), log := s.log + [Firing(o.id, s.tick, [])])
  }

  function DrainFirst(s: State): State
    requires s.orderQ != []
  {
    Accept(s.(orderQ := s.orderQ[1..]), s.orderQ[0])
  }

  predicate Minimal(heap: seq<Tagged<Task>>, i: nat) {
    i < |heap| && forall k :: 0 <= k < |heap| ==> heap[i].val.t <= heap[k].val.t
  }

  /** Index of a task with the smallest tick. */
  function MinIndex(heap: seq<Tagged<Task>>): (i: nat)
    requires heap != []
    ensures Minimal(heap, i)
  {
    if |heap| == 1 then 0
    else
      var j := MinIndex(heap[1..]);
      assert heap[1..][j] == heap[j + 1];
      assert forall k :: 1 <= k < |heap| ==> heap[k] == heap[1..][k - 1];
      if heap[0].val.t <= heap[j + 1].val.t then 0 else j + 1
  }

  function JumpTime(s: State): State {
    if s.heap == [] then s.(control := Idle(Returned(s.tick, NoHwPrc)))
    else
      var next := s.heap[MinIndex(s.heap)].val.t;
      if next > s.duration then s.(control := Idle(Returned(s.tick, EndOfTick)))
      else s.(tick := next, triggered := [], woken := [], control := Fire(0))
  }

  /** Waiters `ws` of event `e` are woken together by order `src`. */
  function Release(s: State, e: EventId, ws: seq<Tagged<Pid>>, src: nat): State
    requires s.control.Fire?
  {
    var woken := Elements(Pids(ws));
    s.(triggered := s.triggered + [e],
       waitOn := s.waitOn - {e},
       runnable := s.runnable + woken,
       resuming := s.resuming + map p | p in woken :: e,
       control := Fire(s.control.credit + |ws|),
       log := s.log + [Firing(src, s.tick, Ids(ws))])
  }

  function FireTask(s: State, t: Tagged<Task>): State
    requires s.control.Fire?
  {
    match t.val
    case Wakeup(_, w) =>
      s.(runnable := s.runnable + {w},
         control := Fire(s.control.credit + 1),
         log := s.log + [Firing(t.id, s.tick, [])])
    case Notify(_, e) => Release(s, e, Waiters(s.waitOn, e), t.id)
  }

  function DoRegister(s: State, p: Pid): State {
    s.(hwPrc := s.hwPrc + 1, alivePrc := s.alivePrc + 1, runnable := s.runnable + {p}, prcs := s.prcs + {p})
  }

  function DoUnregister(s: State, p: Pid): State {
    s.(hwPrc := s.hwPrc - 1, alivePrc := s.alivePrc - 1, runnable := s.runnable - {p}, prcs := s.prcs - {p})
  }

  function DoLock(s: State, p: Pid): State {
    s.(lockedPrc := s.lockedPrc + 1, alivePrc := s.alivePrc - 1,
       runnable := s.runnable - {p}, blocked := s.blocked + {p})
  }

  function DoUnlock(s: State, p: Pid): State {
    s.(alivePrc := s.alivePrc + 1, lockedPrc := s.lockedPrc - 1, unlockedPrc := s.unlockedPrc + 1,
       runnable := s.runnable + {p}, blocked := s.blocked - {p})
  }

  predicate MayPush(s: State, p: Pid, o: Order) {
    && (o.Halts() ==> Running(s, p) && o.w == p)
    && (Running(s, p) || s.control.Idle?)
    && (o.WaitOn? || o.NotifyAt? ==> o.evt < s.nextEvent)
    && (o.WaitUntil? || o.NotifyAt? ==> s.tick <= o.t)
  }

  predicate MayFire(s: State, i: nat) {
    s.control.Fire? && Minimal(s.heap, i) && s.heap[i].val.t <= s.tick
  }

  /** No task of this tick is left in the heap. */
  predicate TickDone(s: State) {
    s.control.Fire? && forall k :: 0 <= k < |s.heap| ==> s.tick < s.heap[k].val.t
  }

  function DoFire(s: State, i: nat): State
    requires MayFire(s, i)
  {
    FireTask(s.(heap := RemoveAt(s.heap, i)), s.heap[i])
  }

  /** Some task falls into the requested duration. */
  predicate TaskWithin(s: State) {
    exists i :: 0 <= i < |s.heap| && s.heap[i].val.t <= s.duration
  }

  /** Steps of `simulate` that move only its own control point and counters. */
  predicate ControlEnabled(s: State, step: Step) {
    match step
    case Start(_) => s.control.Idle?
    case CycleEnded => (s.control.Wait1? || s.control.Wait2?) && s.alivePrc == 0
    case TakeSample => s.control.Sample?
    case CaughtUp => s.control.Catch? && s.control.sample <= s.unlockedPrc
    case ClearCounters => s.control.Clear?
    case DrainDone => s.control.Drain? && s.orderQ == []
    case EarlyExit => s.control.Advance? && TaskWithin(s)
    case Credit => TickDone(s)
    case _ => false
  }

  function ControlApply(s: State, step: Step): State
    requires ControlEnabled(s, step)
  {
    match step
    case Start(d) => s.(duration := d, control := Wait1)
    case CycleEnded => s.(control := if s.control.Wait1? then Sample else Clear)
    case TakeSample => s.(control := if s.unlockEvt > 0 then Catch(s.unlockEvt) else Clear)
    case CaughtUp => s.(control := Wait2)
    case ClearCounters => s.(unlockEvt := 0, unlockedPrc := 0, control := Drain)
    case DrainDone => s.(control := Advance)
    case EarlyExit => s.(control := Idle(Returned(s.tick, EndOfTick)))
    case Credit => s.(alivePrc := s.alivePrc + s.control.credit, control := Wait1)
  }

  predicate Enabled(s: State, step: Step) {
    match step
    case NewEvent => true
    case Register(p) => p !in s.prcs
    case Unregister(p) => Running(s, p)
    case Push(p, o) => MayPush(s, p, o)
    case Await(p, e) => Running(s, p) && e < s.nextEvent
    case Poll(p) => p in s.resuming
    case Lock(p) => Running(s, p)
    case Unlock(p) => p in s.blocked
    case HandOver => true
    case DrainOne => s.control.Drain? && s.orderQ != []
    case Jump => s.control.Advance?
    case FireOne(i) => MayFire(s, i)
    case _ => ControlEnabled(s, step)
  }

  function Apply(s: State, step: Step): State
    requires Enabled(s, step)
  {
    match step
    case NewEvent => s.(nextEvent := s.nextEvent + 1)
    case Register(p) => DoRegister(s, p)
    case Unregister(p) => DoUnregister(s, p)
    case Push(_, o) => PushOrder(s, o)
    case Await(p, e) => AwaitEvent(s, p, e)
    case Poll(p) => PollEvent(s, p)
    case Lock(p) => DoLock(s, p)
    case Unlock(p) => DoUnlock(s, p)
    case HandOver => s.(unlockEvt := s.unlockEvt + 1)
    case DrainOne => DrainFirst(s)
    case Jump => JumpTime(s)
    case FireOne(i) => DoFire(s, i)
    case _ => ControlApply(s, step)
  }

  predicate Next(s: State, step: Step, s': State) {
    Enabled(s, step) && s' == Apply(s, step)
  }

  /** A freshly reset simulation starting at tick `t0`. */
  predicate Init(s: State) {
    && s.hwPrc == 0 && s.alivePrc == 0 && s.lockedPrc == 0 && s.unlockedPrc == 0 && s.unlockEvt == 0
    && s.orderQ == [] && s.heap == [] && s.waitOn == map[] && s.nextEvent == 0
    && s.triggered == [] && s.woken == [] && s.control == Idle(NotStarted)
    && s.runnable == {} && s.blocked == {} && s.resuming == map[] && s.prcs == {}
    && s.issued == [] && s.log == []
  }

  /** `states` is a run that takes `steps`, from any state. */
  predicate Path(states: seq<State>, steps: seq<Step>) {
    && |states| == |steps| + 1
    && forall i :: 0 <= i < |steps| ==> Next(states[i], steps[i], states[i + 1])
  }

  lemma Extend(states: seq<State>, steps: seq<Step>, step: Step, t: State)
    requires Path(states, steps) && Next(states[|steps|], step, t)
    ensures Path(states + [t], steps + [step]) && (states + [t])[|steps + [step]|] == t && (states + [t])[0] == states[0]
  {
    hide Next;
    var all, allSteps := states + [t], steps + [step];
    forall i | 0 <= i < |allSteps|
      ensures Next(all[i], allSteps[i], all[i + 1])
    {
      if i < |steps| {
        assert Next(states[i], steps[i], states[i + 1]);
      }
    }
  }
}
