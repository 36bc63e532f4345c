/** Every order is in exactly one place: queue, heap, waiter list, or the log of what took effect. */
module KernelOnce {
  import opened Gathering
  import opened Kernel
  import opened KernelCensus

  function OrderId(o: Tagged<Order>): multiset<nat> { multiset{o.id} }
  function TaskId(t: Tagged<Task>): multiset<nat> { multiset{t.id} }
  function WaiterId(w: Tagged<Pid>): multiset<nat> { multiset{w.id} }
  function FiringIds(f: Firing): multiset<nat> { multiset{f.src} + multiset(f.served) }

  /** In how many places order `n` is: queue, heap, waiter lists, log of what took effect. */
  ghost function Copies(s: State, n: nat): nat {
    Gather(s.orderQ, OrderId)[n] + Gather(s.heap, TaskId)[n]
    + GatherMap(s.waitOn, s.nextEvent, WaiterId)[n] + Gather(s.log, FiringIds)[n]
  }

  ghost predicate OnceEach(s: State) {
    forall n: nat :: Copies(s, n) == Bit(n < |s.issued|)
  }

  lemma PushKeepsOnce(s: State, o: Order)
    requires OnceEach(s)
    ensures OnceEach(PushOrder(s, o))
  {
    hide Gather, GatherMap;
    GatherPush(s.orderQ, Tagged(|s.issued|, o), OrderId);
    var t := PushOrder(s, o);
    forall n: nat
      ensures Copies(t, n) == Bit(n < |t.issued|)
    {
      assert Copies(s, n) == Bit(n < |s.issued|);
    }
  }

  lemma DrainKeepsOnce(s: State)
    requires OnceEach(s) && EventsKnown(s) && s.control.Drain? && s.orderQ != []
    ensures OnceEach(DrainFirst(s))
  {
    hide Gather, GatherMap;
    var t := DrainFirst(s);
    DrainMovesId(s);
    forall n: nat
      ensures Copies(t, n) == Bit(n < |t.issued|)
    {
      assert Copies(s, n) == Bit(n < |s.issued|);
    }
  }

  lemma DrainMovesId(s: State)
    requires EventsKnown(s) && s.control.Drain? && s.orderQ != []
    ensures forall n: nat :: Copies(s, n) == Copies(DrainFirst(s), n)
  {
    hide Gather, GatherMap;
    var o := s.orderQ[0];
    var t := DrainFirst(s);
    GatherRemove(s.orderQ, 0, OrderId);
    assert RemoveAt(s.orderQ, 0) == t.orderQ;
    match o.val {
      case WaitUntil(tick, w) => GatherPush(s.heap, Tagged(o.id, Wakeup(Due(s.tick, tick), w)), TaskId);
      case NotifyAt(tick, e) => GatherPush(s.heap, Tagged(o.id, Notify(Due(s.tick, tick), e)), TaskId);
      case WaitOn(e, w) => AppendWaiter(s.waitOn, s.nextEvent, e, Tagged(o.id, w), WaiterId);
      case Exit(_) => GatherPush(s.log, Firing(o.id, s.tick, []), FiringIds);
    }
  }

  lemma SameOnce(s: State, t: State)
    requires OnceEach(s)
    requires t.orderQ == s.orderQ && t.heap == s.heap && t.waitOn == s.waitOn && t.nextEvent == s.nextEvent
    requires t.log == s.log && t.issued == s.issued
    ensures OnceEach(t)
  {
    hide Gather, GatherMap;
    forall n: nat
      ensures Copies(t, n) == Bit(n < |t.issued|)
    {
      assert Copies(s, n) == Bit(n < |s.issued|);
    }
  }

  lemma OnceMoves(s: State, t: State)
    requires OnceEach(s) && t.issued == s.issued
    requires forall n: nat :: Copies(t, n) == Copies(s, n)
    ensures OnceEach(t)
  {
    hide Copies;
    forall n: nat
      ensures Copies(t, n) == Bit(n < |t.issued|)
    {
      assert Copies(s, n) == Bit(n < |s.issued|);
    }
  }

  lemma {:induction false} WaiterIdsAreList(ws: seq<Tagged<Pid>>)
    ensures Gather(ws, WaiterId) == multiset(Ids(ws))
  {
    if ws != [] {
      WaiterIdsAreList(ws[1..]);
      assert Ids(ws) == [ws[0].id] + Ids(ws[1..]);
    } else {
      assert Ids(ws) == [];
    }
  }

  lemma NotifyKeepsOnce(s: State, t: State, i: nat)
    requires OnceEach(s) && EventsKnown(s) && i < |s.heap| && s.heap[i].val.Notify?
    requires t.issued == s.issued && t.orderQ == s.orderQ && t.nextEvent == s.nextEvent
    requires t.heap == RemoveAt(s.heap, i) && t.waitOn == s.waitOn - {s.heap[i].val.evt}
    requires t.log == s.log + [Firing(s.heap[i].id, s.tick, Ids(Waiters(s.waitOn, s.heap[i].val.evt)))]
    ensures OnceEach(t)
  {
    hide Gather, GatherMap;
    var e := s.heap[i].val.evt;
    GatherRemove(s.heap, i, TaskId);
    DropWaiters(s.waitOn, s.nextEvent, e, WaiterId);
    WaiterIdsAreList(Waiters(s.waitOn, e));
    GatherPush(s.log, Firing(s.heap[i].id, s.tick, Ids(Waiters(s.waitOn, e))), FiringIds);
    OnceMoves(s, t);
  }

  lemma NewEventKeepsOnce(s: State)
    requires OnceEach(s) && EventsKnown(s)
    ensures OnceEach(s.(nextEvent := s.nextEvent + 1))
  {
    var t := s.(nextEvent := s.nextEvent + 1);
    assert s.nextEvent !in s.waitOn;
    assert GatherMap(s.waitOn, t.nextEvent, WaiterId) == GatherMap(s.waitOn, s.nextEvent, WaiterId);
    hide Gather, GatherMap;
    OnceMoves(s, t);
  }

  lemma WakeupKeepsOnce(s: State, t: State, i: nat)
    requires OnceEach(s) && i < |s.heap| && s.heap[i].val.Wakeup?
    requires t.issued == s.issued && t.orderQ == s.orderQ && t.nextEvent == s.nextEvent && t.waitOn == s.waitOn
    requires t.heap == RemoveAt(s.heap, i) && t.log == s.log + [Firing(s.heap[i].id, s.tick, [])]
    ensures OnceEach(t)
  {
    hide Gather, GatherMap;
    GatherRemove(s.heap, i, TaskId);
    GatherPush(s.log, Firing(s.heap[i].id, s.tick, []), FiringIds);
    OnceMoves(s, t);
  }

  lemma FireKeepsOnce(s: State, i: nat)
    requires OnceEach(s) && EventsKnown(s) && MayFire(s, i)
    ensures OnceEach(DoFire(s, i))
  {
    hide OnceEach, EventsKnown;
    if s.heap[i].val.Wakeup? {
      WakeupKeepsOnce(s, DoFire(s, i), i);
    } else {
      NotifyKeepsOnce(s, DoFire(s, i), i);
    }
  }

  lemma AwaitKeepsOnce(s: State, p: Pid, e: EventId)
    requires OnceEach(s)
    ensures OnceEach(AwaitEvent(s, p, e))
  {
    hide OnceEach, PushOrder;
    if IsTriggered(s, e, p) {
      SameOnce(s, AwaitEvent(s, p, e));
    } else {
      PushKeepsOnce(s, WaitOn(e, p));
    }
  }

  /** Steps that move no order. */
  lemma OtherKeepsOnce(s: State, step: Step)
    requires OnceEach(s) && Enabled(s, step)
    requires !step.NewEvent? && !step.Push? && !step.Await? && !step.DrainOne? && !step.FireOne?
    ensures OnceEach(Apply(s, step))
  {
    hide OnceEach, MinIndex;
    SameOnce(s, Apply(s, step));
  }

  lemma StepKeepsOnce(s: State, step: Step)
    requires OnceEach(s) && EventsKnown(s) && Enabled(s, step)
    ensures OnceEach(Apply(s, step))
  {
    hide OnceEach, EventsKnown, PushOrder, DrainFirst, JumpTime, DoFire, MayFire, ControlApply, AwaitEvent;
    match step {
      case NewEvent => NewEventKeepsOnce(s);
      case Push(_, o) => PushKeepsOnce(s, o);
      case Await(p, e) => AwaitKeepsOnce(s, p, e);
      case DrainOne => DrainKeepsOnce(s);
      case FireOne(i) => FireKeepsOnce(s, i);
      case _ => OtherKeepsOnce(s, step);
    }
  }

  lemma InitOnce(s: State)
    requires Init(s)
    ensures OnceEach(s)
  {
  }

  lemma KnownEvents(s: State)
    requires Accounted(s)
    ensures EventsKnown(s)
  {
  }

  /** In every run no order is lost and none takes effect twice. */
  lemma {:induction false} AlwaysOnce(states: seq<State>, steps: seq<Step>, k: nat)
    requires Path(states, steps) && Init(states[0]) && k < |states|
    ensures OnceEach(states[k])
  {
    hide Enabled, Apply, OnceEach, Accounted, EventsKnown;
    if k == 0 {
      InitOnce(states[0]);
    } else {
      AlwaysOnce(states, steps, k - 1);
      AlwaysAccounted(states, steps, k - 1);
      KnownEvents(states[k - 1]);
      assert Next(states[k - 1], steps[k - 1], states[k - 1 + 1]);
      StepKeepsOnce(states[k - 1], steps[k - 1]);
    }
  }
}
