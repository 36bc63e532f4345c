/** The shared SchedulerAPI and the Scheduler as objects: each method changes the fields the
    source changes, and its contract says that the object makes the matching step. */
module Scheduler {
  import opened Gathering
  import opened Kernel
  import Sim = KernelSimulate

  /** How a turn of the scheduler ends. */
  datatype Verdict = GoOn | Stop(tick: Tick, kind: ExitKind)

  /** What lies outside the two source objects: the runtime's view of the processes and history. */
  datatype Host = Host(runnable: set<Pid>, blocked: set<Pid>, resuming: map<Pid, EventId>, prcs: set<Pid>,
                       issued: seq<Issued>, log: seq<Firing>)

  class Scheduler {
    // SchedulerAPI
    var hwPrc: int
    var alivePrc: int
    var lockedPrc: int
    var unlockedPrc: nat
    var unlockEvt: nat
    var orderQ: seq<Tagged<Order>>
    // Scheduler
    var waitOnTick: seq<Tagged<Task>>
    var waitOnEvent: map<EventId, seq<Tagged<Pid>>>
    // TimeKeeper and EventKeeper
    var tick: Tick
    var nextEvent: EventId
    var triggered: seq<EventId>
    var woken: seq<Pid>
    // the call of simulate in progress
    var duration: Tick
    var control: Control
    // host runtime and history
    var host: Host

    function View(): State
      reads this
    {
      State(hwPrc, alivePrc, lockedPrc, unlockedPrc, unlockEvt, orderQ, waitOnTick, waitOnEvent,
            tick, nextEvent, triggered, woken, duration, control,
            host.runnable, host.blocked, host.resuming, host.prcs, host.issued, host.log)
    }

    constructor (t0: Tick)
      ensures Init(View()) && tick == t0
    {
      hwPrc, alivePrc, lockedPrc, unlockedPrc, unlockEvt := 0, 0, 0, 0, 0;
      orderQ, waitOnTick, waitOnEvent := [], [], map[];
      tick, nextEvent, triggered, woken := t0, 0, [], [];
      duration, control := 0, Idle(NotStarted);
      host := Host({}, {}, map[], {}, [], []);
    }

    /** The order is stored, and a halting order also takes its process out of the alive ones. */
    method PushOrder(p: Pid, order: Order)
      requires MayPush(View(), p, order)
      modifies this
      ensures View() == Kernel.PushOrder(old(View()), order)
    {
      orderQ := orderQ + [Tagged(|host.issued|, order)];
      host := host.(issued := host.issued + [Issued(order, tick)]);
      if order.Halts() {
        alivePrc := alivePrc - 1;
        host := host.(runnable := host.runnable - {order.w});
      }
    }

    /** EventKeeper::is_triggered: true at most once per process and delta-cycle. */
    method IsTriggeredNow(e: EventId, p: Pid) returns (r: bool)
      modifies this`woken
      ensures r == IsTriggered(old(View()), e, p)
      ensures woken == if r then old(woken) + [p] else old(woken)
    {
      r := e in triggered && p !in woken;
      if r {
        woken := woken + [p];
      }
    }

    /** The runtime's view: a process released from its event has now been polled successfully. */
    method Resumed(p: Pid)
      modifies this`host
      ensures View() == old(View()).(resuming := old(host.resuming) - {p})
    {
      host := host.(resuming := host.resuming - {p});
    }

    method RegisterNewPrc(p: Pid)
      requires p !in host.prcs
      modifies this
      ensures View() == DoRegister(old(View()), p)
    {
      hwPrc := hwPrc + 1;
      alivePrc := alivePrc + 1;
      host := host.(runnable := host.runnable + {p}, prcs := host.prcs + {p});
    }

    method UnregisterPrc(p: Pid)
      requires Running(View(), p)
      modifies this
      ensures View() == DoUnregister(old(View()), p)
    {
      hwPrc := hwPrc - 1;
      alivePrc := alivePrc - 1;
      host := host.(runnable := host.runnable - {p}, prcs := host.prcs - {p});
    }

    method LockPrc(p: Pid)
      requires Running(View(), p)
      modifies this
      ensures View() == DoLock(old(View()), p)
    {
      lockedPrc := lockedPrc + 1;
      alivePrc := alivePrc - 1;
      host := host.(runnable := host.runnable - {p}, blocked := host.blocked + {p});
    }

    method UnlockPrc(p: Pid)
      requires p in host.blocked
      modifies this
      ensures View() == DoUnlock(old(View()), p)
    {
      alivePrc := alivePrc + 1;
      lockedPrc := lockedPrc - 1;
      unlockedPrc := unlockedPrc + 1;
      host := host.(runnable := host.runnable + {p}, blocked := host.blocked - {p});
    }

    method UnlockEvt()
      modifies this`unlockEvt
      ensures View() == old(View()).(unlockEvt := old(unlockEvt) + 1)
    {
      unlockEvt := unlockEvt + 1;
    }

    /** One order is turned into a task, a waiter or the end of the simulation. */
    method AcceptOrder(o: Tagged<Order>) returns (v: Verdict)
      requires control.Drain?
      modifies this
      ensures View() == Accept(old(View()), o)
      ensures v == if o.val.Exit? then Stop(tick, o.val.kind) else GoOn
    {
      v := GoOn;
      match o.val
      case WaitUntil(t, w) =>
        var due := if t < tick + 1 then tick + 1 else t;
        waitOnTick := waitOnTick + [Tagged(o.id, Wakeup(due, w))];
      case NotifyAt(t, e) =>
        var due := if t < tick + 1 then tick + 1 else t;
        waitOnTick := waitOnTick + [Tagged(o.id, Notify(due, e))];
      case WaitOn(e, w) =>
        if e in waitOnEvent {
          waitOnEvent := waitOnEvent[e := waitOnEvent[e] + [Tagged(o.id, w)]];
        } else {
          waitOnEvent := waitOnEvent[e := [Tagged(o.id, w)]];
          assert [] + [Tagged(o.id, w)] == [Tagged(o.id, w)];
        }
      case Exit(kind) =>
        control := Idle(Returned(tick, kind));
        host := host.(log := host.log + [Firing(o.id, tick, [])]);
        v := Stop(tick, kind);
    }

    /** The order queue is read until it is empty or holds an Exit. */
    method DrainOrders() returns (v: Verdict)
      requires control.Drain?
      modifies this
      ensures View() == Sim.DrainAll(old(View()))
      ensures v.Stop? <==> control.Idle?
      ensures v.Stop? ==> control == Idle(Returned(v.tick, v.kind))
    {
      ghost var goal := Sim.DrainAll(View());
      while orderQ != []
        invariant control.Drain? && Sim.DrainAll(View()) == goal
        decreases |orderQ|
      {
        ghost var before := View();
        var o := orderQ[0];
        orderQ := orderQ[1..];
        assert View() == before.(orderQ := before.orderQ[1..]);
        v := AcceptOrder(o);
        assert View() == DrainFirst(before);
        if v.Stop? {
          return;
        }
      }
      control := Advance;
      v := GoOn;
    }

    /** Index of a task with the smallest tick: the head of the heap. */
    method Peek() returns (i: nat)
      requires waitOnTick != []
      ensures i == MinIndex(waitOnTick)
    {
      i := MinIndex(waitOnTick);
    }

    /** Stop without a task, beyond the duration or at an early exit request; otherwise the clock goes to
        the next task. */
    method JumpToNextTask(forceEarlyExit: bool) returns (v: Verdict)
      requires control.Advance?
      modifies this
      ensures View() == Sim.Advanced(old(View()), forceEarlyExit)
      ensures v == Stop(old(tick), NoHwPrc) <==> old(waitOnTick) == []
      ensures v == Stop(old(tick), EndOfTick) <==> old(waitOnTick) != [] && (forceEarlyExit || forall i :: 0 <= i < |old(waitOnTick)| ==> old(waitOnTick)[i].val.t > duration)
      ensures v.GoOn? ==> tick <= duration && (exists i :: 0 <= i < |waitOnTick| && waitOnTick[i].val.t == tick)
      ensures v.GoOn? ==> waitOnTick == old(waitOnTick) && forall i :: 0 <= i < |waitOnTick| ==> tick <= waitOnTick[i].val.t
      ensures v.Stop? <==> control.Idle?
      ensures v.Stop? ==> control == Idle(Returned(v.tick, v.kind))
    {
      hide MinIndex, TaskWithin;
      Sim.WithinIsSmallest(View());
      if waitOnTick == [] {
        control := Idle(Returned(tick, NoHwPrc));
        return Stop(tick, NoHwPrc);
      }
      var i := Peek();
      var next := waitOnTick[i].val.t;
      if next > duration {
        control := Idle(Returned(tick, EndOfTick));
        return Stop(tick, EndOfTick);
      }
      if forceEarlyExit {
        control := Idle(Returned(tick, EndOfTick));
        return Stop(tick, EndOfTick);
      }
      tick, triggered, woken := next, [], [];
      control := Fire(0);
      v := GoOn;
    }

    method WakeUp(id: nat, w: Pid)
      requires control.Fire?
      modifies this`control, this`host
      ensures forall t: Tick :: View() == FireTask(old(View()), Tagged(id, Wakeup(t, w)))
    {
      control := Fire(control.credit + 1);
      host := host.(runnable := host.runnable + {w}, log := host.log + [Firing(id, tick, [])]);
    }

    /** Everybody in the list of the event is woken, and the list is dropped. */
    method TriggerEvent(id: nat, e: EventId)
      requires control.Fire?
      modifies this`control, this`host, this`triggered, this`waitOnEvent
      ensures View() == Release(old(View()), e, Waiters(old(waitOnEvent), e), id)
    {
      triggered := triggered + [e];
      var ws := Waiters(waitOnEvent, e);
      var ps := Elements(Pids(ws));
      waitOnEvent := waitOnEvent - {e};
      control := Fire(control.credit + |ws|);
      host := host.(runnable := host.runnable + ps,
                    resuming := host.resuming + map p | p in ps :: e,
                    log := host.log + [Firing(id, tick, Ids(ws))]);
    }

    /** Pop the task at the head of the heap and let it fire. */
    method PopAndFire(i: nat)
      requires MayFire(View(), i)
      modifies this
      ensures View() == DoFire(old(View()), i) && |waitOnTick| < |old(waitOnTick)|
    {
      hide RemoveAt, Release;
      ghost var before := View();
      var task := waitOnTick[i];
      waitOnTick := RemoveAt(waitOnTick, i);
      assert View() == before.(heap := RemoveAt(before.heap, i));
      match task.val {
        case Wakeup(_, w) => WakeUp(task.id, w);
        case Notify(_, e) => TriggerEvent(task.id, e);
      }
    }

    /** All tasks of this tick are popped; only then are the woken processes credited. */
    method FireTick()
      requires control.Fire?
      modifies this
      ensures View() == Sim.FireAll(old(View()))
    {
      ghost var goal := Sim.FireAll(View());
      hide Sim.FireAll, MinIndex, DoFire;
      while waitOnTick != []
        invariant control.Fire? && Sim.FireAll(View()) == goal
        decreases |waitOnTick|
      {
        var i := Peek();
        if tick < waitOnTick[i].val.t {
          break;
        }
        Sim.FireAllOn(View());
        PopAndFire(i);
      }
      Sim.FireAllEnds(View());
      alivePrc := alivePrc + control.credit;
      control := Wait1;
    }

    /** The processes get a turn: all that changes meanwhile is their doing. */
    method Yield(w: Sim.World)
      modifies this
      ensures View() == w.run(old(View()))
    {
      var s := w.run(View());
      LoadApi(s);
      LoadScheduler(s);
      duration, control := s.duration, s.control;
      host := Host(s.runnable, s.blocked, s.resuming, s.prcs, s.issued, s.log);
    }

    /** WaitHwThread: ready at once when no process is alive, otherwise when the last one halts. */
    method WaitHwThread(w: Sim.World)
      requires (control.Wait1? || control.Wait2?) && Sim.Settling(w)
      modifies this
      ensures View() == Sim.AwaitEnd(old(View()), w)
    {
      if alivePrc != 0 {
        assert Sim.Awaits(View());
        Yield(w);
      }
    }

    /** Yield as long as fewer processes resumed than were announced in the sample. */
    method CatchUpUnlocked(sample: nat, w: Sim.World)
      requires control == Catch(sample) && Sim.Settling(w)
      modifies this
      ensures View() == Sim.CatchUp(old(View()), w)
    {
      ghost var goal := Sim.CatchUp(View(), w);
      while sample > unlockedPrc
        invariant control == Catch(sample) && Sim.CatchUp(View(), w) == goal
        decreases sample - unlockedPrc
      {
        assert Sim.Awaits(View());
        assert Sim.Settles(View(), w.run(View()));
        Yield(w);
      }
    }

    method LoadApi(s: State)
      modifies this`hwPrc, this`alivePrc, this`lockedPrc, this`unlockedPrc, this`unlockEvt, this`orderQ
      ensures hwPrc == s.hwPrc && alivePrc == s.alivePrc && lockedPrc == s.lockedPrc
      ensures unlockedPrc == s.unlockedPrc && unlockEvt == s.unlockEvt && orderQ == s.orderQ
    {
      hwPrc, alivePrc, lockedPrc := s.hwPrc, s.alivePrc, s.lockedPrc;
      unlockedPrc, unlockEvt, orderQ := s.unlockedPrc, s.unlockEvt, s.orderQ;
    }

    method LoadScheduler(s: State)
      modifies this`waitOnTick, this`waitOnEvent, this`tick, this`nextEvent, this`triggered, this`woken
      ensures waitOnTick == s.heap && waitOnEvent == s.waitOn && tick == s.tick
      ensures nextEvent == s.nextEvent && triggered == s.triggered && woken == s.woken
    {
      waitOnTick, waitOnEvent, tick := s.heap, s.waitOn, s.tick;
      nextEvent, triggered, woken := s.nextEvent, s.triggered, s.woken;
    }

    /** Sample the announced hand-overs once; if there are any, wait for them and for the end of the cycle
        again. */
    method ResolveUnlocked(w: Sim.World)
      requires control.Wait1? && alivePrc == 0 && Sim.Settling(w)
      modifies this
      ensures View() == Sim.Resolve(old(View()), w)
    {
      hide Sim.AwaitEnd, Sim.CatchUp, Sim.Settling;
      var sample := unlockEvt;
      if sample > 0 {
        control := Catch(sample);
        CatchUpUnlocked(sample, w);
        control := Wait2;
        WaitHwThread(w);
      }
      control := Clear;
    }

    /** One delta-cycle up to its decision: wait for its end, sample the announced hand-overs once, wait
        until those processes resumed and halted again, clear both counters, read the queue. */
    method CloseCycle(w: Sim.World) returns (v: Verdict)
      requires control.Wait1? && Sim.Ahead(View()) && Sim.Settling(w)
      modifies this
      ensures View() == Sim.Decision(old(View()), w)
      ensures v.Stop? <==> control.Idle?
      ensures v.Stop? ==> control == Idle(Returned(v.tick, v.kind))
    {
      hide Sim.AwaitEnd, Sim.Resolve, Sim.DrainAll, Sim.Ahead, Sim.Settling;
      WaitHwThread(w);
      ResolveUnlocked(w);
      unlockEvt, unlockedPrc, control := 0, 0, Drain;
      v := DrainOrders();
    }

    /** The simulation loop: close the cycle, jump to the next task, fire its tick. */
    method Simulate(d: Tick, w: Sim.World) returns (tickReached: Tick, kind: ExitKind)
      requires control.Idle? && Sim.Ahead(View()) && Sim.Settling(w)
      modifies this
      ensures View() == Sim.Simulate(old(View()), d, w)
      ensures control == Idle(Returned(tickReached, kind)) && tickReached == tick
      ensures !Sim.SomeExitRead(old(View()), d, w) ==> (kind == NoHwPrc <==> waitOnTick == [])
      ensures !Sim.SomeExitRead(old(View()), d, w) ==>
        (kind == EndOfTick <==>
          waitOnTick != [] && (w.stop(View().(control := Advance)) || forall i :: 0 <= i < |waitOnTick| ==> waitOnTick[i].val.t > d))
    {
      hide Sim.DrainAll, Sim.FireAll, Sim.Decision, Sim.Advanced, Sim.Settling;
      ghost var goal := Sim.Simulate(View(), d, w);
      Sim.SimulateReturns(View(), d, w);
      duration, control := d, Wait1;
      while true
        invariant control.Wait1? && Sim.Ahead(View()) && Sim.Loop(View(), w).state == goal && duration == d
        decreases d - tick
      {
        var v := CloseCycle(w);
        if v.Stop? {
          return v.tick, v.kind;
        }
        ghost var a := View();
        Sim.JumpMovesForward(a, w.stop(a));
        v := JumpToNextTask(w.stop(View()));
        if v.Stop? {
          return v.tick, v.kind;
        }
        FireTick();
      }
    }
  }

  // ------------------------------------------------------------ the futures

  datatype Polled = Ready | Pending | Panicked

  /** A process that waits for a tick. */
  class Delay {
    const wakeAt: Tick
    const forgedAt: Tick
    var orderPushed: bool

    constructor WaitFor(delay: Tick, now: Tick)
      ensures wakeAt == now + delay && forgedAt == now && !orderPushed
    {
      wakeAt, forgedAt, orderPushed := now + delay, now, false;
    }

    constructor WaitUntil(t: Tick, now: Tick)
      ensures wakeAt == t && forgedAt == now && !orderPushed
    {
      wakeAt, forgedAt, orderPushed := t, now, false;
    }

    /** Ready once the tick is reached; before it, awaited in any other tick than that of its making it
        panics, and however often it is polled it orders its wake-up once. */
    method Poll(sched: Scheduler, p: Pid) returns (r: Polled)
      requires orderPushed || Running(sched.View(), p)
      modifies this, sched
      ensures r == if wakeAt <= old(sched.tick) then Ready else if old(sched.tick) == forgedAt then Pending else Panicked
      ensures r.Pending? && !old(orderPushed) ==> sched.View() == Kernel.PushOrder(old(sched.View()), Order.WaitUntil(wakeAt, p))
      ensures !r.Pending? || old(orderPushed) ==> sched.View() == old(sched.View())
      ensures orderPushed == (old(orderPushed) || r.Pending?)
    {
      if sched.tick >= wakeAt {
        return Ready;
      }
      if sched.tick != forgedAt {
        return Panicked;
      }
      if !orderPushed {
        sched.PushOrder(p, Order.WaitUntil(wakeAt, p));
        orderPushed := true;
      }
      r := Pending;
    }
  }

  /** A process that waits for an event. */
  class Event {
    const uid: EventId
    var orderPushed: bool

    constructor Wait(e: EventId)
      ensures uid == e && !orderPushed
    {
      uid, orderPushed := e, false;
    }

    /** Ready when its event was triggered in this delta-cycle and the process was not woken in it yet;
        otherwise registered, once. A first poll is the step Await of the kernel, and the poll of a
        released process its step Poll. */
    method Poll(sched: Scheduler, p: Pid) returns (r: Polled)
      requires uid < sched.nextEvent && (orderPushed || Running(sched.View(), p))
      requires p in sched.host.resuming ==> sched.host.resuming[p] == uid
      modifies this, sched
      ensures r == if IsTriggered(old(sched.View()), uid, p) then Ready else Pending
      ensures !old(orderPushed) ==> sched.View() == AwaitEvent(old(sched.View()), p, uid)
      ensures old(orderPushed) && p in old(sched.host.resuming) ==> sched.View() == PollEvent(old(sched.View()), p)
      ensures old(orderPushed) && r.Pending? ==> sched.View() == old(sched.View())
      ensures orderPushed == (old(orderPushed) || r.Pending?)
    {
      var ready := sched.IsTriggeredNow(uid, p);
      if ready {
        sched.Resumed(p);
        return Ready;
      }
      if !orderPushed {
        sched.PushOrder(p, WaitOn(uid, p));
        orderPushed := true;
      }
      r := Pending;
    }
  }
}
