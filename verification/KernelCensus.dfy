/** Every registered process is in exactly one place and the shared counters count the
    places, in every interleaving of processes and scheduler. */
module KernelCensus {
  import opened Gathering
  import opened Kernel

  function Bit(b: bool): nat { if b then 1 else 0 }

  /** In how many places process `p` is: running, blocked on a port, in a queued order, in a
      heap wake-up, in the waiter list of an event. */
  ghost function Spots(s: State, p: Pid): nat {
    Bit(p in s.runnable) + Bit(p in s.blocked) + Ordered(s, p)
  }

  ghost function Queued(s: State, p: Pid): nat { Gather(s.orderQ, OrderPid)[p] }
  ghost function Timed(s: State, p: Pid): nat { Gather(s.heap, TaskPid)[p] }
  ghost function Waiting(s: State, p: Pid): nat { GatherMap(s.waitOn, s.nextEvent, WaiterPid)[p] }

  ghost function Ordered(s: State, p: Pid): nat { Queued(s, p) + Timed(s, p) + Waiting(s, p) }

  ghost predicate EventsKnown(s: State) {
    && (forall e :: e in s.waitOn ==> e < s.nextEvent)
    && (forall i :: 0 <= i < |s.orderQ| && s.orderQ[i].val.WaitOn? ==> s.orderQ[i].val.evt < s.nextEvent)
  }

  /** Exactly one place for a registered process, none for the others. */
  ghost predicate OnePlaceEach(s: State) {
    forall p: Pid :: Spots(s, p) == Bit(p in s.prcs)
  }

  /** Processes woken in this tick whose wake-up is not credited to alive_prc yet. */
  function Uncredited(s: State): nat { if s.control.Fire? then s.control.credit else 0 }

  ghost predicate Counters(s: State) {
    && s.alivePrc + Uncredited(s) == |s.runnable|
    && s.lockedPrc == |s.blocked|
    && s.hwPrc == |s.prcs|
  }

  ghost predicate Accounted(s: State) { OnePlaceEach(s) && EventsKnown(s) && Counters(s) }

  lemma PushKeeps(s: State, o: Order)
    requires Accounted(s) && (o.Halts() ==> o.w in s.runnable)
    requires o.WaitOn? ==> o.evt < s.nextEvent
    ensures Accounted(PushOrder(s, o))
  {
    hide Gather, GatherMap;
    GatherPush(s.orderQ, Tagged(|s.issued|, o), OrderPid);
    var t := PushOrder(s, o);
    forall p: Pid
      ensures Spots(t, p) == Bit(p in t.prcs)
    {
      assert Spots(s, p) == Bit(p in s.prcs);
    }
  }

  lemma RegisterKeeps(s: State, p: Pid)
    requires Accounted(s) && p !in s.prcs
    ensures Accounted(DoRegister(s, p))
  {
    hide Gather, GatherMap;
    var t := DoRegister(s, p);
    assert Spots(s, p) == 0;
    forall q: Pid
      ensures Spots(t, q) == Bit(q in t.prcs)
    {
      assert Spots(s, q) == Bit(q in s.prcs);
    }
  }

  lemma UnregisterKeeps(s: State, p: Pid)
    requires Accounted(s) && Running(s, p)
    ensures Accounted(DoUnregister(s, p))
  {
    hide Gather, GatherMap;
    var t := DoUnregister(s, p);
    assert Spots(s, p) == Bit(p in s.prcs);
    forall q: Pid
      ensures Spots(t, q) == Bit(q in t.prcs)
    {
      assert Spots(s, q) == Bit(q in s.prcs);
    }
  }

  lemma LockKeeps(s: State, p: Pid)
    requires Accounted(s) && Running(s, p)
    ensures Accounted(DoLock(s, p))
  {
    hide Gather, GatherMap;
    var t := DoLock(s, p);
    assert Spots(s, p) == Bit(p in s.prcs);
    forall q: Pid
      ensures Spots(t, q) == Bit(q in t.prcs)
    {
      assert Spots(s, q) == Bit(q in s.prcs);
    }
  }

  lemma UnlockKeeps(s: State, p: Pid)
    requires Accounted(s) && p in s.blocked
    ensures Accounted(DoUnlock(s, p))
  {
    hide Gather, GatherMap;
    var t := DoUnlock(s, p);
    assert Spots(s, p) == Bit(p in s.prcs);
    forall q: Pid
      ensures Spots(t, q) == Bit(q in t.prcs)
    {
      assert Spots(s, q) == Bit(q in s.prcs);
    }
  }

  lemma NewEventKeeps(s: State)
    requires Accounted(s)
    ensures Accounted(s.(nextEvent := s.nextEvent + 1))
  {
    hide Gather;
    var t := s.(nextEvent := s.nextEvent + 1);
    assert s.nextEvent !in s.waitOn;
    forall q: Pid
      ensures Spots(t, q) == Bit(q in t.prcs)
    {
      assert Spots(s, q) == Bit(q in s.prcs);
    }
  }

  /** An order leaves the queue: its process moves to the heap or to a waiter list. */
  lemma DrainKeeps(s: State)
    requires Accounted(s) && s.control.Drain? && s.orderQ != []
    ensures Accounted(DrainFirst(s))
  {
    var t := DrainFirst(s);
    DrainKnown(s);
    DrainMoves(s);
    hide Ordered, DrainFirst, EventsKnown;
    assert t.runnable == s.runnable && t.blocked == s.blocked && t.prcs == s.prcs by { DrainFrame(s); }
    assert Counters(t) by { DrainFrame(s); }
    forall q: Pid
      ensures Spots(t, q) == Bit(q in t.prcs)
    {
      assert Spots(s, q) == Bit(q in s.prcs);
    }
  }

  lemma DrainKnown(s: State)
    requires EventsKnown(s) && s.control.Drain? && s.orderQ != []
    ensures EventsKnown(DrainFirst(s))
  {
    var t := DrainFirst(s);
    assert forall i :: 0 <= i < |t.orderQ| ==> t.orderQ[i] == s.orderQ[i + 1];
  }

  lemma DrainFrame(s: State)
    requires s.control.Drain? && s.orderQ != []
    ensures var t := DrainFirst(s);
      && t.runnable == s.runnable && t.blocked == s.blocked && t.prcs == s.prcs
      && t.alivePrc == s.alivePrc && t.lockedPrc == s.lockedPrc && t.hwPrc == s.hwPrc && !t.control.Fire?
  {
  }

  lemma DrainMoves(s: State)
    requires s.control.Drain? && s.orderQ != []
    requires s.orderQ[0].val.WaitOn? ==> s.orderQ[0].val.evt < s.nextEvent
    ensures forall p: Pid :: Ordered(s, p) == Ordered(DrainFirst(s), p)
  {
    hide Gather, GatherMap;
    var o := s.orderQ[0];
    var t := DrainFirst(s);
    GatherRemove(s.orderQ, 0, OrderPid);
    assert RemoveAt(s.orderQ, 0) == t.orderQ;
    match o.val {
      case WaitUntil(tick, w) => GatherPush(s.heap, Tagged(o.id, Wakeup(Due(s.tick, tick), w)), TaskPid);
      case NotifyAt(tick, e) => GatherPush(s.heap, Tagged(o.id, Notify(Due(s.tick, tick), e)), TaskPid);
      case WaitOn(e, w) => AppendWaiter(s.waitOn, s.nextEvent, e, Tagged(o.id, w), WaiterPid);
      case Exit(_) =>
    }
  }

  /** One more waiter under event `e`. */
  lemma AppendWaiter(m: map<EventId, seq<Tagged<Pid>>>, n: nat, e: EventId, w: Tagged<Pid>, f: Tagged<Pid> -> multiset<nat>)
    requires e < n
    ensures var m' := m[e := Waiters(m, e) + [w]];
      forall p: nat :: GatherMap(m', n, f)[p] == GatherMap(m, n, f)[p] + f(w)[p]
  {
    hide GatherMap;
    var m' := m[e := Waiters(m, e) + [w]];
    GatherPush(Waiters(m, e), w, f);
    assert GatherAt(m', e, f) == GatherAt(m, e, f) + f(w);
    hide Gather;
    GatherMapUpdate(m, m', n, e, f);
    forall p: nat
      ensures GatherMap(m', n, f)[p] == GatherMap(m, n, f)[p] + f(w)[p]
    {
      assert (GatherMap(m', n, f) + GatherAt(m, e, f))[p] == (GatherMap(m, n, f) + GatherAt(m', e, f))[p];
    }
  }

  /** All waiters of event `e` leave. */
  lemma DropWaiters(m: map<EventId, seq<Tagged<Pid>>>, n: nat, e: EventId, f: Tagged<Pid> -> multiset<nat>)
    requires e in m ==> e < n
    ensures forall p: nat :: GatherMap(m, n, f)[p] == GatherMap(m - {e}, n, f)[p] + Gather(Waiters(m, e), f)[p]
  {
    hide GatherMap;
    var m' := m - {e};
    if e in m {
      hide Gather;
      GatherMapUpdate(m, m', n, e, f);
      forall p: nat
        ensures GatherMap(m, n, f)[p] == GatherMap(m', n, f)[p] + Gather(Waiters(m, e), f)[p]
      {
        assert (GatherMap(m', n, f) + GatherAt(m, e, f))[p] == (GatherMap(m, n, f) + GatherAt(m', e, f))[p];
      }
    } else {
      assert m' == m;
      assert Gather(Waiters(m, e), f) == multiset{};
    }
  }

  lemma {:induction false} WaiterPidsAreList(ws: seq<Tagged<Pid>>)
    ensures Gather(ws, WaiterPid) == multiset(Pids(ws))
  {
    if ws != [] {
      WaiterPidsAreList(ws[1..]);
      assert Pids(ws) == [ws[0].val] + Pids(ws[1..]);
    } else {
      assert Pids(ws) == [];
    }
  }

  lemma WakeupKeeps(s: State, i: nat)
    requires Accounted(s) && MayFire(s, i) && s.heap[i].val.Wakeup?
    ensures Accounted(DoFire(s, i))
  {
    hide Gather, GatherMap;
    GatherRemove(s.heap, i, TaskPid);
    var t := DoFire(s, i);
    var w := s.heap[i].val.w;
    assert Timed(s, w) == Timed(t, w) + 1;
    assert Spots(s, w) == Bit(w in s.prcs);
    forall q: Pid
      ensures Spots(t, q) == Bit(q in t.prcs)
    {
      assert Spots(s, q) == Bit(q in s.prcs);
      assert Timed(s, q) == Timed(t, q) + multiset{w}[q];
    }
  }

  /** Everybody waiting on the event becomes runnable; the credit grows by their number. */
  lemma NotifyKeeps(s: State, i: nat)
    requires Accounted(s) && MayFire(s, i) && s.heap[i].val.Notify?
    ensures Accounted(DoFire(s, i))
  {
    NotifyFrame(s, i);
    var t := DoFire(s, i);
    NotifyMoves(s, t, i);
    hide DoFire, Ordered, Pids, Waiters;
    RunnableGrows(s, t, Pids(Waiters(s.waitOn, s.heap[i].val.evt)));
  }

  lemma NotifyFrame(s: State, i: nat)
    requires MayFire(s, i) && s.heap[i].val.Notify?
    ensures var t, ps := DoFire(s, i), Pids(Waiters(s.waitOn, s.heap[i].val.evt));
      && t.runnable == s.runnable + Elements(ps) && t.control == Fire(s.control.credit + |ps|)
      && t.blocked == s.blocked && t.prcs == s.prcs && t.nextEvent == s.nextEvent
      && t.alivePrc == s.alivePrc && t.lockedPrc == s.lockedPrc && t.hwPrc == s.hwPrc
      && t.orderQ == s.orderQ && t.heap == RemoveAt(s.heap, i) && t.waitOn == s.waitOn - {s.heap[i].val.evt}
  {
  }

  lemma NotifyMoves(s: State, t: State, i: nat)
    requires EventsKnown(s) && i < |s.heap| && s.heap[i].val.Notify?
    requires t.orderQ == s.orderQ && t.heap == RemoveAt(s.heap, i) && t.nextEvent == s.nextEvent
    requires t.waitOn == s.waitOn - {s.heap[i].val.evt}
    ensures forall p: Pid :: Ordered(s, p) == Ordered(t, p) + multiset(Pids(Waiters(s.waitOn, s.heap[i].val.evt)))[p]
  {
    hide Gather, GatherMap;
    var e := s.heap[i].val.evt;
    GatherRemove(s.heap, i, TaskPid);
    DropWaiters(s.waitOn, s.nextEvent, e, WaiterPid);
    WaiterPidsAreList(Waiters(s.waitOn, e));
  }

  lemma RunnableGrows(s: State, t: State, ps: seq<Pid>)
    requires OnePlaceEach(s) && Counters(s) && s.control.Fire?
    requires t.runnable == s.runnable + Elements(ps) && t.control == Fire(s.control.credit + |ps|)
    requires t.blocked == s.blocked && t.prcs == s.prcs
    requires t.alivePrc == s.alivePrc && t.lockedPrc == s.lockedPrc && t.hwPrc == s.hwPrc
    requires forall p: Pid :: Ordered(s, p) == Ordered(t, p) + multiset(ps)[p]
    ensures OnePlaceEach(t) && Counters(t)
  {
    hide Ordered;
    var ms: multiset<nat>, mp: multiset<nat>, mw: multiset<nat> := multiset(s.runnable), multiset(ps), multiset(s.prcs);
    forall q: Pid
      ensures (ms + mp)[q] <= mw[q]
    {
      assert Spots(s, q) == Bit(q in s.prcs);
    }
    JoinSet(s.runnable, ps, s.prcs);
    var mt: multiset<nat> := multiset(t.runnable);
    forall q: Pid
      ensures Spots(t, q) == Bit(q in t.prcs)
    {
      assert Spots(s, q) == Bit(q in s.prcs);
      assert mt[q] == ms[q] + mp[q];
    }
  }

  /** `t` differs from `s` in nothing that the accounts look at. */
  ghost predicate SameBooks(s: State, t: State) {
    && t.runnable == s.runnable && t.blocked == s.blocked && t.prcs == s.prcs
    && t.orderQ == s.orderQ && t.heap == s.heap && t.waitOn == s.waitOn && t.nextEvent == s.nextEvent
    && t.lockedPrc == s.lockedPrc && t.hwPrc == s.hwPrc
    && t.alivePrc + Uncredited(t) == s.alivePrc + Uncredited(s)
  }

  lemma SameBooksKeep(s: State, t: State)
    requires Accounted(s) && SameBooks(s, t)
    ensures Accounted(t)
  {
    hide Gather, GatherMap;
    forall p: Pid
      ensures Spots(t, p) == Bit(p in t.prcs)
    {
      assert Spots(s, p) == Bit(p in s.prcs);
    }
  }

  lemma ControlStepsKeep(s: State, step: Step)
    requires Accounted(s) && ControlEnabled(s, step)
    ensures Accounted(ControlApply(s, step))
  {
    assert SameBooks(s, ControlApply(s, step));
    SameBooksKeep(s, ControlApply(s, step));
  }

  lemma StepKeepsAccounts(s: State, step: Step)
    requires Accounted(s) && Enabled(s, step)
    ensures Accounted(Apply(s, step))
  {
    hide Gather, GatherMap;
    match step {
      case NewEvent => NewEventKeeps(s);
      case Register(p) => RegisterKeeps(s, p);
      case Unregister(p) => UnregisterKeeps(s, p);
      case Push(_, o) => PushKeeps(s, o);
      case Await(p, e) =>
        if IsTriggered(s, e, p) {
          SameBooksKeep(s, AwaitEvent(s, p, e));
        } else {
          PushKeeps(s, WaitOn(e, p));
        }
      case Lock(p) => LockKeeps(s, p);
      case Unlock(p) => UnlockKeeps(s, p);
      case DrainOne => DrainKeeps(s);
      case FireOne(i) => if s.heap[i].val.Wakeup? { WakeupKeeps(s, i); } else { NotifyKeeps(s, i); }
      case Poll(p) => SameBooksKeep(s, PollEvent(s, p));
      case HandOver => SameBooksKeep(s, Apply(s, step));
      case Jump => SameBooksKeep(s, JumpTime(s));
      case _ => ControlStepsKeep(s, step);
    }
  }

  lemma InitAccounted(s: State)
    requires Init(s)
    ensures Accounted(s)
  {
  }

  /** In every run from a reset simulation, whatever the interleaving. */
  lemma {:induction false} AlwaysAccounted(states: seq<State>, steps: seq<Step>, k: nat)
    requires Path(states, steps) && Init(states[0]) && k < |states|
    ensures Accounted(states[k])
  {
    hide Enabled, Apply, Accounted;
    if k == 0 {
      InitAccounted(states[0]);
    } else {
      AlwaysAccounted(states, steps, k - 1);
      assert Next(states[k - 1], steps[k - 1], states[k - 1 + 1]);
      StepKeepsAccounts(states[k - 1], steps[k - 1]);
    }
  }

  /** What the scheduler reads off alive_prc == 0 while it waits: no process may run. */
  lemma CycleEndMeansQuiet(states: seq<State>, steps: seq<Step>, k: nat)
    requires Path(states, steps) && Init(states[0]) && k < |steps|
    ensures states[k].control.Wait1? || states[k].control.Wait2? ==>
      (states[k].alivePrc == 0 <==> states[k].runnable == {})
    ensures steps[k].CycleEnded? ==> states[k].runnable == {}
  {
    AlwaysAccounted(states, steps, k);
    assert Next(states[k], steps[k], states[k + 1]);
  }
}
