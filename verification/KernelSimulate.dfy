/** `simulate` as a whole, for deterministic processes: its duration is an absolute tick, so a
    simulation can be cut in two. */
module KernelSimulate {
  import opened Wrappers
  import opened Gathering
  import opened Kernel

  /** What lies outside the scheduler. `run` is what the processes do while it awaits: the rest of a
      delta-cycle at either wait, one turn while it catches up with hand-overs. `stop` is the request of
      the user to exit early. Both are functions of the whole state with its history, so any
      deterministic processes fit. */
  datatype World = World(run: State -> State, stop: State -> bool)

  /** Processes leave the scheduler's own state alone. */
  predicate Untouched(s: State, t: State) {
    && t.control == s.control && t.tick == s.tick && t.heap == s.heap && t.waitOn == s.waitOn
    && t.duration == s.duration && t.log == s.log
  }

  /** The scheduler awaits the end of a delta-cycle, or an unlocked process that it counts on. */
  predicate Awaits(s: State) {
    || ((s.control.Wait1? || s.control.Wait2?) && s.alivePrc != 0)
    || (s.control.Catch? && s.unlockedPrc < s.control.sample)
  }

  predicate Settles(s: State, t: State)
    requires Awaits(s)
  {
    Untouched(s, t) && if s.control.Catch? then s.unlockedPrc < t.unlockedPrc else t.alivePrc == 0
  }

  /** Awaiting ends: each delta-cycle comes to its end, and each turn resumes some sampled process. */
  ghost predicate Settling(w: World) {
    forall s: State :: Awaits(s) ==> Settles(s, w.run(s))
  }

  /** Nobody outside the scheduler reads the requested duration. */
  ghost predicate Unhurried(w: World) {
    && (forall s: State, d: Tick :: w.run(s.(duration := d)) == w.run(s).(duration := d))
    && (forall s: State, d: Tick :: w.stop(s.(duration := d)) == w.stop(s))
  }

  // ------------------------------------------------------------ one delta-cycle

  /** WaitHwThread: ready at once when no process is alive. */
  function AwaitEnd(s: State, w: World): (t: State)
    requires (s.control.Wait1? || s.control.Wait2?) && Settling(w)
    ensures Untouched(s, t) && t.alivePrc == 0
  {
    if s.alivePrc == 0 then s
    else
      assert Awaits(s);
      w.run(s)
  }

  /** Yield until the sampled hand-overs have been picked up. */
  function CatchUp(s: State, w: World): (t: State)
    requires s.control.Catch? && Settling(w)
    ensures Untouched(s, t) && t.control.sample <= t.unlockedPrc
    decreases s.control.sample - s.unlockedPrc
  {
    if s.control.sample <= s.unlockedPrc then s
    else
      assert Awaits(s);
      CatchUp(w.run(s), w)
  }

  /** Sample unlock_evt, and wait for the hand-overs it counts. */
  function Resolve(a: State, w: World): (t: State)
    requires a.control.Wait1? && a.alivePrc == 0 && Settling(w)
    ensures Untouched(a.(control := Clear), t) && t.alivePrc == 0
  {
    if a.unlockEvt == 0 then a.(control := Clear)
    else
      var b := CatchUp(a.(control := Catch(a.unlockEvt)), w);
      AwaitEnd(b.(control := Wait2), w).(control := Clear)
  }

  /** Wait for the end of the cycle and for the processes unlocked in it. */
  function Close(s: State, w: World): (t: State)
    requires s.control.Wait1? && Settling(w)
    ensures Untouched(s.(control := Clear), t) && t.alivePrc == 0
  {
    Resolve(AwaitEnd(s, w), w)
  }

  function ClearBoth(s: State): State { s.(unlockEvt := 0, unlockedPrc := 0, control := Drain) }

  /** The state in which the order queue is read. */
  function Drained(s: State, w: World): (t: State)
    requires s.control.Wait1? && Settling(w)
    ensures Untouched(s.(control := Drain), t) && t.alivePrc == 0 && t.unlockEvt == 0 && t.unlockedPrc == 0
  {
    ClearBoth(Close(s, w))
  }

  /** Every task is strictly in the future: true at each start of a delta-cycle. */
  predicate Ahead(s: State) {
    forall i :: 0 <= i < |s.heap| ==> s.tick < s.heap[i].val.t
  }

  /** The queue is read until it is empty or an Exit order ends the simulation. */
  function DrainAll(s: State): (t: State)
    requires s.control.Drain?
    ensures t.control.Advance? || t.control.Idle?
    ensures t.tick == s.tick && t.duration == s.duration && t.alivePrc == s.alivePrc
    ensures t.unlockEvt == s.unlockEvt && t.unlockedPrc == s.unlockedPrc
    ensures t.control.Advance? ==> t.orderQ == [] && t.log == s.log
    ensures Ahead(s) ==> Ahead(t)
    ensures t.control.Idle? ==> |s.log| < |t.log|
    decreases |s.orderQ|
  {
    if s.orderQ == [] then s.(control := Advance)
    else if s.orderQ[0].val.Exit? then DrainFirst(s)
    else DrainAll(DrainFirst(s))
  }

  predicate HoldsExit(q: seq<Tagged<Order>>) { exists i :: 0 <= i < |q| && q[i].val.Exit? }

  /** Reading the queue ends the simulation exactly when it holds an Exit order. */
  lemma {:induction false} DrainStopsIff(s: State)
    requires s.control.Drain?
    ensures DrainAll(s).control.Idle? <==> HoldsExit(s.orderQ)
    decreases |s.orderQ|
  {
    if s.orderQ != [] && !s.orderQ[0].val.Exit? {
      var t := DrainFirst(s);
      DrainStopsIff(t);
      assert t.orderQ == s.orderQ[1..];
      assert forall i :: 1 <= i < |s.orderQ| ==> s.orderQ[i] == t.orderQ[i - 1];
      assert forall i :: 0 <= i < |t.orderQ| ==> t.orderQ[i] == s.orderQ[i + 1];
    }
  }

  function CreditAll(s: State): State
    requires s.control.Fire?
  {
    s.(alivePrc := s.alivePrc + s.control.credit, control := Wait1)
  }

  /** The tasks of this tick are popped, smallest first, then the wake-ups are credited. */
  function FireAll(s: State): (t: State)
    requires s.control.Fire?
    ensures t.control.Wait1? && t.tick == s.tick && t.duration == s.duration && Ahead(t)
    ensures t.unlockEvt == s.unlockEvt && t.unlockedPrc == s.unlockedPrc && |s.log| <= |t.log|
    decreases |s.heap|
  {
    if s.heap == [] || s.tick < s.heap[MinIndex(s.heap)].val.t then CreditAll(s)
    else FireAll(DoFire(s, MinIndex(s.heap)))
  }

  lemma FireAllOn(s: State)
    requires s.control.Fire? && s.heap != [] && s.heap[MinIndex(s.heap)].val.t <= s.tick
    ensures MayFire(s, MinIndex(s.heap)) && DoFire(s, MinIndex(s.heap)).control.Fire?
    ensures FireAll(s) == FireAll(DoFire(s, MinIndex(s.heap)))
  {
    hide MinIndex, RemoveAt;
  }

  lemma FireAllEnds(s: State)
    requires s.control.Fire? && (s.heap == [] || s.tick < s.heap[MinIndex(s.heap)].val.t)
    ensures FireAll(s) == CreditAll(s)
  {
  }

  /** The state in which a delta-cycle decides whether to jump or stop. */
  function Decision(s: State, w: World): (t: State)
    requires s.control.Wait1? && Ahead(s) && Settling(w)
    ensures t.control.Advance? || t.control.Idle?
    ensures t.tick == s.tick && t.duration == s.duration && t.alivePrc == 0 && Ahead(t)
    ensures t.unlockEvt == 0 && t.unlockedPrc == 0
    ensures t.control.Advance? ==> t.orderQ == [] && t.log == s.log
    ensures t.control.Idle? ==> |s.log| < |t.log|
  {
    DrainAll(Drained(s, w))
  }

  /** The clock goes to the next task, or `simulate` returns: for lack of tasks, at the end of the
      duration, or at a request to stop. */
  function Advanced(a: State, stop: bool): State
    requires a.control.Advance?
  {
    if stop && TaskWithin(a) then a.(control := Idle(Returned(a.tick, EndOfTick))) else JumpTime(a)
  }

  lemma WithinIsSmallest(a: State)
    ensures TaskWithin(a) <==> a.heap != [] && a.heap[MinIndex(a.heap)].val.t <= a.duration
  {
    hide MinIndex;
    if a.heap != [] {
      assert Minimal(a.heap, MinIndex(a.heap));
    }
  }

  /** The tick moves strictly forward and stays within the duration. */
  lemma JumpMovesForward(a: State, stop: bool)
    requires a.control.Advance? && Ahead(a)
    ensures var j := Advanced(a, stop);
      && (j.control.Idle? || j.control.Fire?) && j.duration == a.duration && j.log == a.log
      && (j.control.Idle? ==> j == a.(control := j.control))
      && (j.control.Fire? ==> a.tick < j.tick <= a.duration && !stop && j.unlockEvt == a.unlockEvt && j.unlockedPrc == a.unlockedPrc)
    ensures Advanced(a, stop).control.Fire? <==> !stop && TaskWithin(a)
  {
    WithinIsSmallest(a);
    hide MinIndex, TaskWithin;
  }

  // ------------------------------------------------------------ the simulation

  datatype Outcome = Outcome(state: State, byOrder: bool)

  /** `simulate` from the start of a delta-cycle to its return. */
  function Loop(s: State, w: World): (r: Outcome)
    requires s.control.Wait1? && Ahead(s) && Settling(w)
    ensures r.state.control.Idle? && Ahead(r.state) && s.tick <= r.state.tick
    ensures r.state.tick <= s.duration || r.state.tick == s.tick
    ensures |s.log| <= |r.state.log| && (r.byOrder ==> |s.log| < |r.state.log|)
    ensures r.state.alivePrc == 0 && r.state.unlockEvt == 0 && r.state.unlockedPrc == 0
    decreases s.duration - s.tick
  {
    var a := Decision(s, w);
    if a.control.Idle? then Outcome(a, true)
    else
      JumpMovesForward(a, w.stop(a));
      var j := Advanced(a, w.stop(a));
      if j.control.Idle? then Outcome(j, false) else Loop(FireAll(j), w)
  }

  function Simulate(s: State, d: Tick, w: World): (t: State)
    requires s.control.Idle? && Ahead(s) && Settling(w)
    ensures t.control.Idle? && Ahead(t)
  {
    Loop(s.(duration := d, control := Wait1), w).state
  }

  /** The state at the start of the n-th delta-cycle, if there are so many. */
  function CycleAt(s: State, w: World, n: nat): (r: Option<State>)
    requires s.control.Wait1? && Ahead(s) && Settling(w)
    ensures r.Some? ==> r.value.control.Wait1? && Ahead(r.value)
    decreases n
  {
    if n == 0 then Some(s)
    else
      var a := Decision(s, w);
      if a.control.Idle? then None
      else
        JumpMovesForward(a, w.stop(a));
        var j := Advanced(a, w.stop(a));
        if j.control.Idle? then None else CycleAt(FireAll(j), w, n - 1)
  }

  /** In the n-th delta-cycle the scheduler reads an Exit order. */
  ghost predicate ExitRead(s: State, w: World, n: nat)
    requires s.control.Wait1? && Ahead(s) && Settling(w)
  {
    var c := CycleAt(s, w, n);
    c.Some? && HoldsExit(Drained(c.value, w).orderQ)
  }

  ghost predicate SomeExitRead(s: State, d: Tick, w: World)
    requires s.control.Idle? && Ahead(s) && Settling(w)
  {
    exists n: nat :: ExitRead(s.(duration := d, control := Wait1), w, n)
  }

  lemma NextCycle(s: State, w: World, n: nat)
    requires s.control.Wait1? && Ahead(s) && Settling(w) && Decision(s, w).control.Advance?
    requires Advanced(Decision(s, w), w.stop(Decision(s, w))).control.Fire?
    ensures CycleAt(s, w, n + 1) == CycleAt(FireAll(Advanced(Decision(s, w), w.stop(Decision(s, w)))), w, n)
  {
  }

  lemma FirstExit(s: State, w: World)
    requires s.control.Wait1? && Ahead(s) && Settling(w)
    ensures ExitRead(s, w, 0) <==> Decision(s, w).control.Idle?
  {
    DrainStopsIff(Drained(s, w));
    hide DrainAll, Drained;
    assert CycleAt(s, w, 0) == Some(s);
  }

  lemma NoCycleAfter(s: State, w: World, n: nat)
    requires s.control.Wait1? && Ahead(s) && Settling(w) && n > 0 && Decision(s, w).control.Advance?
    requires Advanced(Decision(s, w), w.stop(Decision(s, w))).control.Idle?
    ensures !ExitRead(s, w, n)
  {
    hide Decision, Advanced;
  }

  /** `simulate` ends on an order exactly when in some cycle the queue holds an Exit. */
  lemma {:induction false} ByOrderIff(s: State, w: World)
    requires s.control.Wait1? && Ahead(s) && Settling(w)
    ensures Loop(s, w).byOrder <==> exists n: nat :: ExitRead(s, w, n)
    decreases s.duration - s.tick
  {
    hide FireAll, ExitRead, Decision;
    var a := Decision(s, w);
    FirstExit(s, w);
    if a.control.Idle? {
      assert ExitRead(s, w, 0);
    } else {
      JumpMovesForward(a, w.stop(a));
      var j := Advanced(a, w.stop(a));
      hide Advanced;
      if j.control.Idle? {
        forall n: nat
          ensures !ExitRead(s, w, n)
        {
          if n > 0 {
            NoCycleAfter(s, w, n);
          }
        }
      } else {
        LaterExit(s, w, j);
        ByOrderIff(FireAll(j), w);
        assert Loop(s, w) == Loop(FireAll(j), w);
      }
    }
  }

  lemma LaterExit(s: State, w: World, j: State)
    requires s.control.Wait1? && Ahead(s) && Settling(w) && !ExitRead(s, w, 0) && Decision(s, w).control.Advance?
    requires j == Advanced(Decision(s, w), w.stop(Decision(s, w))) && j.control.Fire?
    ensures (exists n: nat :: ExitRead(s, w, n)) <==> exists n: nat :: ExitRead(FireAll(j), w, n)
  {
    hide ExitRead, FireAll, CycleAt, Decision, Advanced, Ahead, Settling;
    if n: nat :| ExitRead(s, w, n) {
      LaterExitAt(s, w, j, n - 1);
    }
    if n: nat :| ExitRead(FireAll(j), w, n) {
      LaterExitAt(s, w, j, n);
    }
  }

  lemma LaterExitAt(s: State, w: World, j: State, n: nat)
    requires s.control.Wait1? && Ahead(s) && Settling(w) && Decision(s, w).control.Advance?
    requires j == Advanced(Decision(s, w), w.stop(Decision(s, w))) && j.control.Fire?
    ensures ExitRead(s, w, n + 1) <==> ExitRead(FireAll(j), w, n)
  {
    hide FireAll, CycleAt, Decision, Advanced, Drained, HoldsExit;
    NextCycle(s, w, n);
  }

  // ------------------------------------------------------------ what simulate returns

  /** What a return for lack of work says: no task is left, or there is one but the smallest tick lies beyond
      the duration, or the user asked to stop. */
  predicate ReturnsForLack(r: State, stop: bool) {
    && r.control.Idle? && r.control.last.Returned? && r.control.last.tick == r.tick
    && (r.control.last.kind == NoHwPrc <==> r.heap == [])
    && (r.control.last.kind == EndOfTick <==> r.heap != [] && (stop || forall i :: 0 <= i < |r.heap| ==> r.heap[i].val.t > r.duration))
    && r.control.last.kind != PrcExit
  }

  /** Queue entry `i` is the first Exit of `q`, and it asks for kind `k`. */
  predicate FirstExitIs(q: seq<Tagged<Order>>, i: nat, k: ExitKind) {
    i < |q| && q[i].val == Exit(k) && forall j :: 0 <= j < i ==> !q[j].val.Exit?
  }

  /** Reading queue `q` at tick `t` ends with its first Exit: that kind, and the rest stays queued. */
  ghost predicate ReturnsByOrder(r: State, q: seq<Tagged<Order>>, t: Tick) {
    && r.control.Idle? && r.control.last.Returned? && r.control.last.tick == r.tick == t
    && exists i: nat :: FirstExitIs(q, i, r.control.last.kind) && r.orderQ == q[i + 1..]
  }

  lemma {:induction false} DrainReturns(s: State)
    requires s.control.Drain? && HoldsExit(s.orderQ)
    ensures ReturnsByOrder(DrainAll(s), s.orderQ, s.tick)
    decreases |s.orderQ|
  {
    var t := DrainFirst(s);
    if s.orderQ[0].val.Exit? {
      assert FirstExitIs(s.orderQ, 0, t.control.last.kind);
    } else {
      assert t.orderQ == s.orderQ[1..] && t.tick == s.tick;
      var h :| 0 <= h < |s.orderQ| && s.orderQ[h].val.Exit?;
      assert t.orderQ[h - 1].val.Exit?;
      DrainReturns(t);
      OneMoreInFront(DrainAll(t), s.orderQ, s.tick);
    }
  }

  lemma OneMoreInFront(r: State, q: seq<Tagged<Order>>, t: Tick)
    requires q != [] && !q[0].val.Exit? && ReturnsByOrder(r, q[1..], t)
    ensures ReturnsByOrder(r, q, t)
  {
    var i: nat :| FirstExitIs(q[1..], i, r.control.last.kind) && r.orderQ == q[1..][i + 1..];
    assert forall j :: 1 <= j < |q| ==> q[j] == q[1..][j - 1];
    assert FirstExitIs(q, i + 1, r.control.last.kind) && r.orderQ == q[i + 2..];
  }

  lemma AdvancedReturns(a: State, stop: bool)
    requires a.control.Advance? && Advanced(a, stop).control.Idle?
    ensures ReturnsForLack(Advanced(a, stop), stop) && Advanced(a, stop) == a.(control := Advanced(a, stop).control)
  {
    WithinIsSmallest(a);
    hide MinIndex;
  }

  /** The reading of the queue that ended the simulation in cycle `n`. */
  ghost predicate ReturnsInCycle(s: State, w: World, n: nat, r: State)
    requires s.control.Wait1? && Ahead(s) && Settling(w)
  {
    ExitRead(s, w, n) && ReturnsByOrder(r, Drained(CycleAt(s, w, n).value, w).orderQ, CycleAt(s, w, n).value.tick)
  }

  lemma {:induction false} LoopReturns(s: State, w: World)
    requires s.control.Wait1? && Ahead(s) && Settling(w)
    ensures var r := Loop(s, w);
      && r.state.duration == s.duration
      && (!r.byOrder ==> ReturnsForLack(r.state, w.stop(r.state.(control := Advance))))
      && (r.byOrder ==> exists n: nat :: ReturnsInCycle(s, w, n, r.state))
    decreases s.duration - s.tick
  {
    hide FireAll, ReturnsByOrder, ReturnsForLack, DrainAll, HoldsExit;
    var a := Decision(s, w);
    DrainStopsIff(Drained(s, w));
    if a.control.Idle? {
      DrainReturns(Drained(s, w));
      assert CycleAt(s, w, 0) == Some(s);
      assert ReturnsInCycle(s, w, 0, a);
    } else {
      JumpMovesForward(a, w.stop(a));
      var j := Advanced(a, w.stop(a));
      if j.control.Idle? {
        AdvancedReturns(a, w.stop(a));
        assert j.(control := Advance) == a;
      } else {
        hide Advanced, Decision;
        var f := FireAll(j);
        LoopReturns(f, w);
        var r := Loop(f, w);
        if r.byOrder {
          var n: nat :| ReturnsInCycle(f, w, n, r.state);
          NextCycle(s, w, n);
          assert ReturnsInCycle(s, w, n + 1, r.state);
        }
      }
    }
  }

  /** simulate returns the tick at which it stops. When no cycle reads an Exit order, it returns NoHwPrc
      exactly when no task is left, and EndOfTick exactly when one is, but beyond the duration or at a
      request to stop; otherwise it returns what the first Exit read asks for, and leaves the orders behind
      that one queued. */
  lemma SimulateReturns(s: State, d: Tick, w: World)
    requires s.control.Idle? && Ahead(s) && Settling(w)
    ensures var r := Simulate(s, d, w); r.duration == d && r.control.last.Returned? && r.control.last.tick == r.tick
    ensures var r := Simulate(s, d, w); !SomeExitRead(s, d, w) ==> ReturnsForLack(r, w.stop(r.(control := Advance)))
    ensures var r := Simulate(s, d, w);
      SomeExitRead(s, d, w) ==> exists n: nat :: ReturnsInCycle(s.(duration := d, control := Wait1), w, n, r)
  {
    hide Loop, ExitRead, CycleAt, Drained;
    var v := s.(duration := d, control := Wait1);
    ByOrderIff(v, w);
    LoopReturns(v, w);
  }

  // ------------------------------------------------------------ the duration is only a bound

  lemma {:induction false} CatchUpDuration(s: State, d: Tick, w: World)
    requires s.control.Catch? && Settling(w) && Unhurried(w)
    ensures CatchUp(s.(duration := d), w) == CatchUp(s, w).(duration := d)
    decreases s.control.sample - s.unlockedPrc
  {
    if s.unlockedPrc < s.control.sample {
      assert Awaits(s);
      assert w.run(s.(duration := d)) == w.run(s).(duration := d);
      CatchUpDuration(w.run(s), d, w);
    }
  }

  lemma AwaitDuration(s: State, d: Tick, w: World)
    requires (s.control.Wait1? || s.control.Wait2?) && Settling(w) && Unhurried(w)
    ensures AwaitEnd(s.(duration := d), w) == AwaitEnd(s, w).(duration := d)
  {
    assert w.run(s.(duration := d)) == w.run(s).(duration := d);
  }

  lemma CloseDuration(s: State, d: Tick, w: World)
    requires s.control.Wait1? && Settling(w) && Unhurried(w)
    ensures Close(s.(duration := d), w) == Close(s, w).(duration := d)
  {
    hide AwaitEnd, CatchUp, Unhurried, Settling;
    AwaitDuration(s, d, w);
    var a := AwaitEnd(s, w);
    if a.unlockEvt > 0 {
      var c := a.(control := Catch(a.unlockEvt));
      CatchUpDuration(c, d, w);
      var b := CatchUp(c, w);
      assert a.(duration := d).(control := Catch(a.unlockEvt)) == c.(duration := d);
      assert b.(duration := d).(control := Wait2) == b.(control := Wait2).(duration := d);
      AwaitDuration(b.(control := Wait2), d, w);
    }
  }

  lemma {:induction false} DrainAllDuration(s: State, d: Tick)
    requires s.control.Drain?
    ensures DrainAll(s.(duration := d)) == DrainAll(s).(duration := d)
    decreases |s.orderQ|
  {
    if s.orderQ != [] {
      assert DrainFirst(s.(duration := d)) == DrainFirst(s).(duration := d);
      if !s.orderQ[0].val.Exit? {
        DrainAllDuration(DrainFirst(s), d);
      }
    }
  }

  lemma {:induction false} FireAllDuration(s: State, d: Tick)
    requires s.control.Fire?
    ensures FireAll(s.(duration := d)) == FireAll(s).(duration := d)
    decreases |s.heap|
  {
    if !(s.heap == [] || s.tick < s.heap[MinIndex(s.heap)].val.t) {
      var i := MinIndex(s.heap);
      assert DoFire(s.(duration := d), i) == DoFire(s, i).(duration := d);
      FireAllDuration(DoFire(s, i), d);
    }
  }

  lemma AdvancedDuration(a: State, d: Tick, stop: bool)
    requires a.control.Advance? && Advanced(a, stop).control.Fire? && a.duration <= d
    ensures Advanced(a.(duration := d), stop) == Advanced(a, stop).(duration := d)
  {
    WithinIsSmallest(a);
    WithinIsSmallest(a.(duration := d));
    hide MinIndex, TaskWithin;
  }

  lemma DecisionDuration(s: State, d: Tick, w: World)
    requires s.control.Wait1? && Ahead(s) && Settling(w) && Unhurried(w)
    ensures Decision(s.(duration := d), w) == Decision(s, w).(duration := d)
  {
    CloseDuration(s, d, w);
    hide Close, DrainAll, Settling, Unhurried;
    assert ClearBoth(Close(s, w).(duration := d)) == ClearBoth(Close(s, w)).(duration := d);
    DrainAllDuration(ClearBoth(Close(s, w)), d);
  }

  /** From a decision point, a second `simulate` decides again on the same state. */
  lemma ResumeAtDecision(a: State, d: Tick, last: Last, w: World)
    requires a.control.Advance? && Ahead(a) && Settling(w)
    requires a.alivePrc == 0 && a.orderQ == [] && a.unlockEvt == 0 && a.unlockedPrc == 0
    ensures Decision(a.(control := Idle(last)).(duration := d, control := Wait1), w) == a.(duration := d)
  {
    var v := a.(duration := d, control := Wait1);
    assert Close(v, w) == v.(control := Clear);
    assert ClearBoth(v.(control := Clear)) == v.(control := Drain);
  }

  lemma {:induction false} SplitLoop(s: State, d1: Tick, d2: Tick, w: World)
    requires s.control.Wait1? && Ahead(s) && Settling(w) && Unhurried(w) && s.duration == d1 <= d2
    ensures var r, r2 := Loop(s, w), Loop(s.(duration := d2), w);
      if r.byOrder then r2.state == r.state.(duration := d2) else r2.state == Simulate(r.state, d2, w)
    decreases s.duration - s.tick
  {
    hide DrainAll, FireAll, ClearBoth, Decision, MinIndex, TaskWithin, Settling;
    var a := Decision(s, w);
    DecisionDuration(s, d2, w);
    if a.control.Advance? {
      JumpMovesForward(a, w.stop(a));
      var j := Advanced(a, w.stop(a));
      assert w.stop(a.(duration := d2)) == w.stop(a);
      if j.control.Idle? {
        hide Advanced;
        ResumeAtDecision(a, d2, j.control.last, w);
        assert Simulate(j, d2, w) == Loop(s.(duration := d2), w).state by { SameDecision(j, s.(duration := d2), d2, w); }
      } else {
        AdvancedDuration(a, d2, w.stop(a));
        hide Advanced;
        FireAllDuration(j, d2);
        SplitLoop(FireAll(j), d1, d2, w);
      }
    }
  }

  /** What follows depends on the decision only. */
  lemma SameDecision(r: State, s: State, d: Tick, w: World)
    requires s.control.Wait1? && Ahead(s) && Settling(w) && r.control.Idle? && Ahead(r)
    requires Decision(r.(duration := d, control := Wait1), w) == Decision(s, w)
    ensures Simulate(r, d, w) == Loop(s, w).state
  {
    hide Decision, Advanced, FireAll, Settling;
  }

  /** The Exit order was the last one queued, and asked for just what `simulate` would return anyway. */
  predicate ReturnsAnyway(r: State, d: Tick, w: World) {
    && r.orderQ == []
    && var a := r.(duration := d, control := Advance); Advanced(a, w.stop(a)).control == r.control
  }

  lemma ResumeAfterExit(r: State, d: Tick, w: World)
    requires r.control.Idle? && Ahead(r) && Settling(w) && r.alivePrc == 0 && r.unlockEvt == 0 && r.unlockedPrc == 0
    ensures Simulate(r, d, w) == r.(duration := d) <==> ReturnsAnyway(r, d, w)
  {
    hide Settling, TaskWithin, MinIndex, FireAll;
    var v := r.(duration := d, control := Wait1);
    assert Drained(v, w) == v.(control := Drain);
    var b := Decision(v, w);
    if b.control.Advance? {
      JumpMovesForward(b, w.stop(b));
      if r.orderQ == [] {
        assert b == r.(duration := d, control := Advance);
      }
      hide DrainAll, Advanced, Decision;
    }
  }

  /** simulate(d1) and then simulate(d2) is simulate(d2), in state and history, exactly when no cycle of
      the first part read an Exit order, or that order changed nothing. */
  lemma SplitSimulation(s: State, d1: Tick, d2: Tick, w: World)
    requires s.control.Idle? && Ahead(s) && Settling(w) && Unhurried(w) && d1 <= d2
    ensures Simulate(Simulate(s, d1, w), d2, w) == Simulate(s, d2, w) <==>
      !SomeExitRead(s, d1, w) || ReturnsAnyway(Simulate(s, d1, w), d2, w)
  {
    hide Settling, Unhurried, ReturnsAnyway, Ahead, Loop, ExitRead;
    var v := s.(duration := d1, control := Wait1);
    assert Ahead(v) by { SameTasks(s, v); }
    SplitLoop(v, d1, d2, w);
    ByOrderIff(v, w);
    assert v.(duration := d2) == s.(duration := d2, control := Wait1);
    var r := Simulate(s, d1, w);
    if Loop(v, w).byOrder {
      ResumeAfterExit(r, d2, w);
    }
  }

  lemma SameTasks(s: State, t: State)
    requires Ahead(s) && t.tick == s.tick && t.heap == s.heap
    ensures Ahead(t)
  {
  }
}
