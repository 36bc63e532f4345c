/** What queue, heap, waiter lists and log have to do with the tick at which the scheduler reads an
    order from the queue: in every run. KernelTiming says which tick that is. */
module KernelReads {
  import opened Gathering
  import opened Kernel

  type Reads = map<nat, Tick>

  /** The ticks at which orders were read from the queue in the first `k` steps. */
  ghost function ReadTicks(states: seq<State>, steps: seq<Step>, k: nat): Reads
    requires k <= |steps| < |states|
  {
    if k == 0 then map[]
    else
      var before := ReadTicks(states, steps, k - 1);
      ReadBy(before, states[k - 1], steps[k - 1])
  }

  function ReadBy(r: Reads, s: State, step: Step): Reads {
    if step.DrainOne? && s.orderQ != [] then r[s.orderQ[0].id := s.tick] else r
  }

  /** The queue holds the last orders issued, in order; the ones read are before them. */
  ghost predicate QueueOk(s: State, r: Reads) {
    && |s.orderQ| <= |s.issued|
    && (forall i :: 0 <= i < |s.orderQ| ==>
          s.orderQ[i].id == |s.issued| - |s.orderQ| + i && s.issued[s.orderQ[i].id].order == s.orderQ[i].val)
    && (forall n :: n in r ==> n < |s.issued| - |s.orderQ| && s.issued[n].at <= r[n] <= s.tick)
    && (forall n :: 0 <= n < |s.issued| ==> s.issued[n].at <= s.tick)
  }

  predicate Made(o: Order, read: Tick, t: Task) {
    match t
    case Wakeup(k, w) => o.WaitUntil? && o.w == w && k == Due(read, o.t)
    case Notify(k, e) => o.NotifyAt? && o.evt == e && k == Due(read, o.t)
  }

  ghost predicate HeapOk(s: State, r: Reads) {
    forall i :: 0 <= i < |s.heap| ==>
      && s.heap[i].id in r && s.heap[i].id < |s.issued| && Made(s.issued[s.heap[i].id].order, r[s.heap[i].id], s.heap[i].val)
      && (if s.control.Fire? then s.tick <= s.heap[i].val.t else s.tick < s.heap[i].val.t)
  }

  ghost predicate WaiterOk(s: State, r: Reads, e: EventId, w: Tagged<Pid>) {
    && w.id in r && w.id < |s.issued| && s.issued[w.id].order == WaitOn(e, w.val)
    && (s.control.Fire? ==> r[w.id] < s.tick)
  }

  ghost predicate WaitersOk(s: State, r: Reads) {
    forall e, j :: e in s.waitOn && 0 <= j < |s.waitOn[e]| ==> WaiterOk(s, r, e, s.waitOn[e][j])
  }

  /** Wait `w` is for the event of notification `src` and was read before `tick`. */
  ghost predicate ReadBefore(issued: seq<Issued>, r: Reads, src: nat, tick: Tick, w: nat) {
    && src < |issued| && w < |issued| && issued[src].order.NotifyAt? && issued[w].order.WaitOn?
    && issued[w].order.evt == issued[src].order.evt && w in r && r[w] < tick
  }

  ghost predicate FiringOk(issued: seq<Issued>, r: Reads, f: Firing) {
    && f.src in r && f.src < |issued|
    && (issued[f.src].order.WaitUntil? || issued[f.src].order.NotifyAt? ==> f.tick == Due(r[f.src], issued[f.src].order.t))
    && forall j :: 0 <= j < |f.served| ==> ReadBefore(issued, r, f.src, f.tick, f.served[j])
  }

  ghost predicate LogOk(s: State, r: Reads) {
    forall k :: 0 <= k < |s.log| ==> FiringOk(s.issued, r, s.log[k]) && s.log[k].tick <= s.tick
  }

  predicate Served(log: seq<Firing>, w: nat, k: int) {
    exists j :: 0 <= j <= k < |log| && w in log[j].served
  }

  predicate Listed(s: State, w: nat, e: EventId) {
    e in s.waitOn && exists j :: 0 <= j < |s.waitOn[e]| && s.waitOn[e][j].id == w
  }

  /** A wait that was read is in the list of its event, or released. */
  ghost predicate ListedOrServed(s: State, r: Reads) {
    forall w :: w in r && w < |s.issued| && s.issued[w].order.WaitOn? ==>
      Listed(s, w, s.issued[w].order.evt) || Served(s.log, w, |s.log| - 1)
  }

  ghost predicate NoneMissed(s: State, r: Reads) {
    forall k: nat, w: nat :: k < |s.log| && ReadBefore(s.issued, r, s.log[k].src, s.log[k].tick, w) ==> Served(s.log, w, k)
  }

  ghost predicate Inv(s: State, r: Reads) {
    QueueOk(s, r) && HeapOk(s, r) && WaitersOk(s, r) && LogOk(s, r) && ListedOrServed(s, r) && NoneMissed(s, r)
  }

  // ------------------------------------------------------------ steps

  /** Orders, queue, heap, waiters, log, tick and the firing phase are as before. */
  predicate SameLedger(s: State, t: State) {
    && t.orderQ == s.orderQ && t.heap == s.heap && t.waitOn == s.waitOn && t.log == s.log && t.issued == s.issued
    && t.tick == s.tick && (t.control.Fire? <==> s.control.Fire?)
  }

  lemma SameKeeps(s: State, t: State, r: Reads)
    requires Inv(s, r) && SameLedger(s, t)
    ensures Inv(t, r)
  {
    forall e, j | e in t.waitOn && 0 <= j < |t.waitOn[e]|
      ensures WaiterOk(t, r, e, t.waitOn[e][j])
    {
      assert WaiterOk(s, r, e, s.waitOn[e][j]);
    }
    forall w | w in r && w < |t.issued| && t.issued[w].order.WaitOn?
      ensures Listed(t, w, t.issued[w].order.evt) || Served(t.log, w, |t.log| - 1)
    {
      assert Listed(s, w, s.issued[w].order.evt) ==> Listed(t, w, t.issued[w].order.evt);
    }
  }

  lemma PushKeeps(s: State, r: Reads, o: Order)
    requires Inv(s, r)
    ensures Inv(PushOrder(s, o), r)
  {
    var t := PushOrder(s, o);
    assert forall i :: 0 <= i < |s.issued| ==> t.issued[i] == s.issued[i];
    assert QueueOk(t, r) && HeapOk(t, r);
    assert WaitersOk(t, r) by {
      assert forall e, j :: e in t.waitOn && 0 <= j < |t.waitOn[e]| ==> WaiterOk(s, r, e, s.waitOn[e][j]);
    }
    PushKeepsLog(s, t, r);
  }

  lemma PushKeepsLog(s: State, t: State, r: Reads)
    requires QueueOk(s, r) && LogOk(s, r) && ListedOrServed(s, r) && NoneMissed(s, r)
    requires |t.issued| == |s.issued| + 1 && s.issued <= t.issued && t.log == s.log && t.waitOn == s.waitOn && t.tick == s.tick
    ensures LogOk(t, r) && ListedOrServed(t, r) && NoneMissed(t, r)
  {
    assert forall i :: 0 <= i < |s.issued| ==> t.issued[i] == s.issued[i];
    forall k | 0 <= k < |t.log|
      ensures FiringOk(t.issued, r, t.log[k])
    {
      assert FiringOk(s.issued, r, s.log[k]);
      forall j | 0 <= j < |t.log[k].served|
        ensures ReadBefore(t.issued, r, t.log[k].src, t.log[k].tick, t.log[k].served[j])
      {
        assert ReadBefore(s.issued, r, s.log[k].src, s.log[k].tick, s.log[k].served[j]);
      }
    }
    forall k: nat, w: nat | k < |t.log| && ReadBefore(t.issued, r, t.log[k].src, t.log[k].tick, w)
      ensures Served(t.log, w, k)
    {
      assert FiringOk(s.issued, r, s.log[k]);
      assert ReadBefore(s.issued, r, s.log[k].src, s.log[k].tick, w);
    }
    forall w | w in r && w < |t.issued| && t.issued[w].order.WaitOn?
      ensures Listed(t, w, t.issued[w].order.evt) || Served(t.log, w, |t.log| - 1)
    {
      assert Listed(s, w, s.issued[w].order.evt) ==> Listed(t, w, t.issued[w].order.evt);
    }
  }

  /** Reading one more order. */
  lemma DrainKeeps(s: State, r: Reads)
    requires Inv(s, r) && s.control.Drain? && s.orderQ != []
    ensures Inv(DrainFirst(s), r[s.orderQ[0].id := s.tick])
  {
    var t, n := DrainFirst(s), s.orderQ[0].id;
    var q := r[n := s.tick];
    assert n !in r && n == |s.issued| - |s.orderQ|;
    DrainKeepsQueue(s, r);
    DrainKeepsLog(s, r, t, q, n);
    DrainKeepsLists(s, r, t, q, n);
  }

  lemma DrainKeepsQueue(s: State, r: Reads)
    requires QueueOk(s, r) && HeapOk(s, r) && s.control.Drain? && s.orderQ != []
    ensures var t, q := DrainFirst(s), r[s.orderQ[0].id := s.tick]; QueueOk(t, q) && HeapOk(t, q)
  {
    var t := DrainFirst(s);
    assert forall i :: 0 <= i < |t.orderQ| ==> t.orderQ[i] == s.orderQ[i + 1];
  }

  lemma ReadBeforeStays(issued: seq<Issued>, r: Reads, q: Reads, n: nat, src: nat, tick: Tick, w: nat)
    requires n !in r && n in q && q == r[n := q[n]]
    ensures ReadBefore(issued, r, src, tick, w) ==> ReadBefore(issued, q, src, tick, w)
    ensures ReadBefore(issued, q, src, tick, w) && tick <= q[n] ==> ReadBefore(issued, r, src, tick, w)
  {
  }

  lemma FiringStays(issued: seq<Issued>, r: Reads, q: Reads, n: nat, f: Firing)
    requires n !in r && n in q && q == r[n := q[n]] && FiringOk(issued, r, f)
    ensures FiringOk(issued, q, f)
  {
    forall j | 0 <= j < |f.served|
      ensures ReadBefore(issued, q, f.src, f.tick, f.served[j])
    {
      ReadBeforeStays(issued, r, q, n, f.src, f.tick, f.served[j]);
    }
  }

  /** Serving an order leaves the log alone, except that an Exit is noted. */
  lemma DrainLog(s: State)
    requires s.control.Drain? && s.orderQ != []
    ensures DrainFirst(s).issued == s.issued && DrainFirst(s).tick == s.tick && !DrainFirst(s).control.Fire?
    ensures DrainFirst(s).log == if s.orderQ[0].val.Exit? then s.log + [Firing(s.orderQ[0].id, s.tick, [])] else s.log
  {
  }

  function WithWaiter(m: map<EventId, seq<Tagged<Pid>>>, o: Tagged<Order>): map<EventId, seq<Tagged<Pid>>> {
    if o.val.WaitOn? then m[o.val.evt := Waiters(m, o.val.evt) + [Tagged(o.id, o.val.w)]] else m
  }

  /** Reading an order appends to the waiters of its event, if it is a wait. */
  lemma DrainWaiters(s: State)
    requires s.control.Drain? && s.orderQ != []
    ensures DrainFirst(s).waitOn == WithWaiter(s.waitOn, s.orderQ[0])
  {
  }

  lemma DrainKeepsLog(s: State, r: Reads, t: State, q: Reads, n: nat)
    requires LogOk(s, r) && NoneMissed(s, r) && QueueOk(s, r) && n !in r && q == r[n := s.tick]
    requires s.control.Drain? && s.orderQ != [] && t == DrainFirst(s) && n == s.orderQ[0].id
    ensures LogOk(t, q) && NoneMissed(t, q)
  {
    DrainLog(s);
    hide DrainFirst;
    assert s.issued[n].order == s.orderQ[0].val;
    forall k | 0 <= k < |t.log|
      ensures FiringOk(t.issued, q, t.log[k]) && t.log[k].tick <= t.tick
    {
      if k < |s.log| {
        assert t.log[k] == s.log[k];
        FiringStays(s.issued, r, q, n, s.log[k]);
      }
    }
    forall k: nat, w: nat | k < |t.log| && ReadBefore(t.issued, q, t.log[k].src, t.log[k].tick, w)
      ensures Served(t.log, w, k)
    {
      if k < |s.log| {
        assert t.log[k] == s.log[k] && s.log[k].tick <= s.tick;
        ReadBeforeStays(s.issued, r, q, n, s.log[k].src, s.log[k].tick, w);
        var j :| 0 <= j <= k < |s.log| && w in s.log[j].served;
        assert w in t.log[j].served;
      }
    }
  }

  lemma DrainKeepsLists(s: State, r: Reads, t: State, q: Reads, n: nat)
    requires WaitersOk(s, r) && ListedOrServed(s, r) && QueueOk(s, r) && n !in r && q == r[n := s.tick]
    requires s.control.Drain? && s.orderQ != [] && t == DrainFirst(s) && n == s.orderQ[0].id
    ensures WaitersOk(t, q) && ListedOrServed(t, q)
  {
    DrainLog(s);
    DrainWaiters(s);
    hide DrainFirst;
    assert s.issued[n].order == s.orderQ[0].val;
    forall e, j | e in t.waitOn && 0 <= j < |t.waitOn[e]|
      ensures WaiterOk(t, q, e, t.waitOn[e][j])
    {
      if e in s.waitOn && j < |s.waitOn[e]| {
        assert WaiterOk(s, r, e, s.waitOn[e][j]);
      }
    }
    forall w | w in q && w < |t.issued| && t.issued[w].order.WaitOn?
      ensures Listed(t, w, t.issued[w].order.evt) || Served(t.log, w, |t.log| - 1)
    {
      var e := t.issued[w].order.evt;
      if w == n {
        assert t.waitOn[e][|t.waitOn[e]| - 1].id == w;
      } else if Listed(s, w, e) {
        var j :| 0 <= j < |s.waitOn[e]| && s.waitOn[e][j].id == w;
        assert t.waitOn[e][j].id == w;
      } else {
        var j :| 0 <= j <= |s.log| - 1 && w in s.log[j].served;
        assert w in t.log[j].served;
      }
    }
  }

  lemma JumpKeeps(s: State, r: Reads)
    requires Inv(s, r) && s.control.Advance?
    ensures Inv(JumpTime(s), r)
  {
    hide MinIndex;
    var t := JumpTime(s);
    if t.control.Fire? {
      assert s.tick < t.tick && forall k :: 0 <= k < |s.heap| ==> t.tick <= s.heap[k].val.t;
      forall e, j | e in t.waitOn && 0 <= j < |t.waitOn[e]|
        ensures WaiterOk(t, r, e, t.waitOn[e][j])
      {
        assert WaiterOk(s, r, e, s.waitOn[e][j]);
      }
      forall w | w in r && w < |t.issued| && t.issued[w].order.WaitOn?
        ensures Listed(t, w, t.issued[w].order.evt) || Served(t.log, w, |t.log| - 1)
      {
        assert Listed(s, w, s.issued[w].order.evt) ==> Listed(t, w, t.issued[w].order.evt);
      }
    } else {
      SameKeeps(s, t, r);
    }
  }

  lemma CreditKeeps(s: State, r: Reads)
    requires Inv(s, r) && TickDone(s)
    ensures Inv(ControlApply(s, Credit), r)
  {
    var t := ControlApply(s, Credit);
    forall e, j | e in t.waitOn && 0 <= j < |t.waitOn[e]|
      ensures WaiterOk(t, r, e, t.waitOn[e][j])
    {
      assert WaiterOk(s, r, e, s.waitOn[e][j]);
    }
    forall w | w in r && w < |t.issued| && t.issued[w].order.WaitOn?
      ensures Listed(t, w, t.issued[w].order.evt) || Served(t.log, w, |t.log| - 1)
    {
      assert Listed(s, w, s.issued[w].order.evt) ==> Listed(t, w, t.issued[w].order.evt);
    }
  }

  // ------------------------------------------------------------ firing

  /** The heap entry that fires has exactly the present tick. */
  lemma FiresNow(s: State, r: Reads, i: nat)
    requires HeapOk(s, r) && MayFire(s, i)
    ensures s.heap[i].val.t == s.tick && s.heap[i].id in r && s.heap[i].id < |s.issued|
    ensures Made(s.issued[s.heap[i].id].order, r[s.heap[i].id], s.heap[i].val)
  {
  }

  lemma FireKeepsHeap(s: State, r: Reads, i: nat)
    requires QueueOk(s, r) && HeapOk(s, r) && WaitersOk(s, r) && MayFire(s, i)
    ensures QueueOk(DoFire(s, i), r) && HeapOk(DoFire(s, i), r) && WaitersOk(DoFire(s, i), r)
  {
    var t := DoFire(s, i);
    forall k | 0 <= k < |t.heap|
      ensures t.heap[k] in s.heap
    {
      assert t.heap[k] == s.heap[if k < i then k else k + 1];
    }
    forall e, j | e in t.waitOn && 0 <= j < |t.waitOn[e]|
      ensures WaiterOk(t, r, e, t.waitOn[e][j])
    {
      assert WaiterOk(s, r, e, s.waitOn[e][j]);
    }
  }

  /** The log after `f` took effect now. */
  lemma LogGrows(s: State, t: State, r: Reads, f: Firing)
    requires LogOk(s, r) && NoneMissed(s, r)
    requires t.log == s.log + [f] && t.issued == s.issued && t.tick == s.tick == f.tick && FiringOk(t.issued, r, f)
    requires forall w: nat :: ReadBefore(t.issued, r, f.src, f.tick, w) ==> Served(t.log, w, |s.log|)
    ensures LogOk(t, r) && NoneMissed(t, r)
  {
    hide FiringOk;
    assert forall k :: 0 <= k < |s.log| ==> t.log[k] == s.log[k];
    forall k: nat, w: nat | k < |t.log| && ReadBefore(t.issued, r, t.log[k].src, t.log[k].tick, w)
      ensures Served(t.log, w, k)
    {
      if k < |s.log| {
        assert ReadBefore(s.issued, r, s.log[k].src, s.log[k].tick, w);
        var j :| 0 <= j <= k < |s.log| && w in s.log[j].served;
        assert w in t.log[j].served;
      }
    }
  }

  lemma WakeupKeeps(s: State, r: Reads, i: nat)
    requires Inv(s, r) && MayFire(s, i) && s.heap[i].val.Wakeup?
    ensures Inv(DoFire(s, i), r)
  {
    var t, f := DoFire(s, i), Firing(s.heap[i].id, s.tick, []);
    FiresNow(s, r, i);
    FireKeepsHeap(s, r, i);
    hide QueueOk, HeapOk, WaitersOk;
    assert t.log == s.log + [f] && t.waitOn == s.waitOn && t.issued == s.issued && t.tick == s.tick;
    LogGrows(s, t, r, f);
    SameLists(s, t, r, f);
  }

  lemma SameLists(s: State, t: State, r: Reads, f: Firing)
    requires ListedOrServed(s, r) && t.log == s.log + [f] && t.waitOn == s.waitOn && t.issued == s.issued
    ensures ListedOrServed(t, r)
  {
    forall w | w in r && w < |t.issued| && t.issued[w].order.WaitOn?
      ensures Listed(t, w, t.issued[w].order.evt) || Served(t.log, w, |t.log| - 1)
    {
      var e := t.issued[w].order.evt;
      if Listed(s, w, e) {
        assert Listed(t, w, e);
      } else {
        var j :| 0 <= j <= |s.log| - 1 && w in s.log[j].served;
        assert w in t.log[j].served;
      }
    }
  }

  /** Whoever is in the list of the event is released by this firing; who was read and is not there
      was released before. */
  lemma ReadIsReleased(s: State, t: State, r: Reads, e: EventId, f: Firing, w: nat)
    requires ListedOrServed(s, r) && w in r && w < |s.issued| && s.issued[w].order.WaitOn? && s.issued[w].order.evt == e
    requires t.log == s.log + [f] && f.served == Ids(Waiters(s.waitOn, e))
    ensures Served(t.log, w, |s.log|)
  {
    if Listed(s, w, e) {
      var j :| 0 <= j < |s.waitOn[e]| && s.waitOn[e][j].id == w;
      assert f.served[j] == w && t.log[|s.log|] == f;
    } else {
      var j :| 0 <= j <= |s.log| - 1 && w in s.log[j].served;
      assert w in t.log[j].served;
    }
  }

  lemma NotifyKeeps(s: State, r: Reads, i: nat)
    requires Inv(s, r) && MayFire(s, i) && s.heap[i].val.Notify?
    ensures Inv(DoFire(s, i), r)
  {
    var t, e := DoFire(s, i), s.heap[i].val.evt;
    var f := Firing(s.heap[i].id, s.tick, Ids(Waiters(s.waitOn, e)));
    FiresNow(s, r, i);
    FireKeepsHeap(s, r, i);
    assert t.log == s.log + [f] && t.waitOn == s.waitOn - {e} && t.issued == s.issued && t.tick == s.tick;
    forall j | 0 <= j < |f.served|
      ensures ReadBefore(t.issued, r, f.src, f.tick, f.served[j])
    {
      assert WaiterOk(s, r, e, s.waitOn[e][j]);
    }
    hide QueueOk, HeapOk, WaitersOk, WaiterOk, DoFire;
    forall w: nat | ReadBefore(t.issued, r, f.src, f.tick, w)
      ensures Served(t.log, w, |s.log|)
    {
      ReadIsReleased(s, t, r, e, f, w);
    }
    LogGrows(s, t, r, f);
    hide LogOk, NoneMissed;
    forall w | w in r && w < |t.issued| && t.issued[w].order.WaitOn?
      ensures Listed(t, w, t.issued[w].order.evt) || Served(t.log, w, |t.log| - 1)
    {
      if t.issued[w].order.evt == e {
        ReadIsReleased(s, t, r, e, f, w);
      } else {
        OtherListed(s, t, r, e, f, w);
      }
    }
  }

  lemma OtherListed(s: State, t: State, r: Reads, e: EventId, f: Firing, w: nat)
    requires ListedOrServed(s, r) && w in r && w < |s.issued| && s.issued[w].order.WaitOn? && s.issued[w].order.evt != e
    requires t.log == s.log + [f] && t.waitOn == s.waitOn - {e}
    ensures Listed(t, w, s.issued[w].order.evt) || Served(t.log, w, |t.log| - 1)
  {
    var d := s.issued[w].order.evt;
    if Listed(s, w, d) {
      var j :| 0 <= j < |s.waitOn[d]| && s.waitOn[d][j].id == w;
      assert t.waitOn[d][j].id == w;
    } else {
      var j :| 0 <= j <= |s.log| - 1 && w in s.log[j].served;
      assert w in t.log[j].served;
    }
  }

  // ------------------------------------------------------------ runs

  lemma QuietKeeps(s: State, r: Reads, step: Step)
    requires Inv(s, r) && Enabled(s, step)
    requires step.NewEvent? || step.Register? || step.Unregister? || step.Poll? || step.Lock? || step.Unlock? || step.HandOver?
    ensures Inv(Apply(s, step), r)
  {
    hide Inv;
    SameKeeps(s, Apply(s, step), r);
  }

  lemma AwaitKeeps(s: State, r: Reads, p: Pid, e: EventId)
    requires Inv(s, r)
    ensures Inv(AwaitEvent(s, p, e), r)
  {
    hide Inv, PushOrder;
    if IsTriggered(s, e, p) {
      SameKeeps(s, AwaitEvent(s, p, e), r);
    } else {
      PushKeeps(s, r, WaitOn(e, p));
    }
  }

  lemma ControlKeeps(s: State, r: Reads, step: Step)
    requires Inv(s, r) && ControlEnabled(s, step)
    ensures Inv(ControlApply(s, step), r)
  {
    hide Inv;
    if step.Credit? {
      CreditKeeps(s, r);
    } else {
      SameKeeps(s, ControlApply(s, step), r);
    }
  }

  lemma FireKeeps(s: State, r: Reads, i: nat)
    requires Inv(s, r) && MayFire(s, i)
    ensures Inv(DoFire(s, i), r)
  {
    hide Inv, DoFire;
    if s.heap[i].val.Wakeup? {
      WakeupKeeps(s, r, i);
    } else {
      NotifyKeeps(s, r, i);
    }
  }

  lemma StepKeeps(s: State, r: Reads, step: Step)
    requires Inv(s, r) && Enabled(s, step)
    ensures Inv(Apply(s, step), ReadBy(r, s, step))
  {
    hide Inv, PushOrder, DrainFirst, JumpTime, DoFire, MayFire, ControlApply, AwaitEvent;
    match step {
      case Push(_, o) => PushKeeps(s, r, o);
      case Await(p, e) => AwaitKeeps(s, r, p, e);
      case DrainOne => DrainKeeps(s, r);
      case Jump => JumpKeeps(s, r);
      case FireOne(i) => FireKeeps(s, r, i);
      case NewEvent => QuietKeeps(s, r, step);
      case Register(_) => QuietKeeps(s, r, step);
      case Unregister(_) => QuietKeeps(s, r, step);
      case Poll(_) => QuietKeeps(s, r, step);
      case Lock(_) => QuietKeeps(s, r, step);
      case Unlock(_) => QuietKeeps(s, r, step);
      case HandOver => QuietKeeps(s, r, step);
      case _ => ControlKeeps(s, r, step);
    }
  }

  lemma {:induction false} AlwaysInv(states: seq<State>, steps: seq<Step>, k: nat)
    requires Path(states, steps) && Init(states[0]) && k < |states|
    ensures Inv(states[k], ReadTicks(states, steps, k))
  {
    hide Enabled, Apply, ReadBy;
    if k > 0 {
      AlwaysInv(states, steps, k - 1);
      assert Next(states[k - 1], steps[k - 1], states[k - 1 + 1]);
      hide Inv, Init;
      StepKeeps(states[k - 1], ReadTicks(states, steps, k - 1), steps[k - 1]);
    }
  }
}
