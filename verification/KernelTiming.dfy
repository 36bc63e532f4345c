/** Time and notifications over all runs: at which tick an order takes effect, which notifications
    release which waits, and how many delta-cycles there are.

    The scheduler may be overtaken at one place: an order that is pushed after the queue was found
    empty and before the clock is updated, that is while control is Advance, is read only after the
    clock moved. Every other order is read in the tick in which it was pushed. */
module KernelTiming {
  import opened Gathering
  import opened Kernel
  import opened KernelCensus
  import opened KernelOnce
  import opened KernelReads

  /** Orders read so far: the queue holds the last ones issued. */
  function ReadCount(s: State): int { |s.issued| - |s.orderQ| }

  /** Order `n` was issued by step `i`. */
  predicate IssuedBy(states: seq<State>, steps: seq<Step>, i: nat, n: nat) {
    i < |steps| < |states| && |states[i].issued| == n && |states[i + 1].issued| == n + 1
  }

  /** The scheduler stands in Advance from state `i` on and leaves it with step `m`. */
  predicate LeavesAt(states: seq<State>, steps: seq<Step>, i: nat, m: nat) {
    && i <= m < |steps| < |states| && !states[m + 1].control.Advance?
    && forall l :: i <= l <= m ==> states[l].control.Advance?
  }

  // ---------------------------------------------------------------- the tick of reading

  /** Order `n` was read at tick `c`, or is queued in that tick by a scheduler that will read it. */
  ghost predicate ReadsIn(s: State, r: Reads, n: nat, c: Tick) {
    && n < |s.issued|
    && if n < ReadCount(s) then n in r && r[n] == c else s.tick == c && !s.control.Advance?
  }

  lemma OthersReadNothing(s: State, step: Step)
    requires Enabled(s, step) && !step.DrainOne?
    ensures var t := Apply(s, step); ReadCount(t) == ReadCount(s) && |t.issued| >= |s.issued|
    ensures !s.control.Advance? ==> Apply(s, step).tick == s.tick
    ensures !s.control.Advance? && Apply(s, step).control.Advance? ==> s.orderQ == [] && Apply(s, step).issued == s.issued
  {
    hide MinIndex, RemoveAt;
  }

  lemma DrainReadsOne(s: State)
    requires s.control.Drain? && s.orderQ != []
    ensures var t := DrainFirst(s); t.orderQ == s.orderQ[1..] && t.issued == s.issued && t.tick == s.tick && !t.control.Advance?
  {
  }

  lemma StepKeepsReading(s: State, r: Reads, step: Step, n: nat, c: Tick)
    requires QueueOk(s, r) && Enabled(s, step) && ReadsIn(s, r, n, c)
    ensures ReadsIn(Apply(s, step), ReadBy(r, s, step), n, c)
  {
    if step.DrainOne? {
      hide DrainFirst;
      DrainReadsOne(s);
      assert s.orderQ[0].id == ReadCount(s);
    } else {
      hide Apply, Enabled;
      OthersReadNothing(s, step);
    }
  }

  lemma {:induction false} ReadInOwnTick(states: seq<State>, steps: seq<Step>, p: nat, k: nat, n: nat)
    requires Path(states, steps) && Init(states[0]) && p <= k < |states|
    requires ReadCount(states[p]) <= n < |states[p].issued| && !states[p].control.Advance?
    ensures ReadsIn(states[k], ReadTicks(states, steps, k), n, states[p].tick)
    decreases k - p
  {
    hide Enabled, Apply, ReadsIn, ReadBy;
    if p == k {
      assert ReadsIn(states[k], ReadTicks(states, steps, k), n, states[p].tick) by { Queued(states[k], ReadTicks(states, steps, k), n); }
    } else {
      ReadInOwnTick(states, steps, p, k - 1, n);
      KernelReads.AlwaysInv(states, steps, k - 1);
      QueueOf(states[k - 1], ReadTicks(states, steps, k - 1));
      assert Next(states[k - 1], steps[k - 1], states[k - 1 + 1]);
      hide Init;
      StepKeepsReading(states[k - 1], ReadTicks(states, steps, k - 1), steps[k - 1], n, states[p].tick);
    }
  }

  lemma Queued(s: State, r: Reads, n: nat)
    requires ReadCount(s) <= n < |s.issued| && !s.control.Advance?
    ensures ReadsIn(s, r, n, s.tick)
  {
  }

  lemma QueueOf(s: State, r: Reads)
    requires Inv(s, r)
    ensures QueueOk(s, r)
  {
  }

  /** While the scheduler stays in Advance nothing is read and the clock stands still. */
  lemma {:induction false} UnreadInAdvance(states: seq<State>, steps: seq<Step>, i: nat, l: nat, n: nat)
    requires Path(states, steps) && Init(states[0]) && IssuedBy(states, steps, i, n) && i < l < |states|
    requires forall q :: i <= q < l ==> states[q].control.Advance?
    ensures ReadCount(states[l]) <= n < |states[l].issued|
    ensures states[l].control.Advance? ==> states[l].tick == states[i].tick
    decreases l
  {
    hide Init;
    if l == i + 1 {
      KernelReads.AlwaysInv(states, steps, i);
      assert Next(states[i], steps[i], states[i + 1]);
      hide Inv;
      IssueInAdvance(states[i], steps[i]);
    } else {
      UnreadInAdvance(states, steps, i, l - 1, n);
      assert Next(states[l - 1], steps[l - 1], states[l - 1 + 1]);
      AdvanceReadsNothing(states[l - 1], steps[l - 1]);
    }
  }

  lemma AdvanceReadsNothing(s: State, step: Step)
    requires s.control.Advance? && Enabled(s, step)
    ensures var t := Apply(s, step); ReadCount(t) == ReadCount(s) && |t.issued| >= |s.issued|
    ensures Apply(s, step).control.Advance? ==> Apply(s, step).tick == s.tick
  {
    hide MinIndex;
  }

  lemma IssueInAdvance(s: State, step: Step)
    requires s.control.Advance? && Enabled(s, step) && |Apply(s, step).issued| == |s.issued| + 1
    ensures ReadCount(Apply(s, step)) <= |s.issued|
    ensures Apply(s, step).control.Advance? ==> Apply(s, step).tick == s.tick
  {
    AdvanceReadsNothing(s, step);
  }

  lemma IssueElsewhere(s: State, step: Step)
    requires !s.control.Advance? && Enabled(s, step) && |Apply(s, step).issued| == |s.issued| + 1
    ensures var t := Apply(s, step); !t.control.Advance? && t.tick == s.tick && ReadCount(t) <= |s.issued|
  {
    hide MinIndex, RemoveAt;
  }

  /** The tick at which the order issued by step `i` is read: its own unless the scheduler stood in
      Advance, then the tick to which the clock stands when Advance is left. */
  lemma ReadTick(states: seq<State>, steps: seq<Step>, i: nat, k: nat, n: nat)
    requires Path(states, steps) && Init(states[0]) && IssuedBy(states, steps, i, n) && i < k < |states|
    ensures !states[i].control.Advance? ==> ReadsIn(states[k], ReadTicks(states, steps, k), n, states[i].tick)
    ensures forall m: nat :: m < k && LeavesAt(states, steps, i, m) ==> ReadsIn(states[k], ReadTicks(states, steps, k), n, states[m + 1].tick)
    ensures states[i].control.Advance? && (forall m: nat :: m < k ==> !LeavesAt(states, steps, i, m)) ==> ReadCount(states[k]) <= n
  {
    hide Enabled, Apply, ReadsIn, Init;
    assert Next(states[i], steps[i], states[i + 1]);
    if !states[i].control.Advance? {
      IssueElsewhere(states[i], steps[i]);
      ReadInOwnTick(states, steps, i + 1, k, n);
    } else {
      forall m: nat | m < k && LeavesAt(states, steps, i, m)
        ensures ReadsIn(states[k], ReadTicks(states, steps, k), n, states[m + 1].tick)
      {
        UnreadInAdvance(states, steps, i, m + 1, n);
        ReadInOwnTick(states, steps, m + 1, k, n);
      }
      if forall m: nat :: m < k ==> !LeavesAt(states, steps, i, m) {
        StaysInAdvance(states, steps, i, k);
        UnreadInAdvance(states, steps, i, k, n);
      }
    }
  }

  lemma {:induction false} StaysInAdvance(states: seq<State>, steps: seq<Step>, i: nat, k: nat)
    requires |states| == |steps| + 1 && i <= k < |states| && states[i].control.Advance?
    requires forall m: nat :: m < k ==> !LeavesAt(states, steps, i, m)
    ensures forall q :: i <= q <= k ==> states[q].control.Advance?
    decreases k
  {
    if i < k {
      StaysInAdvance(states, steps, i, k - 1);
      assert !LeavesAt(states, steps, i, k - 1);
    }
  }

  /** Issued orders keep their tick of issue. */
  lemma {:induction false} IssuedStays(states: seq<State>, steps: seq<Step>, i: nat, k: nat, n: nat)
    requires Path(states, steps) && IssuedBy(states, steps, i, n) && i < k < |states|
    ensures n < |states[k].issued| && states[k].issued[n] == states[i + 1].issued[n] && states[k].issued[n].at == states[i].tick
    decreases k
  {
    assert Next(states[i], steps[i], states[i + 1]);
    assert Next(states[k - 1], steps[k - 1], states[k - 1 + 1]);
    if i + 1 < k {
      IssuedStays(states, steps, i, k - 1, n);
      IssuedGrows(states[k - 1], steps[k - 1]);
    } else {
      IssuedNow(states[i], steps[i]);
    }
  }

  lemma IssuedGrows(s: State, step: Step)
    requires Enabled(s, step)
    ensures |s.issued| <= |Apply(s, step).issued| && forall n :: 0 <= n < |s.issued| ==> Apply(s, step).issued[n] == s.issued[n]
  {
    hide MinIndex, RemoveAt;
  }

  lemma IssuedNow(s: State, step: Step)
    requires Enabled(s, step) && |Apply(s, step).issued| == |s.issued| + 1
    ensures Apply(s, step).issued[|s.issued|].at == s.tick
  {
    hide MinIndex, RemoveAt;
  }

  // ---------------------------------------------------------------- what may be asked for

  /** A new event is one more, and may be awaited and triggered from then on. */
  lemma NewEventIsKnown(s: State, p: Pid, t: Tick)
    requires Running(s, p) && s.tick <= t
    ensures Enabled(s, NewEvent)
    ensures !Enabled(s, Await(p, s.nextEvent)) && !Enabled(s, Push(p, NotifyAt(t, s.nextEvent)))
    ensures var u := Apply(s, NewEvent);
      && (forall e :: Enabled(u, Await(p, e)) <==> Enabled(s, Await(p, e)) || e == s.nextEvent)
      && Enabled(u, Push(p, NotifyAt(t, s.nextEvent)))
  {
  }

  /** An order may be pushed for the present tick or a later one, and for no earlier one. */
  lemma PastIsRefused(s: State, p: Pid, t: Tick, e: EventId)
    requires Running(s, p) && e < s.nextEvent
    ensures Enabled(s, Push(p, WaitUntil(t, p))) <==> s.tick <= t
    ensures Enabled(s, Push(p, NotifyAt(t, e))) <==> s.tick <= t
  {
  }

  // ---------------------------------------------------------------- delays and notifications

  predicate Timed(o: Order) { o.WaitUntil? || o.NotifyAt? }

  /** The order for tick `t` that step `i` issues is on time: it is not pushed while the scheduler
      stands in Advance, or the clock then does not move, or moves to a tick before t. */
  ghost predicate InTime(states: seq<State>, steps: seq<Step>, i: nat, k: nat, t: Tick)
    requires i < |states| == |steps| + 1
  {
    states[i].control.Advance? ==>
      exists m: nat :: m < k && LeavesAt(states, steps, i, m) && (states[m + 1].tick == states[i].tick || states[m + 1].tick < t)
  }

  /** In every run an order for tick t that took effect did so at exactly max(c + 1, t), for the
      tick c at which it was issued, if and only if it was not pushed while the scheduler stood in
      Advance, or the clock then stayed below t or did not move. */
  lemma OnTimeIff(states: seq<State>, steps: seq<Step>, i: nat, k: nat, j: nat)
    requires Path(states, steps) && Init(states[0]) && i < k < |states| && j < |states[k].log|
    requires var n := states[k].log[j].src; IssuedBy(states, steps, i, n) && n < |states[k].issued| && Timed(states[k].issued[n].order)
    ensures var s, n := states[k], states[k].log[j].src; s.issued[n].at == states[i].tick
    ensures var s, n := states[k], states[k].log[j].src;
      s.log[j].tick == Due(s.issued[n].at, s.issued[n].order.t) <==> InTime(states, steps, i, k, s.issued[n].order.t)
    ensures var s, n := states[k], states[k].log[j].src;
      !states[i].control.Advance? ==> s.log[j].tick == Due(s.issued[n].at, s.issued[n].order.t)
  {
    var s, n, r := states[k], states[k].log[j].src, ReadTicks(states, steps, k);
    hide ReadTicks, Init, Path, IssuedBy;
    KernelReads.AlwaysInv(states, steps, k);
    IssuedStays(states, steps, i, k, n);
    ReadTick(states, steps, i, k, n);
    assert KernelReads.FiringOk(s.issued, r, s.log[j]);
    assert n in r && n < ReadCount(s);
    hide LeavesAt;
    if states[i].control.Advance? {
      var m: nat :| m < k && LeavesAt(states, steps, i, m);
      assert r[n] == states[m + 1].tick && states[i].tick <= r[n];
      assert forall q: nat :: q < k && LeavesAt(states, steps, i, q) ==> states[q + 1].tick == r[n];
    }
  }

  /** Order `n` took effect. */
  ghost predicate TookEffect(s: State, n: nat) {
    exists k :: 0 <= k < |s.log| && s.log[k].src == n
  }

  /** And it does take effect: with c the tick of its reading, not before max(c + 1, t), and at the
      latest when the tasks of that tick have been fired; not at all before it could be read. */
  lemma DueTakesEffect(states: seq<State>, steps: seq<Step>, i: nat, k: nat, n: nat)
    requires Path(states, steps) && Init(states[0]) && i < k < |states| && IssuedBy(states, steps, i, n)
    requires n < |states[k].issued| && Timed(states[k].issued[n].order)
    ensures !states[i].control.Advance? ==> EffectAt(states[k], n, Due(states[i].tick, states[k].issued[n].order.t))
    ensures forall m: nat :: m < k && LeavesAt(states, steps, i, m) ==>
      EffectAt(states[k], n, Due(states[m + 1].tick, states[k].issued[n].order.t))
    ensures states[i].control.Advance? && (forall m: nat :: m < k ==> !LeavesAt(states, steps, i, m)) ==> !TookEffect(states[k], n)
  {
    var s, r := states[k], ReadTicks(states, steps, k);
    hide ReadTicks, Init, Path, IssuedBy, LeavesAt, ReadsIn, TookEffect, EffectAt;
    KernelReads.AlwaysInv(states, steps, k);
    AlwaysOnce(states, steps, k);
    ReadTick(states, steps, i, k, n);
    hide Inv, OnceEach;
    if !states[i].control.Advance? {
      ReadMeansEffect(s, r, n, states[i].tick);
    }
    forall m: nat | m < k && LeavesAt(states, steps, i, m)
      ensures EffectAt(s, n, Due(states[m + 1].tick, s.issued[n].order.t))
    {
      ReadMeansEffect(s, r, n, states[m + 1].tick);
    }
    if ReadCount(s) <= n {
      UnreadHasNoEffect(s, r, n);
    }
  }

  /** The order took effect when and only when its tick is over, or is being fired. */
  ghost predicate EffectAt(s: State, n: nat, due: Tick) {
    && (TookEffect(s, n) ==> due <= s.tick)
    && (due < s.tick || (due == s.tick && !s.control.Fire?) ==> TookEffect(s, n))
  }

  lemma UnreadHasNoEffect(s: State, r: Reads, n: nat)
    requires Inv(s, r) && ReadCount(s) <= n
    ensures !TookEffect(s, n)
  {
    forall k | 0 <= k < |s.log|
      ensures s.log[k].src != n
    {
      assert KernelReads.FiringOk(s.issued, r, s.log[k]);
    }
  }

  lemma ReadMeansEffect(s: State, r: Reads, n: nat, c: Tick)
    requires Inv(s, r) && OnceEach(s) && ReadsIn(s, r, n, c) && Timed(s.issued[n].order)
    ensures EffectAt(s, n, Due(c, s.issued[n].order.t))
  {
    hide Inv, OnceEach;
    if n >= ReadCount(s) {
      UnreadHasNoEffect(s, r, n);
    } else {
      EffectIsDue(s, r, n);
      DueHasEffect(s, r, n);
    }
  }

  lemma EffectIsDue(s: State, r: Reads, n: nat)
    requires Inv(s, r) && n in r && n < |s.issued| && Timed(s.issued[n].order)
    ensures TookEffect(s, n) ==> Due(r[n], s.issued[n].order.t) <= s.tick
  {
    forall k | 0 <= k < |s.log| && s.log[k].src == n
      ensures s.log[k].tick == Due(r[n], s.issued[n].order.t) <= s.tick
    {
      assert KernelReads.FiringOk(s.issued, r, s.log[k]);
    }
  }

  lemma WaiterIsWait(s: State, r: Reads, w: nat)
    requires WaitersOk(s, r) && w in GatherMap(s.waitOn, s.nextEvent, WaiterId)
    ensures w < |s.issued| && s.issued[w].order.WaitOn?
  {
    hide Gather, GatherMap;
    var e, j := GatherMapSource(s.waitOn, s.nextEvent, WaiterId, w);
    assert KernelReads.WaiterOk(s, r, e, s.waitOn[e][j]);
  }

  /** What was read is in the heap until its tick, and then in the log. */
  lemma DueHasEffect(s: State, r: Reads, n: nat)
    requires Inv(s, r) && OnceEach(s) && n in r && n < ReadCount(s) && Timed(s.issued[n].order)
    ensures var due := Due(r[n], s.issued[n].order.t); due < s.tick || (due == s.tick && !s.control.Fire?) ==> TookEffect(s, n)
  {
    hide Gather, GatherMap, NoneMissed, ListedOrServed;
    assert Copies(s, n) == Bit(n < |s.issued|);
    if n in Gather(s.orderQ, OrderId) {
      var i := GatherSource(s.orderQ, OrderId, n);
      assert false;
    } else if n in Gather(s.heap, TaskId) {
      var i := GatherSource(s.heap, TaskId, n);
    } else if n in GatherMap(s.waitOn, s.nextEvent, WaiterId) {
      WaiterIsWait(s, r, n);
      assert false;
    } else {
      var j := GatherSource(s.log, FiringIds, n);
      assert KernelReads.FiringOk(s.issued, r, s.log[j]);
      SourceOrServed(s, r, j, n);
    }
  }

  lemma SourceOrServed(s: State, r: Reads, j: nat, n: nat)
    requires j < |s.log| && n in FiringIds(s.log[j]) && n < |s.issued| && Timed(s.issued[n].order)
    requires KernelReads.FiringOk(s.issued, r, s.log[j])
    ensures s.log[j].src == n
  {
    forall q | 0 <= q < |s.log[j].served|
      ensures s.log[j].served[q] != n
    {
      assert ReadBefore(s.issued, r, s.log[j].src, s.log[j].tick, s.log[j].served[q]);
    }
  }

  // ---------------------------------------------------------------- releasing waits

  /** The scheduler has read the order of step `i` before tick `c`. */
  ghost predicate HeardBefore(states: seq<State>, steps: seq<Step>, i: nat, k: nat, c: Tick)
    requires i < |states| == |steps| + 1
  {
    if states[i].control.Advance? then exists m: nat :: m < k && LeavesAt(states, steps, i, m) && states[m + 1].tick < c
    else states[i].tick < c
  }

  /** In every run a fired notification released exactly the waits for its event that no earlier one
      released and that were issued before its tick - or, pushed while the scheduler stood in Advance,
      were read before it - whatever the queue order of notify and wait. */
  lemma NoNotificationMissed(states: seq<State>, steps: seq<Step>, i: nat, k: nat, j: nat, w: nat)
    requires Path(states, steps) && Init(states[0]) && i < k < |states| && j < |states[k].log| && IssuedBy(states, steps, i, w)
    requires var s := states[k];
      w < |s.issued| && s.log[j].src < |s.issued| && s.issued[s.log[j].src].order.NotifyAt?
      && s.issued[w].order.WaitOn? && s.issued[w].order.evt == s.issued[s.log[j].src].order.evt
    ensures var s := states[k];
      w in s.log[j].served <==> HeardBefore(states, steps, i, k, s.log[j].tick) && forall q :: 0 <= q < j ==> w !in s.log[q].served
  {
    var s, r := states[k], ReadTicks(states, steps, k);
    hide ReadTicks, Init, Path, IssuedBy, LeavesAt, ReadsIn;
    KernelReads.AlwaysInv(states, steps, k);
    AlwaysOnce(states, steps, k);
    ReadTick(states, steps, i, k, w);
    hide Inv, OnceEach;
    if !states[i].control.Advance? {
      ReleasedIff(s, r, j, w, states[i].tick);
    } else if exists m: nat :: m < k && LeavesAt(states, steps, i, m) {
      var m: nat :| m < k && LeavesAt(states, steps, i, m);
      ReleasedIff(s, r, j, w, states[m + 1].tick);
      HeardMeansTick(states, steps, i, k, m, s.log[j].tick);
    } else {
      UnreadIsNotServed(s, r, j, w);
    }
  }

  lemma HeardMeansTick(states: seq<State>, steps: seq<Step>, i: nat, k: nat, m: nat, c: Tick)
    requires i < |states| == |steps| + 1 && states[i].control.Advance? && m < k && LeavesAt(states, steps, i, m)
    ensures HeardBefore(states, steps, i, k, c) <==> states[m + 1].tick < c
  {
    hide LeavesAt;
    forall q: nat | q < k && LeavesAt(states, steps, i, q)
      ensures q == m
    {
      LeavesOnce(states, steps, i, m, q);
    }
  }

  lemma LeavesOnce(states: seq<State>, steps: seq<Step>, i: nat, m: nat, q: nat)
    requires LeavesAt(states, steps, i, m) && LeavesAt(states, steps, i, q)
    ensures m == q
  {
    if m < q {
      assert false;
    } else if q < m {
      assert false;
    }
  }

  lemma UnreadIsNotServed(s: State, r: Reads, j: nat, w: nat)
    requires Inv(s, r) && ReadCount(s) <= w && j < |s.log|
    ensures w !in s.log[j].served
  {
    assert KernelReads.FiringOk(s.issued, r, s.log[j]);
    forall q | 0 <= q < |s.log[j].served|
      ensures s.log[j].served[q] != w
    {
      assert ReadBefore(s.issued, r, s.log[j].src, s.log[j].tick, s.log[j].served[q]);
    }
  }

  lemma ReleasedIff(s: State, r: Reads, j: nat, w: nat, c: Tick)
    requires Inv(s, r) && OnceEach(s) && j < |s.log| && ReadsIn(s, r, w, c)
    requires s.log[j].src < |s.issued| && s.issued[s.log[j].src].order.NotifyAt?
    requires s.issued[w].order.WaitOn? && s.issued[w].order.evt == s.issued[s.log[j].src].order.evt
    ensures w in s.log[j].served <==> c < s.log[j].tick && forall q :: 0 <= q < j ==> w !in s.log[q].served
  {
    hide OnceEach, HeapOk, WaitersOk, ListedOrServed;
    assert KernelReads.FiringOk(s.issued, r, s.log[j]) && s.log[j].tick <= s.tick;
    if w >= ReadCount(s) {
      UnreadIsNotServed(s, r, j, w);
    } else {
      assert r[w] < s.log[j].tick ==> ReadBefore(s.issued, r, s.log[j].src, s.log[j].tick, w);
      hide LogOk, NoneMissed;
      assert r[w] < s.log[j].tick ==> Served(s.log, w, j) by { assert NoneMissed(s, r); }
      if w in s.log[j].served {
        var q :| 0 <= q < |s.log[j].served| && s.log[j].served[q] == w;
        assert ReadBefore(s.issued, r, s.log[j].src, s.log[j].tick, s.log[j].served[q]);
        ServedOnce(s, j, w);
      }
    }
  }

  lemma ServedOnce(s: State, j: nat, w: nat)
    requires OnceEach(s) && j < |s.log| && w in s.log[j].served
    ensures forall q :: 0 <= q < j ==> w !in s.log[q].served
  {
    hide Gather, GatherMap;
    assert Copies(s, w) == Bit(w < |s.issued|);
    forall q | 0 <= q < j
      ensures w !in s.log[q].served
    {
      if w in s.log[q].served {
        ServedTwice(s.log, q, j, w);
        assert false;
      }
    }
  }

  lemma ServedTwice(log: seq<Firing>, i: nat, j: nat, w: nat)
    requires i < j < |log| && w in log[i].served && w in log[j].served
    ensures Gather(log, FiringIds)[w] >= 2
  {
    hide Gather;
    GatherRemove(log, j, FiringIds);
    GatherMember(RemoveAt(log, j), i, FiringIds);
    assert w in multiset(log[i].served) && w in multiset(log[j].served);
  }

  // ---------------------------------------------------------------- the clock

  /** Delta-cycles started in the first `k` steps. */
  ghost function Cycles(states: seq<State>, k: nat): nat
    requires k < |states|
  {
    if k == 0 then 0
    else Cycles(states, k - 1) + Bit(states[k - 1].control.Advance? && states[k].control.Fire?)
  }

  /** In every run each delta-cycle moves time strictly forward and not beyond the requested duration,
      and nothing else moves it, so there are at most as many cycles as ticks passed. */
  lemma {:induction false} CyclesBoundedByTime(states: seq<State>, steps: seq<Step>, k: nat)
    requires Path(states, steps) && Init(states[0]) && k < |states|
    ensures Cycles(states, k) <= states[k].tick - states[0].tick
    ensures forall i :: 0 <= i < k && states[i].control.Advance? && states[i + 1].control.Fire? ==>
      states[i].tick < states[i + 1].tick <= states[i].duration
    ensures forall i :: 0 <= i < k && !(states[i].control.Advance? && states[i + 1].control.Fire?) ==> states[i].tick == states[i + 1].tick
  {
    if k > 0 {
      CyclesBoundedByTime(states, steps, k - 1);
      KernelReads.AlwaysInv(states, steps, k - 1);
      assert Next(states[k - 1], steps[k - 1], states[k - 1 + 1]);
      hide Inv, Init, Path, Cycles, ReadTicks;
      ClockStep(states[k - 1], ReadTicks(states, steps, k - 1), steps[k - 1]);
      CyclesStep(states, k);
    }
  }

  lemma CyclesStep(states: seq<State>, k: nat)
    requires 0 < k < |states|
    ensures Cycles(states, k) == Cycles(states, k - 1) + Bit(states[k - 1].control.Advance? && states[k].control.Fire?)
  {
  }

  lemma ClockStep(s: State, r: Reads, step: Step)
    requires Inv(s, r) && Enabled(s, step)
    ensures var t := Apply(s, step);
      if s.control.Advance? && t.control.Fire? then s.tick < t.tick <= s.duration else t.tick == s.tick
  {
    hide QueueOk, WaitersOk, LogOk, NoneMissed, ListedOrServed, MinIndex, RemoveAt;
  }
}
