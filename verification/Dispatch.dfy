/** A tagged port's session queues, filled from one packet stream and read in bursts. */
module Dispatch {
  import opened Wrappers
  import opened Burst

  class Queue<T> {
    const depth: nat
    var ll: seq<Packet<T>>

    ghost predicate Valid()
      reads this
    {
      SortedByUid(ll) && |ll| <= depth
    }

    constructor (depth: nat)
      ensures Valid() && this.depth == depth && ll == []
    {
      this.depth := depth;
      ll := [];
    }

    /** One look of enqueue at the queue; when it is full the caller waits for a dequeue. */
    method Enqueue(pkt: Packet<T>) returns (done: bool)
      requires Valid()
      modifies this
      ensures Valid() && done == (|old(ll)| < depth)
      ensures ll == if done then Inserted(old(ll), pkt) else old(ll)
    {
      done := |ll| < depth;
      if done {
        InsertKeepsSorted(ll, pkt);
        ll := InsertByUid(ll, pkt);
      }
    }

    /** One look of dequeue; with too few packets the caller waits for an enqueue. */
    method Dequeue(len: nat) returns (head: Option<seq<Packet<T>>>)
      requires Valid()
      modifies this
      ensures Valid() && head.Some? == (|old(ll)| >= len)
      ensures head.None? ==> ll == old(ll)
      ensures head.Some? ==> |head.value| == len && old(ll) == head.value + ll
    {
      if |ll| < len {
        return None;
      }
      var tail := ll[len..];
      head := Some(ll[..len]);
      ll := tail;
      assert old(ll) == head.value + ll;
    }

    method Flush()
      modifies this
      ensures Valid() && ll == []
    {
      ll := [];
    }
  }

  /** Session `i` is the one the packet names, or it names none and `i` is the first. */
  predicate IsFor<T>(pkt: Packet<T>, i: nat) { pkt.sid == Some(i) || (i == 0 && pkt.sid == None) }

  /** The index computed by poll_port. */
  function SessionOf<T>(pkt: Packet<T>): nat { if pkt.sid.Some? then pkt.sid.value else 0 }

  datatype Round = Stored | Full | Panicked

  class Dispatch<T> {
    const queue: seq<Queue<T>>

    ghost predicate Valid()
      reads this, queue
    {
      && (forall i :: 0 <= i < |queue| ==> queue[i].Valid())
      && (forall i, j :: 0 <= i < j < |queue| ==> queue[i] != queue[j])
    }

    ghost function Value(): seq<seq<Packet<T>>>
      reads this, queue
    {
      seq(|queue|, i requires 0 <= i < |queue| reads this, queue => queue[i].ll)
    }

    constructor (depth: seq<nat>)
      ensures Valid() && fresh(queue) && |queue| == |depth|
      ensures forall i :: 0 <= i < |depth| ==> queue[i].depth == depth[i] && queue[i].ll == []
    {
      var qs: seq<Queue<T>> := [];
      for i := 0 to |depth|
        invariant |qs| == i && fresh(qs)
        invariant forall k :: 0 <= k < i ==> qs[k].Valid() && qs[k].depth == depth[k] && qs[k].ll == []
        invariant forall j, k :: 0 <= j < k < i ==> qs[j] != qs[k]
      {
        var q := new Queue(depth[i]);
        qs := qs + [q];
      }
      queue := qs;
    }

    /** One round of poll_port on the packet it received: stored in the queue of its session, or waiting
        for room there; a session without a queue panics. */
    method PollPort(pkt: Packet<T>) returns (r: Round)
      requires Valid()
      modifies queue
      ensures Valid() && (r.Panicked? <==> forall i :: 0 <= i < |queue| ==> !IsFor(pkt, i))
      ensures forall i :: 0 <= i < |queue| && IsFor(pkt, i) ==> (r.Stored? <==> |old(Value())[i]| < queue[i].depth)
      ensures forall i :: 0 <= i < |queue| && (!IsFor(pkt, i) || !r.Stored?) ==> queue[i].ll == old(Value())[i]
      ensures forall i :: 0 <= i < |queue| && IsFor(pkt, i) && r.Stored? ==> queue[i].ll == Inserted(old(Value())[i], pkt)
    {
      var sid := match pkt.sid case Some(s) => s case None => 0;
      assert IsFor(pkt, sid);
      if sid >= |queue| {
        return Panicked;
      }
      var done := queue[sid].Enqueue(pkt);
      r := if done then Stored else Full;
    }

    /** wait_pkt_burst on a session. */
    method WaitBurst(sid: nat, nbPkt: nat) returns (head: Option<seq<Packet<T>>>)
      requires Valid() && sid < |queue|
      modifies queue
      ensures Valid() && head.Some? == (|old(Value())[sid]| >= nbPkt)
      ensures forall i :: 0 <= i < |queue| && (i != sid || head.None?) ==> queue[i].ll == old(Value())[i]
      ensures head.Some? ==> |head.value| == nbPkt && old(Value())[sid] == head.value + queue[sid].ll
    {
      head := queue[sid].Dequeue(nbPkt);
    }
  }

  /** The head that dequeue takes are the packets with the smallest uids. */
  lemma DequeueTakesSmallest<T>(ll: seq<Packet<T>>, len: nat)
    requires SortedByUid(ll) && len <= |ll|
    ensures SortedByUid(ll[..len]) && SortedByUid(ll[len..])
    ensures forall p, q :: p in ll[..len] && q in ll[len..] ==> p.uid <= q.uid
  {
  }

  // ------------------------------------------------------------ runs

  /** `arrived` and `taken` are history: what each queue was given and what was read from it. */
  datatype State<T> = State(depth: seq<nat>, lists: seq<seq<Packet<T>>>, arrived: seq<Packet<T>>, taken: seq<seq<Packet<T>>>)

  datatype Step<T> = Arrive(pkt: Packet<T>) | Take(sid: nat, len: nat)

  predicate Enabled<T>(s: State<T>, step: Step<T>) {
    |s.lists| == |s.depth| == |s.taken| &&
    match step
    case Arrive(pkt) => SessionOf(pkt) < |s.lists| && |s.lists[SessionOf(pkt)]| < s.depth[SessionOf(pkt)]
    case Take(sid, len) => sid < |s.lists| && len <= |s.lists[sid]|
  }

  function Apply<T>(s: State<T>, step: Step<T>): State<T>
    requires Enabled(s, step)
  {
    match step
    case Arrive(pkt) =>
      var sid := SessionOf(pkt);
      s.(lists := s.lists[sid := Inserted(s.lists[sid], pkt)], arrived := s.arrived + [pkt])
    case Take(sid, len) =>
      s.(lists := s.lists[sid := s.lists[sid][len..]], taken := s.taken[sid := s.taken[sid] + s.lists[sid][..len]])
  }

  /** The packets of one session, in arrival order: those that name it, and for the first also those that name none. */
  function Of<T>(arrived: seq<Packet<T>>, sid: nat): seq<Packet<T>> {
    if arrived == [] then []
    else
      var last := arrived[|arrived| - 1];
      Of(arrived[..|arrived| - 1], sid) + if IsFor(last, sid) then [last] else []
  }

  /** What a session has got back or still queued is what arrived for it. */
  ghost predicate Balanced<T>(s: State<T>, i: nat)
    requires i < |s.lists| == |s.taken|
  {
    multiset(s.taken[i]) + multiset(s.lists[i]) == multiset(Of(s.arrived, i))
  }

  /** Sorted and bounded queues, and every session balanced. */
  ghost predicate Inv<T>(s: State<T>) {
    && |s.lists| == |s.depth| == |s.taken|
    && (forall i :: 0 <= i < |s.lists| ==> SortedByUid(s.lists[i]) && |s.lists[i]| <= s.depth[i])
    && (forall i :: 0 <= i < |s.lists| ==> Balanced(s, i))
  }

  lemma OfAppend<T>(arrived: seq<Packet<T>>, pkt: Packet<T>, sid: nat)
    ensures Of(arrived + [pkt], sid) == Of(arrived, sid) + if IsFor(pkt, sid) then [pkt] else []
  {
    assert (arrived + [pkt])[..|arrived|] == arrived;
  }

  lemma ArriveKeepsBalance<T>(s: State<T>, pkt: Packet<T>, i: nat)
    requires Inv(s) && Enabled(s, Arrive(pkt)) && i < |s.lists|
    ensures Balanced(Apply(s, Arrive(pkt)), i)
  {
    hide Of, Inserted;
    assert Balanced(s, i);
    OfAppend(s.arrived, pkt, i);
    InsertKeepsSorted(s.lists[SessionOf(pkt)], pkt);
  }

  lemma ArriveKeepsInv<T>(s: State<T>, pkt: Packet<T>)
    requires Inv(s) && Enabled(s, Arrive(pkt))
    ensures Inv(Apply(s, Arrive(pkt)))
  {
    var t := Apply(s, Arrive(pkt));
    InsertKeepsSorted(s.lists[SessionOf(pkt)], pkt);
    assert |Inserted(s.lists[SessionOf(pkt)], pkt)| == |s.lists[SessionOf(pkt)]| + 1;
    hide Balanced, Inserted, SortedByUid;
    forall i | 0 <= i < |t.lists|
      ensures Balanced(t, i)
    {
      ArriveKeepsBalance(s, pkt, i);
    }
  }

  lemma TakeKeepsInv<T>(s: State<T>, sid: nat, len: nat)
    requires Inv(s) && Enabled(s, Take(sid, len))
    ensures Inv(Apply(s, Take(sid, len)))
  {
    hide Of;
    var ll, t := s.lists[sid], Apply(s, Take(sid, len));
    assert ll == ll[..len] + ll[len..];
    forall i | 0 <= i < |t.lists|
      ensures Balanced(t, i)
    {
      assert Balanced(s, i);
    }
  }

  lemma StepKeepsInv<T>(s: State<T>, step: Step<T>)
    requires Inv(s) && Enabled(s, step)
    ensures Inv(Apply(s, step))
  {
    hide Inv, Apply;
    match step
    case Arrive(pkt) => ArriveKeepsInv(s, pkt);
    case Take(sid, len) => TakeKeepsInv(s, sid, len);
  }

  ghost predicate Run<T(!new)>(s: State<T>, steps: seq<Step<T>>, t: State<T>)
    decreases |steps|
  {
    if steps == [] then t == s else Enabled(s, steps[0]) && Run(Apply(s, steps[0]), steps[1..], t)
  }

  lemma {:induction false} AlwaysInv<T(!new)>(s: State<T>, steps: seq<Step<T>>, t: State<T>)
    requires Inv(s) && Run(s, steps, t)
    ensures Inv(t) && t.depth == s.depth
    decreases |steps|
  {
    if steps != [] {
      StepKeepsInv(s, steps[0]);
      AlwaysInv(Apply(s, steps[0]), steps[1..], t);
    }
  }

  function Fresh<T>(depth: seq<nat>): State<T> {
    State(depth, seq(|depth|, _ => []), [], seq(|depth|, _ => []))
  }

  /** In every run without a flush: each queue stays sorted and within its depth, and each session
      has got, or still has queued, exactly the packets that arrived for it: none is lost,
      duplicated or moved to another session. */
  lemma NothingLost<T(!new)>(depth: seq<nat>, steps: seq<Step<T>>, t: State<T>, sid: nat)
    requires Run(Fresh(depth), steps, t) && sid < |depth|
    ensures |t.lists| == |t.taken| == |depth| && SortedByUid(t.lists[sid]) && |t.lists[sid]| <= depth[sid]
    ensures multiset(t.taken[sid]) + multiset(t.lists[sid]) == multiset(Of(t.arrived, sid))
  {
    assert Inv(Fresh<T>(depth));
    AlwaysInv(Fresh(depth), steps, t);
    assert Balanced(t, sid);
  }

  /** Nothing is read from session `sid`. */
  predicate LeavesAlone<T>(steps: seq<Step<T>>, sid: nat) {
    forall i :: 0 <= i < |steps| ==> !steps[i].Take? || steps[i].sid != sid
  }

  lemma {:induction false} TakenStays<T(!new)>(s: State<T>, steps: seq<Step<T>>, t: State<T>, sid: nat)
    requires Run(s, steps, t) && LeavesAlone(steps, sid) && sid < |s.taken|
    ensures |t.taken| == |s.taken| && t.taken[sid] == s.taken[sid]
    decreases |steps|
  {
    if steps != [] {
      assert LeavesAlone(steps[1..], sid);
      TakenStays(Apply(s, steps[0]), steps[1..], t, sid);
    }
  }

  lemma CancelLeft<T>(a: multiset<T>, b: multiset<T>, c: multiset<T>)
    requires a + b == a + c
    ensures b == c
  {
    forall x
      ensures b[x] == c[x]
    {
      assert (a + b)[x] == (a + c)[x];
    }
  }

  /** Each burst of a session, not only its first: when the queue of the session was empty and since then
      the responses of a burst arrived for it, in any order and whatever arrived for and was read by other
      sessions in between, they are queued in request order, and reading as many takes just them and
      leaves the queue empty for the next burst. */
  lemma SessionBurstInOrder<T(!new)>(s: State<T>, steps: seq<Step<T>>, t: State<T>, sid: nat, responses: seq<Packet<T>>)
    requires Inv(s) && sid < |s.lists| && s.lists[sid] == []
    requires Run(s, steps, t) && LeavesAlone(steps, sid)
    requires Increasing(responses) && multiset(Of(t.arrived, sid)) == multiset(Of(s.arrived, sid)) + multiset(responses)
    ensures sid < |t.lists| == |t.taken| && t.lists[sid] == responses && Enabled(t, Take(sid, |responses|))
    ensures var u := Apply(t, Take(sid, |responses|)); Inv(u) && u.taken[sid] == t.taken[sid] + responses && u.lists[sid] == []
  {
    AlwaysInv(s, steps, t);
    TakenStays(s, steps, t, sid);
    assert Balanced(s, sid) && Balanced(t, sid);
    CancelLeft(multiset(t.taken[sid]), multiset(t.lists[sid]), multiset(responses));
    SortedIsUnique(t.lists[sid], responses);
    StepKeepsInv(t, Take(sid, |responses|));
    assert responses[..|responses|] == responses;
  }

  /** Of what arrived a session gets just what is for it. */
  lemma {:induction false} OfCounts<T>(arrived: seq<Packet<T>>, sid: nat, p: Packet<T>)
    ensures multiset(Of(arrived, sid))[p] == if IsFor(p, sid) then multiset(arrived)[p] else 0
  {
    if arrived != [] {
      var n := |arrived| - 1;
      OfCounts(arrived[..n], sid, p);
      assert arrived == arrived[..n] + [arrived[n]];
    }
  }

  /** No packet is ever in the queue of another session than its own, or read from it. */
  lemma OnlyOwnPackets<T(!new)>(s: State<T>, steps: seq<Step<T>>, t: State<T>, i: nat, p: Packet<T>)
    requires Inv(s) && Run(s, steps, t) && i < |t.lists| == |t.taken| && (p in t.lists[i] || p in t.taken[i])
    ensures p.sid == Some(i) || (i == 0 && p.sid == None)
    ensures p in t.arrived
  {
    AlwaysInv(s, steps, t);
    assert Balanced(t, i);
    OfCounts(t.arrived, i, p);
    assert p in multiset(t.taken[i]) + multiset(t.lists[i]);
    assert p in multiset(t.arrived);
  }

  /** One arrival changes the queue of the session that the packet names, or queue 0 when it names none, and
      there is no room for it nowhere else. */
  lemma ArrivesOnlyThere<T>(s: State<T>, pkt: Packet<T>, k: nat)
    requires Enabled(s, Arrive(pkt)) && k == (if pkt.sid.Some? then pkt.sid.value else 0)
    ensures k < |s.lists| && |s.lists[k]| < s.depth[k]
    ensures Apply(s, Arrive(pkt)).lists == s.lists[k := Inserted(s.lists[k], pkt)] && Apply(s, Arrive(pkt)).taken == s.taken
  {
  }

  lemma {:induction false} ArrivedGrows<T(!new)>(s: State<T>, steps: seq<Step<T>>, t: State<T>)
    requires Run(s, steps, t)
    ensures s.arrived <= t.arrived
    decreases |steps|
  {
    if steps != [] {
      ArrivedGrows(Apply(s, steps[0]), steps[1..], t);
    }
  }

  lemma SameCounts<T(!new)>(a: multiset<T>, b: multiset<T>)
    requires forall x :: a[x] == b[x]
    ensures a == b
  {
  }

  lemma OfIncoming<T(!new)>(before: seq<Packet<T>>, incoming: seq<Packet<T>>, sid: nat, responses: seq<Packet<T>>, others: seq<Packet<T>>)
    requires multiset(incoming) == multiset(responses) + multiset(others)
    requires (forall p :: p in responses ==> p.sid == Some(sid)) && forall p :: p in others ==> !IsFor(p, sid)
    ensures multiset(Of(before + incoming, sid)) == multiset(Of(before, sid)) + multiset(responses)
  {
    hide Of;
    var after: multiset<Packet<T>>, wanted: multiset<Packet<T>> :=
      multiset(Of(before + incoming, sid)), multiset(Of(before, sid)) + multiset(responses);
    forall p: Packet<T>
      ensures after[p] == wanted[p]
    {
      OfCounts(before + incoming, sid, p);
      OfCounts(before, sid, p);
      assert multiset(incoming)[p] == multiset(responses)[p] + multiset(others)[p];
      assert p in multiset(responses) ==> p in responses;
      assert p in multiset(others) ==> p in others;
      assert multiset(before + incoming)[p] == multiset(before)[p] + multiset(incoming)[p];
    }
    SameCounts(after, wanted);
  }

  /** A tagged burst: responses that keep the uids of its requests and the session set by SendTaggedBurst,
      arriving in any order among packets for other sessions, are what reading as many from that session
      returns, in request order. */
  lemma TaggedBurstComesBack<T(!new)>(s: State<T>, steps: seq<Step<T>>, t: State<T>, sid: nat, burst: seq<Packet<T>>,
                                      responses: seq<Packet<T>>, others: seq<Packet<T>>)
    requires Inv(s) && sid < |s.lists| && s.lists[sid] == [] && Run(s, steps, t) && LeavesAlone(steps, sid)
    requires Increasing(burst) && |responses| == |burst|
    requires forall k :: 0 <= k < |burst| ==> responses[k].uid == burst[k].uid && responses[k].sid == Some(sid)
    requires forall p :: p in others ==> p.sid != Some(sid) && (sid == 0 ==> p.sid != None)
    requires |s.arrived| <= |t.arrived| && multiset(t.arrived[|s.arrived|..]) == multiset(responses) + multiset(others)
    ensures sid < |t.lists| == |t.taken| && t.lists[sid] == responses && Enabled(t, Take(sid, |burst|))
    ensures var u := Apply(t, Take(sid, |burst|)); u.taken[sid] == t.taken[sid] + responses && u.lists[sid] == []
  {
    ArrivedGrows(s, steps, t);
    assert t.arrived == s.arrived + t.arrived[|s.arrived|..];
    OfIncoming(s.arrived, t.arrived[|s.arrived|..], sid, responses, others);
    SessionBurstInOrder(s, steps, t, sid, responses);
  }

  /** The first half of a tagged burst: every packet gets the session, then they go out back to front. */
  method SendTaggedBurst<T>(sid: nat, burst: seq<Packet<T>>) returns (sent: seq<Packet<T>>)
    ensures |sent| == |burst|
    ensures forall k :: 0 <= k < |burst| ==> sent[k] == burst[|burst| - 1 - k].(sid := Some(sid))
  {
    var pktBurst := burst;
    for i := 0 to |burst|
      invariant |pktBurst| == |burst| && forall k :: 0 <= k < |burst| ==> pktBurst[k] == if k < i then burst[k].(sid := Some(sid)) else burst[k]
    {
      pktBurst := pktBurst[i := pktBurst[i].(sid := Some(sid))];
    }
    sent := SendBurst(pktBurst);
    ReversedSame(pktBurst);
  }
}
