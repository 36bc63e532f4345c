/** What the DMA network promises its users, for every run from a fresh network. */
module NDmaResults {
  import opened Memory
  import opened Wrappers
  import opened NDma
  import opened NDmaNetwork
  import opened NDmaInvariant
  import opened NDmaSafety

  // ------------------------------------------------------------ answers

  lemma Unanswered(s: State, x: nat)
    requires x in s.packets && PacketOk(s, x, s.packets[x])
    ensures x < |s.transfers| && s.transfers[x].answers == []
  {
  }

  lemma AnswersOf(s: State, x: nat)
    requires Inv(s) && x < |s.transfers|
    ensures var tr := s.transfers[x]; tr.answers == if x in s.packets then [] else [Reply(tr.origin, tr.req)]
  {
    hide PacketOk, SlotsOk, EnginesOk, Replay, MemoryOk, Wired;
    if x in s.packets {
      PacketOf(s, x);
      Unanswered(s, x);
    }
  }

  /** A transfer is in flight and unanswered, or its initiator was sent exactly one packet: by its own node,
      and equal to the request it submitted. */
  lemma AnsweredOnce(s: State, steps: seq<Step>, r: Result, x: nat)
    requires Init(s) && Run(s, steps, r) && r.Ok? && x < |r.state.transfers|
    ensures var tr := r.state.transfers[x]; tr.answers == if x in r.state.packets then [] else [Reply(tr.origin, tr.req)]
  {
    hide Init, Run, Inv;
    NeverPanics(s, steps, r);
    AnswersOf(r.state, x);
  }

  // ------------------------------------------------------------ copies

  /** Replay before event `i + 1` is the memory after event `i`. */
  lemma ReplayStep(init: seq<seq<Byte>>, log: seq<Event>, i: nat)
    requires i < |log| && EventOk(init, log, i) && log[i].cmd.Write?
    ensures var e, after := log[i], Replay(init, log[..i + 1]);
      && e.node < |after| && e.addr + |e.bytes| <= |after[e.node]|
      && after[e.node][e.addr..e.addr + |e.bytes|] == e.bytes
  {
    var e, before := log[i], Replay(init, log[..i]);
    assert log[..i + 1][..i] == log[..i];
    var m := Overwrite(before[e.node], e.addr, e.bytes);
    assert m[e.addr..e.addr + |e.bytes|] == e.bytes;
  }

  /** The bytes at `addr` of node `n` after the first `i` events. */
  ghost predicate Held(s: State, i: nat, n: NodeId, addr: nat, bytes: seq<Byte>) {
    && i <= |s.log|
    && var mem := Replay(s.init, s.log[..i]);
    n < |mem| && addr + |bytes| <= |mem[n]| && mem[n][addr..addr + |bytes|] == bytes
  }

  /** Once answered, a transfer has put at its destination, in one write, the very bytes that its
      source held at its one earlier read: local or remote, overlapping or not, and whatever other
      transfers did in between. */
  lemma AnsweredMeansCopied(s: State, steps: seq<Step>, r: Result, x: nat)
    requires Init(s) && Run(s, steps, r) && r.Ok? && x < |r.state.transfers| && r.state.transfers[x].answers != []
    ensures var t, tr := r.state, r.state.transfers[x];
      && tr.readAt.Some? && tr.writtenAt.Some? && tr.readAt.value < tr.writtenAt.value < |t.log|
      && var bytes := t.log[tr.readAt.value].bytes;
      && |bytes| == tr.req.len
      && Held(t, tr.readAt.value, tr.req.readNode, tr.req.readAddr, bytes)
      && Held(t, tr.writtenAt.value + 1, tr.req.writeNode, tr.req.writeAddr, bytes)
  {
    hide Init, Run, PacketOk, SlotsOk, EnginesOk, Replay;
    NeverPanics(s, steps, r);
    var t, tr := r.state, r.state.transfers[x];
    AnsweredOnce(s, steps, r, x);
    assert Copied(t.log, tr);
    assert EventOk(t.init, t.log, tr.readAt.value);
    assert EventOk(t.init, t.log, tr.writtenAt.value);
    ReplayStep(t.init, t.log, tr.writtenAt.value);
  }

  /** Event `e` does not write into the `len` bytes at `addr` of node `n`. */
  predicate Spares(e: Event, n: NodeId, addr: nat, len: nat) {
    e.cmd.Read? || e.node != n || e.addr + |e.bytes| <= addr || addr + len <= e.addr
  }

  lemma {:induction false} SparedStays(s: State, i: nat, j: nat, n: NodeId, addr: nat, bytes: seq<Byte>)
    requires i <= j <= |s.log| && Held(s, i, n, addr, bytes)
    requires forall k :: 0 <= k < |s.log| ==> EventOk(s.init, s.log, k)
    requires forall k :: i <= k < j ==> Spares(s.log[k], n, addr, |bytes|)
    ensures Held(s, j, n, addr, bytes)
    decreases j - i
  {
    if i < j {
      SparedStays(s, i, j - 1, n, addr, bytes);
      var before, e := Replay(s.init, s.log[..j - 1]), s.log[j - 1];
      assert s.log[..j][..j - 1] == s.log[..j - 1];
      assert EventOk(s.init, s.log, j - 1) && Spares(e, n, addr, |bytes|);
      var after := Replay(s.init, s.log[..j]);
      assert forall b :: addr <= b < addr + |bytes| ==> after[n][b] == before[n][b] == bytes[b - addr];
    }
  }

  /** The copy is in the memory of the destination for as long as no later write touches it. */
  lemma CopyStays(s: State, steps: seq<Step>, r: Result, x: nat)
    requires Init(s) && Run(s, steps, r) && r.Ok? && x < |r.state.transfers| && r.state.transfers[x].answers != []
    requires var t, tr := r.state, r.state.transfers[x]; tr.writtenAt.Some? && forall k :: tr.writtenAt.value < k < |t.log| ==>
      Spares(t.log[k], tr.req.writeNode, tr.req.writeAddr, tr.req.len)
    ensures var t, tr := r.state, r.state.transfers[x];
      && tr.readAt.Some? && tr.readAt.value < |t.log| && tr.req.writeNode < |t.nodes|
      && tr.req.writeAddr + tr.req.len <= |t.nodes[tr.req.writeNode].memory|
      && t.nodes[tr.req.writeNode].memory[tr.req.writeAddr..tr.req.writeAddr + tr.req.len] == t.log[tr.readAt.value].bytes
  {
    hide Init, Run, PacketsOk, SlotsOk, EnginesOk, TransfersOk, Replay, EventOk;
    NeverPanics(s, steps, r);
    AnsweredMeansCopied(s, steps, r, x);
    var t, tr := r.state, r.state.transfers[x];
    SparedStays(t, tr.writtenAt.value + 1, |t.log|, tr.req.writeNode, tr.req.writeAddr, t.log[tr.readAt.value].bytes);
    assert t.log[..|t.log|] == t.log;
  }

  // ------------------------------------------------------------ whose event

  /** Event `i` of the log is the read or the write of transfer `x`. */
  predicate Owns(s: State, x: nat, i: nat) {
    x < |s.transfers| && (s.transfers[x].readAt == Some(i) || s.transfers[x].writtenAt == Some(i))
  }

  ghost predicate Owned(s: State, i: nat) { exists x :: Owns(s, x, i) }

  predicate InLog(s: State, at: Option<nat>, cmd: Command) {
    at.Some? ==> at.value < |s.log| && s.log[at.value].cmd == cmd
  }

  /** Every event is somebody's, and nobody's twice. */
  ghost predicate LogOwned(s: State) {
    && (forall i :: 0 <= i < |s.log| ==> Owned(s, i))
    && (forall x :: 0 <= x < |s.transfers| ==> InLog(s, s.transfers[x].readAt, Read) && InLog(s, s.transfers[x].writtenAt, Write))
    && (forall x, y, i :: Owns(s, x, i) && Owns(s, y, i) ==> x == y)
  }

  /** The events and their transfers are as before; new transfers have none. */
  ghost predicate SameEvents(s: State, t: State) {
    && t.log == s.log && |s.transfers| <= |t.transfers|
    && (forall x :: 0 <= x < |s.transfers| ==> t.transfers[x].readAt == s.transfers[x].readAt && t.transfers[x].writtenAt == s.transfers[x].writtenAt)
    && (forall x :: |s.transfers| <= x < |t.transfers| ==> t.transfers[x].readAt.None? && t.transfers[x].writtenAt.None?)
  }

  lemma EmittedSameEvents(s: State, n: NodeId, x: nat, r: Reaction)
    requires n < |s.nodes| && Emitted(s, n, x, r).Ok?
    ensures SameEvents(s, Emitted(s, n, x, r).state)
  {
  }

  lemma OtherStepsSameEvents(s: State, step: Step)
    requires Enabled(s, step) && Apply(s, step).Ok? && !step.Serve?
    ensures SameEvents(s, Apply(s, step).state)
  {
    hide AcceptRequest, AcceptExternal, MemLayer, EgressLayer, Emitted;
    match step
    case Submit(n, req) =>
      var e := s.nodes[n].engine;
      var s1 := s.(transfers := s.transfers + [Transfer(n, e.reqToken.value, req, None, None, [])]);
      EmittedSameEvents(s1, n, |s.transfers|, AcceptRequest(e, n, req, |s.transfers|));
    case Ingress(x) =>
      var n := s.packets[x].place.n;
      EmittedSameEvents(s, n, x, AcceptExternal(s.nodes[n].engine, s.packets[x].header, s.packets[x].mem, x));
    case MemResponse(x) =>
      var n := s.packets[x].place.n;
      EmittedSameEvents(s, n, x, MemLayer(s.nodes[n].engine, n, s.packets[x].mem));
    case Egress(x) =>
      var n := s.packets[x].place.n;
      EmittedSameEvents(s, n, x, EgressLayer(s.nodes[n].engine, n, s.packets[x].header, s.packets[x].mem));
    case _ =>
  }

  lemma SameEventsOwned(s: State, t: State)
    requires LogOwned(s) && SameEvents(s, t)
    ensures LogOwned(t)
  {
    forall i | 0 <= i < |t.log|
      ensures Owned(t, i)
    {
      assert Owned(s, i);
      var x :| Owns(s, x, i);
      assert Owns(t, x, i);
    }
    forall x, y, i | Owns(t, x, i) && Owns(t, y, i)
      ensures x == y
    {
      assert Owns(s, x, i) && Owns(s, y, i);
    }
  }

  /** The memory logs the one access of the packet's transfer that it is at. */
  lemma ServeOwned(s: State, x: nat)
    requires LogOwned(s) && x in s.packets && s.packets[x].place.AtMem? && ServeMem(s, x).Ok?
    requires x < |s.transfers| && (if s.packets[x].mem.cmd.Read? then s.transfers[x].readAt.None? else s.transfers[x].writtenAt.None?)
    ensures LogOwned(ServeMem(s, x).state)
  {
    var t := ServeMem(s, x).state;
    var last := |s.log|;
    forall i | 0 <= i < |t.log|
      ensures Owned(t, i)
    {
      if i == last {
        assert Owns(t, x, i);
      } else {
        assert Owned(s, i);
        var y :| Owns(s, y, i);
        assert Owns(t, y, i);
      }
    }
    forall y, z, i | Owns(t, y, i) && Owns(t, z, i)
      ensures y == z
    {
      assert i == last || (Owns(s, y, i) && Owns(s, z, i));
    }
  }

  lemma ServeFindsNone(s: State, x: nat)
    requires x in s.packets && s.packets[x].place.AtMem? && PacketOk(s, x, s.packets[x])
    ensures x < |s.transfers| && (if s.packets[x].mem.cmd.Read? then s.transfers[x].readAt.None? else s.transfers[x].writtenAt.None?)
  {
  }

  lemma StepKeepsOwned(s: State, step: Step)
    requires Inv(s) && LogOwned(s) && Enabled(s, step) && Apply(s, step).Ok?
    ensures LogOwned(Apply(s, step).state)
  {
    if step.Serve? {
      PacketOf(s, step.x);
      hide Inv;
      ServeFindsNone(s, step.x);
      hide PacketOk, ServeMem, LogOwned;
      ServeOwned(s, step.x);
    } else {
      hide Inv;
      OtherStepsSameEvents(s, step);
      hide Apply, LogOwned;
      SameEventsOwned(s, Apply(s, step).state);
    }
  }

  lemma {:induction false} AlwaysOwned(s: State, steps: seq<Step>, r: Result)
    requires Inv(s) && LogOwned(s) && Run(s, steps, r) && r.Ok?
    ensures LogOwned(r.state)
    decreases |steps|
  {
    hide Inv, LogOwned, Apply, Enabled;
    if steps != [] {
      StepKeepsInv(s, steps[0]);
      StepKeepsOwned(s, steps[0]);
      AlwaysOwned(Apply(s, steps[0]).state, steps[1..], r);
    }
  }

  lemma InitOwned(s: State)
    requires Init(s)
    ensures LogOwned(s)
  {
  }

  /** Every access to a memory was made for exactly one transfer. */
  lemma AccessesAreTransfers(s: State, steps: seq<Step>, r: Result, i: nat)
    requires Init(s) && Run(s, steps, r) && r.Ok? && i < |r.state.log|
    ensures exists x :: Owns(r.state, x, i)
    ensures forall x, y :: Owns(r.state, x, i) && Owns(r.state, y, i) ==> x == y
  {
    InitInv(s);
    InitOwned(s);
    hide Init, Run, Inv;
    AlwaysOwned(s, steps, r);
    assert Owned(r.state, i);
  }

  /** And an answered transfer made exactly two of them: one read and, later, one write. */
  lemma AnsweredAccessesTwice(s: State, steps: seq<Step>, r: Result, x: nat)
    requires Init(s) && Run(s, steps, r) && r.Ok? && x < |r.state.transfers| && r.state.transfers[x].answers != []
    ensures var t, tr := r.state, r.state.transfers[x];
      && tr.readAt.Some? && tr.writtenAt.Some? && tr.readAt.value < tr.writtenAt.value < |t.log|
      && (forall i :: 0 <= i < |t.log| ==> (Owns(t, x, i) && t.log[i].cmd.Read? <==> i == tr.readAt.value))
      && (forall i :: 0 <= i < |t.log| ==> (Owns(t, x, i) && t.log[i].cmd.Write? <==> i == tr.writtenAt.value))
  {
    AnsweredMeansCopied(s, steps, r, x);
    InitInv(s);
    InitOwned(s);
    hide Init, Run, Inv;
    AlwaysOwned(s, steps, r);
  }

  // ------------------------------------------------------------ tokens

  /** In every reachable state the tokens of each node are partitioned into free, reserved and
      occupied; the stack of every packet is exactly its initiator's token, plus, inside another
      node, a server token; and these name the slots of that very transfer. */
  lemma TokensNameTheirSlots(s: State, steps: seq<Step>, r: Result, x: nat)
    requires Init(s) && Run(s, steps, r) && r.Ok? && x in r.state.packets
    ensures var t := r.state; forall n :: 0 <= n < |t.nodes| ==> Partitioned(t.nodes[n].engine)
    ensures x < |r.state.transfers|
    ensures var t, tr, stack := r.state, r.state.transfers[x], r.state.packets[x].mem.stack;
      && 1 <= |stack| <= 2 && stack[0] == tr.token && tr.origin < |t.nodes|
      && tr.token < |Store(t, tr.origin)| && Store(t, tr.origin)[tr.token] == Local(tr.req, x)
      && (|stack| == 2 <==> Inside(t.packets[x].place) && t.packets[x].place.n != tr.origin)
      && (|stack| == 2 ==> var n := t.packets[x].place.n;
            n < |t.nodes| && stack[1] < |Store(t, n)| && Store(t, n)[stack[1]] == External(tr.origin, n, x))
  {
    hide Init, Run, SlotsOk, MemoryOk, TransfersOk, PacketOk, Partitioned, Wired;
    NeverPanics(s, steps, r);
    PacketOf(r.state, x);
    TokensOfPacket(r.state, x);
  }

  lemma TokensOfPacket(t: State, x: nat)
    requires x in t.packets && PacketOk(t, x, t.packets[x])
    ensures x < |t.transfers|
    ensures var tr, stack := t.transfers[x], t.packets[x].mem.stack;
      && 1 <= |stack| <= 2 && stack[0] == tr.token && tr.origin < |t.nodes|
      && tr.token < |Store(t, tr.origin)| && Store(t, tr.origin)[tr.token] == Local(tr.req, x)
      && (|stack| == 2 <==> Inside(t.packets[x].place) && t.packets[x].place.n != tr.origin)
      && (|stack| == 2 ==> var n := t.packets[x].place.n;
            n < |t.nodes| && stack[1] < |Store(t, n)| && Store(t, n)[stack[1]] == External(tr.origin, n, x))
  {
    hide StageOk;
  }

  /** On the memory side of a node. */
  predicate Inside(p: Place) { p.AtMem? || p.FromMem? }

  /** No two packets share a slot: the slot of a token belongs to one transfer. */
  lemma NoTokenShared(s: State, steps: seq<Step>, r: Result, x: nat, y: nat)
    requires Init(s) && Run(s, steps, r) && r.Ok? && x in r.state.packets && y in r.state.packets && x != y
    ensures x < |r.state.transfers| && y < |r.state.transfers|
    ensures r.state.transfers[x].origin == r.state.transfers[y].origin ==> r.state.transfers[x].token != r.state.transfers[y].token
    ensures |r.state.packets[x].mem.stack| == 2 && |r.state.packets[y].mem.stack| == 2 && Inside(r.state.packets[x].place) &&
            Inside(r.state.packets[y].place) && r.state.packets[x].place.n == r.state.packets[y].place.n ==>
              r.state.packets[x].mem.stack[1] != r.state.packets[y].mem.stack[1]
  {
    hide Inv, Init, Run;
    TokensNameTheirSlots(s, steps, r, x);
    TokensNameTheirSlots(s, steps, r, y);
  }

  /** When nothing is in flight every slot is empty: its token is free or reserved, none is lost. */
  lemma IdleMeansAllTokensBack(s: State, steps: seq<Step>, r: Result, n: NodeId, k: nat)
    requires Init(s) && Run(s, steps, r) && r.Ok? && r.state.packets == map[]
    requires n < |r.state.nodes| && k < |Store(r.state, n)|
    ensures var e := r.state.nodes[n].engine; k in e.avail || e.reqToken == Some(k) || e.ingToken == Some(k)
  {
    hide Init, Run, Replay, MemoryOk, TransfersOk, PacketsOk;
    NeverPanics(s, steps, r);
    assert SlotOk(r.state, n, k) && Partitioned(r.state.nodes[n].engine);
  }

  // ------------------------------------------------------------ progress

  /** Packet steps left on the present leg, and on the write leg still to come. */
  function Remaining(tr: Transfer, p: Packet): nat {
    var leg := match p.place
      case AtMem(n) => if n == tr.origin then 2 else 4
      case FromMem(n) => if n == tr.origin then 1 else 3
      case Outbound(_) => 6
      case Inbound(_) => 5
      case Backward(_) => 2
      case Returned(_) => 1;
    leg + if p.mem.cmd.Write? then 0 else if tr.req.writeNode == tr.origin then 2 else 6
  }

  function Left(s: State, x: nat): nat {
    if x in s.packets && x < |s.transfers| then Remaining(s.transfers[x], s.packets[x]) else 0
  }

  function Moved(step: Step): Option<nat> {
    match step
    case ReserveRequest(_) => None
    case Submit(_, _) => None
    case ReserveIngress(_) => None
    case Ingress(x) => Some(x)
    case Serve(x) => Some(x)
    case MemResponse(x) => Some(x)
    case Egress(x) => Some(x)
    case SwitchForward(x) => Some(x)
    case SwitchBackward(x) => Some(x)
  }

  lemma EmittedLeaves(s: State, n: NodeId, y: nat, r: Reaction, x: nat)
    requires n < |s.nodes| && Emitted(s, n, y, r).Ok? && x < |s.transfers| && x != y
    ensures var t := Emitted(s, n, y, r).state; x < |t.transfers| && Left(t, x) == Left(s, x)
  {
    hide Remaining;
  }

  lemma SubmitLeaves(s: State, n: NodeId, req: Dma, x: nat)
    requires Enabled(s, Submit(n, req)) && Apply(s, Submit(n, req)).Ok? && x < |s.transfers|
    ensures var t := Apply(s, Submit(n, req)).state; x < |t.transfers| && Left(t, x) == Left(s, x)
  {
    hide Remaining, AcceptRequest, Emitted;
    var e := s.nodes[n].engine;
    var s1 := s.(transfers := s.transfers + [Transfer(n, e.reqToken.value, req, None, None, [])]);
    assert Left(s1, x) == Left(s, x);
    EmittedLeaves(s1, n, |s.transfers|, AcceptRequest(e, n, req, |s.transfers|), x);
  }

  lemma OtherStepsLeave(s: State, step: Step, x: nat)
    requires Enabled(s, step) && Apply(s, step).Ok? && x < |s.transfers| && Moved(step) != Some(x)
    ensures var t := Apply(s, step).state; x < |t.transfers| && Left(t, x) == Left(s, x)
  {
    hide AcceptRequest, AcceptExternal, ForwardResponse, Remaining, Emitted;
    match step
    case Submit(n, req) => SubmitLeaves(s, n, req, x);
    case Ingress(y) =>
      var n := s.packets[y].place.n;
      EmittedLeaves(s, n, y, AcceptExternal(s.nodes[n].engine, s.packets[y].header, s.packets[y].mem, y), x);
    case MemResponse(y) =>
      var n := s.packets[y].place.n;
      EmittedLeaves(s, n, y, MemLayer(s.nodes[n].engine, n, s.packets[y].mem), x);
    case Egress(y) =>
      var n := s.packets[y].place.n;
      EmittedLeaves(s, n, y, EgressLayer(s.nodes[n].engine, n, s.packets[y].header, s.packets[y].mem), x);
    case _ =>
  }

  lemma ResponseStep(s: State, x: nat, n: NodeId)
    requires x in s.packets && PacketOk(s, x, s.packets[x]) && n < |s.nodes|
    requires s.packets[x].place == FromMem(n) || s.packets[x].place == Returned(n)
    requires Emitted(s, n, x, ForwardResponse(s.nodes[n].engine, n, s.packets[x].mem)).Ok?
    ensures var t := Emitted(s, n, x, ForwardResponse(s.nodes[n].engine, n, s.packets[x].mem)).state;
      Left(s, x) == Left(t, x) + 1
  {
    var stack := s.packets[x].mem.stack;
    assert n == s.transfers[x].origin ==> stack == [s.transfers[x].token];
  }

  /** Every step on a packet brings its answer exactly one step nearer. */
  lemma PacketStepsCountDown(s: State, step: Step, x: nat)
    requires Inv(s) && Enabled(s, step) && Apply(s, step).Ok? && Moved(step) == Some(x)
    ensures Left(s, x) == Left(Apply(s, step).state, x) + 1
  {
    hide Inv;
    InvParts(s, x);
    var p := s.packets[x];
    match step
    case Ingress(_) =>
      hide ForwardResponse;
    case Serve(_) =>
      hide ForwardResponse;
    case MemResponse(_) =>
      ResponseStep(s, x, p.place.n);
    case Egress(_) =>
      ResponseStep(s, x, p.place.n);
    case SwitchForward(_) =>
      hide ForwardResponse;
    case SwitchBackward(_) =>
      hide ForwardResponse;
  }

  function Moves(steps: seq<Step>, x: nat): nat {
    if steps == [] then 0 else (if Moved(steps[0]) == Some(x) then 1 else 0) + Moves(steps[1..], x)
  }

  /** Along any run, the steps taken for a transfer are exactly the steps it needs less. */
  lemma {:induction false} StepsAreCounted(s: State, steps: seq<Step>, r: Result, x: nat)
    requires Inv(s) && Run(s, steps, r) && r.Ok? && x < |s.transfers|
    ensures x < |r.state.transfers| && Moves(steps, x) + Left(r.state, x) == Left(s, x)
    ensures r.state.transfers[x].origin == s.transfers[x].origin && r.state.transfers[x].req == s.transfers[x].req
    decreases |steps|
  {
    hide Inv, Apply, Enabled, Left;
    if steps != [] {
      StepKeepsInv(s, steps[0]);
      var t := Apply(s, steps[0]).state;
      StillThere(s, steps[0], x);
      if Moved(steps[0]) == Some(x) {
        PacketStepsCountDown(s, steps[0], x);
      } else {
        OtherStepsLeave(s, steps[0], x);
      }
      StepsAreCounted(t, steps[1..], r, x);
    }
  }

  function Leg(a: NodeId, b: NodeId): nat { if a == b then 2 else 6 }

  lemma SubmittedNeeds(s: State, n: NodeId, req: Dma)
    requires Inv(s) && Enabled(s, Submit(n, req)) && Apply(s, Submit(n, req)).Ok?
    ensures var t, x := Apply(s, Submit(n, req)).state, |s.transfers|;
      && x < |t.transfers| && t.transfers[x].origin == n && t.transfers[x].req == req
      && x in t.packets && Left(t, x) == Leg(n, req.readNode) + Leg(n, req.writeNode)
  {
  }

  /** The initiator is answered, with the very request it submitted, exactly when the transfer has taken the
      steps of its read leg and of its write leg: two for a leg at home, six for one at another node. */
  lemma AnswerTakesTwoLegs(s: State, n: NodeId, req: Dma, steps: seq<Step>, r: Result)
    requires Inv(s) && Enabled(s, Submit(n, req)) && Apply(s, Submit(n, req)).Ok?
    requires Run(Apply(s, Submit(n, req)).state, steps, r)
    ensures var x, needed := |s.transfers|, Leg(n, req.readNode) + Leg(n, req.writeNode);
      && r.Ok? && x < |r.state.transfers| && Moves(steps, x) <= needed
      && (x !in r.state.packets <==> Moves(steps, x) == needed)
      && r.state.transfers[x].answers == (if Moves(steps, x) == needed then [Reply(n, req)] else [])
  {
    hide Inv, Run, Apply, Enabled;
    SubmittedNeeds(s, n, req);
    StepKeepsInv(s, Submit(n, req));
    AlwaysInv(Apply(s, Submit(n, req)).state, steps, r);
    StepsAreCounted(Apply(s, Submit(n, req)).state, steps, r, |s.transfers|);
    AnswersOf(r.state, |s.transfers|);
  }

  lemma StillThere(s: State, step: Step, x: nat)
    requires Enabled(s, step) && Apply(s, step).Ok? && x < |s.transfers|
    ensures var t := Apply(s, step).state;
      x < |t.transfers| && t.transfers[x].origin == s.transfers[x].origin && t.transfers[x].req == s.transfers[x].req
  {
    hide AcceptRequest, AcceptExternal, ForwardResponse;
  }

  /** The one step that takes a packet on from where it is. */
  function StepFrom(place: Place, x: nat): Step {
    match place
    case AtMem(_) => Serve(x)
    case FromMem(_) => MemResponse(x)
    case Outbound(_) => SwitchForward(x)
    case Inbound(_) => Ingress(x)
    case Backward(_) => SwitchBackward(x)
    case Returned(_) => Egress(x)
  }

  lemma OnlyStepFrom(s: State, step: Step, x: nat)
    requires x in s.packets && Moved(step) == Some(x) && Enabled(s, step)
    ensures step == StepFrom(s.packets[x].place, x)
  {
  }

  lemma InboundIsNode(s: State, x: nat)
    requires x in s.packets && PacketOk(s, x, s.packets[x]) && s.packets[x].place.Inbound?
    ensures s.packets[x].place.n < |s.nodes|
  {
    hide StageOk;
  }

  /** A packet is never stuck, except in front of a node whose ingress layer has no token. */
  lemma PacketsCanMove(s: State, steps: seq<Step>, r: Result, x: nat)
    requires Init(s) && Run(s, steps, r) && r.Ok? && x in r.state.packets
    ensures var t := r.state; (exists step :: Moved(step) == Some(x) && Enabled(t, step)) <==>
      !(t.packets[x].place.Inbound? && t.packets[x].place.n < |t.nodes| && t.nodes[t.packets[x].place.n].engine.ingToken.None?)
  {
    hide Init, Run, SlotsOk, MemoryOk, TransfersOk, EnginesOk, PacketOk, Wired;
    NeverPanics(s, steps, r);
    PacketOf(r.state, x);
    hide Inv;
    var t, p := r.state, r.state.packets[x];
    var step := StepFrom(p.place, x);
    assert Moved(step) == Some(x);
    if p.place.Inbound? {
      InboundIsNode(t, x);
    }
    forall other | Moved(other) == Some(x) && Enabled(t, other)
      ensures other == step
    {
      OnlyStepFrom(t, other, x);
    }
  }
}
