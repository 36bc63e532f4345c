/** What holds of the DMA network in every reachable state: tokens are conserved, each packet's
    return-path stack names exactly the right slots, and no layer panics. */
module NDmaInvariant {
  import opened Memory
  import opened Wrappers
  import opened NDma
  import opened NDmaNetwork

  function Store(s: State, n: NodeId): seq<Slot>
    requires n < |s.nodes|
  {
    s.nodes[n].engine.store
  }

  function Target(req: Dma, cmd: Command): NodeId { if cmd.Read? then req.readNode else req.writeNode }

  function TargetAddr(req: Dma, cmd: Command): nat { if cmd.Read? then req.readAddr else req.writeAddr }

  /** The log holds the transfer's read, which saw `d`. */
  predicate ReadDone(log: seq<Event>, t: Transfer, d: seq<Byte>) {
    && t.readAt.Some? && t.readAt.value < |log| && |d| == t.req.len
    && log[t.readAt.value] == Event(Read, t.req.readNode, t.req.readAddr, d)
  }

  /** Later than its read, the log holds the transfer's write of `d`. */
  predicate WriteDone(log: seq<Event>, t: Transfer, d: seq<Byte>) {
    && t.readAt.Some? && t.writtenAt.Some? && t.readAt.value < t.writtenAt.value < |log|
    && log[t.writtenAt.value] == Event(Write, t.req.writeNode, t.req.writeAddr, d)
  }

  predicate StageOk(log: seq<Event>, t: Transfer, m: MemBus) {
    match (m.cmd, m.mode)
    case (Read, Request) => t.readAt.None? && t.writtenAt.None? && m.data == []
    case (Read, Response) => ReadDone(log, t, m.data) && t.writtenAt.None?
    case (Write, Request) => ReadDone(log, t, m.data) && t.writtenAt.None?
    case (Write, Response) => ReadDone(log, t, m.data) && WriteDone(log, t, m.data)
  }

  /** Inside node `n`: just the initiator's token there, plus the server's token elsewhere. */
  predicate StackAt(s: State, x: nat, t: Transfer, n: NodeId, stack: seq<nat>)
    requires n < |s.nodes|
  {
    if n == t.origin then stack == [t.token]
    else
      && |stack| == 2 && stack[0] == t.token && stack[1] < |Store(s, n)|
      && Store(s, n)[stack[1]] == External(t.origin, n, x)
  }

  predicate PlaceOk(s: State, x: nat, t: Transfer, p: Packet) {
    var target := Target(t.req, p.mem.cmd);
    var abroad := target != t.origin && p.mem.stack == [t.token] && p.header.from == t.origin && p.header.to == target;
    match p.place
    case AtMem(n) => n == target < |s.nodes| && p.mem.mode.Request? && StackAt(s, x, t, n, p.mem.stack)
    case FromMem(n) => n == target < |s.nodes| && p.mem.mode.Response? && StackAt(s, x, t, n, p.mem.stack)
    case Outbound(_) => abroad && p.mem.mode.Request?
    case Inbound(n) => abroad && p.mem.mode.Request? && n == target
    case Backward(_) => abroad && p.mem.mode.Response? && p.header.mode.Response?
    case Returned(n) => abroad && p.mem.mode.Response? && p.header.mode.Response? && n == t.origin
  }

  predicate PacketOk(s: State, x: nat, p: Packet) {
    && x < |s.transfers|
    && var t := s.transfers[x];
    && t.origin < |s.nodes| && t.token < |Store(s, t.origin)| && Store(s, t.origin)[t.token] == Local(t.req, x)
    && InRange(s, t.req) && t.answers == []
    && p.mem.len == t.req.len && p.mem.addr == TargetAddr(t.req, p.mem.cmd)
    && StageOk(s.log, t, p.mem)
    && PlaceOk(s, x, t, p)
  }

  ghost predicate PacketsOk(s: State) {
    forall x :: x in s.packets ==> PacketOk(s, x, s.packets[x])
  }

  /** Slot `k` of node `n` is owned by a packet in flight that carries its token. */
  predicate SlotOk(s: State, n: NodeId, k: nat)
    requires n < |s.nodes| && k < |Store(s, n)|
  {
    match Store(s, n)[k]
    case Empty => true
    case Local(_, x) =>
      x in s.packets && x < |s.transfers| && s.transfers[x].origin == n && s.transfers[x].token == k
    case External(_, _, x) =>
      && x in s.packets && (s.packets[x].place == AtMem(n) || s.packets[x].place == FromMem(n))
      && |s.packets[x].mem.stack| == 2 && s.packets[x].mem.stack[1] == k
  }

  ghost predicate SlotsOk(s: State) {
    forall n, k :: 0 <= n < |s.nodes| && 0 <= k < |Store(s, n)| ==> SlotOk(s, n, k)
  }

  ghost predicate EnginesOk(s: State) {
    forall n :: 0 <= n < |s.nodes| ==> Partitioned(s.nodes[n].engine)
  }

  /** An answered transfer read once and then wrote the very bytes it had read. */
  predicate Copied(log: seq<Event>, t: Transfer) {
    && t.readAt.Some? && t.readAt.value < |log|
    && ReadDone(log, t, log[t.readAt.value].bytes) && WriteDone(log, t, log[t.readAt.value].bytes)
  }

  /** The one answer of an answered transfer: sent by its own node, and the very request. */
  function Replied(t: Transfer): seq<Reply> { [Reply(t.origin, t.req)] }

  ghost predicate TransfersOk(s: State) {
    forall x :: 0 <= x < |s.transfers| && x !in s.packets ==> s.transfers[x].answers == Replied(s.transfers[x]) && Copied(s.log, s.transfers[x])
  }

  /** Each event saw or changed the memory as it was then. */
  ghost predicate EventOk(init: seq<seq<Byte>>, log: seq<Event>, i: nat)
    requires i < |log|
  {
    var before, e := Replay(init, log[..i]), log[i];
    && e.node < |before| && e.addr + |e.bytes| <= |before[e.node]|
    && (e.cmd.Read? ==> e.bytes == before[e.node][e.addr..e.addr + |e.bytes|])
  }

  ghost predicate MemoryOk(s: State) {
    && (forall i :: 0 <= i < |s.log| ==> EventOk(s.init, s.log, i))
    && |Replay(s.init, s.log)| == |s.nodes|
    && (forall n :: 0 <= n < |s.nodes| ==> s.nodes[n].memory == Replay(s.init, s.log)[n])
  }

  ghost predicate Inv(s: State) {
    Wired(s) && EnginesOk(s) && PacketsOk(s) && SlotsOk(s) && TransfersOk(s) && MemoryOk(s)
  }

  // ------------------------------------------------------------ frames

  function Owner(slot: Slot): Option<nat> {
    match slot
    case Empty => None
    case Local(_, x) => Some(x)
    case External(_, _, x) => Some(x)
  }

  /** From `s` to `t` only transfer `x` moved: other transfers, their slots and the past stay. */
  ghost predicate OnlyMoves(s: State, t: State, x: nat) {
    && |t.nodes| == |s.nodes| && |t.transfers| >= |s.transfers| && s.log <= t.log
    && (forall n :: 0 <= n < |s.nodes| ==> |t.nodes[n].memory| == |s.nodes[n].memory| && |Store(t, n)| == |Store(s, n)|)
    && (forall y :: 0 <= y < |s.transfers| && y != x ==> t.transfers[y] == s.transfers[y])
    && (forall n, k :: 0 <= n < |s.nodes| && 0 <= k < |Store(s, n)| ==>
          Store(t, n)[k] == Store(s, n)[k] || Owner(Store(s, n)[k]) in {None, Some(x)})
  }

  ghost predicate SameOthers(s: State, t: State, x: nat) {
    forall y: nat :: y != x ==> (y in t.packets <==> y in s.packets) && (y in s.packets ==> t.packets[y] == s.packets[y])
  }

  lemma LogPrefix(s: State, t: State, tr: Transfer, m: MemBus)
    requires s.log <= t.log
    ensures StageOk(s.log, tr, m) ==> StageOk(t.log, tr, m)
    ensures Copied(s.log, tr) ==> Copied(t.log, tr)
  {
    assert forall i :: 0 <= i < |s.log| ==> t.log[i] == s.log[i];
  }

  lemma OtherPacketOk(s: State, t: State, x: nat, y: nat)
    requires OnlyMoves(s, t, x) && y != x && y in s.packets && PacketOk(s, y, s.packets[y])
    ensures PacketOk(t, y, s.packets[y])
  {
    var p, tr := s.packets[y], s.transfers[y];
    LogPrefix(s, t, tr, p.mem);
    assert Store(t, tr.origin)[tr.token] == Store(s, tr.origin)[tr.token];
    if p.place.AtMem? || p.place.FromMem? {
      if p.place.n != tr.origin {
        var k := p.mem.stack[1];
        assert Store(t, p.place.n)[k] == Store(s, p.place.n)[k];
      }
    }
  }

  lemma OtherTransfersOk(s: State, t: State, x: nat)
    requires TransfersOk(s) && OnlyMoves(s, t, x)
    requires SameOthers(s, t, x)
    requires |t.transfers| <= |s.transfers| || (|t.transfers| == |s.transfers| + 1 && x == |s.transfers|)
    requires x in t.packets || (x < |t.transfers| && t.transfers[x].answers == Replied(t.transfers[x]) && Copied(t.log, t.transfers[x]))
    ensures TransfersOk(t)
  {
    forall y | 0 <= y < |t.transfers| && y !in t.packets
      ensures t.transfers[y].answers == Replied(t.transfers[y]) && Copied(t.log, t.transfers[y])
    {
      if y != x {
        LogPrefix(s, t, s.transfers[y], MemBus(Request, Read, 0, 0, [], []));
      }
    }
  }

  /** Packet `x` was rewritten to `p`, everything else about packets stays. */
  lemma MovedPackets(s: State, t: State, x: nat)
    requires PacketsOk(s) && OnlyMoves(s, t, x)
    requires SameOthers(s, t, x)
    requires x in t.packets ==> PacketOk(t, x, t.packets[x])
    ensures PacketsOk(t)
  {
    forall y | y in t.packets
      ensures PacketOk(t, y, t.packets[y])
    {
      if y != x {
        OtherPacketOk(s, t, x, y);
      }
    }
  }

  lemma MovedSlots(s: State, t: State, x: nat)
    requires SlotsOk(s) && PacketsOk(s) && OnlyMoves(s, t, x)
    requires SameOthers(s, t, x)
    requires forall n, k :: 0 <= n < |t.nodes| && 0 <= k < |Store(t, n)| && Store(t, n)[k] != Store(s, n)[k] ==>
      Owner(Store(t, n)[k]) in {None, Some(x)}
    requires forall n, k :: 0 <= n < |t.nodes| && 0 <= k < |Store(t, n)| && Owner(Store(t, n)[k]) == Some(x) ==> SlotOk(t, n, k)
    ensures SlotsOk(t)
  {
    forall n, k | 0 <= n < |t.nodes| && 0 <= k < |Store(t, n)|
      ensures SlotOk(t, n, k)
    {
      if Owner(Store(t, n)[k]) != Some(x) && !Store(t, n)[k].Empty? {
        assert Store(t, n)[k] == Store(s, n)[k];
        assert SlotOk(s, n, k);
      }
    }
  }

  /** After the step every slot that changed is free or owned by `x`, and those owned by `x` are right. */
  ghost predicate OwnSlotsOk(s: State, t: State, x: nat)
    requires |t.nodes| == |s.nodes| && forall n :: 0 <= n < |s.nodes| ==> |Store(t, n)| == |Store(s, n)|
  {
    && (forall n, k :: 0 <= n < |t.nodes| && 0 <= k < |Store(t, n)| && Store(t, n)[k] != Store(s, n)[k] ==>
          Owner(Store(t, n)[k]) in {None, Some(x)})
    && (forall n, k :: 0 <= n < |t.nodes| && 0 <= k < |Store(t, n)| && Owner(Store(t, n)[k]) == Some(x) ==> SlotOk(t, n, k))
  }

  /** Moving one transfer keeps the invariant when its own packet and slots are right after it. */
  lemma MoveKeepsInv(s: State, t: State, x: nat)
    requires Inv(s) && OnlyMoves(s, t, x) && SameOthers(s, t, x)
    requires t.wire == s.wire && t.portMap == s.portMap && t.log == s.log && t.init == s.init
    requires forall n :: 0 <= n < |s.nodes| ==> t.nodes[n].memory == s.nodes[n].memory
    requires EnginesOk(t)
    requires x in t.packets ==> PacketOk(t, x, t.packets[x])
    requires OwnSlotsOk(s, t, x)
    requires |t.transfers| <= |s.transfers| || (|t.transfers| == |s.transfers| + 1 && x == |s.transfers|)
    requires x in t.packets || (x < |t.transfers| && t.transfers[x].answers == Replied(t.transfers[x]) && Copied(t.log, t.transfers[x]))
    ensures Inv(t)
  {
    hide EnginesOk, Replay, PacketOk, SlotOk, EventOk;
    assert PacketsOk(t) by { MovedPackets(s, t, x); }
    assert SlotsOk(t) by { MovedSlots(s, t, x); }
    assert TransfersOk(t) by { OtherTransfersOk(s, t, x); }
  }

  /** Nobody owns a slot for a transfer that does not exist yet. */
  lemma NewIsNew(s: State)
    requires PacketsOk(s) && SlotsOk(s)
    ensures |s.transfers| !in s.packets
    ensures forall n, k :: 0 <= n < |s.nodes| && 0 <= k < |Store(s, n)| ==> Owner(Store(s, n)[k]) != Some(|s.transfers|)
  {
    assert |s.transfers| in s.packets ==> PacketOk(s, |s.transfers|, s.packets[|s.transfers|]);
    forall n, k | 0 <= n < |s.nodes| && 0 <= k < |Store(s, n)|
      ensures Owner(Store(s, n)[k]) != Some(|s.transfers|)
    {
      assert SlotOk(s, n, k);
    }
  }

  /** Slot `k` of node `n` is the initiator's slot of `x`, or the server slot its packet names. */
  predicate SlotFor(s: State, x: nat, n: NodeId, k: nat)
    requires n < |s.nodes| && k < |Store(s, n)| && x in s.packets && x < |s.transfers|
  {
    if Store(s, n)[k].Local? then n == s.transfers[x].origin && k == s.transfers[x].token
    else
      && (s.packets[x].place == AtMem(n) || s.packets[x].place == FromMem(n))
      && |s.packets[x].mem.stack| == 2 && s.packets[x].mem.stack[1] == k
  }

  lemma SlotsOf(s: State, x: nat)
    requires SlotsOk(s) && PacketsOk(s) && x in s.packets
    ensures x < |s.transfers|
    ensures forall n, k :: 0 <= n < |s.nodes| && 0 <= k < |Store(s, n)| && Owner(Store(s, n)[k]) == Some(x) ==> SlotFor(s, x, n, k)
  {
    assert PacketOk(s, x, s.packets[x]);
    forall n, k | 0 <= n < |s.nodes| && 0 <= k < |Store(s, n)| && Owner(Store(s, n)[k]) == Some(x)
      ensures SlotFor(s, x, n, k)
    {
      assert SlotOk(s, n, k);
    }
  }

  /** From `s` to `t` the engine of `n` became `e`, at most slot `k` changed, for transfer `x`. */
  ghost predicate EngineMove(s: State, t: State, n: NodeId, e: Engine, k: nat, x: nat) {
    && n < |s.nodes| && t.nodes == s.nodes[n := s.nodes[n].(engine := e)]
    && |e.store| == |Store(s, n)| && k < |e.store|
    && (forall j :: 0 <= j < |e.store| && j != k ==> e.store[j] == Store(s, n)[j])
    && Owner(Store(s, n)[k]) in {None, Some(x)}
    && (e.store[k] == Store(s, n)[k] || Owner(e.store[k]) in {None, Some(x)})
    && t.wire == s.wire && t.portMap == s.portMap && t.log == s.log && t.init == s.init
    && |t.transfers| >= |s.transfers|
    && (forall y :: 0 <= y < |s.transfers| && y != x ==> t.transfers[y] == s.transfers[y])
  }

  lemma EngineMoveFrames(s: State, t: State, n: NodeId, e: Engine, k: nat, x: nat)
    requires EnginesOk(s) && EngineMove(s, t, n, e, k, x) && Partitioned(e)
    ensures OnlyMoves(s, t, x) && EnginesOk(t)
    ensures forall m, j :: 0 <= m < |t.nodes| && 0 <= j < |Store(t, m)| && Store(t, m)[j] != Store(s, m)[j] ==>
      m == n && j == k && Owner(Store(t, m)[j]) in {None, Some(x)}
  {
    hide Partitioned;
  }

  // ------------------------------------------------------------ steps

  lemma ReserveKeepsInv(s: State, n: NodeId, forRequest: bool)
    requires Inv(s) && n < |s.nodes| && CanReserve(s.nodes[n].engine)
    requires if forRequest then s.nodes[n].engine.reqToken.None? else s.nodes[n].engine.ingToken.None?
    ensures var e := s.nodes[n].engine;
      Inv(SetEngine(s, n, if forRequest then PopToken(e).(reqToken := Some(TopToken(e))) else PopToken(e).(ingToken := Some(TopToken(e)))))
  {
    hide PacketOk, SlotOk, MemoryOk, TransfersOk;
    var e, x := s.nodes[n].engine, |s.transfers|;
    ReservePartitioned(e, forRequest);
    var e1 := if forRequest then PopToken(e).(reqToken := Some(TopToken(e))) else PopToken(e).(ingToken := Some(TopToken(e)));
    var t := SetEngine(s, n, e1);
    NewIsNew(s);
    var k := TopToken(e);
    assert k < |Store(s, n)| && Store(s, n)[k].Empty? by { assert Partitioned(e); }
    EngineMoveFrames(s, t, n, e1, k, x);
    hide Partitioned;
    ReserveRest(s, t, x);
  }

  /** When neither packets nor transfers move, nothing is left to check. */
  lemma ReserveRest(s: State, t: State, x: nat)
    requires Inv(s) && OnlyMoves(s, t, x) && x == |s.transfers| && EnginesOk(t)
    requires t == s.(nodes := t.nodes)
    requires forall n :: 0 <= n < |s.nodes| ==> t.nodes[n].memory == s.nodes[n].memory && Store(t, n) == Store(s, n)
    ensures Inv(t)
  {
    hide PacketOk, SlotOk, EventOk, Replay, Partitioned;
    NewIsNew(s);
    MovedPackets(s, t, x);
    MovedSlots(s, t, x);
  }

  /** The rest of a step that changed one engine, once its packet and its slots are known right. */
  lemma Finish(s: State, t: State, n: NodeId, e: Engine, k: nat, x: nat)
    requires Inv(s) && EngineMove(s, t, n, e, k, x) && Partitioned(e) && SameOthers(s, t, x)
    requires x in t.packets ==> PacketOk(t, x, t.packets[x])
    requires forall m, j :: 0 <= m < |t.nodes| && 0 <= j < |Store(t, m)| && Owner(Store(t, m)[j]) == Some(x) ==> SlotOk(t, m, j)
    requires |t.transfers| <= |s.transfers| || (|t.transfers| == |s.transfers| + 1 && x == |s.transfers|)
    requires x in t.packets || (x < |t.transfers| && t.transfers[x].answers == Replied(t.transfers[x]) && Copied(t.log, t.transfers[x]))
    ensures Inv(t)
  {
    hide PacketOk, SlotOk, Partitioned, MemoryOk, PacketsOk, SlotsOk, TransfersOk, SameOthers, Copied;
    EngineMoveFrames(s, t, n, e, k, x);
    assert forall m :: 0 <= m < |s.nodes| ==> t.nodes[m].memory == s.nodes[m].memory;
    assert OwnSlotsOk(s, t, x);
    MoveKeepsInv(s, t, x);
  }

  /** The state after node `n` accepted `req` as transfer `x` with `token`. */
  function Submitted(s: State, n: NodeId, req: Dma, token: nat, place: Place, h: Header): State
    requires n < |s.nodes| && token < |Store(s, n)|
  {
    var x := |s.transfers|;
    SetEngine(s, n, s.nodes[n].engine.(store := Store(s, n)[token := Local(req, x)], reqToken := None)).(
      transfers := s.transfers + [Transfer(n, token, req, None, None, [])],
      packets := s.packets[x := Packet(place, h, MemBus(Request, Read, req.readAddr, req.len, [], [token]))])
  }

  lemma SubmittedPacketOk(s: State, n: NodeId, req: Dma, token: nat, place: Place, h: Header)
    requires n < |s.nodes| && token < |Store(s, n)| && InRange(s, req)
    requires if req.readNode == n then place == AtMem(n) else place.Outbound? && h.from == n && h.to == req.readNode
    ensures var t, x := Submitted(s, n, req, token, place, h), |s.transfers|;
      PacketOk(t, x, t.packets[x]) && SlotOk(t, n, token)
  {
  }

  lemma SubmittedMove(s: State, n: NodeId, req: Dma, token: nat, place: Place, h: Header)
    requires n < |s.nodes| && token < |Store(s, n)| && Store(s, n)[token].Empty?
    ensures var t, x := Submitted(s, n, req, token, place, h), |s.transfers|;
      EngineMove(s, t, n, s.nodes[n].engine.(store := Store(s, n)[token := Local(req, x)], reqToken := None), token, x)
  {
  }

  /** A transfer without slots before the step has only the slot that the step gave it. */
  lemma OnlyNewSlot(s: State, t: State, n: NodeId, e: Engine, k: nat, x: nat)
    requires EngineMove(s, t, n, e, k, x)
    requires forall m, j :: 0 <= m < |s.nodes| && 0 <= j < |Store(s, m)| ==> Owner(Store(s, m)[j]) != Some(x)
    ensures forall m, j :: 0 <= m < |t.nodes| && 0 <= j < |Store(t, m)| && Owner(Store(t, m)[j]) == Some(x) ==> m == n && j == k
  {
    forall m, j | 0 <= m < |t.nodes| && 0 <= j < |Store(t, m)| && !(m == n && j == k)
      ensures Owner(Store(t, m)[j]) != Some(x)
    {
      assert Store(t, m)[j] == Store(s, m)[j];
    }
  }

  lemma SubmittedOk(s: State, n: NodeId, req: Dma, place: Place, h: Header)
    requires Inv(s) && Enabled(s, Submit(n, req))
    requires var token := s.nodes[n].engine.reqToken.value; token < |Store(s, n)|
    requires if req.readNode == n then place == AtMem(n) else place.Outbound? && h.from == n && h.to == req.readNode
    ensures Inv(Submitted(s, n, req, s.nodes[n].engine.reqToken.value, place, h))
  {
    hide MemoryOk, TransfersOk, Replay, PacketOk, SlotOk;
    var e, x := s.nodes[n].engine, |s.transfers|;
    var token := e.reqToken.value;
    assert Partitioned(e);
    StorePartitioned(e, token, Local(req, x));
    SubmittedMove(s, n, req, token, place, h);
    hide Partitioned, EnginesOk, EngineMove;
    NewIsNew(s);
    hide PacketsOk, SlotsOk;
    var t := Submitted(s, n, req, token, place, h);
    var e1 := e.(store := e.store[token := Local(req, x)], reqToken := None);
    OnlyNewSlot(s, t, n, e1, token, x);
    SubmittedPacketOk(s, n, req, token, place, h);
    Finish(s, t, n, e1, token, x);
  }

  lemma SubmitKeepsInv(s: State, n: NodeId, req: Dma)
    requires Inv(s) && Enabled(s, Submit(n, req))
    ensures Apply(s, Submit(n, req)).Ok? && Inv(Apply(s, Submit(n, req)).state)
  {
    hide MemoryOk, TransfersOk, PacketsOk, SlotsOk;
    var token := s.nodes[n].engine.reqToken.value;
    assert token < |Store(s, n)| && n in s.portMap by { assert Partitioned(s.nodes[n].engine); }
    hide EnginesOk, Inv;
    if req.readNode == n {
      SubmittedOk(s, n, req, AtMem(n), NoHeader);
      assert Apply(s, Submit(n, req)) == Ok(Submitted(s, n, req, token, AtMem(n), NoHeader));
    } else {
      var h := Header(Request, n, req.readNode);
      SubmittedOk(s, n, req, Outbound(s.portMap[n]), h);
      assert Apply(s, Submit(n, req)) == Ok(Submitted(s, n, req, token, Outbound(s.portMap[n]), h));
    }
  }

  /** The state after node `n` stored packet `x` from the network under `token`. */
  function Taken(s: State, n: NodeId, x: nat, token: nat): State
    requires n < |s.nodes| && token < |Store(s, n)| && x in s.packets
  {
    var p := s.packets[x];
    SetEngine(s, n, s.nodes[n].engine.(store := Store(s, n)[token := External(p.header.from, p.header.to, x)], ingToken := None)).(
      packets := s.packets[x := Packet(AtMem(n), NoHeader, p.mem.(stack := p.mem.stack + [token]))])
  }

  lemma TakenPacketOk(s: State, n: NodeId, x: nat, token: nat)
    requires x in s.packets && PacketOk(s, x, s.packets[x]) && s.packets[x].place == Inbound(n)
    requires n < |s.nodes| && token < |Store(s, n)| && Store(s, n)[token].Empty?
    ensures var t := Taken(s, n, x, token); PacketOk(t, x, t.packets[x]) && SlotOk(t, n, token)
    ensures var t, o := Taken(s, n, x, token), s.transfers[x]; SlotOk(t, o.origin, o.token)
  {
    var t, o := Taken(s, n, x, token), s.transfers[x];
    assert o.origin != n;
    assert Store(t, o.origin) == Store(s, o.origin);
  }

  lemma TakenMove(s: State, n: NodeId, x: nat, token: nat)
    requires n < |s.nodes| && token < |Store(s, n)| && Store(s, n)[token].Empty? && x in s.packets
    ensures var t, p := Taken(s, n, x, token), s.packets[x];
      EngineMove(s, t, n, s.nodes[n].engine.(store := Store(s, n)[token := External(p.header.from, p.header.to, x)], ingToken := None), token, x)
  {
  }

  /** Slots owned by `x` after a step: the one it changed, or one it owned before. */
  lemma OldOrNewSlot(s: State, t: State, n: NodeId, e: Engine, k: nat, x: nat)
    requires EngineMove(s, t, n, e, k, x)
    ensures forall m, j :: 0 <= m < |t.nodes| && 0 <= j < |Store(t, m)| && Owner(Store(t, m)[j]) == Some(x) ==>
      (m == n && j == k) || (j < |Store(s, m)| && Store(t, m)[j] == Store(s, m)[j])
  {
    forall m, j | 0 <= m < |t.nodes| && 0 <= j < |Store(t, m)| && !(m == n && j == k)
      ensures j < |Store(s, m)| && Store(t, m)[j] == Store(s, m)[j]
    {
    }
  }

  lemma TakenSlotsOk(s: State, n: NodeId, x: nat, token: nat)
    requires SlotsOk(s) && PacketsOk(s) && x in s.packets && s.packets[x].place == Inbound(n)
    requires n < |s.nodes| && token < |Store(s, n)| && Store(s, n)[token].Empty?
    ensures var t := Taken(s, n, x, token);
      forall m, j :: 0 <= m < |t.nodes| && 0 <= j < |Store(t, m)| && Owner(Store(t, m)[j]) == Some(x) ==> SlotOk(t, m, j)
  {
    hide SlotOk, PacketOk, EngineMove;
    var t, p := Taken(s, n, x, token), s.packets[x];
    assert |t.nodes| == |s.nodes|;
    hide Taken;
    PacketOf(s, x);
    SlotsOf(s, x);
    TakenPacketOk(s, n, x, token);
    TakenMove(s, n, x, token);
    var e := s.nodes[n].engine.(store := Store(s, n)[token := External(p.header.from, p.header.to, x)], ingToken := None);
    OldOrNewSlot(s, t, n, e, token, x);
    forall m, j | 0 <= m < |t.nodes| && 0 <= j < |Store(t, m)| && Owner(Store(t, m)[j]) == Some(x)
      ensures SlotOk(t, m, j)
    {
      if !(m == n && j == token) {
        assert SlotFor(s, x, m, j);
      }
    }
  }

  lemma IngressIs(s: State, x: nat)
    requires Enabled(s, Ingress(x)) && PacketOk(s, x, s.packets[x])
    requires var n := s.packets[x].place.n; s.nodes[n].engine.ingToken.value < |Store(s, n)|
    ensures var n := s.packets[x].place.n; Apply(s, Ingress(x)) == Ok(Taken(s, n, x, s.nodes[n].engine.ingToken.value))
  {
    hide StageOk;
  }

  lemma IngressKeepsInv(s: State, x: nat)
    requires Inv(s) && Enabled(s, Ingress(x))
    ensures Apply(s, Ingress(x)).Ok? && Inv(Apply(s, Ingress(x)).state)
  {
    hide MemoryOk, TransfersOk, SlotsOk, PacketsOk, SlotOk, PacketOk, Wired, Apply, SameOthers;
    var p := s.packets[x];
    var n := p.place.n;
    var e := s.nodes[n].engine;
    var token := e.ingToken.value;
    assert Partitioned(e);
    StorePartitioned(e, token, External(p.header.from, p.header.to, x));
    hide EnginesOk;
    PacketOf(s, x);
    IngressIs(s, x);
    var t := Taken(s, n, x, token);
    TakenMove(s, n, x, token);
    TakenPacketOk(s, n, x, token);
    TakenSlotsOk(s, n, x, token);
    var e1 := e.(store := e.store[token := External(p.header.from, p.header.to, x)], ingToken := None);
    assert SameOthers(s, t, x) && x in t.packets && t.transfers == s.transfers by { TakenOthers(s, n, x, token); }
    hide Partitioned, EngineMove, Taken;
    Finish(s, t, n, e1, token, x);
  }

  lemma TakenOthers(s: State, n: NodeId, x: nat, token: nat)
    requires n < |s.nodes| && token < |Store(s, n)| && x in s.packets
    ensures var t := Taken(s, n, x, token); SameOthers(s, t, x) && x in t.packets && t.transfers == s.transfers
  {
  }

  lemma PacketOf(s: State, x: nat)
    requires PacketsOk(s) && x in s.packets
    ensures PacketOk(s, x, s.packets[x])
  {
  }

  /** Packet `x`, with only its initiator's token on the stack, is rewritten and nothing else changes. */
  lemma RewriteKeepsInv(s: State, t: State, x: nat)
    requires Inv(s) && x in s.packets && x in t.packets && t == s.(packets := s.packets[x := t.packets[x]])
    requires |s.packets[x].mem.stack| == 1 && PacketOk(t, x, t.packets[x])
    ensures Inv(t)
  {
    hide PacketOk, MemoryOk, Replay, EnginesOk, TransfersOk;
    SlotsOf(s, x);
    assert OnlyMoves(s, t, x) && SameOthers(s, t, x);
    forall n, k | 0 <= n < |t.nodes| && 0 <= k < |Store(t, n)| && Owner(Store(t, n)[k]) == Some(x)
      ensures SlotOk(t, n, k)
    {
      assert SlotFor(s, x, n, k);
    }
    hide SlotOk, OnlyMoves, SameOthers, PacketsOk, SlotsOk;
    assert EnginesOk(t) by { SameEngines(s, t); }
    MoveKeepsInv(s, t, x);
  }

  lemma SameEngines(s: State, t: State)
    requires EnginesOk(s) && t.nodes == s.nodes
    ensures EnginesOk(t)
  {
  }

  lemma RoutedPacketOk(s: State, x: nat, forward: bool)
    requires Wired(s) && x in s.packets && PacketOk(s, x, s.packets[x])
    requires if forward then s.packets[x].place.Outbound? else s.packets[x].place.Backward?
    ensures Route(s, x, forward).Ok?
    ensures var t := Route(s, x, forward).state;
      x in t.packets && t == s.(packets := s.packets[x := t.packets[x]]) && PacketOk(t, x, t.packets[x])
  {
    hide StageOk;
  }

  lemma RouteKeepsInv(s: State, x: nat, forward: bool)
    requires Inv(s) && x in s.packets && (if forward then s.packets[x].place.Outbound? else s.packets[x].place.Backward?)
    ensures Route(s, x, forward).Ok? && Inv(Route(s, x, forward).state)
  {
    hide MemoryOk, TransfersOk, EnginesOk, SlotsOk, PacketOk, Route, Wired;
    PacketOf(s, x);
    RoutedPacketOk(s, x, forward);
    StackAbroad(s, x);
    hide PacketsOk;
    RewriteKeepsInv(s, Route(s, x, forward).state, x);
  }

  lemma StackAbroad(s: State, x: nat)
    requires x in s.packets && PacketOk(s, x, s.packets[x]) && !s.packets[x].place.AtMem? && !s.packets[x].place.FromMem?
    ensures |s.packets[x].mem.stack| == 1
  {
  }

  // ------------------------------------------------------------ responses

  /** Packet `x` is a response back at its initiator `n`, from its memory or from the network. */
  predicate Home(s: State, x: nat, n: NodeId) {
    && x in s.packets && x < |s.transfers| && n == s.transfers[x].origin && n < |s.nodes|
    && (s.packets[x].place == FromMem(n) || s.packets[x].place == Returned(n))
    && s.packets[x].mem.mode.Response?
  }

  /** Its read response became the write request, sent to the local memory or to the switch. */
  function Turned(s: State, x: nat, place: Place, h: Header): State
    requires x in s.packets && x < |s.transfers|
  {
    var p, tr := s.packets[x], s.transfers[x];
    var m := p.mem.(stack := []);
    s.(packets := s.packets[x := Packet(place, h, Turn(m, tr.req, tr.token))])
  }

  lemma TurnedPacketOk(s: State, x: nat, n: NodeId, place: Place, h: Header)
    requires Home(s, x, n) && PacketOk(s, x, s.packets[x]) && s.packets[x].mem.cmd.Read?
    requires var w := s.transfers[x].req.writeNode;
      if w == n then place == AtMem(n) else place.Outbound? && h.from == n && h.to == w
    ensures var t := Turned(s, x, place, h);
      |s.packets[x].mem.stack| == 1 && PacketOk(t, x, t.packets[x]) && t == s.(packets := s.packets[x := t.packets[x]])
  {
  }

  lemma TurnedKeepsInv(s: State, x: nat, n: NodeId, place: Place, h: Header)
    requires Inv(s) && Home(s, x, n) && s.packets[x].mem.cmd.Read?
    requires var w := s.transfers[x].req.writeNode;
      if w == n then place == AtMem(n) else place.Outbound? && h.from == n && h.to == w
    ensures Inv(Turned(s, x, place, h))
  {
    hide MemoryOk, TransfersOk, EnginesOk, SlotsOk, PacketOk, Wired, Turned;
    PacketOf(s, x);
    TurnedPacketOk(s, x, n, place, h);
    hide PacketsOk, Home;
    RewriteKeepsInv(s, Turned(s, x, place, h), x);
  }

  /** Its write response freed the slot and answered the initiator. */
  function Answered(s: State, x: nat): State
    requires x in s.packets && x < |s.transfers| && s.transfers[x].origin < |s.nodes|
    requires s.transfers[x].token < |Store(s, s.transfers[x].origin)|
  {
    var tr := s.transfers[x];
    SetEngine(s, tr.origin, Free(s.nodes[tr.origin].engine, tr.token)).(
      packets := s.packets - {x}, transfers := s.transfers[x := tr.(answers := tr.answers + Replied(tr))])
  }

  lemma AnsweredMove(s: State, x: nat)
    requires x in s.packets && x < |s.transfers| && s.transfers[x].origin < |s.nodes|
    requires s.transfers[x].token < |Store(s, s.transfers[x].origin)|
    requires Owner(Store(s, s.transfers[x].origin)[s.transfers[x].token]) == Some(x)
    ensures var tr := s.transfers[x]; var e := Free(s.nodes[tr.origin].engine, tr.token);
      EngineMove(s, Answered(s, x), tr.origin, e, tr.token, x) && SameOthers(s, Answered(s, x), x)
  {
  }

  /** No slot of the answered transfer is left. */
  lemma AnsweredSlots(s: State, x: nat)
    requires SlotsOk(s) && PacketsOk(s) && x in s.packets && |s.packets[x].mem.stack| == 1
    requires PacketOk(s, x, s.packets[x])
    ensures var t := Answered(s, x);
      forall m, j :: 0 <= m < |t.nodes| && 0 <= j < |Store(t, m)| ==> Owner(Store(t, m)[j]) != Some(x)
  {
    hide SlotOk, EngineMove;
    var t, tr := Answered(s, x), s.transfers[x];
    var e := Free(s.nodes[tr.origin].engine, tr.token);
    SlotsOf(s, x);
    AnsweredMove(s, x);
    OldOrNewSlot(s, t, tr.origin, e, tr.token, x);
    forall m, j | 0 <= m < |t.nodes| && 0 <= j < |Store(t, m)|
      ensures Owner(Store(t, m)[j]) != Some(x)
    {
      if Owner(Store(t, m)[j]) == Some(x) && !(m == tr.origin && j == tr.token) {
        assert false;
      }
    }
  }

  lemma AnsweredKeepsInv(s: State, x: nat, n: NodeId)
    requires Inv(s) && Home(s, x, n) && s.packets[x].mem.cmd.Write? && PacketOk(s, x, s.packets[x])
    ensures Inv(Answered(s, x))
  {
    hide MemoryOk, TransfersOk, SlotsOk, PacketsOk, SlotOk, EngineMove, SameOthers;
    var t, tr := Answered(s, x), s.transfers[x];
    var e := Free(s.nodes[tr.origin].engine, tr.token);
    assert Partitioned(e) by {
      assert Partitioned(s.nodes[tr.origin].engine);
      FreePartitioned(s.nodes[tr.origin].engine, tr.token);
    }
    AnsweredMove(s, x);
    AnsweredSlots(s, x);
    assert tr.answers + Replied(tr) == Replied(tr);
    assert Copied(s.log, tr.(answers := Replied(tr)));
    hide Partitioned, EnginesOk, PacketOk, Copied;
    Finish(s, t, n, e, tr.token, x);
  }

  /** The external request left node `n`: its server slot is free and the packet goes back. */
  function SentBack(s: State, x: nat, n: NodeId, k: nat, port: nat, h: Header): State
    requires x in s.packets && n < |s.nodes| && k < |Store(s, n)| && s.packets[x].mem.stack != []
  {
    var p := s.packets[x];
    SetEngine(s, n, Free(s.nodes[n].engine, k)).(
      packets := s.packets[x := Packet(Backward(port), h, p.mem.(stack := p.mem.stack[..|p.mem.stack| - 1]))])
  }

  lemma SentBackMove(s: State, x: nat, n: NodeId, k: nat, port: nat, h: Header)
    requires x in s.packets && n < |s.nodes| && k < |Store(s, n)| && s.packets[x].mem.stack != []
    requires Owner(Store(s, n)[k]) == Some(x)
    ensures EngineMove(s, SentBack(s, x, n, k, port, h), n, Free(s.nodes[n].engine, k), k, x)
    ensures SameOthers(s, SentBack(s, x, n, k, port, h), x)
  {
  }

  lemma SentBackPacketOk(s: State, x: nat, n: NodeId, k: nat, port: nat)
    requires x in s.packets && PacketOk(s, x, s.packets[x]) && s.packets[x].place == FromMem(n)
    requires n != s.transfers[x].origin && k == s.packets[x].mem.stack[1]
    ensures var t, o := SentBack(s, x, n, k, port, Header(Response, s.transfers[x].origin, n)), s.transfers[x];
      PacketOk(t, x, t.packets[x]) && SlotOk(t, o.origin, o.token)
  {
    var t, o := SentBack(s, x, n, k, port, Header(Response, s.transfers[x].origin, n)), s.transfers[x];
    assert Store(t, o.origin) == Store(s, o.origin);
    assert s.packets[x].mem.stack[..1] == [o.token];
  }

  lemma SentBackKeepsInv(s: State, x: nat, n: NodeId, port: nat)
    requires Inv(s) && x in s.packets && PacketOk(s, x, s.packets[x]) && s.packets[x].place == FromMem(n)
    requires n != s.transfers[x].origin
    ensures Inv(SentBack(s, x, n, s.packets[x].mem.stack[1], port, Header(Response, s.transfers[x].origin, n)))
  {
    hide MemoryOk, TransfersOk, SlotOk, EngineMove, SameOthers;
    var k, h := s.packets[x].mem.stack[1], Header(Response, s.transfers[x].origin, n);
    var t := SentBack(s, x, n, k, port, h);
    assert Partitioned(Free(s.nodes[n].engine, k)) by {
      assert Partitioned(s.nodes[n].engine);
      FreePartitioned(s.nodes[n].engine, k);
    }
    SentBackMove(s, x, n, k, port, h);
    SentBackPacketOk(s, x, n, k, port);
    SentBackSlots(s, x, n, k, port);
    hide Partitioned, EnginesOk, PacketOk, PacketsOk, SlotsOk;
    assert t.transfers == s.transfers && x in t.packets;
    hide SentBack;
    Finish(s, t, n, Free(s.nodes[n].engine, k), k, x);
  }

  lemma SentBackSlots(s: State, x: nat, n: NodeId, k: nat, port: nat)
    requires SlotsOk(s) && PacketsOk(s) && x in s.packets && PacketOk(s, x, s.packets[x]) && s.packets[x].place == FromMem(n)
    requires n != s.transfers[x].origin && k == s.packets[x].mem.stack[1]
    ensures var t := SentBack(s, x, n, k, port, Header(Response, s.transfers[x].origin, n));
      forall m, j :: 0 <= m < |t.nodes| && 0 <= j < |Store(t, m)| && Owner(Store(t, m)[j]) == Some(x) ==> SlotOk(t, m, j)
  {
    hide SlotOk, EngineMove, PacketsOk, SlotsOk;
    var h := Header(Response, s.transfers[x].origin, n);
    var t := SentBack(s, x, n, k, port, h);
    SlotsOf(s, x);
    SentBackMove(s, x, n, k, port, h);
    SentBackPacketOk(s, x, n, k, port);
    OldOrNewSlot(s, t, n, Free(s.nodes[n].engine, k), k, x);
    forall m, j | 0 <= m < |t.nodes| && 0 <= j < |Store(t, m)| && Owner(Store(t, m)[j]) == Some(x)
      ensures SlotOk(t, m, j)
    {
      if !(m == n && j == k) {
        assert SlotFor(s, x, m, j);
      }
    }
  }
}
