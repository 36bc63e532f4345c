/** One network DMA engine: its slot store, and what its layers do with a request or a response. */
module NDma {
  import opened Memory
  import opened Wrappers

  type NodeId = nat

  datatype Mode = Request | Response
  datatype Command = Read | Write

  /** A transfer of `len` bytes between two (node, address) pairs. */
  datatype Dma = Dma(readNode: NodeId, readAddr: nat, writeNode: NodeId, writeAddr: nat, len: nat)

  /** MemBus payload; `stack` is the return-path stack shared by crossbars and DMA tokens. */
  datatype MemBus = MemBus(mode: Mode, cmd: Command, addr: nat, len: nat, data: seq<Byte>, stack: seq<nat>)

  /** Network header around a MemBus payload. */
  datatype Header = Header(mode: Mode, from: NodeId, to: NodeId)

  /** Slot of the store: free, a local request, or the origin of an external request.
      `xid` numbers transfers; it is history and is only copied along. */
  datatype Slot =
    | Empty
    | Local(req: Dma, xid: nat)
    | External(from: NodeId, to: NodeId, xid: nat)

  /** `reqToken` and `ingToken` are the tokens held by request_layer and ingress_layer while
      they wait for a packet. */
  datatype Engine = Engine(avail: seq<nat>, store: seq<Slot>, reqToken: Option<nat>, ingToken: Option<nat>)

  function NewEngine(inflight: nat): Engine {
    Engine(seq(inflight, i => i), seq(inflight, _ => Empty), None, None)
  }

  /** What a layer sends after handling a packet. */
  datatype Emit =
    | ToMem(mem: MemBus)                    // mem.tx
    | ToNet(header: Header, mem: MemBus)    // net_outbound.tx
    | BackToNet(header: Header, mem: MemBus)// net_inbound.tx
    | Answer(req: Dma)                      // inbound.tx

  datatype Reaction = Panic | React(engine: Engine, emit: Emit)

  predicate CanReserve(e: Engine) { e.avail != [] }

  function TopToken(e: Engine): nat
    requires CanReserve(e)
  {
    e.avail[|e.avail| - 1]
  }

  function PopToken(e: Engine): Engine
    requires CanReserve(e)
  {
    e.(avail := e.avail[..|e.avail| - 1])
  }

  function Free(e: Engine, token: nat): Engine
    requires token < |e.store|
  {
    e.(store := e.store[token := Empty], avail := e.avail + [token])
  }

  /** request_layer: store the request, issue its read locally or over the network. */
  function AcceptRequest(e: Engine, self: NodeId, req: Dma, xid: nat): Reaction
    requires e.reqToken.Some?
  {
    var token := e.reqToken.value;
    if token >= |e.store| then Panic
    else
      var read := MemBus(Request, Read, req.readAddr, req.len, [], [token]);
      var e1 := e.(store := e.store[token := Local(req, xid)], reqToken := None);
      if req.readNode == self then React(e1, ToMem(read))
      else React(e1, ToNet(Header(Request, self, req.readNode), read))
  }

  /** ingress_layer: remember where the packet came from and issue its payload locally. The
      memory port refuses a payload that is not a request. */
  function AcceptExternal(e: Engine, h: Header, mem: MemBus, xid: nat): Reaction
    requires e.ingToken.Some?
  {
    var token := e.ingToken.value;
    if token >= |e.store| || mem.mode != Request then Panic
    else
      React(e.(store := e.store[token := External(h.from, h.to, xid)], ingToken := None),
            ToMem(mem.(stack := mem.stack + [token])))
  }

  /** A read response becomes the write request, in place. */
  function Turn(mem: MemBus, req: Dma, token: nat): MemBus {
    mem.(mode := Request, cmd := Write, addr := req.writeAddr, stack := mem.stack + [token])
  }

  /** forward_resp: what the engine does with a memory response, local or brought back. */
  function ForwardResponse(e: Engine, self: NodeId, mem: MemBus): Reaction {
    if mem.stack == [] then Panic
    else
      var token := mem.stack[|mem.stack| - 1];
      var m := mem.(stack := mem.stack[..|mem.stack| - 1]);
      if token >= |e.store| then Panic
      else
        match e.store[token]
        case Empty => Panic
        case Local(req, _) =>
          if m.cmd.Read? then
            var w := Turn(m, req, token);
            if req.writeNode == self then React(e, ToMem(w))
            else React(e, ToNet(Header(Response, self, req.writeNode), w))
          else React(Free(e, token), Answer(req))
        case External(from, to, _) =>
          React(Free(e, token), BackToNet(Header(Response, from, to), m))
  }

  /** mem_layer: only a response is expected on the memory port. */
  function MemLayer(e: Engine, self: NodeId, mem: MemBus): Reaction {
    if mem.mode == Request then Panic else ForwardResponse(e, self, mem)
  }

  /** egress_layer: the network header decides, its payload is unwrapped. */
  function EgressLayer(e: Engine, self: NodeId, h: Header, mem: MemBus): Reaction {
    if h.mode == Request then Panic else ForwardResponse(e, self, mem)
  }

  /** Each token is free, held by one of the two layers, or names an occupied slot: exactly one. */
  predicate Partitioned(e: Engine) {
    && (forall i :: 0 <= i < |e.avail| ==> e.avail[i] < |e.store| && e.store[e.avail[i]].Empty?)
    && (forall i, j :: 0 <= i < j < |e.avail| ==> e.avail[i] != e.avail[j])
    && (e.reqToken.Some? ==> var t := e.reqToken.value;
         t < |e.store| && e.store[t].Empty? && t !in e.avail && e.ingToken != Some(t))
    && (e.ingToken.Some? ==> var t := e.ingToken.value;
         t < |e.store| && e.store[t].Empty? && t !in e.avail)
    && (forall t :: 0 <= t < |e.store| ==>
         t in e.avail || e.reqToken == Some(t) || e.ingToken == Some(t) || !e.store[t].Empty?)
  }

  lemma NewPartitioned(inflight: nat)
    ensures Partitioned(NewEngine(inflight))
  {
    var e := NewEngine(inflight);
    forall t | 0 <= t < |e.store|
      ensures t in e.avail
    {
      assert e.avail[t] == t;
    }
  }

  lemma ReservePartitioned(e: Engine, forRequest: bool)
    requires Partitioned(e) && CanReserve(e) && (if forRequest then e.reqToken.None? else e.ingToken.None?)
    ensures var e1 := PopToken(e);
      Partitioned(if forRequest then e1.(reqToken := Some(TopToken(e))) else e1.(ingToken := Some(TopToken(e))))
  {
    var e1 := PopToken(e);
    forall t | t in e.avail
      ensures t in e1.avail || t == TopToken(e)
    {
      var i :| 0 <= i < |e.avail| && e.avail[i] == t;
      assert i < |e1.avail| ==> e1.avail[i] == t;
    }
  }

  lemma FreePartitioned(e: Engine, token: nat)
    requires Partitioned(e) && token < |e.store| && !e.store[token].Empty?
    ensures Partitioned(Free(e, token))
  {
    var f := Free(e, token);
    assert forall i :: 0 <= i < |e.avail| ==> f.avail[i] == e.avail[i];
    assert f.avail[|e.avail|] == token;
    assert forall t :: t in e.avail ==> t in f.avail;
  }

  lemma StorePartitioned(e: Engine, token: nat, slot: Slot)
    requires Partitioned(e) && !slot.Empty?
    ensures e.reqToken == Some(token) ==> Partitioned(e.(store := e.store[token := slot], reqToken := None))
    ensures e.ingToken == Some(token) ==> Partitioned(e.(store := e.store[token := slot], ingToken := None))
  {
  }
}
