/** Any number of NDma nodes, each with its own memory, joined by a switch: the steps of one
    packet at a time, in any interleaving. */
module NDmaNetwork {
  import opened Memory
  import opened Wrappers
  import opened NDma
  import Switch

  datatype Event = Event(cmd: Command, node: NodeId, addr: nat, bytes: seq<Byte>)

  /** A response that node `node` sent to its initiator: the request with its mode set. */
  datatype Reply = Reply(node: NodeId, req: Dma)

  /** History of one transfer: who started it with which token, where the memory log holds its
      read and its write, and every answer that was sent. */
  datatype Transfer = Transfer(origin: NodeId, token: nat, req: Dma, readAt: Option<nat>, writtenAt: Option<nat>, answers: seq<Reply>)

  /** Where a packet is. */
  datatype Place =
    | AtMem(n: NodeId)     // request in the memory fabric of node n
    | FromMem(n: NodeId)   // response on the memory port of node n
    | Outbound(port: nat)  // at the switch, entering through ingress `port`
    | Inbound(n: NodeId)   // at net_inbound of node n
    | Backward(port: nat)  // at the switch, coming back through egress `port`
    | Returned(n: NodeId)  // at net_outbound of node n

  datatype Packet = Packet(place: Place, header: Header, mem: MemBus)

  datatype Node = Node(engine: Engine, memory: seq<Byte>)

  /** `wire[port]` is the node bound to that ingress and egress port of the switch; `portMap` is
      the switch's own routing table; `init` are the initial memories. */
  datatype State = State(nodes: seq<Node>, wire: seq<NodeId>, portMap: map<NodeId, nat>,
                         packets: map<nat, Packet>, transfers: seq<Transfer>, log: seq<Event>, init: seq<seq<Byte>>)

  /** The network was elaborated correctly: every node is bound to a port and registered there. */
  predicate Wired(s: State) {
    && (forall p :: 0 <= p < |s.wire| ==> s.wire[p] < |s.nodes|)
    && (forall n :: 0 <= n < |s.nodes| ==> n in s.portMap && s.portMap[n] < |s.wire| && s.wire[s.portMap[n]] == n)
  }

  /** An error-free transfer: known nodes, addresses inside their memories. */
  predicate InRange(s: State, req: Dma) {
    && req.readNode < |s.nodes| && req.readAddr + req.len <= |s.nodes[req.readNode].memory|
    && req.writeNode < |s.nodes| && req.writeAddr + req.len <= |s.nodes[req.writeNode].memory|
  }

  datatype Step =
    | ReserveRequest(n: NodeId)
    | Submit(n: NodeId, req: Dma)      // request_layer of n receives a DMA request
    | ReserveIngress(n: NodeId)
    | Ingress(x: nat)                  // ingress_layer takes packet x
    | Serve(x: nat)                    // the memory handles packet x
    | MemResponse(x: nat)              // mem_layer takes packet x
    | Egress(x: nat)                   // egress_layer takes packet x
    | SwitchForward(x: nat)
    | SwitchBackward(x: nat)

  datatype Result = Fault | Ok(state: State)

  predicate Enabled(s: State, step: Step) {
    match step
    case ReserveRequest(n) => n < |s.nodes| && s.nodes[n].engine.reqToken.None? && CanReserve(s.nodes[n].engine)
    case Submit(n, req) => n < |s.nodes| && s.nodes[n].engine.reqToken.Some? && InRange(s, req)
    case ReserveIngress(n) => n < |s.nodes| && s.nodes[n].engine.ingToken.None? && CanReserve(s.nodes[n].engine)
    case Ingress(x) =>
      x in s.packets && s.packets[x].place.Inbound? && s.packets[x].place.n < |s.nodes|
      && s.nodes[s.packets[x].place.n].engine.ingToken.Some?
    case Serve(x) => x in s.packets && s.packets[x].place.AtMem?
    case MemResponse(x) => x in s.packets && s.packets[x].place.FromMem?
    case Egress(x) => x in s.packets && s.packets[x].place.Returned?
    case SwitchForward(x) => x in s.packets && s.packets[x].place.Outbound?
    case SwitchBackward(x) => x in s.packets && s.packets[x].place.Backward?
  }

  function SetEngine(s: State, n: NodeId, e: Engine): State
    requires n < |s.nodes|
  {
    s.(nodes := s.nodes[n := s.nodes[n].(engine := e)])
  }

  const NoHeader := Header(Request, 0, 0)

  /** Node `n` reacted to packet `x`: its engine changes and the packet goes where it is sent. */
  function Emitted(s: State, n: NodeId, x: nat, r: Reaction): Result
    requires n < |s.nodes|
  {
    match r
    case Panic => Fault
    case React(e, emit) =>
      var s1 := SetEngine(s, n, e);
      match emit
      case ToMem(mem) => Ok(s1.(packets := s.packets[x := Packet(AtMem(n), NoHeader, mem)]))
      case ToNet(h, mem) =>
        if n !in s.portMap then Fault
        else Ok(s1.(packets := s.packets[x := Packet(Outbound(s.portMap[n]), h, mem)]))
      case BackToNet(h, mem) =>
        if n !in s.portMap then Fault
        else Ok(s1.(packets := s.packets[x := Packet(Backward(s.portMap[n]), h, mem)]))
      case Answer(req) =>
        if x >= |s.transfers| then Fault
        else Ok(s1.(packets := s.packets - {x},
                    transfers := s.transfers[x := s.transfers[x].(answers := s.transfers[x].answers + [Reply(n, req)])]))
  }

  /** The memory of node `n` serves the request: a read appends the slice to the data field, a
      write copies it in. Both are one step, under the lock of the memory. */
  function ServeMem(s: State, x: nat): Result
    requires x in s.packets && s.packets[x].place.AtMem?
  {
    var p, n := s.packets[x], s.packets[x].place.n;
    var m := p.mem;
    if n >= |s.nodes| || m.addr + m.len > |s.nodes[n].memory| || x >= |s.transfers| then Fault
    else if m.cmd.Read? then
      var bytes := s.nodes[n].memory[m.addr..m.addr + m.len];
      Ok(s.(packets := s.packets[x := p.(place := FromMem(n), mem := m.(mode := Response, data := m.data + bytes))],
            log := s.log + [Event(Read, n, m.addr, bytes)],
            transfers := s.transfers[x := s.transfers[x].(readAt := Some(|s.log|))]))
    else if |m.data| != m.len then Fault
    else
      Ok(s.(nodes := s.nodes[n := s.nodes[n].(memory := Overwrite(s.nodes[n].memory, m.addr, m.data))],
            packets := s.packets[x := p.(place := FromMem(n), mem := m.(mode := Response))],
            log := s.log + [Event(Write, n, m.addr, m.data)],
            transfers := s.transfers[x := s.transfers[x].(writtenAt := Some(|s.log|))]))
  }

  /** The switch routes by destination on the way out and by source on the way back. A packet that
      it bounces is an error packet, on which the node that gets it panics. */
  function Route(s: State, x: nat, forward: bool): Result
    requires x in s.packets
  {
    var p := s.packets[x];
    match if forward then Switch.Forward(s.portMap, p.header, p.mem) else Switch.Backward(s.portMap, p.header, p.mem)
    case Bounced(_) => Fault
    case On(port, header, mem) =>
      if port >= |s.wire| then Fault
      else
        var n := s.wire[port];
        Ok(s.(packets := s.packets[x := Packet(if forward then Inbound(n) else Returned(n), header, mem)]))
  }

  function Apply(s: State, step: Step): Result
    requires Enabled(s, step)
  {
    match step
    case ReserveRequest(n) =>
      var e := s.nodes[n].engine;
      Ok(SetEngine(s, n, PopToken(e).(reqToken := Some(TopToken(e)))))
    case ReserveIngress(n) =>
      var e := s.nodes[n].engine;
      Ok(SetEngine(s, n, PopToken(e).(ingToken := Some(TopToken(e)))))
    case Submit(n, req) =>
      var e := s.nodes[n].engine;
      var s1 := s.(transfers := s.transfers + [Transfer(n, e.reqToken.value, req, None, None, [])]);
      Emitted(s1, n, |s.transfers|, AcceptRequest(e, n, req, |s.transfers|))
    case Ingress(x) =>
      var n := s.packets[x].place.n;
      Emitted(s, n, x, AcceptExternal(s.nodes[n].engine, s.packets[x].header, s.packets[x].mem, x))
    case Serve(x) => ServeMem(s, x)
    case MemResponse(x) =>
      var n := s.packets[x].place.n;
      if n >= |s.nodes| then Fault
      else Emitted(s, n, x, MemLayer(s.nodes[n].engine, n, s.packets[x].mem))
    case Egress(x) =>
      var n := s.packets[x].place.n;
      if n >= |s.nodes| then Fault
      else Emitted(s, n, x, EgressLayer(s.nodes[n].engine, n, s.packets[x].header, s.packets[x].mem))
    case SwitchForward(x) => Route(s, x, true)
    case SwitchBackward(x) => Route(s, x, false)
  }

  predicate Init(s: State) {
    && Wired(s) && s.packets == map[] && s.transfers == [] && s.log == []
    && |s.init| == |s.nodes|
    && forall n :: 0 <= n < |s.nodes| ==>
      s.nodes[n].engine == NewEngine(|s.nodes[n].engine.store|) && s.init[n] == s.nodes[n].memory
  }

  /** The memories after the first events of a log. */
  function Replay(init: seq<seq<Byte>>, log: seq<Event>): seq<seq<Byte>> {
    if log == [] then init
    else
      var before, e := Replay(init, log[..|log| - 1]), log[|log| - 1];
      if e.cmd.Write? && e.node < |before| && e.addr + |e.bytes| <= |before[e.node]|
      then before[e.node := Overwrite(before[e.node], e.addr, e.bytes)]
      else before
  }
}
