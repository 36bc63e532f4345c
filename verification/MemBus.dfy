/** The memory bus: requests, what a crossbar does with them on the way out and back, and what a
    RAM does with the ones that reach it. */
module MemBus {
  import opened Memory
  import opened Wrappers
  import AddrRange

  datatype Error = Cmd(cmd: Command) | Pattern(pattern: Pattern) | SubRange(subrange: SubRange) | Route(error: AddrRange.Error)
  datatype Mode = Request | Response | Failed(error: Error)
  datatype Command = Read | Write | Announce
  datatype SubRange = NoAddr | Phys(addr: nat)
  datatype Pattern = NoPattern | Simple(len: nat) | Stride(size: nat, stride: nat, iter: nat)

  /** `stack` is the xbar_port stack, its top is the last element. */
  datatype Bus = Bus(mode: Mode, cmd: Command, subrange: SubRange, pattern: Pattern, data: seq<Byte>, stack: seq<nat>)

  /** Addresses seen by an access, holes included. */
  function Span(p: Pattern): nat
    requires !p.NoPattern?
  {
    match p
    case Simple(len) => len
    case Stride(_, stride, iter) => stride * iter
  }

  // ------------------------------------------------------------ crossbar

  /** Panic, on to an outbound port, or back to the inbound port it came from. */
  datatype Forwarded = PanicForward | Routed(port: nat, req: Bus) | Rejected(req: Bus)

  function Forward(t: AddrRange.Table, idx: nat, req: Bus): Forwarded {
    if req.subrange.NoAddr? then Rejected(req.(mode := Failed(SubRange(req.subrange))))
    else if req.pattern.NoPattern? then PanicForward
    else if req.cmd.Announce? then Rejected(req.(mode := Failed(Cmd(req.cmd))))
    else
      var pushed := req.(stack := req.stack + [idx]);
      match AddrRange.Find(t, req.subrange.addr, Span(req.pattern))
      case Ok((offset, port)) =>
        if offset > req.subrange.addr then PanicForward
        else Routed(port, pushed.(subrange := Phys(req.subrange.addr - offset)))
      case Err(e) => Rejected(pushed.(mode := Failed(Route(e))))
  }

  /** The bytes that a pattern reaches over. */
  predicate Reaches(p: Pattern, len: nat) {
    match p
    case NoPattern => false
    case Simple(n) => len == n
    case Stride(_, stride, iter) => len == stride * iter
  }

  /** Which accesses are routed: with separated ranges a read or write goes on if and only if one range holds
      all it reaches over. It goes to the port of that range, by its address in the range and with the inbound
      index pushed; otherwise it comes back with the reason. */
  lemma RoutedIff(t: AddrRange.Table, idx: nat, req: Bus, len: nat)
    requires AddrRange.Separated(t) && req.subrange.Phys? && !req.cmd.Announce? && Reaches(req.pattern, len)
    ensures Forward(t, idx, req).Routed? <==> AddrRange.Within(t, req.subrange.addr, len)
    ensures forall o :: o in t && o <= req.subrange.addr && req.subrange.addr + len <= o + t[o].size && len > 0 ==>
      Forward(t, idx, req) == Routed(t[o].port, req.(subrange := Phys(req.subrange.addr - o), stack := req.stack + [idx]))
    ensures !AddrRange.Within(t, req.subrange.addr, len) ==>
      Forward(t, idx, req) == Rejected(req.(stack := req.stack + [idx], mode := Failed(Route(
        if exists o :: o in t && o <= req.subrange.addr then AddrRange.CrossRange else AddrRange.Unmapped))))
  {
    var addr := req.subrange.addr;
    AddrRange.FindWithin(t, addr, len);
    if len > 0 {
      AddrRange.FindIsScan(t, addr, len);
      forall o | o in t && o <= addr && addr + len <= o + t[o].size
        ensures AddrRange.Find(t, addr, len) == AddrRange.Ok((o, t[o].port))
      {
        assert AddrRange.Covers(t, o, addr, len);
      }
    }
  }

  datatype Returned = PanicBackward | Back(port: nat, resp: Bus)

  function Backward(inbound: nat, resp: Bus): Returned {
    if resp.stack == [] || resp.cmd.Announce? then PanicBackward
    else
      var from := resp.stack[|resp.stack| - 1];
      if from >= inbound then PanicBackward
      else Back(from, resp.(stack := resp.stack[..|resp.stack| - 1]))
  }

  class XBar {
    const inbound: nat
    const addrMap: AddrRange.Table

    constructor (inbound: nat, addrMap: AddrRange.Table)
      ensures this.inbound == inbound && this.addrMap == addrMap
    {
      this.inbound, this.addrMap := inbound, addrMap;
    }

    /** forward_layer of inbound port `idx`, on the packets it receives one after the other. */
    method ForwardLayer(idx: nat, received: seq<Bus>) returns (sent: seq<Forwarded>)
      ensures |sent| <= |received| && forall k :: 0 <= k < |sent| ==> sent[k] == Forward(addrMap, idx, received[k])
      ensures |sent| < |received| ==> sent != [] && sent[|sent| - 1].PanicForward?
    {
      sent := [];
      var i := 0;
      while i < |received|
        invariant 0 <= i <= |received| && |sent| == i
        invariant forall k :: 0 <= k < i ==> sent[k] == Forward(addrMap, idx, received[k])
      {
        var req := received[i];
        i := i + 1;
        if req.subrange.NoAddr? {
          req := req.(mode := Failed(SubRange(req.subrange)));
          sent := sent + [Rejected(req)];
          continue;
        }
        var addrOfst := req.subrange.addr;
        if req.pattern.NoPattern? {
          sent := sent + [PanicForward];
          return;
        }
        var range := Span(req.pattern);
        if req.cmd.Announce? {
          req := req.(mode := Failed(Cmd(req.cmd)));
          sent := sent + [Rejected(req)];
          continue;
        }
        req := req.(stack := req.stack + [idx]);
        var dstPort := AddrRange.Find(addrMap, addrOfst, range);
        if dstPort.Ok? {
          var (arOfst, dst) := dstPort.value;
          req := req.(subrange := Phys(addrOfst - arOfst));
          sent := sent + [Routed(dst, req)];
        } else {
          req := req.(mode := Failed(Route(dstPort.error)));
          sent := sent + [Rejected(req)];
        }
      }
    }

    /** backward_layer of an outbound port, likewise. */
    method BackwardLayer(received: seq<Bus>) returns (sent: seq<Returned>)
      ensures |sent| <= |received| && forall k :: 0 <= k < |sent| ==> sent[k] == Backward(inbound, received[k])
      ensures |sent| < |received| ==> sent != [] && sent[|sent| - 1].PanicBackward?
    {
      sent := [];
      var i := 0;
      while i < |received|
        invariant 0 <= i <= |received| && |sent| == i
        invariant forall k :: 0 <= k < i ==> sent[k] == Backward(inbound, received[k])
      {
        var req := received[i];
        i := i + 1;
        if req.stack == [] {
          sent := sent + [PanicBackward];
          return;
        }
        var fromPort := req.stack[|req.stack| - 1];
        req := req.(stack := req.stack[..|req.stack| - 1]);
        if fromPort >= inbound || req.cmd.Announce? {
          sent := sent + [PanicBackward];
          return;
        }
        sent := sent + [Back(fromPort, req)];
      }
    }
  }

  // ------------------------------------------------------------ RAM

  /** A slice out of bounds and a data length that differs from the pattern panic. */
  datatype Handled = PanicRam | Handled(req: Bus, memory: seq<Byte>)

  function Handle(memory: seq<Byte>, req: Bus): Handled {
    if req.subrange.NoAddr? then Handled(req.(mode := Failed(SubRange(req.subrange))), memory)
    else if !req.pattern.Simple? then Handled(req.(mode := Failed(Pattern(req.pattern))), memory)
    else
      var addr, len := req.subrange.addr, req.pattern.len;
      match req.cmd
      case Read =>
        if addr + len > |memory| then PanicRam
        else Handled(req.(mode := Response, data := req.data + memory[addr..addr + len]), memory)
      case Write =>
        if |req.data| != len || addr + len > |memory| then PanicRam
        else Handled(req.(mode := Response), Overwrite(memory, addr, req.data))
      case Announce => Handled(req.(mode := Failed(Cmd(req.cmd))), memory)
  }

  /** Which requests a RAM handles: reads and writes of contiguous bytes at an address in its bounds, a write
      with just as many bytes; each other one has its own error or, out of bounds or of another length, panics. */
  lemma HandledIff(memory: seq<Byte>, req: Bus)
    ensures var r := Handle(memory, req);
      && (r == PanicRam <==>
            req.subrange.Phys? && req.pattern.Simple? && !req.cmd.Announce? &&
            (req.subrange.addr + req.pattern.len > |memory| || (req.cmd.Write? && |req.data| != req.pattern.len)))
      && (r.Handled? ==> r.req == req.(mode := r.req.mode, data := r.req.data) && |r.memory| == |memory|)
      && (r.Handled? && r.req.mode == Mode.Response <==> r.Handled? && req.subrange.Phys? && req.pattern.Simple? && !req.cmd.Announce?)
      && (r.Handled? && r.req.mode == Failed(SubRange(NoAddr)) <==> req.subrange.NoAddr?)
      && (r.Handled? && r.req.mode == Failed(Pattern(req.pattern)) <==> req.subrange.Phys? && !req.pattern.Simple?)
      && (r.Handled? && r.req.mode == Failed(Cmd(Announce)) <==> req.subrange.Phys? && req.pattern.Simple? && req.cmd.Announce?)
      && (r.Handled? && r.req.mode != Mode.Response ==> r.memory == memory && r.req.data == req.data)
  {
  }

  /** The RAM's port: it answers only requests that come out of Handle as responses; a request
      whose handling failed is dropped, and nothing is sent. */
  datatype Answer = PanicAnswer | Dropped | Answered(resp: Bus, memory: seq<Byte>)

  function Respond(memory: seq<Byte>, req: Bus): Answer {
    if !req.mode.Request? then Dropped
    else
      match Handle(memory, req)
      case PanicRam => PanicAnswer
      case Handled(out, after) => if out.mode.Response? then Answered(out, after) else Dropped
  }

  class NpRam {
    const memory: array<Byte>

    constructor (size: nat)
      ensures fresh(memory) && memory.Length == size && forall i :: 0 <= i < size ==> memory[i] == 0
    {
      memory := new Byte[size](_ => 0);
    }

    /** handle_request, changing the memory in place; None is a panic. */
    method HandleRequest(bus: Bus) returns (out: Option<Bus>)
      modifies memory
      ensures match Handle(old(memory[..]), bus)
              case PanicRam => out.None? && memory[..] == old(memory[..])
              case Handled(req, after) => out == Some(req) && memory[..] == after
    {
      var req := bus;
      if req.subrange.NoAddr? {
        return Some(req.(mode := Failed(SubRange(req.subrange))));
      }
      var addr := req.subrange.addr;
      if !req.pattern.Simple? {
        return Some(req.(mode := Failed(Pattern(req.pattern))));
      }
      var len := req.pattern.len;
      match req.cmd {
        case Read =>
          if addr + len > memory.Length {
            return None;
          }
          req := req.(data := req.data + memory[addr..addr + len]);
        case Write =>
          if |req.data| != len || addr + len > memory.Length {
            return None;
          }
          forall i | 0 <= i < len {
            memory[addr + i] := req.data[i];
          }
          assert memory[..] == Overwrite(old(memory[..]), addr, req.data);
        case Announce =>
          return Some(req.(mode := Failed(Cmd(req.cmd))));
      }
      out := Some(req.(mode := Response));
    }
  }

  // ------------------------------------------------------------ return path

  /** A crossbar on a path, and the inbound port through which the path enters it. */
  datatype Hop = Hop(table: AddrRange.Table, inbound: nat, idx: nat)

  /** The request after all hops, if each routed it; what outbound port was taken is the path's. */
  function Out(path: seq<Hop>, req: Bus): Option<Bus> {
    if path == [] then Some(req)
    else
      match Forward(path[0].table, path[0].idx, req)
      case Routed(_, next) => Out(path[1..], next)
      case _ => None
  }

  /** The inbound ports through which a response leaves the same crossbars, last hop first, and
      what arrives at the requester. None is a panic on the way. */
  function In(path: seq<Hop>, resp: Bus): Option<(seq<nat>, Bus)> {
    if path == [] then Some(([], resp))
    else
      match In(path[1..], resp)
      case None => None
      case Some((ports, back)) =>
        match Backward(path[0].inbound, back)
        case PanicBackward => None
        case Back(port, out) => Some((ports + [port], out))
  }

  function Indices(path: seq<Hop>): seq<nat> { seq(|path|, k requires 0 <= k < |path| => path[|path| - 1 - k].idx) }

  function Entered(path: seq<Hop>): seq<nat> { seq(|path|, k requires 0 <= k < |path| => path[k].idx) }

  /** The sum of the offsets of the ranges that `req` falls into, hop after hop. */
  function Offsets(path: seq<Hop>, req: Bus): nat
    requires Out(path, req).Some?
  {
    if path == [] then 0
    else
      var next := Forward(path[0].table, path[0].idx, req).req;
      req.subrange.addr - next.subrange.addr + Offsets(path[1..], next)
  }

  /** Each hop's offset is the start of the range of that hop that holds the access. */
  lemma HopOffsetIsRangeStart(hop: Hop, req: Bus)
    requires Forward(hop.table, hop.idx, req).Routed?
    ensures var r := Forward(hop.table, hop.idx, req);
      && req.subrange.Phys? && r.req.subrange.Phys? && !req.pattern.NoPattern? && r.req.subrange.addr <= req.subrange.addr
      && var offset := req.subrange.addr - r.req.subrange.addr;
      AddrRange.Covers(hop.table, offset, req.subrange.addr, Span(req.pattern)) && hop.table[offset].port == r.port
  {
  }

  /** Along any path of nested crossbars the request that gets through differs from the one sent
      in two ways only: the address is less by the sum of the range offsets, and the stack has
      grown by the inbound ports in the order of the path. */
  lemma {:induction false} OutRewrites(path: seq<Hop>, req: Bus)
    requires Out(path, req).Some? && (path == [] ==> req.subrange.Phys?)
    ensures req.subrange.Phys? && Offsets(path, req) <= req.subrange.addr
    ensures Out(path, req).value == req.(subrange := Phys(req.subrange.addr - Offsets(path, req)), stack := req.stack + Entered(path))
    decreases |path|
  {
    if path == [] {
      assert req.stack + Entered(path) == req.stack;
    } else {
      var next := Forward(path[0].table, path[0].idx, req).req;
      OutRewrites(path[1..], next);
      assert next == req.(subrange := next.subrange, stack := req.stack + [path[0].idx]);
      assert [path[0].idx] + Entered(path[1..]) == Entered(path);
      assert next.stack + Entered(path[1..]) == req.stack + Entered(path);
      hide Entered;
      var addr := next.subrange.addr - Offsets(path[1..], next);
      assert addr == req.subrange.addr - Offsets(path, req);
      assert Out(path, req).value == next.(subrange := Phys(addr), stack := req.stack + Entered(path));
    }
  }

  /** Any response whose stack is the one the request arrived with comes back through the same
      inbound ports in reverse, with the requester's own stack and all else unchanged; it panics on the way
      exactly when some crossbar has no such port. */
  lemma {:induction false} InReturnsBy(path: seq<Hop>, stack: seq<nat>, resp: Bus)
    requires resp.stack == stack + Entered(path) && !resp.cmd.Announce?
    ensures In(path, resp) ==
      if forall k :: 0 <= k < |path| ==> path[k].idx < path[k].inbound then Some((Indices(path), resp.(stack := stack))) else None
    decreases |path|
  {
    if path == [] {
      assert stack + Entered(path) == stack && Indices(path) == [];
      assert resp.(stack := stack) == resp;
    } else {
      var inner := stack + [path[0].idx];
      assert [path[0].idx] + Entered(path[1..]) == Entered(path);
      assert inner + Entered(path[1..]) == resp.stack;
      InReturnsBy(path[1..], inner, resp);
      BackwardPops(path[0], stack, resp);
      assert Indices(path[1..]) + [path[0].idx] == Indices(path);
      hide Indices, Backward, Entered;
      assert forall k :: 1 <= k < |path| ==> path[k] == path[1..][k - 1];
      if forall k :: 0 <= k < |path| ==> path[k].idx < path[k].inbound {
        assert In(path[1..], resp) == Some((Indices(path[1..]), resp.(stack := inner)));
        assert In(path, resp) == Some((Indices(path[1..]) + [path[0].idx], resp.(stack := stack)));
      } else if In(path[1..], resp).Some? {
        assert path[0].idx >= path[0].inbound;
      }
    }
  }

  lemma BackwardPops(hop: Hop, stack: seq<nat>, resp: Bus)
    requires !resp.cmd.Announce?
    ensures Backward(hop.inbound, resp.(stack := stack + [hop.idx])) ==
      if hop.idx < hop.inbound then Back(hop.idx, resp.(stack := stack)) else PanicBackward
  {
    var inner := stack + [hop.idx];
    assert inner[..|inner| - 1] == stack;
  }

  /** Out and back through the RAM behind the path: the requester gets its own stack back. */
  lemma RoundTrip(path: seq<Hop>, req: Bus, memory: seq<Byte>)
    requires req.subrange.Phys? && Out(path, req).Some? && Respond(memory, Out(path, req).value).Answered?
    requires forall k :: 0 <= k < |path| ==> path[k].idx < path[k].inbound
    ensures var resp := Respond(memory, Out(path, req).value).resp;
      In(path, resp) == Some((Indices(path), resp.(stack := req.stack)))
  {
    OutRewrites(path, req);
    InReturnsBy(path, req.stack, Respond(memory, Out(path, req).value).resp);
  }

  /** The stack is not balanced when a crossbar finds no range: the packet goes back to the
      requester with the index of the inbound port still on it. In every other case it left the
      crossbar without that index. */
  lemma RejectedKeepsIndexOnRouteError(t: AddrRange.Table, idx: nat, req: Bus)
    requires Forward(t, idx, req).Rejected?
    ensures var out := Forward(t, idx, req).req;
      && out.mode.Failed?
      && (out.mode.error.Route? <==> out.stack == req.stack + [idx])
      && (!out.mode.error.Route? <==> out.stack == req.stack)
      && out.(mode := req.mode, stack := req.stack) == req
  {
    assert |req.stack + [idx]| == |req.stack| + 1;
  }
}
