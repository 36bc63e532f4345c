/** A crossbar with a RAM on each outbound port, serving any number of requests at once, refines one
    flat byte memory. */
module Fabric {
  import opened Memory
  import opened Wrappers
  import opened MemBus
  import opened AddrRange

  /** A request that reached a RAM, as the flat memory would see it: address before any rewrite. */
  datatype Access = Access(cmd: Command, addr: nat, bytes: seq<Byte>)

  datatype Place = AtXBar | AtRam(port: nat) | AtReturn | Delivered(port: nat) | Lost

  /** `orig` is the request as issued through inbound port `idx`; `served` is where the log has it. */
  datatype Packet = Packet(orig: Bus, idx: nat, place: Place, bus: Bus, served: Option<nat>)

  datatype State = State(table: Table, inbound: nat, rams: seq<seq<Byte>>, packets: map<nat, Packet>, log: seq<Access>)

  datatype Step = Issue(x: nat, idx: nat, req: Bus) | Switch(x: nat) | Serve(x: nat) | Return(x: nat)

  datatype Outcome = Fault | Done(state: State)

  /** What a requester must respect: a pattern with every address, and as much data as a contiguous write asks for. */
  predicate Sane(req: Bus) {
    && req.mode.Request? && (req.subrange.Phys? ==> !req.pattern.NoPattern?)
    && (req.cmd.Write? && req.pattern.Simple? ==> |req.data| == req.pattern.len)
  }

  predicate Enabled(s: State, step: Step) {
    match step
    case Issue(x, idx, req) => x !in s.packets && idx < s.inbound && Sane(req)
    case Switch(x) => x in s.packets && s.packets[x].place.AtXBar?
    case Serve(x) => x in s.packets && s.packets[x].place.AtRam?
    case Return(x) => x in s.packets && s.packets[x].place.AtReturn?
  }

  function Put(s: State, x: nat, p: Packet): State { s.(packets := s.packets[x := p]) }

  function ServeRam(s: State, x: nat): Outcome
    requires x in s.packets && s.packets[x].place.AtRam?
  {
    var p := s.packets[x];
    if p.place.port >= |s.rams| then Fault
    else
      match Respond(s.rams[p.place.port], p.bus)
      case PanicAnswer => Fault
      case Dropped => Done(Put(s, x, p.(place := Lost)))
      case Answered(resp, memory) =>
        var addr := if p.orig.subrange.Phys? then p.orig.subrange.addr else 0;
        var bytes := if p.bus.cmd.Read? then resp.data[|p.bus.data|..] else p.bus.data;
        Done(Put(s, x, p.(place := AtReturn, bus := resp, served := Some(|s.log|))).(
          rams := s.rams[p.place.port := memory], log := s.log + [Access(p.bus.cmd, addr, bytes)]))
  }

  function Apply(s: State, step: Step): Outcome
    requires Enabled(s, step)
  {
    match step
    case Issue(x, idx, req) => Done(Put(s, x, Packet(req, idx, AtXBar, req, None)))
    case Switch(x) =>
      (var p := s.packets[x];
       match Forward(s.table, p.idx, p.bus)
       case PanicForward => Fault
       case Routed(port, req) => Done(Put(s, x, p.(place := AtRam(port), bus := req)))
       case Rejected(req) => Done(Put(s, x, p.(place := Delivered(p.idx), bus := req))))
    case Serve(x) => ServeRam(s, x)
    case Return(x) =>
      var p := s.packets[x];
      match Backward(s.inbound, p.bus)
      case PanicBackward => Fault
      case Back(port, resp) => Done(Put(s, x, p.(place := Delivered(port), bus := resp)))
  }

  // ------------------------------------------------------------ flat memory

  type Flat = map<nat, Byte>

  function FlatRead(flat: Flat, addr: nat, len: nat): seq<Byte>
    requires forall a :: addr <= a < addr + len ==> a in flat
  {
    seq(len, i requires 0 <= i < len => flat[addr + i])
  }

  function FlatWrite(flat: Flat, addr: nat, bytes: seq<Byte>): Flat {
    map a | a in flat :: if addr <= a < addr + |bytes| then bytes[a - addr] else flat[a]
  }

  function Replay(flat: Flat, log: seq<Access>): Flat {
    if log == [] then flat
    else
      var before, a := Replay(flat, log[..|log| - 1]), log[|log| - 1];
      if a.cmd.Write? then FlatWrite(before, a.addr, a.bytes) else before
  }

  /** The flat memory has exactly the mapped addresses, each with the byte of its RAM. */
  ghost predicate Represents(t: Table, rams: seq<seq<Byte>>, flat: Flat) {
    && (forall a: nat :: a in flat ==> exists o: nat :: Covers(t, o, a, 1))
    && (forall o: nat, a: nat :: Covers(t, o, a, 1) ==>
          t[o].port < |rams| && a - o < |rams[t[o].port]| && a in flat && flat[a] == rams[t[o].port][a - o])
  }

  /** Registered ranges are separated, as large as their RAMs, and no two lead to one RAM. */
  ghost predicate TableOk(t: Table, rams: seq<seq<Byte>>) {
    && Separated(t)
    && (forall o :: o in t ==> t[o].port < |rams| && t[o].size == |rams[t[o].port]|)
    && (forall o, q :: o in t && q in t && o != q ==> t[o].port != t[q].port)
  }

  function FlatByte(t: Table, rams: seq<seq<Byte>>, a: nat): Byte {
    match Find(t, a, 1)
    case Ok((o, port)) => if port < |rams| && o <= a && a - o < |rams[port]| then rams[port][a - o] else 0
    case Err(_) => 0
  }

  lemma FlatByteIs(t: Table, rams: seq<seq<Byte>>, o: nat, a: nat)
    requires TableOk(t, rams) && Covers(t, o, a, 1)
    ensures t[o].port < |rams| && a - o < |rams[t[o].port]| && FlatByte(t, rams, a) == rams[t[o].port][a - o]
  {
    FindIsScan(t, a, 1);
    hide Find;
    assert Find(t, a, 1) == Ok((o, t[o].port));
  }

  /** Such a flat memory exists for every correct table. */
  lemma FlatExists(t: Table, rams: seq<seq<Byte>>) returns (flat: Flat)
    requires TableOk(t, rams)
    ensures Represents(t, rams, flat)
  {
    hide FlatByte, Separated;
    var mapped := set o, a | o in t && o <= a < End(t, o) && Covers(t, o, a, 1) :: a;
    flat := map a | a in mapped :: FlatByte(t, rams, a);
    forall o: nat, a: nat | Covers(t, o, a, 1)
      ensures t[o].port < |rams| && a - o < |rams[t[o].port]| && a in flat && flat[a] == rams[t[o].port][a - o]
    {
      FlatByteIs(t, rams, o, a);
      assert a in mapped;
    }
  }

  lemma ReadRefines(t: Table, rams: seq<seq<Byte>>, flat: Flat, addr: nat, len: nat, o: nat)
    requires TableOk(t, rams) && Represents(t, rams, flat) && Covers(t, o, addr, len)
    ensures t[o].port < |rams| && addr - o + len <= |rams[t[o].port]|
    ensures forall a :: addr <= a < addr + len ==> a in flat
    ensures rams[t[o].port][addr - o..addr - o + len] == FlatRead(flat, addr, len)
  {
    forall a | addr <= a < addr + len
      ensures a in flat && flat[a] == rams[t[o].port][a - o]
    {
      assert Covers(t, o, a, 1);
    }
  }

  lemma WriteRefines(t: Table, rams: seq<seq<Byte>>, flat: Flat, addr: nat, bytes: seq<Byte>, o: nat)
    requires TableOk(t, rams) && Represents(t, rams, flat) && Covers(t, o, addr, |bytes|)
    ensures var port := t[o].port; addr - o + |bytes| <= |rams[port]|
    ensures var port := t[o].port; var after := rams[port := Overwrite(rams[port], addr - o, bytes)];
      TableOk(t, after) && Represents(t, after, FlatWrite(flat, addr, bytes))
  {
    var port := t[o].port;
    var after := rams[port := Overwrite(rams[port], addr - o, bytes)];
    forall q: nat, a: nat | Covers(t, q, a, 1)
      ensures t[q].port < |after| && a - q < |after[t[q].port]|
      ensures a in flat && FlatWrite(flat, addr, bytes)[a] == after[t[q].port][a - q]
    {
      WrittenByte(t, rams, flat, addr, bytes, o, q, a);
    }
  }

  lemma WrittenByte(t: Table, rams: seq<seq<Byte>>, flat: Flat, addr: nat, bytes: seq<Byte>, o: nat, q: nat, a: nat)
    requires TableOk(t, rams) && Represents(t, rams, flat) && Covers(t, o, addr, |bytes|) && Covers(t, q, a, 1)
    ensures var port := t[o].port;
      var after := rams[port := Overwrite(rams[port], addr - o, bytes)];
      && t[q].port < |after| && a - q < |after[t[q].port]| && a in flat
      && FlatWrite(flat, addr, bytes)[a] == after[t[q].port][a - q]
  {
    if q != o {
      if q < o {
        assert End(t, q) <= o;
      } else {
        assert End(t, o) <= q;
      }
    }
  }

  // ------------------------------------------------------------ invariant

  /** What becomes of a request is decided by the request and the table alone. */
  datatype Fate = Refused(error: MemBus.Error) | Unanswered | Served(offset: nat, port: nat)

  function FateOf(t: Table, req: Bus): Fate
    requires Sane(req)
  {
    if req.subrange.NoAddr? then Refused(SubRange(req.subrange))
    else if req.cmd.Announce? then Refused(Cmd(req.cmd))
    else
      match Find(t, req.subrange.addr, Span(req.pattern))
      case Err(e) => Refused(Route(e))
      case Ok((offset, port)) => if req.pattern.Simple? then Served(offset, port) else Unanswered
  }

  /** The request inside the fabric: address relative to its range, inbound index on the stack. */
  function Inner(t: Table, req: Bus, idx: nat): Bus
    requires Sane(req) && req.subrange.Phys? && Find(t, req.subrange.addr, Span(req.pattern)).Ok?
    requires Find(t, req.subrange.addr, Span(req.pattern)).value.0 <= req.subrange.addr
  {
    req.(subrange := Phys(req.subrange.addr - Find(t, req.subrange.addr, Span(req.pattern)).value.0), stack := req.stack + [idx])
  }

  /** Entry `i` of the log is the access that `req` asked for, once. */
  predicate LoggedAt(log: seq<Access>, req: Bus, served: Option<nat>, bytes: seq<Byte>) {
    && served.Some? && served.value < |log| && req.subrange.Phys? && req.pattern.Simple?
    && log[served.value] == Access(req.cmd, req.subrange.addr, bytes) && |bytes| == req.pattern.len
    && (req.cmd.Write? ==> bytes == req.data)
  }

  /** The response that `req` deserves, when its access saw or wrote `bytes`. */
  function Response(t: Table, req: Bus, bytes: seq<Byte>): Bus
    requires Sane(req) && FateOf(t, req).Served? && FateOf(t, req).offset <= req.subrange.addr
  {
    req.(mode := Mode.Response, subrange := Phys(req.subrange.addr - FateOf(t, req).offset),
         data := if req.cmd.Read? then req.data + bytes else req.data)
  }

  /** What a refused requester gets back; only after a failed look-up is its inbound index left on the stack. */
  function Refusal(req: Bus, idx: nat, error: MemBus.Error): Bus {
    req.(mode := Failed(error), stack := if error.Route? then req.stack + [idx] else req.stack)
  }

  ghost predicate PacketOk(t: Table, inbound: nat, log: seq<Access>, p: Packet) {
    && Sane(p.orig) && p.idx < inbound
    && var fate := FateOf(t, p.orig);
    && (fate.Served? ==> fate.offset <= p.orig.subrange.addr)
    && match p.place
       case AtXBar => p.bus == p.orig && p.served.None?
       case AtRam(port) =>
         && p.served.None? && !fate.Refused? && p.orig.subrange.Phys?
         && var found := Find(t, p.orig.subrange.addr, Span(p.orig.pattern)).value;
         && port == found.1 && found.0 <= p.orig.subrange.addr && p.bus == Inner(t, p.orig, p.idx)
       case AtReturn =>
         && fate.Served?
         && exists bytes :: LoggedAt(log, p.orig, p.served, bytes) &&
              p.bus == Response(t, p.orig, bytes).(stack := p.orig.stack + [p.idx])
       case Delivered(port) =>
         && port == p.idx
         && (fate.Served? || fate.Refused?)
         && (fate.Served? ==> exists bytes :: LoggedAt(log, p.orig, p.served, bytes) && p.bus == Response(t, p.orig, bytes))
         && (fate.Refused? ==> p.served.None? && p.bus == Refusal(p.orig, p.idx, fate.error))
       case Lost => fate.Unanswered? && p.served.None?
  }

  ghost predicate PacketsOk(s: State) {
    forall x :: x in s.packets ==> PacketOk(s.table, s.inbound, s.log, s.packets[x])
  }

  /** Every logged access is what the flat memory, after the accesses before it, allows and holds. */
  ghost predicate AccessOk(flat: Flat, log: seq<Access>, i: nat)
    requires i < |log|
  {
    var before, a := Replay(flat, log[..i]), log[i];
    && (forall b: nat :: a.addr <= b < a.addr + |a.bytes| ==> b in before)
    && (a.cmd.Read? ==> a.bytes == FlatRead(before, a.addr, |a.bytes|))
  }

  ghost predicate Refines(s: State, flat: Flat) {
    && TableOk(s.table, s.rams)
    && Represents(s.table, s.rams, Replay(flat, s.log))
    && (forall i :: 0 <= i < |s.log| ==> AccessOk(flat, s.log, i))
  }

  predicate Owns(s: State, x: nat, i: nat) { x in s.packets && s.packets[x].served == Some(i) }

  ghost predicate Owned(s: State, i: nat) { exists x :: Owns(s, x, i) }

  /** Each access was made for one packet, and for no other. */
  ghost predicate OneOwner(s: State) {
    && (forall i :: 0 <= i < |s.log| ==> Owned(s, i))
    && (forall x, y :: x in s.packets && y in s.packets && x != y && s.packets[x].served.Some? ==>
          s.packets[x].served != s.packets[y].served)
    && (forall x :: x in s.packets && s.packets[x].served.Some? ==> s.packets[x].served.value < |s.log|)
  }

  ghost predicate Inv(s: State, flat: Flat) { Refines(s, flat) && PacketsOk(s) && OneOwner(s) }

  // ------------------------------------------------------------ steps

  lemma MoreLog(t: Table, inbound: nat, log: seq<Access>, more: seq<Access>, p: Packet)
    requires PacketOk(t, inbound, log, p)
    ensures PacketOk(t, inbound, log + more, p)
  {
    forall bytes | LoggedAt(log, p.orig, p.served, bytes)
      ensures LoggedAt(log + more, p.orig, p.served, bytes)
    {
    }
  }

  lemma PutKeeps(s: State, flat: Flat, x: nat, p: Packet)
    requires Inv(s, flat) && PacketOk(s.table, s.inbound, s.log, p)
    requires if x in s.packets then p.served == s.packets[x].served else p.served.None?
    ensures Inv(Put(s, x, p), flat)
  {
    hide PacketOk, Refines;
    var t := Put(s, x, p);
    assert Refines(t, flat) by { SameRefines(s, t, flat); }
    forall i | 0 <= i < |t.log|
      ensures Owned(t, i)
    {
      assert Owned(s, i);
      var y :| Owns(s, y, i);
      assert Owns(t, y, i);
    }
  }

  lemma SameRefines(s: State, t: State, flat: Flat)
    requires Refines(s, flat) && t.table == s.table && t.rams == s.rams && t.log == s.log
    ensures Refines(t, flat)
  {
  }

  lemma FoundBelow(t: Table, addr: nat, len: nat)
    requires Find(t, addr, len).Ok?
    ensures var o := Find(t, addr, len).value.0; o <= addr && Covers(t, o, addr, len) && t[o].port == Find(t, addr, len).value.1
  {
  }

  lemma RouteKeeps(s: State, flat: Flat, x: nat)
    requires Inv(s, flat) && Enabled(s, Switch(x))
    ensures Apply(s, Switch(x)).Done? && Inv(Apply(s, Switch(x)).state, flat)
  {
    hide Refines, Find;
    var p := s.packets[x];
    if p.orig.subrange.Phys? && Find(s.table, p.orig.subrange.addr, Span(p.orig.pattern)).Ok? {
      FoundBelow(s.table, p.orig.subrange.addr, Span(p.orig.pattern));
    }
    assert PacketOk(s.table, s.inbound, s.log, p);
    var r := Forward(s.table, p.idx, p.bus);
    assert !r.PanicForward?;
    var q := if r.Routed? then p.(place := AtRam(r.port), bus := r.req) else p.(place := Delivered(p.idx), bus := r.req);
    assert PacketOk(s.table, s.inbound, s.log, q);
    hide PacketOk, Forward;
    PutKeeps(s, flat, x, q);
  }

  lemma ReturnKeeps(s: State, flat: Flat, x: nat)
    requires Inv(s, flat) && Enabled(s, Return(x))
    ensures Apply(s, Return(x)).Done? && Inv(Apply(s, Return(x)).state, flat)
  {
    hide Refines, Find;
    var p := s.packets[x];
    assert PacketOk(s.table, s.inbound, s.log, p);
    var stack := p.orig.stack + [p.idx];
    assert stack[..|stack| - 1] == p.orig.stack;
    var q := p.(place := Delivered(p.idx), bus := p.bus.(stack := p.orig.stack));
    assert Backward(s.inbound, p.bus) == Back(p.idx, q.bus);
    assert PacketOk(s.table, s.inbound, s.log, q);
    hide PacketOk;
    PutKeeps(s, flat, x, q);
  }

  /** One more access that the flat memory confirms. */
  lemma OneMoreAccess(s: State, flat: Flat, a: Access, rams: seq<seq<Byte>>)
    requires Refines(s, flat) && TableOk(s.table, rams)
    requires var before := Replay(flat, s.log);
      && (forall b: nat :: a.addr <= b < a.addr + |a.bytes| ==> b in before)
      && (a.cmd.Read? ==> a.bytes == FlatRead(before, a.addr, |a.bytes|))
      && Represents(s.table, rams, if a.cmd.Write? then FlatWrite(before, a.addr, a.bytes) else before)
    ensures Refines(s.(rams := rams, log := s.log + [a]), flat)
  {
    hide Represents, TableOk, FlatRead, FlatWrite;
    var log := s.log + [a];
    assert log[..|s.log|] == s.log;
    forall i | 0 <= i < |log|
      ensures AccessOk(flat, log, i)
    {
      if i < |s.log| {
        assert log[..i] == s.log[..i];
        assert AccessOk(flat, s.log, i);
      }
    }
  }

  /** The RAM behind the range holds the addressed bytes, at the address the crossbar computed. */
  lemma RamServes(s: State, flat: Flat, x: nat)
    requires Refines(s, flat) && x in s.packets && s.packets[x].place.AtRam?
    requires PacketOk(s.table, s.inbound, s.log, s.packets[x]) && FateOf(s.table, s.packets[x].orig).Served?
    ensures var p := s.packets[x]; var port, req, o := p.place.port, p.orig, FateOf(s.table, p.orig).offset;
      && port < |s.rams| && o <= req.subrange.addr && req.subrange.addr - o + req.pattern.len <= |s.rams[port]|
      && o in s.table && s.table[o].port == port && Covers(s.table, o, req.subrange.addr, req.pattern.len)
  {
    hide Represents, Find;
    var req := s.packets[x].orig;
    FoundBelow(s.table, req.subrange.addr, Span(req.pattern));
  }

  /** The state after RAM `port` answered packet `x`, whose access saw or wrote `bytes`. */
  function Answering(s: State, x: nat, memory: seq<Byte>, bytes: seq<Byte>): State
    requires x in s.packets && s.packets[x].place.AtRam? && s.packets[x].place.port < |s.rams|
    requires Sane(s.packets[x].orig) && FateOf(s.table, s.packets[x].orig).Served?
    requires FateOf(s.table, s.packets[x].orig).offset <= s.packets[x].orig.subrange.addr
  {
    var p := s.packets[x];
    var resp := Response(s.table, p.orig, bytes).(stack := p.orig.stack + [p.idx]);
    Put(s, x, p.(place := AtReturn, bus := resp, served := Some(|s.log|))).(
      rams := s.rams[p.place.port := memory], log := s.log + [Access(p.orig.cmd, p.orig.subrange.addr, bytes)])
  }

  lemma AnsweringKeeps(s: State, flat: Flat, x: nat, memory: seq<Byte>, bytes: seq<Byte>)
    requires Inv(s, flat) && x in s.packets && s.packets[x].place.AtRam? && s.packets[x].place.port < |s.rams|
    requires Sane(s.packets[x].orig) && FateOf(s.table, s.packets[x].orig).Served?
    requires FateOf(s.table, s.packets[x].orig).offset <= s.packets[x].orig.subrange.addr
    requires |bytes| == s.packets[x].orig.pattern.len && (s.packets[x].orig.cmd.Write? ==> bytes == s.packets[x].orig.data)
    requires Refines(Answering(s, x, memory, bytes), flat)
    ensures Inv(Answering(s, x, memory, bytes), flat)
  {
    ServedCommand(s.table, s.packets[x].orig);
    hide Refines, FateOf, Response;
    var t, p := Answering(s, x, memory, bytes), s.packets[x];
    forall y | y in t.packets
      ensures PacketOk(t.table, t.inbound, t.log, t.packets[y])
    {
      if y != x {
        hide PacketOk;
        MoreLog(s.table, s.inbound, s.log, [t.log[|s.log|]], s.packets[y]);
      } else {
        assert PacketOk(s.table, s.inbound, s.log, p);
        assert LoggedAt(t.log, p.orig, t.packets[x].served, bytes);
      }
    }
    assert p.served.None? by { assert PacketOk(s.table, s.inbound, s.log, p); }
    hide PacketOk;
    AnsweringOwner(s, t, x);
  }

  lemma AnsweringOwner(s: State, t: State, x: nat)
    requires OneOwner(s) && x in s.packets && s.packets[x].served.None? && |t.log| == |s.log| + 1
    requires x in t.packets && t.packets == s.packets[x := t.packets[x]] && t.packets[x].served == Some(|s.log|)
    ensures OneOwner(t)
  {
    forall i | 0 <= i < |t.log|
      ensures Owned(t, i)
    {
      if i < |s.log| {
        assert Owned(s, i);
        var y :| Owns(s, y, i);
        assert Owns(t, y, i);
      } else {
        assert Owns(t, x, i);
      }
    }
  }

  lemma ReadKeeps(s: State, flat: Flat, x: nat)
    requires Inv(s, flat) && x in s.packets && s.packets[x].place.AtRam? && PacketOk(s.table, s.inbound, s.log, s.packets[x])
    requires FateOf(s.table, s.packets[x].orig).Served? && s.packets[x].orig.cmd.Read?
    ensures ServeRam(s, x).Done? && Inv(ServeRam(s, x).state, flat)
  {
    hide OneOwner, PacketsOk, Find, AccessOk, Replay;
    RamServes(s, flat, x);
    var p := s.packets[x];
    var o, addr, len := FateOf(s.table, p.orig).offset, p.orig.subrange.addr, p.orig.pattern.len;
    var memory := s.rams[p.place.port];
    var bytes := memory[addr - o..addr - o + len];
    ReadRefines(s.table, s.rams, Replay(flat, s.log), addr, len, o);
    hide FlatRead, Represents, TableOk;
    assert s.rams[p.place.port := memory] == s.rams;
    assert (p.bus.data + bytes)[|p.bus.data|..] == bytes;
    assert ServeRam(s, x) == Done(Answering(s, x, memory, bytes));
    OneMoreAccess(s, flat, Access(Read, addr, bytes), s.rams);
    SameRefines(s.(rams := s.rams, log := s.log + [Access(Read, addr, bytes)]), Answering(s, x, memory, bytes), flat);
    AnsweringKeeps(s, flat, x, memory, bytes);
  }

  lemma WriteKeeps(s: State, flat: Flat, x: nat)
    requires Inv(s, flat) && x in s.packets && s.packets[x].place.AtRam? && PacketOk(s.table, s.inbound, s.log, s.packets[x])
    requires FateOf(s.table, s.packets[x].orig).Served? && s.packets[x].orig.cmd.Write?
    ensures ServeRam(s, x).Done? && Inv(ServeRam(s, x).state, flat)
  {
    hide OneOwner, PacketsOk, Find, AccessOk, Replay;
    RamServes(s, flat, x);
    var p := s.packets[x];
    var o, addr, bytes := FateOf(s.table, p.orig).offset, p.orig.subrange.addr, p.orig.data;
    var memory := Overwrite(s.rams[p.place.port], addr - o, bytes);
    var before := Replay(flat, s.log);
    ReadRefines(s.table, s.rams, before, addr, |bytes|, o);
    WriteRefines(s.table, s.rams, before, addr, bytes, o);
    hide FlatRead, Represents, TableOk, FlatWrite, Overwrite;
    assert ServeRam(s, x) == Done(Answering(s, x, memory, bytes));
    OneMoreAccess(s, flat, Access(Write, addr, bytes), s.rams[p.place.port := memory]);
    SameRefines(s.(rams := s.rams[p.place.port := memory], log := s.log + [Access(Write, addr, bytes)]), Answering(s, x, memory, bytes), flat);
    AnsweringKeeps(s, flat, x, memory, bytes);
  }

  lemma ServeKeeps(s: State, flat: Flat, x: nat)
    requires Inv(s, flat) && Enabled(s, Serve(x))
    ensures Apply(s, Serve(x)).Done? && Inv(Apply(s, Serve(x)).state, flat)
  {
    var p := s.packets[x];
    assert PacketOk(s.table, s.inbound, s.log, p);
    if FateOf(s.table, p.orig).Served? {
      hide Inv, ServeRam, PacketOk;
      ServedCommand(s.table, p.orig);
      if p.orig.cmd.Read? {
        ReadKeeps(s, flat, x);
      } else {
        WriteKeeps(s, flat, x);
      }
    } else {
      hide OneOwner, PacketsOk, Represents, Find;
      FoundBelow(s.table, p.orig.subrange.addr, Span(p.orig.pattern));
      var q := p.(place := Lost);
      assert ServeRam(s, x) == Done(Put(s, x, q));
      assert PacketOk(s.table, s.inbound, s.log, q);
      hide Inv, PacketOk;
      PutKeeps(s, flat, x, q);
    }
  }

  lemma ServedCommand(t: Table, req: Bus)
    requires Sane(req) && FateOf(t, req).Served?
    ensures (req.cmd.Read? || req.cmd.Write?) && req.subrange.Phys? && req.pattern.Simple?
  {
  }

  /** No panic in the crossbar or in a RAM, no slice out of bounds, and the refinement holds again. */
  lemma StepKeepsInv(s: State, flat: Flat, step: Step)
    requires Inv(s, flat) && Enabled(s, step)
    ensures Apply(s, step).Done? && Inv(Apply(s, step).state, flat)
  {
    hide Inv, ServeRam, Forward, Backward;
    match step
    case Issue(x, idx, req) =>
      var p := Packet(req, idx, AtXBar, req, None);
      if FateOf(s.table, req).Served? {
        FoundBelow(s.table, req.subrange.addr, Span(req.pattern));
      }
      assert PacketOk(s.table, s.inbound, s.log, p);
      PutKeeps(s, flat, x, p);
    case Switch(x) => RouteKeeps(s, flat, x);
    case Serve(x) => ServeKeeps(s, flat, x);
    case Return(x) => ReturnKeeps(s, flat, x);
  }

  // ------------------------------------------------------------ runs

  ghost predicate Init(s: State) { TableOk(s.table, s.rams) && s.packets == map[] && s.log == [] }

  predicate Run(s: State, steps: seq<Step>, r: Outcome)
    decreases |steps|
  {
    if steps == [] then r == Done(s)
    else
      && Enabled(s, steps[0])
      && match Apply(s, steps[0])
         case Fault => r == Fault
         case Done(t) => Run(t, steps[1..], r)
  }

  lemma SameTable(s: State, step: Step)
    requires Enabled(s, step) && Apply(s, step).Done?
    ensures Apply(s, step).state.table == s.table && Apply(s, step).state.inbound == s.inbound
  {
  }

  lemma {:induction false} AlwaysRefines(s: State, flat: Flat, steps: seq<Step>, r: Outcome)
    requires Inv(s, flat) && Run(s, steps, r)
    ensures r.Done? && Inv(r.state, flat) && r.state.table == s.table
    decreases |steps|
  {
    hide Inv, Apply, Enabled;
    if steps != [] {
      StepKeepsInv(s, flat, steps[0]);
      SameTable(s, steps[0]);
      AlwaysRefines(Apply(s, steps[0]).state, flat, steps[1..], r);
    }
  }

  /** Whatever requests are issued and however their steps interleave, nothing panics, and at any
      time the RAMs together are the flat memory after the accesses made so far. */
  lemma RamsAreFlat(s: State, flat: Flat, steps: seq<Step>, r: Outcome)
    requires Init(s) && Represents(s.table, s.rams, flat) && Run(s, steps, r)
    ensures r.Done? && Inv(r.state, flat) && r.state.table == s.table
    ensures Represents(s.table, r.state.rams, Replay(flat, r.state.log))
  {
    hide Run;
    assert Inv(s, flat);
    AlwaysRefines(s, flat, steps, r);
  }

  /** A read or write of contiguous bytes at an address. */
  predicate Plain(req: Bus) { req.subrange.Phys? && req.pattern.Simple? && !req.cmd.Announce? }

  lemma PlainServed(s: State, req: Bus)
    requires TableOk(s.table, s.rams) && Plain(req) && Sane(req)
    ensures FateOf(s.table, req).Served? <==> Within(s.table, req.subrange.addr, req.pattern.len)
    ensures FateOf(s.table, req).Served? || (FateOf(s.table, req).Refused? && FateOf(s.table, req).error.Route?)
  {
    hide Find;
    FindWithin(s.table, req.subrange.addr, req.pattern.len);
  }

  /** Who is answered: a read or write that one range holds is neither refused nor lost, it is delivered as a
      response only, after its access; any other one never reaches a RAM and is delivered as refused only. */
  lemma MappedIsAnswered(s: State, flat: Flat, steps: seq<Step>, r: Outcome, x: nat)
    requires Init(s) && Represents(s.table, s.rams, flat) && Run(s, steps, r) && r.Done?
    requires x in r.state.packets && Plain(r.state.packets[x].orig)
    ensures var p := r.state.packets[x]; !p.place.Lost?
    ensures var p := r.state.packets[x];
      Within(s.table, p.orig.subrange.addr, p.orig.pattern.len) ==> (p.place.Delivered? ==> p.bus.mode == Mode.Response && p.served.Some?)
    ensures var p := r.state.packets[x];
      !Within(s.table, p.orig.subrange.addr, p.orig.pattern.len) ==>
        p.served.None? && !p.place.AtRam? && (p.place.Delivered? ==> p.bus.mode.Failed? && p.bus.mode.error.Route?)
  {
    hide Run, Represents, Init, Find, Replay, TableOk, FlatRead, FlatWrite, OneOwner;
    RamsAreFlat(s, flat, steps, r);
    var p := r.state.packets[x];
    assert PacketOk(r.state.table, r.state.inbound, r.state.log, p);
    PlainServed(r.state, p.orig);
  }

  /** A delivered answer to a request that fits into a range: its one access is in the log, a read
      got what the flat memory held then, a write put its data there, and the stack is restored. */
  lemma ServedAsFlat(s: State, flat: Flat, steps: seq<Step>, r: Outcome, x: nat)
    requires Init(s) && Represents(s.table, s.rams, flat) && Run(s, steps, r) && r.Done?
    requires x in r.state.packets && r.state.packets[x].place.Delivered? && Plain(r.state.packets[x].orig)
    requires Within(s.table, r.state.packets[x].orig.subrange.addr, r.state.packets[x].orig.pattern.len)
    ensures var p := r.state.packets[x];
      && p.served.Some? && p.served.value < |r.state.log| && p.orig.subrange.Phys? && p.orig.pattern.Simple?
      && var before, a, addr, len := Replay(flat, r.state.log[..p.served.value]), r.state.log[p.served.value], p.orig.subrange.addr, p.orig.pattern.len;
      && a.cmd == p.orig.cmd && a.addr == addr && |a.bytes| == len && (forall b: nat :: addr <= b < addr + len ==> b in before)
      && p.place.port == p.idx && p.bus.stack == p.orig.stack && p.bus.mode == Mode.Response
      && (a.cmd.Write? ==> a.bytes == p.orig.data && p.bus.data == p.orig.data)
      && (a.cmd.Read? ==> a.bytes == FlatRead(before, addr, len) && p.bus.data == p.orig.data + a.bytes)
  {
    hide Run, Represents, Init, Find, Replay, TableOk, FlatRead, FlatWrite;
    RamsAreFlat(s, flat, steps, r);
    var p := r.state.packets[x];
    assert PacketOk(r.state.table, r.state.inbound, r.state.log, p);
    PlainServed(r.state, p.orig);
    assert AccessOk(flat, r.state.log, p.served.value);
  }

  /** Who is refused is decided by request and table; a refused request and one that a RAM cannot
      handle made no access, so they left every memory as it was. */
  lemma RefusedLeavesMemory(s: State, flat: Flat, steps: seq<Step>, r: Outcome, x: nat)
    requires Init(s) && Represents(s.table, s.rams, flat) && Run(s, steps, r) && r.Done?
    requires x in r.state.packets && Sane(r.state.packets[x].orig)
    ensures var p, fate := r.state.packets[x], FateOf(s.table, r.state.packets[x].orig);
      && (!fate.Served? ==> forall i :: 0 <= i < |r.state.log| ==> !Owns(r.state, x, i))
      && (p.place.Lost? ==> fate.Unanswered?) && (fate.Unanswered? ==> !p.place.Delivered?)
      && (p.place.Delivered? && fate.Refused? ==> p.place.port == p.idx && p.bus == Refusal(p.orig, p.idx, fate.error))
  {
    hide Run, Represents, Init, Find, Replay, TableOk, FlatRead, FlatWrite, Refines, OneOwner;
    RamsAreFlat(s, flat, steps, r);
    assert PacketOk(r.state.table, r.state.inbound, r.state.log, r.state.packets[x]);
  }

  /** Every access of the flat memory was asked for by exactly one request. */
  lemma AccessesAreRequests(s: State, flat: Flat, steps: seq<Step>, r: Outcome, i: nat)
    requires Init(s) && Represents(s.table, s.rams, flat) && Run(s, steps, r) && r.Done? && i < |r.state.log|
    ensures exists x :: Owns(r.state, x, i)
    ensures forall x, y :: Owns(r.state, x, i) && Owns(r.state, y, i) ==> x == y
  {
    hide Run, Represents, Init, Find, Replay, TableOk, FlatRead, FlatWrite, Refines, PacketOk;
    RamsAreFlat(s, flat, steps, r);
    assert Owned(r.state, i);
  }

  /** A stride access reaches the RAM, which cannot handle it: no answer ever comes back. */
  lemma StrideIsNeverAnswered(s: State, flat: Flat, steps: seq<Step>, r: Outcome, x: nat)
    requires Init(s) && Represents(s.table, s.rams, flat) && Run(s, steps, r) && r.Done?
    requires x in r.state.packets && var req := r.state.packets[x].orig;
      req.subrange.Phys? && req.pattern.Stride? && !req.cmd.Announce? && Find(s.table, req.subrange.addr, Span(req.pattern)).Ok?
    ensures !r.state.packets[x].place.Delivered? && !r.state.packets[x].place.AtReturn?
  {
    hide Run, Represents, Init, Replay, TableOk, FlatRead, FlatWrite, Refines, OneOwner;
    RamsAreFlat(s, flat, steps, r);
    assert PacketOk(r.state.table, r.state.inbound, r.state.log, r.state.packets[x]);
  }
}
