/** A Dma engine on one inbound port of a crossbar with RAMs, beside any other requesters: a request that
    is answered copied bytes in the flat memory, whatever was interleaved. */
module DmaFabric {
  import opened Memory
  import opened Wrappers
  import opened MemBus
  import D = Dma
  import F = Fabric
  import AddrRange

  /** The packets of a request in the fabric: its read, and its write once that is sent. */
  datatype Link = Link(read: nat, write: Option<nat>)

  /** The engine sits on inbound port `port`. */
  datatype State = State(dma: D.State, fabric: F.State, port: nat, links: seq<Link>)

  datatype Step =
    | Reserve
    | Submit(readFrom: nat, writeTo: nat, pattern: Pattern, x: nat)   // its read enters the fabric as packet x
    | Deliver(t: nat, x: nat)                                         // its write, if any, does
    | Others(step: F.Step)                                            // crossbar, RAMs and other requesters

  datatype Outcome = Fault | Done(state: State)

  /** The last packet sent for the request in slot `t`. */
  function Current(s: State, t: nat): Option<nat> {
    if t < |s.dma.engine.store| && s.dma.engine.store[t].Some? && s.dma.engine.store[t].value.id < |s.links| then
      var link := s.links[s.dma.engine.store[t].value.id];
      Some(if link.write.Some? then link.write.value else link.read)
    else None
  }

  /** Packet `y` has come back to port `port`. */
  predicate CameBack(s: State, y: nat) {
    y in s.fabric.packets && s.fabric.packets[y].place == F.Delivered(s.port)
  }

  predicate Enabled(s: State, step: Step) {
    match step
    case Reserve => D.Enabled(s.dma, D.Reserve)
    case Submit(readFrom, writeTo, pattern, x) =>
      D.Enabled(s.dma, D.Submit(readFrom, writeTo, pattern)) && x !in s.fabric.packets && s.port < s.fabric.inbound
    case Deliver(t, x) =>
      && Current(s, t).Some? && CameBack(s, Current(s, t).value) && x !in s.fabric.packets && s.port < s.fabric.inbound
      && D.Enabled(s.dma, D.Complete(t, s.fabric.packets[Current(s, t).value].bus))
    case Others(step) => F.Enabled(s.fabric, step) && (step.Issue? ==> step.idx != s.port)
  }

  /** The fabric takes packet `x`. */
  function Put(s: State, x: nat, bus: Bus): F.State { F.Put(s.fabric, x, F.Packet(bus, s.port, F.AtXBar, bus, None)) }

  function Apply(s: State, step: Step): Outcome
    requires Enabled(s, step)
  {
    match step
    case Reserve =>
      (match D.Apply(s.dma, D.Reserve)
       case None => Fault
       case Some(d) => Done(s.(dma := d)))
    case Submit(readFrom, writeTo, pattern, x) =>
      (match D.Apply(s.dma, D.Submit(readFrom, writeTo, pattern))
       case None => Fault
       case Some(d) =>
         var token := s.dma.engine.held.value;
         if token !in d.flights then Fault
         else Done(s.(dma := d, fabric := Put(s, x, d.flights[token]), links := s.links + [Link(x, None)])))
    case Deliver(t, x) =>
      (var id := s.dma.engine.store[t].value.id;
       match D.Apply(s.dma, D.Complete(t, s.fabric.packets[Current(s, t).value].bus))
       case None => Fault
       case Some(d) =>
         if t in d.flights then
           Done(s.(dma := d, fabric := Put(s, x, d.flights[t]), links := s.links[id := s.links[id].(write := Some(x))]))
         else Done(s.(dma := d)))
    case Others(step) =>
      match F.Apply(s.fabric, step)
      case Fault => Fault
      case Done(f) => Done(s.(fabric := f))
  }

  // ------------------------------------------------------------ what holds in every run

  /** One range holds all that the read reaches over, and one all that the write does. */
  ghost predicate Mapped(t: AddrRange.Table, req: D.DmaReq) {
    exists len: nat :: Reaches(req.pattern, len) && AddrRange.Within(t, req.readFrom, len) && AddrRange.Within(t, req.writeTo, len)
  }

  lemma MappedFound(t: AddrRange.Table, req: D.DmaReq)
    requires Mapped(t, req) && AddrRange.Separated(t)
    ensures !req.pattern.NoPattern?
    ensures AddrRange.Find(t, req.readFrom, Span(req.pattern)).Ok? && AddrRange.Find(t, req.writeTo, Span(req.pattern)).Ok?
  {
    var len: nat :| Reaches(req.pattern, len) && AddrRange.Within(t, req.readFrom, len) && AddrRange.Within(t, req.writeTo, len);
    AddrRange.FindWithin(t, req.readFrom, len);
    AddrRange.FindWithin(t, req.writeTo, len);
  }

  /** Packet `x` is the access `bus` of the engine. */
  predicate Sent(s: State, x: nat, bus: Bus) {
    x in s.fabric.packets && s.fabric.packets[x].orig == bus && s.fabric.packets[x].idx == s.port
  }

  /** Packet `x`, the access `bus`, is done and saw or wrote `bytes`. */
  predicate Accessed(s: State, x: nat, bus: Bus, bytes: seq<Byte>) {
    Sent(s, x, bus) && CameBack(s, x) && F.LoggedAt(s.fabric.log, bus, s.fabric.packets[x].served, bytes)
  }

  predicate Before(s: State, x: nat, y: nat) {
    && x in s.fabric.packets && y in s.fabric.packets && s.fabric.packets[x].served.Some?
    && (s.fabric.packets[y].served.Some? ==> s.fabric.packets[x].served.value < s.fabric.packets[y].served.value)
  }

  /** What the history of the engine says of request `id` is what happened in the fabric. */
  ghost predicate Linked(s: State, id: nat)
    requires id < |s.dma.transfers| == |s.links|
  {
    var tr, link := s.dma.transfers[id], s.links[id];
    && Mapped(s.fabric.table, tr.req)
    && (match tr.seen
        case None => link.write.None? && Sent(s, link.read, D.ReadOf(tr.req, tr.token))
        case Some(bytes) =>
          && Accessed(s, link.read, D.ReadOf(tr.req, tr.token), bytes)
          && link.write.Some? && Sent(s, link.write.value, D.WriteOf(tr.req, tr.token, bytes))
          && Before(s, link.read, link.write.value)
          && (tr.acked ==> Accessed(s, link.write.value, D.WriteOf(tr.req, tr.token, bytes), bytes)))
    && tr.error.None?
  }

  ghost predicate Inv(s: State, flat: F.Flat) {
    && D.Inv(s.dma) && F.Inv(s.fabric, flat) && s.port < s.fabric.inbound && |s.links| == |s.dma.transfers|
    && (forall id :: 0 <= id < |s.links| ==> Linked(s, id))
  }

  /** Only mapped addresses are asked for. */
  ghost predicate AsksMapped(t: AddrRange.Table, step: Step) {
    step.Submit? ==> Mapped(t, D.DmaReq(step.readFrom, step.writeTo, step.pattern, 0))
  }

  // ------------------------------------------------------------ steps

  /** From `f` to `g` the fabric only went on: known packets keep their request and what became of it, and
      accesses are added at the end. */
  ghost predicate GoesOn(f: F.State, g: F.State) {
    && g.table == f.table && g.inbound == f.inbound && f.log <= g.log
    && (forall x :: x in f.packets ==> x in g.packets && KeepsOn(f, f.packets[x], g.packets[x]))
  }

  predicate KeepsOn(f: F.State, p: F.Packet, q: F.Packet) {
    && q.orig == p.orig && q.idx == p.idx
    && (p.served.Some? ==> q.served == p.served)
    && (p.served.None? && q.served.Some? ==> |f.log| <= q.served.value)
    && (p.place.Delivered? ==> q == p)
  }

  lemma FabricGoesOn(f: F.State, step: F.Step)
    requires F.Enabled(f, step) && F.Apply(f, step).Done?
    requires step.Serve? ==> f.packets[step.x].served.None?
    ensures GoesOn(f, F.Apply(f, step).state)
  {
    hide Forward, Backward, Respond;
  }

  lemma LinkedGoesOn(s: State, f: F.State, id: nat)
    requires id < |s.dma.transfers| == |s.links| && Linked(s, id) && GoesOn(s.fabric, f)
    requires forall x :: x in s.fabric.packets && s.fabric.packets[x].served.Some? ==> s.fabric.packets[x].served.value < |s.fabric.log|
    ensures Linked(s.(fabric := f), id)
  {
    hide Mapped, D.ReadOf, D.WriteOf;
  }

  lemma OthersKeep(s: State, flat: F.Flat, step: F.Step)
    requires Inv(s, flat) && Enabled(s, Others(step))
    ensures Apply(s, Others(step)).Done? && Inv(Apply(s, Others(step)).state, flat)
  {
    hide D.Inv, F.Apply, F.Enabled, Linked, F.Refines;
    F.StepKeepsInv(s.fabric, flat, step);
    var f := F.Apply(s.fabric, step).state;
    if step.Serve? {
      Unserved(s.fabric, flat, step.x);
    }
    FabricGoesOn(s.fabric, step);
    forall id | 0 <= id < |s.links|
      ensures Linked(s.(fabric := f), id)
    {
      hide F.PacketsOk;
      LinkedGoesOn(s, f, id);
    }
  }

  lemma Unserved(f: F.State, flat: F.Flat, x: nat)
    requires F.Inv(f, flat) && F.Enabled(f, F.Serve(x))
    ensures f.packets[x].served.None?
  {
    hide F.Refines, F.OneOwner, AddrRange.Find;
    assert F.PacketOk(f.table, f.inbound, f.log, f.packets[x]);
  }

  /** What came back for an access to a mapped address is its response, with the engine's own stack. */
  lemma CameBackServed(s: State, flat: F.Flat, y: nat, bus: Bus, req: D.DmaReq, token: nat) returns (bytes: seq<Byte>)
    requires F.Inv(s.fabric, flat) && Sent(s, y, bus) && CameBack(s, y) && Mapped(s.fabric.table, req)
    requires bus == D.ReadOf(req, token) || bus == D.WriteOf(req, token, bus.data)
    ensures Accessed(s, y, bus, bytes) && req.pattern.Simple? && |bytes| == req.pattern.len
    ensures D.Answers(token, bus, s.fabric.packets[y].bus) && s.fabric.packets[y].bus.mode == Mode.Response
    ensures s.fabric.packets[y].bus.stack == [token] && s.fabric.packets[y].bus.data == bytes
  {
    MappedFound(s.fabric.table, req);
    hide F.Refines, F.OneOwner, AddrRange.Find, Mapped;
    var f, p := s.fabric, s.fabric.packets[y];
    assert F.PacketOk(f.table, f.inbound, f.log, p);
    assert F.FateOf(f.table, bus).Served?;
    bytes :| F.LoggedAt(f.log, p.orig, p.served, bytes) && p.bus == F.Response(f.table, p.orig, bytes);
    assert [] + bytes == bytes;
  }

  lemma LinkedSame(s: State, u: State, id: nat)
    requires id < |s.dma.transfers| == |s.links| && id < |u.dma.transfers| == |u.links| && Linked(s, id)
    requires u.dma.transfers[id] == s.dma.transfers[id] && u.links[id] == s.links[id] && u.port == s.port && u.fabric == s.fabric
    ensures Linked(u, id)
  {
    hide Mapped, D.ReadOf, D.WriteOf;
  }

  lemma LogBounds(f: F.State, flat: F.Flat)
    requires F.Inv(f, flat)
    ensures forall x :: x in f.packets && f.packets[x].served.Some? ==> f.packets[x].served.value < |f.log|
  {
  }

  /** The fabric takes one more packet of the engine: it stays sound, and all links with it. */
  lemma PutKeeps(s: State, flat: F.Flat, x: nat, bus: Bus)
    requires Inv(s, flat) && x !in s.fabric.packets && F.Sane(bus)
    ensures F.Inv(Put(s, x, bus), flat) && GoesOn(s.fabric, Put(s, x, bus)) && Sent(s.(fabric := Put(s, x, bus)), x, bus)
    ensures forall id :: 0 <= id < |s.links| ==> Linked(s.(fabric := Put(s, x, bus)), id)
  {
    hide D.Inv, Linked, GoesOn, F.Inv;
    var step := F.Issue(x, s.port, bus);
    F.StepKeepsInv(s.fabric, flat, step);
    FabricGoesOn(s.fabric, step);
    LogBounds(s.fabric, flat);
    forall id | 0 <= id < |s.links|
      ensures Linked(s.(fabric := Put(s, x, bus)), id)
    {
      LinkedGoesOn(s, Put(s, x, bus), id);
    }
  }

  /** The state after a new request: its read is packet `x`. */
  function Submitted(s: State, req: D.DmaReq, x: nat): State
    requires s.dma.engine.held.Some? && s.dma.engine.held.value < |s.dma.engine.store|
  {
    State(D.Submitted(s.dma, req), Put(s, x, D.ReadOf(req, s.dma.engine.held.value)), s.port, s.links + [Link(x, None)])
  }

  lemma SubmitLinked(s: State, req: D.DmaReq, x: nat)
    requires s.dma.engine.held.Some? && s.dma.engine.held.value < |s.dma.engine.store|
    requires |s.links| == |s.dma.transfers| && Mapped(s.fabric.table, req)
    requires var v := s.(fabric := Submitted(s, req, x).fabric);
      Sent(v, x, D.ReadOf(req, s.dma.engine.held.value)) && forall id :: 0 <= id < |s.links| ==> Linked(v, id)
    ensures var u := Submitted(s, req, x); forall id :: 0 <= id < |u.links| ==> Linked(u, id)
  {
    var u := Submitted(s, req, x);
    forall id | 0 <= id < |u.links|
      ensures Linked(u, id)
    {
      if id < |s.links| {
        LinkedSame(s.(fabric := u.fabric), u, id);
      }
    }
  }

  lemma SubmitKeeps(s: State, flat: F.Flat, step: Step)
    requires Inv(s, flat) && step.Submit? && Enabled(s, step) && AsksMapped(s.fabric.table, step)
    ensures Apply(s, step).Done? && Inv(Apply(s, step).state, flat)
  {
    hide Linked, F.Inv, D.Apply, GoesOn, Put;
    var req, token := D.DmaReq(step.readFrom, step.writeTo, step.pattern, |s.dma.transfers|), s.dma.engine.held.value;
    D.SubmitKeepsInv(s.dma, req);
    D.SubmitIs(s.dma, step.readFrom, step.writeTo, step.pattern);
    hide D.Inv;
    PutKeeps(s, flat, step.x, D.ReadOf(req, token));
    SubmitLinked(s, req, step.x);
    assert Apply(s, step) == Done(Submitted(s, req, step.x));
    assert Put(s, step.x, D.ReadOf(req, token)).inbound == s.fabric.inbound by { PutFrame(s, step.x, D.ReadOf(req, token)); }
  }

  lemma PutFrame(s: State, x: nat, bus: Bus)
    ensures Put(s, x, bus).table == s.fabric.table && Put(s, x, bus).inbound == s.fabric.inbound && Put(s, x, bus).log == s.fabric.log
    ensures forall y :: y != x && y in s.fabric.packets ==> y in Put(s, x, bus).packets && Put(s, x, bus).packets[y] == s.fabric.packets[y]
    ensures x in Put(s, x, bus).packets && Put(s, x, bus).packets[x].served.None?
  {
  }

  /** The state after the read in slot `t` came back with `bytes`: the write is packet `x`. */
  function WriteSent(s: State, t: nat, x: nat, bytes: seq<Byte>): State
    requires D.FlightOk(s.dma, t) && s.dma.engine.store[t].value.id < |s.links|
  {
    var req := s.dma.engine.store[t].value;
    State(D.WriteSent(s.dma, t, req.id, bytes), Put(s, x, D.WriteOf(req, t, bytes)), s.port,
          s.links[req.id := s.links[req.id].(write := Some(x))])
  }

  lemma WriteLinked(s: State, t: nat, x: nat, bytes: seq<Byte>)
    requires D.FlightOk(s.dma, t) && |s.links| == |s.dma.transfers| && x !in s.fabric.packets
    requires forall id :: 0 <= id < |s.links| ==> Linked(s, id)
    requires var req := s.dma.engine.store[t].value;
      s.dma.transfers[req.id].seen.None? && Accessed(s, s.links[req.id].read, D.ReadOf(req, t), bytes)
    requires var v := s.(fabric := WriteSent(s, t, x, bytes).fabric);
      forall id :: 0 <= id < |s.links| ==> Linked(v, id)
    ensures var u := WriteSent(s, t, x, bytes); forall id :: 0 <= id < |u.links| ==> Linked(u, id)
  {
    var u, req := WriteSent(s, t, x, bytes), s.dma.engine.store[t].value;
    PutFrame(s, x, D.WriteOf(req, t, bytes));
    forall id | 0 <= id < |u.links|
      ensures Linked(u, id)
    {
      if id != req.id {
        LinkedSame(s.(fabric := u.fabric), u, id);
      } else {
        assert Linked(s, id);
        assert Sent(u, x, D.WriteOf(req, t, bytes));
      }
    }
  }

  lemma ReadKeeps(s: State, flat: F.Flat, t: nat, x: nat)
    requires Inv(s, flat) && Enabled(s, Deliver(t, x)) && D.FlightOk(s.dma, t)
    requires s.dma.transfers[s.dma.engine.store[t].value.id].seen.None?
    ensures Apply(s, Deliver(t, x)).Done? && Inv(Apply(s, Deliver(t, x)).state, flat)
  {
    hide F.Inv, D.Apply, GoesOn, Put;
    var req := s.dma.engine.store[t].value;
    assert Linked(s, req.id);
    var y, read := s.links[req.id].read, D.ReadOf(req, t);
    var bytes := CameBackServed(s, flat, y, read, req, t);
    var resp, write := s.fabric.packets[y].bus, D.WriteOf(req, t, bytes);
    D.CompleteKeepsInv(s.dma, t, resp);
    D.ReadIs(s.dma, t, resp);
    PutKeeps(s, flat, x, write);
    WriteLinked(s, t, x, bytes);
    hide D.Inv, Linked, D.FlightOk, CameBack;
    assert Apply(s, Deliver(t, x)) == Done(WriteSent(s, t, x, bytes));
    PutFrame(s, x, write);
  }

  /** The state after the write in slot `t` came back. */
  function Acked(s: State, t: nat): State
    requires D.FlightOk(s.dma, t)
  {
    s.(dma := D.Replied(s.dma, t, s.dma.engine.store[t].value.id, None))
  }

  lemma AckLinked(s: State, t: nat, bytes: seq<Byte>)
    requires D.FlightOk(s.dma, t) && |s.links| == |s.dma.transfers|
    requires forall id :: 0 <= id < |s.links| ==> Linked(s, id)
    requires var req := s.dma.engine.store[t].value; var link := s.links[req.id];
      s.dma.transfers[req.id].seen == Some(bytes) && link.write.Some? && Accessed(s, link.write.value, D.WriteOf(req, t, bytes), bytes)
    ensures forall id :: 0 <= id < |s.links| ==> Linked(Acked(s, t), id)
  {
    var u, req := Acked(s, t), s.dma.engine.store[t].value;
    forall id | 0 <= id < |s.links|
      ensures Linked(u, id)
    {
      if id != req.id {
        LinkedSame(s, u, id);
      } else {
        assert Linked(s, id);
      }
    }
  }

  lemma WriteKeeps(s: State, flat: F.Flat, t: nat, x: nat)
    requires Inv(s, flat) && Enabled(s, Deliver(t, x)) && D.FlightOk(s.dma, t)
    requires s.dma.transfers[s.dma.engine.store[t].value.id].seen.Some?
    ensures Apply(s, Deliver(t, x)).Done? && Inv(Apply(s, Deliver(t, x)).state, flat)
  {
    hide F.Inv, D.Apply, GoesOn, Put;
    var req := s.dma.engine.store[t].value;
    assert Linked(s, req.id);
    var bytes := s.dma.transfers[req.id].seen.value;
    var y, write := s.links[req.id].write.value, D.WriteOf(req, t, bytes);
    var wrote := CameBackServed(s, flat, y, write, req, t);
    assert wrote == bytes;
    var resp := s.fabric.packets[y].bus;
    D.CompleteKeepsInv(s.dma, t, resp);
    D.ReplyIs(s.dma, t, resp);
    AckLinked(s, t, bytes);
    assert t !in D.Replied(s.dma, t, req.id, None).flights;
    hide D.Inv, Linked, D.FlightOk, CameBack;
    assert Apply(s, Deliver(t, x)) == Done(Acked(s, t));
  }

  lemma InSlot(s: State, flat: F.Flat, t: nat)
    requires Inv(s, flat) && Current(s, t).Some?
    ensures D.FlightOk(s.dma, t)
  {
    hide F.Inv, Linked;
    assert t in s.dma.flights;
  }

  /** Neither engine nor fabric panics, and the invariant holds again. */
  lemma StepKeepsInv(s: State, flat: F.Flat, step: Step)
    requires Inv(s, flat) && Enabled(s, step) && AsksMapped(s.fabric.table, step)
    ensures Apply(s, step).Done? && Inv(Apply(s, step).state, flat)
  {
    match step
    case Reserve =>
      D.ReserveKeepsInv(s.dma);
      hide D.Inv, F.Inv;
      forall id | 0 <= id < |s.links|
        ensures Linked(Apply(s, step).state, id)
      {
        LinkedSame(s, Apply(s, step).state, id);
      }
    case Submit(_, _, _, _) =>
      hide Inv, Apply;
      SubmitKeeps(s, flat, step);
    case Deliver(t, x) =>
      hide Inv, Apply;
      InSlot(s, flat, t);
      if s.dma.transfers[s.dma.engine.store[t].value.id].seen.None? {
        ReadKeeps(s, flat, t, x);
      } else {
        WriteKeeps(s, flat, t, x);
      }
    case Others(other) =>
      hide Inv, Apply;
      OthersKeep(s, flat, other);
  }

  // ------------------------------------------------------------ runs

  ghost predicate Init(s: State) {
    F.Init(s.fabric) && s.port < s.fabric.inbound && s.links == [] && exists n: nat :: s.dma == D.Fresh(n)
  }

  predicate Run(s: State, steps: seq<Step>, r: Outcome)
    decreases |steps|
  {
    if steps == [] then r == Done(s)
    else
      && Enabled(s, steps[0])
      && match Apply(s, steps[0])
         case Fault => r == Fault
         case Done(t) => Run(t, steps[1..], r)
  }

  lemma SameTable(s: State, step: Step)
    requires Enabled(s, step) && Apply(s, step).Done?
    ensures Apply(s, step).state.fabric.table == s.fabric.table
  {
    hide D.Apply, D.Enabled, F.Apply, F.Enabled;
    if step.Others? {
      F.SameTable(s.fabric, step.step);
    }
  }

  lemma {:induction false} AlwaysInv(s: State, flat: F.Flat, steps: seq<Step>, r: Outcome)
    requires Inv(s, flat) && Run(s, steps, r) && forall i :: 0 <= i < |steps| ==> AsksMapped(s.fabric.table, steps[i])
    ensures r.Done? && Inv(r.state, flat)
    decreases |steps|
  {
    hide Inv, Apply, Enabled, AsksMapped;
    if steps != [] {
      StepKeepsInv(s, flat, steps[0]);
      SameTable(s, steps[0]);
      AlwaysInv(Apply(s, steps[0]).state, flat, steps[1..], r);
    }
  }

  lemma InitInv(s: State, flat: F.Flat)
    requires Init(s) && F.Represents(s.fabric.table, s.fabric.rams, flat)
    ensures Inv(s, flat)
  {
    hide F.Represents, F.TableOk, D.Inv;
    var n: nat :| s.dma == D.Fresh(n);
    D.FreshInv(n);
  }

  // ------------------------------------------------------------ the two parts

  /** What a step is to the engine. */
  function DmaSteps(s: State, step: Step): seq<D.Step>
    requires Enabled(s, step)
  {
    match step
    case Reserve => [D.Reserve]
    case Submit(readFrom, writeTo, pattern, _) => [D.Submit(readFrom, writeTo, pattern)]
    case Deliver(t, _) => [D.Complete(t, s.fabric.packets[Current(s, t).value].bus)]
    case Others(_) => []
  }

  /** And what it is to the fabric: a step of its own, or the issue of what the engine now has in flight. */
  function FabricSteps(s: State, step: Step, t: State): seq<F.Step> {
    match step
    case Reserve => []
    case Submit(_, _, _, x) =>
      if s.dma.engine.held.Some? && s.dma.engine.held.value in t.dma.flights
      then [F.Issue(x, s.port, t.dma.flights[s.dma.engine.held.value])] else []
    case Deliver(token, x) => if token in t.dma.flights then [F.Issue(x, s.port, t.dma.flights[token])] else []
    case Others(step) => [step]
  }

  function DmaPart(s: State, steps: seq<Step>): seq<D.Step>
    decreases |steps|
  {
    if steps == [] || !Enabled(s, steps[0]) || Apply(s, steps[0]).Fault? then []
    else DmaSteps(s, steps[0]) + DmaPart(Apply(s, steps[0]).state, steps[1..])
  }

  function FabricPart(s: State, steps: seq<Step>): seq<F.Step>
    decreases |steps|
  {
    if steps == [] || !Enabled(s, steps[0]) || Apply(s, steps[0]).Fault? then []
    else FabricSteps(s, steps[0], Apply(s, steps[0]).state) + FabricPart(Apply(s, steps[0]).state, steps[1..])
  }

  lemma DmaOne(d: D.State, step: D.Step, e: D.State, more: seq<D.Step>, r: Option<D.State>)
    requires D.Enabled(d, step) && D.Apply(d, step) == Some(e) && D.Run(e, more, r)
    ensures D.Run(d, [step] + more, r)
  {
    assert ([step] + more)[1..] == more;
  }

  lemma FabricOne(f: F.State, step: F.Step, g: F.State, more: seq<F.Step>, r: F.Outcome)
    requires F.Enabled(f, step) && F.Apply(f, step) == F.Done(g) && F.Run(g, more, r)
    ensures F.Run(f, [step] + more, r)
  {
    assert ([step] + more)[1..] == more;
  }

  lemma StepIsDma(s: State, step: Step, more: seq<D.Step>, r: Option<D.State>)
    requires Enabled(s, step) && Apply(s, step).Done? && D.Run(Apply(s, step).state.dma, more, r)
    ensures D.Run(s.dma, DmaSteps(s, step) + more, r)
  {
    hide D.Run, D.Apply, D.Enabled, F.Apply, F.Enabled;
    var e := Apply(s, step).state.dma;
    match step
    case Others(_) => assert [] + more == more;
    case _ => DmaOne(s.dma, DmaSteps(s, step)[0], e, more, r);
  }

  lemma SentIsSane(s: State, flat: F.Flat, step: Step, token: nat)
    requires Inv(s, flat) && Enabled(s, step) && AsksMapped(s.fabric.table, step) && Apply(s, step).Done?
    requires token in Apply(s, step).state.dma.flights
    ensures F.Sane(Apply(s, step).state.dma.flights[token])
  {
    StepKeepsInv(s, flat, step);
    var u := Apply(s, step).state;
    hide Apply, Enabled, F.Inv;
    assert D.FlightOk(u.dma, token);
    var id := u.dma.engine.store[token].value.id;
    assert Linked(u, id);
  }

  lemma StepIsFabric(s: State, flat: F.Flat, step: Step, more: seq<F.Step>, r: F.Outcome)
    requires Inv(s, flat) && Enabled(s, step) && AsksMapped(s.fabric.table, step) && Apply(s, step).Done?
    requires F.Run(Apply(s, step).state.fabric, more, r)
    ensures F.Run(s.fabric, FabricSteps(s, step, Apply(s, step).state) + more, r)
  {
    hide Inv, F.Run, D.Apply, F.ServeRam, Forward, Backward;
    var u := Apply(s, step).state;
    var fs := FabricSteps(s, step, u);
    if fs == [] {
      assert fs + more == more;
    } else {
      if step.Submit? {
        SentIsSane(s, flat, step, s.dma.engine.held.value);
      } else if step.Deliver? {
        SentIsSane(s, flat, step, step.t);
      }
      FabricOne(s.fabric, fs[0], u.fabric, more, r);
    }
  }

  /** Every run is a run of the engine and a run of the fabric, step by step: what holds of all runs of
      either holds here. */
  lemma {:induction false} RunsAreBoth(s: State, flat: F.Flat, steps: seq<Step>, r: Outcome)
    requires Inv(s, flat) && Run(s, steps, r) && forall i :: 0 <= i < |steps| ==> AsksMapped(s.fabric.table, steps[i])
    ensures r.Done? && D.Run(s.dma, DmaPart(s, steps), Some(r.state.dma)) && F.Run(s.fabric, FabricPart(s, steps), F.Done(r.state.fabric))
    decreases |steps|
  {
    hide Inv, Apply, Enabled, AsksMapped, DmaSteps, FabricSteps, F.Enabled, F.Apply, D.Enabled, D.Apply;
    if steps != [] {
      StepKeepsInv(s, flat, steps[0]);
      SameTable(s, steps[0]);
      var t := Apply(s, steps[0]).state;
      RunsAreBoth(t, flat, steps[1..], r);
      StepIsDma(s, steps[0], DmaPart(t, steps[1..]), Some(r.state.dma));
      StepIsFabric(s, flat, steps[0], FabricPart(t, steps[1..]), F.Done(r.state.fabric));
    }
  }

  /** Accesses `i` and `j` of the log copy what request `req` asks for. */
  ghost predicate Copied(flat: F.Flat, log: seq<F.Access>, req: D.DmaReq, i: nat, j: nat) {
    && i < j < |log| && req.pattern.Simple?
    && var before, len := F.Replay(flat, log[..i]), req.pattern.len;
    && (forall a: nat :: req.readFrom <= a < req.readFrom + len ==> a in before)
    && var bytes := F.FlatRead(before, req.readFrom, len);
    && log[i] == F.Access(Read, req.readFrom, bytes) && log[j] == F.Access(Write, req.writeTo, bytes)
  }

  /** Whatever else goes through the crossbar meanwhile: requests for mapped addresses make nothing panic
      and fail never, and one that was answered read once and then wrote once - the bytes that the flat
      memory held at its source when it was read, to its destination - and both accesses are its own. */
  lemma AnsweredMeansCopied(s: State, flat: F.Flat, steps: seq<Step>, r: Outcome, id: nat)
    requires Init(s) && F.Represents(s.fabric.table, s.fabric.rams, flat) && Run(s, steps, r)
    requires forall i :: 0 <= i < |steps| ==> AsksMapped(s.fabric.table, steps[i])
    ensures r.Done? && |r.state.links| == |r.state.dma.transfers|
    ensures id < |r.state.links| ==> r.state.dma.transfers[id].error.None?
    ensures id < |r.state.links| && r.state.dma.transfers[id].answers != [] ==>
      var t, tr, link := r.state, r.state.dma.transfers[id], r.state.links[id];
      && tr.answers == [D.Reply(tr.req, None)] && |tr.sent| == 2 && link.write.Some?
      && Sent(t, link.read, tr.sent[0]) && Sent(t, link.write.value, tr.sent[1])
      && exists i, j :: Copied(flat, t.fabric.log, tr.req, i, j) && F.Owns(t.fabric, link.read, i) && F.Owns(t.fabric, link.write.value, j)
  {
    InitInv(s, flat);
    hide Run, Init, F.Represents, AsksMapped, Copied;
    AlwaysInv(s, flat, steps, r);
    if id < |r.state.links| {
      assert Linked(r.state, id);
      if r.state.dma.transfers[id].answers != [] {
        AnsweredIsDone(r.state, id);
        hide Linked, Inv;
        TransferCopied(r.state, flat, id);
      }
    }
  }

  lemma AnsweredIsDone(s: State, id: nat)
    requires D.Inv(s.dma) && id < |s.dma.transfers| == |s.links| && Linked(s, id) && s.dma.transfers[id].answers != []
    ensures var tr, link := s.dma.transfers[id], s.links[id];
      tr.answers == [D.Reply(tr.req, None)] && tr.acked && tr.seen.Some? && |tr.sent| == 2 && link.write.Some?
      && Sent(s, link.read, tr.sent[0]) && Sent(s, link.write.value, tr.sent[1])
  {
    assert D.TransferOk(s.dma, id);
  }

  lemma TransferCopied(s: State, flat: F.Flat, id: nat)
    requires Inv(s, flat) && id < |s.links| && s.dma.transfers[id].acked && s.dma.transfers[id].seen.Some?
    ensures s.links[id].write.Some?
    ensures exists i, j :: (Copied(flat, s.fabric.log, s.dma.transfers[id].req, i, j)
                            && F.Owns(s.fabric, s.links[id].read, i) && F.Owns(s.fabric, s.links[id].write.value, j))
  {
    hide D.Inv, F.PacketsOk, F.OneOwner, F.Represents, F.TableOk, F.Replay;
    assert Linked(s, id);
    var link := s.links[id];
    var i, j := s.fabric.packets[link.read].served.value, s.fabric.packets[link.write.value].served.value;
    assert F.AccessOk(flat, s.fabric.log, i);
    assert Copied(flat, s.fabric.log, s.dma.transfers[id].req, i, j);
    assert F.Owns(s.fabric, link.read, i) && F.Owns(s.fabric, link.write.value, j);
  }
}
