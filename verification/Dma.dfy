/** The local DMA engine: a request becomes a read, the read's response becomes the write, and the
    write's response, or any error, is answered to the initiator. */
module Dma {
  import opened Memory
  import opened Wrappers
  import opened MemBus
  import opened AddrRange

  /** `id` numbers requests; it is history and is only copied along. */
  datatype DmaReq = DmaReq(readFrom: nat, writeTo: nat, pattern: Pattern, id: nat)

  /** Token free list, packet store, and the token that request_layer holds while it waits. */
  datatype Engine = Engine(avail: seq<nat>, store: seq<Option<DmaReq>>, held: Option<nat>)

  datatype Reaction =
    | PanicDma
    | Send(engine: Engine, bus: Bus)
    | Answer(engine: Engine, req: DmaReq, failed: Option<MemBus.Error>)

  function NewEngine(inflight: nat): Engine { Engine(seq(inflight, i => i), seq(inflight, _ => None), None) }

  function Take(e: Engine): Engine
    requires e.avail != []
  {
    Engine(e.avail[..|e.avail| - 1], e.store, Some(e.avail[|e.avail| - 1]))
  }

  function Accept(e: Engine, req: DmaReq): Reaction
    requires e.held.Some?
  {
    var token := e.held.value;
    if token >= |e.store| then PanicDma
    else
      Send(e.(store := e.store[token := Some(req)], held := None),
           Bus(Request, Read, Phys(req.readFrom), req.pattern, [], [token]))
  }

  function Release(e: Engine, token: nat): Engine
    requires token < |e.store|
  {
    e.(store := e.store[token := None], avail := e.avail + [token])
  }

  function OnResponse(e: Engine, bus: Bus): Reaction {
    if bus.stack == [] then PanicDma
    else
      var token := bus.stack[|bus.stack| - 1];
      if token >= |e.store| || bus.mode.Request? then PanicDma
      else
        var b := bus.(stack := bus.stack[..|bus.stack| - 1]);
        match e.store[token]
        case None => PanicDma
        case Some(req) =>
          if bus.mode.Failed? then Answer(Release(e, token), req, Some(bus.mode.error))
          else
            match bus.cmd
            case Read =>
              if bus.pattern.NoPattern? then PanicDma
              else Send(e, b.(mode := Request, cmd := Write, subrange := Phys(req.writeTo), stack := b.stack + [token]))
            case Write => Answer(Release(e, token), req, None)
            case Announce => PanicDma
  }

  /** Each token is free, held, or names an occupied slot: exactly one of the three. */
  predicate Partitioned(e: Engine) {
    && (forall i :: 0 <= i < |e.avail| ==> e.avail[i] < |e.store| && e.store[e.avail[i]].None?)
    && (forall i, j :: 0 <= i < j < |e.avail| ==> e.avail[i] != e.avail[j])
    && (e.held.Some? ==> e.held.value < |e.store| && e.store[e.held.value].None? && e.held.value !in e.avail)
    && (forall t :: 0 <= t < |e.store| ==> t in e.avail || e.held == Some(t) || e.store[t].Some?)
  }

  lemma NewPartitioned(inflight: nat)
    ensures Partitioned(NewEngine(inflight))
  {
    var e := NewEngine(inflight);
    forall t | 0 <= t < inflight
      ensures t in e.avail
    {
      assert e.avail[t] == t;
    }
  }

  lemma TakePartitioned(e: Engine)
    requires Partitioned(e) && e.held.None? && e.avail != []
    ensures Partitioned(Take(e))
  {
    var f := Take(e);
    forall t | t in e.avail
      ensures t in f.avail || f.held == Some(t)
    {
      var i :| 0 <= i < |e.avail| && e.avail[i] == t;
      assert i < |f.avail| ==> f.avail[i] == t;
    }
  }

  lemma ReleasePartitioned(e: Engine, token: nat)
    requires Partitioned(e) && token < |e.store| && e.store[token].Some?
    ensures Partitioned(Release(e, token))
  {
    var f := Release(e, token);
    assert forall i :: 0 <= i < |e.avail| ==> f.avail[i] == e.avail[i];
    assert f.avail[|e.avail|] == token;
    assert forall t :: t in e.avail ==> t in f.avail;
  }

  class Dma {
    var availId: seq<nat>
    var pktStore: seq<Option<DmaReq>>
    var held: Option<nat>

    ghost function Value(): Engine
      reads this
    {
      Engine(availId, pktStore, held)
    }

    ghost predicate Valid()
      reads this
    {
      Partitioned(Value())
    }

    constructor (inflight: nat)
      ensures Valid() && Value() == NewEngine(inflight)
    {
      availId := seq(inflight, i => i);
      pktStore := seq(inflight, _ => None);
      held := None;
      new;
      assert Value() == NewEngine(inflight);
      NewPartitioned(inflight);
    }

    /** request_layer before the wait for a request: without a free slot it keeps waiting. */
    method TakeSlot() returns (taken: bool)
      requires Valid() && held.None?
      modifies this
      ensures Valid() && taken == (old(availId) != []) && Value() == if taken then Take(old(Value())) else old(Value())
    {
      ghost var e := Value();
      taken := |availId| != 0;
      if taken {
        held := Some(availId[|availId| - 1]);
        availId := availId[..|availId| - 1];
        assert Value() == Take(e);
        TakePartitioned(e);
      }
    }

    /** The rest of the round of request_layer. */
    method AcceptRequest(req: DmaReq) returns (r: Bus)
      requires Valid() && held.Some?
      modifies this
      ensures Valid() && Accept(old(Value()), req) == Send(Value(), r)
    {
      var token := held.value;
      r := Bus(Request, Read, Phys(req.readFrom), req.pattern, [], []);
      pktStore := pktStore[token := Some(req)];
      held := None;
      r := r.(stack := r.stack + [token]);
      assert r.stack == [token];
    }

    /** Push an empty slot, swap it into place, release the token. */
    method ReleaseSlot(token: nat) returns (req: Option<DmaReq>)
      requires Valid() && token < |pktStore| && pktStore[token].Some?
      modifies this
      ensures Valid() && req == old(pktStore[token]) && Value() == Release(old(Value()), token)
    {
      ghost var e := Value();
      pktStore := pktStore + [None];
      req := pktStore[token];
      var last := |pktStore| - 1;
      pktStore := pktStore[token := pktStore[last]];
      pktStore := pktStore[..last];
      availId := availId + [token];
      assert pktStore == e.store[token := None];
      ReleasePartitioned(e, token);
    }

    /** One round of forward_layer: the packet it sends on, or the answer it gives; neither is a panic. */
    method ForwardLayer(bus: Bus) returns (sent: Option<Bus>, answered: Option<(DmaReq, Option<MemBus.Error>)>)
      requires Valid()
      modifies this
      ensures Valid()
      ensures match OnResponse(old(Value()), bus)
              case PanicDma => sent == None && answered == None && Value() == old(Value())
              case Send(e, b) => sent == Some(b) && answered == None && Value() == e
              case Answer(e, req, failed) => sent == None && answered == Some((req, failed)) && Value() == e
    {
      sent, answered := None, None;
      if |bus.stack| == 0 {
        return;
      }
      var token := bus.stack[|bus.stack| - 1];
      var memPkt := bus.(stack := bus.stack[..|bus.stack| - 1]);
      if token >= |pktStore| || pktStore[token].None? {
        return;
      }
      match memPkt.mode {
        case Response =>
          match memPkt.cmd {
            case Read =>
              if memPkt.pattern.NoPattern? {
                return;
              }
              memPkt := memPkt.(mode := Request, cmd := Write, subrange := Phys(pktStore[token].value.writeTo));
              sent := Some(memPkt.(stack := memPkt.stack + [token]));
            case Write =>
              var req := ReleaseSlot(token);
              answered := Some((req.value, None));
            case Announce =>
          }
        case Failed(error) =>
          var req := ReleaseSlot(token);
          answered := Some((req.value, Some(error)));
        case Request =>
      }
    }
  }

  // ------------------------------------------------------------ runs

  /** The two accesses of a request, as the engine sends them. */
  function ReadOf(req: DmaReq, token: nat): Bus { Bus(Request, Read, Phys(req.readFrom), req.pattern, [], [token]) }

  function WriteOf(req: DmaReq, token: nat, bytes: seq<Byte>): Bus {
    Bus(Request, Write, Phys(req.writeTo), req.pattern, bytes, [token])
  }

  /** What the engine sent to an initiator: its request, as done or with an error. */
  datatype Reply = Reply(req: DmaReq, failed: Option<MemBus.Error>)

  /** History of a request: its token, every packet sent for it, the bytes its read came back with, whether
      its write came back or which error did, and every answer sent to its initiator. */
  datatype Transfer = Transfer(req: DmaReq, token: nat, sent: seq<Bus>, seen: Option<seq<Byte>>, acked: bool,
                               error: Option<MemBus.Error>, answers: seq<Reply>)

  /** `flights` are the packets below the engine, by the token they carry. */
  datatype State = State(engine: Engine, flights: map<nat, Bus>, transfers: seq<Transfer>)

  datatype Step = Reserve | Submit(readFrom: nat, writeTo: nat, pattern: Pattern) | Complete(t: nat, resp: Bus)

  /** What a memory system may give back for packet `bus` with token `t`: any data, error and address, and the
      stack as it got it - or, when a crossbar found no range, with one more index on it. */
  predicate Answers(t: nat, bus: Bus, resp: Bus) {
    && !resp.mode.Request? && resp.cmd == bus.cmd && resp.pattern == bus.pattern
    && |resp.stack| >= 1 && resp.stack[0] == t
    && (|resp.stack| == 1 || (|resp.stack| == 2 && resp.mode.Failed? && resp.mode.error.Route?))
  }

  /** The index left behind, if any, happens to be the token. */
  predicate Balanced(step: Step) {
    step.Complete? ==> step.resp.stack == [step.t] || step.resp.stack == [step.t, step.t]
  }

  predicate Enabled(s: State, step: Step) {
    match step
    case Reserve => s.engine.held.None? && s.engine.avail != []
    case Submit(_, _, pattern) => s.engine.held.Some? && !pattern.NoPattern?
    case Complete(t, resp) => t in s.flights && Answers(t, s.flights[t], resp)
  }

  /** The history of the request in slot `t` takes note. */
  function Note(s: State, e: Engine, t: nat, note: Transfer -> Transfer): State {
    if t < |e.store| && e.store[t].Some? && e.store[t].value.id < |s.transfers| then
      s.(transfers := s.transfers[e.store[t].value.id := note(s.transfers[e.store[t].value.id])])
    else s
  }

  function Reacted(s: State, r: Reaction): Option<State> {
    match r
    case PanicDma => None
    case Send(e, bus) =>
      if bus.stack == [] then None
      else
        var t := bus.stack[|bus.stack| - 1];
        Some(Note(s.(engine := e, flights := s.flights[t := bus]), e, t, (tr: Transfer) => tr.(sent := tr.sent + [bus])))
    case Answer(e, req, failed) =>
      if req.id >= |s.transfers| then None
      else
        var tr := s.transfers[req.id];
        Some(s.(engine := e, transfers := s.transfers[req.id := tr.(answers := tr.answers + [Reply(req, failed)])]))
  }

  function Noted(s: State, t: nat, resp: Bus): State {
    if resp.mode.Request? then s
    else if resp.mode.Failed? then Note(s, s.engine, t, (tr: Transfer) => tr.(error := Some(resp.mode.error)))
    else if resp.cmd.Read? then Note(s, s.engine, t, (tr: Transfer) => tr.(seen := Some(resp.data)))
    else Note(s, s.engine, t, (tr: Transfer) => tr.(acked := true))
  }

  function Apply(s: State, step: Step): Option<State>
    requires Enabled(s, step)
  {
    match step
    case Reserve => Some(s.(engine := Take(s.engine)))
    case Submit(readFrom, writeTo, pattern) =>
      var req := DmaReq(readFrom, writeTo, pattern, |s.transfers|);
      Reacted(s.(transfers := s.transfers + [Transfer(req, s.engine.held.value, [], None, false, None, [])]),
              Accept(s.engine, req))
    case Complete(t, resp) =>
      Reacted(Noted(s.(flights := s.flights - {t}), t, resp), OnResponse(s.engine, resp))
  }

  /** One read was sent, and when it came back one write of just the bytes it brought. */
  predicate SentOk(tr: Transfer) {
    tr.sent == if tr.seen.None? then [ReadOf(tr.req, tr.token)] else [ReadOf(tr.req, tr.token), WriteOf(tr.req, tr.token, tr.seen.value)]
  }

  /** The packet with token `t` is the last one sent for the request in slot `t`. */
  predicate FlightOk(s: State, t: nat) {
    && t in s.flights && t < |s.engine.store| && s.engine.store[t].Some?
    && var req := s.engine.store[t].value;
    && req.id < |s.transfers| && !req.pattern.NoPattern?
    && var tr := s.transfers[req.id];
    && tr.req == req && tr.token == t && tr.answers == [] && !tr.acked && tr.error.None? && SentOk(tr)
    && s.flights[t] == if tr.seen.None? then ReadOf(req, t) else WriteOf(req, t, tr.seen.value)
  }

  /** A request holds its slot and waits, or its initiator was sent exactly that request back: as done when its
      write came back, else with the error that did. */
  predicate TransferOk(s: State, id: nat)
    requires id < |s.transfers|
  {
    var tr := s.transfers[id];
    && SentOk(tr) && tr.req.id == id
    && if tr.token < |s.engine.store| && s.engine.store[tr.token].Some? && s.engine.store[tr.token].value.id == id
       then tr.answers == [] && tr.token in s.flights
       else tr.answers == [Reply(tr.req, tr.error)] && (tr.error.None? <==> tr.acked) && (tr.acked ==> tr.seen.Some?)
  }

  ghost predicate Inv(s: State) {
    && Partitioned(s.engine)
    && (forall t: nat :: t in s.flights <==> t < |s.engine.store| && s.engine.store[t].Some?)
    && (forall t: nat :: t in s.flights ==> FlightOk(s, t))
    && (forall id :: 0 <= id < |s.transfers| ==> TransferOk(s, id))
  }

  /** The state after a new request was stored and its read sent. */
  function Submitted(s: State, req: DmaReq): State
    requires s.engine.held.Some? && s.engine.held.value < |s.engine.store|
  {
    var token := s.engine.held.value;
    State(s.engine.(store := s.engine.store[token := Some(req)], held := None), s.flights[token := ReadOf(req, token)],
          s.transfers + [Transfer(req, token, [ReadOf(req, token)], None, false, None, [])])
  }

  lemma SubmitIs(s: State, readFrom: nat, writeTo: nat, pattern: Pattern)
    requires s.engine.held.Some? && s.engine.held.value < |s.engine.store| && !pattern.NoPattern?
    ensures Apply(s, Submit(readFrom, writeTo, pattern)) == Some(Submitted(s, DmaReq(readFrom, writeTo, pattern, |s.transfers|)))
  {
    var req, token := DmaReq(readFrom, writeTo, pattern, |s.transfers|), s.engine.held.value;
    var tr := Transfer(req, token, [], None, false, None, []);
    assert [] + [ReadOf(req, token)] == [ReadOf(req, token)];
    assert (s.transfers + [tr])[|s.transfers| := tr.(sent := [ReadOf(req, token)])] == s.transfers + [tr.(sent := [ReadOf(req, token)])];
  }

  lemma SubmitKeepsInv(s: State, req: DmaReq)
    requires Inv(s) && s.engine.held.Some? && !req.pattern.NoPattern? && req.id == |s.transfers|
    ensures s.engine.held.value < |s.engine.store| && Inv(Submitted(s, req))
  {
    var token, t := s.engine.held.value, Submitted(s, req);
    assert Partitioned(t.engine);
    forall u: nat | u in t.flights
      ensures FlightOk(t, u)
    {
      assert u != token ==> FlightOk(s, u);
    }
    forall k | 0 <= k < |t.transfers|
      ensures TransferOk(t, k)
    {
      assert k < |s.transfers| ==> TransferOk(s, k);
    }
  }

  /** From `s` to `u` only the slot and flight of `t` and the transfer `id` may have changed. */
  ghost predicate Touches(s: State, u: State, t: nat, id: nat) {
    && |u.engine.store| == |s.engine.store| && |u.transfers| == |s.transfers|
    && (forall v :: 0 <= v < |s.engine.store| && v != t ==> u.engine.store[v] == s.engine.store[v])
    && (forall v: nat :: v != t ==> (v in u.flights <==> v in s.flights) && (v in s.flights ==> u.flights[v] == s.flights[v]))
    && (forall k :: 0 <= k < |s.transfers| && k != id ==> u.transfers[k] == s.transfers[k])
  }

  /** The others are as they were; what is left to show is about `t` and `id`. */
  lemma OthersKeep(s: State, u: State, t: nat, id: nat)
    requires Inv(s) && Touches(s, u, t, id) && Partitioned(u.engine)
    requires FlightOk(s, t) && id == s.engine.store[t].value.id
    requires if t in u.flights then FlightOk(u, t) else t >= |u.engine.store| || u.engine.store[t].None?
    requires id < |u.transfers| && TransferOk(u, id)
    ensures Inv(u)
  {
    hide Partitioned, SentOk;
    forall v: nat | v in u.flights
      ensures FlightOk(u, v)
    {
      if v != t {
        assert FlightOk(s, v);
        assert TransferOk(s, s.engine.store[v].value.id);
      }
    }
    forall k | 0 <= k < |u.transfers|
      ensures TransferOk(u, k)
    {
      assert TransferOk(s, k);
    }
  }

  /** The read of request `id` came back with `data`: its packet is now the write. */
  function WriteSent(s: State, t: nat, id: nat, data: seq<Byte>): State
    requires FlightOk(s, t) && id == s.engine.store[t].value.id
  {
    var write := WriteOf(s.engine.store[t].value, t, data);
    s.(flights := s.flights[t := write],
       transfers := s.transfers[id := s.transfers[id].(seen := Some(data), sent := s.transfers[id].sent + [write])])
  }

  /** Its write or an error came back: it is answered. */
  function Replied(s: State, t: nat, id: nat, failed: Option<MemBus.Error>): State
    requires FlightOk(s, t) && id == s.engine.store[t].value.id
  {
    var tr := s.transfers[id];
    State(Release(s.engine, t), s.flights - {t},
          s.transfers[id := tr.(acked := failed.None?, error := failed, answers := tr.answers + [Reply(tr.req, failed)])])
  }

  lemma ReadIs(s: State, t: nat, resp: Bus)
    requires FlightOk(s, t) && Answers(t, s.flights[t], resp) && resp.mode.Response? && s.flights[t].cmd.Read?
    ensures Apply(s, Complete(t, resp)) == Some(WriteSent(s, t, s.engine.store[t].value.id, resp.data))
  {
    var id := s.engine.store[t].value.id;
    var tr, write := s.transfers[id], WriteOf(s.engine.store[t].value, t, resp.data);
    assert resp.stack[..0] + [t] == [t];
    assert OnResponse(s.engine, resp) == Send(s.engine, write);
    var noted := Noted(s.(flights := s.flights - {t}), t, resp);
    assert noted.transfers == s.transfers[id := tr.(seen := Some(resp.data))];
    assert (s.flights - {t})[t := write] == s.flights[t := write];
    assert noted.transfers[id := tr.(seen := Some(resp.data), sent := tr.sent + [write])]
      == s.transfers[id := tr.(seen := Some(resp.data), sent := tr.sent + [write])];
  }

  lemma ReplyIs(s: State, t: nat, resp: Bus)
    requires FlightOk(s, t) && Answers(t, s.flights[t], resp) && Balanced(Complete(t, resp))
    requires resp.mode.Failed? || s.flights[t].cmd.Write?
    ensures Apply(s, Complete(t, resp)) == Some(Replied(s, t, s.engine.store[t].value.id, if resp.mode.Failed? then Some(resp.mode.error) else None))
  {
    var id := s.engine.store[t].value.id;
    var tr := s.transfers[id];
    if resp.mode.Failed? {
      var noted := tr.(error := Some(resp.mode.error));
      assert s.transfers[id := noted][id := noted.(answers := tr.answers + [Reply(tr.req, Some(resp.mode.error))])]
        == Replied(s, t, id, Some(resp.mode.error)).transfers;
    } else {
      assert s.transfers[id := tr.(acked := true)][id := tr.(acked := true, answers := tr.answers + [Reply(tr.req, None)])]
        == Replied(s, t, id, None).transfers;
    }
  }

  lemma RepliedOk(s: State, t: nat, id: nat, failed: Option<MemBus.Error>)
    requires FlightOk(s, t) && id == s.engine.store[t].value.id && (failed.None? ==> s.flights[t].cmd.Write?)
    requires TransferOk(s, id)
    ensures Touches(s, Replied(s, t, id, failed), t, id) && TransferOk(Replied(s, t, id, failed), id)
    ensures t !in Replied(s, t, id, failed).flights && Replied(s, t, id, failed).engine.store[t].None?
  {
  }

  lemma WriteSentOk(s: State, t: nat, id: nat, data: seq<Byte>)
    requires FlightOk(s, t) && id == s.engine.store[t].value.id && s.flights[t].cmd.Read? && TransferOk(s, id)
    ensures var u := WriteSent(s, t, id, data); Touches(s, u, t, id) && TransferOk(u, id) && FlightOk(u, t)
  {
    var tr := s.transfers[id];
    assert [ReadOf(tr.req, tr.token)] + [WriteOf(tr.req, tr.token, data)] == [ReadOf(tr.req, tr.token), WriteOf(tr.req, tr.token, data)];
  }

  lemma CompleteKeepsInv(s: State, t: nat, resp: Bus)
    requires Inv(s) && Enabled(s, Complete(t, resp)) && Balanced(Complete(t, resp))
    ensures Apply(s, Complete(t, resp)).Some? && Inv(Apply(s, Complete(t, resp)).value)
  {
    assert FlightOk(s, t);
    var id := s.engine.store[t].value.id;
    assert TransferOk(s, id);
    assert s.flights[t].cmd.Read? || s.flights[t].cmd.Write?;
    hide Apply, Touches, TransferOk, Partitioned, FlightOk, SentOk, Balanced;
    if resp.mode.Response? && s.flights[t].cmd.Read? {
      ReadIs(s, t, resp);
      WriteSentOk(s, t, id, resp.data);
      assert Partitioned(s.engine);
      hide Inv;
      OthersKeep(s, WriteSent(s, t, id, resp.data), t, id);
    } else {
      var failed := if resp.mode.Failed? then Some(resp.mode.error) else None;
      ReplyIs(s, t, resp);
      ReleasePartitioned(s.engine, t);
      RepliedOk(s, t, id, failed);
      hide Inv;
      OthersKeep(s, Replied(s, t, id, failed), t, id);
    }
  }

  lemma ReserveKeepsInv(s: State)
    requires Inv(s) && s.engine.held.None? && s.engine.avail != []
    ensures Inv(s.(engine := Take(s.engine)))
  {
    TakePartitioned(s.engine);
    hide Partitioned;
    var t := s.(engine := Take(s.engine));
    forall u: nat | u in t.flights
      ensures FlightOk(t, u)
    {
      assert FlightOk(s, u);
    }
    forall id | 0 <= id < |t.transfers|
      ensures TransferOk(t, id)
    {
      assert TransferOk(s, id);
    }
  }

  /** No step panics, and the invariant holds again, unless a crossbar's index takes the place of the token. */
  lemma StepKeepsInv(s: State, step: Step)
    requires Inv(s) && Enabled(s, step) && Balanced(step)
    ensures Apply(s, step).Some? && Inv(Apply(s, step).value)
  {
    hide Inv, Take, Accept, OnResponse, Balanced;
    match step
    case Reserve => ReserveKeepsInv(s);
    case Submit(readFrom, writeTo, pattern) =>
      SubmitKeepsInv(s, DmaReq(readFrom, writeTo, pattern, |s.transfers|));
      SubmitIs(s, readFrom, writeTo, pattern);
    case Complete(t, resp) => CompleteKeepsInv(s, t, resp);
  }

  predicate Run(s: State, steps: seq<Step>, r: Option<State>)
    decreases |steps|
  {
    if steps == [] then r == Some(s)
    else
      && Enabled(s, steps[0])
      && match Apply(s, steps[0])
         case None => r == None
         case Some(t) => Run(t, steps[1..], r)
  }

  lemma {:induction false} AlwaysInv(s: State, steps: seq<Step>, r: Option<State>)
    requires Inv(s) && Run(s, steps, r) && forall i :: 0 <= i < |steps| ==> Balanced(steps[i])
    ensures r.Some? && Inv(r.value)
    decreases |steps|
  {
    hide Inv, Apply, Enabled, Balanced;
    if steps != [] {
      StepKeepsInv(s, steps[0]);
      AlwaysInv(Apply(s, steps[0]).value, steps[1..], r);
    }
  }

  function Fresh(inflight: nat): State { State(NewEngine(inflight), map[], []) }

  lemma FreshInv(inflight: nat)
    ensures Inv(Fresh(inflight))
  {
    NewPartitioned(inflight);
  }

  /** Whatever the memory system answers, errors included, as long as a crossbar leaves no index but the
      token itself: no panic, no token lost, and each request is waiting with its slot or was answered
      exactly once, with that very request - without an error exactly when its write came back, else with
      the error that came back. An answer without an error means
      that just two packets were sent for it: its read, and one write to its destination, with its
      pattern, of exactly the bytes the read came back with. */
  lemma EachRequestAnsweredOnce(inflight: nat, steps: seq<Step>, r: Option<State>, id: nat)
    requires Run(Fresh(inflight), steps, r) && forall i :: 0 <= i < |steps| ==> Balanced(steps[i])
    ensures r.Some? && Partitioned(r.value.engine)
    ensures id < |r.value.transfers| ==> TransferOk(r.value, id)
    ensures id < |r.value.transfers| && r.value.transfers[id].answers != [] && r.value.transfers[id].error.None? ==>
      var tr := r.value.transfers[id];
      tr.answers == [Reply(tr.req, None)] && tr.seen.Some? && tr.sent == [ReadOf(tr.req, tr.token), WriteOf(tr.req, tr.token, tr.seen.value)]
  {
    hide Run, Partitioned, FlightOk;
    FreshInv(inflight);
    AlwaysInv(Fresh(inflight), steps, r);
    if id < |r.value.transfers| {
      assert TransferOk(r.value, id);
    }
  }

  // ------------------------------------------------------------ with a crossbar

  /** A Dma behind a crossbar that knows no range for its access: the crossbar leaves its inbound
      index on the stack, so the Dma takes that index for its token. It answers the request that
      failed exactly when the two are equal; else it answers another waiting request, or panics. */
  lemma RouteErrorReachesItsRequest(t: Table, idx: nat, e: Engine, token: nat, bus: Bus)
    requires bus.stack == [token] && token < |e.store| && e.store[token].Some?
    requires MemBus.Forward(t, idx, bus).Rejected? && MemBus.Forward(t, idx, bus).req.mode.error.Route?
    ensures var r := OnResponse(e, MemBus.Forward(t, idx, bus).req);
      && (r.Answer? && r.engine == Release(e, token) && r.req == e.store[token].value <==> idx == token)
      && (r.PanicDma? <==> idx >= |e.store| || e.store[idx].None?)
      && (!r.PanicDma? ==> idx < |e.store| && r.Answer? && r.req == e.store[idx].value && r.engine == Release(e, idx))
  {
    assert MemBus.Forward(t, idx, bus).req.stack == [token, idx];
    if idx != token && idx < |e.store| {
      assert |Release(e, token).avail| == |e.avail| + 1;
      assert Release(e, token).avail[|e.avail|] == token;
      assert Release(e, idx).avail[|e.avail|] == idx;
    }
  }

  /** Two requests that wait: request 0 with token 1, request 1 with token 0. */
  function TwoWaiting(): State {
    var a, b := DmaReq(0, 8, Simple(4), 0), DmaReq(16, 24, Simple(4), 1);
    State(Engine([], [Some(b), Some(a)], None), map[1 := ReadOf(a, 1), 0 := ReadOf(b, 0)],
          [Transfer(a, 1, [ReadOf(a, 1)], None, false, None, []), Transfer(b, 0, [ReadOf(b, 0)], None, false, None, [])])
  }

  lemma RunStep(s: State, step: Step, t: State, steps: seq<Step>, r: Option<State>)
    requires Enabled(s, step) && Apply(s, step) == Some(t) && Run(t, steps, r)
    ensures Run(s, [step] + steps, r)
  {
    assert ([step] + steps)[1..] == steps;
  }

  function One(): State { Fresh(2).(engine := Engine([0], [None, None], Some(1))) }

  function OneSent(): State { Submitted(One(), DmaReq(0, 8, Simple(4), 0)) }

  function Two(): State {
    OneSent().(engine := Engine([], [None, Some(DmaReq(0, 8, Simple(4), 0))], Some(0)))
  }

  lemma FirstRequest()
    ensures Enabled(Fresh(2), Reserve) && Apply(Fresh(2), Reserve) == Some(One())
    ensures Enabled(One(), Submit(0, 8, Simple(4)))
    ensures Apply(One(), Submit(0, 8, Simple(4))) == Some(OneSent())
    ensures Enabled(OneSent(), Reserve) && Apply(OneSent(), Reserve) == Some(Two())
  {
    assert Fresh(2).engine.avail == [0, 1] && Fresh(2).engine.store == [None, None];
    assert [0, 1][..1] == [0] && [0][..0] == [];
    SubmitIs(One(), 0, 8, Simple(4));
    var a := DmaReq(0, 8, Simple(4), 0);
    assert [None, None][1 := Some(a)] == [None, Some(a)];
  }

  lemma SecondRequest()
    ensures Enabled(Two(), Submit(16, 24, Simple(4))) && Apply(Two(), Submit(16, 24, Simple(4))) == Some(TwoWaiting())
  {
    SubmitIs(Two(), 16, 24, Simple(4));
    var a, b := DmaReq(0, 8, Simple(4), 0), DmaReq(16, 24, Simple(4), 1);
    assert Submitted(Two(), b) == TwoWaiting();
  }

  /** What a crossbar without a range for it makes of the read of request 0, which came in by port 0. */
  function Refused0(): Bus { ReadOf(DmaReq(0, 8, Simple(4), 0), 1).(mode := Failed(Route(AddrRange.Unmapped)), stack := [1, 0]) }

  /** Request 1 got the answer. */
  function Misdirected(): State {
    var a, b := DmaReq(0, 8, Simple(4), 0), DmaReq(16, 24, Simple(4), 1);
    State(Engine([0], [None, Some(a)], None), map[0 := ReadOf(b, 0)],
          [Transfer(a, 1, [ReadOf(a, 1)], None, false, Some(Route(AddrRange.Unmapped)), []),
           Transfer(b, 0, [ReadOf(b, 0)], None, false, None, [Reply(b, Some(Route(AddrRange.Unmapped)))])])
  }

  lemma RefusalMisdirected()
    ensures MemBus.Forward(map[], 0, TwoWaiting().flights[1]) == Rejected(Refused0())
    ensures Enabled(TwoWaiting(), Complete(1, Refused0())) && Apply(TwoWaiting(), Complete(1, Refused0())) == Some(Misdirected())
    ensures var resp := Misdirected().flights[0].(mode := Response);
      Enabled(Misdirected(), Complete(0, resp)) && Apply(Misdirected(), Complete(0, resp)) == None
  {
    var a, b, bus := DmaReq(0, 8, Simple(4), 0), DmaReq(16, 24, Simple(4), 1), Refused0();
    assert TwoWaiting().flights - {1} == Misdirected().flights;
    assert [1] + [0] == [1, 0];
    assert bus.stack[|bus.stack| - 1] == 0;
    assert [Some(b), Some(a)][0 := None] == [None, Some(a)];
    assert OnResponse(TwoWaiting().engine, bus) == Answer(Misdirected().engine, b, Some(Route(AddrRange.Unmapped)));
    var error := Some(Route(AddrRange.Unmapped));
    var trs := TwoWaiting().transfers[0 := TwoWaiting().transfers[0].(error := error)];
    assert [] + [Reply(b, error)] == [Reply(b, error)];
    assert trs[1 := trs[1].(answers := [Reply(b, error)])] == Misdirected().transfers;
    assert Misdirected().flights[0].stack == [0];
  }

  /** The route error that disturbs the stack does reach the wrong request: in this run request 0 is not
      mapped, request 1 is answered in its place, nobody will ever answer request 0, and the engine panics
      as soon as the memory answers request 1. */
  lemma ErrorAnswersAnotherRequest() returns (steps: seq<Step>, s: State, resp: Bus)
    ensures Run(Fresh(2), steps, Some(s)) && |s.transfers| == 2
    ensures s.transfers[0].answers == [] && s.transfers[0].error == Some(Route(AddrRange.Unmapped)) && s.transfers[0].token < |s.engine.store| && s.engine.store[s.transfers[0].token].Some? && s.transfers[0].token !in s.flights
    ensures s.transfers[1].error.None? && s.transfers[1].answers == [Reply(s.transfers[1].req, Some(Route(AddrRange.Unmapped)))] && s.transfers[1].token in s.flights
    ensures resp.mode.Response? && Run(Fresh(2), steps + [Complete(s.transfers[1].token, resp)], None)
  {
    FirstRequest();
    SecondRequest();
    RefusalMisdirected();
    s, resp := Misdirected(), Misdirected().flights[0].(mode := Response);
    var first, second := Submit(0, 8, Simple(4)), Submit(16, 24, Simple(4));
    var last, fatal := Complete(1, Refused0()), Complete(0, resp);
    steps := [Reserve] + ([first] + ([Reserve] + ([second] + ([last] + []))));
    assert steps + [fatal] == [Reserve] + ([first] + ([Reserve] + ([second] + ([last] + [fatal]))));
    assert Run(s, [], Some(s)) && Run(s, [fatal], None) by { assert [fatal][1..] == []; }
    hide Run, Apply, Enabled, TwoWaiting, Two, One, Fresh;
    RunToLast(first, second, last, [], Some(s));
    RunToLast(first, second, last, [fatal], None);
  }

  lemma RunToLast(first: Step, second: Step, last: Step, more: seq<Step>, r: Option<State>)
    requires first == Submit(0, 8, Simple(4)) && second == Submit(16, 24, Simple(4)) && last == Complete(1, Refused0())
    requires Run(Misdirected(), more, r)
    ensures Run(Fresh(2), [Reserve] + ([first] + ([Reserve] + ([second] + ([last] + more)))), r)
  {
    FirstRequest();
    SecondRequest();
    RefusalMisdirected();
    hide Run, Apply, Enabled, TwoWaiting, Two, OneSent, One, Fresh, Misdirected;
    RunStep(TwoWaiting(), last, Misdirected(), more, r);
    RunStep(Two(), second, TwoWaiting(), [last] + more, r);
    RunStep(OneSent(), Reserve, Two(), [second] + ([last] + more), r);
    RunStep(One(), first, OneSent(), [Reserve] + ([second] + ([last] + more)), r);
    RunStep(Fresh(2), Reserve, One(), [first] + ([Reserve] + ([second] + ([last] + more))), r);
  }
}
