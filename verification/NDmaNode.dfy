/** The NDma module object itself: its token stack and packet store, changed in place. */
module NDmaNode {
  import opened Wrappers
  import opened NDma

  /** What a layer did: it panicked, or it sent one packet. */
  datatype Outcome = Panicked | Sent(emit: Emit)

  /** The node's part of a reaction that the network model computes on values. */
  predicate Matches(r: Reaction, engine: Engine, outcome: Outcome) {
    match outcome
    case Panicked => r.Panic?
    case Sent(emit) => r == React(engine, emit)
  }

  class NDmaNode {
    const nodeId: NodeId
    var availId: seq<nat>
    var pktStore: seq<Slot>
    /** The locals named `token` of request_layer and of ingress_layer. */
    var reqToken: Option<nat>
    var ingToken: Option<nat>

    ghost function Value(): Engine
      reads this
    {
      Engine(availId, pktStore, reqToken, ingToken)
    }

    ghost predicate Valid()
      reads this
    {
      Partitioned(Value())
    }

    constructor (nodeId: NodeId, inflight: nat)
      ensures Valid() && this.nodeId == nodeId && Value() == NewEngine(inflight)
    {
      this.nodeId := nodeId;
      availId := seq(inflight, i => i);
      pktStore := seq(inflight, _ => Empty);
      reqToken, ingToken := None, None;
      new;
      assert Value() == NewEngine(inflight);
      NewPartitioned(inflight);
    }

    /** wait_slot, once for each of its two callers: without a free token the layer keeps waiting. */
    method WaitSlot(forRequest: bool) returns (taken: bool)
      requires Valid() && (if forRequest then reqToken.None? else ingToken.None?)
      modifies this`availId, this`reqToken, this`ingToken
      ensures Valid() && taken == CanReserve(old(Value()))
      ensures !taken ==> Value() == old(Value())
      ensures taken ==> var e := old(Value());
        Value() == if forRequest then PopToken(e).(reqToken := Some(TopToken(e))) else PopToken(e).(ingToken := Some(TopToken(e)))
    {
      ghost var e := Value();
      taken := |availId| != 0;
      if taken {
        var token := availId[|availId| - 1];
        availId := availId[..|availId| - 1];
        if forRequest {
          reqToken := Some(token);
        } else {
          ingToken := Some(token);
        }
        ReservePartitioned(e, forRequest);
      }
    }

    /** Push an empty slot at the end, swap it into place, release the token. */
    method RemoveSlotAt(pos: nat) returns (slot: Slot)
      requires Valid() && pos < |pktStore| && !pktStore[pos].Empty?
      modifies this`availId, this`pktStore
      ensures Valid() && slot == old(pktStore[pos]) && Value() == Free(old(Value()), pos)
    {
      ghost var e := Value();
      pktStore := pktStore + [Empty];
      slot := pktStore[pos];
      var last := |pktStore| - 1;
      pktStore := pktStore[pos := pktStore[last]];
      pktStore := pktStore[..last];
      availId := availId + [pos];
      assert pktStore == e.store[pos := Empty];
      FreePartitioned(e, pos);
    }

    /** dma_to_inner_req, on the request that request_layer received. */
    method DmaToInnerReq(req: Dma, xid: nat) returns (outcome: Outcome)
      requires Valid() && reqToken.Some?
      modifies this`pktStore, this`reqToken
      ensures Valid() && Matches(AcceptRequest(old(Value()), nodeId, req, xid), Value(), outcome)
    {
      var token, slot := reqToken.value, Local(req, xid);
      StorePartitioned(Value(), token, slot);
      pktStore := pktStore[token := slot];
      reqToken := None;
      var memReq := MemBus(Request, Read, req.readAddr, req.len, [], []);
      memReq := memReq.(stack := memReq.stack + [token]);
      assert memReq.stack == [token];
      if req.readNode == nodeId {
        outcome := Sent(ToMem(memReq));
      } else {
        outcome := Sent(ToNet(Header(Request, nodeId, req.readNode), memReq));
      }
    }

    /** The rest of one round of ingress_layer, on the packet it received; the memory port panics on a payload
        that is not a request, when the slot is already filled. */
    method Ingress(header: Header, mem: MemBus, xid: nat) returns (outcome: Outcome)
      requires Valid() && ingToken.Some?
      modifies this`pktStore, this`ingToken
      ensures Valid() && Matches(AcceptExternal(old(Value()), header, mem, xid), Value(), outcome)
      ensures pktStore == old(pktStore)[old(ingToken).value := External(header.from, header.to, xid)] && ingToken == None
    {
      var token, slot := ingToken.value, External(header.from, header.to, xid);
      StorePartitioned(Value(), token, slot);
      pktStore := pktStore[token := slot];
      ingToken := None;
      if mem.mode == Request {
        outcome := Sent(ToMem(mem.(stack := mem.stack + [token])));
      } else {
        outcome := Panicked;
      }
    }

    /** forward_resp: pop the token, look at its slot, and turn, answer or send back. */
    method ForwardResp(mem: MemBus) returns (outcome: Outcome)
      requires Valid()
      modifies this`availId, this`pktStore
      ensures Valid() && Matches(ForwardResponse(old(Value()), nodeId, mem), Value(), outcome)
      ensures outcome.Panicked? ==> Value() == old(Value())
    {
      if |mem.stack| == 0 {
        return Panicked;
      }
      var token := mem.stack[|mem.stack| - 1];
      var memPkt := mem.(stack := mem.stack[..|mem.stack| - 1]);
      if token >= |pktStore| {
        return Panicked;
      }
      match pktStore[token] {
        case Empty =>
          outcome := Panicked;
        case Local(req, _) =>
          match memPkt.cmd {
            case Read =>
              memPkt := memPkt.(mode := Request, cmd := Write, addr := req.writeAddr);
              memPkt := memPkt.(stack := memPkt.stack + [token]);
              if req.writeNode == nodeId {
                outcome := Sent(ToMem(memPkt));
              } else {
                outcome := Sent(ToNet(Header(Response, nodeId, req.writeNode), memPkt));
              }
            case Write =>
              var slot := RemoveSlotAt(token);
              outcome := Sent(Answer(slot.req));
          }
        case External(_, _, _) =>
          var slot := RemoveSlotAt(token);
          outcome := Sent(BackToNet(Header(Response, slot.from, slot.to), memPkt));
      }
    }
  }
}
