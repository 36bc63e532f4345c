/** Runs of the DMA network: no step panics, and every answered transfer copied what it read. */
module NDmaSafety {
  import opened Memory
  import opened Wrappers
  import opened NDma
  import opened NDmaNetwork
  import opened NDmaInvariant

  // ------------------------------------------------------------ responses

  lemma SameEngine(s: State, n: NodeId)
    requires n < |s.nodes|
    ensures SetEngine(s, n, s.nodes[n].engine) == s
  {
    assert s.nodes[n := s.nodes[n].(engine := s.nodes[n].engine)] == s.nodes;
  }

  lemma HomeStack(s: State, x: nat, n: NodeId)
    requires Home(s, x, n) && PacketOk(s, x, s.packets[x])
    ensures s.packets[x].mem.stack == [s.transfers[x].token] && n < |s.nodes|
    ensures s.transfers[x].token < |Store(s, n)| && Store(s, n)[s.transfers[x].token] == Local(s.transfers[x].req, x)
  {
  }

  /** At the initiator a read response turns into the write, a write response answers. */
  lemma HomeResponse(s: State, x: nat, n: NodeId)
    requires Inv(s) && Home(s, x, n)
    ensures var r := Emitted(s, n, x, ForwardResponse(s.nodes[n].engine, n, s.packets[x].mem)); r.Ok? && Inv(r.state)
  {
    hide Inv, PacketOk;
    assert Wired(s) && PacketOk(s, x, s.packets[x]) by { InvParts(s, x); }
    HomeStack(s, x, n);
    SameEngine(s, n);
    var p, tr := s.packets[x], s.transfers[x];
    assert p.mem.stack[..0] == [];
    if p.mem.cmd.Read? {
      var w := tr.req.writeNode;
      var place := if w == n then AtMem(n) else Outbound(s.portMap[n]);
      var h := if w == n then NoHeader else Header(Response, n, w);
      assert Emitted(s, n, x, ForwardResponse(s.nodes[n].engine, n, p.mem)) == Ok(Turned(s, x, place, h));
      TurnedKeepsInv(s, x, n, place, h);
    } else {
      assert Emitted(s, n, x, ForwardResponse(s.nodes[n].engine, n, p.mem)) == Ok(Answered(s, x));
      AnsweredKeepsInv(s, x, n);
    }
  }

  lemma InvParts(s: State, x: nat)
    requires Inv(s) && x in s.packets
    ensures Wired(s) && PacketOk(s, x, s.packets[x]) && x < |s.transfers|
  {
    hide PacketOk, Wired, MemoryOk, EnginesOk, SlotsOk, TransfersOk;
    PacketOf(s, x);
    assert x < |s.transfers| by { OfTransfer(s, x); }
  }

  lemma OfTransfer(s: State, x: nat)
    requires x in s.packets && PacketOk(s, x, s.packets[x])
    ensures x < |s.transfers|
  {
  }

  /** At a server a response leaves its slot and goes back to the switch. */
  lemma ServerResponse(s: State, x: nat, n: NodeId)
    requires Inv(s) && x in s.packets && s.packets[x].place == FromMem(n)
    requires x < |s.transfers| && n != s.transfers[x].origin && n < |s.nodes|
    ensures var r := Emitted(s, n, x, ForwardResponse(s.nodes[n].engine, n, s.packets[x].mem)); r.Ok? && Inv(r.state)
  {
    hide Inv;
    assert Wired(s) && PacketOk(s, x, s.packets[x]) by { InvParts(s, x); }
    var p, tr := s.packets[x], s.transfers[x];
    var k := p.mem.stack[1];
    var h := Header(Response, tr.origin, n);
    assert Emitted(s, n, x, ForwardResponse(s.nodes[n].engine, n, p.mem)) == Ok(SentBack(s, x, n, k, s.portMap[n], h));
    SentBackKeepsInv(s, x, n, s.portMap[n]);
  }

  lemma WhereIs(s: State, x: nat, p: Packet)
    requires PacketOk(s, x, p)
    ensures p.place.FromMem? ==> p.place.n < |s.nodes| && p.mem.mode.Response?
    ensures p.place.Returned? ==> p.place.n == s.transfers[x].origin < |s.nodes| && p.mem.mode.Response? && p.header.mode.Response?
    ensures p.place.AtMem? ==> p.place.n < |s.nodes| && p.mem.mode.Request?
  {
  }

  lemma MemResponseKeepsInv(s: State, x: nat)
    requires Inv(s) && Enabled(s, MemResponse(x))
    ensures Apply(s, MemResponse(x)).Ok? && Inv(Apply(s, MemResponse(x)).state)
  {
    hide Inv, PacketOk, ForwardResponse, Emitted;
    InvParts(s, x);
    WhereIs(s, x, s.packets[x]);
    var n := s.packets[x].place.n;
    if n == s.transfers[x].origin {
      HomeResponse(s, x, n);
    } else {
      ServerResponse(s, x, n);
    }
  }

  lemma EgressKeepsInv(s: State, x: nat)
    requires Inv(s) && Enabled(s, Egress(x))
    ensures Apply(s, Egress(x)).Ok? && Inv(Apply(s, Egress(x)).state)
  {
    hide Inv, PacketOk, ForwardResponse, Emitted;
    InvParts(s, x);
    WhereIs(s, x, s.packets[x]);
    HomeResponse(s, x, s.packets[x].place.n);
  }

  // ------------------------------------------------------------ memory

  /** Packet `x`, at the memory of node `n`, is served: what the request meant and what it becomes. */
  lemma ServeIsOk(s: State, x: nat)
    requires x in s.packets && s.packets[x].place.AtMem? && PacketOk(s, x, s.packets[x])
    ensures ServeMem(s, x).Ok?
  {
    hide StackAt;
  }

  lemma ServedMoves(s: State, x: nat, t: State)
    requires x in s.packets && s.packets[x].place.AtMem? && ServeMem(s, x) == Ok(t)
    ensures OnlyMoves(s, t, x) && SameOthers(s, t, x)
    ensures t.wire == s.wire && t.portMap == s.portMap && |t.transfers| == |s.transfers|
    ensures x in t.packets && forall n :: 0 <= n < |s.nodes| ==> t.nodes[n].engine == s.nodes[n].engine
  {
    assert t.log[|s.log|] == t.log[|t.log| - 1];
    assert forall i :: 0 <= i < |s.log| ==> t.log[i] == s.log[i];
  }

  lemma ServedPacketOk(s: State, x: nat, t: State)
    requires x in s.packets && s.packets[x].place.AtMem? && PacketOk(s, x, s.packets[x]) && ServeMem(s, x) == Ok(t)
    ensures x in t.packets && PacketOk(t, x, t.packets[x])
  {
    ServedMoves(s, x, t);
    hide SameOthers;
    var p, q := s.packets[x], t.packets[x];
    var tr, n := t.transfers[x], p.place.n;
    assert Store(t, tr.origin) == Store(s, tr.origin) && Store(t, n) == Store(s, n);
    assert PlaceOk(t, x, tr, q) && InRange(t, tr.req);
    ServedStage(s, x, t);
  }

  lemma ServedStage(s: State, x: nat, t: State)
    requires x in s.packets && s.packets[x].place.AtMem? && PacketOk(s, x, s.packets[x]) && ServeMem(s, x) == Ok(t)
    ensures x < |t.transfers| && x in t.packets && StageOk(t.log, t.transfers[x], t.packets[x].mem)
  {
    hide StackAt, InRange;
    assert forall i :: 0 <= i < |s.log| ==> t.log[i] == s.log[i];
    assert t.log[|s.log|] == t.log[|t.log| - 1];
    if s.packets[x].mem.cmd.Read? {
      assert t.packets[x].mem.data == t.log[|s.log|].bytes;
    }
  }

  lemma LogAppend(init: seq<seq<Byte>>, log: seq<Event>, e: Event)
    requires forall i :: 0 <= i < |log| ==> EventOk(init, log, i)
    requires EventOk(init, log + [e], |log|)
    ensures forall i :: 0 <= i < |log + [e]| ==> EventOk(init, log + [e], i)
  {
    hide Replay;
    forall i | 0 <= i < |log|
      ensures EventOk(init, log + [e], i)
    {
      assert (log + [e])[..i] == log[..i];
      assert EventOk(init, log, i);
    }
  }

  lemma ReplayAppend(init: seq<seq<Byte>>, log: seq<Event>, e: Event)
    ensures (log + [e])[..|log|] == log
    ensures var before := Replay(init, log);
      Replay(init, log + [e]) ==
      if e.cmd.Write? && e.node < |before| && e.addr + |e.bytes| <= |before[e.node]|
      then before[e.node := Overwrite(before[e.node], e.addr, e.bytes)]
      else before
  {
    assert (log + [e])[..|log|] == log;
  }

  lemma ServedEvent(s: State, x: nat, t: State)
    requires MemoryOk(s) && x in s.packets && s.packets[x].place.AtMem? && ServeMem(s, x) == Ok(t)
    ensures MemoryOk(t)
  {
    hide Overwrite;
    var e := t.log[|s.log|];
    assert t.log == s.log + [e];
    ReplayAppend(s.init, s.log, e);
    hide Replay;
    assert EventOk(s.init, s.log + [e], |s.log|);
    LogAppend(s.init, s.log, e);
  }

  lemma ServedSlots(s: State, t: State, x: nat)
    requires SlotsOk(s) && PacketsOk(s) && x in s.packets && s.packets[x].place.AtMem?
    requires ServeMem(s, x) == Ok(t)
    ensures forall n, k :: 0 <= n < |t.nodes| && 0 <= k < |Store(t, n)| ==> k < |Store(s, n)| && Store(t, n)[k] == Store(s, n)[k]
    ensures forall n, k :: 0 <= n < |t.nodes| && 0 <= k < |Store(t, n)| && Owner(Store(t, n)[k]) == Some(x) ==> SlotOk(t, n, k)
  {
    hide PacketOk;
    SlotsOf(s, x);
    assert forall n :: 0 <= n < |t.nodes| ==> Store(t, n) == Store(s, n);
    forall n, k | 0 <= n < |t.nodes| && 0 <= k < |Store(t, n)| && Owner(Store(t, n)[k]) == Some(x)
      ensures SlotOk(t, n, k)
    {
      assert SlotFor(s, x, n, k);
    }
  }

  lemma ServeKeepsInv(s: State, x: nat)
    requires Inv(s) && Enabled(s, Serve(x))
    ensures Apply(s, Serve(x)).Ok? && Inv(Apply(s, Serve(x)).state)
  {
    hide Inv, ServeMem, PacketOk;
    InvParts(s, x);
    ServeIsOk(s, x);
    ServedKeepsInv(s, x, ServeMem(s, x).state);
  }

  lemma ServedKeepsInv(s: State, x: nat, t: State)
    requires Inv(s) && x in s.packets && s.packets[x].place.AtMem? && PacketOk(s, x, s.packets[x]) && ServeMem(s, x) == Ok(t)
    ensures Inv(t)
  {
    hide PacketOk, SlotOk, MemoryOk, PacketsOk, SlotsOk, TransfersOk, OnlyMoves, SameOthers, Replay, Partitioned, ServeMem;
    ServedMoves(s, x, t);
    ServedPacketOk(s, x, t);
    ServedEvent(s, x, t);
    ServedSlots(s, t, x);
    assert PacketsOk(t) by { MovedPackets(s, t, x); }
    assert SlotsOk(t) by { MovedSlots(s, t, x); }
    assert TransfersOk(t) by { OtherTransfersOk(s, t, x); }
    assert |t.nodes| == |s.nodes| by { assert OnlyMoves(s, t, x); }
  }

  // ------------------------------------------------------------ runs

  /** No layer, switch or memory fails, and the invariant holds again. */
  lemma StepKeepsInv(s: State, step: Step)
    requires Inv(s) && Enabled(s, step)
    ensures Apply(s, step).Ok? && Inv(Apply(s, step).state)
  {
    hide Inv, Emitted, ServeMem, Route, AcceptRequest, AcceptExternal;
    match step
    case ReserveRequest(n) => ReserveKeepsInv(s, n, true);
    case ReserveIngress(n) => ReserveKeepsInv(s, n, false);
    case Submit(n, req) => SubmitKeepsInv(s, n, req);
    case Ingress(x) => IngressKeepsInv(s, x);
    case Serve(x) => ServeKeepsInv(s, x);
    case MemResponse(x) => MemResponseKeepsInv(s, x);
    case Egress(x) => EgressKeepsInv(s, x);
    case SwitchForward(x) => RouteKeepsInv(s, x, true);
    case SwitchBackward(x) => RouteKeepsInv(s, x, false);
  }

  lemma InitInv(s: State)
    requires Init(s)
    ensures Inv(s)
  {
    forall n | 0 <= n < |s.nodes|
      ensures Partitioned(s.nodes[n].engine)
    {
      NewPartitioned(|s.nodes[n].engine.store|);
    }
  }

  /** The results of a sequence of steps, each taken where it is enabled; Fault ends the run. */
  predicate Run(s: State, steps: seq<Step>, r: Result)
    decreases |steps|
  {
    if steps == [] then r == Ok(s)
    else
      && Enabled(s, steps[0])
      && match Apply(s, steps[0])
         case Fault => r == Fault
         case Ok(t) => Run(t, steps[1..], r)
  }

  /** In any interleaving of any number of transfers over any number of nodes no panic, slot
      error or routing error happens, and the invariant holds. */
  lemma {:induction false} AlwaysInv(s: State, steps: seq<Step>, r: Result)
    requires Inv(s) && Run(s, steps, r)
    ensures r.Ok? && Inv(r.state)
    decreases |steps|
  {
    hide Inv, Apply, Enabled;
    if steps != [] {
      StepKeepsInv(s, steps[0]);
      AlwaysInv(Apply(s, steps[0]).state, steps[1..], r);
    }
  }

  lemma NeverPanics(s: State, steps: seq<Step>, r: Result)
    requires Init(s) && Run(s, steps, r)
    ensures r.Ok? && Inv(r.state)
  {
    hide Inv, Init, Run;
    InitInv(s);
    AlwaysInv(s, steps, r);
  }
}
