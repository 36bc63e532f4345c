/** The switch that joins NDma nodes: its table of ports, and how it sends a packet on. */
module Switch {
  import opened Wrappers
  import opened NDma

  type PortMap = map<NodeId, nat>

  datatype NetworkError = AlreadyUsed | Unreachable

  function GetPort(m: PortMap, node: NodeId): Option<nat> { if node in m then Some(m[node]) else None }

  /** register_port, one registration after the other; a second port for a node is refused. */
  function Registered(m: PortMap, list: seq<(NodeId, nat)>): PortMap
    decreases |list|
  {
    if list == [] then m
    else Registered(if list[0].0 in m then m else m[list[0].0 := list[0].1], list[1..])
  }

  /** The port of a node is the one it was registered with first: no later registration moves it,
      and a node is reachable exactly when it was registered. */
  lemma {:induction false} FirstRegistrationHolds(m: PortMap, list: seq<(NodeId, nat)>, node: NodeId)
    ensures node in m ==> GetPort(Registered(m, list), node) == Some(m[node])
    ensures node !in m ==> GetPort(Registered(m, list), node) == FirstPort(list, node)
    decreases |list|
  {
    if list != [] {
      FirstRegistrationHolds(if list[0].0 in m then m else m[list[0].0 := list[0].1], list[1..], node);
    }
  }

  function FirstPort(list: seq<(NodeId, nat)>, node: NodeId): Option<nat> {
    if list == [] then None
    else if list[0].0 == node then Some(list[0].1)
    else FirstPort(list[1..], node)
  }

  /** Out of egress or back out of ingress port `port`, or returned through the port it came in by. */
  datatype Sent = On(port: nat, header: Header, mem: MemBus) | Bounced(error: NetworkError)

  /** Requests travel by their destination, responses by their source. */
  function Forward(m: PortMap, header: Header, mem: MemBus): Sent {
    match GetPort(m, header.to) case Some(port) => On(port, header, mem) case None => Bounced(Unreachable)
  }

  function Backward(m: PortMap, header: Header, mem: MemBus): Sent {
    match GetPort(m, header.from) case Some(port) => On(port, header, mem) case None => Bounced(Unreachable)
  }

  /** After any registrations a packet goes on, unchanged, by the port with which its destination - on the way
      back its source - was registered first, and bounces as unreachable exactly when it never was. */
  lemma RoutedByRegistration(list: seq<(NodeId, nat)>, header: Header, mem: MemBus)
    ensures var m := Registered(map[], list);
      && Forward(m, header, mem) == (match FirstPort(list, header.to)
           case Some(port) => On(port, header, mem) case None => Bounced(Unreachable))
      && Backward(m, header, mem) == (match FirstPort(list, header.from)
           case Some(port) => On(port, header, mem) case None => Bounced(Unreachable))
  {
    FirstRegistrationHolds(map[], list, header.to);
    FirstRegistrationHolds(map[], list, header.from);
  }

  class Switch {
    var portMap: PortMap

    constructor ()
      ensures portMap == map[]
    {
      portMap := map[];
    }

    method RegisterPort(target: NodeId, port: nat) returns (refused: Option<NetworkError>)
      modifies this
      ensures portMap == Registered(old(portMap), [(target, port)])
      ensures refused == if target in old(portMap) then Some(AlreadyUsed) else None
    {
      if target in portMap {
        return Some(AlreadyUsed);
      }
      portMap := portMap[target := port];
      refused := None;
    }

    /** forward_layer of one ingress port on the packets it receives. */
    method ForwardLayer(received: seq<(Header, MemBus)>) returns (sent: seq<Sent>)
      ensures |sent| == |received|
      ensures forall k :: 0 <= k < |sent| ==> sent[k] == Forward(portMap, received[k].0, received[k].1)
    {
      sent := [];
      for i := 0 to |received|
        invariant |sent| == i
        invariant forall k :: 0 <= k < i ==> sent[k] == Forward(portMap, received[k].0, received[k].1)
      {
        var (header, mem) := received[i];
        var dst := GetPort(portMap, header.to);
        sent := sent + [if dst.Some? then On(dst.value, header, mem) else Bounced(Unreachable)];
      }
    }

    /** backward_layer of one egress port, likewise. */
    method BackwardLayer(received: seq<(Header, MemBus)>) returns (sent: seq<Sent>)
      ensures |sent| == |received|
      ensures forall k :: 0 <= k < |sent| ==> sent[k] == Backward(portMap, received[k].0, received[k].1)
    {
      sent := [];
      for i := 0 to |received|
        invariant |sent| == i
        invariant forall k :: 0 <= k < i ==> sent[k] == Backward(portMap, received[k].0, received[k].1)
      {
        var (header, mem) := received[i];
        var from := GetPort(portMap, header.from);
        sent := sent + [if from.Some? then On(from.value, header, mem) else Bounced(Unreachable)];
      }
    }
  }
}
