/** When a packet arrives: loosely timed ports let its delay add up, approximately timed ports wait
    at every stage. */
module PacketTiming {
  datatype Mode = LT | AT

  /** The tick of the process that holds a packet, and the tick at which the packet is ready. A
      delay that the process awaits ends at its tick exactly. */
  datatype Timing = Timing(now: nat, readyAt: nat)

  function Max(a: nat, b: nat): nat { if a < b then b else a }

  /** handle_delay */
  function Handled(t: Timing, timed: bool): Timing {
    if timed && t.readyAt > t.now then t.(now := t.readyAt) else t
  }

  /** account_delay, in the mode that is set when the packet gets there. */
  function Accounted(t: Timing, timed: bool, mode: Mode, delay: nat): Timing {
    var u := t.(readyAt := t.readyAt + delay);
    match mode
    case LT => u
    case AT => Handled(u, timed)
  }

  /** Packet::delay: what is left to wait, saturating at zero. */
  function Unpaid(t: Timing): nat { if t.readyAt > t.now then t.readyAt - t.now else 0 }

  /** inner_wrap and inner_unwrap: a new packet with the unpaid delay of the old one. */
  function Rewrapped(t: Timing): Timing { t.(readyAt := t.now + Unpaid(t)) }

  class Packet {
    const timed: bool
    var readyAt: nat

    /** wrap_payload, at tick `now`. */
    constructor (timed: bool, now: nat, delay: nat)
      ensures this.timed == timed && readyAt == now + delay
    {
      this.timed := timed;
      readyAt := now + delay;
    }

    /** Returns the tick at which the process goes on. */
    method HandleDelay(now: nat) returns (later: nat)
      ensures Timing(later, readyAt) == Handled(Timing(now, readyAt), timed)
    {
      later := now;
      if timed && readyAt > now {
        later := readyAt;
      }
    }

    method AccountDelay(now: nat, mode: Mode, delay: nat) returns (later: nat)
      modifies this
      ensures Timing(later, readyAt) == Accounted(Timing(now, old(readyAt)), timed, mode, delay)
    {
      readyAt := readyAt + delay;
      later := now;
      match mode {
        case LT =>
        case AT =>
          later := HandleDelay(now);
      }
    }

    method AppendDelay(delay: nat)
      modifies this
      ensures readyAt == old(readyAt) + delay
    {
      readyAt := readyAt + delay;
    }

    method Delay(now: nat) returns (d: nat)
      ensures d == Unpaid(Timing(now, readyAt))
    {
      d := if readyAt > now then readyAt - now else 0;
    }

    /** The packet that carries the inner or the outer protocol on, with the same options. */
    method Rewrap(now: nat) returns (p: Packet)
      ensures fresh(p) && p.timed == timed && Timing(now, p.readyAt) == Rewrapped(Timing(now, readyAt))
    {
      var d := Delay(now);
      p := new Packet(timed, now, d);
    }
  }

  // ------------------------------------------------------------ paths

  /** What happens to a packet between its source and its endpoint: a module appends a delay, a
      port accounts for a delay in the mode of that moment, the network wraps or unwraps it, or
      a busy port holds it until some tick. */
  datatype Stage =
    | Append(delay: nat)
    | Port(mode: Mode, delay: nat)
    | Wrap
    | Hold(until: nat)

  function Pass(t: Timing, timed: bool, stage: Stage): Timing {
    match stage
    case Append(delay) => t.(readyAt := t.readyAt + delay)
    case Port(mode, delay) => Accounted(t, timed, mode, delay)
    case Wrap => Rewrapped(t)
    case Hold(until) => t.(now := Max(t.now, until))
  }

  function PassAll(t: Timing, timed: bool, path: seq<Stage>): Timing
    decreases |path|
  {
    if path == [] then t else PassAll(Pass(t, timed, path[0]), timed, path[1..])
  }

  /** The endpoint consumes the delay whatever the mode. */
  function Arrival(t: Timing, timed: bool, path: seq<Stage>): nat { Handled(PassAll(t, timed, path), timed).now }

  /** The same stages in possibly other modes, with no packet held longer. */
  predicate NoSlower(p: seq<Stage>, q: seq<Stage>) {
    && |p| == |q|
    && forall i :: 0 <= i < |p| ==>
      match p[i]
      case Append(d) => q[i] == Append(d)
      case Port(_, d) => q[i].Port? && q[i].delay == d
      case Wrap => q[i] == Wrap
      case Hold(until) => q[i].Hold? && until <= q[i].until
  }

  /** Between two runs: the packets will be ready no later, and their processes go on no later. */
  predicate Before(t: Timing, u: Timing, timed: bool) {
    if timed then t.readyAt <= u.readyAt && t.now <= Max(u.now, u.readyAt) else t.now <= u.now
  }

  lemma PassKeepsBefore(t: Timing, u: Timing, timed: bool, a: Stage, b: Stage)
    requires Before(t, u, timed) && NoSlower([a], [b])
    ensures Before(Pass(t, timed, a), Pass(u, timed, b), timed)
  {
    assert [a][0] == a && [b][0] == b;
  }

  /** Whatever the modes are, stage by stage, of both runs: a packet that is held no longer arrives
      no later. */
  lemma {:induction false} ArrivalMonotone(t: Timing, u: Timing, timed: bool, p: seq<Stage>, q: seq<Stage>)
    requires Before(t, u, timed) && NoSlower(p, q)
    ensures Arrival(t, timed, p) <= Arrival(u, timed, q)
    decreases |p|
  {
    if p != [] {
      assert [p[0]] == p[..1] && [q[0]] == q[..1];
      PassKeepsBefore(t, u, timed, p[0], q[0]);
      ArrivalMonotone(Pass(t, timed, p[0]), Pass(u, timed, q[0]), timed, p[1..], q[1..]);
    }
  }

  /** All ports in mode `mode`. */
  function AllIn(path: seq<Stage>, mode: Mode): seq<Stage> {
    seq(|path|, i requires 0 <= i < |path| => if path[i].Port? then Port(mode, path[i].delay) else path[i])
  }

  /** The two timing modes, and any mix of them that toggles on the way, agree on the arrival tick
      as long as busy ports hold the packet until the same ticks. */
  lemma ModesAgree(t: Timing, timed: bool, path: seq<Stage>)
    ensures Arrival(t, timed, path) == Arrival(t, timed, AllIn(path, LT)) == Arrival(t, timed, AllIn(path, AT))
  {
    forall mode: Mode
      ensures Arrival(t, timed, path) == Arrival(t, timed, AllIn(path, mode))
    {
      ArrivalMonotone(t, t, timed, path, AllIn(path, mode));
      ArrivalMonotone(t, t, timed, AllIn(path, mode), path);
    }
  }

  function Delays(path: seq<Stage>): nat {
    if path == [] then 0 else (if path[0].Append? || path[0].Port? then path[0].delay else 0) + Delays(path[1..])
  }

  /** Uncontended, a timed packet arrives at its first ready tick plus the delays of all its
      stages, in any mode and through any wraps; an untimed one arrives at once. */
  lemma {:induction false} UncontendedArrival(t: Timing, timed: bool, path: seq<Stage>)
    requires t.now <= t.readyAt && forall i :: 0 <= i < |path| ==> !path[i].Hold?
    ensures Arrival(t, timed, path) == if timed then t.readyAt + Delays(path) else t.now
    decreases |path|
  {
    if path != [] {
      UncontendedArrival(Pass(t, timed, path[0]), timed, path[1..]);
    }
  }

  /** The delays that a wrap starts anew: those behind the first wrap. */
  function AfterWrap(path: seq<Stage>): (d: nat)
    ensures d <= Delays(path)
  {
    if path == [] then 0 else if path[0].Wrap? then Delays(path[1..]) else AfterWrap(path[1..])
  }

  /** The latest tick until which the packet was held, each with the delays that the next wrap starts anew. */
  function LatestHold(path: seq<Stage>): nat {
    if path == [] then 0
    else Max(if path[0].Hold? then path[0].until + AfterWrap(path[1..]) else 0, LatestHold(path[1..]))
  }

  /** Held anywhere, a packet is never early, and its delay runs on while it is held, except that a wrap
      starts the delays behind it anew: in any modes it arrives at the latest of its ready tick plus all its
      delays, and of the ticks until which it was held plus the delays behind the next wrap. */
  lemma {:induction false} HeldArrival(t: Timing, path: seq<Stage>)
    ensures Arrival(t, true, path) == Max(Max(t.now + AfterWrap(path), LatestHold(path)), t.readyAt + Delays(path))
    decreases |path|
  {
    if path != [] {
      var u := Pass(t, true, path[0]);
      HeldArrival(u, path[1..]);
      assert Arrival(t, true, path) == Arrival(u, true, path[1..]);
      hide Arrival, PassAll;
    }
  }
}
