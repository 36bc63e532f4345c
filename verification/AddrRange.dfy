/** The routing table of a crossbar: address ranges by offset, and the port each one leads to. */
module AddrRange {
  import opened Wrappers

  /** BTreeMap from range offset to (range size, port). */
  datatype Entry = Entry(size: nat, port: nat)
  type Table = map<nat, Entry>

  datatype Error = Overlap | CrossRange | Unmapped
  datatype Result<T> = Ok(value: T) | Err(error: Error)

  /** The greatest key not above `addr`: the last entry of range(..=addr). */
  function Floor(t: Table, addr: nat): (r: Option<nat>)
    ensures r.Some? ==> r.value in t && r.value <= addr && forall k :: k in t && k <= addr ==> k <= r.value
    ensures r.None? ==> forall k :: k in t ==> k > addr
  {
    if addr in t then Some(addr) else if addr == 0 then None else Floor(t, addr - 1)
  }

  function End(t: Table, o: nat): nat
    requires o in t
  {
    o + t[o].size
  }

  function Insert(t: Table, o: nat, size: nat, port: nat): Result<Table> {
    match Floor(t, o)
    case Some(k) => if End(t, k) > o then Err(Overlap) else Ok(t[o := Entry(size, port)])
    case None => Ok(t[o := Entry(size, port)])
  }

  /** The offset of the range an access falls into, and its port. */
  function Find(t: Table, addr: nat, len: nat): Result<(nat, nat)> {
    match Floor(t, addr)
    case Some(k) => if End(t, k) < addr + len then Err(CrossRange) else Ok((k, t[k].port))
    case None => Err(Unmapped)
  }

  /** Every range ends at or before the next one starts. */
  predicate Separated(t: Table) {
    forall a, b :: a in t && b in t && a < b ==> End(t, a) <= b
  }

  predicate Covers(t: Table, o: nat, addr: nat, len: nat) {
    o in t && o <= addr && addr + len <= End(t, o)
  }

  /** For non-empty ranges, to be separated is to share no address. */
  lemma SeparatedIsDisjoint(t: Table)
    requires forall o :: o in t ==> t[o].size > 0
    ensures Separated(t) <==> forall a, b, addr :: a in t && b in t && a != b && Covers(t, a, addr, 1) ==> !Covers(t, b, addr, 1)
  {
    if forall a, b, addr :: a in t && b in t && a != b && Covers(t, a, addr, 1) ==> !Covers(t, b, addr, 1) {
      forall a, b | a in t && b in t && a < b
        ensures End(t, a) <= b
      {
        assert Covers(t, b, b, 1);
        assert !Covers(t, a, b, 1);
      }
    }
  }

  /** insert_range looks at the range before the new one only. So it keeps the table separated
      exactly when the new range ends at or before every later range - nothing in it checks that -
      and on an error it changes nothing. */
  lemma InsertKeepsSeparated(t: Table, o: nat, size: nat, port: nat)
    requires Separated(t)
    ensures Insert(t, o, size, port) == Err(Overlap) <==> exists a :: a in t && a <= o < End(t, a)
    ensures Insert(t, o, size, port).Err? ==> Insert(t, o, size, port) == Err(Overlap)
    ensures Insert(t, o, size, port).Ok? ==>
      (Separated(Insert(t, o, size, port).value) <==> forall b :: b in t && b > o ==> o + size <= b)
  {
    if Insert(t, o, size, port).Ok? {
      var u := Insert(t, o, size, port).value;
      forall a | a in t
        ensures !(a <= o < End(t, a))
      {
        assert Floor(t, o).Some? && a <= o ==> a <= Floor(t, o).value;
      }
      if Separated(u) {
        forall b | b in t && b > o
          ensures o + size <= b
        {
          assert o in u && b in u;
          assert End(u, o) == o + size;
        }
      }
    }
  }

  /** The missing check shows on two ranges registered in decreasing order. */
  lemma DecreasingOrderOverlaps()
    ensures exists t: Table :: Separated(t) && Insert(t, 0, 20, 1).Ok? && !Separated(Insert(t, 0, 20, 1).value)
  {
    var t: Table := map[16 := Entry(16, 0)];
    assert Insert(t, 0, 20, 1).Ok?;
    var u := Insert(t, 0, 20, 1).value;
    assert End(u, 0) == 20 && 16 in u;
  }

  /** For a non-empty access the look-up is a scan for the range that contains it: the answer is
      that range and its port, and there is only one. An access with no range below it is unmapped,
      any other crosses the end of a range. */
  lemma FindIsScan(t: Table, addr: nat, len: nat)
    requires Separated(t) && len > 0
    ensures forall o, port :: Find(t, addr, len) == Ok((o, port)) <==> Covers(t, o, addr, len) && t[o].port == port
    ensures forall o, q :: Covers(t, o, addr, len) && Covers(t, q, addr, len) ==> o == q
    ensures Find(t, addr, len) == Err(Unmapped) <==> forall o :: o in t ==> addr < o
    ensures Find(t, addr, len) == Err(CrossRange) <==>
      (exists o :: o in t && o <= addr) && forall o :: o in t ==> !Covers(t, o, addr, len)
  {
    forall o | Covers(t, o, addr, len)
      ensures Floor(t, addr) == Some(o)
    {
      var k := Floor(t, addr).value;
      if o < k {
        assert false;
      }
    }
  }

  /** Some range holds the whole access. */
  ghost predicate Within(t: Table, addr: nat, len: nat) {
    exists o :: o in t && o <= addr && addr + len <= o + t[o].size
  }

  /** The look-up succeeds exactly for the accesses that some range holds, the empty ones included. */
  lemma FindWithin(t: Table, addr: nat, len: nat)
    requires Separated(t)
    ensures Find(t, addr, len).Ok? <==> Within(t, addr, len)
  {
    if Within(t, addr, len) {
      var o :| o in t && o <= addr && addr + len <= o + t[o].size;
      var k := Floor(t, addr).value;
      assert o < k ==> End(t, o) <= k;
    }
  }

  // ------------------------------------------------------------ registration

  datatype Range = Range(offset: nat, size: nat, port: nat)

  /** Register the ranges one after the other; the first error ends it. */
  function Register(t: Table, ranges: seq<Range>): Result<Table> {
    if ranges == [] then Ok(t)
    else
      match Register(t, ranges[..|ranges| - 1])
      case Err(e) => Err(e)
      case Ok(u) => var r := ranges[|ranges| - 1]; Insert(u, r.offset, r.size, r.port)
  }

  /** Each range starts at or after the end of the one before. */
  predicate Increasing(ranges: seq<Range>) {
    forall i :: 0 <= i < |ranges| - 1 ==> ranges[i].offset + ranges[i].size <= ranges[i + 1].offset
  }

  /** The ranges are in the table as announced, and none reaches beyond `limit`. */
  ghost predicate Holds(t: Table, ranges: seq<Range>, limit: nat) {
    && (forall i :: 0 <= i < |ranges| ==> ranges[i].offset in t && t[ranges[i].offset] == Entry(ranges[i].size, ranges[i].port))
    && (forall o :: o in t ==> End(t, o) <= limit)
  }

  function Limit(ranges: seq<Range>): nat {
    if ranges == [] then 0 else ranges[|ranges| - 1].offset + ranges[|ranges| - 1].size
  }

  /** Ranges registered in increasing order are all accepted, and the table is separated and holds
      them as announced. */
  lemma {:induction false} IncreasingRegisters(ranges: seq<Range>)
    requires Increasing(ranges) && forall i :: 0 <= i < |ranges| ==> ranges[i].size > 0
    ensures Register(map[], ranges).Ok?
    ensures var t := Register(map[], ranges).value; Separated(t) && Holds(t, ranges, Limit(ranges))
  {
    if ranges != [] {
      var n := |ranges| - 1;
      IncreasingRegisters(ranges[..n]);
      assert n > 0 ==> ranges[n - 1].offset + ranges[n - 1].size <= ranges[n].offset;
      NextRange(Register(map[], ranges[..n]).value, ranges[..n], ranges[n]);
      assert ranges[..n] + [ranges[n]] == ranges;
    }
  }

  lemma NextRange(u: Table, before: seq<Range>, r: Range)
    requires Separated(u) && Holds(u, before, Limit(before)) && Limit(before) <= r.offset && r.size > 0
    requires forall i :: 0 <= i < |before| ==> before[i].size > 0
    ensures Insert(u, r.offset, r.size, r.port).Ok?
    ensures var t := Insert(u, r.offset, r.size, r.port).value; Separated(t) && Holds(t, before + [r], Limit(before + [r]))
  {
    InsertKeepsSeparated(u, r.offset, r.size, r.port);
    assert forall o :: o in u ==> o <= End(u, o) <= r.offset;
    assert forall i :: 0 <= i < |before| ==> before[i].offset < End(u, before[i].offset);
  }

  /** And it holds nothing else. */
  lemma {:induction false} OnlyAnnounced(ranges: seq<Range>, t: Table, o: nat)
    requires Register(map[], ranges) == Ok(t) && o in t
    ensures exists i :: 0 <= i < |ranges| && ranges[i].offset == o
  {
    var n := |ranges| - 1;
    if ranges[n].offset != o {
      OnlyAnnounced(ranges[..n], Register(map[], ranges[..n]).value, o);
      var i :| 0 <= i < n && ranges[..n][i].offset == o;
      assert ranges[i].offset == o;
    }
  }

  class AddrRangeMap {
    var arMap: Table

    constructor ()
      ensures arMap == map[]
    {
      arMap := map[];
    }

    method InsertRange(addrOffset: nat, size: nat, portId: nat) returns (r: Result<()>)
      modifies this
      ensures match Insert(old(arMap), addrOffset, size, portId)
              case Ok(t) => r == Ok(()) && arMap == t
              case Err(e) => r == Err(e) && arMap == old(arMap)
    {
      var below := Floor(arMap, addrOffset);
      if below.Some? {
        var ofst := below.value;
        if ofst + arMap[ofst].size > addrOffset {
          return Err(Overlap);
        }
      }
      arMap := arMap[addrOffset := Entry(size, portId)];
      r := Ok(());
    }

    /** addr_range_lookup: the ranges announced on each port, in port order. False is its panic. */
    method AddrRangeLookup(announced: seq<seq<(nat, nat)>>) returns (ok: bool)
      requires arMap == map[]
      modifies this
      ensures ok == Register(map[], Announced(announced, |announced|)).Ok?
      ensures ok ==> arMap == Register(map[], Announced(announced, |announced|)).value
    {
      ok := true;
      var i := 0;
      assert Register(map[], Announced(announced, 0)) == Ok(map[]);
      hide Register, Announced, Progress, Insert;
      while i < |announced|
        invariant 0 <= i <= |announced| && Register(map[], Announced(announced, i)) == Ok(arMap)
      {
        var j := 0;
        PortByPort(announced, i);
        while j < |announced[i]|
          invariant 0 <= j <= |announced[i]| && Register(map[], Progress(announced, i, j)) == Ok(arMap)
        {
          var (offset, size) := announced[i][j];
          NextAnnounced(announced, i, j);
          var r := InsertRange(offset, size, i);
          if r.Err? {
            RegisterStops(announced, i, j);
            return false;
          }
          j := j + 1;
        }
        i := i + 1;
      }
    }
  }

  function OnPort(ranges: seq<(nat, nat)>, port: nat): seq<Range> {
    seq(|ranges|, k requires 0 <= k < |ranges| => Range(ranges[k].0, ranges[k].1, port))
  }

  function Announced(announced: seq<seq<(nat, nat)>>, n: nat): seq<Range>
    requires n <= |announced|
  {
    if n == 0 then [] else Announced(announced, n - 1) + OnPort(announced[n - 1], n - 1)
  }

  /** What was registered before range `j` of port `i`. */
  function Progress(announced: seq<seq<(nat, nat)>>, i: nat, j: nat): seq<Range>
    requires i < |announced| && j <= |announced[i]|
  {
    Announced(announced, i) + OnPort(announced[i][..j], i)
  }

  lemma PortByPort(announced: seq<seq<(nat, nat)>>, i: nat)
    requires i < |announced|
    ensures Progress(announced, i, 0) == Announced(announced, i)
    ensures Progress(announced, i, |announced[i]|) == Announced(announced, i + 1)
  {
    assert announced[i][..|announced[i]|] == announced[i];
  }

  lemma NextAnnounced(announced: seq<seq<(nat, nat)>>, i: nat, j: nat)
    requires i < |announced| && j < |announced[i]|
    ensures Progress(announced, i, j + 1) == Progress(announced, i, j) + [Range(announced[i][j].0, announced[i][j].1, i)]
    ensures var before, (o, size) := Register(map[], Progress(announced, i, j)), announced[i][j];
      before.Ok? ==> Register(map[], Progress(announced, i, j + 1)) == Insert(before.value, o, size, i)
  {
    var r := Range(announced[i][j].0, announced[i][j].1, i);
    assert OnPort(announced[i][..j + 1], i) == OnPort(announced[i][..j], i) + [r];
    var now := Progress(announced, i, j + 1);
    assert now == Progress(announced, i, j) + [r];
    assert now[..|now| - 1] == Progress(announced, i, j);
  }

  lemma {:induction false} ErrStays(t: Table, ranges: seq<Range>, more: seq<Range>)
    requires Register(t, ranges).Err?
    ensures Register(t, ranges + more).Err?
  {
    if more == [] {
      assert ranges + more == ranges;
    } else {
      var m := |more| - 1;
      ErrStays(t, ranges, more[..m]);
      assert (ranges + more)[..|ranges + more| - 1] == ranges + more[..m];
    }
  }

  lemma RegisterStops(announced: seq<seq<(nat, nat)>>, i: nat, j: nat)
    requires i < |announced| && j < |announced[i]| && Register(map[], Progress(announced, i, j + 1)).Err?
    ensures Register(map[], Announced(announced, |announced|)).Err?
  {
    hide Register, Announced;
    var now := Progress(announced, i, j + 1);
    var rest := RestOfPort(announced, i, j + 1);
    ErrStays(map[], now, rest);
    var more := AnnouncedGrows(announced, i + 1, |announced|);
    ErrStays(map[], Announced(announced, i + 1), more);
  }

  lemma RestOfPort(announced: seq<seq<(nat, nat)>>, i: nat, j: nat) returns (rest: seq<Range>)
    requires i < |announced| && j <= |announced[i]|
    ensures Announced(announced, i + 1) == Progress(announced, i, j) + rest
  {
    rest := OnPort(announced[i][j..], i);
    assert OnPort(announced[i], i) == OnPort(announced[i][..j], i) + rest;
    assert Announced(announced, i + 1) == Announced(announced, i) + (OnPort(announced[i][..j], i) + rest);
  }

  lemma {:induction false} AnnouncedGrows(announced: seq<seq<(nat, nat)>>, m: nat, n: nat) returns (more: seq<Range>)
    requires m <= n <= |announced|
    ensures Announced(announced, n) == Announced(announced, m) + more
    decreases n - m
  {
    if m == n {
      more := [];
    } else {
      var less := AnnouncedGrows(announced, m, n - 1);
      more := less + OnPort(announced[n - 1], n - 1);
    }
  }
}
