/** Clock cycles to simulation ticks and back: when is a cycle recovered from its own tick? */
module Clock {
  import opened Arithmetic

  /** A period of `p` and a timescale of `ts` femtoseconds, both positive (a zero period or
      timescale divides by zero). */
  predicate Positive(p: nat, ts: nat) { p > 0 && ts > 0 }

  /** round(p / 4): a cycle is sampled a quarter of a period after its edge. */
  function Quarter(p: nat): nat { (p + 2) / 4 }

  function IntoTick(p: nat, ts: nat, c: nat): nat
    requires Positive(p, ts)
  {
    (p * c + Quarter(p)) / ts
  }

  function FromTick(p: nat, ts: nat, t: nat): nat
    requires Positive(p, ts)
  {
    (ts * t) / p
  }

  /** A quarter of a period, rounded to the nearest and halves up. */
  lemma QuarterIs(p: nat)
    ensures 4 * Quarter(p) - 2 <= p < 4 * Quarter(p) + 2
  {
  }

  /** The tick of a cycle is the last one that starts at or before its sampling point, and the cycle of a tick
      the last one whose edge is at or before its start. */
  lemma TicksAndCycles(p: nat, ts: nat, c: nat, t: nat)
    requires Positive(p, ts)
    ensures var r := IntoTick(p, ts, c); ts * r <= p * c + Quarter(p) < ts * (r + 1)
    ensures var r := FromTick(p, ts, t); p * r <= ts * t < p * (r + 1)
  {
    ModRange(p * c + Quarter(p), ts);
    ModRange(ts * t, p);
    Distr(ts, IntoTick(p, ts, c), 1);
    Distr(p, FromTick(p, ts, t), 1);
  }

  /** One cycle comes back exactly when the part of a tick that is cut off is within the quarter. */
  lemma CycleComesBackIff(p: nat, ts: nat, c: nat)
    requires Positive(p, ts)
    ensures FromTick(p, ts, IntoTick(p, ts, c)) == c <==> (p * c + Quarter(p)) % ts <= Quarter(p)
  {
    var x := p * c + Quarter(p);
    ModRange(x, ts);
    MulNat(ts, x / ts);
    DivIs(ts * (x / ts), p, c);
  }

  // ------------------------------------------------------------ all cycles

  function Gcd(a: nat, b: nat): (g: nat)
    requires a > 0
    ensures g > 0 && a % g == 0 && b % g == 0
    decreases b
  {
    if b == 0 then a
    else
      var g := Gcd(b, a % b);
      DividesSum(a, b, g);
      g
  }

  lemma DividesSum(a: nat, b: nat, g: nat)
    requires b > 0 && g > 0 && b % g == 0 && (a % b) % g == 0
    ensures a % g == 0
  {
    ModRange(a, b);
    ModRange(b, g);
    ModRange(a % b, g);
    MultipleSum(a, b, a % b, g, b / g, a % b / g, a / b);
  }

  lemma MultipleSum(a: nat, b: nat, r: nat, g: nat, i: nat, j: nat, k: nat)
    requires g > 0 && a == b * k + r && b == g * i && r == g * j
    ensures a % g == 0
  {
    Assoc(g, i, k);
    Distr(g, i * k, j);
    MulNat(i, k);
    ModIs(a, g, i * k + j, 0);
  }

  lemma BezoutStep(a: nat, b: nat, k: nat, r: nat, u: int, v: int)
    requires a == b * k + r
    ensures a * v + b * (u - k * v) == b * u + r * v
  {
    Distr(v, b * k, r);
    Assoc(b, k, v);
    Distr(b, u, k * v);
  }

  lemma {:induction false} Bezout(a: nat, b: nat) returns (x: int, y: int)
    requires a > 0
    ensures a * x + b * y == Gcd(a, b)
    decreases b
  {
    if b == 0 {
      x, y := 1, 0;
    } else {
      var u, v := Bezout(b, a % b);
      x, y := v, u - (a / b) * v;
      BezoutStep(a, b, a / b, a % b, u, v);
    }
  }

  /** The greatest remainder that `p * c + q` leaves for any `c`. */
  function WorstCut(p: nat, ts: nat): int
    requires Positive(p, ts)
  {
    var g := Gcd(p, ts);
    ts - g + Quarter(p) % g
  }

  /** The condition: it names no cycle, only period and timescale. */
  predicate RoundTrips(p: nat, ts: nat)
    requires Positive(p, ts)
  {
    WorstCut(p, ts) <= Quarter(p)
  }

  /** Numbers below `g * m` that leave the remainder `w` modulo `g` are at most `g * m - g + w`. */
  lemma CongruentBelow(g: nat, m: nat, n: int, w: nat)
    requires g > 0 && g * n + w < g * m
    ensures g * n + w <= g * m - g + w
  {
    if n >= m {
      Distr(g, n, m);
      MulNat(g, n - m);
      assert false;
    }
    MulLess(g, n, m);
  }

  /** No remainder is greater: they are all congruent modulo the common divisor. */
  lemma CutAtMost(p: nat, ts: nat, c: nat)
    requires Positive(p, ts)
    ensures (p * c + Quarter(p)) % ts <= WorstCut(p, ts)
  {
    var g, q := Gcd(p, ts), Quarter(p);
    hide Gcd, Quarter;
    var x := p * c + q;
    var a, m, k := p / g, ts / g, x / ts;
    ModRange(p, g);
    ModRange(ts, g);
    ModRange(x, ts);
    var n := CutIs(p, ts, c, q, g, a, m, k, x % ts);
    CongruentBelow(g, m, n, q % g);
  }

  lemma CutIs(p: nat, ts: nat, c: nat, q: nat, g: nat, a: nat, m: nat, k: nat, r: nat) returns (n: int)
    requires g > 0 && p == g * a && ts == g * m && p * c + q == ts * k + r
    ensures r == g * n + q % g
  {
    n := a * c - m * k + q / g;
    ModRange(q, g);
    Assoc(g, a, c);
    Assoc(g, m, k);
    Distr(g, a * c, m * k);
    Distr(g, a * c - m * k, q / g);
  }

  /** The cycle that the next lemma chooses, times the period. */
  lemma CutEquation(p: int, ts: int, u: int, v: int, k: int, c: int, j: int, g: int)
    requires p * u + ts * v == g && u * k == ts * j + c
    ensures p * c == g * k - ts * (v * k + p * j)
  {
    Distr(p, u * k, ts * j);
    Assoc(p, u, k);
    Distr(k, g, ts * v);
    Assoc(ts, v, k);
    Swap(p, ts * j);
    Assoc(ts, j, p);
    Swap(j, p);
    Distr(ts, v * k, p * j);
  }

  lemma CutSum(p: int, ts: int, u: int, v: int, h: int, c: int, j: int, g: int, q: int, w: int) returns (z: int)
    requires p * u + ts * v == g && u * (-1 - h) == ts * j + c && q == g * h + w
    ensures p * c + q == ts * z + (ts - g + w)
  {
    CutEquation(p, ts, u, v, -1 - h, c, j, g);
    Distr(g, -1, h);
    var y := v * (-1 - h) + p * j;
    Negated(ts, y);
    z := -y - 1;
  }

  lemma CutChoice(p: nat, ts: nat, u: int, v: int, g: nat, q: nat) returns (c: nat, z: int)
    requires ts > 0 && g > 0 && p * u + ts * v == g
    ensures p * c + q == ts * z + (ts - g + q % g)
  {
    ModRange(q, g);
    var x: int := u * (-1 - (q / g) as int);
    ModRange(x, ts);
    c := x % ts;
    z := CutSum(p, ts, u, v, q / g, c, x / ts, g, q, q % g);
  }

  /** And this one is reached. */
  lemma CutReached(p: nat, ts: nat) returns (c: nat)
    requires Positive(p, ts)
    ensures (p * c + Quarter(p)) % ts == WorstCut(p, ts)
  {
    var g, q := Gcd(p, ts), Quarter(p);
    hide Gcd, Quarter;
    var z;
    c, z := CutFrom(p, ts, g, q);
    DivisorBelow(g, ts);
    ModRange(q, g);
    ModIs(p * c + q, ts, z, ts - g + q % g);
  }

  lemma CutFrom(p: nat, ts: nat, g: nat, q: nat) returns (c: nat, z: int)
    requires Positive(p, ts) && g == Gcd(p, ts)
    ensures p * c + q == ts * z + (ts - g + q % g)
  {
    var u: int, v: int := Bezout(p, ts);
    hide Gcd;
    c, z := CutChoice(p, ts, u, v, g, q);
  }

  lemma Negated(a: int, b: int)
    ensures a * (-b - 1) == -(a * b) - a
  {
  }

  lemma DivisorBelow(g: nat, n: nat)
    requires g > 0 && n > 0 && n % g == 0
    ensures g <= n
  {
    assert n == g * (n / g);
    if n < g {
      DivIs(n, g, 0);
      assert false;
    }
  }

  /** Every cycle comes back from its own tick exactly when the worst cut is within the quarter. */
  lemma AllCyclesComeBackIff(p: nat, ts: nat)
    requires Positive(p, ts)
    ensures RoundTrips(p, ts) <==> forall c: nat :: FromTick(p, ts, IntoTick(p, ts, c)) == c
  {
    if RoundTrips(p, ts) {
      forall c: nat
        ensures FromTick(p, ts, IntoTick(p, ts, c)) == c
      {
        CutAtMost(p, ts, c);
        CycleComesBackIff(p, ts, c);
      }
    } else {
      var c := CutReached(p, ts);
      CycleComesBackIff(p, ts, c);
      assert FromTick(p, ts, IntoTick(p, ts, c)) != c;
    }
  }

  /** In particular a timescale no coarser than the quarter, or one that divides the period. */
  lemma FineOrDividingTimescale(p: nat, ts: nat)
    requires Positive(p, ts) && (Quarter(p) >= ts - 1 || p % ts == 0)
    ensures RoundTrips(p, ts)
  {
    var g, q := Gcd(p, ts), Quarter(p);
    if p % ts == 0 {
      assert g == ts by { GcdOfMultiple(p, ts); }
      assert q % g <= q by { assert q == g * (q / g) + q % g; }
    } else {
      assert q % g < g;
    }
  }

  lemma GcdOfMultiple(p: nat, ts: nat)
    requires p > 0 && ts > 0 && p % ts == 0
    ensures Gcd(p, ts) == ts
  {
    assert Gcd(ts, 0) == ts;
  }

  // ------------------------------------------------------------ order

  lemma {:induction false} StrictlyIncreasingReaches(p: nat, ts: nat, c: nat)
    requires Positive(p, ts) && forall d: nat :: IntoTick(p, ts, d) < IntoTick(p, ts, d + 1)
    ensures IntoTick(p, ts, c) >= c
  {
    hide IntoTick;
    if c > 0 {
      StrictlyIncreasingReaches(p, ts, c - 1);
      assert IntoTick(p, ts, c - 1) < IntoTick(p, ts, c - 1 + 1);
    }
  }

  lemma NextTickLater(p: nat, ts: nat, c: nat)
    requires Positive(p, ts) && p >= ts
    ensures IntoTick(p, ts, c) < IntoTick(p, ts, c + 1)
  {
    Distr(p, c, 1);
    QuotientLater(ts, p * c + Quarter(p), p);
  }

  lemma QuotientLater(ts: nat, x: nat, p: nat)
    requires 0 < ts <= p
    ensures x / ts < (x + p) / ts
  {
    ModRange(x, ts);
    ModRange(x + p, ts);
    Later(ts, x / ts, x % ts, (x + p) / ts, (x + p) % ts, p);
  }

  lemma Later(ts: nat, i: nat, r: nat, j: nat, s: nat, p: nat)
    requires ts * j + s == ts * i + r + p && s < ts <= p
    ensures i < j
  {
    if j <= i {
      MulMono(j, i, ts);
      assert false;
    }
  }

  /** A tick longer than a period: the cycle numbered `ts` is at tick `p`, which is too early. */
  lemma TooEarly(p: nat, ts: nat)
    requires Positive(p, ts) && p < ts
    ensures IntoTick(p, ts, ts) == p
  {
    Swap(p, ts);
    DivIs(ts * p + Quarter(p), ts, p);
  }

  /** Different cycles get different ticks, in order, exactly when a tick is no longer than a period. */
  lemma StrictlyIncreasingIff(p: nat, ts: nat)
    requires Positive(p, ts)
    ensures p >= ts <==> forall c: nat :: IntoTick(p, ts, c) < IntoTick(p, ts, c + 1)
  {
    hide IntoTick;
    if p >= ts {
      forall c: nat
        ensures IntoTick(p, ts, c) < IntoTick(p, ts, c + 1)
      {
        NextTickLater(p, ts, c);
      }
    } else if forall c: nat :: IntoTick(p, ts, c) < IntoTick(p, ts, c + 1) {
      StrictlyIncreasingReaches(p, ts, ts);
      TooEarly(p, ts);
      assert false;
    }
  }
}
