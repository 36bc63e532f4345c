/** Unsigned integers of any width as vectors of 64-bit words, least significant word first. */
module WideInt {
  import opened Arithmetic

  const W: nat := 0x1_0000_0000_0000_0000
  type Word = w: nat | w < W

  function Pow2(k: nat): (r: nat)
    ensures r > 0
  {
    if k == 0 then 1 else 2 * Pow2(k - 1)
  }

  /** W to the power of `n`: one more than the greatest value of `n` words. */
  function Base(n: nat): (r: nat)
    ensures r > 0
  {
    if n == 0 then 1 else W * Base(n - 1)
  }

  function Value(s: seq<Word>): nat {
    if s == [] then 0 else s[0] + W * Value(s[1..])
  }

  lemma {:induction false} Pow2Add(a: nat, b: nat)
    ensures Pow2(a + b) == Pow2(a) * Pow2(b)
  {
    if a > 0 {
      Pow2Add(a - 1, b);
      Assoc(2, Pow2(a - 1), Pow2(b));
    }
  }

  lemma WordIs64Bits()
    ensures Pow2(64) == W
  {
    assert Pow2(4) == 16;
    hide Pow2;
    Pow2Add(4, 4);
    Pow2Add(8, 8);
    Pow2Add(16, 16);
    Pow2Add(32, 32);
  }

  lemma {:induction false} BaseAdd(a: nat, b: nat)
    ensures Base(a + b) == Base(a) * Base(b)
  {
    if a > 0 {
      BaseAdd(a - 1, b);
      Assoc(W, Base(a - 1), Base(b));
    }
  }

  lemma {:induction false} BaseIsPow2(n: nat)
    ensures Base(n) == Pow2(64 * n)
  {
    if n > 0 {
      BaseIsPow2(n - 1);
      WordIs64Bits();
      Pow2Add(64, 64 * (n - 1));
    }
  }

  lemma {:induction false} ValueConcat(a: seq<Word>, b: seq<Word>)
    ensures Value(a + b) == Value(a) + Base(|a|) * Value(b)
  {
    if a == [] {
      assert a + b == b;
    } else {
      ValueConcat(a[1..], b);
      assert (a + b)[1..] == a[1..] + b;
      Assoc(W, Base(|a| - 1), Value(b));
      Distr(W, Value(a[1..]), Base(|a| - 1) * Value(b));
    }
  }

  lemma ValueSnoc(s: seq<Word>, i: nat)
    requires i < |s|
    ensures Value(s[..i + 1]) == Value(s[..i]) + Base(i) * s[i]
  {
    assert s[..i + 1] == s[..i] + [s[i]];
    ValueConcat(s[..i], [s[i]]);
    assert Value([s[i]]) == s[i];
  }

  lemma {:induction false} ValueBound(s: seq<Word>)
    ensures Value(s) < Base(|s|)
  {
    if s != [] {
      ValueBound(s[1..]);
      MulLess(W, Value(s[1..]), Base(|s| - 1));
    }
  }

  lemma {:induction false} ValueZeros(s: seq<Word>)
    requires forall i :: 0 <= i < |s| ==> s[i] == 0
    ensures Value(s) == 0
  {
    if s != [] {
      ValueZeros(s[1..]);
    }
  }

  // ------------------------------------------------------------ addition

  /** Carry into the next word and the word itself. */
  function Split(x: nat): (r: (nat, Word))
    ensures x == r.1 + W * r.0
  {
    (x / W, x % W)
  }

  lemma AddWord(i: nat, done: nat, carry: nat, x: nat, y: nat, sx: nat, sy: nat)
    requires done + Base(i) * carry == sx + sy
    ensures var (c, w) := Split(carry + x + y);
      (done + Base(i) * w) + Base(i + 1) * c == (sx + Base(i) * x) + (sy + Base(i) * y)
  {
    var (c, w) := Split(carry + x + y);
    Swap(W, Base(i));
    Assoc(Base(i), W, c);
    Distr(Base(i), w, W * c);
    Distr(Base(i), carry + x, y);
    Distr(Base(i), carry, x);
  }

  function Front(s: seq<Word>, i: nat): seq<Word> { if i < |s| then s[..i] else s }

  function At(s: seq<Word>, i: nat): Word { if i < |s| then s[i] else 0 }

  /** The first `i` words and the carry are the sum of the first `i` words of both operands. */
  predicate Added(a: seq<Word>, b: seq<Word>, i: nat, done: seq<Word>, carry: nat) {
    |done| == i && carry <= 1 && Value(done) + Base(i) * carry == Value(Front(a, i)) + Value(Front(b, i))
  }

  lemma FrontSnoc(s: seq<Word>, i: nat)
    ensures Value(Front(s, i + 1)) == Value(Front(s, i)) + Base(i) * At(s, i)
  {
    if i < |s| {
      ValueSnoc(s, i);
      assert s[..|s|] == s;
    }
  }

  lemma AddStep(a: seq<Word>, b: seq<Word>, i: nat, done: seq<Word>, carry: nat)
    requires Added(a, b, i, done, carry)
    ensures var (c, w) := Split(carry + At(a, i) + At(b, i)); Added(a, b, i + 1, done + [w], c)
  {
    hide Value, Base;
    var (c, w) := Split(carry + At(a, i) + At(b, i));
    AddWord(i, Value(done), carry, At(a, i), At(b, i), Value(Front(a, i)), Value(Front(b, i)));
    FrontSnoc(a, i);
    FrontSnoc(b, i);
    ValueSnoc(done + [w], i);
    assert (done + [w])[..i] == done && (done + [w])[..i + 1] == done + [w];
    if c > 1 {
      MulLess(W, 1, c);
      assert false;
    }
  }

  lemma AddBoth(long: seq<Word>, short: seq<Word>, i: nat, done: seq<Word>, carry: nat)
    requires i < |short| <= |long| && Added(long, short, i, done, carry)
    ensures var (c, w) := Split(carry + short[i] + long[i]); Added(long, short, i + 1, done + [w], c)
  {
    hide Added, Split;
    AddStep(long, short, i, done, carry);
  }

  lemma AddLong(long: seq<Word>, short: seq<Word>, i: nat, done: seq<Word>, carry: nat)
    requires |short| <= i < |long| && Added(long, short, i, done, carry)
    ensures var (c, w) := Split(carry + long[i]); Added(long, short, i + 1, done + [w], c)
  {
    hide Added, Split;
    AddStep(long, short, i, done, carry);
  }

  function NatZeros(n: nat): (z: seq<nat>)
    ensures |z| == n && forall i :: 0 <= i < n ==> z[i] == 0
  {
    seq(n, _ => 0)
  }

  /** res[i], res[i + 1] := word, carry */
  function SetTwo(res: seq<nat>, i: nat, word: nat, carry: nat): (r: seq<nat>)
    requires i + 1 < |res|
    ensures |r| == |res| && r[i + 1] == carry && r[..i + 1] == res[..i] + [word]
  {
    res[i := word][i + 1 := carry]
  }

  /** The words of the sum, and the carry that falls out of the top word; in a debug build a carry
      panics, in a release build it is dropped. */
  method SlicedAdd(a: seq<Word>, b: seq<Word>) returns (sum: seq<Word>, ovflw: nat)
    ensures |sum| == (if |a| >= |b| then |a| else |b|) && ovflw <= 1
    ensures Value(sum) + Base(|sum|) * ovflw == Value(a) + Value(b)
  {
    var long, short := a, b;
    if |a| < |b| {
      long, short := b, a;
    }
    var res: seq<nat> := NatZeros(|long| + 1);
    ghost var done: seq<Word> := [];
    var i := 0;
    assert Added(long, short, 0, [], 0);
    hide Added, Split;
    while i < |short|
      invariant 0 <= i <= |short| && |done| == i && |res| == |long| + 1 && res[..i] == done && Added(long, short, i, done, res[i])
    {
      var next := Split(res[i] + short[i] + long[i]);
      AddBoth(long, short, i, done, res[i]);
      res := SetTwo(res, i, next.1, next.0);
      done := done + [next.1];
      i := i + 1;
    }
    while i < |long|
      invariant |short| <= i <= |long| && |done| == i && |res| == |long| + 1 && res[..i] == done && Added(long, short, i, done, res[i])
    {
      var next := Split(res[i] + long[i]);
      AddLong(long, short, i, done, res[i]);
      res := SetTwo(res, i, next.1, next.0);
      done := done + [next.1];
      i := i + 1;
    }
    ovflw := res[|long|];
    sum := res[..|long|];
    AllAdded(long, short, done, ovflw);
  }

  lemma AllAdded(long: seq<Word>, short: seq<Word>, done: seq<Word>, carry: nat)
    requires |short| <= |long| && Added(long, short, |long|, done, carry)
    ensures carry <= 1 && |done| == |long| && Value(done) + Base(|done|) * carry == Value(long) + Value(short)
  {
  }

  /** The carry is dropped exactly when the sum needs more words; else the words are the sum. */
  lemma SumExactIff(a: nat, b: nat, sum: seq<Word>, ovflw: nat)
    requires Value(sum) + Base(|sum|) * ovflw == a + b && ovflw <= 1
    ensures Value(sum) == (a + b) % Base(|sum|) && (ovflw == 0 <==> a + b < Base(|sum|))
  {
    ValueBound(sum);
    hide Base, Value;
    DivIs(a + b, Base(|sum|), ovflw);
    ModIs(a + b, Base(|sum|), ovflw, Value(sum));
  }

  // ------------------------------------------------------------ words

  /** `v << rem` in 64 bits, P == 2^rem. */
  function WordShl(v: nat, P: nat): Word { (v * P) % W }

  /** `v >> rem`, P == 2^rem. */
  function WordShr(v: Word, P: nat): Word
    requires P > 0
  {
    ModRange(v, P);
    MulMono(1, P, v / P);
    v / P
  }

  /** `v & !(!1 << rem)`: the lowest rem + 1 bits. */
  function Masked(v: Word, P: nat): nat
    requires P > 0
  {
    v % (2 * P)
  }

  // ------------------------------------------------------------ left shift

  /** One word shifted left by a part of a word, P == 2^rem and D == 2^(64 - rem): what stays in the
      word never overflows when the bits shifted in are added, and nothing is lost. */
  lemma ShlWord(v: nat, s: nat, P: nat, D: nat)
    requires P > 0 && D > 0 && D * P == W && v < W && s < P
    ensures WordShl(v, P) + s < W && WordShr(v, D) < P
    ensures WordShl(v, P) + s + W * WordShr(v, D) == v * P + s
  {
    var c, r := v / D, v % D;
    ModRange(v, D);
    Distr(P, D * c, r);
    Assoc(D, c, P);
    Swap(c, P);
    Assoc(D, P, c);
    MulLess(P, r, D);
    Swap(P, D);
    DivIs(v * P, W, c);
    ModRange(v * P, W);
    if c >= P {
      Distr(D, P, c - P);
      MulNat(D, c - P);
      assert false;
    }
  }

  predicate ShiftedLeft(val: seq<Word>, i: nat, done: seq<Word>, carry: nat, P: nat)
    requires i <= |val|
  {
    |done| == i && carry < P && Value(done) + Base(i) * carry == Value(val[..i]) * P
  }

  lemma ShlStep(val: seq<Word>, i: nat, done: seq<Word>, carry: nat, P: nat, D: nat)
    requires i < |val| && ShiftedLeft(val, i, done, carry, P) && D > 0 && D * P == W
    ensures WordShl(val[i], P) + carry < W
    ensures ShiftedLeft(val, i + 1, done + [WordShl(val[i], P) + carry], WordShr(val[i], D), P)
  {
    var v := val[i];
    ShlWord(v, carry, P, D);
    hide WordShl, WordShr;
    var w, c := WordShl(v, P) + carry, WordShr(v, D);
    ValueSnoc(val, i);
    ValueSnoc(done + [w], i);
    assert (done + [w])[..i] == done && (done + [w])[..i + 1] == done + [w];
    ShlSum(Value(done), Base(i), carry, Value(val[..i]), P, v, w, c);
  }

  lemma ShlSum(done: nat, B: nat, carry: nat, front: nat, P: nat, v: nat, w: nat, c: nat)
    requires done + B * carry == front * P && w + W * c == v * P + carry
    ensures done + B * w + (W * B) * c == (front + B * v) * P
  {
    Swap(W, B);
    Assoc(B, W, c);
    Distr(B, w, W * c);
    Distr(B, v * P, carry);
    Assoc(B, v, P);
    Distr(P, front, B * v);
  }

  method SlicedShl(val: seq<Word>, lshift: nat) returns (r: seq<Word>)
    ensures |r| == |val| && Value(r) == (Value(val) * Pow2(lshift)) % Base(|val|)
  {
    var shiftWord, shiftRem := lshift / 64, lshift % 64;
    var P, D := Pow2(shiftRem), Pow2(64 - shiftRem);
    RestOfWord(shiftRem);
    var res: seq<Word> := seq(|val| + shiftWord, _ => 0);
    var shiftIn: nat := 0;
    ghost var done: seq<Word> := [];
    var i := 0;
    assert ShiftedLeft(val, 0, [], 0, P);
    hide ShiftedLeft, Pow2, Base, Value, WordShl, WordShr;
    while i < |val|
      invariant 0 <= i <= |val| && ShiftedLeft(val, i, done, shiftIn, P) && |done| == i
      invariant |res| == |val| + shiftWord && res[shiftWord..shiftWord + i] == done
      invariant forall k :: 0 <= k < shiftWord ==> res[k] == 0
    {
      ShlStep(val, i, done, shiftIn, P, D);
      ghost var w: Word := WordShl(val[i], P) + shiftIn;
      res := res[i + shiftWord := WordShl(val[i], P)];
      res := res[i + shiftWord := res[i + shiftWord] + shiftIn];
      shiftIn := WordShr(val[i], D);
      done := done + [w];
      i := i + 1;
    }
    assert res[shiftWord..] == done;
    r := res[..|val|];
    ShlAll(val, lshift, shiftWord, P, res, done, shiftIn);
  }

  lemma RestOfWord(rem: nat)
    requires rem < 64
    ensures Pow2(64 - rem) * Pow2(rem) == W
  {
    WordIs64Bits();
    Pow2Add(64 - rem, rem);
  }

  lemma ShlEnd(val: seq<Word>, done: seq<Word>, carry: nat, P: nat)
    requires ShiftedLeft(val, |val|, done, carry, P)
    ensures |done| == |val| && Value(done) + Base(|val|) * carry == Value(val) * P
  {
    assert val[..|val|] == val;
  }

  lemma LowZeros(res: seq<Word>, sw: nat)
    requires sw <= |res| && forall k :: 0 <= k < sw ==> res[k] == 0
    ensures Value(res) == Base(sw) * Value(res[sw..])
  {
    assert res == res[..sw] + res[sw..];
    ValueConcat(res[..sw], res[sw..]);
    ValueZeros(res[..sw]);
  }

  lemma LowWords(res: seq<Word>, n: nat)
    requires n <= |res|
    ensures Value(res) == Value(res[..n]) + Base(n) * Value(res[n..]) && Value(res[..n]) < Base(n)
  {
    assert res == res[..n] + res[n..];
    ValueConcat(res[..n], res[n..]);
    ValueBound(res[..n]);
  }

  lemma WholeShift(shift: nat)
    ensures Pow2(shift) == Base(shift / 64) * Pow2(shift % 64)
  {
    Pow2Add(64 * (shift / 64), shift % 64);
    BaseIsPow2(shift / 64);
  }

  /** The words above the width are cut off: the result is the product modulo the width. */
  lemma ShlAll(val: seq<Word>, lshift: nat, sw: nat, P: nat, res: seq<Word>, done: seq<Word>, carry: nat)
    requires sw == lshift / 64 && P == Pow2(lshift % 64) && ShiftedLeft(val, |val|, done, carry, P)
    requires |res| == |val| + sw && res[sw..] == done && forall k :: 0 <= k < sw ==> res[k] == 0
    ensures Value(res[..|val|]) == (Value(val) * Pow2(lshift)) % Base(|val|)
  {
    hide Value, Base, Pow2, ShiftedLeft;
    ShlEnd(val, done, carry, P);
    LowZeros(res, sw);
    LowWords(res, |val|);
    WholeShift(lshift);
    ShlMod(Value(val), P, Base(sw), Base(|val|), carry, Value(done), Value(res[..|val|]), Value(res[|val|..]));
  }

  lemma ShlMod(v: nat, P: nat, B: nat, N: nat, carry: nat, done: nat, r: nat, high: nat)
    requires done + N * carry == v * P && B * done == r + N * high && r < N
    ensures r == (v * (B * P)) % N
  {
    var x := v * (B * P);
    assert x == B * (v * P) by {
      Assoc(v, B, P);
      Swap(v, B);
      Assoc(B, v, P);
    }
    Distr(B, done, N * carry);
    Swap(N, carry);
    Assoc(B, carry, N);
    Swap(B * carry, N);
    Distr(N, high, B * carry);
    assert x == r + N * (high + B * carry);
    DivIs(x, N, high + B * carry);
    ModRange(x, N);
  }

  // ------------------------------------------------------------ right shift

  function Zeros(n: nat): (z: seq<Word>)
    ensures |z| == n && forall i :: 0 <= i < n ==> z[i] == 0
  {
    if n == 0 then [] else [0] + Zeros(n - 1)
  }

  /** The number without its lowest `sw` words, zeros coming in from above. */
  function Dropped(val: seq<Word>, sw: nat): (s: seq<Word>)
    ensures |s| == |val| && forall i :: 0 <= i < |s| ==> s[i] == At(val, i + sw)
  {
    if sw <= |val| then val[sw..] + Zeros(sw) else Zeros(|val|)
  }

  /** The mask keeps one bit too many of the word above, `Masked`; shifted to the top of the
      word and cut to 64 bits, only its low bits, `x % P`, remain. */
  lemma ExtraBitIsCut(x: Word, P: nat, D: nat)
    requires P > 0 && D > 0 && D * P == W
    ensures WordShl(Masked(x, P), D) == D * (x % P)
  {
    ModTwice(x, P);
    CutHigh(x % (2 * P), P, D);
  }

  lemma ModTwice(x: nat, P: nat)
    requires P > 0
    ensures (x % (2 * P)) % P == x % P
  {
    var k, y := x / (2 * P), x % (2 * P);
    var h := y / P;
    ModRange(x, 2 * P);
    ModRange(y, P);
    Swap(2, P);
    Assoc(P, 2, k);
    Distr(P, 2 * k, h);
    ModIs(x, P, 2 * k + h, y % P);
  }

  lemma CutHigh(y: nat, P: nat, D: nat)
    requires P > 0 && D > 0 && D * P == W
    ensures (y * D) % W == D * (y % P)
  {
    var h, r := y / P, y % P;
    ModRange(y, P);
    Distr(D, P * h, r);
    Assoc(D, P, h);
    MulLess(D, r, P);
    Swap(y, D);
    MulNat(D, r);
    ModIs(y * D, W, h, D * r);
  }

  /** `rest` is the number above the word `v`: its low bits come into the word, the others stay above. */
  lemma ShrWord(v: nat, rest: nat, P: nat, D: nat)
    requires P > 0 && D > 0 && D * P == W && v < W
    ensures WordShr(v, P) + D * (rest % P) < W
    ensures (v + W * rest) / P == WordShr(v, P) + D * (rest % P) + W * (rest / P)
    ensures (v + W * rest) % P == v % P
  {
    var a, b, Q, R := v / P, v % P, rest / P, rest % P;
    ModRange(v, P);
    ModRange(rest, P);
    Distr(W, P * Q, R);
    Assoc(W, P, Q);
    Swap(W, P);
    Assoc(P, W, Q);
    Swap(D, P);
    Assoc(P, D, R);
    Distr(P, D * R, W * Q);
    Distr(P, a, D * R + W * Q);
    assert v + W * rest == P * (a + (D * R + W * Q)) + b;
    DivIs(v + W * rest, P, a + (D * R + W * Q));
    ModRange(v + W * rest, P);
    MulLess(D, R, P);
    if a >= D {
      Distr(P, D, a - D);
      MulNat(P, a - D);
      assert false;
    }
  }

  /** The words from `i` up are those of the shifted number, and `shiftIn` knows the bits below them. */
  predicate ShiftedRight(s: seq<Word>, i: nat, done: seq<Word>, shiftIn: nat, P: nat)
    requires i <= |s| && P > 0
  {
    && |done| == |s| - i && Value(done) == Value(s[i..]) / P
    && shiftIn == Masked(At(s, i), P) && Value(s[i..]) % P == At(s, i) % P
  }

  lemma ShrStep(s: seq<Word>, i: nat, done: seq<Word>, shiftIn: nat, P: nat, D: nat)
    requires 0 < i <= |s| && P > 0 && ShiftedRight(s, i, done, shiftIn, P) && D > 0 && D * P == W
    ensures WordShr(s[i - 1], P) + WordShl(shiftIn, D) < W
    ensures ShiftedRight(s, i - 1, [WordShr(s[i - 1], P) + WordShl(shiftIn, D)] + done, Masked(s[i - 1], P), P)
  {
    hide Value;
    var v, rest, next := s[i - 1], Value(s[i..]), At(s, i);
    ExtraBitIsCut(next, P, D);
    ShrWord(v, rest, P, D);
    hide WordShl, WordShr, Masked;
    var w: Word := WordShr(v, P) + WordShl(shiftIn, D);
    ValueCons(v, s[i..]);
    ValueCons(w, done);
    assert s[i - 1..] == [v] + s[i..];
  }

  lemma ValueCons(w: Word, s: seq<Word>)
    ensures Value([w] + s) == w + W * Value(s)
  {
    assert ([w] + s)[1..] == s;
  }

  lemma ShrStart(s: seq<Word>, done: seq<Word>, P: nat)
    requires P > 0 && done == []
    ensures ShiftedRight(s, |s|, done, 0, P)
  {
    assert s[|s|..] == [];
    ModIs(0, P, 0, 0);
    ModIs(0, 2 * P, 0, 0);
    DivIs(0, P, 0);
  }

  method SlicedShr(val: seq<Word>, rshift: nat) returns (r: seq<Word>)
    ensures |r| == |val| && Value(r) == Value(val) / Pow2(rshift)
  {
    var shiftWord, shiftRem := rshift / 64, rshift % 64;
    var P, D := Pow2(shiftRem), Pow2(64 - shiftRem);
    RestOfWord(shiftRem);
    var res: seq<Word> := seq(|val|, _ => 0);
    var shiftIn: nat := 0;
    ghost var s := Dropped(val, shiftWord);
    var i := |val|;
    hide ShiftedRight, Pow2, Value, Dropped, WordShl, WordShr, Masked;
    ShrStart(s, res[i..], P);
    while i > 0
      invariant 0 <= i <= |val| == |res| && ShiftedRight(s, i, res[i..], shiftIn, P)
    {
      var valIsw: Word := if i - 1 + shiftWord < |val| then val[i - 1 + shiftWord] else 0;
      assert valIsw == s[i - 1];
      ShrStep(s, i, res[i..], shiftIn, P, D);
      ghost var above := res[i..];
      i := i - 1;
      res := res[i := WordShr(valIsw, P)];
      res := res[i := res[i] + WordShl(shiftIn, D)];
      shiftIn := Masked(valIsw, P);
      assert res[i..] == [res[i]] + above;
    }
    r := res;
    assert res[0..] == res;
    ShrAll(val, rshift, shiftWord, P, r, shiftIn);
  }

  lemma ShrAll(val: seq<Word>, rshift: nat, sw: nat, P: nat, r: seq<Word>, shiftIn: nat)
    requires sw == rshift / 64 && P == Pow2(rshift % 64) && ShiftedRight(Dropped(val, sw), 0, r, shiftIn, P)
    ensures |r| == |val| && Value(r) == Value(val) / Pow2(rshift)
  {
    hide Value, Base, Pow2;
    var s := Dropped(val, sw);
    assert s[0..] == s;
    DroppedDivides(val, sw);
    WholeShift(rshift);
    DivDiv(Value(val), Base(sw), P);
  }

  lemma DivDiv(x: nat, a: nat, b: nat)
    requires a > 0 && b > 0
    ensures a * b > 0 && (x / a) / b == x / (a * b)
  {
    var y := x / a;
    ModRange(x, a);
    ModRange(y, b);
    MulLess(a, 0, b);
    Nested(x, a, b, y, x % a, y / b, y % b);
    MulNat(a, y % b);
    DivIs(x, a * b, y / b);
  }

  lemma Nested(x: nat, a: nat, b: nat, y: nat, r: nat, z: nat, s: nat)
    requires x == a * y + r && r < a && y == b * z + s && s < b
    ensures (a * b) * z <= x < (a * b) * z + a * b
  {
    Distr(a, b * z, s);
    Assoc(a, b, z);
    MulLess(a, s, b);
    MulNat(a, s);
  }

  lemma DroppedDivides(val: seq<Word>, sw: nat)
    ensures Value(Dropped(val, sw)) == Value(val) / Base(sw)
  {
    var s := Dropped(val, sw);
    hide Value, Base;
    if sw <= |val| {
      ValueConcat(val[sw..], Zeros(sw));
      ValueZeros(Zeros(sw));
      LowWords(val, sw);
      assert Base(|val[sw..]|) * 0 == 0;
      DivIs(Value(val), Base(sw), Value(s));
    } else {
      ValueZeros(s);
      ValueBound(val);
      BaseAdd(|val|, sw - |val|);
      MulLess(Base(|val|), 0, Base(sw - |val|));
      DivIs(Value(val), Base(sw), 0);
    }
  }
}
