/** ceilToPow2 of readerwriterqueue.h on the bits of a 64-bit word, lowest bit first. */
module RoundUp {

  function Pow2(e: nat): (r: nat)
    ensures r > 0
  {
    if e == 0 then 1 else 2 * Pow2(e - 1)
  }

  const WIDTH: nat := 64

  // --------------------------------------------------------------------- words

  function ToBits(n: nat, width: nat): (b: seq<bool>)
    ensures |b| == width
  {
    if width == 0 then [] else [n % 2 == 1] + ToBits(n / 2, width - 1)
  }

  function Value(b: seq<bool>): nat { if b == [] then 0 else (if b[0] then 1 else 0) + 2 * Value(b[1..]) }

  lemma {:induction false} ValueOfBits(n: nat, width: nat)
    requires n < Pow2(width)
    ensures Value(ToBits(n, width)) == n
  {
    if width > 0 {
      ValueOfBits(n / 2, width - 1);
      assert ToBits(n, width)[1..] == ToBits(n / 2, width - 1);
    }
  }

  /** x |= x >> k */
  function OrShifted(b: seq<bool>, k: nat): (r: seq<bool>)
    ensures |r| == |b|
  {
    seq(|b|, i requires 0 <= i < |b| => b[i] || (i + k < |b| && b[i + k]))
  }

  // ------------------------------------------------------------- spreading the top bit

  /** Some bit of the n from place i on. */
  ghost predicate AnyIn(b: seq<bool>, i: nat, n: nat) { exists j :: i <= j < i + n && j < |b| && b[j] }

  /** Every bit tells whether one of the n from its place on was set. */
  ghost predicate Spread(b: seq<bool>, c: seq<bool>, n: nat) {
    |c| == |b| && forall i :: 0 <= i < |b| ==> (c[i] <==> AnyIn(b, i, n))
  }

  lemma SpreadFirst(b: seq<bool>)
    ensures Spread(b, b, 1)
  {
  }

  lemma SpreadTwice(b: seq<bool>, c: seq<bool>, n: nat)
    requires Spread(b, c, n)
    ensures Spread(b, OrShifted(c, n), 2 * n)
  {
    forall i | 0 <= i < |b| ensures OrShifted(c, n)[i] <==> AnyIn(b, i, 2 * n) {
      assert AnyIn(b, i, 2 * n) <==> AnyIn(b, i, n) || AnyIn(b, i + n, n);
      if i + n >= |b| { assert !AnyIn(b, i + n, n); }
    }
  }

  /** The first m bits and no others. */
  ghost predicate OnesBelow(b: seq<bool>, m: nat) { m <= |b| && forall i :: 0 <= i < |b| ==> (b[i] <==> i < m) }

  lemma {:induction false} ValueOfOnes(b: seq<bool>, m: nat)
    requires OnesBelow(b, m)
    ensures Value(b) == Pow2(m) - 1
    decreases |b|
  {
    if b != [] {
      if m > 0 {
        ValueOfOnes(b[1..], m - 1);
      } else {
        ValueOfOnes(b[1..], 0);
      }
    }
  }

  /** The top bit of a number from 2^e up to 2^(e+1). */
  lemma {:induction false} TopBit(n: nat, width: nat, e: nat)
    requires e < width && Pow2(e) <= n < Pow2(e + 1)
    ensures ToBits(n, width)[e] && forall j :: e < j < width ==> !ToBits(n, width)[j]
  {
    var b := ToBits(n, width);
    if e == 0 {
      assert n == 1;
      NoBits(width - 1);
    } else {
      TopBit(n / 2, width - 1, e - 1);
      assert b[e] == ToBits(n / 2, width - 1)[e - 1];
      forall j | e < j < width ensures !b[j] { assert b[j] == ToBits(n / 2, width - 1)[j - 1]; }
    }
  }

  lemma {:induction false} NoBits(width: nat)
    ensures forall j :: 0 <= j < width ==> !ToBits(0, width)[j]
  {
    if width > 0 { NoBits(width - 1); }
  }

  lemma AllBelowTop(b: seq<bool>, c: seq<bool>, e: nat)
    requires e < |b| <= WIDTH && b[e] && (forall j :: e < j < |b| ==> !b[j]) && Spread(b, c, WIDTH)
    ensures OnesBelow(c, e + 1)
  {
    forall i | 0 <= i < |c| ensures c[i] <==> i < e + 1 {
      if i <= e { assert i <= e < i + WIDTH; }
    }
  }

  // ------------------------------------------------------------------- powers of two

  lemma {:induction false} Exponent(n: nat) returns (e: nat)
    requires n > 0
    ensures Pow2(e) <= n < Pow2(e + 1)
  {
    if n == 1 { e := 0; } else {
      var h := Exponent(n / 2);
      e := h + 1;
    }
  }

  lemma {:induction false} Larger(d: nat, e: nat)
    requires d < e
    ensures 2 * Pow2(d) <= Pow2(e)
  {
    if d + 1 < e { Larger(d, e - 1); }
  }

  lemma OneExponent(n: nat, d: nat, e: nat)
    requires Pow2(d) <= n < Pow2(d + 1) && Pow2(e) <= n < Pow2(e + 1)
    ensures d == e
  {
    hide Pow2;
    if d < e { NotBelow(d + 1, e); } else if e < d { NotBelow(e + 1, d); }
  }

  lemma NotBelow(d: nat, e: nat)
    requires d <= e
    ensures Pow2(d) <= Pow2(e)
  {
    if d < e { Larger(d, e); }
  }

  /** The least exponent whose power is not below x. */
  ghost predicate RoundsUp(x: nat, e: nat) { x <= Pow2(e) && (e > 0 ==> Pow2(e - 1) < x) }

  lemma OneRoundUp(x: nat, d: nat, e: nat)
    requires RoundsUp(x, d) && RoundsUp(x, e)
    ensures d == e
  {
    if d < e { if d + 1 < e { Larger(d, e - 1); } } else if e < d { if e + 1 < d { Larger(e, d - 1); } }
  }

  /** The search for that exponent. */
  function ExponentUp(x: nat, e: nat): (r: nat)
    requires e > 0 ==> Pow2(e - 1) < x
    ensures RoundsUp(x, r)
    decreases x - Pow2(e)
  {
    if x <= Pow2(e) then e else ExponentUp(x, e + 1)
  }

  /** The least power of two that is not below x. */
  function LeastPower(x: nat): (r: nat)
    ensures r >= x && (x >= 1 ==> r < 2 * x)
  {
    Pow2(ExponentUp(x, 0))
  }

  /** ceilToPow2: the least power of two that is not below x if that is a word, otherwise 0. */
  method CeilToPow2(x: nat) returns (r: nat)
    requires x < Pow2(WIDTH)
    ensures r == if 1 <= x <= Pow2(WIDTH - 1) then LeastPower(x) else 0
  {
    hide Spread, OrShifted, Pow2, ToBits, Value, RoundsUp;
    var v := if x == 0 then Pow2(WIDTH) - 1 else x - 1;
    ghost var b := ToBits(v, WIDTH);
    var bits := ToBits(v, WIDTH);
    SpreadFirst(b);
    SpreadTwice(b, bits, 1);
    bits := OrShifted(bits, 1);
    SpreadTwice(b, bits, 2);
    bits := OrShifted(bits, 2);
    SpreadTwice(b, bits, 4);
    bits := OrShifted(bits, 4);
    var i := 1;
    while i < WIDTH / 8
      invariant i in {1, 2, 4, 8} && Spread(b, bits, 8 * i)
      decreases WIDTH / 8 - i
    {
      SpreadTwice(b, bits, 8 * i);
      bits := OrShifted(bits, 8 * i);
      i := 2 * i;
    }
    ghost var d: nat := 0;
    if v > 0 { d := Exponent(v); }
    Smeared(v, b, bits, d);
    Rounded(x, v, Value(bits), d, ExponentUp(x, 0), WIDTH);
    FitsWord(x, ExponentUp(x, 0), WIDTH);
    r := (Value(bits) + 1) % Pow2(WIDTH);
  }

  lemma FitsWord(x: nat, e: nat, width: nat)
    requires RoundsUp(x, e) && width > 0
    ensures e < width <==> x <= Pow2(width - 1)
  {
    hide Pow2;
    if e < width { NotBelow(e, width - 1); } else { NotBelow(width - 1, e - 1); }
  }

  /** All bits below the top one of v are set. */
  lemma Smeared(v: nat, b: seq<bool>, c: seq<bool>, e: nat)
    requires v < Pow2(WIDTH) && b == ToBits(v, WIDTH) && Spread(b, c, WIDTH) && (v > 0 ==> Pow2(e) <= v < Pow2(e + 1))
    ensures Value(c) == if v == 0 then 0 else Pow2(e + 1) - 1
  {
    hide Pow2, ToBits, Value;
    if v == 0 {
      NoBits(WIDTH);
      assert OnesBelow(c, 0);
      ValueOfOnes(c, 0);
      RoundsUpOne();
    } else {
      if e >= WIDTH { NotBelow(WIDTH, e); }
      TopBit(v, WIDTH, e);
      AllBelowTop(b, c, e);
      ValueOfOnes(c, e + 1);
    }
  }

  lemma RoundedValue(x: nat, v: nat, y: nat, d: nat, e: nat, width: nat)
    requires x < Pow2(width) && v == (if x == 0 then Pow2(width) - 1 else x - 1) && RoundsUp(x, e) && width > 0
    requires if v == 0 then y == 0 else Pow2(d) <= v < Pow2(d + 1) && y == Pow2(d + 1) - 1
    ensures if x == 0 then y + 1 == Pow2(width) else y + 1 == Pow2(e) && e <= width
  {
    hide Pow2;
    Doubles(width - 1);
    RoundsUpOne();
    if x == 0 {
      OneExponent(v, d, width - 1);
    } else if x == 1 {
      OneRoundUp(1, 0, e);
    } else {
      OneRoundUp(x, d + 1, e);
      if e > width { NotBelow(width, e - 1); }
    }
  }

  lemma Rounded(x: nat, v: nat, y: nat, d: nat, e: nat, width: nat)
    requires x < Pow2(width) && v == (if x == 0 then Pow2(width) - 1 else x - 1) && RoundsUp(x, e) && width > 0
    requires if v == 0 then y == 0 else Pow2(d) <= v < Pow2(d + 1) && y == Pow2(d + 1) - 1
    ensures (y + 1) % Pow2(width) == if x > 0 && e < width then Pow2(e) else 0
  {
    hide Pow2, RoundsUp;
    RoundedValue(x, v, y, d, e, width);
    if x > 0 && e < width { Larger(e, width); }
    WrapsAt(y + 1, Pow2(width));
  }

  lemma WrapsAt(a: nat, m: nat)
    requires a <= m && m > 0
    ensures a % m == if a == m then 0 else a
  {
  }

  lemma Doubles(e: nat)
    ensures Pow2(e + 1) == 2 * Pow2(e)
  {
  }

  lemma RoundsUpOne()
    ensures RoundsUp(1, 0) && Pow2(0) == 1
  {
  }
}
