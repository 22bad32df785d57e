/** The HighwayHash state and its round functions (c/highwayhash.c and
    highwayhash/hh_portable.h). */
module Highway {

  type byte = bv8

  /** uint64_t[4] */
  datatype Lanes = Lanes(l0: bv64, l1: bv64, l2: bv64, l3: bv64)

  datatype State = State(v0: Lanes, v1: Lanes, mul0: Lanes, mul1: Lanes)

  function Swap(x: bv64): bv64 { (x >> 32) | (x << 32) }

  function Plus(a: bv64, b: bv64): bv64 { a + b }

  function Minus(a: bv64, b: bv64): bv64 { a - b }

  function Differ(a: bv64, b: bv64): bv64 { a ^ b }

  function Xor(a: Lanes, b: Lanes): Lanes { Lanes(Differ(a.l0, b.l0), Differ(a.l1, b.l1), Differ(a.l2, b.l2), Differ(a.l3, b.l3)) }

  const INIT0 := Lanes(0xdbe6d5d5fe4cce2f, 0xa4093822299f31d0, 0x13198a2e03707344, 0x243f6a8885a308d3)
  const INIT1 := Lanes(0x3bd39e10cb0ef593, 0xc0acf169b5f18a8c, 0xbe5466cf34e90c6c, 0x452821e638d01377)

  function Reset(key: Lanes): State {
    State(Xor(INIT0, key), Xor(INIT1, Lanes(Swap(key.l0), Swap(key.l1), Swap(key.l2), Swap(key.l3))), INIT0, INIT1)
  }

  /** What ZipperMergeAndAdd adds to *add0 and *add1. */
  function Zip0(v1: bv64, v0: bv64): bv64 {
    (((v0 & 0xff000000) | (v1 & 0xff00000000)) >> 24) |
    (((v0 & 0xff0000000000) | (v1 & 0xff000000000000)) >> 16) |
    (v0 & 0xff0000) | ((v0 & 0xff00) << 32) |
    ((v1 & 0xff00000000000000) >> 8) | (v0 << 56)
  }

  function Zip1(v1: bv64, v0: bv64): bv64 { ZipHigh(ZipLow(v1, v0), v1, v0) }

  function ZipHigh(x: bv64, v1: bv64, v0: bv64): bv64 {
    x | ((v1 & 0xff00) << 24) | ((v0 & 0xff000000000000) >> 8) | ((v1 & 0xff) << 48) | (v0 & 0xff00000000000000)
  }

  function ZipLow(v1: bv64, v0: bv64): bv64 {
    (((v1 & 0xff000000) | (v0 & 0xff00000000)) >> 24) |
    (v1 & 0xff0000) | ((v1 & 0xff0000000000) >> 16)
  }

  /** Both pairs of lanes at once. */
  function Zip(v: Lanes): Lanes { Lanes(Zip0(v.l1, v.l0), Zip1(v.l1, v.l0), Zip0(v.l3, v.l2), Zip1(v.l3, v.l2)) }

  function Add(a: Lanes, b: Lanes): Lanes { Lanes(Plus(a.l0, b.l0), Plus(a.l1, b.l1), Plus(a.l2, b.l2), Plus(a.l3, b.l3)) }

  function Sub(a: Lanes, b: Lanes): Lanes { Lanes(Minus(a.l0, b.l0), Minus(a.l1, b.l1), Minus(a.l2, b.l2), Minus(a.l3, b.l3)) }

  function Product(low: bv64, high: bv64): bv64 { (low & 0xffffffff) * (high >> 32) }

  function Products(low: Lanes, high: Lanes): Lanes {
    Lanes(Product(low.l0, high.l0), Product(low.l1, high.l1), Product(low.l2, high.l2), Product(low.l3, high.l3))
  }

  /** Update of the C form; its loop runs over lanes that do not meet. */
  function Update(lanes: Lanes, s: State): State {
    var v1 := Add(s.v1, Add(s.mul0, lanes));
    var mul0 := Xor(s.mul0, Products(v1, s.v0));
    var v0 := Add(s.v0, s.mul1);
    var mul1 := Xor(s.mul1, Products(v0, v1));
    var v0' := Add(v0, Zip(v1));
    State(v0', Add(v1, Zip(v0')), mul0, mul1)
  }

  /** The state before an Update with these lanes. */
  function Undo(lanes: Lanes, s: State): State {
    var v1 := Sub(s.v1, Zip(s.v0));
    var v0 := Sub(s.v0, Zip(v1));
    var mul1 := Xor(s.mul1, Products(v0, v1));
    var v0' := Sub(v0, mul1);
    var mul0 := Xor(s.mul0, Products(v1, v0'));
    State(v0', Sub(v1, Add(mul0, lanes)), mul0, mul1)
  }

  lemma AddSub(a: Lanes, b: Lanes)
    ensures Sub(Add(a, b), b) == a && Add(Sub(a, b), b) == a
  {
    hide Plus, Minus;
    AddSub64(a.l0, b.l0);
    AddSub64(a.l1, b.l1);
    AddSub64(a.l2, b.l2);
    AddSub64(a.l3, b.l3);
  }

  lemma AddSub64(a: bv64, b: bv64)
    ensures Minus(Plus(a, b), b) == a && Plus(Minus(a, b), b) == a
  {
    hide Plus, Minus;
    MinusOfPlus(a, b);
    PlusOfMinus(a, b);
  }

  lemma MinusOfPlus(a: bv64, b: bv64)
    ensures Minus(Plus(a, b), b) == a && Minus(Plus(a, b), a) == b
  {
    hide Minus;
    MinusOfSum(a, b);
    assert Plus(a, b) == a + b;
  }

  lemma MinusOfSum(a: bv64, b: bv64)
    ensures Minus(a + b, b) == a && Minus(a + b, a) == b
  {
  }

  lemma PlusOfMinus(a: bv64, b: bv64)
    ensures Plus(Minus(a, b), b) == a
  {
    hide Plus;
    PlusOfDifference(a, b);
    assert Minus(a, b) == a - b;
  }

  lemma PlusOfDifference(a: bv64, b: bv64)
    ensures Plus(a - b, b) == a
  {
  }

  lemma XorXor(a: Lanes, b: Lanes)
    ensures Xor(Xor(a, b), b) == a
  {
    hide Differ;
    XorXor64(a.l0, b.l0);
    XorXor64(a.l1, b.l1);
    XorXor64(a.l2, b.l2);
    XorXor64(a.l3, b.l3);
  }

  lemma XorXor64(a: bv64, b: bv64)
    ensures Differ(Differ(a, b), b) == a
  {
  }

  /** For fixed lanes Update is a bijection of the 1024-bit state. */
  lemma UpdateIsABijection(lanes: Lanes, s: State)
    ensures Undo(lanes, Update(lanes, s)) == s
    ensures Update(lanes, Undo(lanes, s)) == s
  {
    hide Add, Sub, Xor, Products, Zip;
    UndoUpdate(lanes, s);
    UpdateUndo(lanes, s);
  }

  lemma UndoUpdate(lanes: Lanes, s: State)
    ensures Undo(lanes, Update(lanes, s)) == s
  {
    hide Add, Sub, Xor, Products, Zip;
    var v1 := Add(s.v1, Add(s.mul0, lanes));
    var v0 := Add(s.v0, s.mul1);
    AddSub(v1, Zip(Add(v0, Zip(v1))));
    AddSub(v0, Zip(v1));
    XorXor(s.mul1, Products(v0, v1));
    AddSub(s.v0, s.mul1);
    XorXor(s.mul0, Products(v1, s.v0));
    AddSub(s.v1, Add(s.mul0, lanes));
  }

  lemma UpdateUndo(lanes: Lanes, s: State)
    ensures Update(lanes, Undo(lanes, s)) == s
  {
    hide Add, Sub, Xor, Products, Zip;
    var v1 := Sub(s.v1, Zip(s.v0));
    var v0 := Sub(s.v0, Zip(v1));
    var mul1 := Xor(s.mul1, Products(v0, v1));
    var v0' := Sub(v0, mul1);
    var mul0 := Xor(s.mul0, Products(v1, v0'));
    AddSub(v1, Add(mul0, lanes));
    XorXor(s.mul0, Products(v1, v0'));
    AddSub(v0, mul1);
    XorXor(s.mul1, Products(v0, v1));
    AddSub(s.v0, Zip(v1));
    AddSub(s.v1, Zip(s.v0));
  }

  /** The lanes that take one state to another. */
  lemma LanesAreDetermined(a: Lanes, b: Lanes, s: State)
    requires Update(a, s) == Update(b, s)
    ensures a == b
  {
    hide Add, Sub, Xor, Products, Zip;
    var t, x, y := Update(a, s), Add(s.v1, Add(s.mul0, a)), Add(s.v1, Add(s.mul0, b));
    AddSub(x, Zip(t.v0));
    AddSub(y, Zip(t.v0));
    AddCancels(s.v1, Add(s.mul0, a), Add(s.mul0, b));
    AddCancels(s.mul0, a, b);
  }

  lemma AddCancels(c: Lanes, a: Lanes, b: Lanes)
    requires Add(c, a) == Add(c, b)
    ensures a == b
  {
    hide Plus;
    PlusCancels(c.l0, a.l0, b.l0);
    PlusCancels(c.l1, a.l1, b.l1);
    PlusCancels(c.l2, a.l2, b.l2);
    PlusCancels(c.l3, a.l3, b.l3);
  }

  lemma PlusCancels(c: bv64, a: bv64, b: bv64)
    ensures Plus(c, a) == Plus(c, b) ==> a == b
  {
    hide Plus, Minus;
    MinusOfPlus(c, a);
    MinusOfPlus(c, b);
  }

  // ------------------------------------------------------------- the portable C++ form

  /** Clears all but one byte. */
  function Mask(v: bv64, byte: nat): bv64 requires byte < 8 {
    match byte
    case 0 => v & 0xff
    case 1 => v & 0xff00
    case 2 => v & 0xff_0000
    case 3 => v & 0xff00_0000
    case 4 => v & 0xff_0000_0000
    case 5 => v & 0xff00_0000_0000
    case 6 => v & 0xff_0000_0000_0000
    case _ => v & 0xff00_0000_0000_0000
  }

  function PortableZip0(v1: bv64, v0: bv64): bv64 {
    ((Mask(v0, 3) + Mask(v1, 4)) >> 24) + ((Mask(v0, 5) + Mask(v1, 6)) >> 16) + Mask(v0, 2) +
    (Mask(v0, 1) << 32) + (Mask(v1, 7) >> 8) + (v0 << 56)
  }

  function PortableZip1(v1: bv64, v0: bv64): bv64 { PortableZipHigh(PortableZipLow(v1, v0), v1, v0) }

  function PortableZipHigh(x: bv64, v1: bv64, v0: bv64): bv64 {
    x + (Mask(v1, 1) << 24) + (Mask(v0, 6) >> 8) + (Mask(v1, 0) << 48) + Mask(v0, 7)
  }

  function PortableZipLow(v1: bv64, v0: bv64): bv64 {
    ((Mask(v1, 3) + Mask(v0, 4)) >> 24) + Mask(v1, 2) + (Mask(v1, 5) >> 16)
  }

  /** The sums of the C++ form have no carries, so they are the unions of the C form. */
  lemma PortableZipIsZip(v1: bv64, v0: bv64)
    ensures PortableZip0(v1, v0) == Zip0(v1, v0) && PortableZip1(v1, v0) == Zip1(v1, v0)
  {
    PortableZip0IsZip0(v1, v0);
    PortableZip1IsZip1(v1, v0);
    hide PortableZip0, PortableZip1, Zip0, Zip1;
  }

  lemma PortableZip0IsZip0(v1: bv64, v0: bv64)
    ensures PortableZip0(v1, v0) == Zip0(v1, v0)
  {
  }

  lemma PortableZip1IsZip1(v1: bv64, v0: bv64)
    ensures PortableZip1(v1, v0) == Zip1(v1, v0)
  {
    hide ZipLow, ZipHigh, PortableZipLow, PortableZipHigh;
    LowHalf(v1, v0);
    HighHalf(v1, v0, ZipLow(v1, v0));
  }

  lemma LowHalf(v1: bv64, v0: bv64)
    ensures PortableZipLow(v1, v0) == ZipLow(v1, v0) && ZipLow(v1, v0) & 0xffffffff00000000 == 0
  {
  }

  lemma HighHalf(v1: bv64, v0: bv64, x: bv64)
    requires x & 0xffffffff00000000 == 0
    ensures PortableZipHigh(x, v1, v0) == ZipHigh(x, v1, v0)
  {
  }

  function PortableZip(v: Lanes): Lanes {
    Lanes(PortableZip0(v.l1, v.l0), PortableZip1(v.l1, v.l0), PortableZip0(v.l3, v.l2), PortableZip1(v.l3, v.l2))
  }

  function PortableUpdate(lanes: Lanes, s: State): State {
    var v1 := Add(Add(s.v1, lanes), s.mul0);
    var mul0 := Xor(s.mul0, Products(v1, s.v0));
    var v0 := Add(s.v0, s.mul1);
    var mul1 := Xor(s.mul1, Products(v0, v1));
    var v0' := Add(v0, PortableZip(v1));
    State(v0', Add(v1, PortableZip(v0')), mul0, mul1)
  }

  lemma PlusReorders(a: bv64, l: bv64, m: bv64)
    ensures Plus(Plus(a, l), m) == Plus(a, Plus(m, l))
  {
    hide Plus;
    PlusIs(a, l);
    PlusIs(m, l);
    SumsReorder(a, l, m);
  }

  lemma PlusIs(a: bv64, b: bv64)
    ensures Plus(a, b) == a + b
  {
  }

  lemma SumsReorder(a: bv64, l: bv64, m: bv64)
    ensures Plus(a + l, m) == Plus(a, m + l)
  {
  }

  lemma AddReorders(a: Lanes, l: Lanes, m: Lanes)
    ensures Add(Add(a, l), m) == Add(a, Add(m, l))
  {
    hide Plus;
    PlusReorders(a.l0, l.l0, m.l0);
    PlusReorders(a.l1, l.l1, m.l1);
    PlusReorders(a.l2, l.l2, m.l2);
    PlusReorders(a.l3, l.l3, m.l3);
  }

  /** The C and the portable C++ form are the same function. */
  lemma PortableUpdateIsUpdate(lanes: Lanes, s: State)
    ensures PortableUpdate(lanes, s) == Update(lanes, s)
  {
    hide Add, Xor, Products, Zip, PortableZip;
    AddReorders(s.v1, lanes, s.mul0);
    var v1 := Add(s.v1, Add(s.mul0, lanes));
    PortableZips(v1);
    PortableZips(Add(Add(s.v0, s.mul1), Zip(v1)));
  }

  lemma PortableZips(v: Lanes)
    ensures PortableZip(v) == Zip(v)
  {
    hide PortableZip0, PortableZip1, Zip0, Zip1;
    PortableZipIsZip(v.l1, v.l0);
    PortableZipIsZip(v.l3, v.l2);
  }

  // ------------------------------------------------------------------ finalization

  function Permute(v: Lanes): Lanes { Lanes(Swap(v.l2), Swap(v.l3), Swap(v.l0), Swap(v.l1)) }

  /** PermuteAndUpdate */
  function Round(s: State): State { Update(Permute(s.v0), s) }

  /** v0 can be restored without knowing the lanes, and they follow from it. */
  function UndoRound(s: State): State { Undo(Permute(Undo(s.v0, s).v0), s) }

  /** The rounds of the finalization lose nothing either. */
  lemma RoundIsABijection(s: State)
    ensures UndoRound(Round(s)) == s && Round(UndoRound(s)) == s
  {
    hide Add, Sub, Xor, Products, Zip, Permute;
    var t := Round(s);
    UpdateIsABijection(Permute(s.v0), s);
    assert Undo(t.v0, t).v0 == Undo(Permute(s.v0), t).v0;
    var lanes := Permute(Undo(s.v0, s).v0);
    assert UndoRound(s).v0 == Undo(s.v0, s).v0;
    UpdateIsABijection(lanes, s);
  }

  function Rounds(s: State, n: nat): State { if n == 0 then s else Round(Rounds(s, n - 1)) }

  function Take64(t: State): bv64 { t.v0.l0 + t.v1.l0 + t.mul0.l0 + t.mul1.l0 }

  function Finalize64(s: State): bv64 { Take64(Rounds(s, 4)) }

  function Take128(t: State): (bv64, bv64) {
    (t.v0.l0 + t.mul0.l0 + t.v1.l2 + t.mul1.l2, t.v0.l1 + t.mul0.l1 + t.v1.l3 + t.mul1.l3)
  }

  function Finalize128(s: State): (bv64, bv64) { Take128(Rounds(s, 6)) }

  /** ModularReduction */
  function Reduce(a3: bv64, a2: bv64, a1: bv64, a0: bv64): (bv64, bv64) {
    var a3' := a3 & 0x3FFFFFFFFFFFFFFF;
    (Differ(Differ(a0, a2 << 1), a2 << 2), Differ(Differ(a1, (a3' << 1) | (a2 >> 63)), (a3' << 2) | (a2 >> 62)))
  }

  function Finalize256(s: State): (bv64, bv64, bv64, bv64) {
    var t := Rounds(s, 10);
    var low := Reduce(Plus(t.v1.l1, t.mul1.l1), Plus(t.v1.l0, t.mul1.l0), Plus(t.v0.l1, t.mul0.l1), Plus(t.v0.l0, t.mul0.l0));
    var high := Reduce(Plus(t.v1.l3, t.mul1.l3), Plus(t.v1.l2, t.mul1.l2), Plus(t.v0.l3, t.mul0.l3), Plus(t.v0.l2, t.mul0.l2));
    (low.0, low.1, high.0, high.1)
  }

  // ---------------------------------------------------------------- packets of bytes

  function Word(b0: byte, b1: byte, b2: byte, b3: byte, b4: byte, b5: byte, b6: byte, b7: byte): bv64 {
    (b0 as bv64) | ((b1 as bv64) << 8) | ((b2 as bv64) << 16) | ((b3 as bv64) << 24) |
    ((b4 as bv64) << 32) | ((b5 as bv64) << 40) | ((b6 as bv64) << 48) | ((b7 as bv64) << 56)
  }

  function Read64(p: seq<byte>, o: nat): bv64 requires o + 8 <= |p| {
    Word(p[o], p[o + 1], p[o + 2], p[o + 3], p[o + 4], p[o + 5], p[o + 6], p[o + 7])
  }

  function LanesOf(p: seq<byte>): Lanes requires |p| == 32 { Lanes(Read64(p, 0), Read64(p, 8), Read64(p, 16), Read64(p, 24)) }

  function UpdatePacket(p: seq<byte>, s: State): State requires |p| == 32 { Update(LanesOf(p), s) }

  lemma ReadIsInjective(p: seq<byte>, q: seq<byte>, o: nat)
    requires o + 8 <= |p| == |q| && Read64(p, o) == Read64(q, o)
    ensures p[o..o + 8] == q[o..o + 8]
  {
  }

  /** Two packets that take a state to the same state are the same packet. */
  lemma PacketIsDetermined(p: seq<byte>, q: seq<byte>, s: State)
    requires |p| == |q| == 32 && UpdatePacket(p, s) == UpdatePacket(q, s)
    ensures p == q
  {
    hide Word, Update;
    LanesAreDetermined(LanesOf(p), LanesOf(q), s);
    ReadIsInjective(p, q, 0);
    ReadIsInjective(p, q, 8);
    ReadIsInjective(p, q, 16);
    ReadIsInjective(p, q, 24);
    assert p == p[0..8] + p[8..16] + p[16..24] + p[24..32];
    assert q == q[0..8] + q[8..16] + q[16..24] + q[24..32];
  }
}
