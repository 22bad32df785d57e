/** Messages: full packets, the padded remainder, and what the state keeps of them. */
module HighwayBytes {
  import opened Highway

  // ------------------------------------------------------------------- the remainder

  function Rotate32(x: bv32, count: bv8): bv32 requires count <= 32 { (x << count) | (x >> (32 - count)) }

  function Low(x: bv64): bv32 { (x & 0xffffffff) as bv32 }

  function High(x: bv64): bv32 { (x >> 32) as bv32 }

  function Rotate(x: bv64, count: bv8): bv64 requires count <= 32 {
    (Rotate32(Low(x), count) as bv64) | ((Rotate32(High(x), count) as bv64) << 32)
  }

  /** Rotate32By */
  function RotateAll(v: Lanes, count: bv8): Lanes requires count <= 32 {
    Lanes(Rotate(v.l0, count), Rotate(v.l1, count), Rotate(v.l2, count), Rotate(v.l3, count))
  }

  /** The number as the program's unsigned types hold it. */
  function Count(n: nat): (c: bv8)
    requires n < 32
    ensures c < 32 && (n > 0 ==> c > 0)
  {
    n as bv8
  }

  function LengthPair(n: nat): Lanes requires n < 32 {
    var p := ((n as bv64) << 32) + (n as bv64);
    Lanes(p, p, p, p)
  }

  /** Length padding: what UpdateRemainder does to the state before the packet. */
  function Prepare(n: nat, s: State): State requires n < 32 {
    s.(v0 := Add(s.v0, LengthPair(n)), v1 := RotateAll(s.v1, Count(n)))
  }

  /** The packet UpdateRemainder makes of the last 1 to 31 bytes: whole groups of four
      in place; then the last four bytes at the end, or up to three bytes in the middle. */
  function Pad(bytes: seq<byte>): (p: seq<byte>)
    requires 0 < |bytes| < 32
    ensures |p| == 32
  {
    seq(32, i requires 0 <= i < 32 => PadAt(bytes, i))
  }

  function PadAt(bytes: seq<byte>, i: nat): byte requires 0 < |bytes| < 32 && i < 32 {
    var mod4 := |bytes| % 4;
    var whole := |bytes| - mod4;
    if |bytes| >= 16 && i >= 28 then bytes[whole + (i - 28) + mod4 - 4]
    else if i < whole then bytes[i]
    else if |bytes| < 16 && mod4 > 0 && i == 16 then bytes[whole]
    else if |bytes| < 16 && mod4 > 0 && i == 17 then bytes[whole + mod4 / 2]
    else if |bytes| < 16 && mod4 > 0 && i == 18 then bytes[whole + mod4 - 1]
    else 0
  }

  /** A packet that so far has only the whole groups of four. */
  ghost predicate WholeGroups(bytes: seq<byte>, packet: seq<byte>) {
    |packet| == 32 && |bytes| < 32 && forall k :: 0 <= k < 32 ==> packet[k] == if k < |bytes| - |bytes| % 4 then bytes[k] else 0
  }

  function UpdateRemainder(bytes: seq<byte>, s: State): State requires 0 < |bytes| < 32 {
    UpdatePacket(Pad(bytes), Prepare(|bytes|, s))
  }

  lemma PadIsInjective(a: seq<byte>, b: seq<byte>)
    requires 0 < |a| == |b| < 32 && Pad(a) == Pad(b)
    ensures a == b
  {
    var n, mod4 := |a|, |a| % 4;
    var whole := n - mod4;
    forall i | 0 <= i < 32 ensures PadAt(a, i) == PadAt(b, i) { assert Pad(a)[i] == Pad(b)[i]; }
    forall k | 0 <= k < n ensures a[k] == b[k] {
      var i := if k < whole && k < 28 then k else if n >= 16 then 28 + (k - n + 4) else if k == whole then 16 else if k == n - 1 then 18 else 17;
      assert PadAt(a, i) == PadAt(b, i);
    }
  }

  lemma Rotate32IsInjective(x: bv32, y: bv32, c: bv8)
    requires 0 < c < 32 && Rotate32(x, c) == Rotate32(y, c)
    ensures x == y
  {
    if c < 16 { RotatesLow(x, y, c); } else { RotatesHigh(x, y, c); }
  }

  lemma RotatesLow(x: bv32, y: bv32, c: bv8)
    requires 0 < c < 16 && Rotate32(x, c) == Rotate32(y, c)
    ensures x == y
  {
  }

  lemma RotatesHigh(x: bv32, y: bv32, c: bv8)
    requires 16 <= c < 32 && Rotate32(x, c) == Rotate32(y, c)
    ensures x == y
  {
  }

  lemma JoinIsInjective(h0: bv32, h1: bv32, k0: bv32, k1: bv32)
    requires (h0 as bv64) | ((h1 as bv64) << 32) == (k0 as bv64) | ((k1 as bv64) << 32)
    ensures h0 == k0 && h1 == k1
  {
  }

  lemma HalvesDetermine(x: bv64, y: bv64)
    requires Low(x) == Low(y) && High(x) == High(y)
    ensures x == y
  {
  }

  lemma RotateIsInjective(x: bv64, y: bv64, c: bv8)
    requires 0 < c < 32 && Rotate(x, c) == Rotate(y, c)
    ensures x == y
  {
    hide Rotate32, Low, High;
    JoinIsInjective(Rotate32(Low(x), c), Rotate32(High(x), c), Rotate32(Low(y), c), Rotate32(High(y), c));
    Rotate32IsInjective(Low(x), Low(y), c);
    Rotate32IsInjective(High(x), High(y), c);
    HalvesDetermine(x, y);
  }

  lemma PrepareIsInjective(n: nat, s: State, t: State)
    requires 0 < n < 32 && Prepare(n, s) == Prepare(n, t)
    ensures s == t
  {
    hide Rotate, Add, LengthPair, Count;
    var c := Count(n);
    AddSub(s.v0, LengthPair(n));
    AddSub(t.v0, LengthPair(n));
    RotateIsInjective(s.v1.l0, t.v1.l0, c);
    RotateIsInjective(s.v1.l1, t.v1.l1, c);
    RotateIsInjective(s.v1.l2, t.v1.l2, c);
    RotateIsInjective(s.v1.l3, t.v1.l3, c);
  }

  // ----------------------------------------------------------------- whole messages

  /** All full packets of the data, in order. */
  function Packets(s: State, data: seq<byte>): State
    decreases |data|
  {
    if |data| < 32 then s else Packets(UpdatePacket(data[..32], s), data[32..])
  }

  function Rest(data: seq<byte>): (r: seq<byte>)
    ensures |r| == |data| % 32
  {
    data[|data| - |data| % 32..]
  }

  /** ProcessAll, from a given state. */
  function Process(s: State, data: seq<byte>): State {
    var t := Packets(s, data);
    if |data| % 32 == 0 then t else UpdateRemainder(Rest(data), t)
  }

  lemma {:induction false} PacketsOfConcat(s: State, a: seq<byte>, b: seq<byte>)
    requires |a| % 32 == 0
    ensures Packets(s, a + b) == Packets(Packets(s, a), b) && Rest(a + b) == Rest(b)
    decreases |a|
  {
    hide UpdatePacket;
    if |a| == 0 {
      assert a + b == b;
    } else {
      assert (a + b)[..32] == a[..32] && (a + b)[32..] == a[32..] + b;
      PacketsOfConcat(UpdatePacket(a[..32], s), a[32..], b);
      assert |a + b| % 32 == |b| % 32;
    }
  }

  /** The full packets alone. */
  function Front(data: seq<byte>): (f: seq<byte>)
    ensures |f| % 32 == 0 && f + Rest(data) == data
  {
    data[..|data| - |data| % 32]
  }

  lemma PacketsOfFront(s: State, data: seq<byte>)
    ensures Packets(s, data) == Packets(s, Front(data))
  {
    PacketsOfConcat(s, Front(data), Rest(data));
    hide UpdatePacket;
  }

  /** New bytes that do not fill the packet only lengthen the rest. */
  lemma Fits(s: State, data: seq<byte>, x: seq<byte>)
    requires |Rest(data)| + |x| < 32
    ensures Packets(s, data + x) == Packets(s, data) && Rest(data + x) == Rest(data) + x && |data + x| % 32 == |data| % 32 + |x|
  {
    hide UpdatePacket;
    var f, r := Front(data), Rest(data);
    assert data + x == f + (r + x);
    PacketsOfConcat(s, f, r + x);
    PacketsOfConcat(s, f, r);
    assert Rest(r + x) == r + x;
  }

  /** New bytes that fill the packet exactly make one update with it. */
  lemma Fills(s: State, data: seq<byte>, x: seq<byte>)
    requires |Rest(data)| + |x| == 32
    ensures Packets(s, data + x) == UpdatePacket(Rest(data) + x, Packets(s, data)) && Rest(data + x) == [] && |data + x| % 32 == 0
  {
    hide UpdatePacket;
    var f, r := Front(data), Rest(data);
    assert data + x == f + (r + x);
    PacketsOfConcat(s, f, r + x);
    PacketsOfConcat(s, f, r);
    assert (r + x)[..32] == r + x && (r + x)[32..] == [];
  }

  lemma {:induction false} PacketsIsInjective(s: State, t: State, data: seq<byte>)
    requires Packets(s, data) == Packets(t, data)
    ensures s == t
    decreases |data|
  {
    if |data| >= 32 {
      hide Update;
      var p := data[..32];
      PacketsIsInjective(UpdatePacket(p, s), UpdatePacket(p, t), data[32..]);
      UpdateIsABijection(LanesOf(p), s);
      UpdateIsABijection(LanesOf(p), t);
    }
  }

  /** For fixed bytes the whole absorption is injective in the state. */
  lemma ProcessIsInjective(s: State, t: State, data: seq<byte>)
    requires Process(s, data) == Process(t, data)
    ensures s == t
  {
    hide Packets, Update, Undo, Pad, Prepare;
    if |data| % 32 != 0 {
      var r := Rest(data);
      var u, v := Packets(s, data), Packets(t, data);
      UpdateIsABijection(LanesOf(Pad(r)), Prepare(|r|, u));
      UpdateIsABijection(LanesOf(Pad(r)), Prepare(|r|, v));
      PrepareIsInjective(|r|, u, v);
    }
    PacketsIsInjective(s, t, data);
  }

  lemma ProcessOfConcat(s: State, a: seq<byte>, b: seq<byte>)
    requires |a| % 32 == 0
    ensures Process(s, a + b) == Process(Packets(s, a), b)
  {
    PacketsOfConcat(s, a, b);
    assert |a + b| % 32 == |b| % 32;
    hide Packets, UpdateRemainder;
  }

  /** Two messages that differ in exactly one packet leave different states behind. */
  lemma OnePacketMatters(s: State, a: seq<byte>, x: seq<byte>, y: seq<byte>, b: seq<byte>)
    requires |a| % 32 == 0 && |x| == |y| == 32 && x != y
    ensures Process(s, a + (x + b)) != Process(s, a + (y + b))
  {
    var t := Packets(s, a);
    ProcessOfConcat(s, a, x + b);
    ProcessOfConcat(s, a, y + b);
    ProcessOfConcat(t, x, b);
    ProcessOfConcat(t, y, b);
    OnePacket(t, x);
    OnePacket(t, y);
    hide Process, Packets, UpdatePacket;
    if Process(UpdatePacket(x, t), b) == Process(UpdatePacket(y, t), b) {
      ProcessIsInjective(UpdatePacket(x, t), UpdatePacket(y, t), b);
      PacketIsDetermined(x, y, t);
    }
  }

  lemma OnePacket(s: State, p: seq<byte>)
    requires |p| == 32
    ensures Packets(s, p) == UpdatePacket(p, s)
  {
    assert p[..32] == p && p[32..] == [];
    hide UpdatePacket;
  }

  /** The same for the bytes after the last packet. */
  lemma RemainderMatters(s: State, a: seq<byte>, x: seq<byte>, y: seq<byte>)
    requires |a| % 32 == 0 && |x| == |y| < 32 && x != y
    ensures Process(s, a + x) != Process(s, a + y)
  {
    var t := Packets(s, a);
    ProcessOfConcat(s, a, x);
    ProcessOfConcat(s, a, y);
    ProcessOfShort(t, x);
    ProcessOfShort(t, y);
    hide Process, Packets, UpdateRemainder;
    if UpdateRemainder(x, t) == UpdateRemainder(y, t) { RemainderIsDetermined(x, y, t); }
  }

  lemma ProcessOfShort(s: State, x: seq<byte>)
    requires 0 < |x| < 32
    ensures Process(s, x) == UpdateRemainder(x, s)
  {
    hide UpdateRemainder, UpdatePacket;
    assert Rest(x) == x && Packets(s, x) == s;
  }

  lemma RemainderIsDetermined(x: seq<byte>, y: seq<byte>, s: State)
    requires 0 < |x| == |y| < 32 && UpdateRemainder(x, s) == UpdateRemainder(y, s)
    ensures x == y
  {
    hide UpdatePacket, Pad, Prepare;
    PacketIsDetermined(Pad(x), Pad(y), Prepare(|x|, s));
    PadIsInjective(x, y);
  }

  lemma {:induction false} RoundsIsInjective(s: State, t: State, n: nat)
    requires Rounds(s, n) == Rounds(t, n)
    ensures s == t
  {
    hide Round, UndoRound;
    if n > 0 {
      RoundIsABijection(Rounds(s, n - 1));
      RoundIsABijection(Rounds(t, n - 1));
      RoundsIsInjective(s, t, n - 1);
    }
  }
}
