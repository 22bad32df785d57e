/** HHStatePortable of highwayhash/hh_portable.h on a little-endian machine, with the word
    loads of load3.h, against the C form. */
module HighwayPortable {
  import opened Highway
  import opened HighwayBytes

  function PortableUpdatePacket(p: seq<byte>, s: State): State requires |p| == 32 { PortableUpdate(LanesOf(p), s) }

  lemma PortablePacket(p: seq<byte>, s: State)
    requires |p| == 32
    ensures PortableUpdatePacket(p, s) == UpdatePacket(p, s)
  {
    hide LanesOf;
    PortableUpdateIsUpdate(LanesOf(p), s);
  }

  // ------------------------------------------------------------------- words in memory

  /** Byte k of a word that is copied to memory. */
  function ByteOf(x: bv64, k: nat): byte requires k < 8 {
    match k
    case 0 => (x & 0xff) as byte
    case 1 => ((x >> 8) & 0xff) as byte
    case 2 => ((x >> 16) & 0xff) as byte
    case 3 => ((x >> 24) & 0xff) as byte
    case 4 => ((x >> 32) & 0xff) as byte
    case 5 => ((x >> 40) & 0xff) as byte
    case 6 => ((x >> 48) & 0xff) as byte
    case _ => ((x >> 56) & 0xff) as byte
  }

  /** Load3 with AllowReadBeforeAndReturn: four bytes, of which the last are the wanted ones. */
  function LoadBefore(b0: byte, b1: byte, b2: byte, b3: byte): bv64 {
    (b0 as bv64) | ((b1 as bv64) << 8) | ((b2 as bv64) << 16) | ((b3 as bv64) << 24)
  }

  /** Load3 with AllowUnordered, for one to three bytes: the first, a middle and the last one. */
  function LoadUnordered(b0: byte, b1: byte, b2: byte): bv64 {
    (b0 as bv64) + ((b1 as bv64) << 8) + ((b2 as bv64) << 16)
  }

  lemma LoadedBefore(b0: byte, b1: byte, b2: byte, b3: byte)
    ensures var x := LoadBefore(b0, b1, b2, b3); ByteOf(x, 0) == b0 && ByteOf(x, 1) == b1 && ByteOf(x, 2) == b2 && ByteOf(x, 3) == b3
  {
  }

  lemma LoadedUnordered(b0: byte, b1: byte, b2: byte)
    ensures var x := LoadUnordered(b0, b1, b2);
            && ByteOf(x, 0) == b0 && ByteOf(x, 1) == b1 && ByteOf(x, 2) == b2
            && ByteOf(x, 3) == ByteOf(x, 4) == ByteOf(x, 5) == ByteOf(x, 6) == ByteOf(x, 7) == 0
  {
  }

  /** CopyPartial of the first n bytes of a word. */
  method CopyWord(x: bv64, n: nat, packet: array<byte>, at: nat)
    requires n <= 8 && at + n <= packet.Length
    modifies packet
    ensures forall k :: 0 <= k < packet.Length ==> packet[k] == if at <= k < at + n then ByteOf(x, k - at) else old(packet[k])
  {
    hide ByteOf;
    var i := 0;
    while i < n
      invariant 0 <= i <= n
      invariant forall k :: 0 <= k < packet.Length ==> packet[k] == if at <= k < at + i then ByteOf(x, k - at) else old(packet[k])
    {
      packet[at + i] := ByteOf(x, i);
      i := i + 1;
    }
  }

  // ------------------------------------------------------------------- the remainder

  /** The packet of UpdateRemainder: the one the C form builds byte by byte. */
  method PortablePad(bytes: seq<byte>) returns (packet: array<byte>)
    requires 0 < |bytes| < 32
    ensures fresh(packet) && packet[..] == Pad(bytes)
  {
    var whole := |bytes| - |bytes| % 4;
    packet := new byte[32](_ => 0);
    var i := 0;
    while i < whole
      invariant 0 <= i <= whole && forall k :: 0 <= k < 32 ==> packet[k] == if k < i then bytes[k] else 0
    {
      packet[i] := bytes[i];
      i := i + 1;
    }
    if |bytes| >= 16 { PortableEnd(bytes, packet); } else { PortableMiddle(bytes, packet); }
  }

  /** 16 to 31 bytes: one load of four bytes, stored at the end. */
  method PortableEnd(bytes: seq<byte>, packet: array<byte>)
    requires 16 <= |bytes| < 32 && WholeGroups(bytes, packet[..])
    modifies packet
    ensures packet[..] == Pad(bytes)
  {
    hide ByteOf, LoadBefore;
    var at := |bytes| - 4;
    var last4 := LoadBefore(bytes[at], bytes[at + 1], bytes[at + 2], bytes[at + 3]);
    LoadedBefore(bytes[at], bytes[at + 1], bytes[at + 2], bytes[at + 3]);
    CopyWord(last4, 4, packet, 28);
    assert packet[28] == bytes[at] && packet[29] == bytes[at + 1] && packet[30] == bytes[at + 2] && packet[31] == bytes[at + 3];
    forall k | 0 <= k < 32 ensures packet[k] == PadAt(bytes, k) {
      if k < 28 {} else if k == 28 {} else if k == 29 {} else if k == 30 {} else {}
    }
  }

  /** Up to 15 bytes: up to three bytes in a word of eight, stored in the middle. */
  method PortableMiddle(bytes: seq<byte>, packet: array<byte>)
    requires 0 < |bytes| < 16 && WholeGroups(bytes, packet[..])
    modifies packet
    ensures packet[..] == Pad(bytes)
  {
    hide ByteOf, LoadUnordered;
    var mod4 := |bytes| % 4;
    var whole := |bytes| - mod4;
    var last4 := if mod4 == 0 then 0 else LoadUnordered(bytes[whole], bytes[whole + mod4 / 2], bytes[whole + mod4 - 1]);
    if mod4 == 0 { NoBytes(); } else { LoadedUnordered(bytes[whole], bytes[whole + mod4 / 2], bytes[whole + mod4 - 1]); }
    CopyWord(last4, 8, packet, 16);
    MiddleBytes(bytes, packet[..], last4);
  }

  lemma MiddleBytes(bytes: seq<byte>, packet: seq<byte>, last4: bv64)
    requires 0 < |bytes| < 16 && |packet| == 32
    requires forall k :: 0 <= k < 32 ==>
      packet[k] == if 16 <= k < 24 then ByteOf(last4, k - 16) else if k < |bytes| - |bytes| % 4 then bytes[k] else 0
    requires ByteOf(last4, 3) == ByteOf(last4, 4) == ByteOf(last4, 5) == ByteOf(last4, 6) == ByteOf(last4, 7) == 0
    requires if |bytes| % 4 == 0 then ByteOf(last4, 0) == ByteOf(last4, 1) == ByteOf(last4, 2) == 0
             else var mod4 := |bytes| % 4; var whole := |bytes| - mod4;
                  ByteOf(last4, 0) == bytes[whole] && ByteOf(last4, 1) == bytes[whole + mod4 / 2] && ByteOf(last4, 2) == bytes[whole + mod4 - 1]
    ensures packet == Pad(bytes)
  {
    hide ByteOf;
    forall k | 0 <= k < 32 ensures packet[k] == PadAt(bytes, k) {
      if k < 16 {} else if k >= 24 {} else if k == 16 {} else if k == 17 {} else if k == 18 {} else {
        assert k - 16 == 3 || k - 16 == 4 || k - 16 == 5 || k - 16 == 6 || k - 16 == 7;
      }
    }
  }

  lemma NoBytes()
    ensures ByteOf(0, 0) == ByteOf(0, 1) == ByteOf(0, 2) == ByteOf(0, 3) == ByteOf(0, 4) == ByteOf(0, 5) == ByteOf(0, 6) == ByteOf(0, 7) == 0
  {
  }

  /** UpdateRemainder */
  method PortableRemainder(bytes: seq<byte>, s: State) returns (t: State)
    requires 0 < |bytes| < 32
    ensures t == UpdateRemainder(bytes, s)
  {
    hide UpdatePacket, PortableUpdatePacket, Prepare, Pad;
    var packet := PortablePad(bytes);
    PortablePacket(packet[..], Prepare(|bytes|, s));
    t := PortableUpdatePacket(packet[..], Prepare(|bytes|, s));
  }

  // ------------------------------------------------------------------- finalization

  function PortableRounds(s: State, n: nat): State {
    if n == 0 then s else var t := PortableRounds(s, n - 1); PortableUpdate(Permute(t.v0), t)
  }

  lemma {:induction false} PortableRoundsAreRounds(s: State, n: nat)
    ensures PortableRounds(s, n) == Rounds(s, n)
  {
    hide PortableUpdate, Update, Permute;
    if n > 0 {
      PortableRoundsAreRounds(s, n - 1);
      PortableUpdateIsUpdate(Permute(Rounds(s, n - 1).v0), Rounds(s, n - 1));
    }
  }

  /** Shift128Left<1> and <2>: the high and the low word of a 128-bit number moved left. */
  function ShiftLeft1(a1: bv64, a0: bv64): (bv64, bv64) { ((a1 << 1) | (a0 >> 63), a0 << 1) }

  function ShiftLeft2(a1: bv64, a0: bv64): (bv64, bv64) { ((a1 << 2) | (a0 >> 62), a0 << 2) }

  /** ModularReduction with its two 128-bit shifts. */
  function PortableReduce(a3: bv64, a2: bv64, a1: bv64, a0: bv64): (bv64, bv64) {
    var a3' := a3 & 0x3FFFFFFFFFFFFFFF;
    var once, twice := ShiftLeft1(a3', a2), ShiftLeft2(a3', a2);
    (Differ(Differ(a0, once.1), twice.1), Differ(Differ(a1, once.0), twice.0))
  }

  lemma PortableReduceIsReduce(a3: bv64, a2: bv64, a1: bv64, a0: bv64)
    ensures PortableReduce(a3, a2, a1, a0) == Reduce(a3, a2, a1, a0)
  {
    hide Differ;
  }

  method PortableFinalize64(s: State) returns (hash: bv64)
    ensures hash == Finalize64(s)
  {
    hide Rounds, PortableRounds, Take64;
    PortableRoundsAreRounds(s, 4);
    hash := Take64(PortableRounds(s, 4));
  }

  method PortableFinalize128(s: State) returns (hash: (bv64, bv64))
    ensures hash == Finalize128(s)
  {
    hide Rounds, PortableRounds, Take128;
    PortableRoundsAreRounds(s, 6);
    hash := Take128(PortableRounds(s, 6));
  }

  method PortableFinalize256(s: State) returns (hash: (bv64, bv64, bv64, bv64))
    ensures hash == Finalize256(s)
  {
    hide Rounds, PortableRounds, Reduce, PortableReduce, Plus;
    PortableRoundsAreRounds(s, 10);
    var t := PortableRounds(s, 10);
    var a3, a2, a1, a0 := Plus(t.v1.l1, t.mul1.l1), Plus(t.v1.l0, t.mul1.l0), Plus(t.v0.l1, t.mul0.l1), Plus(t.v0.l0, t.mul0.l0);
    var b3, b2, b1, b0 := Plus(t.v1.l3, t.mul1.l3), Plus(t.v1.l2, t.mul1.l2), Plus(t.v0.l3, t.mul0.l3), Plus(t.v0.l2, t.mul0.l2);
    PortableReduceIsReduce(a3, a2, a1, a0);
    PortableReduceIsReduce(b3, b2, b1, b0);
    var low, high := PortableReduce(a3, a2, a1, a0), PortableReduce(b3, b2, b1, b0);
    hash := (low.0, low.1, high.0, high.1);
  }
}
