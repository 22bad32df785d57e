/** Checksums of libmoon/src/util.c: the one's complement sum of section 2 of RFC 1071
    and the IPv4 pseudo-header sum that is folded from 32-bit lanes.  Memory is
    little-endian. */
module Checksum {
  import opened Common

  const HALF := 0x1_0000

  /** r is the one's complement sum of 16-bit words that add up to `total`: congruent
      modulo 2^16 - 1, and zero only for all zeros. */
  predicate Represents(r: int, total: nat) {
    0 <= r < HALF && r % 65535 == total % 65535 && (r == 0 <==> total == 0)
  }

  lemma OneRepresentative(r: int, s: int, total: nat)
    requires Represents(r, total) && Represents(s, total)
    ensures r == s
  {
  }

  // ------------------------------------------------------------------ get_16b_sum

  newtype byte = x: int | 0 <= x < 256

  /** The words of a buffer added up; a last odd byte is padded with zero. */
  function Words(bytes: seq<byte>): nat {
    if bytes == [] then 0
    else if |bytes| == 1 then bytes[0] as nat
    else (bytes[0] as nat) + 256 * (bytes[1] as nat) + Words(bytes[2..])
  }

  lemma {:induction false} WordsOfConcat(a: seq<byte>, b: seq<byte>)
    requires |a| % 2 == 0
    ensures Words(a + b) == Words(a) + Words(b)
    decreases |a|
  {
    if a == [] {
      assert a + b == b;
    } else {
      assert (a + b)[2..] == a[2..] + b;
      WordsOfConcat(a[2..], b);
    }
  }

  /** get_16b_sum */
  method Sum16(bytes: seq<byte>) returns (r: nat)
    ensures Represents(r, Words(bytes))
  {
    hide Represents, Words;
    var sum, i := 0, 0;
    NoWords();
    while |bytes| - i > 1
      invariant 0 <= i <= |bytes| && i % 2 == 0 && 0 <= sum < HALF && Represents(sum, Words(bytes[..i]))
    {
      var w := (bytes[i] as nat) + 256 * (bytes[i + 1] as nat);
      NextWord(bytes, i);
      AddWord(sum, Words(bytes[..i]), w);
      sum := sum + w;
      if sum > 0xffff { sum := sum - 0xffff; }
      i := i + 2;
    }
    var last := if |bytes| - i > 0 then bytes[i] as nat else 0;
    LastByte(bytes, i);
    AddWord(sum, Words(bytes[..i]), last);
    FoldOnce(sum, last);
    sum := sum + last;
    sum := (sum / HALF) % HALF + sum % HALF;
    r := sum % HALF;
  }

  lemma NoWords()
    ensures Represents(0, Words([]))
  {
  }

  lemma FoldOnce(a: nat, b: nat)
    requires a < HALF && b < HALF
    ensures var s := a + b; ((s / HALF) % HALF + s % HALF) % HALF == Carry(a, b)
  {
  }

  lemma NextWord(bytes: seq<byte>, i: nat)
    requires i + 1 < |bytes| && i % 2 == 0
    ensures Words(bytes[..i + 2]) == Words(bytes[..i]) + (bytes[i] as nat) + 256 * (bytes[i + 1] as nat)
  {
    assert bytes[..i + 2] == bytes[..i] + bytes[i..i + 2];
    WordsOfConcat(bytes[..i], bytes[i..i + 2]);
  }

  lemma LastByte(bytes: seq<byte>, i: nat)
    requires i % 2 == 0 && i <= |bytes| <= i + 1
    ensures Words(bytes) == Words(bytes[..i]) + if |bytes| > i then bytes[i] as nat else 0
  {
    assert bytes == bytes[..i] + bytes[i..];
    WordsOfConcat(bytes[..i], bytes[i..]);
  }

  /** One addition with end-around carry. */
  function Carry(a: nat, b: nat): nat { if a + b > 0xffff then a + b - 0xffff else a + b }

  lemma AddWord(sum: nat, total: nat, w: nat)
    requires Represents(sum, total) && w < HALF
    ensures Represents(Carry(sum, w), total + w)
  {
    AddModulo(sum, total, w);
    DropModulus(sum + w);
  }

  lemma AddModulo(a: nat, b: nat, w: nat)
    requires a % 65535 == b % 65535
    ensures (a + w) % 65535 == (b + w) % 65535
  {
  }

  lemma DropModulus(a: nat)
    ensures a >= 65535 ==> (a - 65535) % 65535 == a % 65535
  {
  }

  // --------------------------------------------------------------- byte order

  function Swap(x: nat): nat requires x < HALF { x % 256 * 256 + x / 256 }

  /** Swapping the bytes of a word multiplies it by 256, modulo 2^16 - 1. */
  lemma SwapMultiplies(x: nat)
    requires x < HALF
    ensures Swap(x) < HALF && Swap(x) % 65535 == 256 * x % 65535 && (Swap(x) == 0 <==> x == 0) && Swap(Swap(x)) == x
  {
    var low, high := x % 256, x / 256;
    SwapParts(low, high);
  }

  lemma SwapParts(low: nat, high: nat)
    requires low < 256 && high < 256
    ensures var x, y := high * 256 + low, low * 256 + high;
            Swap(x) == y && Swap(y) == x && 256 * x == y + 65535 * high && y % 65535 == 256 * x % 65535
  {
    var x, y := high * 256 + low, low * 256 + high;
    assert x / 256 == high && x % 256 == low && y / 256 == low && y % 256 == high;
    SameRemainder(y, high);
  }

  lemma SameRemainder(y: nat, k: nat)
    ensures (y + 65535 * k) % 65535 == y % 65535
  {
  }

  /** The words of a buffer in network order. */
  function NetWords(bytes: seq<byte>): nat {
    if bytes == [] then 0
    else if |bytes| == 1 then 256 * (bytes[0] as nat)
    else 256 * (bytes[0] as nat) + (bytes[1] as nat) + NetWords(bytes[2..])
  }

  lemma {:induction false} NetWordsAreSwapped(bytes: seq<byte>)
    ensures NetWords(bytes) % 65535 == 256 * Words(bytes) % 65535 && (NetWords(bytes) == 0 <==> Words(bytes) == 0)
    decreases |bytes|
  {
    if |bytes| > 1 {
      NetWordsAreSwapped(bytes[2..]);
      SwapParts(bytes[0] as nat, bytes[1] as nat);
      var a, b, w, h := NetWords(bytes[2..]), 256 * Words(bytes[2..]), 256 * (bytes[0] as nat) + (bytes[1] as nat), bytes[1] as nat;
      assert 256 * Words(bytes) == b + w + 65535 * h;
      AddModulo(a, b, w);
      SameRemainder(b + w, h);
    }
  }

  lemma TimesModulo(a: nat, b: nat)
    requires a % 65535 == b % 65535
    ensures 256 * a % 65535 == 256 * b % 65535
  {
    var p, q := a / 65535, b / 65535;
    var r := a % 65535;
    assert 256 * a == 256 * r + 65535 * (256 * p) && 256 * b == 256 * r + 65535 * (256 * q);
    SameRemainder(256 * r, 256 * p);
    SameRemainder(256 * r, 256 * q);
  }

  /** Section 2 (B) of RFC 1071: adding the words as they lie in memory and storing the
      result the same way gives the sum in network order. */
  lemma ByteOrderDoesNotMatter(bytes: seq<byte>, r: nat)
    requires Represents(r, Words(bytes))
    ensures Represents(Swap(r), NetWords(bytes))
  {
    SwapMultiplies(r);
    NetWordsAreSwapped(bytes);
    TimesModulo(r, Words(bytes));
  }

  // ---------------------------------------------------------- the IPv4 pseudo header

  /** The length field minus the header, computed on the swapped value; with a shift
      when the length is below 256. */
  function PsdLength(len: nat): (r: nat)
    requires len < HALF
    ensures r < HALF
  {
    if len % 256 != 0 then Swap((Swap(len) + HALF - 20) % HALF) else (len / 256 - 20) * 256 % HALF
  }

  /** Right exactly for packets that are at least as long as their header. */
  lemma PsdLengthIsRight(length: nat)
    requires length < HALF
    ensures Swap(length) < HALF && (PsdLength(Swap(length)) == Swap((length - 20) % HALF) <==> length >= 20)
  {
    SwapMultiplies(length);
    if length >= 256 { LongLength(length); } else { ShortLength(length); }
    hide Swap, PsdLength;
  }

  lemma LongLength(length: nat)
    requires 256 <= length < HALF
    ensures Swap(length) < HALF && PsdLength(Swap(length)) == Swap((length - 20) % HALF)
  {
    SwapMultiplies(length);
    HighByte(length);
    BackIntoRange(length);
    hide Swap;
  }

  lemma HighByte(length: nat)
    requires length < HALF
    ensures Swap(length) % 256 == length / 256
  {
    SwapParts(length % 256, length / 256);
  }

  lemma BackIntoRange(length: nat)
    requires 20 <= length < HALF
    ensures (length + HALF - 20) % HALF == length - 20 == (length - 20) % HALF
  {
  }

  lemma ShortShift(length: nat)
    requires length < 256
    ensures length * 256 < HALF && PsdLength(length * 256) == (length - 20) * 256 % HALF
  {
    assert length * 256 % 256 == 0 && length * 256 / 256 == length;
    hide Swap;
  }

  lemma ShortWrap(length: nat)
    requires length < 256
    ensures (length - 20) * 256 % HALF == (if length >= 20 then length - 20 else length + 236) * 256
    ensures (length - 20) % HALF == if length >= 20 then length - 20 else 255 * 256 + (length + 236)
  {
  }

  lemma ShortLength(length: nat)
    requires length < 256
    ensures Swap(length) == length * 256 < HALF
    ensures PsdLength(Swap(length)) == (if length >= 20 then length - 20 else length + 236) * 256
    ensures Swap((length - 20) % HALF) == if length >= 20 then (length - 20) * 256 else (length + 236) * 256 + 255
  {
    hide Swap, PsdLength;
    ShortShift(length);
    ShortWrap(length);
    SwapParts(length, 0);
    if length >= 20 { SwapParts(length - 20, 0); } else { SwapParts(length + 236, 255); }
  }

  function Fold32(sum: nat): (r: nat)
    ensures r < WORD
  {
    var lower, upper := sum % WORD, sum / WORD % WORD;
    var s := (lower + upper) % WORD;
    if s < upper then (s + 1) % WORD else s
  }

  function Fold16(x: nat): (r: nat)
    requires x < WORD
    ensures r < HALF
  {
    var lower, upper := x % HALF, x / HALF;
    var s := (lower + upper) % HALF;
    if s < upper then (s + 1) % HALF else s
  }

  /** The third 64-bit summand: protocol and length in one 32-bit value, whose sign the
      conversion from int extends. */
  function Tail(proto: nat, len: nat): nat requires proto < 256 && len < HALF {
    var x := proto * 0x100_0000 + len;
    if proto < 128 then x else RANGE - WORD + x
  }

  /** get_ipv4_psd_sum */
  function PsdSum(src: nat, dst: nat, proto: nat, len: nat): nat
    requires src < WORD && dst < WORD && proto < 256 && len < HALF
  {
    Fold16(Fold32((src + dst + Tail(proto, PsdLength(len))) % RANGE))
  }

  /** The pseudo header as 16-bit words. */
  function PsdWords(src: nat, dst: nat, proto: nat, len: nat): nat {
    src % HALF + src / HALF + dst % HALF + dst / HALF + proto * 256 + len
  }

  lemma Fold16Represents(x: nat)
    requires x < WORD
    ensures Represents(Fold16(x), x % HALF + x / HALF)
  {
  }

  lemma Lanes(sum: nat)
    requires sum < 3 * WORD
    ensures 0 <= sum / WORD < 3 && sum / WORD % WORD == sum / WORD && sum == sum / WORD * WORD + sum % WORD
  {
  }

  lemma AddLanes(lower: nat, upper: nat)
    requires lower < WORD && upper < WORD
    ensures (lower + upper) % WORD == if lower + upper < WORD then lower + upper else lower + upper - WORD
  {
  }

  /** Folding 32-bit lanes: at most two carries come back in. */
  lemma Fold32Keeps(sum: nat)
    requires sum < 3 * WORD
    ensures Fold32(sum) == sum % WORD + sum / WORD || Fold32(sum) == sum % WORD + sum / WORD - (WORD - 1)
    ensures Fold32(sum) == 0 <==> sum == 0
  {
    Lanes(sum);
    AddLanes(sum % WORD, sum / WORD);
  }

  /** Halves instead of wholes change nothing modulo 2^16 - 1. */
  lemma Halves(x: nat)
    ensures x == x % HALF + x / HALF + 65535 * (x / HALF)
    ensures x % 65535 == (x % HALF + x / HALF) % 65535 && (x == 0 <==> x % HALF + x / HALF == 0)
  {
  }

  lemma Fold32Modulo(sum: nat)
    requires sum < 3 * WORD
    ensures Fold32(sum) % 65535 == sum % 65535 && (Fold32(sum) == 0 <==> sum == 0)
  {
    Fold32Keeps(sum);
    var f, u := Fold32(sum), sum / WORD;
    assert sum == sum % WORD + u + 65535 * (65537 * u);
    if f == sum % WORD + u {
      SameRemainder(f, 65537 * u);
    } else {
      assert u > 0 && sum == f + 65535 * (65537 * (u + 1));
      SameRemainder(f, 65537 * (u + 1));
    }
  }

  lemma PsdWordsModulo(src: nat, dst: nat, proto: nat, len: nat)
    requires src < WORD && dst < WORD && proto < 256 && len < HALF
    ensures var sum, words := src + dst + (proto * 0x100_0000 + len), PsdWords(src, dst, proto, len);
            sum % 65535 == words % 65535 && (sum == 0 <==> words == 0)
  {
    var k := src / HALF + dst / HALF + proto * 256;
    var sum, words := src + dst + (proto * 0x100_0000 + len), PsdWords(src, dst, proto, len);
    assert sum == words + 65535 * k;
    SameRemainder(words, k);
  }

  lemma FoldedRepresents(f: nat, total: nat)
    requires f < WORD && f % 65535 == total % 65535 && (f == 0 <==> total == 0)
    ensures Represents(Fold16(f), total)
  {
    Fold16Represents(f);
    Halves(f);
  }

  /** A sum that lost 2^32 in the sign extension is off by one. */
  lemma OffByOne(sum: nat)
    requires WORD <= sum < 3 * WORD
    ensures (Fold32(sum - WORD) + 1) % 65535 == sum % 65535
  {
    Fold32Modulo(sum - WORD);
    var y := sum - WORD;
    assert sum == y + 1 + 65535 * 65537;
    SameRemainder(y + 1, 65537);
    AddModulo(Fold32(y), y, 1);
  }

  lemma Differs(a: nat, b: nat, k: nat)
    requires (a + k) % 65535 == b % 65535 && 0 < k < 65535
    ensures a % 65535 != b % 65535
  {
  }

  /** Without a carry the extended sign comes back as a carry and does no harm. */
  lemma Harmless(sum: nat)
    requires 0 < sum < WORD
    ensures Fold32(RANGE - WORD + sum) == sum
  {
    var x := RANGE - WORD + sum;
    assert x / WORD == WORD - 1 && x % WORD == sum;
    assert (sum + (WORD - 1)) % WORD == sum - 1;
  }

  /** What the code computes from the length it made: the one's complement sum of those words,
      exactly when the protocol is below 128 or the three 32-bit lanes add up without a
      carry; otherwise it is one too small. */
  lemma PsdSumIsRight(src: nat, dst: nat, proto: nat, len: nat)
    requires src < WORD && dst < WORD && proto < 256 && len < HALF
    ensures var r, words := PsdSum(src, dst, proto, len), PsdWords(src, dst, proto, PsdLength(len));
            var right := proto < 128 || src + dst + (proto * 0x100_0000 + PsdLength(len)) < WORD;
            && (Represents(r, words) <==> right) && (!right ==> (r + 1) % 65535 == words % 65535)
  {
    hide Fold32, Fold16, Represents, PsdWords, PsdLength, Tail;
    var l := PsdLength(len);
    var sum, total := src + dst + (proto * 0x100_0000 + l), PsdWords(src, dst, proto, l);
    PsdWordsModulo(src, dst, proto, l);
    LanesAdded(src, dst, proto, l);
    if proto < 128 {
      Fold32Modulo(sum);
      FoldedRepresents(Fold32(sum), total);
    } else if sum < WORD {
      Harmless(sum);
      FoldedRepresents(sum, total);
    } else {
      OffByOne(sum);
      var f := Fold32(sum - WORD);
      FoldedModulo(f);
      AddModulo(Fold16(f), f, 1);
      Differs(Fold16(f), total, 1);
      NotRepresented(Fold16(f), total);
    }
  }

  lemma FoldedModulo(f: nat)
    requires f < WORD
    ensures Fold16(f) % 65535 == f % 65535
  {
    Fold16Represents(f);
    Halves(f);
  }

  lemma NotRepresented(r: nat, total: nat)
    requires r % 65535 != total % 65535
    ensures !Represents(r, total)
  {
  }

  /** The 64-bit sum of the lanes. */
  lemma LanesAdded(src: nat, dst: nat, proto: nat, len: nat)
    requires src < WORD && dst < WORD && proto < 256 && len < HALF
    ensures var sum := src + dst + (proto * 0x100_0000 + len);
            && sum < 3 * WORD && (proto >= 128 ==> sum > 0)
            && (src + dst + Tail(proto, len)) % RANGE ==
               if proto < 128 then sum else if sum < WORD then RANGE - WORD + sum else sum - WORD
  {
  }

  // ------------------------------------------------------ against the bytes of the header

  /** A 32-bit field as the code loads it. */
  function Load32(b: seq<byte>): (r: nat)
    requires |b| == 4
    ensures r < WORD
  {
    (b[0] as nat) + 0x100 * (b[1] as nat) + 0x1_0000 * (b[2] as nat) + 0x100_0000 * (b[3] as nat)
  }

  /** The pseudo header of section 3.1 of RFC 793: addresses, a zero byte, the protocol and the
      length of what follows the IP header. */
  function PseudoHeader(src: seq<byte>, dst: seq<byte>, proto: byte, l4: nat): seq<byte>
    requires |src| == |dst| == 4 && l4 < HALF
  {
    src + dst + [0, proto, (l4 / 256) as byte, (l4 % 256) as byte]
  }

  lemma WordsOfFour(b: seq<byte>)
    requires |b| == 4
    ensures Words(b) == Load32(b) % HALF + Load32(b) / HALF
  {
    var low, high := (b[0] as nat) + 256 * (b[1] as nat), (b[2] as nat) + 256 * (b[3] as nat);
    assert Words(b[2..]) == high + Words(b[2..][2..]);
    assert Load32(b) == low + HALF * high;
  }

  lemma PseudoHeaderWords(src: seq<byte>, dst: seq<byte>, proto: byte, l4: nat)
    requires |src| == |dst| == 4 && l4 < HALF
    ensures Words(PseudoHeader(src, dst, proto, l4)) == PsdWords(Load32(src), Load32(dst), proto as nat, Swap(l4))
  {
    var tail := [0, proto, (l4 / 256) as byte, (l4 % 256) as byte];
    WordsOfFour(src);
    WordsOfFour(dst);
    hide Load32;
    WordsOfConcat(src + dst, tail);
    WordsOfConcat(src, dst);
    assert tail[2..] == [(l4 / 256) as byte, (l4 % 256) as byte];
    assert Words(tail[2..]) == Swap(l4);
  }

  lemma ShortPackets(length: nat)
    requires length < 20
    ensures Swap(length) < HALF && Swap((length - 20) % HALF) == PsdLength(Swap(length)) + 255
  {
    ShortLength(length);
    hide Swap, PsdLength;
  }

  /** get_ipv4_psd_sum gives the one's complement sum of the twelve bytes of the pseudo header
      exactly when the packet is as long as its header and the protocol is below 128 or the
      lanes add up without a carry. */
  lemma PseudoHeaderSum(src: seq<byte>, dst: seq<byte>, proto: byte, length: nat)
    requires |src| == |dst| == 4 && length < HALF
    ensures var l4 := (length - 20) % HALF;
            && Swap(length) < HALF
            && (Represents(PsdSum(Load32(src), Load32(dst), proto as nat, Swap(length)), Words(PseudoHeader(src, dst, proto, l4)))
                <==> length >= 20 && (proto < 128 || Load32(src) + Load32(dst) + (proto as nat) * 0x100_0000 + Swap(l4) < WORD))
  {
    hide Load32, PseudoHeader, PsdSum, PsdLength, Swap, Words, Represents, PsdWords;
    PsdLengthIsRight(length);
    var l4, len := (length - 20) % HALF, Swap(length);
    var r, made := PsdSum(Load32(src), Load32(dst), proto as nat, len), PsdWords(Load32(src), Load32(dst), proto as nat, PsdLength(len));
    PseudoHeaderWords(src, dst, proto, l4);
    PsdSumIsRight(Load32(src), Load32(dst), proto as nat, len);
    if length < 20 {
      ShortPackets(length);
      TwoLengths(Load32(src), Load32(dst), proto as nat, PsdLength(len));
      TooSmall(r, made);
    }
  }

  lemma TwoLengths(src: nat, dst: nat, proto: nat, len: nat)
    ensures PsdWords(src, dst, proto, len + 255) == PsdWords(src, dst, proto, len) + 255
  {
  }

  /** Neither the missing 255 nor the missing 256 goes unnoticed. */
  lemma TooSmall(r: nat, made: nat)
    requires Represents(r, made) || (r + 1) % 65535 == made % 65535
    ensures !Represents(r, made + 255)
  {
    if Represents(r, made) {
      AddModulo(r, made, 255);
      Differs(r, made + 255, 255);
    } else {
      AddModulo(r + 1, made, 255);
      Differs(r, made + 255, 256);
    }
  }

  lemma AllOnesFolded()
    ensures PsdLength(5120) == 0 && Fold16(Fold32(0x1_feff_fffe)) == 0xfeff
    ensures (0xffff_ffff + 0xffff_ffff + Tail(255, 0)) % RANGE == 0x1_feff_fffe
  {
    assert Fold32(0x1_feff_fffe) == 0xfeff_ffff;
    assert Fold16(0xfeff_ffff) == 0xfeff;
  }

  /** Protocol 255 between two addresses of all ones, with nothing behind the IP header: the code
      gives 0xfeff instead of 0xff00. */
  lemma AllOnes(ones: seq<byte>)
    requires ones == [255, 255, 255, 255]
    ensures Swap(20) < HALF && PsdSum(Load32(ones), Load32(ones), 255, Swap(20)) == 0xfeff
    ensures Represents(0xff00, Words(PseudoHeader(ones, ones, 255, 0)))
  {
    assert Load32(ones) == 0xffff_ffff && Swap(20) == 5120;
    AllOnesFolded();
    PseudoHeaderWords(ones, ones, 255, 0);
    assert PsdWords(0xffff_ffff, 0xffff_ffff, 255, 0) == 0xff00 + 4 * 65535;
    SameRemainder(0xff00, 4);
    hide Fold16, Fold32, Tail, PsdLength, Words, PseudoHeader, Load32;
  }
}
