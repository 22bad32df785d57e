/** One-shot hashing and the two appenders: HighwayHashCat of c/highwayhash.c and
    HighwayHashCatT of highwayhash/highwayhash.h. */
module HighwayCat {
  import opened Highway
  import opened HighwayBytes
  import opened HighwayPortable

  /** HighwayHashUpdateRemainder's packet, built as the program builds it. */
  method PadPacket(bytes: seq<byte>) returns (packet: array<byte>)
    requires 0 < |bytes| < 32
    ensures fresh(packet) && packet[..] == Pad(bytes)
  {
    var n := |bytes|;
    var whole := n - n % 4;
    packet := new byte[32](_ => 0);
    var i := 0;
    while i < whole
      invariant 0 <= i <= whole && forall k :: 0 <= k < 32 ==> packet[k] == if k < i then bytes[k] else 0
    {
      packet[i] := bytes[i];
      i := i + 1;
    }
    if n >= 16 { PadEnd(bytes, packet); } else { PadMiddle(bytes, packet); }
  }

  /** 16 to 31 bytes: the last four of them go to the end. */
  method PadEnd(bytes: seq<byte>, packet: array<byte>)
    requires 16 <= |bytes| < 32 && WholeGroups(bytes, packet[..])
    modifies packet
    ensures packet[..] == Pad(bytes)
  {
    var mod4 := |bytes| % 4;
    var whole := |bytes| - mod4;
    var i := 0;
    while i < 4
      invariant 0 <= i <= 4
      invariant forall k :: 0 <= k < 32 ==> packet[k] == if 28 <= k < 28 + i then PadAt(bytes, k) else if k < whole then bytes[k] else 0
    {
      packet[28 + i] := bytes[whole + i + mod4 - 4];
      i := i + 1;
    }
  }

  /** Up to 15 bytes: the last three at most go to the middle. */
  method PadMiddle(bytes: seq<byte>, packet: array<byte>)
    requires 0 < |bytes| < 16 && WholeGroups(bytes, packet[..])
    modifies packet
    ensures packet[..] == Pad(bytes)
  {
    var mod4 := |bytes| % 4;
    var whole := |bytes| - mod4;
    if mod4 != 0 {
      packet[16] := bytes[whole];
      packet[17] := bytes[whole + mod4 / 2];
      packet[18] := bytes[whole + mod4 - 1];
    }
    forall k | 0 <= k < 32 ensures packet[k] == PadAt(bytes, k) {
      if k < whole {} else if k == 16 {} else if k == 17 {} else if k == 18 {} else {}
    }
  }

  /** HighwayHashUpdateRemainder */
  method Remainder(bytes: seq<byte>, s: State) returns (t: State)
    requires 0 < |bytes| < 32
    ensures t == UpdateRemainder(bytes, s)
  {
    hide UpdatePacket, Prepare, Pad;
    var packet := PadPacket(bytes);
    t := UpdatePacket(packet[..], Prepare(|bytes|, s));
  }

  /** ProcessAll */
  method ProcessAll(data: seq<byte>, key: Lanes) returns (s: State)
    ensures s == Process(Reset(key), data)
  {
    hide UpdatePacket, UpdateRemainder, Reset;
    s := Reset(key);
    var i := 0;
    while i + 32 <= |data|
      invariant 0 <= i <= |data| && i % 32 == 0 && s == Packets(Reset(key), data[..i])
    {
      Fills(Reset(key), data[..i], data[i..i + 32]);
      assert data[..i] + data[i..i + 32] == data[..i + 32];
      assert Rest(data[..i]) + data[i..i + 32] == data[i..i + 32];
      s := UpdatePacket(data[i..i + 32], s);
      i := i + 32;
    }
    PacketsOfFront(Reset(key), data);
    assert data[..i] == Front(data) && data[i..] == Rest(data);
    if |data| % 32 != 0 { s := Remainder(data[i..], s); }
  }

  /** The data gone in so far is all in the state, but for the rest in the buffer. */
  ghost predicate Holds(key: Lanes, data: seq<byte>, s: State, buffer: seq<byte>, num: nat) {
    && s == Packets(Reset(key), data)
    && |buffer| == 32 && num == |data| % 32 && buffer[..num] == Rest(data)
  }

  /** A packet taken straight from the source when the buffer is empty. */
  lemma HoldsPacket(key: Lanes, data: seq<byte>, s: State, buffer: seq<byte>, x: seq<byte>)
    requires Holds(key, data, s, buffer, 0) && |x| == 32
    ensures Holds(key, data + x, UpdatePacket(x, s), buffer, 0)
  {
    hide UpdatePacket, Packets, Reset;
    Fills(Reset(key), data, x);
    assert Rest(data) + x == x;
  }

  /** A packet made of the buffer and the next bytes. */
  lemma HoldsFull(key: Lanes, data: seq<byte>, s: State, buffer: seq<byte>, num: nat, x: seq<byte>, buffer': seq<byte>)
    requires Holds(key, data, s, buffer, num) && num + |x| == 32 && |buffer'| == 32
    ensures |buffer[..num] + x| == 32 && Holds(key, data + x, UpdatePacket(buffer[..num] + x, s), buffer', 0)
  {
    hide UpdatePacket, Packets, Reset;
    Fills(Reset(key), data, x);
  }

  /** Bytes that go behind those in the buffer. */
  lemma HoldsMore(key: Lanes, data: seq<byte>, s: State, buffer: seq<byte>, num: nat, x: seq<byte>, buffer': seq<byte>)
    requires Holds(key, data, s, buffer, num) && num + |x| < 32 && |buffer'| == 32 && buffer'[..num + |x|] == buffer[..num] + x
    ensures Holds(key, data + x, s, buffer', num + |x|)
  {
    hide UpdatePacket, Packets, Reset;
    Fits(Reset(key), data, x);
  }

  lemma NumIsSmall(key: Lanes, data: seq<byte>, s: State, buffer: seq<byte>, num: nat)
    requires Holds(key, data, s, buffer, num)
    ensures num < 32
  {
  }

  /** HighwayHashCat */
  class Cat {
    var state: State
    const packet: array<byte>
    var num: nat

    ghost const key: Lanes
    ghost var data: seq<byte>

    ghost predicate Valid() reads this, packet {
      packet.Length == 32 && Holds(key, data, state, packet[..], num)
    }

    /** HighwayHashCatStart */
    constructor (key: Lanes)
      ensures Valid() && this.key == key && data == [] && fresh(packet)
    {
      state := Reset(key);
      packet := new byte[32];
      num := 0;
      this.key := key;
      data := [];
      new;
      hide Reset;
    }

    /** The loop that copies bytes behind those in the buffer. */
    method Copy(bytes: seq<byte>)
      requires packet.Length == 32 && num + |bytes| <= 32
      modifies packet, this`num
      ensures num == old(num) + |bytes| && packet[..num] == old(packet[..num]) + bytes
    {
      var i := 0;
      while i < |bytes|
        invariant 0 <= i <= |bytes| && num == old(num) + i && packet[..num] == old(packet[..num]) + bytes[..i]
      {
        packet[num] := bytes[i];
        num := num + 1;
        i := i + 1;
      }
      assert bytes[..i] == bytes;
    }

    /** HighwayHashCatAppend */
    method Append(bytes: seq<byte>)
      requires Valid()
      modifies this, packet
      ensures Valid() && data == old(data) + bytes
    {
      hide Holds;
      var rest := bytes;
      if num != 0 {
        NumIsSmall(key, data, state, packet[..], num);
        var add := if |rest| > 32 - num then 32 - num else |rest|;
        Top(rest[..add]);
        rest := rest[add..];
      }
      assert data + rest == old(data) + bytes;
      if num == 0 { Whole(rest); }
    }

    /** The first part: fill the buffer, and update when it is full. */
    method Top(bytes: seq<byte>)
      requires Valid() && num + |bytes| <= 32
      modifies this, packet
      ensures Valid() && data == old(data) + bytes
      ensures num == if old(num) + |bytes| == 32 then 0 else old(num) + |bytes|
    {
      hide Holds, UpdatePacket;
      ghost var before, n := packet[..], num;
      assert before[..n] == packet[..n];
      Copy(bytes);
      if num == 32 {
        HoldsFull(key, data, state, before, n, bytes, packet[..]);
        assert packet[..] == packet[..32];
        state := UpdatePacket(packet[..], state);
        num := 0;
      } else {
        assert packet[..][..num] == packet[..num];
        HoldsMore(key, data, state, before, n, bytes, packet[..]);
      }
      data := data + bytes;
    }

    /** The rest, from an empty buffer: packets straight from the source, then the tail. */
    method Whole(bytes: seq<byte>)
      requires Valid() && num == 0
      modifies this, packet
      ensures Valid() && data == old(data) + bytes
    {
      hide Holds, UpdatePacket;
      var i := 0;
      while i + 32 <= |bytes|
        invariant 0 <= i <= |bytes| && Valid() && num == 0 && data == old(data) + bytes[..i]
      {
        HoldsPacket(key, data, state, packet[..], bytes[i..i + 32]);
        state := UpdatePacket(bytes[i..i + 32], state);
        data := data + bytes[i..i + 32];
        i := i + 32;
      }
      Top(bytes[i..]);
    }

    /** HighwayHashCatFinish64, 128 and 256 up to the rounds. */
    method Finish() returns (s: State)
      requires Valid()
      ensures s == Process(Reset(key), data)
    {
      hide UpdateRemainder, Packets, Reset;
      s := state;
      if num != 0 { s := Remainder(packet[..num], s); }
    }

    method Finish64() returns (hash: bv64)
      requires Valid()
      ensures hash == Finalize64(Process(Reset(key), data))
    {
      hide Process, Reset, Rounds, Valid;
      var s := Finish();
      hash := Finalize64(s);
    }

    method Finish128() returns (hash: (bv64, bv64))
      requires Valid()
      ensures hash == Finalize128(Process(Reset(key), data))
    {
      hide Process, Reset, Rounds, Valid;
      var s := Finish();
      hash := Finalize128(s);
    }

    method Finish256() returns (hash: (bv64, bv64, bv64, bv64))
      requires Valid()
      ensures hash == Finalize256(Process(Reset(key), data))
    {
      hide Process, Reset, Rounds, Valid;
      var s := Finish();
      hash := Finalize256(s);
    }
  }

  /** HighwayHashCatT over the portable state. */
  class CatT {
    var state: State
    const buffer: array<byte>
    var usage: nat

    ghost const key: Lanes
    ghost var data: seq<byte>

    ghost predicate Valid() reads this, buffer {
      buffer.Length == 32 && Holds(key, data, state, buffer[..], usage)
    }

    constructor (key: Lanes)
      ensures Valid() && this.key == key && data == [] && fresh(buffer)
    {
      state := Reset(key);
      buffer := new byte[32](_ => 0);
      usage := 0;
      this.key := key;
      data := [];
      new;
      hide Reset;
    }

    /** CopyPartial with `valid` 0, AppendPartial otherwise. */
    method AppendPartial(from: seq<byte>, valid: nat)
      requires buffer.Length == 32 && valid + |from| <= 32
      modifies buffer
      ensures buffer[..valid + |from|] == old(buffer[..valid]) + from
    {
      var i := 0;
      while i < |from|
        invariant 0 <= i <= |from| && buffer[..valid + i] == old(buffer[..valid]) + from[..i]
      {
        buffer[valid + i] := from[i];
        i := i + 1;
      }
      assert from[..i] == from;
    }

    /** Append */
    method Append(bytes: seq<byte>)
      requires Valid()
      modifies this, buffer
      ensures Valid() && data == old(data) + bytes
    {
      hide Holds, UpdatePacket;
      NumIsSmall(key, data, state, buffer[..], usage);
      var capacity := 32 - usage;
      ghost var before := buffer[..];
      assert before[..usage] == buffer[..usage];
      if |bytes| < capacity {
        AppendPartial(bytes, usage);
        assert buffer[..][..usage + |bytes|] == buffer[..usage + |bytes|];
        HoldsMore(key, data, state, before, usage, bytes, buffer[..]);
        usage := usage + |bytes|;
        data := data + bytes;
        return;
      }
      Flush(bytes, capacity);
    }

    /** The part of Append that updates: the buffer is emptied into the first packet but
        not written, and `usage` is stale until it is set at the end. */
    method Flush(bytes: seq<byte>, capacity: nat)
      requires Valid() && usage <= 32 && capacity == 32 - usage <= |bytes|
      modifies this, buffer
      ensures Valid() && data == old(data) + bytes
    {
      hide Holds, UpdatePacket, PortableUpdatePacket;
      var copy, i := state, 0;
      assert data + bytes[..0] == data;
      if usage != 0 {
        HoldsFull(key, data, copy, buffer[..], usage, bytes[..capacity], buffer[..]);
        assert buffer[..][..usage] == buffer[..usage];
        PortablePacket(buffer[..usage] + bytes[..capacity], copy);
        copy := PortableUpdatePacket(buffer[..usage] + bytes[..capacity], copy);
        i := capacity;
      }
      while i + 32 <= |bytes|
        invariant 0 <= i <= |bytes| && Holds(key, old(data) + bytes[..i], copy, buffer[..], 0)
      {
        HoldsPacket(key, old(data) + bytes[..i], copy, buffer[..], bytes[i..i + 32]);
        assert old(data) + bytes[..i] + bytes[i..i + 32] == old(data) + bytes[..i + 32];
        PortablePacket(bytes[i..i + 32], copy);
        copy := PortableUpdatePacket(bytes[i..i + 32], copy);
        i := i + 32;
      }
      ghost var before := buffer[..];
      usage := |bytes| - i;
      state := copy;
      if usage != 0 { AppendPartial(bytes[i..], 0); }
      assert buffer[..][..usage] == buffer[..usage] == before[..0] + bytes[i..];
      HoldsMore(key, old(data) + bytes[..i], copy, before, 0, bytes[i..], buffer[..]);
      assert old(data) + bytes[..i] + bytes[i..] == old(data) + bytes;
      data := old(data) + bytes;
    }

    /** Finalize up to the rounds. */
    method Absorbed() returns (s: State)
      requires Valid()
      ensures s == Process(Reset(key), data)
    {
      hide UpdateRemainder, Packets, Reset;
      s := state;
      if usage != 0 { s := PortableRemainder(buffer[..usage], s); }
    }

    method Hash64() returns (hash: bv64)
      requires Valid()
      ensures hash == Finalize64(Process(Reset(key), data))
    {
      hide Process, Reset, Rounds, Valid;
      var s := Absorbed();
      hash := PortableFinalize64(s);
    }

    method Hash128() returns (hash: (bv64, bv64))
      requires Valid()
      ensures hash == Finalize128(Process(Reset(key), data))
    {
      hide Process, Reset, Rounds, Valid;
      var s := Absorbed();
      hash := PortableFinalize128(s);
    }

    method Hash256() returns (hash: (bv64, bv64, bv64, bv64))
      requires Valid()
      ensures hash == Finalize256(Process(Reset(key), data))
    {
      hide Process, Reset, Rounds, Valid;
      var s := Absorbed();
      hash := PortableFinalize256(s);
    }
  }

  function Flatten(parts: seq<seq<byte>>): seq<byte> {
    if parts == [] then [] else Flatten(parts[..|parts| - 1]) + parts[|parts| - 1]
  }

  /** However a message is cut into parts, both appenders end in the state of the
      one-shot form, and so give its 64-, 128- and 256-bit hashes. */
  method AllAgree(key: Lanes, parts: seq<seq<byte>>) returns (c: State, cpp: State, once: State)
    ensures c == cpp == once == Process(Reset(key), Flatten(parts))
  {
    hide Process, Reset, Holds;
    var cat := new Cat(key);
    var catT := new CatT(key);
    var i := 0;
    assert parts[..0] == [];
    while i < |parts|
      invariant 0 <= i <= |parts| && cat.Valid() && catT.Valid() && cat.data == catT.data == Flatten(parts[..i])
      invariant cat.key == catT.key == key && fresh(cat) && fresh(catT) && fresh(cat.packet) && fresh(catT.buffer)
    {
      cat.Append(parts[i]);
      catT.Append(parts[i]);
      assert parts[..i + 1][..i] == parts[..i];
      i := i + 1;
    }
    assert parts[..i] == parts;
    c := cat.Finish();
    cpp := catT.Absorbed();
    once := ProcessAll(Flatten(parts), key);
  }
}
