/** The software rate limiter of src/crc-rate-limiter.c: gaps between packets are
    filled with frames that carry a bad checksum. */
module RateLimiter {
  import opened Common

  const BUF_SIZE := 128

  /** A frame handed to the device: a packet of the load, or a filler of a length. */
  datatype Frame = Load(id: int) | Filler(len: nat)

  /** A packet of the load; the low half of `udata` is the gap wanted before it, in bytes
      on the wire. */
  datatype Request = Request(id: int, udata: nat)

  function Gap(r: Request): nat { r.udata % WORD }

  /** The wire size of the next filler. */
  function Size(delay: nat): nat {
    if delay < 1538 then delay else if delay > 2000 then 1538 else delay / 2
  }

  /** What is left of the gap after a filler. */
  function Left(rem: nat, size: nat): nat { if size > rem then 0 else rem - size }

  /** The fillers for one gap and the carry it leaves, from the carry found. */
  function Fill(rem: nat, carry: nat, min: nat): (seq<nat>, nat)
    decreases rem
  {
    if rem == 0 then ([], carry)
    else if rem + carry < min then ([], rem + carry)
    else
      var size := Size(rem + carry);
      var more := Fill(Left(rem, size), 0, min);
      ([size] + more.0, more.1)
  }

  function Total(sizes: seq<nat>): nat { if sizes == [] then 0 else sizes[0] + Total(sizes[1..]) }

  /** A carry is always too small for a filler of its own. */
  predicate Small(carry: nat, min: nat) { carry == 0 || carry < min }

  /** What a gap loses: the carry found, when the gap is large enough to be cut. */
  function Lost(rem: nat, carry: nat, min: nat): nat {
    if rem == 0 || rem + carry < 1538 || rem + carry < min then 0
    else if Size(rem + carry) > rem then rem + carry - Size(rem + carry)
    else carry
  }

  /** Without a carry nothing is lost. */
  lemma {:induction false} FillIsExact(rem: nat, min: nat)
    ensures Total(Fill(rem, 0, min).0) + Fill(rem, 0, min).1 == rem && Small(Fill(rem, 0, min).1, min)
    decreases rem
  {
    if rem > 0 && rem >= min { FillIsExact(Left(rem, Size(rem)), min); }
  }

  /** Filler bytes and the new carry never exceed what was asked for and carried; the
      difference is less than the minimum size, and nothing when gap and carry stay below 1538. */
  lemma Balance(rem: nat, carry: nat, min: nat)
    requires Small(carry, min)
    ensures var r := Fill(rem, carry, min);
            && Total(r.0) + r.1 + Lost(rem, carry, min) == rem + carry
            && Small(r.1, min) && Lost(rem, carry, min) <= carry
            && (rem + carry < 1538 ==> Lost(rem, carry, min) == 0)
  {
  }

  /** Up to a minimum of 464 exactly the carry is lost, beyond it can be less. */
  lemma LossIsTheCarry(min: nat)
    ensures (forall rem: nat, carry: nat :: carry < min && rem > 0 && rem + carry >= 1538 && rem + carry >= min ==> Lost(rem, carry, min) == carry)
            <==> min <= 464
  {
    if min > 464 {
      var rem, carry := if min <= 2001 then 1537 else 1, if min <= 2001 then 464 else min - 1;
      assert Lost(rem, carry, min) < carry;
    }
  }

  /** No filler is longer than 1538 bytes on the wire, and none is shorter than the
      minimum as long as that is at most 769, half of the smallest gap that is halved. */
  lemma {:induction false} FillerSizes(rem: nat, carry: nat, min: nat, k: nat)
    requires k < |Fill(rem, carry, min).0|
    ensures var size := Fill(rem, carry, min).0[k]; 0 < size <= 1538 && (size >= min || size >= 769)
    decreases rem
  {
    if k > 0 { FillerSizes(Left(rem, Size(rem + carry)), 0, min, k - 1); }
  }

  /** Above 769 there are always gaps whose first filler is below the minimum. */
  lemma ShortFiller(min: nat)
    requires min > 769
    ensures var rem := if min <= 1538 then 1538 else min; Fill(rem, 0, min).0 != [] && Fill(rem, 0, min).0[0] < min
  {
  }

  // -------------------------------------------------------------- a whole call

  /** The 32-bit length field of a filler: preamble, start and gap are not part of it. */
  function Length(size: nat): nat { if size >= 20 then size - 20 else WORD + size - 20 }

  function Frames(sizes: seq<nat>): (f: seq<Frame>)
    ensures |f| == |sizes| && forall k :: 0 <= k < |f| ==> f[k] == Filler(Length(sizes[k]))
  {
    seq(|sizes|, k requires 0 <= k < |sizes| => Filler(Length(sizes[k])))
  }

  /** Everything sent for the load, in order, and the carry left. */
  function Output(load: seq<Request>, carry: nat, min: nat): (seq<Frame>, nat) {
    if load == [] then ([], carry)
    else
      var n := |load| - 1;
      var before := Output(load[..n], carry, min);
      var fill := Fill(Gap(load[n]), before.1, min);
      (before.0 + Frames(fill.0) + [Load(load[n].id)], fill.1)
  }

  function Asked(load: seq<Request>): nat { if load == [] then 0 else Asked(load[..|load| - 1]) + Gap(load[|load| - 1]) }

  /** Bytes that the fillers among the frames take on the wire. */
  function FillerBytes(frames: seq<Frame>): nat {
    if frames == [] then 0
    else FillerBytes(frames[..|frames| - 1]) + match frames[|frames| - 1] case Filler(len) => len + 20 case Load(_) => 0
  }

  /** The packets of the load among the frames. */
  function Loads(frames: seq<Frame>): seq<int> {
    if frames == [] then []
    else Loads(frames[..|frames| - 1]) + match frames[|frames| - 1] case Filler(_) => [] case Load(id) => [id]
  }

  /** The statistics of a call: fillers sent, and their bytes from address to checksum. */
  function BadPkts(frames: seq<Frame>): nat {
    if frames == [] then 0 else BadPkts(frames[..|frames| - 1]) + if frames[|frames| - 1].Filler? then 1 else 0
  }

  function BadBytes(frames: seq<Frame>): nat {
    if frames == [] then 0
    else BadBytes(frames[..|frames| - 1]) + match frames[|frames| - 1] case Filler(len) => len + 24 case Load(_) => 0
  }

  /** How many gaps, with the carry found, were large enough to be cut. */
  function Cut(load: seq<Request>, carry: nat, min: nat): nat {
    if load == [] then 0
    else
      var n := |load| - 1;
      Cut(load[..n], carry, min) + if Gap(load[n]) + Output(load[..n], carry, min).1 >= 1538 then 1 else 0
  }

  lemma {:induction false} AppendFillers(frames: seq<Frame>, sizes: seq<nat>)
    ensures Loads(frames + Frames(sizes)) == Loads(frames)
    ensures (forall k :: 0 <= k < |sizes| ==> sizes[k] >= 20) ==> FillerBytes(frames + Frames(sizes)) == FillerBytes(frames) + Total(sizes)
    decreases |sizes|
  {
    if sizes == [] {
      assert frames + Frames(sizes) == frames;
    } else {
      var more := frames + [Filler(Length(sizes[0]))];
      assert more[..|frames|] == frames;
      assert frames + Frames(sizes) == more + Frames(sizes[1..]);
      AppendFillers(more, sizes[1..]);
    }
  }

  lemma WideEnough(rem: nat, carry: nat, min: nat)
    requires min > 20
    ensures forall k :: 0 <= k < |Fill(rem, carry, min).0| ==> Fill(rem, carry, min).0[k] >= 20
  {
  }

  /** The load goes out complete and in order. */
  lemma {:induction false} LoadKeepsItsOrder(load: seq<Request>, carry: nat, min: nat)
    ensures Loads(Output(load, carry, min).0) == seq(|load|, k requires 0 <= k < |load| => load[k].id)
  {
    if load != [] {
      var n := |load| - 1;
      LoadKeepsItsOrder(load[..n], carry, min);
      OneMore(load, carry, min);
    }
  }

  /** What the last packet of a load adds. */
  lemma OneMore(load: seq<Request>, carry: nat, min: nat)
    requires load != []
    ensures var n := |load| - 1;
            var before, o := Output(load[..n], carry, min), Output(load, carry, min);
            && Loads(o.0) == Loads(before.0) + [load[n].id]
            && (min > 20 ==> FillerBytes(o.0) == FillerBytes(before.0) + Total(Fill(Gap(load[n]), before.1, min).0))
  {
    var n := |load| - 1;
    var before := Output(load[..n], carry, min);
    var sizes := Fill(Gap(load[n]), before.1, min).0;
    if min > 20 { WideEnough(Gap(load[n]), before.1, min); }
    AppendFillers(before.0, sizes);
    var all := before.0 + Frames(sizes);
    assert (all + [Load(load[n].id)])[..|all|] == all;
  }

  ghost predicate Kept(load: seq<Request>, carry: nat, min: nat) requires min > 0 {
    var o := Output(load, carry, min);
    && FillerBytes(o.0) + o.1 <= Asked(load) + carry && o.1 < min
    && Asked(load) + carry <= FillerBytes(o.0) + o.1 + Cut(load, carry, min) * (min - 1)
  }

  /** Over a whole call the fillers never take more than was asked for; and what they
      fall short by is less than the minimum size for each gap that was cut, nothing for
      the others. */
  lemma {:induction false} GapsAreKept(load: seq<Request>, carry: nat, min: nat)
    requires min > 20 && carry < min
    ensures Kept(load, carry, min)
  {
    if load != [] {
      GapsAreKept(load[..|load| - 1], carry, min);
      KeptStep(load, carry, min);
    }
  }

  lemma KeptStep(load: seq<Request>, carry: nat, min: nat)
    requires min > 20 && carry < min && load != [] && Kept(load[..|load| - 1], carry, min)
    ensures Kept(load, carry, min)
  {
    hide Frames, FillerBytes, Fill, Lost, Total, Loads, Gap;
    var n := |load| - 1;
    OneMore(load, carry, min);
    var before, gap, cut := Output(load[..n], carry, min), Gap(load[n]), Cut(load[..n], carry, min);
    Balance(gap, before.1, min);
    AddLoss(FillerBytes(before.0) + before.1, Asked(load[..n]) + carry, cut, min - 1, gap, Lost(gap, before.1, min), gap + before.1 >= 1538);
  }

  lemma AddLoss(kept: nat, asked: nat, cut: nat, m: nat, gap: nat, lost: nat, large: bool)
    requires kept <= asked <= kept + cut * m && lost <= kept + gap && lost <= m && (!large ==> lost == 0)
    ensures kept + gap - lost <= asked + gap <= kept + gap - lost + (if large then cut + 1 else cut) * m
  {
  }

  /** The 32-bit counters of a call agree with the frames so far. */
  ghost predicate Counted(num: nat, bytes: nat, frames: seq<Frame>) {
    num == BadPkts(frames) % WORD && bytes == BadBytes(frames) % WORD
  }

  lemma CountNothing()
    ensures Counted(0, 0, [])
  {
  }

  lemma CountFiller(num: nat, bytes: nat, frames: seq<Frame>, len: nat)
    requires Counted(num, bytes, frames)
    ensures Counted((num + 1) % WORD, (bytes + len + 24) % WORD, frames + [Filler(len)])
  {
    assert (frames + [Filler(len)])[..|frames|] == frames;
  }

  lemma CountLoad(num: nat, bytes: nat, frames: seq<Frame>, id: int)
    requires Counted(num, bytes, frames)
    ensures Counted(num, bytes, frames + [Load(id)])
  {
  }

  lemma FramesMore(out: seq<Frame>, done: seq<nat>, size: nat)
    ensures out + Frames(done + [size]) == out + Frames(done) + [Filler(Length(size))]
  {
  }

  lemma NothingMore(carry: nat, min: nat)
    ensures Fill(0, carry, min) == ([], carry)
  {
  }

  class Limiter {
    var leftover: nat
    var sent: seq<Frame>
    var badPkts: nat
    var badBytes: nat

    constructor ()
      ensures leftover == badPkts == badBytes == 0 && sent == []
    {
      leftover, badPkts, badBytes, sent := 0, 0, 0, [];
    }

    /** get_delay_pkt_bad_crc: one filler for the gap, or none and the gap is carried. */
    method GetDelayPkt(rem: nat, min: nat) returns (some: bool, pkt: Frame, size: nat, rem': nat)
      requires rem > 0
      modifies this`leftover
      ensures rem' < rem
      ensures var fill := Fill(rem, old(leftover), min);
              if some then fill == ([size] + Fill(rem', leftover, min).0, Fill(rem', leftover, min).1) && pkt == Filler(Length(size))
              else fill == ([], leftover) && rem' == 0
    {
      var delay := rem + leftover;
      leftover := 0;
      if delay < min {
        leftover := delay;
        return false, Filler(0), 0, 0;
      }
      size := delay;
      if delay >= 1538 {
        if delay > 2000 { size := 1538; } else { size := delay / 2; }
      }
      some := true;
      rem' := if size > rem then 0 else rem - size;
      pkt := Filler(Length(size));
    }

    /** Stores a frame in the buffer, which is sent when it is full or when told to. */
    method Put(pkts: array<Frame>, idx: nat, frame: Frame, last: bool) returns (idx': nat)
      requires idx < pkts.Length == BUF_SIZE
      modifies pkts, this`sent
      ensures idx' < BUF_SIZE && sent + pkts[..idx'] == old(sent + pkts[..idx]) + [frame] && (last ==> idx' == 0)
    {
      pkts[idx] := frame;
      idx' := idx + 1;
      assert pkts[..idx'] == old(pkts[..idx]) + [frame];
      if idx' >= BUF_SIZE || last {
        sent := sent + pkts[..idx'];
        idx' := 0;
      }
    }

    /** Step 1 for one packet: the fillers of its gap.  The counters have 32 bits. */
    method FillGap(pkts: array<Frame>, idx: nat, gap: nat, min: nat, num: nat, bytes: nat, ghost base: seq<Frame>, ghost out: seq<Frame>)
      returns (idx': nat, num': nat, bytes': nat)
      requires idx < pkts.Length == BUF_SIZE && sent + pkts[..idx] == base + out && Counted(num, bytes, out)
      modifies pkts, this`sent, this`leftover
      ensures idx' < BUF_SIZE && leftover == Fill(gap, old(leftover), min).1
      ensures var out' := out + Frames(Fill(gap, old(leftover), min).0);
              sent + pkts[..idx'] == base + out' && Counted(num', bytes', out')
    {
      hide Fill, Frames, Counted, Length;
      var delay := gap;
      idx', num', bytes' := idx, num, bytes;
      ghost var done: seq<nat>, fill := [], Fill(gap, leftover, min);
      assert out + Frames(done) == out;
      while delay > 0
        invariant idx' < BUF_SIZE && Counted(num', bytes', out + Frames(done))
        invariant sent + pkts[..idx'] == base + (out + Frames(done))
        invariant fill.0 == done + Fill(delay, leftover, min).0 && fill.1 == Fill(delay, leftover, min).1
      {
        var some, pkt, size, rem := GetDelayPkt(delay, min);
        if some {
          CountFiller(num', bytes', out + Frames(done), pkt.len);
          FramesMore(out, done, size);
          num', bytes' := (num' + 1) % WORD, (bytes' + pkt.len + 24) % WORD;
          idx' := Put(pkts, idx', pkt, false);
          ghost var rest := Fill(rem, leftover, min).0;
          assert done + ([size] + rest) == done + [size] + rest;
          done := done + [size];
        } else {
          NothingMore(leftover, min);
        }
        delay := rem;
      }
      NothingMore(leftover, min);
      assert fill.0 == done;
    }

    /** moongen_send_all_packets_with_delay_bad_crc */
    method SendAll(load: seq<Request>, min: nat)
      modifies this
      ensures var o := Output(load, old(leftover), min);
              && sent == old(sent) + o.0 && leftover == o.1
              && badPkts == old(badPkts) + BadPkts(o.0) % WORD && badBytes == old(badBytes) + BadBytes(o.0) % WORD
    {
      var pkts := new Frame[BUF_SIZE];
      hide Fill, Counted, Length, Frames;
      var idx: nat, num: nat, bytes: nat := 0, 0, 0;
      CountNothing();
      ghost var out: seq<Frame> := [];
      assert load[..0] == [];
      var i := 0;
      while i < |load|
        invariant 0 <= i <= |load| && idx < BUF_SIZE && (i == |load| ==> idx == 0)
        invariant out == Output(load[..i], old(leftover), min).0 && leftover == Output(load[..i], old(leftover), min).1
        invariant sent + pkts[..idx] == old(sent) + out && Counted(num, bytes, out)
        invariant badPkts == old(badPkts) && badBytes == old(badBytes)
      {
        assert load[..i + 1][..i] == load[..i];
        ghost var sizes := Fill(Gap(load[i]), leftover, min).0;
        idx, num, bytes := FillGap(pkts, idx, Gap(load[i]), min, num, bytes, old(sent), out);
        out := out + Frames(sizes);
        idx := Put(pkts, idx, Load(load[i].id), i + 1 == |load|);
        CountLoad(num, bytes, out, load[i].id);
        out := out + [Load(load[i].id)];
        i := i + 1;
      }
      assert load[..i] == load;
      badPkts := badPkts + num;
      badBytes := badBytes + bytes;
    }
  }
}
