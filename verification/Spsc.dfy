/** The single-producer single-consumer queue of libmoon pipes
    (readerwriterqueue.h, class ReaderWriterQueue), as a machine over the
    accesses its two threads make to each other's variables.

    A step performs at most one access to a location the other thread writes;
    reads of a thread's own variables ride along with it. */
module Spsc {
  import opened Common

  /** Pipes carry pointers. */
  type Item = nat

  datatype Block = Block(
    front: nat, tail: nat,               // published indices
    localFront: nat, localTail: nat,     // stale copies: producer's of front, consumer's of tail
    data: seq<Item>,                     // the slots; the size is a power of two
    next: nat)

  datatype AllocationMode = CanAlloc | CannotAlloc

  /** The producer inside inner_enqueue(x). */
  datatype Producer =
    | PIdle
    | Enter(x: Item, mode: AllocationMode)                       // tailBlock, localFront, tail: its own
    | LoadFront(x: Item, mode: AllocationMode, b: nat)           // localFront = tailBlock_->front.load()
    | WriteSlot(x: Item, b: nat)                                 // new (location) T
    | StoreTail(x: Item, b: nat)                                 // tailBlock_->tail = nextBlockTail
    | LoadFrontBlock(x: Item, mode: AllocationMode, b: nat)      // tailBlock_->next != frontBlock
    | LoadNextFront(x: Item, nb: nat)                            // next block's front, and the assertion
    | WriteNextSlot(x: Item, nb: nat)
    | StoreNextTail(x: Item, nb: nat)
    | StoreTailBlock(x: Item, nb: nat)                           // tailBlock = next block
    | MakeBlock(x: Item, b: nat)                                 // make_block, filled while still private
    | LinkBlock(x: Item, b: nat, nb: nat)                        // tailBlock_->next = newBlock

  datatype Op = Dequeue | Peek

  /** The consumer inside try_dequeue (pop makes the same accesses) or peek. */
  datatype Consumer =
    | CIdle
    | Begin(op: Op)                                              // frontBlock, localTail, front: its own
    | LoadTail(op: Op, b: nat)                                   // localTail = frontBlock_->tail.load()
    | ReadSlot(op: Op, b: nat)                                   // result = *element
    | StoreFront(b: nat, x: Item)                                // frontBlock_->front = blockFront
    | LoadTailBlock(op: Op, b: nat)                              // frontBlock_ != tailBlock.load()
    | ReloadTail(op: Op, b: nat)                                 // the double check
    | LoadNext(op: Op, b: nat)                                   // nextBlock = frontBlock_->next
    | LoadNextTail(op: Op, nb: nat)                              // next block's tail, and the assertion
    | StoreFrontBlock(nb: nat)                                   // frontBlock = nextBlock
    | PeekNext(nb: nat)                                          // peek's read in the next block

  datatype State = State(
    blocks: seq<Block>,
    frontBlock: nat,
    tailBlock: nat,
    largest: nat,          // largestBlockSize
    maxBlock: nat,         // MAX_BLOCK_SIZE
    prod: Producer,
    cons: Consumer)

  datatype Action =
    | CallEnqueue(x: Item, mode: AllocationMode)
    | CallConsume(op: Op)
    | RunProducer(memory: bool)        // whether make_block succeeds, should it be called
    | RunConsumer

  datatype Event =
    | Silent
    | Enqueued(x: Item) | EnqueueFull | EnqueueNoMemory
    | Dequeued(x: Item) | Peeked(x: Item) | ConsumeEmpty

  // ---------------------------------------------------------------- the machine

  predicate Valid(b: Block) {
    |b.data| >= 2 && b.front < |b.data| && b.tail < |b.data| && b.localFront < |b.data| && b.localTail < |b.data|
  }

  predicate BlockOk(b: Block, blocks: nat) { Valid(b) && b.next < blocks }

  predicate ProducerOk(p: Producer, blocks: nat) {
    && (p.LoadFront? || p.WriteSlot? || p.StoreTail? || p.LoadFrontBlock? || p.MakeBlock? || p.LinkBlock? ==> p.b < blocks)
    && (p.LoadNextFront? || p.WriteNextSlot? || p.StoreNextTail? || p.StoreTailBlock? || p.LinkBlock? ==> p.nb < blocks)
  }

  predicate ConsumerOk(c: Consumer, blocks: nat) {
    && (c.LoadTail? || c.ReadSlot? || c.StoreFront? || c.LoadTailBlock? || c.ReloadTail? || c.LoadNext? ==> c.b < blocks)
    && (c.LoadNextTail? || c.StoreFrontBlock? || c.PeekNext? ==> c.nb < blocks)
  }

  predicate WellFormed(s: State) {
    && s.frontBlock < |s.blocks| && s.tailBlock < |s.blocks|
    && s.largest >= 2
    && (forall i :: 0 <= i < |s.blocks| ==> BlockOk(s.blocks[i], |s.blocks|))
    && ProducerOk(s.prod, |s.blocks|)
    && ConsumerOk(s.cons, |s.blocks|)
  }

  /** (i + 1) & sizeMask */
  function Succ(i: nat, b: Block): nat { if i + 1 == |b.data| then 0 else i + 1 }

  function Put(s: State, i: nat, b: Block): State requires i < |s.blocks| { s.(blocks := s.blocks[i := b]) }

  predicate Enabled(s: State, a: Action) {
    match a
    case CallEnqueue(_, _) => s.prod.PIdle?
    case CallConsume(_) => s.cons.CIdle?
    case RunProducer(_) => !s.prod.PIdle?
    case RunConsumer => !s.cons.CIdle?
  }

  function NewBlockSize(s: State): nat { if s.largest >= s.maxBlock then s.largest else s.largest * 2 }

  /** A new block holding x in slot 0, about to be linked in after block b. */
  function FreshBlock(size: nat, x: Item, next: nat): Block requires size >= 2 {
    Block(0, 1, 0, 1, seq(size, i => if i == 0 then x else 0), next)
  }

  function ProducerStep(s: State, memory: bool): (r: (State, Event))
    requires WellFormed(s) && !s.prod.PIdle?
    ensures WellFormed(r.0)
  {
    match s.prod
    case Enter(x, mode) =>
      var b := s.tailBlock;
      var blk := s.blocks[b];
      (s.(prod := if Succ(blk.tail, blk) != blk.localFront then WriteSlot(x, b) else LoadFront(x, mode, b)), Silent)
    case LoadFront(x, mode, b) =>
      var blk := s.blocks[b];
      (Put(s, b, blk.(localFront := blk.front)).(
         prod := if Succ(blk.tail, blk) != blk.front then WriteSlot(x, b) else LoadFrontBlock(x, mode, b)), Silent)
    case WriteSlot(x, b) =>
      var blk := s.blocks[b];
      (Put(s, b, blk.(data := blk.data[blk.tail := x])).(prod := StoreTail(x, b)), Silent)
    case StoreTail(x, b) =>
      var blk := s.blocks[b];
      (Put(s, b, blk.(tail := Succ(blk.tail, blk))).(prod := PIdle), Enqueued(x))
    case LoadFrontBlock(x, mode, b) =>
      if s.blocks[b].next != s.frontBlock then (s.(prod := LoadNextFront(x, s.blocks[b].next)), Silent)
      else if mode.CanAlloc? then (s.(prod := MakeBlock(x, b)), Silent)
      else (s.(prod := PIdle), EnqueueFull)
    case LoadNextFront(_, _) => NextBlockStep(s, memory)
    case WriteNextSlot(_, _) => NextBlockStep(s, memory)
    case StoreNextTail(_, _) => NextBlockStep(s, memory)
    case StoreTailBlock(_, _) => NextBlockStep(s, memory)
    case MakeBlock(_, _) => NextBlockStep(s, memory)
    case LinkBlock(_, _, _) => NextBlockStep(s, memory)
  }

  /** The producer at a block other than its tail block: the next one, or a new one. */
  function NextBlockStep(s: State, memory: bool): (r: (State, Event))
    requires WellFormed(s)
    requires || s.prod.LoadNextFront? || s.prod.WriteNextSlot? || s.prod.StoreNextTail? || s.prod.StoreTailBlock?
             || s.prod.MakeBlock? || s.prod.LinkBlock?
    ensures WellFormed(r.0)
  {
    match s.prod
    case LoadNextFront(x, nb) =>
      var blk := s.blocks[nb];
      (Put(s, nb, blk.(localFront := blk.front)).(prod := WriteNextSlot(x, nb)), Silent)
    case WriteNextSlot(x, nb) =>
      var blk := s.blocks[nb];
      (Put(s, nb, blk.(data := blk.data[blk.tail := x])).(prod := StoreNextTail(x, nb)), Silent)
    case StoreNextTail(x, nb) =>
      var blk := s.blocks[nb];
      (Put(s, nb, blk.(tail := Succ(blk.tail, blk))).(prod := StoreTailBlock(x, nb)), Silent)
    case StoreTailBlock(x, nb) => (s.(tailBlock := nb, prod := PIdle), Enqueued(x))
    case MakeBlock(x, b) =>
      if !memory then (s.(prod := PIdle), EnqueueNoMemory)
      else
        (s.(blocks := s.blocks + [FreshBlock(NewBlockSize(s), x, s.blocks[b].next)],
            largest := NewBlockSize(s), prod := LinkBlock(x, b, |s.blocks|)), Silent)
    case LinkBlock(x, b, nb) =>
      (Put(s, b, s.blocks[b].(next := nb)).(prod := StoreTailBlock(x, nb)), Silent)
  }

  function ConsumerStep(s: State): (r: (State, Event))
    requires WellFormed(s) && !s.cons.CIdle?
    ensures WellFormed(r.0)
  {
    match s.cons
    case Begin(op) =>
      var b := s.frontBlock;
      (s.(cons := if s.blocks[b].front != s.blocks[b].localTail then ReadSlot(op, b) else LoadTail(op, b)), Silent)
    case LoadTail(op, b) =>
      var blk := s.blocks[b];
      (Put(s, b, blk.(localTail := blk.tail)).(
         cons := if blk.front != blk.tail then ReadSlot(op, b) else LoadTailBlock(op, b)), Silent)
    case ReadSlot(op, b) =>
      var x := s.blocks[b].data[s.blocks[b].front];
      if op.Peek? then (s.(cons := CIdle), Peeked(x)) else (s.(cons := StoreFront(b, x)), Silent)
    case StoreFront(b, x) =>
      var blk := s.blocks[b];
      (Put(s, b, blk.(front := Succ(blk.front, blk))).(cons := CIdle), Dequeued(x))
    case LoadTailBlock(op, b) =>
      if b != s.tailBlock then (s.(cons := ReloadTail(op, b)), Silent) else (s.(cons := CIdle), ConsumeEmpty)
    case ReloadTail(op, b) =>
      var blk := s.blocks[b];
      (Put(s, b, blk.(localTail := blk.tail)).(
         cons := if blk.front != blk.tail then ReadSlot(op, b) else LoadNext(op, b)), Silent)
    case LoadNext(op, b) => (s.(cons := LoadNextTail(op, s.blocks[b].next)), Silent)
    case LoadNextTail(op, nb) =>
      var blk := s.blocks[nb];
      if op.Peek? then (s.(cons := PeekNext(nb)), Silent)
      else (Put(s, nb, blk.(localTail := blk.tail)).(cons := StoreFrontBlock(nb)), Silent)
    case StoreFrontBlock(nb) => (s.(frontBlock := nb, cons := ReadSlot(Dequeue, nb)), Silent)
    case PeekNext(nb) => (s.(cons := CIdle), Peeked(s.blocks[nb].data[s.blocks[nb].front]))
  }

  function Step(s: State, a: Action): (r: (State, Event))
    requires WellFormed(s) && Enabled(s, a)
    ensures WellFormed(r.0)
  {
    match a
    case CallEnqueue(x, mode) => (s.(prod := Enter(x, mode)), Silent)
    case CallConsume(op) => (s.(cons := Begin(op)), Silent)
    case RunProducer(memory) => ProducerStep(s, memory)
    case RunConsumer => ConsumerStep(s)
  }

  /** The assertions at the two block changes: a block entered by the producer is
      empty, a block entered by the consumer is not. */
  predicate AssertionsHold(s: State) requires WellFormed(s) {
    && (s.prod.LoadNextFront? ==> s.blocks[s.prod.nb].front == s.blocks[s.prod.nb].tail)
    && (s.cons.LoadNextTail? ==> s.blocks[s.cons.nb].front != s.blocks[s.cons.nb].tail)
  }

  // ------------------------------------------------------------ a block's contents

  /** How far j lies ahead of i on the circle of a block's slots. */
  function Ahead(i: nat, j: nat, b: Block): int { if j >= i then j - i else j - i + |b.data| }

  function Slot(b: Block, i: nat): nat { if b.front + i < |b.data| then b.front + i else b.front + i - |b.data| }

  function Contents(b: Block): seq<Item> requires Valid(b) {
    seq(Ahead(b.front, b.tail, b), i requires 0 <= i < Ahead(b.front, b.tail, b) => b.data[Slot(b, i)])
  }

  predicate Full(b: Block) { Succ(b.tail, b) == b.front }

  /** The stale copies lag: localFront is behind front, localTail is behind tail. */
  ghost predicate ShadowsLag(b: Block) {
    && Valid(b)
    && Ahead(b.front, b.tail, b) <= Ahead(b.localFront, b.tail, b)
    && Ahead(b.front, b.localTail, b) <= Ahead(b.front, b.tail, b)
  }

  lemma PushContents(b: Block)
    requires ShadowsLag(b) && Succ(b.tail, b) != b.localFront
    ensures var b' := b.(tail := Succ(b.tail, b));
            ShadowsLag(b') && !Full(b) && Contents(b') == Contents(b) + [b.data[b.tail]]
  {
  }

  lemma PopContents(b: Block)
    requires ShadowsLag(b) && b.front != b.localTail
    ensures var b' := b.(front := Succ(b.front, b));
            && b.front != b.tail && Contents(b) != [] && Contents(b)[0] == b.data[b.front]
            && ShadowsLag(b') && Contents(b') == Contents(b)[1..]
  {
  }

  lemma WriteContents(b: Block, x: Item)
    requires ShadowsLag(b)
    ensures ShadowsLag(b.(data := b.data[b.tail := x]))
    ensures Contents(b.(data := b.data[b.tail := x])) == Contents(b)
  {
  }

  // ------------------------------------------------------------- the whole queue

  /** What a row of blocks holds, in order. */
  ghost function Flat(bs: seq<Block>): seq<Item>
    requires forall i :: 0 <= i < |bs| ==> Valid(bs[i])
  {
    if bs == [] then [] else Contents(bs[0]) + Flat(bs[1..])
  }

  lemma {:induction false} FlatConcat(a: seq<Block>, b: seq<Block>)
    requires forall i :: 0 <= i < |a| ==> Valid(a[i])
    requires forall i :: 0 <= i < |b| ==> Valid(b[i])
    ensures Flat(a + b) == Flat(a) + Flat(b)
  {
    hide Contents, Valid;
    if a == [] {
      assert a + b == b;
    } else {
      FlatConcat(a[1..], b);
      assert (a + b)[1..] == a[1..] + b;
    }
  }

  /** The row up to position t, split at k. */
  lemma FlatSplit(bs: seq<Block>, k: nat, t: nat)
    requires k <= t < |bs| && forall i :: 0 <= i < |bs| ==> Valid(bs[i])
    ensures Flat(bs[..t + 1]) == Flat(bs[..k]) + Contents(bs[k]) + Flat(bs[k + 1..t + 1])
  {
    var row := bs[..t + 1];
    assert row == bs[..k] + bs[k..t + 1];
    FlatConcat(bs[..k], bs[k..t + 1]);
    assert bs[k..t + 1][1..] == bs[k + 1..t + 1];
  }

  lemma FlatUpdate(bs: seq<Block>, k: nat, t: nat, b: Block)
    requires k < |bs| && t < |bs| && Valid(b) && forall i :: 0 <= i < |bs| ==> Valid(bs[i])
    ensures t < k ==> Flat(bs[k := b][..t + 1]) == Flat(bs[..t + 1])
    ensures k <= t ==> Flat(bs[..t + 1]) == Flat(bs[..k]) + Contents(bs[k]) + Flat(bs[k + 1..t + 1])
    ensures k <= t ==> Flat(bs[k := b][..t + 1]) == Flat(bs[..k]) + Contents(b) + Flat(bs[k + 1..t + 1])
  {
    var bs' := bs[k := b];
    if t < k {
      assert bs'[..t + 1] == bs[..t + 1];
    } else {
      FlatSplit(bs, k, t);
      FlatSplit(bs', k, t);
      assert bs'[..k] == bs[..k] && bs'[k + 1..t + 1] == bs[k + 1..t + 1];
    }
  }

  // ------------------------------------------------------------- the invariant

  /** What the constructor promised: at least `count` blocks of at least `size` slots. */
  datatype Capacity = Capacity(count: nat, size: nat, maxSize: nat)

  /** The ring of blocks from frontBlock on (their names and their values), the
      position of tailBlock in it, and whether the queue has been empty (has held
      maxSize elements) in some state of the consumer's (producer's) current call. */
  datatype Aux = Aux(ring: seq<nat>, bs: seq<Block>, t: nat, cap: Capacity, sawEmpty: bool, sawFull: bool)

  ghost function After(ring: seq<nat>, i: nat): nat requires i < |ring| {
    ring[if i + 1 == |ring| then 0 else i + 1]
  }

  ghost predicate Ring(blocks: seq<Block>, ring: seq<nat>, bs: seq<Block>) {
    && |ring| == |bs|
    && Distinct(ring)
    && (forall i :: 0 <= i < |ring| ==> ring[i] < |blocks| && blocks[ring[i]] == bs[i])
    && (forall i :: 0 <= i < |ring| ==> bs[i].next == After(ring, i))
  }

  /** The blocks between front and tail are full, those past the tail are empty,
      except one the producer has filled and is about to publish. */
  ghost predicate Fill(bs: seq<Block>, t: nat, pending: bool) {
    && t < |bs|
    && (forall i :: 0 <= i < |bs| ==> ShadowsLag(bs[i]))
    && (forall i :: 0 < i <= t ==> bs[i].front != bs[i].tail)
    && (forall i :: 0 < i < t ==> Full(bs[i]))
    && (forall i :: t < i < |bs| && !(pending && i == t + 1) ==> bs[i].front == bs[i].tail)
  }

  /** The producer found the tail block full: it still is, unless the consumer has come into it. */
  ghost predicate TailFull(bs: seq<Block>, t: nat) requires t < |bs| { t > 0 ==> Full(bs[t]) }

  ghost predicate NextIs(ring: seq<nat>, t: nat, nb: nat) { t + 1 < |ring| && nb == ring[t + 1] }

  ghost predicate ProducerInv(p: Producer, ring: seq<nat>, bs: seq<Block>, t: nat, sawFull: bool)
    requires t < |bs| == |ring| && forall i :: 0 <= i < |bs| ==> Valid(bs[i])
  {
    match p
    case PIdle => true
    case Enter(_, _) => true
    case LoadFront(_, _, b) => b == ring[t]
    case WriteSlot(_, b) => b == ring[t] && Succ(bs[t].tail, bs[t]) != bs[t].localFront
    case StoreTail(x, b) => Valid(bs[t]) && b == ring[t] && Succ(bs[t].tail, bs[t]) != bs[t].localFront && bs[t].data[bs[t].tail] == x
    case LoadFrontBlock(_, _, b) => b == ring[t] && TailFull(bs, t) && (|ring| == 1 ==> sawFull)
    case LoadNextFront(_, nb) => TailFull(bs, t) && NextIs(ring, t, nb)
    case WriteNextSlot(_, nb) => TailFull(bs, t) && NextIs(ring, t, nb) && bs[t + 1].localFront == bs[t + 1].front
    case StoreNextTail(x, nb) =>
      && TailFull(bs, t) && NextIs(ring, t, nb) && bs[t + 1].localFront == bs[t + 1].front
      && Valid(bs[t + 1]) && bs[t + 1].data[bs[t + 1].tail] == x
    case StoreTailBlock(x, nb) => TailFull(bs, t) && NextIs(ring, t, nb) && Contents(bs[t + 1]) == [x]
    case MakeBlock(_, b) => b == ring[t] && TailFull(bs, t)
    case LinkBlock(x, b, nb) => b == ring[t] && TailFull(bs, t)
  }

  /** A block made and filled but not yet linked in. */
  ghost predicate FreshInv(p: Producer, blocks: seq<Block>, ring: seq<nat>, t: nat) requires t < |ring| {
    p.LinkBlock? ==>
      && p.nb < |blocks| && p.nb !in ring
      && ShadowsLag(blocks[p.nb]) && Contents(blocks[p.nb]) == [p.x] && blocks[p.nb].next == After(ring, t)
  }

  ghost predicate ConsumerInv(c: Consumer, ring: seq<nat>, bs: seq<Block>, t: nat, sawEmpty: bool)
    requires t < |bs| == |ring| && forall i :: 0 <= i < |bs| ==> Valid(bs[i])
  {
    match c
    case CIdle => true
    case Begin(_) => true
    case LoadTail(_, b) => b == ring[0]
    case ReadSlot(_, b) => b == ring[0] && bs[0].front != bs[0].localTail
    case StoreFront(b, x) => Valid(bs[0]) && b == ring[0] && bs[0].front != bs[0].localTail && bs[0].data[bs[0].front] == x
    case LoadTailBlock(_, b) => b == ring[0] && (t == 0 ==> sawEmpty)
    case ReloadTail(_, b) => b == ring[0] && t > 0
    case LoadNext(_, b) => b == ring[0] && t > 0 && bs[0].front == bs[0].tail
    case LoadNextTail(_, nb) => t > 0 && nb == ring[1] && bs[0].front == bs[0].tail
    case StoreFrontBlock(nb) => t > 0 && nb == ring[1] && bs[0].front == bs[0].tail && bs[1].front != bs[1].localTail
    case PeekNext(nb) => t > 0 && nb == ring[1] && bs[0].front == bs[0].tail
  }

  ghost predicate Roomy(c: Capacity) {
    c.count >= 1 && c.size >= 2 && (if c.count == 1 then c.size - 1 else (c.count - 1) * (c.size - 1)) >= c.maxSize
  }

  ghost predicate CapacityOk(blocks: seq<Block>, inRing: nat, largest: nat, cap: Capacity) {
    && Roomy(cap) && inRing >= cap.count && largest >= cap.size
    && (forall i :: 0 <= i < |blocks| ==> |blocks[i].data| >= cap.size)
  }

  /** The parts of the invariant that only speak of names and sizes. */
  ghost predicate Shape(s: State, g: Aux) {
    && WellFormed(s)
    && Ring(s.blocks, g.ring, g.bs)
    && CapacityOk(s.blocks, |g.ring|, s.largest, g.cap)
    && g.t < |g.ring| && g.ring[0] == s.frontBlock && g.ring[g.t] == s.tailBlock
  }

  ghost predicate Inv(s: State, g: Aux) {
    && Shape(s, g)
    && Fill(g.bs, g.t, s.prod.StoreTailBlock?)
    && ProducerInv(s.prod, g.ring, g.bs, g.t, g.sawFull)
    && FreshInv(s.prod, s.blocks, g.ring, g.t)
    && ConsumerInv(s.cons, g.ring, g.bs, g.t, g.sawEmpty)
  }

  /** What the queue holds according to the ring. */
  ghost function Elements(g: Aux): seq<Item>
    requires g.t < |g.bs| && forall i :: 0 <= i < |g.bs| ==> Valid(g.bs[i])
  {
    Flat(g.bs[..g.t + 1])
  }

  // ------------------------------------------------- every step keeps the invariant

  lemma RingAt(blocks: seq<Block>, ring: seq<nat>, bs: seq<Block>, k: nat)
    requires Ring(blocks, ring, bs) && k < |bs|
    ensures |ring| == |bs| && ring[k] < |blocks| && blocks[ring[k]] == bs[k] && bs[k].next == After(ring, k)
  {
  }

  /** A step that rewrites the block at ring position k keeps the ring. */
  lemma RingPut(blocks: seq<Block>, ring: seq<nat>, bs: seq<Block>, k: nat, b: Block)
    requires Ring(blocks, ring, bs) && k < |ring| && b.next == bs[k].next
    ensures Ring(blocks[ring[k] := b], ring, bs[k := b])
  {
  }

  /** The consumer's knowledge survives any producer rewrite of the tail block or a later one. */
  lemma ConsumerUnaffected(c: Consumer, ring: seq<nat>, bs: seq<Block>, t: nat, k: nat, b: Block, saw: bool, saw': bool)
    requires t < |bs| == |ring| && Fill(bs, t, false) && t <= k < |bs| && ShadowsLag(b)
    requires b.front == bs[k].front && b.localTail == bs[k].localTail && |b.data| == |bs[k].data|
    requires b.data == bs[k].data || b.data == bs[k].data[bs[k].tail := b.data[bs[k].tail]]
    requires ConsumerInv(c, ring, bs, t, saw) && (saw ==> saw')
    ensures ConsumerInv(c, ring, bs[k := b], t, saw')
  {
  }

  /** The producer's knowledge survives the consumer's advance in the front block. */
  lemma ProducerUnaffected(p: Producer, ring: seq<nat>, bs: seq<Block>, t: nat, k: nat, b: Block, saw: bool, saw': bool)
    requires t < |bs| == |ring| && Fill(bs, t, p.StoreTailBlock?) && k <= t && Valid(b)
    requires b.tail == bs[k].tail && b.localFront == bs[k].localFront && b.data == bs[k].data
    requires k == 0 || b.front == bs[k].front
    requires ProducerInv(p, ring, bs, t, saw) && (saw ==> saw')
    ensures ProducerInv(p, ring, bs[k := b], t, saw')
  {
  }

  /** The flags of the history never drop within a call. */
  ghost predicate Later(g: Aux, g': Aux) { (g.sawEmpty ==> g'.sawEmpty) && (g.sawFull ==> g'.sawFull) && g'.cap == g.cap }

  ghost predicate Bounds(g: Aux, k: nat) { g.t < |g.bs| == |g.ring| && k < |g.bs| && Valid(g.bs[k]) }

  /** s' and g' differ from s and g by block b at ring position k and the threads' standing. */
  ghost predicate Puts(s: State, g: Aux, s': State, g': Aux, k: nat, b: Block) {
    && Bounds(g, k) && g.ring[k] < |s.blocks| && Valid(b) && b.next == g.bs[k].next && |b.data| == |g.bs[k].data|
    && s' == s.(blocks := s.blocks[g.ring[k] := b], prod := s'.prod, cons := s'.cons)
    && g' == g.(bs := g.bs[k := b], sawEmpty := g'.sawEmpty, sawFull := g'.sawFull)
    && Later(g, g')
  }

  lemma ShapePut(s: State, g: Aux, s': State, g': Aux, k: nat, b: Block)
    requires Shape(s, g) && Puts(s, g, s', g', k, b)
    requires ProducerOk(s'.prod, |s.blocks|) && ConsumerOk(s'.cons, |s.blocks|)
    ensures Shape(s', g')
  {
    RingPut(s.blocks, g.ring, g.bs, k, b);
  }

  /** A rewrite that leaves a block as full and as empty as the row demands. */
  lemma FillPut(bs: seq<Block>, t: nat, pending: bool, pending': bool, k: nat, b: Block)
    requires Fill(bs, t, pending) && k < |bs| && ShadowsLag(b)
    requires 0 < k <= t ==> b.front != b.tail
    requires 0 < k < t ==> Full(b)
    requires t < k && !(pending' && k == t + 1) ==> b.front == b.tail
    requires pending && !pending' && t + 1 < |bs| ==> k == t + 1
    ensures Fill(bs[k := b], t, pending')
  {
  }

  /** A producer step that rewrites the block at ring position k, the tail or the next. */
  lemma ProducerPut(s: State, g: Aux, s': State, g': Aux, k: nat, b: Block)
    requires Puts(s, g, s', g', k, b) && s'.cons == s.cons && ProducerOk(s'.prod, |s.blocks|)
    requires !s.prod.StoreTailBlock? && !s'.prod.LinkBlock?
    requires b == g.bs[k].(localFront := b.localFront, tail := b.tail, data := b.data)
    requires b.data == g.bs[k].data || b.data == g.bs[k].data[g.bs[k].tail := b.data[g.bs[k].tail]]
    requires g.t <= k && ShadowsLag(b) && (0 < k == g.t ==> b.front != b.tail)
    requires g.t < k && !(s'.prod.StoreTailBlock? && k == g.t + 1) ==> b.front == b.tail
    requires Inv(s, g)
    requires (forall i :: 0 <= i < |g'.bs| ==> Valid(g'.bs[i])) && ProducerInv(s'.prod, g.ring, g'.bs, g.t, g'.sawFull)
    ensures Inv(s', g')
  {
    ShapePut(s, g, s', g', k, b);
    FillPut(g.bs, g.t, s.prod.StoreTailBlock?, s'.prod.StoreTailBlock?, k, b);
    ConsumerUnaffected(s.cons, g.ring, g.bs, g.t, k, b, g.sawEmpty, g'.sawEmpty);
    hide Ring, CapacityOk, Fill, ConsumerInv, ProducerInv;
  }

  lemma ElementsSame(bs: seq<Block>, t: nat, k: nat, b: Block)
    requires t < |bs| && k < |bs| && Valid(b) && (forall i :: 0 <= i < |bs| ==> Valid(bs[i]))
    requires k > t || Contents(b) == Contents(bs[k])
    ensures Flat(bs[k := b][..t + 1]) == Flat(bs[..t + 1])
  {
    FlatUpdate(bs, k, t, b);
  }

  lemma ElementsPush(bs: seq<Block>, t: nat, b: Block, x: Item)
    requires t < |bs| && Valid(b) && (forall i :: 0 <= i < |bs| ==> Valid(bs[i]))
    requires Contents(b) == Contents(bs[t]) + [x]
    ensures Flat(bs[t := b][..t + 1]) == Flat(bs[..t + 1]) + [x]
  {
    hide Contents;
    FlatUpdate(bs, t, t, b);
    assert bs[t + 1..t + 1] == [];
  }

  lemma ElementsPop(bs: seq<Block>, t: nat, b: Block)
    requires t < |bs| && Valid(b) && (forall i :: 0 <= i < |bs| ==> Valid(bs[i]))
    requires Contents(bs[0]) != [] && Contents(b) == Contents(bs[0])[1..]
    ensures Flat(bs[..t + 1]) != [] && Flat(bs[..t + 1])[0] == Contents(bs[0])[0]
    ensures Flat(bs[0 := b][..t + 1]) == Flat(bs[..t + 1])[1..]
  {
    hide Contents;
    FlatUpdate(bs, 0, t, b);
    assert bs[..0] == [];
  }

  /** A lone full block holds all its slots but one. */
  lemma LoneBlockFull(bs: seq<Block>)
    requires |bs| == 1 && Valid(bs[0]) && Full(bs[0])
    ensures |Flat(bs[..1])| == |bs[0].data| - 1
  {
  }

  lemma LoadFrontKeeps(s: State, g: Aux, s': State, g': Aux, b: Block)
    requires s.prod.LoadFront? && Bounds(g, g.t)
    requires var o := g.bs[g.t]; b == o.(localFront := o.front)
    requires Puts(s, g, s', g', g.t, b) && s'.cons == s.cons
    requires s'.prod == if Full(b) then LoadFrontBlock(s.prod.x, s.prod.mode, s.prod.b) else WriteSlot(s.prod.x, s.prod.b)
    requires Full(b) && |g.ring| == 1 ==> g'.sawFull
    requires Inv(s, g)
    ensures Inv(s', g')
  {
    hide Shape, FreshInv, ConsumerInv;
    var o := g.bs[g.t];
    ProducerPut(s, g, s', g', g.t, b);
  }

  lemma WriteSlotKeeps(s: State, g: Aux, s': State, g': Aux, b: Block)
    requires s.prod.WriteSlot? && Bounds(g, g.t)
    requires var o := g.bs[g.t]; b == o.(data := o.data[o.tail := s.prod.x])
    requires Puts(s, g, s', g', g.t, b) && s'.cons == s.cons && s'.prod == StoreTail(s.prod.x, s.prod.b)
    requires Inv(s, g)
    ensures Inv(s', g')
  {
    hide Shape, FreshInv, ConsumerInv;
    var o := g.bs[g.t];
    WriteContents(o, s.prod.x);
    ProducerPut(s, g, s', g', g.t, b);
  }

  lemma StoreTailKeeps(s: State, g: Aux, s': State, g': Aux, b: Block)
    requires s.prod.StoreTail? && Bounds(g, g.t)
    requires var o := g.bs[g.t]; b == o.(tail := Succ(o.tail, o))
    requires Puts(s, g, s', g', g.t, b) && s'.cons == s.cons && s'.prod == PIdle
    requires Inv(s, g)
    ensures Inv(s', g')
  {
    hide Shape, FreshInv, ConsumerInv;
    var o := g.bs[g.t];
    PushContents(o);
    ProducerPut(s, g, s', g', g.t, b);
  }

  lemma LoadNextFrontKeeps(s: State, g: Aux, s': State, g': Aux, b: Block)
    requires s.prod.LoadNextFront? && Bounds(g, g.t + 1)
    requires var o := g.bs[g.t + 1]; b == o.(localFront := o.front)
    requires Puts(s, g, s', g', g.t + 1, b) && s'.cons == s.cons && s'.prod == WriteNextSlot(s.prod.x, s.prod.nb)
    requires Inv(s, g)
    ensures Inv(s', g')
  {
    hide Shape, FreshInv, ConsumerInv;
    var o := g.bs[g.t + 1];
    ProducerPut(s, g, s', g', g.t + 1, b);
  }

  lemma WriteNextSlotKeeps(s: State, g: Aux, s': State, g': Aux, b: Block)
    requires s.prod.WriteNextSlot? && Bounds(g, g.t + 1)
    requires var o := g.bs[g.t + 1]; b == o.(data := o.data[o.tail := s.prod.x])
    requires Puts(s, g, s', g', g.t + 1, b) && s'.cons == s.cons && s'.prod == StoreNextTail(s.prod.x, s.prod.nb)
    requires Inv(s, g)
    ensures Inv(s', g')
  {
    hide Shape, FreshInv, ConsumerInv;
    var o := g.bs[g.t + 1];
    WriteContents(o, s.prod.x);
    ProducerPut(s, g, s', g', g.t + 1, b);
  }

  lemma StoreNextTailKeeps(s: State, g: Aux, s': State, g': Aux, b: Block)
    requires s.prod.StoreNextTail? && Bounds(g, g.t + 1)
    requires var o := g.bs[g.t + 1]; b == o.(tail := Succ(o.tail, o))
    requires Puts(s, g, s', g', g.t + 1, b) && s'.cons == s.cons && s'.prod == StoreTailBlock(s.prod.x, s.prod.nb)
    requires Inv(s, g)
    ensures Inv(s', g')
  {
    hide Shape, FreshInv, ConsumerInv;
    var o := g.bs[g.t + 1];
    assert o.front == o.tail;
    PushContents(o);
    ProducerPut(s, g, s', g', g.t + 1, b);
  }

  lemma AdvanceMid(x: Item, nb: nat, c: Consumer, ring: seq<nat>, bs: seq<Block>, t: nat, full: bool, full': bool, empty: bool, empty': bool)
    requires |ring| == |bs| && Fill(bs, t, true) && (empty ==> empty')
    requires ProducerInv(StoreTailBlock(x, nb), ring, bs, t, full) && ConsumerInv(c, ring, bs, t, empty)
    ensures t + 1 < |bs| && nb == ring[t + 1] && Fill(bs, t + 1, false) && Contents(bs[t + 1]) == [x]
    ensures ProducerInv(PIdle, ring, bs, t + 1, full') && ConsumerInv(c, ring, bs, t + 1, empty')
  {
  }

  lemma SameLength(s: State, g: Aux)
    requires Shape(s, g)
    ensures |g.ring| == |g.bs|
  {
  }

  lemma ShapeAdvance(s: State, g: Aux, s': State, g': Aux)
    requires Shape(s, g) && g.t + 1 < |g.ring| == |g.bs|
    requires s' == s.(tailBlock := g.ring[g.t + 1], prod := PIdle)
    requires g' == g.(t := g.t + 1, sawEmpty := g'.sawEmpty, sawFull := g'.sawFull)
    ensures Shape(s', g')
  {
    assert g.ring[g.t + 1] < |s.blocks|;
    hide Ring, CapacityOk;
  }

  /** The producer publishes the next block. */
  lemma StoreTailBlockKeeps(s: State, g: Aux, s': State, g': Aux)
    requires s.prod.StoreTailBlock? && Later(g, g')
    requires s' == s.(tailBlock := s.prod.nb, prod := PIdle)
    requires g' == g.(t := g.t + 1, sawEmpty := g'.sawEmpty, sawFull := g'.sawFull)
    requires Inv(s, g)
    ensures Inv(s', g') && g.t + 1 < |g.bs| && Contents(g.bs[g.t + 1]) == [s.prod.x]
  {
    hide Fill, ProducerInv, ConsumerInv, Shape;
    SameLength(s, g);
    AdvanceMid(s.prod.x, s.prod.nb, s.cons, g.ring, g.bs, g.t, g.sawFull, g'.sawFull, g.sawEmpty, g'.sawEmpty);
    ShapeAdvance(s, g, s', g');
  }

  lemma ElementsExtend(bs: seq<Block>, t: nat)
    requires t + 1 < |bs| && (forall i :: 0 <= i < |bs| ==> Valid(bs[i]))
    ensures Flat(bs[..t + 2]) == Flat(bs[..t + 1]) + Contents(bs[t + 1])
  {
    hide Contents;
    assert bs[..t + 2] == bs[..t + 1] + [bs[t + 1]];
    FlatConcat(bs[..t + 1], [bs[t + 1]]);
    assert [bs[t + 1]][1..] == [];
  }

  lemma RingGrow(blocks: seq<Block>, ring: seq<nat>, bs: seq<Block>, b: Block)
    requires Ring(blocks, ring, bs)
    ensures Ring(blocks + [b], ring, bs) && |blocks| !in ring
  {
  }

  lemma ShapeGrow(s: State, g: Aux, s': State, g': Aux, b: Block)
    requires Shape(s, g) && Valid(b) && b.next < |s.blocks| && s'.largest >= s.largest && |b.data| >= s.largest
    requires s' == s.(blocks := s.blocks + [b], largest := s'.largest, prod := s'.prod)
    requires g' == g.(sawEmpty := g'.sawEmpty, sawFull := g'.sawFull)
    requires ProducerOk(s'.prod, |s'.blocks|)
    ensures Shape(s', g') && |s.blocks| !in g.ring
  {
    RingGrow(s.blocks, g.ring, g.bs, b);
    hide Ring;
    assert ConsumerOk(s'.cons, |s'.blocks|);
  }

  lemma NextInRange(s: State, g: Aux)
    requires Shape(s, g)
    ensures g.t < |g.bs| == |g.ring| && g.bs[g.t].next == After(g.ring, g.t) < |s.blocks|
  {
  }

  /** The producer makes a block of its own. */
  lemma MakeBlockKeeps(s: State, g: Aux, s': State, g': Aux, b: Block)
    requires s.prod.MakeBlock? && Later(g, g') && NewBlockSize(s) >= 2 && Bounds(g, g.t)
    requires b == FreshBlock(NewBlockSize(s), s.prod.x, g.bs[g.t].next)
    requires s' == s.(blocks := s.blocks + [b], largest := NewBlockSize(s), prod := LinkBlock(s.prod.x, s.prod.b, |s.blocks|))
    requires g' == g.(sawEmpty := g'.sawEmpty, sawFull := g'.sawFull)
    requires s.prod.b < |s.blocks| && Inv(s, g)
    ensures Inv(s', g')
  {
    hide Shape, Fill;
    NextInRange(s, g);
    ShapeGrow(s, g, s', g', b);
    assert Contents(b) == [s.prod.x];
  }

  ghost function Insert<T>(a: seq<T>, k: nat, x: T): seq<T> requires k <= |a| {
    seq(|a| + 1, i requires 0 <= i <= |a| => if i < k then a[i] else if i == k then x else a[i - 1])
  }

  /** A block linked in behind position t. */
  ghost function LinkedIn(bs: seq<Block>, t: nat, nb: nat, b: Block): seq<Block> requires t < |bs| {
    Insert(bs[t := bs[t].(next := nb)], t + 1, b)
  }

  lemma InsertDistinct(ring: seq<nat>, k: nat, nb: nat)
    requires Distinct(ring) && k <= |ring| && nb !in ring
    ensures Distinct(Insert(ring, k, nb))
  {
  }

  lemma LinkNext(ring: seq<nat>, bs: seq<Block>, t: nat, nb: nat, b: Block)
    requires |ring| == |bs| && t < |ring| && b.next == After(ring, t)
    requires forall i :: 0 <= i < |ring| ==> bs[i].next == After(ring, i)
    ensures var r := Insert(ring, t + 1, nb); forall i :: 0 <= i < |r| ==> LinkedIn(bs, t, nb, b)[i].next == After(r, i)
  {
  }

  lemma LinkRing(blocks: seq<Block>, ring: seq<nat>, bs: seq<Block>, t: nat, nb: nat)
    requires Ring(blocks, ring, bs) && t < |ring| && nb < |blocks| && nb !in ring && blocks[nb].next == After(ring, t)
    ensures Ring(blocks[ring[t] := bs[t].(next := nb)], Insert(ring, t + 1, nb), LinkedIn(bs, t, nb, blocks[nb]))
  {
    var ring' := Insert(ring, t + 1, nb);
    var bs' := LinkedIn(bs, t, nb, blocks[nb]);
    InsertDistinct(ring, t + 1, nb);
    LinkNext(ring, bs, t, nb, blocks[nb]);
    hide Distinct, After;
  }

  lemma LinkFill(bs: seq<Block>, t: nat, nb: nat, b: Block)
    requires Fill(bs, t, false) && ShadowsLag(b)
    ensures Fill(LinkedIn(bs, t, nb, b), t, true)
  {
  }

  lemma LinkMid(x: Item, b: nat, nb: nat, blk: Block, c: Consumer, ring: seq<nat>, bs: seq<Block>, t: nat,
                full: bool, full': bool, empty: bool, empty': bool)
    requires |ring| == |bs| && Fill(bs, t, false) && (empty ==> empty') && ShadowsLag(blk) && Contents(blk) == [x]
    requires ProducerInv(LinkBlock(x, b, nb), ring, bs, t, full) && ConsumerInv(c, ring, bs, t, empty)
    ensures Fill(LinkedIn(bs, t, nb, blk), t, true)
    ensures ProducerInv(StoreTailBlock(x, nb), Insert(ring, t + 1, nb), LinkedIn(bs, t, nb, blk), t, full')
    ensures ConsumerInv(c, Insert(ring, t + 1, nb), LinkedIn(bs, t, nb, blk), t, empty')
  {
    LinkFill(bs, t, nb, blk);
  }

  lemma ShapeLink(s: State, g: Aux, s': State, g': Aux, nb: nat)
    requires Shape(s, g) && Bounds(g, g.t) && nb < |s.blocks| && nb !in g.ring && s.blocks[nb].next == After(g.ring, g.t)
    requires s' == s.(blocks := s.blocks[g.ring[g.t] := g.bs[g.t].(next := nb)], prod := s'.prod) && ProducerOk(s'.prod, |s.blocks|)
    requires g' == g.(ring := Insert(g.ring, g.t + 1, nb), bs := LinkedIn(g.bs, g.t, nb, s.blocks[nb]),
                      sawEmpty := g'.sawEmpty, sawFull := g'.sawFull)
    ensures Shape(s', g')
  {
    hide Ring;
    assert Valid(g.bs[g.t].(next := nb));
    hide Valid;
    RingAt(s.blocks, g.ring, g.bs, g.t);
    LinkRing(s.blocks, g.ring, g.bs, g.t, nb);
  }

  /** And links it in behind the tail block. */
  lemma LinkBlockKeeps(s: State, g: Aux, s': State, g': Aux)
    requires s.prod.LinkBlock? && Later(g, g') && Bounds(g, g.t) && s.prod.b < |s.blocks| && s.prod.nb < |s.blocks|
    requires s' == s.(blocks := s.blocks[s.prod.b := g.bs[g.t].(next := s.prod.nb)], prod := StoreTailBlock(s.prod.x, s.prod.nb))
    requires g' == g.(ring := Insert(g.ring, g.t + 1, s.prod.nb), bs := LinkedIn(g.bs, g.t, s.prod.nb, s.blocks[s.prod.nb]),
                      sawEmpty := g'.sawEmpty, sawFull := g'.sawFull)
    requires s.prod.b == g.ring[g.t] && Inv(s, g)
    ensures Inv(s', g')
  {
    hide Fill, ProducerInv, ConsumerInv, Shape, Contents;
    ShapeLink(s, g, s', g', s.prod.nb);
    LinkMid(s.prod.x, s.prod.b, s.prod.nb, s.blocks[s.prod.nb], s.cons, g.ring, g.bs, g.t, g.sawFull, g'.sawFull, g.sawEmpty, g'.sawEmpty);
  }

  // The consumer's steps.

  lemma ConsumerPut(s: State, g: Aux, s': State, g': Aux, k: nat, b: Block)
    requires Puts(s, g, s', g', k, b) && s'.prod == s.prod && ConsumerOk(s'.cons, |s.blocks|)
    requires k <= g.t && ShadowsLag(b)
    requires b == g.bs[k].(front := b.front, localTail := b.localTail) && (k > 0 ==> b.front == g.bs[k].front)
    requires Inv(s, g)
    requires (forall i :: 0 <= i < |g'.bs| ==> Valid(g'.bs[i])) && ConsumerInv(s'.cons, g.ring, g'.bs, g.t, g'.sawEmpty)
    ensures Inv(s', g')
  {
    hide Shape, ConsumerInv, ProducerInv, FreshInv;
    SameLength(s, g);
    ShapePut(s, g, s', g', k, b) by { WellFormedOf(s, g); }
    FillPut(g.bs, g.t, s.prod.StoreTailBlock?, s.prod.StoreTailBlock?, k, b);
    ProducerUnaffected(s.prod, g.ring, g.bs, g.t, k, b, g.sawFull, g'.sawFull);
    hide Fill;
    FreshUnaffected(s, g, s', k, b);
  }

  lemma WellFormedOf(s: State, g: Aux)
    requires Shape(s, g)
    ensures ProducerOk(s.prod, |s.blocks|) && ConsumerOk(s.cons, |s.blocks|)
  {
  }

  lemma FreshUnaffected(s: State, g: Aux, s': State, k: nat, b: Block)
    requires g.t < |g.ring| && FreshInv(s.prod, s.blocks, g.ring, g.t) && k < |g.ring| && g.ring[k] < |s.blocks|
    requires s'.prod == s.prod && s'.blocks == s.blocks[g.ring[k] := b]
    ensures FreshInv(s'.prod, s'.blocks, g.ring, g.t)
  {
  }

  lemma LoadTailKeeps(s: State, g: Aux, s': State, g': Aux, b: Block)
    requires s.cons.LoadTail? && Bounds(g, 0)
    requires b == g.bs[0].(localTail := g.bs[0].tail)
    requires Puts(s, g, s', g', 0, b) && s'.prod == s.prod
    requires s'.cons == if b.front != b.tail then ReadSlot(s.cons.op, s.cons.b) else LoadTailBlock(s.cons.op, s.cons.b)
    requires b.front == b.tail && g.t == 0 ==> g'.sawEmpty
    requires Inv(s, g)
    ensures Inv(s', g')
  {
    hide Shape, FreshInv, ProducerInv;
    ConsumerPut(s, g, s', g', 0, b);
  }

  lemma ReloadTailKeeps(s: State, g: Aux, s': State, g': Aux, b: Block)
    requires s.cons.ReloadTail? && Bounds(g, 0)
    requires b == g.bs[0].(localTail := g.bs[0].tail)
    requires Puts(s, g, s', g', 0, b) && s'.prod == s.prod
    requires s'.cons == if b.front != b.tail then ReadSlot(s.cons.op, s.cons.b) else LoadNext(s.cons.op, s.cons.b)
    requires Inv(s, g)
    ensures Inv(s', g')
  {
    hide Shape, FreshInv, ProducerInv;
    ConsumerPut(s, g, s', g', 0, b);
  }

  lemma StoreFrontKeeps(s: State, g: Aux, s': State, g': Aux, b: Block)
    requires s.cons.StoreFront? && Bounds(g, 0)
    requires b == g.bs[0].(front := Succ(g.bs[0].front, g.bs[0]))
    requires Puts(s, g, s', g', 0, b) && s'.prod == s.prod && s'.cons == CIdle
    requires Inv(s, g)
    ensures Inv(s', g')
  {
    hide Shape, FreshInv, ProducerInv;
    PopContents(g.bs[0]);
    ConsumerPut(s, g, s', g', 0, b);
  }

  lemma LoadNextTailKeeps(s: State, g: Aux, s': State, g': Aux, b: Block)
    requires s.cons.LoadNextTail? && Bounds(g, 1)
    requires b == g.bs[1].(localTail := g.bs[1].tail)
    requires Puts(s, g, s', g', 1, b) && s'.prod == s.prod && s'.cons == StoreFrontBlock(s.cons.nb)
    requires Inv(s, g)
    ensures Inv(s', g')
  {
    hide Shape, FreshInv, ProducerInv;
    ConsumerPut(s, g, s', g', 1, b);
  }

  /** The ring seen from its second block. */
  ghost function Rotated<T>(a: seq<T>): seq<T> requires |a| > 0 {
    seq(|a|, i requires 0 <= i < |a| => if i + 1 < |a| then a[i + 1] else a[0])
  }

  lemma RotateDistinct(ring: seq<nat>)
    requires Distinct(ring) && |ring| > 0
    ensures Distinct(Rotated(ring))
  {
  }

  lemma RotatedAt(blocks: seq<Block>, ring: seq<nat>, bs: seq<Block>, i: nat)
    requires Ring(blocks, ring, bs) && i < |ring|
    ensures var r, b := Rotated(ring), Rotated(bs);
            |r| == |b| == |ring| && r[i] < |blocks| && blocks[r[i]] == b[i] && b[i].next == After(r, i)
  {
    var k := if i + 1 < |ring| then i + 1 else 0;
    RingAt(blocks, ring, bs, k);
    hide Ring;
  }

  lemma RotateRing(blocks: seq<Block>, ring: seq<nat>, bs: seq<Block>)
    requires Ring(blocks, ring, bs) && |ring| > 0
    ensures Ring(blocks, Rotated(ring), Rotated(bs))
  {
    hide Distinct;
    RotateDistinct(ring);
    forall i | 0 <= i < |ring|
      ensures |Rotated(bs)| == |ring| && Rotated(ring)[i] < |blocks| && blocks[Rotated(ring)[i]] == Rotated(bs)[i]
      ensures Rotated(bs)[i].next == After(Rotated(ring), i)
    {
      RotatedAt(blocks, ring, bs, i);
    }
    hide Rotated;
  }

  lemma RotateFill(bs: seq<Block>, t: nat, pending: bool)
    requires Fill(bs, t, pending) && t > 0 && bs[0].front == bs[0].tail
    ensures Fill(Rotated(bs), t - 1, pending)
  {
    hide ShadowsLag, Full;
  }

  lemma RotateProducer(p: Producer, ring: seq<nat>, bs: seq<Block>, t: nat, full: bool, full': bool)
    requires 0 < t < |bs| == |ring| && (forall i :: 0 <= i < |bs| ==> Valid(bs[i])) && (full ==> full')
    requires ProducerInv(p, ring, bs, t, full)
    ensures forall i :: 0 <= i < |bs| ==> Valid(Rotated(bs)[i])
    ensures ProducerInv(p, Rotated(ring), Rotated(bs), t - 1, full')
  {
    assert Rotated(bs)[t - 1] == bs[t] && Rotated(ring)[t - 1] == ring[t];
    assert t + 1 < |bs| ==> Rotated(bs)[t] == bs[t + 1] && Rotated(ring)[t] == ring[t + 1];
    hide Rotated, Valid, Full, Succ, Contents;
  }

  lemma FillIsValid(bs: seq<Block>, t: nat, pending: bool)
    requires Fill(bs, t, pending)
    ensures t < |bs| && forall i :: 0 <= i < |bs| ==> Valid(bs[i])
  {
  }

  lemma RotateMid(p: Producer, nb: nat, ring: seq<nat>, bs: seq<Block>, t: nat, full: bool, full': bool, empty: bool, empty': bool)
    requires |ring| == |bs| && Fill(bs, t, p.StoreTailBlock?) && (full ==> full')
    requires ProducerInv(p, ring, bs, t, full) && ConsumerInv(StoreFrontBlock(nb), ring, bs, t, empty)
    ensures t > 0 && nb == ring[1] && Fill(Rotated(bs), t - 1, p.StoreTailBlock?)
    ensures ProducerInv(p, Rotated(ring), Rotated(bs), t - 1, full')
    ensures ConsumerInv(ReadSlot(Dequeue, nb), Rotated(ring), Rotated(bs), t - 1, empty')
    ensures bs[0].front == bs[0].tail
  {
    hide Fill, ProducerInv, Valid;
    FillIsValid(bs, t, p.StoreTailBlock?);
    RotateFill(bs, t, p.StoreTailBlock?);
    RotateProducer(p, ring, bs, t, full, full');
  }

  lemma RotateFresh(p: Producer, blocks: seq<Block>, ring: seq<nat>, t: nat)
    requires 0 < t < |ring| && FreshInv(p, blocks, ring, t)
    ensures FreshInv(p, blocks, Rotated(ring), t - 1)
  {
  }

  /** The consumer moves on: its empty block becomes the producer's last resort. */
  lemma StoreFrontBlockKeeps(s: State, g: Aux, s': State, g': Aux)
    requires s.cons.StoreFrontBlock? && Later(g, g') && 0 < g.t < |g.bs| == |g.ring|
    requires s' == s.(frontBlock := s.cons.nb, cons := ReadSlot(Dequeue, s.cons.nb))
    requires g' == g.(ring := Rotated(g.ring), bs := Rotated(g.bs), t := g.t - 1, sawEmpty := g'.sawEmpty, sawFull := g'.sawFull)
    requires Inv(s, g)
    ensures Inv(s', g')
  {
    hide Fill, ProducerInv, FreshInv, ConsumerInv, CapacityOk, Ring;
    RotateRing(s.blocks, g.ring, g.bs);
    RotateMid(s.prod, s.cons.nb, g.ring, g.bs, g.t, g.sawFull, g'.sawFull, g.sawEmpty, g'.sawEmpty);
    RotateFresh(s.prod, s.blocks, g.ring, g.t);
    RingAt(s.blocks, g.ring, g.bs, 1);
  }

  lemma ElementsRotate(bs: seq<Block>, t: nat)
    requires 0 < t < |bs| && (forall i :: 0 <= i < |bs| ==> Valid(bs[i])) && bs[0].front == bs[0].tail
    ensures Flat(Rotated(bs)[..t]) == Flat(bs[..t + 1])
  {
    assert Rotated(bs)[..t] == bs[..t + 1][1..];
    assert Contents(bs[0]) == [];
  }

  // ------------------------------------------------------ steps and the abstract queue

  /** What a step does to the queue, as seen by its caller. */
  ghost predicate Refines(before: seq<Item>, ev: Event, after: seq<Item>, sawEmpty: bool, sawFull: bool) {
    match ev
    case Enqueued(x) => after == before + [x]
    case Dequeued(x) => before != [] && x == before[0] && after == before[1..]
    case Peeked(x) => before != [] && x == before[0] && after == before
    case ConsumeEmpty => after == before && sawEmpty
    case EnqueueFull => after == before && sawFull
    case _ => after == before
  }

  /** The history after a step from a state with these elements. */
  ghost function Seen(g: Aux, a: Action, elements: seq<Item>): Aux {
    g.(sawEmpty := !a.CallConsume? && (g.sawEmpty || elements == []),
       sawFull := !a.CallEnqueue? && (g.sawFull || |elements| >= g.cap.maxSize))
  }

  ghost predicate AuxOk(g: Aux) {
    g.t < |g.bs| == |g.ring| && forall i :: 0 <= i < |g.bs| ==> Valid(g.bs[i])
  }

  /** g' accounts for the step from s by a. */
  ghost predicate StepOk(s: State, g: Aux, a: Action, g': Aux) {
    && WellFormed(s) && Enabled(s, a) && AuxOk(g)
    && var r := Step(s, a);
       var h := Seen(g, a, Elements(g));
       && Inv(r.0, g') && AuxOk(g')
       && Refines(Elements(g), r.1, Elements(g'), g'.sawEmpty, g'.sawFull)
       && g'.sawEmpty == h.sawEmpty && g'.sawFull == h.sawFull && g'.cap == g.cap
  }

  /** Ring position k and its block. */
  ghost predicate Anchor(s: State, g: Aux, k: nat) {
    k < |g.bs| == |g.ring| && g.ring[k] < |s.blocks| && s.blocks[g.ring[k]] == g.bs[k] && Valid(g.bs[k])
  }

  ghost predicate AtTail(p: Producer) {
    p.LoadFront? || p.WriteSlot? || p.StoreTail? || p.LoadFrontBlock? || p.MakeBlock? || p.LinkBlock?
  }

  ghost predicate AtNext(p: Producer) { p.LoadNextFront? || p.WriteNextSlot? || p.StoreNextTail? }

  lemma TailAnchor(s: State, g: Aux)
    requires Inv(s, g)
    ensures WellFormed(s) && AuxOk(g) && Anchor(s, g, g.t) && g.ring[g.t] == s.tailBlock
    ensures AtTail(s.prod) ==> s.prod.b == s.tailBlock
    ensures |g.ring| == 1 ==> |g.bs[0].data| > g.cap.maxSize
  {
    hide FreshInv, ConsumerInv, Contents, Succ, ShadowsLag, Full, Distinct;
    RingAt(s.blocks, g.ring, g.bs, g.t);
  }

  lemma NextAnchor(s: State, g: Aux)
    requires Inv(s, g) && AtNext(s.prod)
    ensures WellFormed(s) && AuxOk(g) && Anchor(s, g, g.t + 1) && s.prod.nb == g.ring[g.t + 1]
  {
    hide FreshInv, ConsumerInv, CapacityOk, Contents, Succ, ShadowsLag, Full, Distinct;
    RingAt(s.blocks, g.ring, g.bs, g.t + 1);
  }

  /** The outcome of a step that rewrites one block. */
  lemma PutStepOk(s: State, g: Aux, a: Action, k: nat, b: Block, g': Aux)
    requires WellFormed(s) && Enabled(s, a) && AuxOk(g) && k < |g.bs| && Valid(b)
    requires g' == Seen(g, a, Elements(g)).(bs := g.bs[k := b]) && Inv(Step(s, a).0, g')
    requires AuxOk(g') && Refines(Elements(g), Step(s, a).1, Elements(g'), g'.sawEmpty, g'.sawFull)
    ensures StepOk(s, g, a, g')
  {
    hide Step, Inv, Refines;
  }

  lemma SameContents(o: Block, b: Block)
    requires Valid(o) && b == o.(localFront := b.localFront, localTail := b.localTail) && Valid(b)
    ensures Contents(b) == Contents(o)
  {
  }

  lemma ConsumerInvOf(s: State, g: Aux)
    requires Inv(s, g)
    ensures AuxOk(g) && ConsumerInv(s.cons, g.ring, g.bs, g.t, g.sawEmpty)
  {
    hide FreshInv, ProducerInv, ConsumerInv, CapacityOk, Contents, WellFormed;
  }

  lemma LoadFrontOk(s: State, g: Aux, m: bool) returns (g': Aux)
    requires Inv(s, g) && s.prod.LoadFront?
    ensures StepOk(s, g, RunProducer(m), g')
  {
    hide Inv, Contents, Flat;
    TailAnchor(s, g);
    var o := g.bs[g.t];
    var b := o.(localFront := o.front);
    var s' := Step(s, RunProducer(m)).0;
    g' := Seen(g, RunProducer(m), Elements(g)).(bs := g.bs[g.t := b]);
    assert Puts(s, g, s', g', g.t, b);
    SameContents(o, b);
    ElementsSame(g.bs, g.t, g.t, b);
    if Full(b) && |g.ring| == 1 { LoneBlockFull(g.bs); }
    LoadFrontKeeps(s, g, s', g', b);
    PutStepOk(s, g, RunProducer(m), g.t, b, g');
  }

  lemma SlotWritten(s: State, g: Aux, k: nat)
    requires Inv(s, g) && Anchor(s, g, k) && (s.prod.WriteSlot? || s.prod.WriteNextSlot?)
    ensures Contents(g.bs[k].(data := g.bs[k].data[g.bs[k].tail := s.prod.x])) == Contents(g.bs[k])
  {
    hide Shape, ProducerInv, FreshInv, ConsumerInv;
    WriteContents(g.bs[k], s.prod.x);
  }

  lemma TailPushed(s: State, g: Aux)
    requires Inv(s, g) && AuxOk(g) && s.prod.StoreTail?
    ensures Contents(g.bs[g.t].(tail := Succ(g.bs[g.t].tail, g.bs[g.t]))) == Contents(g.bs[g.t]) + [s.prod.x]
  {
    hide Shape, FreshInv, ConsumerInv;
    PushContents(g.bs[g.t]);
  }

  lemma WriteSlotOk(s: State, g: Aux, m: bool) returns (g': Aux)
    requires Inv(s, g) && s.prod.WriteSlot?
    ensures StepOk(s, g, RunProducer(m), g')
  {
    hide Inv, Contents, Flat;
    TailAnchor(s, g);
    var o := g.bs[g.t];
    var b := o.(data := o.data[o.tail := s.prod.x]);
    var s' := Step(s, RunProducer(m)).0;
    g' := Seen(g, RunProducer(m), Elements(g)).(bs := g.bs[g.t := b]);
    assert Puts(s, g, s', g', g.t, b);
    SlotWritten(s, g, g.t);
    ElementsSame(g.bs, g.t, g.t, b);
    WriteSlotKeeps(s, g, s', g', b);
    PutStepOk(s, g, RunProducer(m), g.t, b, g');
  }

  lemma StoreTailOk(s: State, g: Aux, m: bool) returns (g': Aux)
    requires Inv(s, g) && s.prod.StoreTail?
    ensures StepOk(s, g, RunProducer(m), g')
  {
    hide Inv, Contents, Flat;
    TailAnchor(s, g);
    var o := g.bs[g.t];
    var b := o.(tail := Succ(o.tail, o));
    var s' := Step(s, RunProducer(m)).0;
    g' := Seen(g, RunProducer(m), Elements(g)).(bs := g.bs[g.t := b]);
    assert Puts(s, g, s', g', g.t, b);
    TailPushed(s, g);
    ElementsPush(g.bs, g.t, b, s.prod.x);
    StoreTailKeeps(s, g, s', g', b);
    PutStepOk(s, g, RunProducer(m), g.t, b, g');
  }

  lemma LoadNextFrontOk(s: State, g: Aux, m: bool) returns (g': Aux)
    requires Inv(s, g) && s.prod.LoadNextFront?
    ensures StepOk(s, g, RunProducer(m), g')
  {
    hide Inv, Contents, Flat;
    NextAnchor(s, g);
    var o := g.bs[g.t + 1];
    var b := o.(localFront := o.front);
    var s' := Step(s, RunProducer(m)).0;
    g' := Seen(g, RunProducer(m), Elements(g)).(bs := g.bs[g.t + 1 := b]);
    assert Puts(s, g, s', g', g.t + 1, b);
    ElementsSame(g.bs, g.t, g.t + 1, b);
    LoadNextFrontKeeps(s, g, s', g', b);
    PutStepOk(s, g, RunProducer(m), g.t + 1, b, g');
  }

  lemma WriteNextSlotOk(s: State, g: Aux, m: bool) returns (g': Aux)
    requires Inv(s, g) && s.prod.WriteNextSlot?
    ensures StepOk(s, g, RunProducer(m), g')
  {
    hide Inv, Contents, Flat;
    NextAnchor(s, g);
    var o := g.bs[g.t + 1];
    var b := o.(data := o.data[o.tail := s.prod.x]);
    var s' := Step(s, RunProducer(m)).0;
    g' := Seen(g, RunProducer(m), Elements(g)).(bs := g.bs[g.t + 1 := b]);
    assert Puts(s, g, s', g', g.t + 1, b);
    ElementsSame(g.bs, g.t, g.t + 1, b);
    WriteNextSlotKeeps(s, g, s', g', b);
    PutStepOk(s, g, RunProducer(m), g.t + 1, b, g');
  }

  lemma StoreNextTailOk(s: State, g: Aux, m: bool) returns (g': Aux)
    requires Inv(s, g) && s.prod.StoreNextTail?
    ensures StepOk(s, g, RunProducer(m), g')
  {
    hide Inv, Contents, Flat;
    NextAnchor(s, g);
    var o := g.bs[g.t + 1];
    var b := o.(tail := Succ(o.tail, o));
    var s' := Step(s, RunProducer(m)).0;
    g' := Seen(g, RunProducer(m), Elements(g)).(bs := g.bs[g.t + 1 := b]);
    assert Puts(s, g, s', g', g.t + 1, b);
    ElementsSame(g.bs, g.t, g.t + 1, b);
    StoreNextTailKeeps(s, g, s', g', b);
    PutStepOk(s, g, RunProducer(m), g.t + 1, b, g');
  }

  lemma StoreTailBlockOk(s: State, g: Aux, m: bool) returns (g': Aux)
    requires Inv(s, g) && s.prod.StoreTailBlock?
    ensures StepOk(s, g, RunProducer(m), g')
  {
    hide Inv, Step, Contents;
    TailAnchor(s, g);
    StoreTailBlockIs(s, m);
    g' := Seen(g, RunProducer(m), Elements(g)).(t := g.t + 1);
    StoreTailBlockKeeps(s, g, Step(s, RunProducer(m)).0, g');
    ElementsExtend(g.bs, g.t);
  }

  lemma StoreTailBlockIs(s: State, m: bool)
    requires WellFormed(s) && s.prod.StoreTailBlock?
    ensures Step(s, RunProducer(m)) == (s.(tailBlock := s.prod.nb, prod := PIdle), Enqueued(s.prod.x))
  {
  }

  lemma StoreFrontBlockIs(s: State)
    requires WellFormed(s) && s.cons.StoreFrontBlock?
    ensures Step(s, RunConsumer) == (s.(frontBlock := s.cons.nb, cons := ReadSlot(Dequeue, s.cons.nb)), Silent)
  {
  }

  lemma MakeBlockOk(s: State, g: Aux, m: bool) returns (g': Aux)
    requires Inv(s, g) && s.prod.MakeBlock?
    ensures StepOk(s, g, RunProducer(m), g')
  {
    hide Inv;
    TailAnchor(s, g);
    g' := Seen(g, RunProducer(m), Elements(g));
    if m {
      MakeBlockKeeps(s, g, Step(s, RunProducer(m)).0, g', FreshBlock(NewBlockSize(s), s.prod.x, g.bs[g.t].next));
    } else {
      GoIdle(s, g, Step(s, RunProducer(m)).0, g');
    }
  }

  lemma LinkBlockOk(s: State, g: Aux, m: bool) returns (g': Aux)
    requires Inv(s, g) && s.prod.LinkBlock?
    ensures StepOk(s, g, RunProducer(m), g')
  {
    hide Inv, Contents, Flat, Valid;
    TailAnchor(s, g);
    var nb := s.prod.nb;
    g' := Seen(g, RunProducer(m), Elements(g)).(ring := Insert(g.ring, g.t + 1, nb), bs := LinkedIn(g.bs, g.t, nb, s.blocks[nb]));
    LinkBlockKeeps(s, g, Step(s, RunProducer(m)).0, g');
    ElementsLink(g.bs, g.t, nb, s.blocks[nb]);
    hide LinkedIn, Insert;
  }

  lemma LinkKeepsContents(b: Block, next: nat)
    requires Valid(b)
    ensures Valid(b.(next := next)) && Contents(b.(next := next)) == Contents(b)
  {
  }

  lemma ElementsLink(bs: seq<Block>, t: nat, nb: nat, blk: Block)
    requires t < |bs| && (forall i :: 0 <= i < |bs| ==> Valid(bs[i])) && Valid(blk)
    ensures |LinkedIn(bs, t, nb, blk)| == |bs| + 1 && (forall i :: 0 <= i <= |bs| ==> Valid(LinkedIn(bs, t, nb, blk)[i]))
    ensures Flat(LinkedIn(bs, t, nb, blk)[..t + 1]) == Flat(bs[..t + 1])
  {
    var b := bs[t].(next := nb);
    LinkKeepsContents(bs[t], nb);
    hide Contents;
    ElementsSame(bs, t, t, b);
    assert LinkedIn(bs, t, nb, blk)[..t + 1] == bs[t := b][..t + 1];
  }

  lemma GoIdle(s: State, g: Aux, s': State, g': Aux)
    requires Later(g, g') && s' == s.(prod := PIdle) && !s.prod.StoreTailBlock?
    requires g' == g.(sawEmpty := g'.sawEmpty, sawFull := g'.sawFull)
    requires Inv(s, g)
    ensures Inv(s', g')
  {
    hide Fill, Shape, ConsumerInv;
    TailAnchor(s, g);
    WellFormedOf(s, g);
    ConsumerLater(s, g, g');
    ShapeSame(s, g, s', g');
  }

  lemma ConsumerLater(s: State, g: Aux, g': Aux)
    requires Inv(s, g) && AuxOk(g) && Later(g, g')
    ensures ConsumerInv(s.cons, g.ring, g.bs, g.t, g'.sawEmpty) && ProducerInv(s.prod, g.ring, g.bs, g.t, g'.sawFull)
  {
    hide Fill, Shape, FreshInv;
  }

  lemma ShapeSame(s: State, g: Aux, s': State, g': Aux)
    requires Shape(s, g) && s' == s.(prod := s'.prod, cons := s'.cons)
    requires ProducerOk(s'.prod, |s.blocks|) && ConsumerOk(s'.cons, |s.blocks|)
    requires g' == g.(sawEmpty := g'.sawEmpty, sawFull := g'.sawFull)
    ensures Shape(s', g')
  {
    hide Ring, CapacityOk;
  }

  /** Full blocks hold all their slots but one. */
  lemma {:induction false} FlatFull(bs: seq<Block>, size: nat)
    requires size >= 1 && forall i :: 0 <= i < |bs| ==> Valid(bs[i]) && Full(bs[i]) && |bs[i].data| >= size
    ensures |Flat(bs)| >= |bs| * (size - 1)
  {
    if bs != [] {
      FlatFull(bs[1..], size);
      FullCount(bs[0]);
      hide Contents, Full, Valid;
      assert Flat(bs) == Contents(bs[0]) + Flat(bs[1..]);
      Distribute(|bs| - 1, size - 1);
    }
  }

  lemma FullCount(b: Block)
    requires Valid(b) && Full(b)
    ensures |Contents(b)| == |b.data| - 1
  {
  }

  lemma Distribute(n: nat, k: nat)
    ensures (n + 1) * k == n * k + k
  {
  }

  lemma RoomyProduct(cap: Capacity, n: nat)
    requires Roomy(cap) && n >= cap.count && n >= 2
    ensures (n - 1) * (cap.size - 1) >= cap.maxSize
  {
    var least := if cap.count == 1 then 2 else cap.count;
    NotNegative(n - least, cap.size - 1);
    Split(n - 1, least - 1, cap.size - 1);
  }

  lemma Split(n: nat, m: nat, k: nat)
    requires m <= n
    ensures n * k == m * k + (n - m) * k
  {
  }

  /** With the tail just behind the front, every block but the front one is full. */
  lemma FullRing(s: State, g: Aux)
    requires Inv(s, g) && AuxOk(g) && s.prod.LoadFrontBlock? && g.t + 1 == |g.ring| && |g.ring| >= 2
    ensures |Elements(g)| >= g.cap.maxSize
  {
    hide FreshInv, ConsumerInv, Contents, WellFormed;
    assert g.bs[..g.t + 1] == g.bs;
    forall i | 0 <= i < |g.bs| - 1
      ensures Valid(g.bs[1..][i]) && Full(g.bs[1..][i]) && |g.bs[1..][i].data| >= g.cap.size
    {
      assert g.bs[1..][i] == g.bs[i + 1] == s.blocks[g.ring[i + 1]];
    }
    FlatFull(g.bs[1..], g.cap.size);
    RoomyProduct(g.cap, |g.ring|);
  }

  /** The ring closes exactly behind its last block. */
  lemma NextIsFront(s: State, g: Aux)
    requires Inv(s, g) && AuxOk(g)
    ensures s.blocks[g.ring[g.t]].next == s.frontBlock <==> g.t + 1 == |g.ring|
    ensures g.t + 1 < |g.ring| ==> s.blocks[g.ring[g.t]].next == g.ring[g.t + 1]
    ensures g.t > 0 ==> s.blocks[g.ring[0]].next == g.ring[1]
  {
    hide Fill, FreshInv, ConsumerInv, ProducerInv, WellFormed, CapacityOk;
    RingAt(s.blocks, g.ring, g.bs, g.t);
    RingAt(s.blocks, g.ring, g.bs, 0);
  }

  lemma LoadFrontBlockOk(s: State, g: Aux, m: bool) returns (g': Aux)
    requires Inv(s, g) && s.prod.LoadFrontBlock?
    ensures StepOk(s, g, RunProducer(m), g')
  {
    hide Inv;
    TailAnchor(s, g);
    NextIsFront(s, g);
    g' := Seen(g, RunProducer(m), Elements(g));
    if g.t + 1 == |g.ring| && |g.ring| >= 2 { FullRing(s, g); }
    FoundFull(s, g, Step(s, RunProducer(m)).0, g');
  }

  lemma FoundFull(s: State, g: Aux, s': State, g': Aux)
    requires Later(g, g') && AuxOk(g) && g' == g.(sawEmpty := g'.sawEmpty, sawFull := g'.sawFull)
    requires s.prod.LoadFrontBlock? && s' == s.(prod := s'.prod)
    requires if g.t + 1 < |g.ring| then s'.prod == LoadNextFront(s.prod.x, g.ring[g.t + 1])
             else s'.prod.PIdle? || s'.prod == MakeBlock(s.prod.x, s.prod.b)
    requires Inv(s, g)
    ensures Inv(s', g') && (|g.ring| == 1 ==> g.sawFull)
  {
    hide Fill, Shape, ConsumerInv;
    TailAnchor(s, g);
    WellFormedOf(s, g);
    NextInRange(s, g);
    ConsumerLater(s, g, g');
    InRing(s, g);
    ShapeSame(s, g, s', g');
  }

  lemma InRing(s: State, g: Aux)
    requires Shape(s, g)
    ensures forall i :: 0 <= i < |g.ring| ==> g.ring[i] < |s.blocks|
  {
  }

  ghost predicate AtFront(c: Consumer) {
    c.LoadTail? || c.ReadSlot? || c.StoreFront? || c.LoadTailBlock? || c.ReloadTail? || c.LoadNext?
  }

  lemma FrontAnchor(s: State, g: Aux)
    requires Inv(s, g)
    ensures WellFormed(s) && AuxOk(g) && Anchor(s, g, 0) && g.ring[0] == s.frontBlock
    ensures AtFront(s.cons) ==> s.cons.b == s.frontBlock
    ensures s.tailBlock == s.frontBlock <==> g.t == 0
  {
    hide FreshInv, ProducerInv, CapacityOk, Contents, Succ;
    RingAt(s.blocks, g.ring, g.bs, 0);
  }

  lemma SecondAnchor(s: State, g: Aux)
    requires Inv(s, g) && (s.cons.LoadNextTail? || s.cons.StoreFrontBlock? || s.cons.PeekNext?)
    ensures WellFormed(s) && AuxOk(g) && g.t > 0 && Anchor(s, g, 1) && s.cons.nb == g.ring[1]
    ensures g.bs[0].front == g.bs[0].tail && g.bs[1].front != g.bs[1].tail
  {
    hide FreshInv, ProducerInv, CapacityOk, Contents, Succ, WellFormed, ShadowsLag, Full, Valid, Ring;
    TailAnchor(s, g);
    RingAt(s.blocks, g.ring, g.bs, 1);
  }

  lemma FrontPopped(s: State, g: Aux)
    requires Inv(s, g) && AuxOk(g) && (s.cons.ReadSlot? || s.cons.StoreFront?)
    ensures var o := g.bs[0];
            && Contents(o) != [] && Contents(o)[0] == o.data[o.front]
            && Contents(o.(front := Succ(o.front, o))) == Contents(o)[1..]
            && (s.cons.StoreFront? ==> s.cons.x == o.data[o.front])
  {
    hide Shape, FreshInv, ProducerInv;
    PopContents(g.bs[0]);
  }

  lemma EmptyFront(bs: seq<Block>)
    requires |bs| > 0 && (forall i :: 0 <= i < |bs| ==> Valid(bs[i])) && bs[0].front == bs[0].tail
    ensures Flat(bs[..1]) == []
  {
  }

  lemma LoadTailOk(s: State, g: Aux) returns (g': Aux)
    requires Inv(s, g) && s.cons.LoadTail?
    ensures StepOk(s, g, RunConsumer, g')
  {
    hide Inv, Contents, Flat;
    FrontAnchor(s, g);
    var o := g.bs[0];
    var b := o.(localTail := o.tail);
    var s' := Step(s, RunConsumer).0;
    g' := Seen(g, RunConsumer, Elements(g)).(bs := g.bs[0 := b]);
    assert Puts(s, g, s', g', 0, b);
    if o.front == o.tail && g.t == 0 { EmptyFront(g.bs); }
    SameContents(o, b);
    ElementsSame(g.bs, g.t, 0, b);
    LoadTailKeeps(s, g, s', g', b);
    PutStepOk(s, g, RunConsumer, 0, b, g');
  }

  lemma ReloadTailOk(s: State, g: Aux) returns (g': Aux)
    requires Inv(s, g) && s.cons.ReloadTail?
    ensures StepOk(s, g, RunConsumer, g')
  {
    hide Inv, Contents, Flat;
    FrontAnchor(s, g);
    var o := g.bs[0];
    var b := o.(localTail := o.tail);
    var s' := Step(s, RunConsumer).0;
    g' := Seen(g, RunConsumer, Elements(g)).(bs := g.bs[0 := b]);
    assert Puts(s, g, s', g', 0, b);
    SameContents(o, b);
    ElementsSame(g.bs, g.t, 0, b);
    ReloadTailKeeps(s, g, s', g', b);
    PutStepOk(s, g, RunConsumer, 0, b, g');
  }

  lemma StoreFrontOk(s: State, g: Aux) returns (g': Aux)
    requires Inv(s, g) && s.cons.StoreFront?
    ensures StepOk(s, g, RunConsumer, g')
  {
    hide Inv, Contents, Flat;
    FrontAnchor(s, g);
    var o := g.bs[0];
    var b := o.(front := Succ(o.front, o));
    var s' := Step(s, RunConsumer).0;
    g' := Seen(g, RunConsumer, Elements(g)).(bs := g.bs[0 := b]);
    assert Puts(s, g, s', g', 0, b);
    FrontPopped(s, g);
    ElementsPop(g.bs, g.t, b);
    StoreFrontKeeps(s, g, s', g', b);
    PutStepOk(s, g, RunConsumer, 0, b, g');
  }

  lemma LoadNextTailOk(s: State, g: Aux) returns (g': Aux)
    requires Inv(s, g) && s.cons.LoadNextTail? && s.cons.op.Dequeue?
    ensures StepOk(s, g, RunConsumer, g')
  {
    hide Inv, Contents, Flat;
    SecondAnchor(s, g);
    var o := g.bs[1];
    var b := o.(localTail := o.tail);
    var s' := Step(s, RunConsumer).0;
    g' := Seen(g, RunConsumer, Elements(g)).(bs := g.bs[1 := b]);
    assert Puts(s, g, s', g', 1, b);
    SameContents(o, b);
    ElementsSame(g.bs, g.t, 1, b);
    LoadNextTailKeeps(s, g, s', g', b);
    PutStepOk(s, g, RunConsumer, 1, b, g');
  }

  lemma StoreFrontBlockOk(s: State, g: Aux) returns (g': Aux)
    requires Inv(s, g) && s.cons.StoreFrontBlock?
    ensures StepOk(s, g, RunConsumer, g')
  {
    hide Inv, Step, Contents;
    SecondAnchor(s, g);
    StoreFrontBlockIs(s);
    g' := Seen(g, RunConsumer, Elements(g)).(ring := Rotated(g.ring), bs := Rotated(g.bs), t := g.t - 1);
    StoreFrontBlockKeeps(s, g, Step(s, RunConsumer).0, g');
    ElementsRotate(g.bs, g.t);
  }

  /** The consumer moves on without writing. */
  lemma ConsumerMoves(s: State, g: Aux, s': State, g': Aux)
    requires Later(g, g') && AuxOk(g) && g' == g.(sawEmpty := g'.sawEmpty, sawFull := g'.sawFull)
    requires s' == s.(cons := s'.cons) && ConsumerOk(s'.cons, |s.blocks|)
    requires ConsumerInv(s'.cons, g.ring, g.bs, g.t, g'.sawEmpty)
    requires Inv(s, g)
    ensures Inv(s', g')
  {
    hide Fill, Shape, ProducerInv, ConsumerInv, FreshInv;
    WellFormedOf(s, g);
    ConsumerLater(s, g, g');
    ShapeSame(s, g, s', g');
  }

  lemma ReadSlotOk(s: State, g: Aux) returns (g': Aux)
    requires Inv(s, g) && s.cons.ReadSlot?
    ensures StepOk(s, g, RunConsumer, g')
  {
    hide Inv, Contents, Flat;
    FrontAnchor(s, g);
    FrontPopped(s, g);
    ConsumerInvOf(s, g);
    var o := g.bs[0];
    g' := Seen(g, RunConsumer, Elements(g));
    var s' := Step(s, RunConsumer).0;
    ElementsPop(g.bs, g.t, o.(front := Succ(o.front, o)));
    ConsumerMoves(s, g, s', g');
  }

  lemma LoadTailBlockOk(s: State, g: Aux) returns (g': Aux)
    requires Inv(s, g) && s.cons.LoadTailBlock?
    ensures StepOk(s, g, RunConsumer, g')
  {
    hide Inv, Contents, Flat;
    FrontAnchor(s, g);
    ConsumerInvOf(s, g);
    g' := Seen(g, RunConsumer, Elements(g));
    ConsumerMoves(s, g, Step(s, RunConsumer).0, g');
  }

  lemma LoadNextOk(s: State, g: Aux) returns (g': Aux)
    requires Inv(s, g) && s.cons.LoadNext?
    ensures StepOk(s, g, RunConsumer, g')
  {
    hide Inv, Contents, Flat;
    FrontAnchor(s, g);
    NextIsFront(s, g);
    ConsumerInvOf(s, g);
    g' := Seen(g, RunConsumer, Elements(g));
    ConsumerMoves(s, g, Step(s, RunConsumer).0, g');
  }

  lemma PeekNextTailOk(s: State, g: Aux) returns (g': Aux)
    requires Inv(s, g) && s.cons.LoadNextTail? && s.cons.op.Peek?
    ensures StepOk(s, g, RunConsumer, g')
  {
    hide Inv;
    SecondAnchor(s, g);
    g' := Seen(g, RunConsumer, Elements(g));
    ConsumerMoves(s, g, Step(s, RunConsumer).0, g');
  }

  lemma PeekNextOk(s: State, g: Aux) returns (g': Aux)
    requires Inv(s, g) && s.cons.PeekNext?
    ensures StepOk(s, g, RunConsumer, g')
  {
    hide Inv;
    SecondAnchor(s, g);
    g' := Seen(g, RunConsumer, Elements(g));
    SecondHead(g.bs, g.t);
    ConsumerMoves(s, g, Step(s, RunConsumer).0, g');
  }

  lemma SecondHead(bs: seq<Block>, t: nat)
    requires 0 < t < |bs| && (forall i :: 0 <= i < |bs| ==> Valid(bs[i]))
    requires bs[0].front == bs[0].tail && bs[1].front != bs[1].tail
    ensures Flat(bs[..t + 1]) != [] && Flat(bs[..t + 1])[0] == bs[1].data[bs[1].front]
  {
    assert Contents(bs[0]) == [] && Contents(bs[1])[0] == bs[1].data[bs[1].front];
    hide Contents;
    assert bs[..t + 1][1..] == bs[1..t + 1];
    assert Flat(bs[1..t + 1]) == Contents(bs[1]) + Flat(bs[1..t + 1][1..]);
  }

  lemma BeginOk(s: State, g: Aux) returns (g': Aux)
    requires Inv(s, g) && s.cons.Begin?
    ensures StepOk(s, g, RunConsumer, g')
  {
    hide Inv, Step;
    FrontAnchor(s, g);
    BeginIs(s);
    g' := Seen(g, RunConsumer, Elements(g));
    ConsumerMoves(s, g, Step(s, RunConsumer).0, g');
  }

  lemma EnterOk(s: State, g: Aux, m: bool) returns (g': Aux)
    requires Inv(s, g) && s.prod.Enter?
    ensures StepOk(s, g, RunProducer(m), g')
  {
    hide Inv, Step, Succ;
    TailAnchor(s, g);
    EnterIs(s, m);
    g' := Seen(g, RunProducer(m), Elements(g));
    EnterKeeps(s, g, Step(s, RunProducer(m)).0, g');
  }

  lemma EnterIs(s: State, m: bool)
    requires WellFormed(s) && s.prod.Enter?
    ensures var r, b := Step(s, RunProducer(m)), s.blocks[s.tailBlock];
            && r.0 == s.(prod := r.0.prod) && r.1 == Silent && ProducerOk(r.0.prod, |s.blocks|)
            && r.0.prod == if Succ(b.tail, b) != b.localFront then WriteSlot(s.prod.x, s.tailBlock) else LoadFront(s.prod.x, s.prod.mode, s.tailBlock)
  {
  }

  lemma BeginIs(s: State)
    requires WellFormed(s) && s.cons.Begin?
    ensures var r, b := Step(s, RunConsumer), s.frontBlock;
            && r.1 == Silent && ConsumerOk(r.0.cons, |s.blocks|)
            && r.0 == s.(cons := if s.blocks[b].front != s.blocks[b].localTail then ReadSlot(s.cons.op, b) else LoadTail(s.cons.op, b))
  {
  }

  lemma EnterKeeps(s: State, g: Aux, s': State, g': Aux)
    requires Later(g, g') && AuxOk(g) && g' == g.(sawEmpty := g'.sawEmpty, sawFull := g'.sawFull)
    requires s.prod.Enter? && s' == s.(prod := s'.prod) && ProducerOk(s'.prod, |s.blocks|)
    requires if Succ(g.bs[g.t].tail, g.bs[g.t]) != g.bs[g.t].localFront then s'.prod == WriteSlot(s.prod.x, g.ring[g.t])
             else s'.prod == LoadFront(s.prod.x, s.prod.mode, g.ring[g.t])
    requires Inv(s, g)
    ensures Inv(s', g')
  {
    hide Fill, Shape, ConsumerInv;
    WellFormedOf(s, g);
    ConsumerLater(s, g, g');
    ShapeSame(s, g, s', g');
  }

  lemma CallOk(s: State, g: Aux, a: Action) returns (g': Aux)
    requires Inv(s, g) && Enabled(s, a) && (a.CallEnqueue? || a.CallConsume?)
    ensures StepOk(s, g, a, g')
  {
    hide Inv, Shape, Fill;
    TailAnchor(s, g);
    g' := Seen(g, a, Elements(g));
    CallKeeps(s, g, a, Step(s, a).0, g');
  }

  lemma CallKeeps(s: State, g: Aux, a: Action, s': State, g': Aux)
    requires Inv(s, g) && Enabled(s, a)
    requires g' == g.(sawEmpty := g'.sawEmpty, sawFull := g'.sawFull)
    requires || (a.CallEnqueue? && s' == s.(prod := Enter(a.x, a.mode)) && (g.sawEmpty ==> g'.sawEmpty))
             || (a.CallConsume? && s' == s.(cons := Begin(a.op)) && (g.sawFull ==> g'.sawFull))
    ensures Inv(s', g')
  {
    hide Fill, Shape;
    WellFormedOf(s, g);
    ShapeSame(s, g, s', g');
  }

  lemma ProducerOkStep(s: State, g: Aux, m: bool) returns (g': Aux)
    requires Inv(s, g) && !s.prod.PIdle?
    ensures StepOk(s, g, RunProducer(m), g')
  {
    hide *;
    match s.prod {
      case Enter(_, _) => g' := EnterOk(s, g, m);
      case LoadFront(_, _, _) => g' := LoadFrontOk(s, g, m);
      case WriteSlot(_, _) => g' := WriteSlotOk(s, g, m);
      case StoreTail(_, _) => g' := StoreTailOk(s, g, m);
      case LoadFrontBlock(_, _, _) => g' := LoadFrontBlockOk(s, g, m);
      case LoadNextFront(_, _) => g' := LoadNextFrontOk(s, g, m);
      case WriteNextSlot(_, _) => g' := WriteNextSlotOk(s, g, m);
      case StoreNextTail(_, _) => g' := StoreNextTailOk(s, g, m);
      case StoreTailBlock(_, _) => g' := StoreTailBlockOk(s, g, m);
      case MakeBlock(_, _) => g' := MakeBlockOk(s, g, m);
      case LinkBlock(_, _, _) => g' := LinkBlockOk(s, g, m);
    }
  }

  lemma ConsumerOkStep(s: State, g: Aux) returns (g': Aux)
    requires Inv(s, g) && !s.cons.CIdle?
    ensures StepOk(s, g, RunConsumer, g')
  {
    hide *;
    match s.cons {
      case Begin(_) => g' := BeginOk(s, g);
      case LoadTail(_, _) => g' := LoadTailOk(s, g);
      case ReadSlot(_, _) => g' := ReadSlotOk(s, g);
      case StoreFront(_, _) => g' := StoreFrontOk(s, g);
      case LoadTailBlock(_, _) => g' := LoadTailBlockOk(s, g);
      case ReloadTail(_, _) => g' := ReloadTailOk(s, g);
      case LoadNext(_, _) => g' := LoadNextOk(s, g);
      case LoadNextTail(op, _) => if op.Dequeue? { g' := LoadNextTailOk(s, g); } else { g' := PeekNextTailOk(s, g); }
      case StoreFrontBlock(_) => g' := StoreFrontBlockOk(s, g);
      case PeekNext(_) => g' := PeekNextOk(s, g);
    }
  }

  /** Every step of either thread keeps the invariant and acts on the queue as its event says. */
  lemma Preserved(s: State, g: Aux, a: Action) returns (g': Aux)
    requires Inv(s, g) && Enabled(s, a)
    ensures StepOk(s, g, a, g')
  {
    hide Inv, StepOk;
    match a {
      case RunProducer(m) => g' := ProducerOkStep(s, g, m);
      case RunConsumer => g' := ConsumerOkStep(s, g);
      case _ => g' := CallOk(s, g, a);
    }
  }
}
