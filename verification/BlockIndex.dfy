/** The storage of one implicit producer of the MPMC queue (concurrentqueue.h,
    ImplicitProducer): elements live in blocks of BLOCK_SIZE slots, and a growing
    circular index maps the base index of every live block to the block.

    Queue indices are 64-bit words in the code; here tailIndex and headIndex are
    the unwrapped indices, and everything stored in or computed from the block
    index is a word. */
module BlockIndex {
  import opened Common
  import opened RoundUp
  import Tickets

  type Item = nat
  type BlockId = nat

  const BLOCK_SIZE: nat := 32
  const INITIAL_INDEX_SIZE: nat := 32

  /** The number of blocks in one turn of the index space. */
  const BLOCKS: nat := 0x0800_0000_0000_0000

  /** Odd, so never the base of a block. */
  const INVALID_BLOCK_BASE: int := 1

  /** (i + delta) & (capacity - 1), for capacities that are powers of two. */
  function Wrap(i: int, capacity: nat): int requires capacity > 0 { i % capacity }

  /** The slot d places behind `tail` on the circle. */
  function Back(tail: nat, d: nat, capacity: nat): int { if d <= tail then tail - d else tail - d + capacity }

  /** get_block_index_index_for_index: BLOCK_SIZE is unsigned, so the difference of
      the bases is divided as an unsigned word even when it is negative. */
  function SlotFor(index: int, tail: nat, tailBase: int, capacity: nat): int requires capacity > 0 {
    var base := index - index % BLOCK_SIZE;
    var offset := Word(base - tailBase) / BLOCK_SIZE;
    Wrap(tail + offset, capacity)
  }

  // ------------------------------------------------------------- word arithmetic

  lemma {:induction false} PowerProduct(e: nat, f: nat)
    ensures Pow2(e) * Pow2(f) == Pow2(e + f)
  {
    if e > 0 {
      PowerProduct(e - 1, f);
      Twice(Pow2(e - 1), Pow2(f));
    }
  }

  lemma Twice(a: nat, b: nat)
    ensures 2 * a * b == 2 * (a * b)
  {
  }

  lemma SmallPowers()
    ensures Pow2(3) == 8 && Pow2(8) == 256
  {
  }

  lemma WholeTurn()
    ensures Pow2(59) == BLOCKS
  {
    hide Pow2;
    SmallPowers();
    PowerProduct(8, 8);
    assert Pow2(16) == 0x1_0000;
    PowerProduct(16, 16);
    assert Pow2(32) == 0x1_0000_0000;
    PowerProduct(32, 16);
    PowerProduct(48, 8);
    PowerProduct(56, 3);
  }

  lemma Remainder(q: int, d: nat, r: nat)
    requires r < d
    ensures (q * d + r) % d == r
  {
    var x := q * d + r;
    var p := x / d;
    assert x == p * d + x % d;
    if q > p { Multiples(q, p, d); } else if p > q { Multiples(p, q, d); }
  }

  lemma WrapBack(q: int, tail: nat, d: nat, capacity: nat)
    requires tail < capacity && d < capacity
    ensures Wrap(tail + (q * capacity - d), capacity) == Back(tail, d, capacity)
  {
    if d <= tail {
      Remainder(q, capacity, tail - d);
    } else {
      Remainder(q - 1, capacity, tail - d + capacity);
      assert (q - 1) * capacity == q * capacity - capacity;
    }
  }

  /** A whole turn is a whole number of blocks. */
  lemma SlotOfWord(index: int, k: int)
    ensures (index - RANGE * k) % BLOCK_SIZE == index % BLOCK_SIZE
  {
    var q, r := index / BLOCK_SIZE, index % BLOCK_SIZE;
    assert index - RANGE * k == BLOCK_SIZE * (q - BLOCKS * k) + r;
  }

  lemma BaseOfWord(b: nat, index: int)
    requires index / BLOCK_SIZE == b
    ensures Word(index) - Word(index) % BLOCK_SIZE == Word(BLOCK_SIZE * b)
  {
    var k := index / RANGE;
    WordIs(index, k);
    SlotOfWord(index, k);
    assert BLOCK_SIZE * b == index - index % BLOCK_SIZE;
    hide Word;
    WordIs(BLOCK_SIZE * b, k);
  }

  /** A base d blocks back, as an unsigned word, is d short of a whole turn. */
  lemma BackOffset(d: nat)
    requires d < BLOCKS
    ensures Word(-(BLOCK_SIZE * d)) / BLOCK_SIZE == if d == 0 then 0 else BLOCKS - d
  {
    hide Word;
    WordIs(-(BLOCK_SIZE * d), if d == 0 then 0 else -1);
    assert d > 0 ==> RANGE - BLOCK_SIZE * d == BLOCK_SIZE * (BLOCKS - d);
  }

  /** The unsigned division of a negative difference finds the right slot, because
      the capacity divides the number of blocks in the index space. */
  lemma SlotIsBack(b: nat, newest: nat, index: int, tail: nat, capacity: nat, q: nat)
    requires b <= newest < b + capacity && tail < capacity && q * capacity == BLOCKS && q > 0
    requires index / BLOCK_SIZE == b
    ensures SlotFor(Word(index), tail, Word(BLOCK_SIZE * newest), capacity) == Back(tail, newest - b, capacity)
  {
    var d := newest - b;
    BaseOfWord(b, index);
    WordOfDifference(BLOCK_SIZE * b, BLOCK_SIZE * newest);
    assert BLOCK_SIZE * b - BLOCK_SIZE * newest == -(BLOCK_SIZE * d);
    assert capacity <= BLOCKS;
    BackOffset(d);
    WrapBack(q, tail, d, capacity);
    WrapBack(0, tail, 0, capacity);
  }

  // ----------------------------------------------------------------- the size limit

  /** The refusals of enqueue at a block boundary, on words: the indices would span half their
      range, or the sub-queue would outgrow MAX_SUBQUEUE_SIZE, if that is set. */
  predicate TooLong(head: int, tail: int, limit: Option<nat>) {
    || !Tickets.CircularLessThan(Word(head), Word(tail + BLOCK_SIZE))
    || (limit.Some? && (limit.value == 0 || Word(limit.value - BLOCK_SIZE) < Word(tail - head)))
  }

  /** The limit is a whole number of blocks; then a block is refused exactly when filling it would
      pass the limit or half the index range. */
  lemma RefusalIsExact(head: int, tail: int, limit: Option<nat>)
    requires head <= tail < head + Tickets.HALF_RANGE
    requires limit.Some? ==> limit.value % BLOCK_SIZE == 0 && limit.value < RANGE
    ensures TooLong(head, tail, limit) <==>
            tail + BLOCK_SIZE - head >= Tickets.HALF_RANGE || (limit.Some? && tail + BLOCK_SIZE - head > limit.value)
  {
    Tickets.CircularOrderIsExact(head, tail + BLOCK_SIZE);
    if limit.Some? && limit.value != 0 { assert limit.value >= BLOCK_SIZE; }
  }

  // ------------------------------------------------------------- the index itself

  function Get(live: map<nat, BlockId>, j: nat): Option<BlockId> { if j in live then Some(live[j]) else None }

  predicate Vacant(key: int, value: Option<BlockId>) { key == INVALID_BLOCK_BASE || value.None? }

  /** Going back from `tail` the slots hold the bases of the newest `window` blocks,
      each with its block if that is live; all live blocks are among them, and the
      other slots may be taken. */
  ghost predicate IndexOk(keys: seq<int>, values: seq<Option<BlockId>>, tail: nat, blocks: nat, window: nat, live: map<nat, BlockId>) {
    && |keys| == |values| && tail < |keys| && window <= |keys| && window <= blocks
    && (forall d :: 0 <= d < window ==>
          && keys[Back(tail, d, |keys|)] == Word(BLOCK_SIZE * (blocks - 1 - d))
          && values[Back(tail, d, |keys|)] == Get(live, blocks - 1 - d))
    && (forall d :: window <= d < |keys| ==> Vacant(keys[Back(tail, d, |keys|)], values[Back(tail, d, |keys|)]))
    && (forall j :: j in live ==> blocks - window <= j < blocks)
  }

  /** The capacity is a power of two that fits the index space. */
  ghost predicate CapacityOk(capacity: nat, e: nat) { e < 59 && capacity == Pow2(e) }

  lemma IndexBounds(keys: seq<int>, values: seq<Option<BlockId>>, tail: nat, blocks: nat, window: nat, live: map<nat, BlockId>)
    requires IndexOk(keys, values, tail, blocks, window, live)
    ensures |keys| == |values| && tail < |keys|
  {
  }

  lemma NextSlot(tail: nat, capacity: nat)
    requires tail < capacity
    ensures 0 <= Wrap(tail + 1, capacity) == Back(tail, capacity - 1, capacity) < capacity
  {
  }

  /** Every slot lies some distance back, and only one. */
  lemma BackAgain(tail: nat, d: nat, capacity: nat)
    requires tail < capacity && d < capacity
    ensures var nt := Back(tail, capacity - 1, capacity);
            0 <= nt < capacity && Back(nt, d, capacity) == if d == 0 then nt else Back(tail, d - 1, capacity)
  {
  }

  /** Inserting the next block's base in a vacant slot and publishing the block. */
  lemma InsertPublish(keys: seq<int>, values: seq<Option<BlockId>>, tail: nat, blocks: nat, window: nat, live: map<nat, BlockId>, id: BlockId)
    requires IndexOk(keys, values, tail, blocks, window, live)
    requires var nt := Back(tail, |keys| - 1, |keys|); Vacant(keys[nt], values[nt])
    ensures var nt := Back(tail, |keys| - 1, |keys|);
            var window' := if window < |keys| then window + 1 else window;
            IndexOk(keys[nt := Word(BLOCK_SIZE * blocks)], values[nt := Some(id)], nt, blocks + 1, window', live[blocks := id])
  {
    var nt := Back(tail, |keys| - 1, |keys|);
    forall d | 0 <= d < |keys| ensures Back(nt, d, |keys|) == if d == 0 then nt else Back(tail, d - 1, |keys|) {
      BackAgain(tail, d, |keys|);
    }
    OldestIsDead(keys, values, tail, blocks, window, live);
  }

  /** A vacant slot at the end of a full window belongs to a block that is gone. */
  lemma OldestIsDead(keys: seq<int>, values: seq<Option<BlockId>>, tail: nat, blocks: nat, window: nat, live: map<nat, BlockId>)
    requires IndexOk(keys, values, tail, blocks, window, live) && |keys| > 0
    requires var nt := Back(tail, |keys| - 1, |keys|); Vacant(keys[nt], values[nt])
    ensures window == |keys| ==> blocks - window !in live
  {
  }

  /** Inserting a base and rewinding again, for want of a block. */
  lemma InsertRewind(keys: seq<int>, values: seq<Option<BlockId>>, tail: nat, blocks: nat, window: nat, live: map<nat, BlockId>)
    requires IndexOk(keys, values, tail, blocks, window, live) && |keys| > 0
    requires var nt := Back(tail, |keys| - 1, |keys|); Vacant(keys[nt], values[nt])
    ensures var nt := Back(tail, |keys| - 1, |keys|);
            var window' := if window < |keys| then window else window - 1;
            IndexOk(keys[nt := Word(BLOCK_SIZE * blocks)], values[nt := None], tail, blocks, window', live)
  {
  }

  /** The last consumer of a block empties its slot. */
  lemma FreeSlot(keys: seq<int>, values: seq<Option<BlockId>>, tail: nat, blocks: nat, window: nat, live: map<nat, BlockId>, j: nat)
    requires IndexOk(keys, values, tail, blocks, window, live) && j in live
    ensures 0 <= Back(tail, blocks - 1 - j, |keys|) < |keys|
    ensures IndexOk(keys, values[Back(tail, blocks - 1 - j, |keys|) := None], tail, blocks, window, live - {j})
  {
  }

  /** A slot sequence read from the oldest place to the newest. */
  ghost function Unrolled<T>(a: seq<T>, tail: nat): seq<T> requires tail < |a| { a[tail + 1..] + a[..tail + 1] }

  /** Doubling keeps every live block where the arithmetic will look for it. */
  lemma Doubled(keys: seq<int>, values: seq<Option<BlockId>>, tail: nat, blocks: nat, window: nat, live: map<nat, BlockId>,
                keys': seq<int>, values': seq<Option<BlockId>>)
    requires IndexOk(keys, values, tail, blocks, window, live)
    requires |keys'| == |values'| == 2 * |keys|
    requires keys'[..|keys|] == Unrolled(keys, tail) && values'[..|keys|] == Unrolled(values, tail)
    requires forall i :: |keys| <= i < |keys'| ==> keys'[i] == INVALID_BLOCK_BASE
    ensures IndexOk(keys', values', |keys| - 1, blocks, window, live)
  {
    var n := |keys|;
    var m, last := |keys'|, |keys| - 1;
    forall d | 0 <= d < n
      ensures keys'[Back(last, d, m)] == keys[Back(tail, d, n)] && values'[Back(last, d, m)] == values[Back(tail, d, n)]
    {
      assert keys'[last - d] == keys'[..n][last - d] && values'[last - d] == values'[..n][last - d];
    }
    forall d | window <= d < m
      ensures Vacant(keys'[Back(last, d, m)], values'[Back(last, d, m)])
    {
      if d < n { assert Vacant(keys[Back(tail, d, n)], values[Back(tail, d, n)]); }
    }
  }

  // ------------------------------------------------------------- the stored elements

  /** The consumed indices of block j. */
  ghost function DoneIn(consumed: set<nat>, j: nat): set<nat> { set i | i in consumed && i / BLOCK_SIZE == j }

  ghost function Interval(lo: nat, n: nat): (r: set<nat>)
    ensures |r| == n && forall i :: i in r <==> lo <= i < lo + n
  {
    if n == 0 then {} else Interval(lo, n - 1) + {lo + n - 1}
  }

  /** A block is done when all its indices are. */
  lemma DoneWhenFull(consumed: set<nat>, j: nat)
    ensures |DoneIn(consumed, j)| <= BLOCK_SIZE
    ensures |DoneIn(consumed, j)| == BLOCK_SIZE <==> forall i :: BLOCK_SIZE * j <= i < BLOCK_SIZE * j + BLOCK_SIZE ==> i in consumed
  {
    var all := Interval(BLOCK_SIZE * j, BLOCK_SIZE);
    assert forall i :: i in all <==> i >= 0 && i / BLOCK_SIZE == j;
    SubsetSize(DoneIn(consumed, j), all);
    assert all <= consumed ==> DoneIn(consumed, j) == all;
    assert all <= consumed <==> forall i :: BLOCK_SIZE * j <= i < BLOCK_SIZE * j + BLOCK_SIZE ==> i in consumed;
  }

  /** Number of blocks begun for n elements. */
  function Blocks(n: nat): nat { (n + BLOCK_SIZE - 1) / BLOCK_SIZE }

  /** Block j of the live ones: its count, and the elements not yet consumed. */
  ghost predicate BlockHolds(j: nat, id: BlockId, log: seq<Item>, consumed: set<nat>, mem: map<BlockId, seq<Item>>, count: map<BlockId, nat>) {
    && id in mem && |mem[id]| == BLOCK_SIZE
    && id in count && count[id] == |DoneIn(consumed, j)| < BLOCK_SIZE
    && (forall k :: 0 <= k < BLOCK_SIZE && BLOCK_SIZE * j + k < |log| && BLOCK_SIZE * j + k !in consumed ==>
          mem[id][k] == log[BLOCK_SIZE * j + k])
  }

  function Write(cells: seq<Item>, k: nat, x: Item): seq<Item> requires k < |cells| { cells[k := x] }

  ghost predicate StoreOk(log: seq<Item>, head: nat, consumed: set<nat>, mem: map<BlockId, seq<Item>>, count: map<BlockId, nat>,
                          live: map<nat, BlockId>)
  {
    && head <= |log|
    && (forall i :: i in consumed ==> i < head)
    && (forall j :: j in live ==> BlockHolds(j, live[j], log, consumed, mem, count))
    && (forall j, k :: j in live && k in live && j != k ==> live[j] != live[k])
    && (forall j :: 0 <= j < Blocks(|log|) && j !in live ==> |DoneIn(consumed, j)| == BLOCK_SIZE)
  }

  lemma DoneGrows(consumed: set<nat>, i: nat, j: nat)
    requires i !in consumed
    ensures |DoneIn(consumed + {i}, j)| == |DoneIn(consumed, j)| + if i / BLOCK_SIZE == j then 1 else 0
  {
    if i / BLOCK_SIZE == j {
      assert DoneIn(consumed + {i}, j) == DoneIn(consumed, j) + {i};
    } else {
      assert DoneIn(consumed + {i}, j) == DoneIn(consumed, j);
    }
  }

  /** An unconsumed index lies in a live block. */
  lemma UnconsumedIsLive(log: seq<Item>, head: nat, consumed: set<nat>, mem: map<BlockId, seq<Item>>, count: map<BlockId, nat>,
                         live: map<nat, BlockId>, i: nat)
    requires StoreOk(log, head, consumed, mem, count, live) && i < |log| && i !in consumed
    ensures i / BLOCK_SIZE in live && i / BLOCK_SIZE < Blocks(|log|)
    ensures BlockHolds(i / BLOCK_SIZE, live[i / BLOCK_SIZE], log, consumed, mem, count)
    ensures mem[live[i / BLOCK_SIZE]][i % BLOCK_SIZE] == log[i]
  {
    var j := i / BLOCK_SIZE;
    DoneWhenFull(consumed, j);
    assert i == BLOCK_SIZE * j + i % BLOCK_SIZE;
    assert j < Blocks(|log|);
  }

  /** Consuming an index counts it in its block, and frees the block when it is the last. */
  lemma StoreConsume(log: seq<Item>, head: nat, consumed: set<nat>, mem: map<BlockId, seq<Item>>, count: map<BlockId, nat>,
                     live: map<nat, BlockId>, i: nat, id: BlockId)
    requires StoreOk(log, head, consumed, mem, count, live) && i < head && i !in consumed
    requires i / BLOCK_SIZE in live && live[i / BLOCK_SIZE] == id && id in count
    ensures StoreOk(log, head, consumed + {i}, mem, count[id := count[id] + 1],
                    if count[id] + 1 == BLOCK_SIZE then live - {i / BLOCK_SIZE} else live)
  {
    var j := i / BLOCK_SIZE;
    var consumed', count' := consumed + {i}, count[id := count[id] + 1];
    var live' := if count[id] + 1 == BLOCK_SIZE then live - {j} else live;
    assert BlockHolds(j, id, log, consumed, mem, count);
    forall k | 0 <= k ensures |DoneIn(consumed', k)| == |DoneIn(consumed, k)| + if j == k then 1 else 0 { DoneGrows(consumed, i, k); }
    forall k | k in live' ensures BlockHolds(k, live'[k], log, consumed', mem, count') {
      assert BlockHolds(k, live[k], log, consumed, mem, count);
    }
  }

  /** A new element in the block the tail is in. */
  lemma StoreAppend(log: seq<Item>, head: nat, consumed: set<nat>, mem: map<BlockId, seq<Item>>, count: map<BlockId, nat>,
                    live: map<nat, BlockId>, x: Item, id: BlockId)
    requires StoreOk(log, head, consumed, mem, count, live) && |log| % BLOCK_SIZE != 0
    requires Blocks(|log|) - 1 in live && live[Blocks(|log|) - 1] == id && id in mem && |mem[id]| == BLOCK_SIZE
    ensures StoreOk(log + [x], head, consumed, mem[id := Write(mem[id], |log| % BLOCK_SIZE, x)], count, live)
    ensures Blocks(|log| + 1) == Blocks(|log|)
  {
    var last := Blocks(|log|) - 1;
    assert last == |log| / BLOCK_SIZE && |log| == BLOCK_SIZE * last + |log| % BLOCK_SIZE;
    var mem' := mem[id := Write(mem[id], |log| % BLOCK_SIZE, x)];
    forall k | k in live ensures BlockHolds(k, live[k], log + [x], consumed, mem', count) {
      assert BlockHolds(k, live[k], log, consumed, mem, count);
    }
  }

  /** A new element in a new block. */
  lemma StoreNewBlock(log: seq<Item>, head: nat, consumed: set<nat>, mem: map<BlockId, seq<Item>>, count: map<BlockId, nat>,
                      live: map<nat, BlockId>, x: Item, id: BlockId, cells: seq<Item>)
    requires StoreOk(log, head, consumed, mem, count, live) && |log| % BLOCK_SIZE == 0
    requires id !in live.Values && |cells| == BLOCK_SIZE && cells[0] == x
    requires forall j :: j in live ==> j < Blocks(|log|)
    ensures StoreOk(log + [x], head, consumed, mem[id := cells], count[id := 0], live[Blocks(|log|) := id])
    ensures Blocks(|log| + 1) == Blocks(|log|) + 1
  {
  }

  lemma StoreBounds(log: seq<Item>, head: nat, consumed: set<nat>, mem: map<BlockId, seq<Item>>, count: map<BlockId, nat>,
                    live: map<nat, BlockId>)
    requires StoreOk(log, head, consumed, mem, count, live)
    ensures head <= |log| && forall i :: i in consumed ==> i < head
  {
  }

  lemma StoreBlock(log: seq<Item>, head: nat, consumed: set<nat>, mem: map<BlockId, seq<Item>>, count: map<BlockId, nat>,
                   live: map<nat, BlockId>, j: nat)
    requires StoreOk(log, head, consumed, mem, count, live) && j in live
    ensures BlockHolds(j, live[j], log, consumed, mem, count)
  {
  }

  lemma BlockFacts(j: nat, id: BlockId, log: seq<Item>, consumed: set<nat>, mem: map<BlockId, seq<Item>>, count: map<BlockId, nat>)
    requires BlockHolds(j, id, log, consumed, mem, count)
    ensures id in mem && |mem[id]| == BLOCK_SIZE && id in count && count[id] == |DoneIn(consumed, j)| < BLOCK_SIZE
  {
  }

  /** All that consuming index i amounts to. */
  lemma ConsumeFacts(log: seq<Item>, head: nat, consumed: set<nat>, mem: map<BlockId, seq<Item>>, count: map<BlockId, nat>,
                     live: map<nat, BlockId>, i: nat)
    requires StoreOk(log, head, consumed, mem, count, live) && i < head && i !in consumed
    ensures i < |log| && i / BLOCK_SIZE in live
    ensures var j := i / BLOCK_SIZE; var id := live[j];
            && id in mem && id in count && |mem[id]| == BLOCK_SIZE && mem[id][i % BLOCK_SIZE] == log[i]
            && (count[id] + 1 == BLOCK_SIZE <==> forall k :: BLOCK_SIZE * j <= k < BLOCK_SIZE * j + BLOCK_SIZE ==> k in consumed + {i})
            && StoreOk(log, head, consumed + {i}, mem, count[id := count[id] + 1],
                       if count[id] + 1 == BLOCK_SIZE then live - {j} else live)
            && (count[id] + 1 == BLOCK_SIZE && |log| % BLOCK_SIZE != 0 ==> Blocks(|log|) - 1 != j)
  {
    StoreBounds(log, head, consumed, mem, count, live);
    hide StoreOk;
    var j := i / BLOCK_SIZE;
    UnconsumedIsLive(log, head, consumed, mem, count, live, i);
    BlockFacts(j, live[j], log, consumed, mem, count);
    hide BlockHolds;
    DoneGrows(consumed, i, j);
    DoneWhenFull(consumed + {i}, j);
    hide DoneIn;
    StoreConsume(log, head, consumed, mem, count, live, i, live[j]);
    if count[live[j]] + 1 == BLOCK_SIZE { LastInBlock(|log|, consumed + {i}, head, j); }
  }

  lemma LiveBounds(keys: seq<int>, values: seq<Option<BlockId>>, tail: nat, blocks: nat, window: nat, live: map<nat, BlockId>)
    requires IndexOk(keys, values, tail, blocks, window, live)
    ensures forall j :: j in live ==> j < blocks
  {
  }

  lemma Boundary(n: nat)
    requires n % BLOCK_SIZE == 0
    ensures n == BLOCK_SIZE * Blocks(n) && (n + 1) % BLOCK_SIZE != 0
  {
  }

  /** All that a new block at a boundary amounts to. */
  lemma PublishFacts(keys: seq<int>, values: seq<Option<BlockId>>, tail: nat, window: nat, live: map<nat, BlockId>, id: BlockId,
                     log: seq<Item>, head: nat, consumed: set<nat>, mem: map<BlockId, seq<Item>>, count: map<BlockId, nat>,
                     x: Item, cells: seq<Item>)
    requires IndexOk(keys, values, tail, Blocks(|log|), window, live) && StoreOk(log, head, consumed, mem, count, live)
    requires |log| % BLOCK_SIZE == 0 && id !in live.Values && cells == Write(seq(BLOCK_SIZE, _ => 0), 0, x)
    requires var nt := Back(tail, |keys| - 1, |keys|); Vacant(keys[nt], values[nt])
    ensures var nt := Back(tail, |keys| - 1, |keys|);
            && IndexOk(keys[nt := Word(|log|)], values[nt := Some(id)], nt, Blocks(|log| + 1),
                       if window < |keys| then window + 1 else window, live[Blocks(|log|) := id])
            && StoreOk(log + [x], head, consumed, mem[id := cells], count[id := 0], live[Blocks(|log|) := id])
            && Blocks(|log| + 1) == Blocks(|log|) + 1
  {
    Boundary(|log|);
    InsertPublish(keys, values, tail, Blocks(|log|), window, live, id);
    LiveBounds(keys, values, tail, Blocks(|log|), window, live);
    StoreNewBlock(log, head, consumed, mem, count, live, x, id, cells);
    hide IndexOk, StoreOk;
  }

  /** The block the tail is in has indices nobody can have consumed. */
  lemma LastInBlock(n: nat, consumed: set<nat>, head: nat, j: nat)
    requires head <= n && (forall i :: i in consumed ==> i < head)
    requires forall k :: BLOCK_SIZE * j <= k < BLOCK_SIZE * j + BLOCK_SIZE ==> k in consumed
    ensures n % BLOCK_SIZE != 0 ==> Blocks(n) - 1 != j
  {
    assert BLOCK_SIZE * j + BLOCK_SIZE - 1 in consumed;
  }

  method CopyEntries(prev: seq<int>, prevValues: seq<Option<BlockId>>, prevTail: nat) returns (index: seq<int>, vals: seq<Option<BlockId>>)
    requires prevTail < |prev| == |prevValues|
    ensures |index| == |vals| == 2 * |prev|
    ensures index[..|prev|] == Unrolled(prev, prevTail) && vals[..|prev|] == Unrolled(prevValues, prevTail)
    ensures forall k :: |prev| <= k < |index| ==> index[k] == INVALID_BLOCK_BASE
  {
    index, vals := [], [];
    var pos := prevTail;
    var i := 0;
    while i == 0 || pos != prevTail
      invariant 0 <= i <= |prev| && |index| == |vals| == i && 0 <= pos < |prev|
      invariant index == Unrolled(prev, prevTail)[..i] && vals == Unrolled(prevValues, prevTail)[..i]
      invariant pos == if prevTail + i < |prev| then prevTail + i else prevTail + i - |prev|
      decreases |prev| - i
    {
      NextSlot(pos, |prev|);
      pos := Wrap(pos + 1, |prev|);
      index, vals := index + [prev[pos]], vals + [prevValues[pos]];
      i := i + 1;
    }
    while i != 2 * |prev|
      invariant |prev| <= i <= 2 * |prev| && |index| == |vals| == i
      invariant index[..|prev|] == Unrolled(prev, prevTail) && vals[..|prev|] == Unrolled(prevValues, prevTail)
      invariant forall k :: |prev| <= k < i ==> index[k] == INVALID_BLOCK_BASE
    {
      var uninitialised: Option<BlockId> := *;
      index, vals := index + [INVALID_BLOCK_BASE], vals + [uninitialised];
      i := i + 1;
    }
  }

  /** The block index as the code has it: entries, and the slot of the newest block. */
  datatype BlockIndexHeader = BlockIndexHeader(keys: seq<int>, values: seq<Option<BlockId>>, tail: nat)

  /** Everything ever enqueued, the indices consumed, the live blocks by number, how
      many blocks the index remembers, and the logarithm of its capacity. */
  datatype History = History(log: seq<Item>, consumed: set<nat>, live: map<nat, BlockId>, window: nat, power: nat)

  class ImplicitProducer {
    var tailIndex: nat
    var headIndex: nat
    var tailBlock: BlockId
    var blockIndex: BlockIndexHeader

    // the blocks' memory and their elementsCompletelyDequeued
    var mem: map<BlockId, seq<Item>>
    var count: map<BlockId, nat>

    ghost var h: History

    ghost predicate Valid() reads this {
      && tailIndex == |h.log|
      && CapacityOk(|blockIndex.keys|, h.power)
      && IndexOk(blockIndex.keys, blockIndex.values, blockIndex.tail, Blocks(tailIndex), h.window, h.live)
      && StoreOk(h.log, headIndex, h.consumed, mem, count, h.live)
      && (tailIndex % BLOCK_SIZE != 0 ==> Blocks(tailIndex) - 1 in h.live && h.live[Blocks(tailIndex) - 1] == tailBlock)
    }

    constructor ()
      ensures Valid() && h.log == [] && h.consumed == {} && h.live == map[] && headIndex == 0
    {
      tailIndex, headIndex, tailBlock := 0, 0, 0;
      blockIndex := BlockIndexHeader(seq(INITIAL_INDEX_SIZE, _ => INVALID_BLOCK_BASE), seq(INITIAL_INDEX_SIZE, _ => None), INITIAL_INDEX_SIZE - 1);
      mem, count := map[], map[];
      h := History([], {}, map[], 0, 5);
    }

    /** new_block_index: the old entries, oldest first, then as many invalid ones. */
    method NewBlockIndex()
      requires Valid() && h.power + 1 < 59
      modifies this`blockIndex, this`h
      ensures Valid() && |blockIndex.keys| == 2 * old(|blockIndex.keys|) && h == old(h).(power := old(h.power) + 1)
      ensures blockIndex.tail == old(|blockIndex.keys|) - 1 && blockIndex.keys[blockIndex.tail + 1] == INVALID_BLOCK_BASE
    {
      hide IndexOk, StoreOk;
      var x := blockIndex;
      IndexBounds(x.keys, x.values, x.tail, Blocks(tailIndex), h.window, h.live);
      var index, vals := CopyEntries(x.keys, x.values, x.tail);
      Doubled(x.keys, x.values, x.tail, Blocks(tailIndex), h.window, h.live, index, vals);
      blockIndex := BlockIndexHeader(index, vals, |x.keys| - 1);
      h := h.(power := h.power + 1);
    }

    /** headIndex.fetch_add, at any claim of any run of the ticket protocol that has come to the
        same head and to no more elements: every index claimed may be consumed. */
    method Claim(ghost run: seq<Tickets.State>, ghost steps: seq<Tickets.Action>, ghost k: nat, n: nat) returns (first: nat)
      requires Valid() && Tickets.IsRun(run, steps) && k < |steps|
      requires Tickets.Step(run[k], steps[k]).1.Claimed? && Tickets.Step(run[k], steps[k]).1.count == n
      requires run[k].head == headIndex && run[k].tail <= tailIndex
      modifies this`headIndex
      ensures Valid() && first == old(headIndex) && headIndex == first + n == run[k + 1].head
      ensures forall i :: first <= i < first + n ==> i < |h.log| && i !in h.consumed && i / BLOCK_SIZE in h.live
    {
      hide IndexOk, BlockHolds;
      Tickets.ClaimsStayBelowTail(run, steps, k);
      hide Tickets.IsRun, Tickets.Step;
      first := headIndex;
      headIndex := headIndex + n;
      forall i | first <= i < first + n ensures i / BLOCK_SIZE in h.live {
        UnconsumedIsLive(h.log, headIndex, h.consumed, mem, count, h.live, i);
      }
    }

    /** get_block_index_entry_for_index: the slot of the block that index i lies in. */
    method Lookup(i: nat) returns (slot: nat)
      requires Valid() && i / BLOCK_SIZE in h.live
      ensures slot < |blockIndex.keys| == |blockIndex.values|
      ensures blockIndex.keys[slot] == Word(BLOCK_SIZE * (i / BLOCK_SIZE))
      ensures blockIndex.values[slot] == Some(h.live[i / BLOCK_SIZE])
      ensures slot == Back(blockIndex.tail, Blocks(tailIndex) - 1 - i / BLOCK_SIZE, |blockIndex.keys|)
    {
      var x := blockIndex;
      var b, newest := i / BLOCK_SIZE, Blocks(tailIndex) - 1;
      WholeTurn();
      PowerProduct(59 - h.power, h.power);
      assert x.keys[Back(x.tail, 0, |x.keys|)] == Word(BLOCK_SIZE * newest);
      SlotIsBack(b, newest, i, x.tail, |x.keys|, Pow2(59 - h.power));
      slot := SlotFor(Word(i), x.tail, x.keys[x.tail], |x.keys|);
    }

    /** The part of dequeue after the claim: find the block of index i, move the
        element out, count it, and give the block back if it was the last of its
        elements to go.  Claimed indices may be consumed in any order. */
    method Consume(i: nat) returns (x: Item, freed: Option<BlockId>)
      requires Valid() && i < headIndex && i !in h.consumed
      modifies this`count, this`blockIndex, this`h
      ensures Valid() && x == h.log[i]
      ensures i / BLOCK_SIZE in old(h.live)
      ensures var j := i / BLOCK_SIZE;
              var done := forall k :: BLOCK_SIZE * j <= k < BLOCK_SIZE * j + BLOCK_SIZE ==> k in old(h.consumed) + {i};
              && freed == (if done then Some(old(h.live)[j]) else None)
              && h == old(h).(consumed := old(h.consumed) + {i}, live := if done then old(h.live) - {j} else old(h.live))
    {
      hide IndexOk, StoreOk, DoneIn, Blocks;
      ghost var j := i / BLOCK_SIZE;
      ConsumeFacts(h.log, headIndex, h.consumed, mem, count, h.live, i);
      var slot := Lookup(i);
      hide Word, Back;
      var id := blockIndex.values[slot].value;
      x := mem[id][i % BLOCK_SIZE];
      var last := count[id] + 1 == BLOCK_SIZE;
      count := count[id := count[id] + 1];
      if last {
        FreeSlot(blockIndex.keys, blockIndex.values, blockIndex.tail, Blocks(tailIndex), h.window, h.live, j);
        blockIndex := blockIndex.(values := blockIndex.values[slot := None]);
        h := h.(consumed := h.consumed + {i}, live := h.live - {j});
        freed := Some(id);
      } else {
        h := h.(consumed := h.consumed + {i});
        freed := None;
      }
    }

    /** Whether the slot after the newest may be taken. */
    ghost predicate NextVacant() reads this {
      var x := blockIndex;
      0 < |x.keys| == |x.values| && Vacant(x.keys[Wrap(x.tail + 1, |x.keys|)], x.values[Wrap(x.tail + 1, |x.keys|)])
    }

    /** insert_block_index_entry, and rewind_block_index_tail for want of a block. */
    method InsertAndRewind()
      requires Valid() && tailIndex % BLOCK_SIZE == 0 && NextVacant()
      modifies this`blockIndex, this`h
      ensures Valid() && h == old(h).(window := h.window)
    {
      hide IndexOk, StoreOk;
      var x := blockIndex;
      Boundary(tailIndex);
      IndexBounds(x.keys, x.values, x.tail, Blocks(tailIndex), h.window, h.live);
      NextSlot(x.tail, |x.keys|);
      InsertRewind(x.keys, x.values, x.tail, Blocks(tailIndex), h.window, h.live);
      hide Blocks, Word, Back;
      var slot := Wrap(x.tail + 1, |x.keys|);
      h := h.(window := if h.window < |x.keys| then h.window else h.window - 1);
      blockIndex := BlockIndexHeader(x.keys[slot := Word(tailIndex)], x.values[slot := None], x.tail);
    }

    /** insert_block_index_entry, and the new block with its first element. */
    method InsertAndPublish(item: Item, id: BlockId)
      requires Valid() && tailIndex % BLOCK_SIZE == 0 && NextVacant() && id !in h.live.Values
      modifies this`tailIndex, this`tailBlock, this`blockIndex, this`mem, this`count, this`h
      ensures Valid()
      ensures h == old(h).(log := old(h.log) + [item], live := old(h.live)[old(Blocks(tailIndex)) := id], window := h.window)
    {
      hide IndexOk, StoreOk, Blocks, Word, Back, Vacant, Write;
      var x := blockIndex;
      IndexBounds(x.keys, x.values, x.tail, Blocks(tailIndex), h.window, h.live);
      NextSlot(x.tail, |x.keys|);
      var cells := Write(seq(BLOCK_SIZE, _ => 0), 0, item);
      PublishFacts(x.keys, x.values, x.tail, h.window, h.live, id, h.log, headIndex, h.consumed, mem, count, item, cells);
      var slot := Wrap(x.tail + 1, |x.keys|);
      hide Wrap, CapacityOk;
      h := h.(log := h.log + [item], live := h.live[Blocks(tailIndex) := id],
              window := if h.window < |x.keys| then h.window + 1 else h.window);
      blockIndex := BlockIndexHeader(x.keys[slot := Word(tailIndex)], x.values[slot := Some(id)], slot);
      mem, count := mem[id := cells], count[id := 0];
      tailBlock, tailIndex := id, tailIndex + 1;
    }

    /** enqueue: at a block boundary a slot of the index and a block are needed, the
        slot first; a missing block rewinds the index. */
    method Enqueue(item: Item, limit: Option<nat>, canAlloc: bool, indexMemory: bool, block: Option<BlockId>) returns (ok: bool)
      requires Valid()
      requires block.Some? ==> block.value !in h.live.Values      // the free list hands out no block twice
      requires indexMemory ==> h.power + 1 < 59                   // an index as large as the address space cannot be had
      modifies this`tailIndex, this`tailBlock, this`blockIndex, this`mem, this`count, this`h
      ensures Valid()
      ensures ok <==> old(tailIndex % BLOCK_SIZE != 0) ||
                      (!TooLong(headIndex, old(tailIndex), limit) && block.Some? && (old(NextVacant()) || (canAlloc && indexMemory)))
      ensures h == old(h).(log := if ok then old(h.log) + [item] else old(h.log),
                           live := if ok && old(tailIndex % BLOCK_SIZE == 0)
                                   then old(h.live)[old(Blocks(tailIndex)) := block.value] else old(h.live),
                           window := h.window, power := h.power)
    {
      hide IndexOk, StoreOk;
      var x := blockIndex;
      IndexBounds(x.keys, x.values, x.tail, Blocks(tailIndex), h.window, h.live);
      if tailIndex % BLOCK_SIZE == 0 {
        if TooLong(headIndex, tailIndex, limit) { return false; }
        NextSlot(x.tail, |x.keys|);
        if !Vacant(x.keys[Wrap(x.tail + 1, |x.keys|)], x.values[Wrap(x.tail + 1, |x.keys|)]) {
          if !canAlloc || !indexMemory { return false; }
          NewBlockIndex();
          IndexBounds(blockIndex.keys, blockIndex.values, blockIndex.tail, Blocks(tailIndex), h.window, h.live);
          NextSlot(blockIndex.tail, |blockIndex.keys|);
        }
        if block.None? {
          InsertAndRewind();
          return false;
        }
        InsertAndPublish(item, block.value);
        return true;
      }
      ghost var last := Blocks(tailIndex) - 1;
      StoreBlock(h.log, headIndex, h.consumed, mem, count, h.live, last);
      StoreAppend(h.log, headIndex, h.consumed, mem, count, h.live, item, tailBlock);
      mem := mem[tailBlock := Write(mem[tailBlock], tailIndex % BLOCK_SIZE, item)];
      h := h.(log := h.log + [item]);
      tailIndex := tailIndex + 1;
      ok := true;
    }
  }
}
