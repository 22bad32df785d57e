/** The block index while it is used (concurrentqueue.h, ImplicitProducer): the producer inserts,
    publishes, rewinds and doubles, and consumers look up blocks at the same time, perhaps
    through a header that has been replaced.  The headers share their entries. */
module IndexRuns {
  import opened Common
  import opened RoundUp
  import opened BlockIndex
  import Tickets

  type Tid = nat

  datatype Entry = Entry(key: int, value: Option<BlockId>)

  datatype Header = Header(index: seq<nat>, tail: nat, power: nat)

  datatype Producer =
    | Ready                  // not in insert_block_index_entry or between it and the outcome
    | KeyStored(e: nat)      // entry e has its key, the tail is to be stored
    | TailStored(e: nat)     // inserted; a block is looked for
    | TailRewound(e: nat)    // there is none; the value of entry e is to be cleared

  /** get_block_index_entry_for_index for queue index i, access by access. */
  datatype Consumer =
    | Away
    | LoadHeader(i: nat)
    | LoadTail(i: nat, h: nat)
    | LoadKey(i: nat, h: nat, t: nat)
    | Locate(i: nat, h: nat, t: nat, key: int)
    | Holds(i: nat, e: nat)

  /** `blocks` have been published, `live` are those with elements left. */
  datatype State = State(
    entries: seq<Entry>, headers: seq<Header>, blocks: nat, live: map<nat, BlockId>, prod: Producer, cons: seq<Consumer>)

  datatype Action =
    | Insert | Grow(garbage: seq<Option<BlockId>>) | StoreTail | Publish(id: BlockId) | Rewind | ClearValue
    | Call(c: Tid, i: nat) | Run(c: Tid) | Free(c: Tid) | Leave(c: Tid)

  function Base(block: nat): int { Word(BLOCK_SIZE * block) }

  // ---------------------------------------------------------------- the machine

  predicate HeaderOk(h: Header, entries: nat) {
    && h.power < 59 && |h.index| == Pow2(h.power) && h.tail < |h.index|
    && forall k :: 0 <= k < |h.index| ==> h.index[k] < entries
  }

  predicate ConsumerOk(p: Consumer, s: State) {
    && ((p.LoadTail? || p.LoadKey? || p.Locate?) ==> p.h < |s.headers|)
    && ((p.LoadKey? || p.Locate?) ==> p.t < |s.headers[p.h].index|)
    && (p.Holds? ==> p.e < |s.entries|)
  }

  predicate WellFormed(s: State) {
    && |s.headers| > 0
    && (forall h :: 0 <= h < |s.headers| ==> HeaderOk(s.headers[h], |s.entries|))
    && ((s.prod.KeyStored? || s.prod.TailStored? || s.prod.TailRewound?) ==> s.prod.e < |s.entries|)
    && (forall c :: 0 <= c < |s.cons| ==> ConsumerOk(s.cons[c], s))
  }

  function Current(s: State): Header requires |s.headers| > 0 { s.headers[|s.headers| - 1] }

  /** The slot after the tail. */
  function Next(h: Header): int requires h.tail < |h.index| { Back(h.tail, |h.index| - 1, |h.index|) }

  function NextEntry(s: State): nat requires WellFormed(s) { Current(s).index[Next(Current(s))] }

  predicate NextVacant(s: State) requires WellFormed(s) { Vacant(s.entries[NextEntry(s)].key, s.entries[NextEntry(s)].value) }

  predicate Pinned(p: Consumer, block: nat) { !p.Away? && p.i / BLOCK_SIZE == block }

  predicate Enabled(s: State, a: Action) requires WellFormed(s) {
    match a
    case Insert => s.prod.Ready? && NextVacant(s)
    case Grow(garbage) => s.prod.Ready? && !NextVacant(s) && Current(s).power + 1 < 59 && |garbage| == |Current(s).index|
    case StoreTail => s.prod.KeyStored?
    case Publish(id) => s.prod.TailStored?
    case Rewind => s.prod.TailStored?
    case ClearValue => s.prod.TailRewound?
    case Call(c, i) => c < |s.cons| && s.cons[c].Away? && i / BLOCK_SIZE in s.live      // index i was claimed and is not consumed
    case Run(c) => c < |s.cons| && !s.cons[c].Away? && !s.cons[c].Holds?
    case Leave(c) => c < |s.cons| && s.cons[c].Holds?
    case Free(c) =>                                               // the last element of the block was taken
      && c < |s.cons| && s.cons[c].Holds?
      && forall d :: 0 <= d < |s.cons| && d != c ==> !Pinned(s.cons[d], s.cons[c].i / BLOCK_SIZE)
  }

  function SetTail(s: State, tail: nat): State requires |s.headers| > 0 {
    s.(headers := s.headers[|s.headers| - 1 := Current(s).(tail := tail)])
  }

  function SetValue(s: State, e: nat, value: Option<BlockId>): State requires e < |s.entries| {
    s.(entries := s.entries[e := s.entries[e].(value := value)])
  }

  /** new_block_index: the old entries, oldest first, then as many new ones, whose values are not
      initialized. */
  function Grown(s: State, garbage: seq<Option<BlockId>>): State
    requires WellFormed(s) && |garbage| == |Current(s).index|
  {
    var h, n := Current(s), |s.entries|;
    var added := seq(|garbage|, k requires 0 <= k < |garbage| => Entry(INVALID_BLOCK_BASE, garbage[k]));
    s.(entries := s.entries + added,
       headers := s.headers + [Header(h.index[h.tail + 1..] + h.index[..h.tail + 1] + seq(|garbage|, k => n + k), |h.index| - 1, h.power + 1)])
  }

  function SetConsumer(s: State, c: Tid, p: Consumer): State requires c < |s.cons| { s.(cons := s.cons[c := p]) }

  function Look(s: State, p: Consumer): Consumer
    requires WellFormed(s) && ConsumerOk(p, s) && !p.Away? && !p.Holds?
  {
    match p
    case LoadHeader(i) => LoadTail(i, |s.headers| - 1)
    case LoadTail(i, h) => LoadKey(i, h, s.headers[h].tail)
    case LoadKey(i, h, t) => Locate(i, h, t, s.entries[s.headers[h].index[t]].key)
    case Locate(i, h, t, key) =>
      var slot := SlotFor(Word(i), t, key, |s.headers[h].index|);
      Holds(i, s.headers[h].index[slot])
  }

  function Step(s: State, a: Action): State requires WellFormed(s) && Enabled(s, a) {
    match a
    case Insert =>
      var e := NextEntry(s);
      s.(entries := s.entries[e := s.entries[e].(key := Base(s.blocks))], prod := KeyStored(e))
    case Grow(garbage) => Grown(s, garbage)
    case StoreTail => SetTail(s, Next(Current(s))).(prod := TailStored(s.prod.e))
    case Publish(id) => SetValue(s, s.prod.e, Some(id)).(blocks := s.blocks + 1, live := s.live[s.blocks := id], prod := Ready)
    case Rewind => SetTail(s, if Current(s).tail == 0 then |Current(s).index| - 1 else Current(s).tail - 1).(prod := TailRewound(s.prod.e))
    case ClearValue => SetValue(s, s.prod.e, None).(prod := Ready)
    case Call(c, i) => SetConsumer(s, c, LoadHeader(i))
    case Run(c) => SetConsumer(s, c, Look(s, s.cons[c]))
    case Leave(c) => SetConsumer(s, c, Away)
    case Free(c) => SetConsumer(SetValue(s, s.cons[c].e, None), c, Away).(live := s.live - {s.cons[c].i / BLOCK_SIZE})
  }

  // -------------------------------------------------------------- the invariant

  /** Blocks whose base is in the ring: the published ones and perhaps one more. */
  ghost function Inserted(s: State): nat { s.blocks + if s.prod.TailStored? then 1 else 0 }

  /** What is stored nowhere: how many of the newest blocks have their entry, the newest block of
      every replaced header, and the block at the tail that each consumer has read. */
  datatype Aux = Aux(window: nat, newest: seq<nat>, seen: seq<nat>)

  /** The entry of block k out of n, or the one that block n will get. */
  ghost function EntryOf(h: Header, n: nat, k: nat): nat requires h.tail < |h.index| && k <= n <= k + |h.index| {
    h.index[Back(h.tail, if k == n then |h.index| - 1 else n - 1 - k, |h.index|)]
  }

  ghost predicate RingOk(entries: seq<Entry>, h: Header, n: nat, window: nat) {
    && HeaderOk(h, |entries|) && Distinct(h.index) && window <= |h.index| && window <= n
    && forall k: nat :: n - window <= k < n ==> entries[EntryOf(h, n, k)].key == Base(k)
  }

  ghost predicate LiveOk(entries: seq<Entry>, h: Header, n: nat, window: nat, blocks: nat, live: map<nat, BlockId>)
    requires RingOk(entries, h, n, window) && blocks <= n
  {
    forall j :: j in live ==> n - window <= j < blocks && entries[EntryOf(h, n, j)].value == Some(live[j])
  }

  ghost predicate ProducerInv(p: Producer, entries: seq<Entry>, h: Header, n: nat, window: nat) requires RingOk(entries, h, n, window) {
    match p
    case Ready => true
    case TailStored(e) => window > 0 && e == EntryOf(h, n, n - 1)
    case KeyStored(e) => window < |h.index| && e == EntryOf(h, n, n) && entries[e].key == Base(n)
    case TailRewound(e) => window < |h.index| && e == EntryOf(h, n, n) && entries[e].key == Base(n)
  }

  /** The entry of block n holds its key already, from an insertion that was rewound. */
  ghost predicate Reserved(p: Producer, entries: seq<Entry>, h: Header, n: nat, window: nat) requires RingOk(entries, h, n, window) {
    && window < |h.index| && !p.TailStored? && entries[EntryOf(h, n, n)].key == Base(n)
    && (p.Ready? ==> entries[EntryOf(h, n, n)].value.None?)
  }

  /** Through header `o` with tail t, where block m stands, block j is found: the entries are those of
      the current ring. */
  ghost predicate Through(s: State, window: nat, o: Header, t: nat, m: nat, j: nat)
    requires WellFormed(s) && RingOk(s.entries, Current(s), Inserted(s), window)
  {
    var h, n := Current(s), Inserted(s);
    && t < |o.index| && n - window <= j < n && j <= m <= n && m < j + |o.index|
    && o.index[t] == EntryOf(h, n, m) && o.index[Back(t, m - j, |o.index|)] == EntryOf(h, n, j)
    && (m == n ==> Reserved(s.prod, s.entries, h, n, window))
  }

  /** What consumer p relies on; m is the block at the tail it has read. */
  ghost predicate Relies(s: State, window: nat, newest: seq<nat>, m: nat, p: Consumer)
    requires WellFormed(s) && RingOk(s.entries, Current(s), Inserted(s), window) && ConsumerOk(p, s) && |newest| + 1 == |s.headers|
  {
    p.Away? ||
    (var j := p.i / BLOCK_SIZE;
     && j in s.live && Inserted(s) - window <= j < Inserted(s)
     && match p
        case Away => true
        case LoadHeader(i) => true
        case LoadTail(i, h) => h < |newest| ==> Through(s, window, s.headers[h], s.headers[h].tail, newest[h], j)
        case LoadKey(i, h, t) => Through(s, window, s.headers[h], t, m, j)
        case Locate(i, h, t, key) => Through(s, window, s.headers[h], t, m, j) && key == Base(m)
        case Holds(i, e) => e == EntryOf(Current(s), Inserted(s), j))
  }

  ghost predicate Core(s: State, window: nat) {
    && WellFormed(s) && RingOk(s.entries, Current(s), Inserted(s), window)
    && LiveOk(s.entries, Current(s), Inserted(s), window, s.blocks, s.live)
    && ProducerInv(s.prod, s.entries, Current(s), Inserted(s), window)
  }

  ghost predicate Inv(s: State, g: Aux) {
    && Core(s, g.window) && |g.newest| + 1 == |s.headers| && |g.seen| == |s.cons|
    && forall c: nat :: c < |s.cons| ==> Relies(s, g.window, g.newest, g.seen[c], s.cons[c])
  }

  // ------------------------------------------------------------ places in the ring

  lemma BackInside(tail: nat, d: nat, capacity: nat)
    requires tail < capacity && d < capacity
    ensures 0 <= Back(tail, d, capacity) < capacity
  {
  }

  lemma BackApart(tail: nat, d: nat, e: nat, capacity: nat)
    requires tail < capacity && d < capacity && e < capacity && d != e
    ensures Back(tail, d, capacity) != Back(tail, e, capacity)
  {
  }

  /** Different blocks have different entries. */
  lemma EntriesApart(h: Header, n: nat, k: nat, l: nat)
    requires h.tail < |h.index| && Distinct(h.index) && k < l <= n && n < k + |h.index| + (if l == n then 0 else 1)
    ensures EntryOf(h, n, k) != EntryOf(h, n, l)
  {
    var d, e := n - 1 - k, if l == n then |h.index| - 1 else n - 1 - l;
    BackInside(h.tail, d, |h.index|);
    BackInside(h.tail, e, |h.index|);
    BackApart(h.tail, d, e, |h.index|);
    hide Back;
  }

  /** Advancing the tail numbers the entries anew and leaves them where they are. */
  lemma EntryAdvanced(h: Header, n: nat, k: nat)
    requires h.tail < |h.index| && k <= n < k + |h.index|
    ensures 0 <= Next(h) < |h.index| && EntryOf(h.(tail := Next(h)), n + 1, k) == EntryOf(h, n, k)
  {
    BackAgain(h.tail, n - k, |h.index|);
  }

  /** And so does taking it back. */
  lemma EntryRewound(h: Header, n: nat, k: nat)
    requires h.tail < |h.index| && 0 < n && k < n <= k + |h.index|
    ensures var t := if h.tail == 0 then |h.index| - 1 else h.tail - 1;
            EntryOf(h.(tail := t), n - 1, k) == EntryOf(h, n, k)
  {
  }

  /** And so does doubling. */
  lemma EntryGrown(h: Header, extra: seq<nat>, power: nat, n: nat, k: nat)
    requires h.tail < |h.index| == |extra| && k < n <= k + |h.index|
    ensures EntryOf(Header(h.index[h.tail + 1..] + h.index[..h.tail + 1] + extra, |h.index| - 1, power), n, k) == EntryOf(h, n, k)
  {
  }

  // ------------------------------------------------------- what consumers rely on

  /** A step leaves the entries of all blocks that a consumer may look for where they are. */
  ghost predicate Renumbers(s: State, w: nat, s': State, w': nat)
    requires WellFormed(s) && RingOk(s.entries, Current(s), Inserted(s), w) && WellFormed(s') && RingOk(s'.entries, Current(s'), Inserted(s'), w')
  {
    var h, n, h', n' := Current(s), Inserted(s), Current(s'), Inserted(s');
    forall k: nat :: n - w <= k <= n && n' - w' <= k && (k == n ==> Reserved(s.prod, s.entries, h, n, w)) ==>
      k <= n' && EntryOf(h', n', k) == EntryOf(h, n, k) && (k == n' ==> Reserved(s'.prod, s'.entries, h', n', w'))
  }

  lemma ThroughKept(s: State, w: nat, s': State, w': nat, o: Header, o': Header, t: nat, m: nat, j: nat)
    requires WellFormed(s) && RingOk(s.entries, Current(s), Inserted(s), w) && WellFormed(s') && RingOk(s'.entries, Current(s'), Inserted(s'), w')
    requires Through(s, w, o, t, m, j) && Renumbers(s, w, s', w') && Inserted(s') - w' <= j < Inserted(s') && o'.index == o.index
    ensures Through(s', w', o', t, m, j)
  {
    hide RingOk, Reserved, EntryOf, WellFormed, Back;
  }

  /** The headers so far are kept; a new one may follow, which closes the count of the last. */
  ghost predicate HeadersKept(s: State, g: Aux, s': State, g': Aux) {
    && 0 < |s.headers| <= |s'.headers| && |g.newest| + 1 == |s.headers| && |g'.newest| + 1 == |s'.headers|
    && (forall h: nat :: h < |g.newest| ==> s'.headers[h] == s.headers[h] && g'.newest[h] == g.newest[h])
    && s'.headers[|g.newest|].index == Current(s).index
    && (|s.headers| < |s'.headers| ==>
          |s'.headers| == |s.headers| + 1 && s'.headers[|g.newest|] == Current(s) && (Inserted(s) > 0 ==> g'.newest[|g.newest|] == Inserted(s) - 1))
  }

  lemma ConsumerKept(s: State, g: Aux, s': State, g': Aux, m: nat, p: Consumer)
    requires Core(s, g.window) && Core(s', g'.window) && HeadersKept(s, g, s', g') && Renumbers(s, g.window, s', g'.window)
    requires ConsumerOk(p, s) && ConsumerOk(p, s') && Relies(s, g.window, g.newest, m, p) && (!p.Away? ==> p.i / BLOCK_SIZE in s'.live)
    ensures Relies(s', g'.window, g'.newest, m, p)
  {
    hide RingOk, Reserved, EntryOf, WellFormed, Back, ProducerInv, LiveOk, Through, Renumbers;
    if !p.Away? {
      var j := p.i / BLOCK_SIZE;
      LiveFacts(s', g'.window, j);
      hide Inserted;
      match p {
        case LoadTail(_, h) => LoadTailKept(s, g, s', g', h, j);
        case LoadKey(_, h, t) => ThroughKept(s, g.window, s', g'.window, s.headers[h], s'.headers[h], t, m, j);
        case Locate(_, h, t, key) => ThroughKept(s, g.window, s', g'.window, s.headers[h], s'.headers[h], t, m, j);
        case Holds(_, e) => EntryKept(s, g.window, s', g'.window, j);
        case _ =>
      }
    }
  }

  lemma LoadTailKept(s: State, g: Aux, s': State, g': Aux, h: nat, j: nat)
    requires Core(s, g.window) && Core(s', g'.window) && HeadersKept(s, g, s', g') && Renumbers(s, g.window, s', g'.window)
    requires h <= |g.newest| && Inserted(s) - g.window <= j < Inserted(s) && Inserted(s') - g'.window <= j < Inserted(s')
    requires h < |g.newest| ==> Through(s, g.window, s.headers[h], s.headers[h].tail, g.newest[h], j)
    ensures h < |g'.newest| ==> Through(s', g'.window, s'.headers[h], s'.headers[h].tail, g'.newest[h], j)
  {
    hide RingOk, Reserved, EntryOf, WellFormed, Back, ProducerInv, LiveOk, Through, Renumbers;
    if h < |g.newest| {
      ThroughKept(s, g.window, s', g'.window, s.headers[h], s'.headers[h], s.headers[h].tail, g.newest[h], j);
    } else if h < |g'.newest| {
      ThroughCurrent(s, g.window, j);
      ThroughKept(s, g.window, s', g'.window, Current(s), s'.headers[h], Current(s).tail, Inserted(s) - 1, j);
    }
  }

  lemma LiveFacts(s: State, w: nat, j: nat)
    requires Core(s, w) && j in s.live
    ensures Inserted(s) - w <= j < Inserted(s) && Inserted(s) <= j + |Current(s).index| && Current(s).tail < |Current(s).index|
    ensures EntryOf(Current(s), Inserted(s), j) < |s.entries|
    ensures s.entries[EntryOf(Current(s), Inserted(s), j)] == Entry(Base(j), Some(s.live[j]))
  {
  }

  lemma EntryKept(s: State, w: nat, s': State, w': nat, j: nat)
    requires WellFormed(s) && RingOk(s.entries, Current(s), Inserted(s), w) && WellFormed(s') && RingOk(s'.entries, Current(s'), Inserted(s'), w')
    requires Renumbers(s, w, s', w') && Inserted(s) - w <= j < Inserted(s) && Inserted(s') - w' <= j < Inserted(s')
    ensures EntryOf(Current(s'), Inserted(s'), j) == EntryOf(Current(s), Inserted(s), j)
  {
  }

  /** The current header leads to every live block. */
  lemma ThroughCurrent(s: State, w: nat, j: nat)
    requires WellFormed(s) && RingOk(s.entries, Current(s), Inserted(s), w) && Inserted(s) - w <= j < Inserted(s)
    ensures Through(s, w, Current(s), Current(s).tail, Inserted(s) - 1, j)
  {
  }

  // ------------------------------------------------------------ steps of the producer

  /** A step of the producer after which the index is in order serves all consumers. */
  lemma ProducerMoves(s: State, g: Aux, s': State, g': Aux)
    requires Inv(s, g) && Core(s', g'.window) && HeadersKept(s, g, s', g') && Renumbers(s, g.window, s', g'.window)
    requires s'.cons == s.cons && g'.seen == g.seen && forall j :: j in s.live ==> j in s'.live
    ensures Inv(s', g')
  {
    hide RingOk, LiveOk, ProducerInv, Relies, Renumbers, HeadersKept, ConsumerOk;
    HeaderCount(s, g, s', g');
    forall c: nat | c < |s.cons| ensures Relies(s', g'.window, g'.newest, g'.seen[c], s'.cons[c]) {
      assert Relies(s, g.window, g.newest, g.seen[c], s.cons[c]);
      PinnedIsLive(s, g.window, g.newest, g.seen[c], s.cons[c]);
      ConsumerKept(s, g, s', g', g.seen[c], s.cons[c]);
    }
  }

  lemma HeaderCount(s: State, g: Aux, s': State, g': Aux)
    requires HeadersKept(s, g, s', g')
    ensures |g.newest| + 1 == |s.headers| && |g'.newest| + 1 == |s'.headers|
  {
  }

  lemma PinnedIsLive(s: State, window: nat, newest: seq<nat>, m: nat, p: Consumer)
    requires WellFormed(s) && RingOk(s.entries, Current(s), Inserted(s), window) && ConsumerOk(p, s) && |newest| + 1 == |s.headers|
    requires Relies(s, window, newest, m, p)
    ensures !p.Away? ==> p.i / BLOCK_SIZE in s.live
  {
  }

  /** A base is never taken for the mark of an unused entry. */
  lemma BaseIsValid(block: nat)
    ensures Base(block) != INVALID_BLOCK_BASE
  {
    var x := BLOCK_SIZE * block;
    var k := x / RANGE;
    WordIs(x, k);
    assert x - RANGE * k == 2 * (16 * block - Tickets.HALF_RANGE * k);
  }

  /** Only entries of blocks that are gone may be taken over. */
  lemma OldestIsGone(s: State, w: nat, j: nat)
    requires Core(s, w) && NextVacant(s) && j in s.live
    ensures Inserted(s) < j + |Current(s).index|
  {
    LiveFacts(s, w, j);
    BaseIsValid(j);
    hide RingOk, LiveOk, ProducerInv, Base;
  }

  /** Entries may change as long as the keys of the ring stay. */
  lemma RingKept(entries: seq<Entry>, entries': seq<Entry>, h: Header, n: nat, w: nat, w': nat)
    requires RingOk(entries, h, n, w) && w' <= w && |entries'| == |entries|
    requires forall k: nat :: n - w' <= k < n ==> entries'[EntryOf(h, n, k)].key == entries[EntryOf(h, n, k)].key
    ensures RingOk(entries', h, n, w')
  {
    hide Distinct, Base;
  }

  /** The values of the live blocks stay. */
  lemma LiveKept(entries: seq<Entry>, entries': seq<Entry>, h: Header, n: nat, w: nat, w': nat, blocks: nat, live: map<nat, BlockId>)
    requires RingOk(entries, h, n, w) && RingOk(entries', h, n, w') && blocks <= n && LiveOk(entries, h, n, w, blocks, live)
    requires forall j :: j in live ==> n - w' <= j && entries'[EntryOf(h, n, j)].value == entries[EntryOf(h, n, j)].value
    ensures LiveOk(entries', h, n, w', blocks, live)
  {
    hide RingOk;
  }

  /** A step that moves neither the tail nor the count of blocks. */
  lemma SameRing(s: State, w: nat, s': State, w': nat)
    requires WellFormed(s) && RingOk(s.entries, Current(s), Inserted(s), w) && WellFormed(s') && RingOk(s'.entries, Current(s'), Inserted(s'), w')
    requires Current(s') == Current(s) && Inserted(s') == Inserted(s)
    requires Reserved(s.prod, s.entries, Current(s), Inserted(s), w) ==> Reserved(s'.prod, s'.entries, Current(s), Inserted(s), w')
    ensures Renumbers(s, w, s', w')
  {
    hide RingOk, Reserved, EntryOf, WellFormed;
  }

  /** An entry of the ring is changed. */
  lemma SameHeaders(s: State, s': State)
    requires WellFormed(s) && s' == s.(entries := s'.entries, blocks := s'.blocks, live := s'.live, prod := s'.prod) && |s'.entries| == |s.entries|
    requires (s'.prod.KeyStored? || s'.prod.TailStored? || s'.prod.TailRewound?) ==> s'.prod.e < |s.entries|
    ensures WellFormed(s') && Current(s') == Current(s)
  {
  }

  lemma InsertCore(s: State, w: nat)
    requires Core(s, w) && Enabled(s, Insert)
    ensures var w' := if w < |Current(s).index| then w else w - 1;
            Core(Step(s, Insert), w') && Renumbers(s, w, Step(s, Insert), w')
  {
    var h, n, s' := Current(s), Inserted(s), Step(s, Insert);
    var w', e := if w < |h.index| then w else w - 1, NextEntry(s);
    assert e == EntryOf(h, n, n) < |s.entries|;
    forall j | j in s.live ensures n - w' <= j < n { OldestIsGone(s, w, j); }
    hide Distinct, Base, Back;
    forall k: nat | n - w' <= k < n ensures s'.entries[EntryOf(h, n, k)] == s.entries[EntryOf(h, n, k)] { EntriesApart(h, n, k, n); }
    SameHeaders(s, s');
    RingKept(s.entries, s'.entries, h, n, w, w');
    LiveKept(s.entries, s'.entries, h, n, w, w', s.blocks, s.live);
    hide RingOk, LiveOk, WellFormed, EntryOf;
    SameRing(s, w, s', w');
  }

  /** The tail of the current header is stored. */
  lemma TailMoved(s: State, t: nat, p: Producer)
    requires WellFormed(s) && t < |Current(s).index| && ((p.KeyStored? || p.TailStored? || p.TailRewound?) ==> p.e < |s.entries|)
    ensures var s' := SetTail(s, t).(prod := p);
            WellFormed(s') && Current(s') == Current(s).(tail := t) && HeaderOk(Current(s'), |s.entries|)
  {
    var s' := SetTail(s, t).(prod := p);
    forall c | 0 <= c < |s.cons| ensures ConsumerOk(s'.cons[c], s') { assert ConsumerOk(s.cons[c], s); }
  }

  lemma StoreTailCore(s: State, w: nat)
    requires Core(s, w) && Enabled(s, StoreTail)
    ensures Core(Step(s, StoreTail), w + 1) && Renumbers(s, w, Step(s, StoreTail), w + 1)
  {
    hide RingOk, LiveOk, EntryOf, HeaderOk, ConsumerOk, Base, Reserved;
    RingFacts(s.entries, Current(s), Inserted(s), w);
    var h, n, s' := Current(s), Inserted(s), Step(s, StoreTail);
    var h' := h.(tail := Next(h));
    BackInside(h.tail, |h.index| - 1, |h.index|);
    TailMoved(s, Next(h), s'.prod);
    StoreEntries(h, n, w);
    StoreRing(s.entries, h, h', n, w, s.blocks, s.live);
    hide WellFormed;
    StoreNumbers(s, w, s');
  }

  lemma StoreEntries(h: Header, n: nat, w: nat)
    requires h.tail < |h.index| && w <= n && w < |h.index|
    ensures Next(h) < |h.index| && forall k: nat :: n - w <= k <= n ==> EntryOf(h.(tail := Next(h)), n + 1, k) == EntryOf(h, n, k)
  {
    BackInside(h.tail, |h.index| - 1, |h.index|);
    forall k: nat | n - w <= k <= n ensures EntryOf(h.(tail := Next(h)), n + 1, k) == EntryOf(h, n, k) { EntryAdvanced(h, n, k); }
  }

  lemma StoreRing(entries: seq<Entry>, h: Header, h': Header, n: nat, w: nat, blocks: nat, live: map<nat, BlockId>)
    requires RingOk(entries, h, n, w) && w < |h.index| && blocks == n && LiveOk(entries, h, n, w, blocks, live)
    requires entries[EntryOf(h, n, n)].key == Base(n)
    requires HeaderOk(h', |entries|) && h'.index == h.index && forall k: nat :: n - w <= k <= n ==> EntryOf(h', n + 1, k) == EntryOf(h, n, k)
    ensures RingOk(entries, h', n + 1, w + 1) && LiveOk(entries, h', n + 1, w + 1, blocks, live)
  {
    hide Distinct, Base;
  }

  lemma StoreNumbers(s: State, w: nat, s': State)
    requires WellFormed(s) && RingOk(s.entries, Current(s), Inserted(s), w) && WellFormed(s') && Inserted(s') == Inserted(s) + 1
    requires RingOk(s'.entries, Current(s'), Inserted(s'), w + 1)
    requires forall k: nat :: Inserted(s) - w <= k <= Inserted(s) ==> EntryOf(Current(s'), Inserted(s'), k) == EntryOf(Current(s), Inserted(s), k)
    ensures Renumbers(s, w, s', w + 1)
  {
    hide EntryOf, Base, Reserved;
  }

  lemma RewindCore(s: State, w: nat)
    requires Core(s, w) && Enabled(s, Rewind)
    ensures w > 0 && Core(Step(s, Rewind), w - 1) && Renumbers(s, w, Step(s, Rewind), w - 1)
  {
    hide RingOk, LiveOk, EntryOf, HeaderOk, ConsumerOk, Base;
    RingFacts(s.entries, Current(s), Inserted(s), w);
    var h, n, s' := Current(s), Inserted(s), Step(s, Rewind);
    var h' := h.(tail := if h.tail == 0 then |h.index| - 1 else h.tail - 1);
    TailMoved(s, h'.tail, s'.prod);
    RewindEntries(h, n, w);
    RewindRing(s.entries, h, h', n, w, s.blocks, s.live);
    hide WellFormed;
    RewindNumbers(s, w, s');
  }

  lemma RingFacts(entries: seq<Entry>, h: Header, n: nat, w: nat)
    requires RingOk(entries, h, n, w)
    ensures h.tail < |h.index| && w <= n && w <= |h.index|
  {
  }

  lemma RewindEntries(h: Header, n: nat, w: nat)
    requires h.tail < |h.index| && 0 < w <= n && w <= |h.index|
    ensures var h' := h.(tail := if h.tail == 0 then |h.index| - 1 else h.tail - 1);
            forall k: nat :: n - w <= k < n ==> EntryOf(h', n - 1, k) == EntryOf(h, n, k)
  {
    var h' := h.(tail := if h.tail == 0 then |h.index| - 1 else h.tail - 1);
    forall k: nat | n - w <= k < n ensures EntryOf(h', n - 1, k) == EntryOf(h, n, k) { EntryRewound(h, n, k); }
  }

  lemma RewindNumbers(s: State, w: nat, s': State)
    requires WellFormed(s) && RingOk(s.entries, Current(s), Inserted(s), w) && WellFormed(s') && s.prod.TailStored? && s'.prod.TailRewound? && w > 0
    requires Inserted(s') == Inserted(s) - 1 && RingOk(s'.entries, Current(s'), Inserted(s'), w - 1) && w - 1 < |Current(s').index|
    requires s'.entries[EntryOf(Current(s'), Inserted(s'), Inserted(s'))].key == Base(Inserted(s'))
    requires forall k: nat :: Inserted(s) - w <= k < Inserted(s) ==> EntryOf(Current(s'), Inserted(s'), k) == EntryOf(Current(s), Inserted(s), k)
    ensures Renumbers(s, w, s', w - 1)
  {
    hide EntryOf, Base;
    var h, n, h', n' := Current(s), Inserted(s), Current(s'), Inserted(s');
    assert Reserved(s'.prod, s'.entries, h', n', w - 1);
    assert !Reserved(s.prod, s.entries, h, n, w);
    forall k: nat | n - w <= k <= n && n' - (w - 1) <= k && (k == n ==> Reserved(s.prod, s.entries, h, n, w))
      ensures k <= n' && EntryOf(h', n', k) == EntryOf(h, n, k)
    {
    }
  }

  lemma RewindRing(entries: seq<Entry>, h: Header, h': Header, n: nat, w: nat, blocks: nat, live: map<nat, BlockId>)
    requires RingOk(entries, h, n, w) && 0 < w && blocks + 1 == n && LiveOk(entries, h, n, w, blocks, live)
    requires HeaderOk(h', |entries|) && h'.index == h.index && forall k: nat :: n - w <= k < n ==> EntryOf(h', n - 1, k) == EntryOf(h, n, k)
    ensures RingOk(entries, h', n - 1, w - 1) && LiveOk(entries, h', n - 1, w - 1, blocks, live)
    ensures w - 1 < |h'.index| && entries[EntryOf(h', n - 1, n - 1)].key == Base(n - 1)
  {
    hide Distinct, Base;
    assert entries[EntryOf(h, n, n - 1)].key == Base(n - 1);
    hide EntryOf;
  }

  lemma LivePublished(entries: seq<Entry>, h: Header, n: nat, w: nat, live: map<nat, BlockId>, e: nat, id: BlockId)
    requires RingOk(entries, h, n, w) && 0 < w && LiveOk(entries, h, n, w, n - 1, live) && e == EntryOf(h, n, n - 1)
    ensures e < |entries|
    ensures var entries' := entries[e := entries[e].(value := Some(id))];
            RingOk(entries', h, n, w) && LiveOk(entries', h, n, w, n, live[n - 1 := id])
  {
    var entries' := entries[e := entries[e].(value := Some(id))];
    RingKept(entries, entries', h, n, w, w);
    forall j | j in live ensures EntryOf(h, n, j) != e { EntriesApart(h, n, j, n - 1); }
    hide Distinct, Base, Back, EntryOf;
  }

  lemma PublishCore(s: State, w: nat, id: BlockId)
    requires Core(s, w) && Enabled(s, Publish(id))
    ensures Core(Step(s, Publish(id)), w) && Renumbers(s, w, Step(s, Publish(id)), w)
  {
    var h, n, s' := Current(s), Inserted(s), Step(s, Publish(id));
    hide RingOk, LiveOk, EntryOf;
    LivePublished(s.entries, h, n, w, s.live, s.prod.e, id);
    SameHeaders(s, s');
    hide WellFormed;
    SameRing(s, w, s', w);
  }

  lemma ClearValueCore(s: State, w: nat)
    requires Core(s, w) && Enabled(s, ClearValue)
    ensures Core(Step(s, ClearValue), w) && Renumbers(s, w, Step(s, ClearValue), w)
  {
    var h, n, s' := Current(s), Inserted(s), Step(s, ClearValue);
    hide Distinct, Base, Back;
    SameHeaders(s, s');
    RingKept(s.entries, s'.entries, h, n, w, w);
    forall j | j in s.live ensures EntryOf(h, n, j) != s.prod.e { EntriesApart(h, n, j, n); }
    LiveKept(s.entries, s'.entries, h, n, w, w, s.blocks, s.live);
    hide RingOk, LiveOk, WellFormed, EntryOf;
    SameRing(s, w, s', w);
  }

  lemma GrownDistinct(a: seq<nat>, k: nat, bound: nat, m: nat)
    requires k <= |a| && Distinct(a) && forall i :: 0 <= i < |a| ==> a[i] < bound
    ensures Distinct(a[k..] + a[..k] + seq(m, i => bound + i))
  {
  }

  lemma GrowHeader(s: State, garbage: seq<Option<BlockId>>)
    requires WellFormed(s) && Enabled(s, Grow(garbage)) && Distinct(Current(s).index)
    ensures var h, s' := Current(s), Grown(s, garbage);
            && WellFormed(s') && HeaderOk(Current(s'), |s'.entries|) && Distinct(Current(s').index)
            && |Current(s').index| == 2 * |h.index| && s'.headers == s.headers + [Current(s')]
            && s' == s.(entries := s'.entries, headers := s'.headers) && |s.entries| <= |s'.entries|
            && (forall e :: 0 <= e < |s.entries| ==> s'.entries[e] == s.entries[e])
  {
    var h, s' := Current(s), Grown(s, garbage);
    GrownDistinct(h.index, h.tail + 1, |s.entries|, |garbage|);
    GrownHeader(h, |s.entries|, |garbage|);
    hide HeaderOk, Distinct;
    forall k | 0 <= k < |s'.headers| ensures HeaderOk(s'.headers[k], |s'.entries|) {
      if k < |s.headers| { MoreEntries(s.headers[k], |s.entries|, |s'.entries|); }
    }
    forall c | 0 <= c < |s.cons| ensures ConsumerOk(s'.cons[c], s') { assert ConsumerOk(s.cons[c], s); }
  }

  lemma MoreEntries(h: Header, n: nat, n': nat)
    requires HeaderOk(h, n) && n <= n'
    ensures HeaderOk(h, n')
  {
  }

  lemma GrownHeader(h: Header, n: nat, m: nat)
    requires HeaderOk(h, n) && h.power + 1 < 59 && m == |h.index|
    ensures HeaderOk(Header(h.index[h.tail + 1..] + h.index[..h.tail + 1] + seq(m, k => n + k), |h.index| - 1, h.power + 1), n + m)
  {
  }

  lemma GrownEntries(s: State, garbage: seq<Option<BlockId>>, n: nat, w: nat)
    requires WellFormed(s) && Enabled(s, Grow(garbage)) && w <= n && w <= |Current(s).index|
    ensures Current(Grown(s, garbage)).tail < |Current(Grown(s, garbage)).index| == 2 * |Current(s).index|
    ensures forall k: nat :: n - w <= k < n ==> EntryOf(Current(Grown(s, garbage)), n, k) == EntryOf(Current(s), n, k)
  {
    var h := Current(s);
    forall k: nat | n - w <= k < n ensures EntryOf(Current(Grown(s, garbage)), n, k) == EntryOf(h, n, k) {
      EntryGrown(h, seq(|garbage|, i => |s.entries| + i), h.power + 1, n, k);
    }
  }

  lemma GrowCore(s: State, w: nat, garbage: seq<Option<BlockId>>)
    requires Core(s, w) && Enabled(s, Grow(garbage))
    ensures Core(Step(s, Grow(garbage)), w) && Renumbers(s, w, Step(s, Grow(garbage)), w)
  {
    hide Distinct, Base, Back, Grown, ConsumerOk;
    var h, n, s' := Current(s), Inserted(s), Step(s, Grow(garbage));
    GrowHeader(s, garbage);
    GrownEntries(s, garbage, n, w);
    assert s' == Grown(s, garbage) && Inserted(s') == n && s'.live == s.live && s'.blocks == s.blocks && s'.prod == s.prod;
    hide HeaderOk, WellFormed;
    GrowRing(s.entries, s'.entries, h, Current(s'), n, w, s.blocks, s.live);
    assert !Reserved(s.prod, s.entries, h, n, w);
  }

  lemma GrowRing(entries: seq<Entry>, entries': seq<Entry>, h: Header, h': Header, n: nat, w: nat, blocks: nat, live: map<nat, BlockId>)
    requires RingOk(entries, h, n, w) && blocks <= n && LiveOk(entries, h, n, w, blocks, live)
    requires HeaderOk(h', |entries'|) && Distinct(h'.index) && |h.index| <= |h'.index|
    requires |entries| <= |entries'| && forall e :: 0 <= e < |entries| ==> entries'[e] == entries[e]
    requires forall k: nat :: n - w <= k < n ==> EntryOf(h', n, k) == EntryOf(h, n, k)
    ensures RingOk(entries', h', n, w) && LiveOk(entries', h', n, w, blocks, live)
  {
    hide Distinct, Base;
  }

  // ------------------------------------------------------------ steps of a consumer

  lemma SlotFound(o: Header, entries: nat, i: nat, t: nat, m: nat)
    requires HeaderOk(o, entries) && t < |o.index| && i / BLOCK_SIZE <= m < i / BLOCK_SIZE + |o.index|
    ensures SlotFor(Word(i), t, Base(m), |o.index|) == Back(t, m - i / BLOCK_SIZE, |o.index|)
  {
    WholeTurn();
    PowerProduct(59 - o.power, o.power);
    SlotIsBack(i / BLOCK_SIZE, m, i, t, |o.index|, Pow2(59 - o.power));
  }

  /** The block at the tail of the header that consumer p looks at. */
  ghost function Read(s: State, newest: seq<nat>, m: nat, p: Consumer): nat {
    if p.LoadTail? then if p.h < |newest| then newest[p.h] else if Inserted(s) > 0 then Inserted(s) - 1 else 0 else m
  }

  lemma KeyIsBase(s: State, w: nat, o: Header, t: nat, m: nat, j: nat)
    requires Core(s, w) && Through(s, w, o, t, m, j) && HeaderOk(o, |s.entries|)
    ensures s.entries[o.index[t]].key == Base(m)
  {
    hide Base;
  }

  /** Every access of a lookup leaves the consumer with what the next one needs. */
  lemma LookRelies(s: State, w: nat, newest: seq<nat>, m: nat, p: Consumer)
    requires Core(s, w) && ConsumerOk(p, s) && |newest| + 1 == |s.headers| && Relies(s, w, newest, m, p) && !p.Away? && !p.Holds?
    ensures ConsumerOk(Look(s, p), s) && Relies(s, w, newest, Read(s, newest, m, p), Look(s, p))
  {
    hide RingOk, LiveOk, ProducerInv, EntryOf, Back, SlotFor, Base, HeaderOk;
    var j := p.i / BLOCK_SIZE;
    match p {
      case LoadHeader(i) =>
      case LoadTail(i, h) => TailInside(s.headers[h], |s.entries|); if h == |newest| { ThroughCurrent(s, w, j); }
      case LoadKey(i, h, t) => KeyIsBase(s, w, s.headers[h], t, m, j);
      case Locate(i, h, t, key) =>
        SlotFound(s.headers[h], |s.entries|, i, t, m);
        SlotInside(s.headers[h], |s.entries|, t, m - j);
    }
  }

  lemma TailInside(o: Header, entries: nat)
    requires HeaderOk(o, entries)
    ensures o.tail < |o.index|
  {
  }

  lemma SlotInside(o: Header, entries: nat, t: nat, d: nat)
    requires HeaderOk(o, entries) && t < |o.index| && d < |o.index|
    ensures 0 <= Back(t, d, |o.index|) < |o.index| && o.index[Back(t, d, |o.index|)] < entries
  {
  }

  /** What a consumer relies on does not depend on the others. */
  lemma ReliesAlone(s: State, s': State, w: nat, newest: seq<nat>, m: nat, p: Consumer)
    requires WellFormed(s) && RingOk(s.entries, Current(s), Inserted(s), w) && ConsumerOk(p, s) && |newest| + 1 == |s.headers|
    requires s' == s.(cons := s'.cons) && WellFormed(s') && Relies(s, w, newest, m, p)
    ensures ConsumerOk(p, s') && Relies(s', w, newest, m, p)
  {
    hide RingOk, EntryOf, Back, Reserved, WellFormed;
  }

  /** A step of one consumer that leaves the index alone. */
  lemma ConsumerMoves(s: State, g: Aux, c: Tid, p: Consumer, m: nat)
    requires Inv(s, g) && c < |s.cons| && ConsumerOk(p, s) && Relies(s, g.window, g.newest, m, p)
    ensures Inv(SetConsumer(s, c, p), g.(seen := g.seen[c := m]))
  {
    hide RingOk, LiveOk, ProducerInv, Relies, WellFormed, ConsumerOk;
    var s', g' := SetConsumer(s, c, p), g.(seen := g.seen[c := m]);
    SetWellFormed(s, c, p);
    forall d: nat | d < |s'.cons| ensures ConsumerOk(s'.cons[d], s') && Relies(s', g'.window, g'.newest, g'.seen[d], s'.cons[d]) {
      assert Relies(s, g.window, g.newest, g'.seen[d], s'.cons[d]);
      ReliesAlone(s, s', g.window, g.newest, g'.seen[d], s'.cons[d]);
    }
  }

  lemma SetWellFormed(s: State, c: Tid, p: Consumer)
    requires WellFormed(s) && c < |s.cons| && ConsumerOk(p, s)
    ensures WellFormed(SetConsumer(s, c, p)) && forall d :: 0 <= d < |s.cons| ==> ConsumerOk(s.cons[d], s)
  {
    var s' := SetConsumer(s, c, p);
    hide HeaderOk;
    forall d | 0 <= d < |s'.cons| ensures ConsumerOk(s'.cons[d], s') { assert ConsumerOk(s'.cons[d], s); }
  }

  lemma LiveFreed(entries: seq<Entry>, h: Header, n: nat, w: nat, blocks: nat, live: map<nat, BlockId>, j: nat, e: nat)
    requires RingOk(entries, h, n, w) && blocks <= n && LiveOk(entries, h, n, w, blocks, live) && j in live && e == EntryOf(h, n, j)
    ensures e < |entries|
    ensures var entries' := entries[e := entries[e].(value := None)];
            RingOk(entries', h, n, w) && LiveOk(entries', h, n, w, blocks, live - {j})
  {
    var entries' := entries[e := entries[e].(value := None)];
    RingKept(entries, entries', h, n, w, w);
    forall k | k in live && k != j ensures EntryOf(h, n, k) != e {
      if k < j { EntriesApart(h, n, k, j); } else { EntriesApart(h, n, j, k); }
    }
    hide Distinct, Base, Back, EntryOf;
  }

  lemma FreeFrame(s: State, c: Tid)
    requires WellFormed(s) && Enabled(s, Free(c))
    ensures var s' := Step(s, Free(c));
            && WellFormed(s') && Current(s') == Current(s) && Inserted(s') == Inserted(s) && s'.prod == s.prod && s'.headers == s.headers
  {
    var s' := Step(s, Free(c));
    forall d | 0 <= d < |s'.cons| ensures ConsumerOk(s'.cons[d], s') { assert ConsumerOk(s.cons[d], s); }
  }

  lemma FreeCore(s: State, w: nat, newest: seq<nat>, m: nat, c: Tid)
    requires Core(s, w) && Enabled(s, Free(c)) && ConsumerOk(s.cons[c], s) && |newest| + 1 == |s.headers| && Relies(s, w, newest, m, s.cons[c])
    ensures Core(Step(s, Free(c)), w) && Renumbers(s, w, Step(s, Free(c)), w)
  {
    hide RingOk, LiveOk, EntryOf, HeaderOk, ConsumerOk;
    var j, e, s' := s.cons[c].i / BLOCK_SIZE, s.cons[c].e, Step(s, Free(c));
    FreeFrame(s, c);
    hide WellFormed;
    LiveFreed(s.entries, Current(s), Inserted(s), w, s.blocks, s.live, j, e);
    FreeProducer(s, w, e);
    SameRing(s, w, s', w);
  }

  /** Clearing a value does not matter to the producer. */
  lemma FreeProducer(s: State, w: nat, e: nat)
    requires Core(s, w) && e < |s.entries|
    ensures var entries' := s.entries[e := s.entries[e].(value := None)];
            RingOk(entries', Current(s), Inserted(s), w) ==>
              && ProducerInv(s.prod, entries', Current(s), Inserted(s), w)
              && (Reserved(s.prod, s.entries, Current(s), Inserted(s), w) ==> Reserved(s.prod, entries', Current(s), Inserted(s), w))
  {
    hide LiveOk, Base, WellFormed, Distinct;
  }

  // ------------------------------------------------------------------ every step

  ghost function Follow(s: State, g: Aux, a: Action): Aux requires Inv(s, g) && Enabled(s, a) {
    match a
    case Insert => g.(window := if g.window < |Current(s).index| then g.window else g.window - 1)
    case Grow(_) => g.(newest := g.newest + [if Inserted(s) > 0 then Inserted(s) - 1 else 0])
    case StoreTail => g.(window := g.window + 1)
    case Rewind => g.(window := if g.window > 0 then g.window - 1 else 0)
    case Run(c) => g.(seen := g.seen[c := Read(s, g.newest, g.seen[c], s.cons[c])])
    case _ => g
  }

  lemma FreeKeeps(s: State, g: Aux, c: Tid)
    requires Inv(s, g) && Enabled(s, Free(c))
    ensures Inv(Step(s, Free(c)), g)
  {
    hide RingOk, LiveOk, ProducerInv, EntryOf, HeaderOk, Renumbers, Through, ConsumerOk, Relies;
    assert Relies(s, g.window, g.newest, g.seen[c], s.cons[c]);
    FreeCore(s, g.window, g.newest, g.seen[c], c);
    FreeFrame(s, c);
    var s' := Step(s, Free(c));
    forall d: nat | d < |s.cons| ensures ConsumerOk(s'.cons[d], s') && Relies(s', g.window, g.newest, g.seen[d], s'.cons[d]) {
      if d == c {
        GoneIsFine(s', g.window, g.newest, g.seen[d]);
      } else {
        assert Relies(s, g.window, g.newest, g.seen[d], s.cons[d]);
        PinnedIsLive(s, g.window, g.newest, g.seen[d], s.cons[d]);
        assert s'.cons[d] == s.cons[d] && ConsumerOk(s'.cons[d], s');
        ConsumerKept(s, g, s', g, g.seen[d], s.cons[d]);
      }
    }
  }

  lemma GoneIsFine(s: State, w: nat, newest: seq<nat>, m: nat)
    requires Core(s, w) && |newest| + 1 == |s.headers|
    ensures ConsumerOk(Away, s) && Relies(s, w, newest, m, Away)
  {
  }

  lemma CallKeeps(s: State, g: Aux, c: Tid, i: nat)
    requires Inv(s, g) && Enabled(s, Call(c, i))
    ensures Inv(Step(s, Call(c, i)), g)
  {
    LiveFacts(s, g.window, i / BLOCK_SIZE);
    hide RingOk, LiveOk, ProducerInv, EntryOf, HeaderOk;
    ConsumerMoves(s, g, c, LoadHeader(i), g.seen[c]);
    assert g.(seen := g.seen[c := g.seen[c]]) == g;
  }

  lemma RunKeeps(s: State, g: Aux, c: Tid)
    requires Inv(s, g) && Enabled(s, Run(c))
    ensures Inv(Step(s, Run(c)), Follow(s, g, Run(c)))
  {
    assert Relies(s, g.window, g.newest, g.seen[c], s.cons[c]);
    hide RingOk, LiveOk, ProducerInv, Relies, HeaderOk, Look;
    LookRelies(s, g.window, g.newest, g.seen[c], s.cons[c]);
    ConsumerMoves(s, g, c, Look(s, s.cons[c]), Read(s, g.newest, g.seen[c], s.cons[c]));
  }

  lemma LeaveKeeps(s: State, g: Aux, c: Tid)
    requires Inv(s, g) && Enabled(s, Leave(c))
    ensures Inv(Step(s, Leave(c)), g)
  {
    hide RingOk, LiveOk, ProducerInv, EntryOf, HeaderOk;
    ConsumerMoves(s, g, c, Away, g.seen[c]);
    assert g.(seen := g.seen[c := g.seen[c]]) == g;
  }

  lemma ProducerKeeps(s: State, g: Aux, a: Action)
    requires Inv(s, g) && Enabled(s, a) && (a.Insert? || a.Grow? || a.StoreTail? || a.Publish? || a.Rewind? || a.ClearValue?)
    ensures Inv(Step(s, a), Follow(s, g, a))
  {
    hide RingOk, LiveOk, ProducerInv, HeaderOk, ConsumerOk, Renumbers, Relies, HeadersKept, Step;
    var s', g' := Step(s, a), Follow(s, g, a);
    Frame(s, g, a);
    match a {
      case Insert => InsertCore(s, g.window);
      case Grow(garbage) => GrowCore(s, g.window, garbage);
      case StoreTail => StoreTailCore(s, g.window);
      case Publish(id) => PublishCore(s, g.window, id);
      case Rewind => RewindCore(s, g.window);
      case ClearValue => ClearValueCore(s, g.window);
    }
    ProducerMoves(s, g, s', g');
  }

  /** What the producer leaves alone. */
  lemma Frame(s: State, g: Aux, a: Action)
    requires Inv(s, g) && Enabled(s, a) && (a.Insert? || a.Grow? || a.StoreTail? || a.Publish? || a.Rewind? || a.ClearValue?)
    ensures var s', g' := Step(s, a), Follow(s, g, a);
            HeadersKept(s, g, s', g') && s'.cons == s.cons && g'.seen == g.seen && forall j :: j in s.live ==> j in s'.live
  {
    hide RingOk, LiveOk, ProducerInv, Relies, HeaderOk, ConsumerOk, Base;
  }

  lemma Preserved(s: State, g: Aux, a: Action)
    requires Inv(s, g) && Enabled(s, a)
    ensures Inv(Step(s, a), Follow(s, g, a))
  {
    hide Inv, Step, Follow;
    match a {
      case Call(c, i) => CallKeeps(s, g, c, i); SameAux(s, g, a);
      case Run(c) => RunKeeps(s, g, c);
      case Leave(c) => LeaveKeeps(s, g, c); SameAux(s, g, a);
      case Free(c) => FreeKeeps(s, g, c); SameAux(s, g, a);
      case _ => ProducerKeeps(s, g, a);
    }
  }

  lemma SameAux(s: State, g: Aux, a: Action)
    requires Inv(s, g) && Enabled(s, a) && (a.Call? || a.Leave? || a.Free?)
    ensures Follow(s, g, a) == g
  {
  }

  // ------------------------------------------------------------------ whole runs

  /** An index as new_block_index first makes it, with values not initialized. */
  ghost predicate Init(s: State) {
    && |s.entries| == INITIAL_INDEX_SIZE && (forall e :: 0 <= e < |s.entries| ==> s.entries[e].key == INVALID_BLOCK_BASE)
    && s.headers == [Header(seq(INITIAL_INDEX_SIZE, k => k), INITIAL_INDEX_SIZE - 1, 5)]
    && s.blocks == 0 && s.live == map[] && s.prod == Ready && forall c :: 0 <= c < |s.cons| ==> s.cons[c] == Away
  }

  ghost predicate IsRun(run: seq<State>, steps: seq<Action>) {
    && |run| == |steps| + 1 && Init(run[0])
    && forall i :: 0 <= i < |steps| ==> WellFormed(run[i]) && Enabled(run[i], steps[i]) && run[i + 1] == Step(run[i], steps[i])
  }

  lemma InitInv(s: State)
    requires Init(s)
    ensures Inv(s, Aux(0, [], seq(|s.cons|, _ => 0)))
  {
    assert Pow2(5) == 32;
  }

  lemma {:induction false} RunKeepsInv(run: seq<State>, steps: seq<Action>, k: nat) returns (g: Aux)
    requires IsRun(run, steps) && k < |run|
    ensures Inv(run[k], g)
  {
    hide Inv, Step, Init;
    if k == 0 {
      InitInv(run[0]);
      g := Aux(0, [], seq(|run[0].cons|, _ => 0));
    } else {
      var before := RunKeepsInv(run, steps, k - 1);
      Preserved(run[k - 1], before, steps[k - 1]);
      g := Follow(run[k - 1], before, steps[k - 1]);
    }
  }

  /** In every run a lookup ends at an entry with the base of the block it was for and the block
      itself, and keeps it as long as it holds it, whatever the producer and the other
      consumers do meanwhile and whichever header it went through. */
  lemma LookupsFind(run: seq<State>, steps: seq<Action>, k: nat, c: Tid)
    requires IsRun(run, steps) && k < |run| && c < |run[k].cons| && run[k].cons[c].Holds?
    ensures var s, i, e := run[k], run[k].cons[c].i, run[k].cons[c].e;
            i / BLOCK_SIZE in s.live && e < |s.entries| && s.entries[e] == Entry(Base(i / BLOCK_SIZE), Some(s.live[i / BLOCK_SIZE]))
  {
    var g := RunKeepsInv(run, steps, k);
    assert Relies(run[k], g.window, g.newest, g.seen[c], run[k].cons[c]);
    LiveFacts(run[k], g.window, run[k].cons[c].i / BLOCK_SIZE);
    hide RingOk, LiveOk, ProducerInv, EntryOf, HeaderOk, Base;
  }

  /** Its assertion that the tail has a key holds as well. */
  lemma TailHasKey(run: seq<State>, steps: seq<Action>, k: nat, c: Tid)
    requires IsRun(run, steps) && k < |run| && c < |run[k].cons| && run[k].cons[c].Locate?
    ensures run[k].cons[c].key != INVALID_BLOCK_BASE
  {
    var g := RunKeepsInv(run, steps, k);
    assert Relies(run[k], g.window, g.newest, g.seen[c], run[k].cons[c]);
    BaseIsValid(g.seen[c]);
    hide RingOk, LiveOk, ProducerInv, EntryOf, HeaderOk, Base;
  }

  /** A new header has an unused entry behind its tail. */
  lemma GrowMakesRoom(s: State, g: Aux, garbage: seq<Option<BlockId>>)
    requires Inv(s, g) && Enabled(s, Grow(garbage))
    ensures var s' := Step(s, Grow(garbage)); WellFormed(s') && s'.entries[NextEntry(s')].key == INVALID_BLOCK_BASE && Enabled(s', Insert)
  {
    Preserved(s, g, Grow(garbage));
    var h, s' := Current(s), Grown(s, garbage);
    hide RingOk, LiveOk, ProducerInv, Relies, ConsumerOk;
    assert Next(Current(s')) == |h.index|;
    assert Current(s').index[|h.index|] == |s.entries|;
  }
}
