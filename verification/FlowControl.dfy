/** flow_cntl.c and flow_txmit.c of RUDE as operations on one scheduler object. */
module FlowControl {
  import opened Rude

  lemma PrevOfSeek(g: Chart, j: nat)
    requires Running(g, j)
    ensures Prior(g, Seek(g, j + 1)) == j
  {
  }

  /** Where a walk along the active list goes from flow j. */
  ghost function Stand(g: Chart, j: nat): Ptr requires |g.chains| == |g.pos| && (j < |g.chains| ==> Running(g, j)) {
    if j < |g.chains| then To(Current(g, j)) else Null
  }

  lemma WalkStarts(flows: seq<Flow>, head: Ptr, g: Chart)
    requires Partition(g, |flows|) && ListOk(flows, head, g)
    ensures |g.chains| == |g.pos| && head == Stand(g, Seek(g, 0)) && Prev(g, Seek(g, 0)) == Null
  {
  }

  lemma WalkStep(flows: seq<Flow>, head: Ptr, g: Chart, j: nat)
    requires Partition(g, |flows|) && ListOk(flows, head, g) && Running(g, j)
    ensures |g.chains| == |g.pos| && Current(g, j) < |flows| && flows[Current(g, j)].next == Stand(g, Seek(g, j + 1))
    ensures Prev(g, Seek(g, j + 1)) == To(Current(g, j)) && Seek(g, j + 1) <= |g.chains|
  {
    PrevOfSeek(g, j);
    HomeIs(g, |flows|, j, g.pos[j]);
  }

  /** Only one flow can have b in front. */
  lemma NoneBeyond(g: Chart, blocks: nat, b: nat, j: nat)
    requires Partition(g, blocks) && j <= |g.chains| && (j < |g.chains| ==> Running(g, j) && Current(g, j) == b)
    requires forall m: nat :: m < j && Running(g, m) ==> Current(g, m) != b
    ensures forall m: nat :: Running(g, m) && Current(g, m) == b ==> m == j
  {
  }

  lemma SameLengths(g: Chart, blocks: nat)
    requires Partition(g, blocks)
    ensures |g.chains| == |g.pos| == |g.socks| && |g.home| == blocks
  {
  }

  /** find_next drops a block that is past its end or scheduled past it. */
  predicate Expired(f: Flow, now: Time) { Before(f.stop, now) || Before(f.stop, f.nextTx) }

  /** The first block of a chain, from place k on, that is not to be dropped. */
  ghost function Settle(flows: seq<Flow>, chain: seq<nat>, k: nat, now: Time): (r: nat)
    requires k <= |chain| && forall m :: 0 <= m < |chain| ==> chain[m] < |flows|
    ensures k <= r <= |chain|
    decreases |chain| - k
  {
    if k < |chain| && Expired(flows[chain[k]], now) then Settle(flows, chain, k + 1, now) else k
  }

  /** Blocks left in the active chains of the first n flows. */
  ghost function Remaining(g: Chart, n: nat): nat requires n <= |g.chains| == |g.pos| {
    if n == 0 then 0 else Remaining(g, n - 1) + if Running(g, n - 1) then |g.chains[n - 1]| - g.pos[n - 1] else 0
  }

  lemma {:induction false} RemainingAdvance(g: Chart, i: nat, n: nat)
    requires Running(g, i) && n <= |g.chains|
    ensures Remaining(Advance(g, i), n) == Remaining(g, n) - if i < n then 1 else 0
  {
    if n > 0 { RemainingAdvance(g, i, n - 1); }
  }

  ghost function FlowOf(g: Chart, b: nat): nat { if b < |g.home| then g.home[b].0 else 0 }

  /** Block b is the one of its flow in the active list. */
  ghost predicate InFront(g: Chart, b: nat) { Running(g, FlowOf(g, b)) && Current(g, FlowOf(g, b)) == b }

  /** What holds of the block to remove. */
  lemma BeforeRemoval(flows: seq<Flow>, head: Ptr, g: Chart, sent: seq<Packet>, closed: seq<int>, i: nat)
    requires Partition(g, |flows|) && ModsOk(flows, g) && ListOk(flows, head, g) && Books(flows, g, sent, closed) && Running(g, i)
    ensures var b := Current(g, i);
      && b < |flows| && InFront(g, b) && FlowOf(g, b) == i
      && flows[b].mod == After(g.chains[i], g.pos[i]) && flows[b].next == Entry(g, i + 1) && flows[b].sock == g.socks[i]
      && (flows[b].mod.To? ==> flows[b].mod.b < |flows|)
      && (Prior(g, i) >= 0 ==> Current(g, Prior(g, i)) < |flows|)
  {
    HomeIs(g, |flows|, i, g.pos[i]);
    if g.pos[i] + 1 < |g.chains[i]| { HomeIs(g, |flows|, i, g.pos[i] + 1); }
    if Prior(g, i) >= 0 { HomeIs(g, |flows|, Prior(g, i), g.pos[Prior(g, i)]); }
    assert FlowOk(flows, g, sent, i);
    hide Partition, Entry, Tally, SeqNos;
  }

  /** What the removal brings about. */
  lemma AfterRemoval(flows: seq<Flow>, head: Ptr, done: Ptr, g: Chart, sent: seq<Packet>, closed: seq<int>, i: nat)
    requires Shape(flows, head, done, g) && Books(flows, g, sent, closed) && Running(g, i)
    ensures Partition(g, |flows|)
    ensures var f', g' := Unlinked(flows, done, g, i), Advance(g, i);
      && |f'| == |flows| && (forall c :: 0 <= c < |flows| ==> SameCore(flows[c], f'[c]))
      && Shape(f', if Prior(g, i) < 0 then Replacement(g, i) else head, To(Current(g, i)), g')
      && Books(f', g', sent, ClosedAfter(g, i, closed))
  {
    hide Partition, ModsOk, ListOk, DoneOk, Books, SameCore, Unlinked, Replacement, ClosedAfter;
    RemoveMods(flows, done, g, i);
    RemoveList(flows, head, done, g, i);
    RemoveDone(flows, done, g, i);
    RemoveBooks(flows, done, g, sent, closed, i);
    SameLengths(g, |flows|);
    HomeIs(g, |flows|, i, g.pos[i]);
    UnlinkedAt(flows, done, g, i, Current(g, i));
    forall c | 0 <= c < |flows| ensures SameCore(flows[c], Unlinked(flows, done, g, i)[c]) { UnlinkedAt(flows, done, g, i, c); }
  }

  lemma RemovalFacts(flows: seq<Flow>, head: Ptr, done: Ptr, g: Chart, sent: seq<Packet>, closed: seq<int>, b: nat, i: nat)
    requires Shape(flows, head, done, g) && Books(flows, g, sent, closed) && b < |flows|
    requires i <= |g.chains| && (i < |g.chains| ==> Running(g, i) && Current(g, i) == b)
    requires forall m: nat :: Running(g, m) && Current(g, m) == b ==> m == i
    ensures |g.chains| == |g.pos| == |g.socks| && |g.home| == |flows| && Partition(g, |flows|)
    ensures if i < |g.chains| then InFront(g, b) && FlowOf(g, b) == i else !InFront(g, b)
    ensures i < |g.chains| ==>
      && flows[b].mod == After(g.chains[i], g.pos[i]) && flows[b].next == Entry(g, i + 1) && flows[b].sock == g.socks[i]
      && (flows[b].mod.To? ==> flows[b].mod.b < |flows|)
      && (Prior(g, i) >= 0 ==> Current(g, Prior(g, i)) < |flows|)
      && var f', g' := Unlinked(flows, done, g, i), Advance(g, i);
         && |f'| == |flows| && (forall c :: 0 <= c < |flows| ==> SameCore(flows[c], f'[c]))
         && Shape(f', if Prior(g, i) < 0 then Replacement(g, i) else head, To(b), g')
         && Books(f', g', sent, ClosedAfter(g, i, closed))
  {
    hide Partition, ModsOk, ListOk, DoneOk, Books, SameCore, Unlinked, Replacement, ClosedAfter, Entry, Prior, After;
    SameLengths(g, |flows|);
    if i < |g.chains| {
      BeforeRemoval(flows, head, g, sent, closed, i);
      AfterRemoval(flows, head, done, g, sent, closed, i);
    }
  }

  lemma {:induction false} SeekSkip(g: Chart, m: nat, j: nat)
    requires |g.chains| == |g.pos| && m <= j <= |g.chains| && forall l :: m <= l < j ==> !Running(g, l)
    ensures Seek(g, m) == Seek(g, j) && Entry(g, m) == Entry(g, j)
    decreases j - m
  {
  }

  ghost predicate InBounds(chains: seq<seq<nat>>, n: nat) {
    forall i, k :: 0 <= i < |chains| && 0 <= k < |chains[i]| ==> chains[i][k] < n
  }

  /** Every flow still settles where it would have at the start, and those before j have. */
  ghost predicate Settling(flows: seq<Flow>, chains: seq<seq<nat>>, pos0: seq<nat>, pos: seq<nat>, now: Time, j: nat)
    requires InBounds(chains, |flows|)
  {
    && |pos| == |pos0| == |chains|
    && (forall i :: 0 <= i < |chains| ==> pos[i] <= |chains[i]| && pos0[i] <= |chains[i]|)
    && (forall i :: 0 <= i < |chains| ==> Settle(flows, chains[i], pos[i], now) == Settle(flows, chains[i], pos0[i], now))
    && (forall i :: 0 <= i < j && i < |chains| ==> pos[i] == Settle(flows, chains[i], pos[i], now))
  }

  ghost function TxOf(flows: seq<Flow>, g: Chart, i: nat): Time
    requires InBounds(g.chains, |flows|) && Running(g, i)
  {
    flows[Current(g, i)].nextTx
  }

  /** `target` is the first of the flows before j with the least transmission time. */
  ghost predicate Best(flows: seq<Flow>, g: Chart, j: nat, target: Ptr, t: nat)
    requires InBounds(g.chains, |flows|)
  {
    if target == Null then forall i: nat :: i < j ==> !Running(g, i)
    else
      && t < j && Running(g, t) && target == To(Current(g, t))
      && (forall i: nat :: i < t && Running(g, i) ==> Before(TxOf(flows, g, t), TxOf(flows, g, i)))
      && (forall i: nat :: t < i < j && Running(g, i) ==> !Before(TxOf(flows, g, i), TxOf(flows, g, t)))
  }

  /** Dropping flow j's block changes nothing about the flows before it. */
  lemma DropBest(flows: seq<Flow>, flows': seq<Flow>, g: Chart, j: nat, target: Ptr, t: nat)
    requires InBounds(g.chains, |flows|) && |flows'| == |flows| && Running(g, j) && Best(flows, g, j, target, t)
    requires forall b :: 0 <= b < |flows| ==> SameCore(flows[b], flows'[b])
    ensures Best(flows', Advance(g, j), j, target, t)
  {
    var g' := Advance(g, j);
    forall i: nat | i < j
      ensures Running(g', i) == Running(g, i) && (Running(g, i) ==> Current(g', i) == Current(g, i) && TxOf(flows', g', i) == TxOf(flows, g, i))
    {
      if Running(g, i) { assert SameCore(flows[Current(g, i)], flows'[Current(g, i)]); }
    }
    hide TxOf;
  }

  lemma PassSettling(flows: seq<Flow>, g: Chart, pos0: seq<nat>, now: Time, j: nat)
    requires InBounds(g.chains, |flows|) && Settling(flows, g.chains, pos0, g.pos, now, j)
    requires Running(g, j) && !Expired(flows[Current(g, j)], now)
    ensures Settling(flows, g.chains, pos0, g.pos, now, Seek(g, j + 1))
  {
    forall i | j < i < Seek(g, j + 1) && i < |g.chains| ensures g.pos[i] == Settle(flows, g.chains[i], g.pos[i], now) {
      assert !Running(g, i);
    }
  }

  /** Passing flow j takes it into account. */
  lemma PassBest(flows: seq<Flow>, g: Chart, j: nat, target: Ptr, t: nat)
    requires InBounds(g.chains, |flows|) && Running(g, j) && Best(flows, g, j, target, t)
    ensures target != Null ==> target.b < |flows|
    ensures if target == Null || Before(flows[Current(g, j)].nextTx, flows[target.b].nextTx)
            then Best(flows, g, Seek(g, j + 1), To(Current(g, j)), j) else Best(flows, g, Seek(g, j + 1), target, t)
  {
  }

  lemma SameCoreReflexive(a: seq<Flow>)
    ensures forall i :: 0 <= i < |a| ==> SameCore(a[i], a[i])
  {
  }

  lemma SameCoreTransitive(a: seq<Flow>, b: seq<Flow>, c: seq<Flow>)
    requires |a| == |b| == |c|
    requires forall i :: 0 <= i < |a| ==> SameCore(a[i], b[i])
    requires forall i :: 0 <= i < |a| ==> SameCore(b[i], c[i])
    ensures forall i :: 0 <= i < |a| ==> SameCore(a[i], c[i])
  {
  }

  lemma SameExpiry(f: Flow, f': Flow, now: Time)
    requires SameCore(f, f')
    ensures Expired(f, now) == Expired(f', now)
  {
  }

  lemma StartFacts(flows: seq<Flow>, g: Chart, now: Time)
    requires InBounds(g.chains, |flows|) && |g.pos| == |g.chains| && forall i :: 0 <= i < |g.chains| ==> g.pos[i] <= |g.chains[i]|
    ensures Settling(flows, g.chains, g.pos, g.pos, now, Seek(g, 0)) && Best(flows, g, Seek(g, 0), Null, 0)
    ensures Prior(g, Seek(g, 0)) == -1 && (forall b :: 0 <= b < |flows| ==> SameCore(flows[b], flows[b]))
  {
    forall i | 0 <= i < Seek(g, 0) && i < |g.chains| ensures g.pos[i] == Settle(flows, g.chains[i], g.pos[i], now) {
      assert !Running(g, i);
    }
  }

  lemma DropFacts(flows0: seq<Flow>, flows: seq<Flow>, g: Chart, pos0: seq<nat>, now: Time, j: nat)
    requires |flows0| == |flows| && InBounds(g.chains, |flows|) && Settling(flows0, g.chains, pos0, g.pos, now, j)
    requires Running(g, j) && Current(g, j) < |flows| && SameCore(flows0[Current(g, j)], flows[Current(g, j)])
    requires Expired(flows[Current(g, j)], now)
    ensures Settling(flows0, g.chains, pos0, Advance(g, j).pos, now, j)
  {
  }

  /** Flows that are over need no stop. */
  lemma SkipFacts(flows0: seq<Flow>, flows: seq<Flow>, g: Chart, pos0: seq<nat>, now: Time, j: nat, target: Ptr, t: nat)
    requires |flows0| == |flows| && InBounds(g.chains, |flows|)
    requires Settling(flows0, g.chains, pos0, g.pos, now, j) && Best(flows, g, j, target, t)
    ensures Settling(flows0, g.chains, pos0, g.pos, now, Seek(g, j)) && Best(flows, g, Seek(g, j), target, t)
  {
    forall i | j <= i < Seek(g, j) && i < |g.chains| ensures g.pos[i] == Settle(flows0, g.chains[i], g.pos[i], now) {
      assert !Running(g, i);
    }
  }

  lemma PassFacts(flows0: seq<Flow>, flows: seq<Flow>, g: Chart, pos0: seq<nat>, now: Time, j: nat)
    requires |flows0| == |flows| && InBounds(g.chains, |flows|) && Settling(flows0, g.chains, pos0, g.pos, now, j)
    requires Running(g, j) && Current(g, j) < |flows| && SameCore(flows0[Current(g, j)], flows[Current(g, j)])
    requires !Expired(flows[Current(g, j)], now)
    ensures Settling(flows0, g.chains, pos0, g.pos, now, Seek(g, j + 1))
  {
    SameExpiry(flows0[Current(g, j)], flows[Current(g, j)], now);
    PassSettling(flows0, g, pos0, now, j);
  }

  lemma ShapeFacts(flows: seq<Flow>, head: Ptr, done: Ptr, g: Chart)
    requires Shape(flows, head, done, g)
    ensures Partition(g, |flows|) && InBounds(g.chains, |flows|) && |g.pos| == |g.chains| == |g.socks| && |g.home| == |flows|
    ensures forall i :: 0 <= i < |g.chains| ==> g.pos[i] <= |g.chains[i]|
    ensures head == Entry(g, 0) && forall i: nat :: Running(g, i) ==> flows[Current(g, i)].next == Entry(g, i + 1)
  {
  }

  lemma WalkFrom(flows: seq<Flow>, head: Ptr, done: Ptr, g: Chart)
    requires Shape(flows, head, done, g)
    ensures |g.chains| == |g.pos| && head == Stand(g, Seek(g, 0)) && Prev(g, Seek(g, 0)) == Null
  {
  }

  lemma WalkOn(flows: seq<Flow>, head: Ptr, done: Ptr, g: Chart, j: nat)
    requires Shape(flows, head, done, g) && Running(g, j)
    ensures |g.chains| == |g.pos| && Current(g, j) < |flows| && flows[Current(g, j)].next == Stand(g, Seek(g, j + 1))
    ensures Prev(g, Seek(g, j + 1)) == To(Current(g, j)) && Seek(g, j + 1) <= |g.chains|
  {
    WalkStep(flows, head, g, j);
  }

  lemma HomeOfCurrent(g: Chart, blocks: nat, j: nat)
    requires Partition(g, blocks) && Running(g, j)
    ensures Current(g, j) < blocks == |g.home| && FlowOf(g, Current(g, j)) == j && InFront(g, Current(g, j))
  {
  }

  lemma {:induction false} PriorSame(g: Chart, g': Chart, j: nat)
    requires |g.chains| == |g.pos| == |g'.pos| && g'.chains == g.chains
    requires forall l: nat :: l < j ==> Running(g', l) == Running(g, l)
    ensures Prior(g', j) == Prior(g, j)
  {
  }

  lemma PriorSkip(g: Chart, j: nat)
    requires |g.chains| == |g.pos|
    ensures Prior(g, Seek(g, j)) == Prior(g, j)
  {
  }

  /** Looking back from j and ahead from the flow found there. */
  lemma BehindPrior(flows: seq<Flow>, head: Ptr, g: Chart, j: nat)
    requires |g.chains| == |g.pos| && j <= |g.chains|
    requires head == Entry(g, 0)
    requires Prior(g, j) >= 0 ==> Current(g, Prior(g, j)) < |flows| && flows[Current(g, Prior(g, j))].next == Entry(g, Prior(g, j) + 1)
    ensures Entry(g, j) == if Prior(g, j) >= 0 then flows[Current(g, Prior(g, j))].next else head
  {
    SeekSkip(g, Prior(g, j) + 1, j);
    hide Seek, Prior, Entry, Current, Running;
  }

  /** The removal changes nothing before flow j. */
  lemma PrevAdvanced(g: Chart, j: nat)
    requires Running(g, j)
    ensures var g' := Advance(g, j);
            && Prior(g', j) == Prior(g, j) && Prev(g', Seek(g', j)) == Prev(g, j)
            && (Prior(g, j) >= 0 ==> Running(g', Prior(g, j)) && Current(g', Prior(g, j)) == Current(g, Prior(g, j)))
  {
    var g' := Advance(g, j);
    forall l: nat | l < j ensures Running(g', l) == Running(g, l) {}
    PriorSame(g, g', j);
    PriorSkip(g', j);
    hide Seek, Prior;
  }

  lemma StandIsEntry(g: Chart, j: nat)
    requires |g.chains| == |g.pos|
    ensures Stand(g, Seek(g, j)) == Entry(g, j)
  {
  }

  /** After the removal the list goes on, behind prev, with flow j's next block or the next flow. */
  lemma Reenter(flows: seq<Flow>, head: Ptr, done: Ptr, g: Chart, j: nat)
    requires Running(g, j) && Shape(flows, head, done, Advance(g, j))
    ensures var g' := Advance(g, j);
            && Prev(g', Seek(g', j)) == Prev(g, j) && Seek(g', j) <= |g.chains|
            && (Prior(g, j) >= 0 ==> Current(g, Prior(g, j)) < |flows|)
            && Stand(g', Seek(g', j)) == if Prior(g, j) >= 0 then flows[Current(g, Prior(g, j))].next else head
  {
    hide Shape, Partition, Seek, Prior, Prev, Entry, Stand, Current;
    var g' := Advance(g, j);
    ShapeFacts(flows, head, done, g');
    PrevAdvanced(g, j);
    StandIsEntry(g', j);
    if Prior(g, j) >= 0 { HomeOfCurrent(g', |flows|, Prior(g, j)); }
    BehindPrior(flows, head, g', j);
  }

  // ------------------------------------------------------------- transmission

  /** What a transmission may change in the block that sends: its counters, its
      sequence number, its schedule and the place in its trace. */
  ghost predicate Sends(f: Flow, f': Flow) {
    && f' == f.(errors := f'.errors, success := f'.success, seqno := f.seqno + 1, nextTx := f'.nextTx, kind := f'.kind)
    && f'.errors + f'.success == f.errors + f.success + 1
    && ContentOk(f')
  }

  lemma {:induction false} TallySend(flows: seq<Flow>, chain: seq<nat>, p: nat, f': Flow, k: nat)
    requires k <= |chain| && p < |chain| && (forall m :: 0 <= m < |chain| ==> chain[m] < |flows|)
    requires forall m :: 0 <= m < |chain| && m != p ==> chain[m] != chain[p]
    requires f'.errors + f'.success == flows[chain[p]].errors + flows[chain[p]].success + 1
    ensures Tally(flows[chain[p] := f'], chain, k) == Tally(flows, chain, k) + if p < k then 1 else 0
  {
    if k > 0 { TallySend(flows, chain, p, f', k - 1); }
  }

  lemma SendSelf(flows: seq<Flow>, g: Chart, sent: seq<Packet>, i: nat, f': Flow)
    requires Partition(g, |flows|) && Running(g, i) && FlowOk(flows, g, sent, i) && Sends(flows[Current(g, i)], f')
    ensures var b := Current(g, i); FlowOk(flows[b := f'], g, sent + [Packet(f'.id, f'.seqno - 1)], i)
  {
    var c, b := g.chains[i], Current(g, i);
    var sent' := sent + [Packet(f'.id, f'.seqno - 1)];
    forall m | 0 <= m < |c| ensures c[m] < |flows| && (m != g.pos[i] ==> c[m] != b) { HomeIs(g, |flows|, i, m); HomeIs(g, |flows|, i, g.pos[i]); }
    hide Partition;
    TallySend(flows, c, g.pos[i], f', |c|);
    assert sent'[..|sent|] == sent;
    assert flows[b].id == flows[c[0]].id;
    assert UpTo(Tally(flows, c, |c|) + 1) == UpTo(Tally(flows, c, |c|)) + [flows[b].seqno];
  }

  lemma SendOther(flows: seq<Flow>, g: Chart, sent: seq<Packet>, i: nat, j: nat, f': Flow)
    requires Partition(g, |flows|) && Running(g, i) && j < |g.chains| && j != i && |g.chains[j]| > 0 && FlowOk(flows, g, sent, j)
    requires f'.id == flows[Current(g, i)].id != flows[g.chains[j][0]].id && f'.seqno > 0
    ensures FlowOk(flows[Current(g, i) := f'], g, sent + [Packet(f'.id, f'.seqno - 1)], j)
  {
    var c, b := g.chains[j], Current(g, i);
    var sent' := sent + [Packet(f'.id, f'.seqno - 1)];
    forall m | 0 <= m < |c| ensures c[m] < |flows| && c[m] != b { HomeIs(g, |flows|, j, m); HomeIs(g, |flows|, i, g.pos[i]); }
    hide Partition;
    TallySame(flows, flows[b := f'], c, |c|);
    assert sent'[..|sent|] == sent;
  }

  lemma SendStamped(flows: seq<Flow>, g: Chart, i: nat, j: nat, f': Flow)
    requires Partition(g, |flows|) && Running(g, i) && j < |g.chains| && Stamped(flows, g, j)
    requires f'.errors + f'.success == flows[Current(g, i)].errors + flows[Current(g, i)].success + 1
    ensures Stamped(flows[Current(g, i) := f'], g, j)
  {
    var c, b := g.chains[j], Current(g, i);
    forall k | 0 <= k < g.pos[j] ensures flows[b := f'][c[k]].seqno == Through(flows[b := f'], c, k) {
      forall m | 0 <= m < |c| ensures c[m] == b ==> j == i && m == g.pos[i] { HomeIs(g, |flows|, j, m); HomeIs(g, |flows|, i, g.pos[i]); }
      if j == i { TallySend(flows, c, g.pos[i], f', k + 1); } else { TallySame(flows, flows[b := f'], c, k + 1); }
    }
  }

  lemma IdOfFlow(flows: seq<Flow>, g: Chart, sent: seq<Packet>, i: nat)
    requires Partition(g, |flows|) && Running(g, i) && FlowOk(flows, g, sent, i)
    ensures flows[Current(g, i)].id == flows[g.chains[i][0]].id
  {
  }

  lemma SendMods(flows: seq<Flow>, g: Chart, b: nat, f': Flow)
    requires Partition(g, |flows|) && ModsOk(flows, g) && b < |flows| && f'.mod == flows[b].mod
    ensures ModsOk(flows[b := f'], g)
  {
  }

  lemma SendList(flows: seq<Flow>, head: Ptr, g: Chart, b: nat, f': Flow)
    requires Partition(g, |flows|) && ListOk(flows, head, g) && b < |flows| && f'.next == flows[b].next
    ensures ListOk(flows[b := f'], head, g)
  {
    hide Entry;
  }

  lemma SendDone(flows: seq<Flow>, done: Ptr, g: Chart, b: nat, f': Flow)
    requires Partition(g, |flows|) && DoneOk(flows, done, g) && b < |flows| && f'.next == flows[b].next
    ensures DoneOk(flows[b := f'], done, g)
  {
    hide First;
  }

  lemma SendShape(flows: seq<Flow>, head: Ptr, done: Ptr, g: Chart, b: nat, f': Flow)
    requires Shape(flows, head, done, g) && b < |flows| && f'.next == flows[b].next && f'.mod == flows[b].mod
    ensures Shape(flows[b := f'], head, done, g)
  {
    hide Partition, ModsOk, ListOk, DoneOk;
    SendMods(flows, g, b, f');
    SendList(flows, head, g, b, f');
    SendDone(flows, done, g, b, f');
  }

  lemma SendBooks(flows: seq<Flow>, g: Chart, sent: seq<Packet>, closed: seq<int>, i: nat, f': Flow)
    requires Partition(g, |flows|) && Books(flows, g, sent, closed) && Running(g, i) && Current(g, i) < |flows|
    requires Sends(flows[Current(g, i)], f')
    ensures Books(flows[Current(g, i) := f'], g, sent + [Packet(f'.id, f'.seqno - 1)], closed)
  {
    hide FlowOk, Stamped, Ended, ContentOk;
    var flows', sent' := flows[Current(g, i) := f'], sent + [Packet(f'.id, f'.seqno - 1)];
    IdOfFlow(flows, g, sent, i);
    forall j | 0 <= j < |g.chains| ensures FlowOk(flows', g, sent', j) && Stamped(flows', g, j) {
      SendStamped(flows, g, i, j, f');
      if j == i { SendSelf(flows, g, sent, i, f'); } else { SendOther(flows, g, sent, i, j, f'); }
    }
    FirstIds(flows, flows', g);
  }

  /** A transmission keeps all lists and all accounts. */
  lemma SendKeeps(flows: seq<Flow>, head: Ptr, done: Ptr, g: Chart, sent: seq<Packet>, closed: seq<int>, i: nat, f': Flow)
    requires Shape(flows, head, done, g) && Books(flows, g, sent, closed) && Running(g, i) && Current(g, i) < |flows|
    requires Sends(flows[Current(g, i)], f')
    ensures var b := Current(g, i);
            && Shape(flows[b := f'], head, done, g)
            && Books(flows[b := f'], g, sent + [Packet(f'.id, f'.seqno - 1)], closed)
  {
    hide Shape, Books, Partition;
    ShapeFacts(flows, head, done, g);
    SendShape(flows, head, done, g, Current(g, i), f');
    SendBooks(flows, g, sent, closed, i, f');
  }

  lemma ContentFacts(flows: seq<Flow>, head: Ptr, done: Ptr, g: Chart, sent: seq<Packet>, closed: seq<int>, b: nat)
    requires Shape(flows, head, done, g) && Books(flows, g, sent, closed) && b < |flows|
    ensures ContentOk(flows[b])
  {
  }

  /** Nothing find_next returns is expired, so nothing it returns has rate zero. */
  lemma TargetIsLive(flows0: seq<Flow>, flows: seq<Flow>, g: Chart, pos0: seq<nat>, now: Time, i: nat)
    requires |flows0| == |flows| && InBounds(g.chains, |flows|) && Settling(flows0, g.chains, pos0, g.pos, now, |g.chains|)
    requires Running(g, i) && forall b :: 0 <= b < |flows| ==> SameCore(flows0[b], flows[b])
    ensures !Expired(flows[Current(g, i)], now)
    ensures ContentOk(flows[Current(g, i)]) && flows[Current(g, i)].kind.Cbr? ==> flows[Current(g, i)].kind.rate != 0
  {
  }

  lemma NothingIsFine(flows: seq<Flow>, g: Chart, sent: seq<Packet>, closed: seq<int>)
    requires |flows| == |g.chains| == |g.pos| == |g.finished| == |g.home| == |g.socks| == 0
    requires |sent| == |closed| == |g.refused| == 0
    ensures Shape(flows, Null, Null, g) && Books(flows, g, sent, closed)
  {
  }

  /** No running flow other than t is due before `due`. */
  ghost predicate NoneEarlier(flows: seq<Flow>, g: Chart, t: nat, due: Time) requires InBounds(g.chains, |flows|) {
    forall i: nat :: i != t && Running(g, i) ==> !Before(TxOf(flows, g, i), due)
  }

  /** The flow find_next chose is due no later than the others. */
  lemma EarliestDue(flows: seq<Flow>, g: Chart, t: nat)
    requires InBounds(g.chains, |flows|) && Running(g, t) && Best(flows, g, |g.chains|, To(Current(g, t)), t)
    ensures NoneEarlier(flows, g, t, TxOf(flows, g, t))
  {
    hide InBounds;
  }

  /** Sending changes nothing about the other flows. */
  lemma OthersDue(flows: seq<Flow>, f': Flow, g: Chart, t: nat, due: Time)
    requires InBounds(g.chains, |flows|) && Partition(g, |flows|) && Running(g, t) && NoneEarlier(flows, g, t, due)
    ensures InBounds(g.chains, |flows[Current(g, t) := f']|) && NoneEarlier(flows[Current(g, t) := f'], g, t, due)
  {
    forall i: nat | i != t && Running(g, i) ensures TxOf(flows[Current(g, t) := f'], g, i) == TxOf(flows, g, i) {
      HomeIs(g, |flows|, i, g.pos[i]);
      HomeIs(g, |flows|, t, g.pos[t]);
    }
  }

  /** A time in microseconds. */
  function Micros(t: Time): int { t.sec * 1000000 + t.usec }

  /** The outcome of sendto goes to one counter. */
  predicate Counts(f: Flow, f': Flow, delivered: bool) {
    f'.success == f.success + (if delivered then 1 else 0) && f'.errors == f.errors + if delivered then 0 else 1
  }

  /** The ids and the ends of the blocks do not change. */
  ghost predicate SameEntries(flows: seq<Flow>, flows': seq<Flow>) {
    |flows'| == |flows| && forall b :: 0 <= b < |flows| ==> flows'[b].id == flows[b].id && flows'[b].stop == flows[b].stop
  }

  /** The clock is past the end of every block. */
  predicate PastAll(flows: seq<Flow>, now: Time) { forall b :: 0 <= b < |flows| ==> Before(flows[b].stop, now) }

  lemma CoreEntries(flows: seq<Flow>, flows': seq<Flow>)
    requires |flows'| == |flows| && forall b :: 0 <= b < |flows| ==> SameCore(flows[b], flows'[b])
    ensures SameEntries(flows, flows')
  {
  }

  /** What find_next returned is a block of flow t that may be sent, and no flow is due earlier. */
  lemma Chosen(flows0: seq<Flow>, flows: seq<Flow>, head: Ptr, done: Ptr, g: Chart, sent: seq<Packet>, closed: seq<int>,
               pos0: seq<nat>, now: Time, target: Ptr, t: nat)
    requires Shape(flows, head, done, g) && Books(flows, g, sent, closed) && |flows0| == |flows| && target != Null
    requires forall b :: 0 <= b < |flows| ==> SameCore(flows0[b], flows[b])
    requires InBounds(g.chains, |flows|) && Settling(flows0, g.chains, pos0, g.pos, now, |g.chains|) && Best(flows, g, |g.chains|, target, t)
    ensures Running(g, t) && target.b == Current(g, t) < |flows| && (flows[target.b].kind.Cbr? ==> flows[target.b].kind.rate != 0)
    ensures !Before(flows[target.b].stop, flows[target.b].nextTx) && !Before(flows[target.b].stop, now)
    ensures flows[target.b].nextTx == TxOf(flows, g, t)
    ensures NoneEarlier(flows, g, t, flows[target.b].nextTx)
  {
    hide Shape, Books, Settling, ContentOk, SameCore, Partition, NoneEarlier;
    ShapeFacts(flows, head, done, g);
    HomeOfCurrent(g, |flows|, t);
    ContentFacts(flows, head, done, g, sent, closed, target.b);
    TargetIsLive(flows0, flows, g, pos0, now, t);
    EarliestDue(flows, g, t);
  }

  lemma SendFacts(flows0: seq<Flow>, flows: seq<Flow>, flows': seq<Flow>, b: nat)
    requires SameEntries(flows0, flows) && b < |flows| == |flows'| && flows' == flows[b := flows'[b]] && Sends(flows[b], flows'[b])
    ensures SameEntries(flows0, flows') && flows'[b].id == flows[b].id && flows'[b].stop == flows[b].stop
    ensures flows'[b].seqno == flows[b].seqno + 1
  {
  }

  /** One of the first n clock readings is past the end of every block. */
  ghost predicate SomePast(flows: seq<Flow>, nows: seq<Time>, n: nat) { exists k :: 0 <= k < n && k < |nows| && PastAll(flows, nows[k]) }

  lemma NoneYet(flows: seq<Flow>, nows: seq<Time>)
    ensures !SomePast(flows, nows, 0)
  {
  }

  lemma StillNone(flows: seq<Flow>, nows: seq<Time>, n: nat)
    requires n < |nows| && !SomePast(flows, nows, n) && !PastAll(flows, nows[n])
    ensures !SomePast(flows, nows, n + 1)
  {
  }

  /** As long as one flow has a block that is not over, the clock is not past them all. */
  lemma NotPast(flows0: seq<Flow>, flows: seq<Flow>, g: Chart, t: nat, now: Time)
    requires SameEntries(flows0, flows) && InBounds(g.chains, |flows|) && Running(g, t) && !Before(flows[Current(g, t)].stop, now)
    ensures !PastAll(flows0, now)
  {
  }

  lemma SameEntriesRefl(a: seq<Flow>)
    ensures SameEntries(a, a)
  {
  }

  lemma SameEntriesTransitive(a: seq<Flow>, b: seq<Flow>, c: seq<Flow>)
    requires SameEntries(a, b) && SameEntries(b, c)
    ensures SameEntries(a, c) && |a| == |b| == |c|
  {
  }

  /** What send_trace makes of a block. */
  lemma TraceSends(f: Flow, delivered: bool)
    requires ContentOk(f) && f.kind.Trace?
    ensures f.kind.index < |f.kind.list|
    ensures var k := f.kind;
            var f' := f.(success := if delivered then f.success + 1 else f.success, errors := if delivered then f.errors else f.errors + 1,
                         seqno := f.seqno + 1, nextTx := Plus(f.nextTx, k.list[k.index].1), kind := Trace(k.list, (k.index + 1) % |k.list|));
            && Sends(f, f') && Counts(f, f', delivered)
            && f'.kind == k.(index := if k.index + 1 == |k.list| then 0 else k.index + 1)
            && Micros(f'.nextTx) == Micros(f.nextTx) + Micros(k.list[k.index].1)
  {
  }

  class Scheduler {
    var flows: seq<Flow>
    var head: Ptr
    var done: Ptr

    // the outside world: packets handed to sendto, what socket() returned, sockets closed
    var sent: seq<Packet>
    var created: seq<int>
    var closed: seq<int>

    ghost var g: Chart

    ghost predicate Valid() reads this {
      Shape(flows, head, done, g) && Books(flows, g, sent, closed)
    }

    constructor ()
      ensures Valid() && flows == [] && head == done == Null && sent == [] && created == [] && closed == []
      ensures g == Chart([], [], [], [], [], multiset{})
    {
      hide Shape, Books;
      flows, head, done, sent, created, closed := [], Null, Null, [], [], [];
      g := Chart([], [], [], [], [], multiset{});
      new;
      NothingIsFine(flows, g, sent, closed);
    }

    /** Walks the active list to the block and the one before it. */
    method Find(b: nat) returns (flow: Ptr, prev: Ptr, ghost j: nat)
      requires Valid() && b < |flows|
      ensures j <= |g.chains| && prev == Prev(g, j)
      ensures if j < |g.chains| then Running(g, j) && Current(g, j) == b && flow == To(b) else flow.Null?
      ensures forall m: nat :: Running(g, m) && Current(g, m) == b ==> m == j
    {
      hide Books, ModsOk, DoneOk, Partition, ListOk, Seek, Prior, Prev, Entry, Running, Current;
      WalkStarts(flows, head, g);
      flow, prev := head, Null;
      j := Seek(g, 0);
      while flow != To(b) && flow != Null
        invariant j <= |g.chains| && (j < |g.chains| ==> Running(g, j))
        invariant flow == Stand(g, j) && prev == Prev(g, j)
        invariant forall m: nat :: m < j && Running(g, m) ==> Current(g, m) != b
        decreases |g.chains| - j
      {
        WalkStep(flows, head, g, j);
        prev, flow := flow, flows[flow.b].next;
        j := Seek(g, j + 1);
      }
      NoneBeyond(g, |flows|, b, j);
    }

    /** remove_flow */
    method RemoveFlow(b: nat) returns (ok: bool)
      requires Valid() && b < |flows|
      modifies this`flows, this`head, this`done, this`closed, this`g
      ensures Valid() && |flows| == old(|flows|) && forall c :: 0 <= c < |flows| ==> SameCore(old(flows)[c], flows[c])
      ensures if InFront(old(g), b)
              then ok && g == Advance(old(g), FlowOf(old(g), b))
              else !ok && g == old(g) && flows == old(flows) && head == old(head) && done == old(done) && closed == old(closed)
    {
      hide Shape, Books, Entry, Partition, SameCore, Unlinked, Replacement, ClosedAfter, After, Seek, Prior, Prev, Running, Current, Advance;
      var flow, prev;
      ghost var i;
      flow, prev, i := Find(b);
      RemovalFacts(flows, head, done, g, sent, closed, b, i);
      if flow == Null {
        SameCoreReflexive(flows);
        return false;
      }
      Unlink(b, prev, i);
      g := Advance(g, i);
      ok := true;
    }

    /** The relinking part of remove_flow: hand the place in the list, the socket and
        the sequence number to the next block of the flow, or close the socket. */
    method Unlink(b: nat, prev: Ptr, ghost i: nat)
      requires Partition(g, |flows|) && Running(g, i) && Current(g, i) == b && prev == Prev(g, i)
      requires b < |flows| && flows[b].mod == After(g.chains[i], g.pos[i]) && flows[b].next == Entry(g, i + 1)
      requires flows[b].sock == g.socks[i]
      modifies this`flows, this`head, this`done, this`closed
      ensures flows == Unlinked(old(flows), old(done), g, i) && closed == ClosedAfter(g, i, old(closed))
      ensures head == (if Prior(g, i) < 0 then Replacement(g, i) else old(head)) && done == To(b)
    {
      hide Entry;
      var mem, out := flows, flows[b];
      var repl;
      if out.mod != Null {
        var n := out.mod.b;
        mem := mem[n := mem[n].(next := out.next, sock := out.sock, seqno := out.seqno)];
        repl := out.mod;
      } else {
        if out.sock > 0 { closed := closed + [out.sock]; }
        mem := mem[b := out.(sock := 0)];
        repl := out.next;
      }
      if prev == Null { head := repl; } else { mem := mem[prev.b := mem[prev.b].(next := repl)]; }
      flows := mem[b := mem[b].(next := done)];
      done := To(b);
    }

    /** find_next's removal of the block it stands on, and its next stand. */
    method Drop(b: nat, prev: Ptr, ghost j: nat) returns (flow: Ptr)
      requires Valid() && Running(g, j) && b == Current(g, j) && prev == Prev(g, j)
      modifies this`flows, this`head, this`done, this`closed, this`g
      ensures Valid() && |flows| == old(|flows|) && (forall c :: 0 <= c < |flows| ==> SameCore(old(flows)[c], flows[c]))
      ensures g == Advance(old(g), j) && Seek(g, j) <= |g.chains|
      ensures |g.chains| == |g.pos| && flow == Stand(g, Seek(g, j)) && prev == Prev(g, Seek(g, j))
      ensures Remaining(g, |g.chains|) < old(Remaining(g, |g.chains|))
    {
      hide Shape, Books, Partition, SameCore;
      ShapeFacts(flows, head, done, g);
      HomeOfCurrent(g, |flows|, j);
      RemainingAdvance(g, j, |g.chains|);
      ghost var g0 := g;
      var ok := RemoveFlow(b);
      Reenter(flows, head, done, g0, j);
      hide Advance, Entry;
      if prev != Null { flow := flows[prev.b].next; } else { flow := head; }
    }

    /** find_next: drops the blocks that are over and returns the first block with the
        least transmission time among those that remain. */
    method FindNext(now: Time) returns (target: Ptr, ghost t: nat)
      requires Valid()
      modifies this`flows, this`head, this`done, this`closed, this`g
      ensures Valid() && |flows| == old(|flows|) && forall b :: 0 <= b < |flows| ==> SameCore(old(flows)[b], flows[b])
      ensures g == old(g).(pos := g.pos, finished := g.finished) && InBounds(g.chains, |flows|)
      ensures Settling(old(flows), g.chains, old(g.pos), g.pos, now, |g.chains|)
      ensures Best(flows, g, |g.chains|, target, t)
    {
      hide Shape, Books, Partition, InBounds, SameCore, Settling, Best, Seek, Prior, Prev, Entry, Running, Current;
      ShapeFacts(flows, head, done, g);
      WalkFrom(flows, head, done, g);
      ghost var flows0, g0 := flows, g;
      var flow, prev := head, Null;
      target, t := Null, 0;
      ghost var j: nat := Seek(g, 0);
      StartFacts(flows, g, now);
      while flow != Null
        invariant Valid() && |flows| == |flows0| && forall b :: 0 <= b < |flows| ==> SameCore(flows0[b], flows[b])
        invariant g == g0.(pos := g.pos, finished := g.finished) && |g.pos| == |g.chains| && j <= |g.chains|
        invariant j < |g.chains| ==> Running(g, j)
        invariant flow == Stand(g, j) && prev == Prev(g, j)
        invariant InBounds(g.chains, |flows|) && Settling(flows0, g.chains, g0.pos, g.pos, now, j) && Best(flows, g, j, target, t)
        decreases Remaining(g, |g.chains|), |g.chains| - j
      {
        ShapeFacts(flows, head, done, g);
        HomeOfCurrent(g, |flows|, j);
        var f := flows[flow.b];
        if Expired(f, now) {
          DropFacts(flows0, flows, g, g0.pos, now, j);
          ghost var flows1, g1 := flows, g;
          flow := Drop(flow.b, prev, j);
          DropBest(flows1, flows, g1, j, target, t);
          SameCoreTransitive(flows0, flows1, flows);
          SkipFacts(flows0, flows, g, g0.pos, now, j, target, t);
          j := Seek(g, j);
        } else {
          PassFacts(flows0, flows, g, g0.pos, now, j);
          PassBest(flows, g, j, target, t);
          WalkOn(flows, head, done, g, j);
          if target == Null || Before(f.nextTx, flows[target.b].nextTx) { target, t := flow, j; }
          prev, flow := flow, f.next;
          j := Seek(g, j + 1);
        }
      }
    }

    /** send_cbr: one packet with the flow's next sequence number; the next one is due
        1000000.0 / rate microseconds later, truncated.  A negative rate goes back in time. */
    method SendCbr(b: nat, delivered: bool, ghost i: nat)
      requires Valid() && Running(g, i) && Current(g, i) == b < |flows|
      requires flows[b].kind.Cbr? && flows[b].kind.rate != 0
      modifies this`flows, this`sent
      ensures Valid() && sent == old(sent) + [Packet(old(flows)[b].id, old(flows)[b].seqno)]
      ensures |flows| == old(|flows|) && Sends(old(flows)[b], flows[b]) && flows == old(flows)[b := flows[b]]
      ensures Counts(old(flows)[b], flows[b], delivered) && flows[b].kind == old(flows)[b].kind
      ensures flows[b].nextTx == NextTime(old(flows)[b].nextTx, flows[b].kind.rate)
      ensures flows[b].kind.rate > 0 ==> Micros(flows[b].nextTx) == Micros(old(flows)[b].nextTx) + 1000000 / flows[b].kind.rate
    {
      hide Shape, Books;
      ContentFacts(flows, head, done, g, sent, closed, b);
      var f := flows[b];
      var packet := Packet(f.id, f.seqno);
      if delivered { f := f.(success := f.success + 1); } else { f := f.(errors := f.errors + 1); }
      f := f.(seqno := f.seqno + 1);
      var usec := NextUsec(f.nextTx.usec, f.kind.rate);
      if usec >= 1000000 { f := f.(nextTx := Time(f.nextTx.sec + 1, usec - 1000000)); }
      else { f := f.(nextTx := Time(f.nextTx.sec, usec)); }
      SendKeeps(flows, head, done, g, sent, closed, i, f);
      flows := flows[b := f];
      sent := sent + [packet];
    }

    /** send_trace: one packet of the size and with the pause the trace gives. */
    method SendTrace(b: nat, delivered: bool, ghost i: nat)
      requires Valid() && Running(g, i) && Current(g, i) == b < |flows|
      requires flows[b].kind.Trace?
      modifies this`flows, this`sent
      ensures Valid() && sent == old(sent) + [Packet(old(flows)[b].id, old(flows)[b].seqno)]
      ensures |flows| == old(|flows|) && Sends(old(flows)[b], flows[b]) && flows == old(flows)[b := flows[b]]
      ensures Counts(old(flows)[b], flows[b], delivered)
      ensures var k := old(flows)[b].kind;
              && k.index < |k.list| && flows[b].kind == k.(index := if k.index + 1 == |k.list| then 0 else k.index + 1)
              && Micros(flows[b].nextTx) == Micros(old(flows)[b].nextTx) + Micros(k.list[k.index].1)
    {
      hide Shape, Books, ContentOk, Sends, Counts, Micros, Plus;
      ContentFacts(flows, head, done, g, sent, closed, b);
      var f := flows[b];
      var packet := Packet(f.id, f.seqno);
      if delivered { f := f.(success := f.success + 1); } else { f := f.(errors := f.errors + 1); }
      f := f.(seqno := f.seqno + 1);
      var k := f.kind;
      TraceSends(flows[b], delivered);
      f := f.(nextTx := Plus(f.nextTx, k.list[k.index].1), kind := Trace(k.list, (k.index + 1) % |k.list|));
      SendKeeps(flows, head, done, g, sent, closed, i, f);
      flows := flows[b := f];
      sent := sent + [packet];
    }

    /** The send function of a block. */
    method Send(b: nat, delivered: bool, ghost i: nat)
      requires Valid() && Running(g, i) && Current(g, i) == b < |flows|
      requires flows[b].kind.Cbr? ==> flows[b].kind.rate != 0
      modifies this`flows, this`sent
      ensures Valid() && sent == old(sent) + [Packet(old(flows)[b].id, old(flows)[b].seqno)]
      ensures |flows| == old(|flows|) && Sends(old(flows)[b], flows[b]) && flows == old(flows)[b := flows[b]]
    {
      hide Shape, Books, Sends, NextTime, Micros, Counts;
      if flows[b].kind.Cbr? { SendCbr(b, delivered, i); } else { SendTrace(b, delivered, i); }
    }

    /** One turn of the main loop: find_next, then the send function of what it found,
        flow t, whose packet is due at `due`, no later than that of any other flow. */
    method Turn(now: Time, delivered: bool) returns (over: bool, ghost t: nat, ghost due: Time)
      requires Valid()
      modifies this`flows, this`head, this`done, this`sent, this`closed, this`g
      ensures Valid() && SameEntries(old(flows), flows) && g == old(g).(pos := g.pos, finished := g.finished)
      ensures |g.pos| == |g.chains| && InBounds(g.chains, |flows|)
      ensures over ==> sent == old(sent) && forall i: nat :: i < |g.chains| ==> !Running(g, i)
      ensures !over ==>
        && Running(g, t) && flows[Current(g, t)].seqno > 0
        && sent == old(sent) + [Packet(flows[Current(g, t)].id, flows[Current(g, t)].seqno - 1)]
        && !Before(flows[Current(g, t)].stop, due) && !Before(flows[Current(g, t)].stop, now)
        && NoneEarlier(flows, g, t, due)
    {
      hide Shape, Books, Settling, InBounds, ContentOk, SameEntries, SameCore, Sends, Partition, TxOf, Before, NoneEarlier;
      ghost var flows0, pos0 := flows, g.pos;
      var target;
      target, t := FindNext(now);
      CoreEntries(flows0, flows);
      ShapeFacts(flows, head, done, g);
      if target == Null { return true, 0, now; }
      Chosen(flows0, flows, head, done, g, sent, closed, pos0, now, target, t);
      due := flows[target.b].nextTx;
      ghost var flows1 := flows;
      hide Best, Running, Current;
      Send(target.b, delivered, t);
      SendFacts(flows0, flows1, flows, target.b);
      OthersDue(flows1, flows[target.b], g, t, due);
      over := false;
    }

    /** The main loop, for as many turns as clock readings are given: `over` when
        find_next has nothing left to send. */
    method Run(nows: seq<Time>, delivered: seq<bool>) returns (over: bool)
      requires Valid() && |delivered| == |nows|
      modifies this`flows, this`head, this`done, this`sent, this`closed, this`g
      ensures Valid() && SameEntries(old(flows), flows) && g == old(g).(pos := g.pos, finished := g.finished)
      ensures |g.pos| == |g.chains| && old(sent) <= sent
      ensures over ==> forall i: nat :: i < |g.chains| ==> !Running(g, i)
      ensures SomePast(old(flows), nows, |nows|) ==> over
    {
      hide Shape, Books, SameEntries, PastAll, SomePast, InBounds, Before, NoneEarlier, Running, Current;
      SameEntriesRefl(flows);
      NoneYet(flows, nows);
      ShapeFacts(flows, head, done, g);
      over := false;
      var k := 0;
      while k < |nows| && !over
        invariant 0 <= k <= |nows| && Valid() && SameEntries(old(flows), flows)
        invariant g == old(g).(pos := g.pos, finished := g.finished) && |g.pos| == |g.chains| && old(sent) <= sent
        invariant over ==> forall i: nat :: i < |g.chains| ==> !Running(g, i)
        invariant !over ==> !SomePast(old(flows), nows, k)
        decreases |nows| - k, !over
      {
        ghost var t, due, before, sent0 := 0, nows[k], flows, sent;
        over, t, due := Turn(nows[k], delivered[k]);
        SameEntriesTransitive(old(flows), before, flows);
        assert sent0 <= sent;
        if !over {
          NotPast(old(flows), flows, g, t, nows[k]);
          StillNone(old(flows), nows, k);
        }
        k := k + 1;
      }
    }
  }
}
