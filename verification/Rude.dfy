/** The flow scheduler of RUDE (rude/flow_cntl.c, rude/flow_txmit.c).

    Memory is a sequence of flow blocks and a pointer is an index into it.  The
    active list runs through `next`, the later time slots of a flow through
    `mod`, and the blocks that are over through `next` again from `done`. */
module Rude {
  import opened Common

  datatype Ptr = Null | To(b: nat)

  /** struct timeval */
  datatype Time = Time(sec: int, usec: int)

  /** timercmp(a, b, <) */
  predicate Before(a: Time, b: Time) { if a.sec == b.sec then a.usec < b.usec else a.sec < b.sec }

  /** timeradd(a, b) */
  function Plus(a: Time, b: Time): Time {
    var usec := a.usec + b.usec;
    if usec >= 1000000 then Time(a.sec + b.sec + 1, usec - 1000000) else Time(a.sec + b.sec, usec)
  }

  /** The rate is an int; it may be negative. */
  datatype Kind = Cbr(rate: int, psize: nat) | Trace(list: seq<(nat, Time)>, index: nat)

  /** struct flow_cfg */
  datatype Flow = Flow(
    next: Ptr, mod: Ptr, sock: int, id: int,
    start: Time, stop: Time, nextTx: Time,
    errors: nat, success: nat, seqno: nat,
    kind: Kind)

  datatype Packet = Packet(id: int, seqno: nat)

  /** What a reader of the lists would draw: the blocks of every flow in order, how
      many of them are over, and the blocks that are over, latest first.  `home`
      finds a block again, `socks` is what open_sockets left in send_sock for each flow,
      `refused` holds the sockets it closed itself. */
  datatype Chart = Chart(
    chains: seq<seq<nat>>, pos: seq<nat>, finished: seq<nat>, home: seq<(nat, nat)>, socks: seq<int>, refused: multiset<int>)

  // ----------------------------------------------------------------- the shape

  /** Every block belongs to exactly one place of one chain. */
  ghost predicate Partition(g: Chart, blocks: nat) {
    && |g.home| == blocks && |g.pos| == |g.chains| == |g.socks|
    && (forall b :: 0 <= b < blocks ==>
          g.home[b].0 < |g.chains| && g.home[b].1 < |g.chains[g.home[b].0]| && g.chains[g.home[b].0][g.home[b].1] == b)
    && (forall i, k :: 0 <= i < |g.chains| && 0 <= k < |g.chains[i]| ==>
          g.chains[i][k] < blocks && g.home[g.chains[i][k]] == (i, k))
    && (forall i :: 0 <= i < |g.chains| ==> g.pos[i] <= |g.chains[i]|)
  }

  ghost predicate Running(g: Chart, i: nat) { i < |g.chains| == |g.pos| && g.pos[i] < |g.chains[i]| }

  /** The block of flow i that is in the active list. */
  ghost function Current(g: Chart, i: nat): nat requires Running(g, i) { g.chains[i][g.pos[i]] }

  /** The first running flow from i on. */
  ghost function Seek(g: Chart, i: nat): (j: nat)
    requires |g.chains| == |g.pos|
    ensures i <= j && (i <= |g.chains| ==> j <= |g.chains|) && (j < |g.chains| ==> Running(g, j))
    ensures forall m :: i <= m < j ==> !Running(g, m)
    decreases |g.chains| - i
  {
    if i >= |g.chains| || Running(g, i) then i else Seek(g, i + 1)
  }

  /** Its block, as a pointer. */
  ghost function Entry(g: Chart, i: nat): Ptr requires |g.chains| == |g.pos| {
    var j := Seek(g, i);
    if j < |g.chains| then To(Current(g, j)) else Null
  }

  /** The running flow before i, or -1. */
  ghost function Prior(g: Chart, i: nat): (m: int)
    requires |g.chains| == |g.pos|
    ensures -1 <= m < i && (m >= 0 ==> Running(g, m))
    ensures forall l :: m < l < i ==> !Running(g, l)
  {
    if i == 0 then -1 else if Running(g, i - 1) then i - 1 else Prior(g, i - 1)
  }

  /** Its block, as a pointer. */
  ghost function Prev(g: Chart, i: nat): Ptr requires |g.chains| == |g.pos| {
    var m := Prior(g, i);
    if m >= 0 then To(Current(g, m)) else Null
  }

  ghost function First(l: seq<nat>): Ptr { if l == [] then Null else To(l[0]) }

  ghost function After(c: seq<nat>, k: nat): Ptr { if k + 1 < |c| then To(c[k + 1]) else Null }

  ghost predicate ModsOk(flows: seq<Flow>, g: Chart) requires Partition(g, |flows|) {
    forall i, k :: 0 <= i < |g.chains| && 0 <= k < |g.chains[i]| ==> flows[g.chains[i][k]].mod == After(g.chains[i], k)
  }

  ghost predicate ListOk(flows: seq<Flow>, head: Ptr, g: Chart) requires Partition(g, |flows|) {
    && head == Entry(g, 0)
    && (forall i: nat :: Running(g, i) ==> flows[Current(g, i)].next == Entry(g, i + 1))
  }

  ghost predicate DoneOk(flows: seq<Flow>, done: Ptr, g: Chart) requires Partition(g, |flows|) {
    && done == First(g.finished)
    && Distinct(g.finished)
    && (forall m :: 0 <= m < |g.finished| ==> g.finished[m] < |flows| && flows[g.finished[m]].next == First(g.finished[m + 1..]))
    && (forall b :: 0 <= b < |flows| ==> (b in g.finished <==> g.home[b].1 < g.pos[g.home[b].0]))
  }

  ghost predicate Shape(flows: seq<Flow>, head: Ptr, done: Ptr, g: Chart) {
    Partition(g, |flows|) && ModsOk(flows, g) && ListOk(flows, head, g) && DoneOk(flows, done, g)
  }

  // --------------------------------------------------------------- the bookkeeping

  /** Packets accounted for in the first k blocks of a chain. */
  ghost function Tally(flows: seq<Flow>, chain: seq<nat>, k: nat): nat
    requires k <= |chain| && forall m :: 0 <= m < |chain| ==> chain[m] < |flows|
  {
    if k == 0 then 0 else Tally(flows, chain, k - 1) + flows[chain[k - 1]].errors + flows[chain[k - 1]].success
  }

  /** The sequence numbers of the packets sent under an id, in order. */
  ghost function SeqNos(sent: seq<Packet>, id: int): seq<nat> {
    if sent == [] then []
    else SeqNos(sent[..|sent| - 1], id) + if sent[|sent| - 1].id == id then [sent[|sent| - 1].seqno] else []
  }

  ghost function UpTo(n: nat): seq<nat> { seq(n, i => i) }

  /** A block that has not begun. */
  predicate Fresh(f: Flow) { f.sock == 0 && f.errors == f.success == f.seqno == 0 }

  predicate TimeOk(t: Time) { 0 <= t.usec < 1000000 }

  /** tv_usec += 1000000.0 / rate: the sum is truncated towards zero. */
  function NextUsec(usec: int, rate: int): int requires rate != 0 {
    if rate > 0 then usec + 1000000 / rate
    else
      var q := 1000000 / -rate;
      if 1000000 % -rate == 0 || usec <= q then usec - q else usec - q - 1
  }

  /** With the carry of send_cbr. */
  function NextTime(t: Time, rate: int): Time requires rate != 0 {
    var usec := NextUsec(t.usec, rate);
    if usec >= 1000000 then Time(t.sec + 1, usec - 1000000) else Time(t.sec, usec)
  }

  /** Rates that keep tv_usec a fraction of a second. */
  predicate Steady(kind: Kind) { kind.Cbr? ==> kind.rate >= 0 || kind.rate < -1000000 }

  /** A zero-rate block is scheduled past its end, so that it is never sent. */
  predicate ContentOk(f: Flow) {
    && (Steady(f.kind) ==> TimeOk(f.nextTx))
    && match f.kind
       case Cbr(rate, _) => rate == 0 ==> Before(f.stop, f.nextTx)
       case Trace(list, index) => index < |list| && forall m :: 0 <= m < |list| ==> TimeOk(list[m].1)
  }

  /** Packets accounted for up to and including block k. */
  ghost function Through(flows: seq<Flow>, chain: seq<nat>, k: nat): nat
    requires k < |chain| && forall m :: 0 <= m < |chain| ==> chain[m] < |flows|
  {
    Tally(flows, chain, k + 1)
  }

  /** A block that is over carries the number of packets of its flow so far. */
  ghost predicate Stamped(flows: seq<Flow>, g: Chart, i: nat) requires Partition(g, |flows|) && i < |g.chains| {
    forall k :: 0 <= k < g.pos[i] ==> flows[g.chains[i][k]].seqno == Through(flows, g.chains[i], k)
  }

  ghost predicate FlowOk(flows: seq<Flow>, g: Chart, sent: seq<Packet>, i: nat)
    requires Partition(g, |flows|) && i < |g.chains| && |g.chains[i]| > 0
  {
    var c := g.chains[i];
    && (forall k :: 0 <= k < |c| ==> flows[c[k]].id == flows[c[0]].id)
    && (forall k :: g.pos[i] < k < |c| ==> Fresh(flows[c[k]]))
    && (Running(g, i) ==> flows[Current(g, i)].sock == g.socks[i] && flows[Current(g, i)].seqno == Tally(flows, c, |c|))
    && SeqNos(sent, flows[c[0]].id) == UpTo(Tally(flows, c, |c|))
  }

  /** Sockets of the flows that are over, among the first n. */
  ghost function Ended(g: Chart, n: nat): multiset<int> requires n <= |g.chains| == |g.pos| == |g.socks| {
    if n == 0 then multiset{} else Ended(g, n - 1) + EndedAt(g, n - 1)
  }

  ghost function EndedAt(g: Chart, i: nat): multiset<int> requires i < |g.chains| == |g.pos| == |g.socks| {
    if !Running(g, i) && g.socks[i] > 0 then multiset{g.socks[i]} else multiset{}
  }

  ghost predicate Books(flows: seq<Flow>, g: Chart, sent: seq<Packet>, closed: seq<int>) requires Partition(g, |flows|) {
    && (forall i :: 0 <= i < |g.chains| ==> |g.chains[i]| > 0)
    && (forall i, j :: 0 <= i < j < |g.chains| ==> flows[g.chains[i][0]].id != flows[g.chains[j][0]].id)
    && (forall i :: 0 <= i < |g.chains| ==> FlowOk(flows, g, sent, i) && Stamped(flows, g, i))
    && (forall b :: 0 <= b < |flows| ==> ContentOk(flows[b]))
    && multiset(closed) == g.refused + Ended(g, |g.chains|)
  }

  // ------------------------------------------------------------- removing a block

  /** Flow i goes on to its next block, or is over. */
  ghost function Advance(g: Chart, i: nat): Chart requires Running(g, i) {
    g.(pos := g.pos[i := g.pos[i] + 1], finished := [Current(g, i)] + g.finished)
  }

  lemma {:induction false} SeekUnchanged(g: Chart, g': Chart, i: nat, n: nat)
    requires |g.chains| == |g.pos| == |g'.pos| && g'.chains == g.chains
    requires forall m :: n <= m < |g.chains| ==> Running(g', m) == Running(g, m)
    requires n <= i
    ensures Seek(g', i) == Seek(g, i)
    decreases |g.chains| - i
  {
  }

  /** What stands in the list in place of flow i's block once it is removed. */
  ghost function Replacement(g: Chart, i: nat): Ptr requires Running(g, i) {
    if g.pos[i] + 1 < |g.chains[i]| then To(g.chains[i][g.pos[i] + 1]) else Entry(g, i + 1)
  }

  /** Seen from anywhere, the list changes only in flow i's place. */
  lemma {:induction false} EntryAdvanced(g: Chart, i: nat, m: nat)
    requires Running(g, i) && m <= i
    ensures Entry(Advance(g, i), m) == if Seek(g, m) == i then Replacement(g, i) else Entry(g, m)
    ensures Seek(g, m) <= i
    decreases i - m
  {
    var g' := Advance(g, i);
    if m == i {
      if !Running(g', i) { SeekUnchanged(g, g', i + 1, i + 1); }
    } else {
      assert Running(g', m) == Running(g, m);
      if !Running(g, m) { EntryAdvanced(g, i, m + 1); }
    }
  }

  lemma EntryBeyond(g: Chart, i: nat, m: nat)
    requires Running(g, i) && m > i
    ensures Entry(Advance(g, i), m) == Entry(g, m)
  {
    SeekUnchanged(g, Advance(g, i), m, i + 1);
  }

  /** The links after removing flow i's block. */
  ghost function Unlinked(flows: seq<Flow>, done: Ptr, g: Chart, i: nat): seq<Flow>
    requires Partition(g, |flows|) && Running(g, i)
  {
    var b, p := Current(g, i), Prior(g, i);
    var f := if g.pos[i] + 1 < |g.chains[i]|
             then var n := g.chains[i][g.pos[i] + 1];
                  flows[n := flows[n].(next := flows[b].next, sock := flows[b].sock, seqno := flows[b].seqno)]
             else flows[b := flows[b].(sock := 0)];
    var f' := if p >= 0 then f[Current(g, p) := f[Current(g, p)].(next := Replacement(g, i))] else f;
    f'[b := f'[b].(next := done)]
  }

  /** Only links, sockets and sequence numbers change. */
  ghost predicate SameCore(f: Flow, f': Flow) { f' == f.(next := f'.next, sock := f'.sock, seqno := f'.seqno) }

  /** A block that is not the removed one, the next of its flow or the one before it in the list is left alone. */
  lemma UnlinkedAt(flows: seq<Flow>, done: Ptr, g: Chart, i: nat, c: nat)
    requires Partition(g, |flows|) && Running(g, i) && c < |flows|
    ensures var f' := Unlinked(flows, done, g, i);
            && |f'| == |flows| && SameCore(flows[c], f'[c])
            && (c == Current(g, i) ==> f'[c].next == done)
            && (g.home[c] == (i, g.pos[i] + 1) ==>
                  f'[c].next == flows[Current(g, i)].next && f'[c].sock == flows[Current(g, i)].sock && f'[c].seqno == flows[Current(g, i)].seqno)
            && (c != Current(g, i) && g.home[c] != (i, g.pos[i] + 1) ==>
                  f'[c] == flows[c].(next := if Prior(g, i) >= 0 && c == Current(g, Prior(g, i)) then Replacement(g, i) else flows[c].next))
  {
  }

  lemma RemovePartition(flows: seq<Flow>, g: Chart, i: nat)
    requires Partition(g, |flows|) && Running(g, i)
    ensures Partition(Advance(g, i), |flows|)
  {
  }

  lemma RemoveMods(flows: seq<Flow>, done: Ptr, g: Chart, i: nat)
    requires Partition(g, |flows|) && Running(g, i) && ModsOk(flows, g)
    ensures Partition(Advance(g, i), |Unlinked(flows, done, g, i)|) && ModsOk(Unlinked(flows, done, g, i), Advance(g, i))
  {
    var f' := Unlinked(flows, done, g, i);
    RemovePartition(flows, g, i);
    forall j, k | 0 <= j < |g.chains| && 0 <= k < |g.chains[j]| ensures f'[g.chains[j][k]].mod == After(g.chains[j], k) {
      UnlinkedAt(flows, done, g, i, g.chains[j][k]);
    }
    hide Unlinked;
  }

  lemma HomeIs(g: Chart, blocks: nat, i: nat, k: nat)
    requires Partition(g, blocks) && i < |g.chains| && k < |g.chains[i]|
    ensures g.chains[i][k] < |g.home| == blocks && g.home[g.chains[i][k]] == (i, k) && |g.pos| == |g.chains|
  {
  }

  /** Going forward and going back agree. */
  lemma SeekPrior(g: Chart, m: nat, i: nat)
    requires Running(g, m) && Running(g, i) && m < i
    ensures Seek(g, m + 1) == i <==> Prior(g, i) == m
    ensures Seek(g, m + 1) <= i
  {
  }

  /** One link after the removal: before flow i, */
  lemma LinkBefore(flows: seq<Flow>, head: Ptr, done: Ptr, g: Chart, i: nat, m: nat)
    requires Partition(g, |flows|) && Running(g, i) && ListOk(flows, head, g) && Running(g, m) && m < i
    ensures Current(g, m) < |flows| == |Unlinked(flows, done, g, i)|
    ensures Unlinked(flows, done, g, i)[Current(g, m)].next == Entry(Advance(g, i), m + 1)
  {
    hide Unlinked, Partition, Replacement, Entry, Advance;
    HomeIs(g, |flows|, m, g.pos[m]);
    HomeIs(g, |flows|, i, g.pos[i]);
    UnlinkedAt(flows, done, g, i, Current(g, m));
    if Prior(g, i) >= 0 { HomeIs(g, |flows|, Prior(g, i), g.pos[Prior(g, i)]); }
    SeekPrior(g, m, i);
    EntryAdvanced(g, i, m + 1);
  }

  /** and at flow i or beyond. */
  lemma LinkBeyond(flows: seq<Flow>, head: Ptr, done: Ptr, g: Chart, i: nat, m: nat)
    requires Partition(g, |flows|) && Running(g, i) && ListOk(flows, head, g) && Running(Advance(g, i), m) && m >= i
    ensures Current(Advance(g, i), m) < |flows| == |Unlinked(flows, done, g, i)|
    ensures Unlinked(flows, done, g, i)[Current(Advance(g, i), m)].next == Entry(Advance(g, i), m + 1)
  {
    hide Unlinked, Partition, Replacement, Entry;
    var g' := Advance(g, i);
    HomeIs(g, |flows|, m, g'.pos[m]);
    HomeIs(g, |flows|, i, g.pos[i]);
    if Prior(g, i) >= 0 { HomeIs(g, |flows|, Prior(g, i), g.pos[Prior(g, i)]); }
    UnlinkedAt(flows, done, g, i, Current(g', m));
    EntryBeyond(g, i, m + 1);
    assert Running(g, m) && flows[Current(g, m)].next == Entry(g, m + 1);
  }

  /** The list of the advanced chart is the list with one entry replaced. */
  lemma RemoveList(flows: seq<Flow>, head: Ptr, done: Ptr, g: Chart, i: nat)
    requires Partition(g, |flows|) && Running(g, i) && ListOk(flows, head, g)
    ensures Partition(Advance(g, i), |Unlinked(flows, done, g, i)|)
    ensures ListOk(Unlinked(flows, done, g, i), if Prior(g, i) < 0 then Replacement(g, i) else head, Advance(g, i))
  {
    var f', g' := Unlinked(flows, done, g, i), Advance(g, i);
    RemovePartition(flows, g, i);
    UnlinkedAt(flows, done, g, i, Current(g, i));
    hide Unlinked;
    EntryAdvanced(g, i, 0);
    forall m: nat | Running(g', m) ensures f'[Current(g', m)].next == Entry(g', m + 1) {
      if m < i { LinkBefore(flows, head, done, g, i, m); } else { LinkBeyond(flows, head, done, g, i, m); }
    }
  }

  lemma DoneMembers(g: Chart, blocks: nat, i: nat)
    requires Partition(g, blocks) && Running(g, i) && Distinct(g.finished)
    requires forall b :: 0 <= b < blocks ==> (b in g.finished <==> g.home[b].1 < g.pos[g.home[b].0])
    ensures var g' := Advance(g, i);
            Distinct(g'.finished) && forall b :: 0 <= b < blocks ==> (b in g'.finished <==> g'.home[b].1 < g'.pos[g'.home[b].0])
  {
  }

  lemma RemoveDone(flows: seq<Flow>, done: Ptr, g: Chart, i: nat)
    requires Partition(g, |flows|) && Running(g, i) && DoneOk(flows, done, g)
    ensures Partition(Advance(g, i), |Unlinked(flows, done, g, i)|)
    ensures DoneOk(Unlinked(flows, done, g, i), To(Current(g, i)), Advance(g, i))
  {
    var f', g' := Unlinked(flows, done, g, i), Advance(g, i);
    RemovePartition(flows, g, i);
    DoneMembers(g, |flows|, i);
    UnlinkedAt(flows, done, g, i, Current(g, i));
    hide Unlinked, Distinct, First;
    forall m: nat | m < |g'.finished|
      ensures g'.finished[m] < |flows| && f'[g'.finished[m]].next == First(g'.finished[m + 1..])
    {
      RemoveDoneNext(flows, done, g, i, m);
    }
    assert First(g'.finished) == To(Current(g, i)) by { FirstOf(g'.finished); }
  }

  lemma FirstOf(l: seq<nat>)
    requires l != []
    ensures First(l) == To(l[0])
  {
  }

  /** The done list goes on as before behind the block that was put in front of it. */
  lemma RemoveDoneNext(flows: seq<Flow>, done: Ptr, g: Chart, i: nat, m: nat)
    requires Partition(g, |flows|) && Running(g, i) && DoneOk(flows, done, g) && m <= |g.finished|
    ensures |Unlinked(flows, done, g, i)| == |flows|
    ensures var l := Advance(g, i).finished; l[m] < |flows| && Unlinked(flows, done, g, i)[l[m]].next == First(l[m + 1..])
  {
    var l := Advance(g, i).finished;
    if Prior(g, i) >= 0 { HomeIs(g, |flows|, Prior(g, i), g.pos[Prior(g, i)]); }
    HomeIs(g, |flows|, i, g.pos[i]);
    assert l[m + 1..] == g.finished[m..];
    if m > 0 { assert g.finished[m - 1] in g.finished && g.finished[m - 1 + 1..] == g.finished[m..]; }
    UnlinkedAt(flows, done, g, i, l[m]);
    hide Unlinked, Replacement, Distinct;
  }

  lemma {:induction false} TallySame(flows: seq<Flow>, flows': seq<Flow>, chain: seq<nat>, k: nat)
    requires k <= |chain| && |flows| == |flows'| && forall m :: 0 <= m < |chain| ==> chain[m] < |flows|
    requires forall m :: 0 <= m < |chain| ==>
      flows'[chain[m]].errors == flows[chain[m]].errors && flows'[chain[m]].success == flows[chain[m]].success
    ensures Tally(flows', chain, k) == Tally(flows, chain, k)
  {
    if k > 0 { TallySame(flows, flows', chain, k - 1); }
  }

  /** Blocks that have not begun add nothing. */
  lemma {:induction false} TallyFresh(flows: seq<Flow>, chain: seq<nat>, k: nat, n: nat)
    requires k <= n <= |chain| && (forall m :: 0 <= m < |chain| ==> chain[m] < |flows|)
    requires forall m :: k <= m < n ==> Fresh(flows[chain[m]])
    ensures Tally(flows, chain, n) == Tally(flows, chain, k)
  {
    if k < n { TallyFresh(flows, chain, k, n - 1); }
  }

  /** What becomes of block k of flow j when flow i's block is removed. */
  lemma RemovedAt(flows: seq<Flow>, done: Ptr, g: Chart, i: nat, j: nat, k: nat)
    requires Partition(g, |flows|) && Running(g, i) && j < |g.chains| && k < |g.chains[j]|
    ensures var f', b := Unlinked(flows, done, g, i), g.chains[j][k];
            && |f'| == |flows| && b < |flows| && SameCore(flows[b], f'[b])
            && (j == i && k == g.pos[i] + 1 ==> f'[b].sock == flows[Current(g, i)].sock && f'[b].seqno == flows[Current(g, i)].seqno)
            && (!(j == i && (k == g.pos[i] || k == g.pos[i] + 1)) ==> f'[b] == flows[b].(next := f'[b].next))
  {
    HomeIs(g, |flows|, i, g.pos[i]);
    HomeIs(g, |flows|, j, k);
    UnlinkedAt(flows, done, g, i, g.chains[j][k]);
    hide Unlinked, Replacement, Partition;
  }

  lemma RemoveFlowOk(flows: seq<Flow>, done: Ptr, g: Chart, sent: seq<Packet>, i: nat, j: nat)
    requires Partition(g, |flows|) && Running(g, i) && j < |g.chains| && |g.chains[j]| > 0 && FlowOk(flows, g, sent, j)
    ensures Partition(Advance(g, i), |Unlinked(flows, done, g, i)|)
    ensures FlowOk(Unlinked(flows, done, g, i), Advance(g, i), sent, j)
  {
    var f', g' := Unlinked(flows, done, g, i), Advance(g, i);
    var c := g.chains[j];
    RemovePartition(flows, g, i);
    UnlinkedAt(flows, done, g, i, Current(g, i));
    hide Unlinked, Replacement, Partition;
    forall k | 0 <= k < |c|
      ensures c[k] < |flows| && SameCore(flows[c[k]], f'[c[k]])
      ensures j == i && k == g.pos[i] + 1 ==> f'[c[k]].sock == flows[Current(g, i)].sock && f'[c[k]].seqno == flows[Current(g, i)].seqno
      ensures !(j == i && (k == g.pos[i] || k == g.pos[i] + 1)) ==> f'[c[k]] == flows[c[k]].(next := f'[c[k]].next)
    {
      RemovedAt(flows, done, g, i, j, k);
    }
    TallySame(flows, f', c, |c|);
  }

  /** A block takes its sequence number with it when it is removed. */
  lemma RemoveStamped(flows: seq<Flow>, done: Ptr, g: Chart, sent: seq<Packet>, i: nat, j: nat)
    requires Partition(g, |flows|) && Running(g, i) && j < |g.chains| && |g.chains[j]| > 0 && FlowOk(flows, g, sent, j) && Stamped(flows, g, j)
    ensures Partition(Advance(g, i), |Unlinked(flows, done, g, i)|)
    ensures Stamped(Unlinked(flows, done, g, i), Advance(g, i), j)
  {
    var f', g' := Unlinked(flows, done, g, i), Advance(g, i);
    var c := g.chains[j];
    RemovePartition(flows, g, i);
    UnlinkedAt(flows, done, g, i, Current(g, i));
    hide Unlinked, Replacement, Partition;
    HomeIs(g, |flows|, i, g.pos[i]);
    forall k | 0 <= k < |c|
      ensures c[k] < |flows| && SameCore(flows[c[k]], f'[c[k]])
      ensures k < g'.pos[j] ==> f'[c[k]].seqno == flows[c[k]].seqno
    {
      HomeIs(g, |flows|, j, k);
      UnlinkedAt(flows, done, g, i, c[k]);
    }
    assert g'.pos[j] == g.pos[j] || (g'.pos[j] == g.pos[j] + 1 && Running(g, j));
    StampNext(flows, f', g, sent, j, g'.pos[j]);
  }

  /** The counts of a flow's blocks do not change when they keep their counters. */
  lemma StampNext(flows: seq<Flow>, f': seq<Flow>, g: Chart, sent: seq<Packet>, j: nat, p: nat)
    requires Partition(g, |flows|) && j < |g.chains| && |g.chains[j]| > 0 && FlowOk(flows, g, sent, j) && Stamped(flows, g, j)
    requires |f'| == |flows| && (p == g.pos[j] || (p == g.pos[j] + 1 && Running(g, j)))
    requires forall k :: 0 <= k < |g.chains[j]| ==> g.chains[j][k] < |flows| && SameCore(flows[g.chains[j][k]], f'[g.chains[j][k]])
    requires forall k :: 0 <= k < p ==> f'[g.chains[j][k]].seqno == flows[g.chains[j][k]].seqno
    ensures forall k :: 0 <= k < p ==> f'[g.chains[j][k]].seqno == Through(f', g.chains[j], k)
  {
    var c := g.chains[j];
    forall k | 0 <= k < p ensures f'[c[k]].seqno == Through(f', c, k) {
      TallySame(flows, f', c, k + 1);
      if k == g.pos[j] { TallyFresh(flows, c, k + 1, |c|); }
    }
  }

  /** What the removal of flow i's block closes. */
  ghost function Closes(g: Chart, i: nat): multiset<int> requires Running(g, i) && |g.socks| == |g.chains| {
    if g.pos[i] + 1 == |g.chains[i]| && g.socks[i] > 0 then multiset{g.socks[i]} else multiset{}
  }

  lemma EndedAtAdvance(g: Chart, i: nat, j: nat)
    requires Running(g, i) && j < |g.chains| == |g.socks|
    ensures EndedAt(Advance(g, i), j) == if i == j then EndedAt(g, j) + Closes(g, i) else EndedAt(g, j)
  {
  }

  lemma {:induction false} EndedAdvance(g: Chart, i: nat, n: nat)
    requires Running(g, i) && n <= |g.chains| == |g.socks|
    ensures Ended(Advance(g, i), n) == if i < n then Ended(g, n) + Closes(g, i) else Ended(g, n)
  {
    hide EndedAt, Closes;
    if n > 0 {
      EndedAdvance(g, i, n - 1);
      EndedAtAdvance(g, i, n - 1);
      Reorder(Ended(g, n - 1), EndedAt(g, n - 1), Closes(g, i));
    }
  }

  /** Removing flow i's block closes the socket if the flow is over, and only then. */
  ghost function ClosedAfter(g: Chart, i: nat, closed: seq<int>): seq<int> requires Running(g, i) && |g.socks| == |g.chains| {
    if g.pos[i] + 1 == |g.chains[i]| && g.socks[i] > 0 then closed + [g.socks[i]] else closed
  }

  lemma RemoveBooks(flows: seq<Flow>, done: Ptr, g: Chart, sent: seq<Packet>, closed: seq<int>, i: nat)
    requires Partition(g, |flows|) && Running(g, i) && Books(flows, g, sent, closed)
    ensures Partition(Advance(g, i), |Unlinked(flows, done, g, i)|)
    ensures Books(Unlinked(flows, done, g, i), Advance(g, i), sent, ClosedAfter(g, i, closed))
  {
    hide Unlinked, FlowOk, Stamped, Ended, ContentOk;
    var f', g' := Unlinked(flows, done, g, i), Advance(g, i);
    RemovePartition(flows, g, i);
    EndedAdvance(g, i, |g.chains|);
    UnlinkedAt(flows, done, g, i, Current(g, i));
    forall b | 0 <= b < |flows| ensures f'[b].id == flows[b].id && ContentOk(f'[b]) {
      UnlinkedAt(flows, done, g, i, b);
      ContentSame(flows[b], f'[b]);
    }
    forall j | 0 <= j < |g.chains| ensures FlowOk(f', g', sent, j) && Stamped(f', g', j) {
      RemoveFlowOk(flows, done, g, sent, i, j);
      RemoveStamped(flows, done, g, sent, i, j);
    }
    FirstIds(flows, f', g);
  }

  lemma ContentSame(f: Flow, f': Flow)
    requires SameCore(f, f') && ContentOk(f)
    ensures ContentOk(f')
  {
  }

  /** Flows keep different ids. */
  lemma FirstIds(flows: seq<Flow>, flows': seq<Flow>, g: Chart)
    requires Partition(g, |flows|) && |flows'| == |flows| && (forall b :: 0 <= b < |flows| ==> flows'[b].id == flows[b].id)
    requires forall i :: 0 <= i < |g.chains| ==> |g.chains[i]| > 0
    requires forall i, j :: 0 <= i < j < |g.chains| ==> flows[g.chains[i][0]].id != flows[g.chains[j][0]].id
    ensures forall i, j :: 0 <= i < j < |g.chains| ==> flows'[g.chains[i][0]].id != flows'[g.chains[j][0]].id
  {
  }
}
