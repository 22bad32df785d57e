/** clean_up of flow_cntl.c: from any state of the scheduler, every block is freed
    once and every socket still open is closed once. */
module CleanUp {
  import opened Common
  import opened Rude
  import opened FlowControl

  /** Sockets closed so far, among the first n flows: those of flows that were over
      at the start (g) and those of flows whose first remaining block is gone (c). */
  ghost function Shut(g: Chart, c: Chart, n: nat): multiset<int>
    requires n <= |g.chains| == |g.pos| == |g.socks| == |c.pos|
  {
    if n == 0 then multiset{} else Shut(g, c, n - 1) + Socket(g, c, n - 1)
  }

  ghost function Socket(g: Chart, c: Chart, i: nat): multiset<int>
    requires i < |g.chains| == |g.pos| == |g.socks| == |c.pos|
  {
    if (!Running(g, i) || c.pos[i] > g.pos[i]) && g.socks[i] > 0 then multiset{g.socks[i]} else multiset{}
  }

  lemma {:induction false} ShutAtStart(g: Chart, n: nat)
    requires n <= |g.chains| == |g.pos| == |g.socks|
    ensures Shut(g, g, n) == Ended(g, n)
  {
    if n > 0 { ShutAtStart(g, n - 1); }
  }

  /** The sockets that the closing code takes for open: send_sock is positive. */
  ghost function Open(socks: seq<int>, n: nat): multiset<int> requires n <= |socks| {
    if n == 0 then multiset{} else Open(socks, n - 1) + OpenAt(socks[n - 1])
  }

  ghost function OpenAt(sock: int): multiset<int> { if sock > 0 then multiset{sock} else multiset{} }

  lemma {:induction false} ShutAtEnd(g: Chart, c: Chart, n: nat)
    requires n <= |g.chains| == |g.pos| == |g.socks| == |c.pos| && c.chains == g.chains
    requires forall i: nat :: i < |g.chains| ==> !Running(c, i) && c.pos[i] <= |c.chains[i]|
    ensures Shut(g, c, n) == Open(g.socks, n)
  {
    if n > 0 { ShutAtEnd(g, c, n - 1); }
  }

  /** What freeing the first remaining block of flow i closes. */
  ghost function Shuts(g: Chart, c: Chart, i: nat): multiset<int> requires i < |g.pos| == |g.socks| == |c.pos| {
    if c.pos[i] == g.pos[i] && g.socks[i] > 0 then multiset{g.socks[i]} else multiset{}
  }

  lemma SocketAdvance(g: Chart, c: Chart, i: nat, j: nat)
    requires j < |g.chains| == |g.pos| == |g.socks| == |c.pos| && c.chains == g.chains && Running(c, i) && c.pos[i] >= g.pos[i]
    ensures Socket(g, Advance(c, i), j) == if i == j then Socket(g, c, j) + Shuts(g, c, i) else Socket(g, c, j)
  {
  }

  lemma {:induction false} ShutAdvance(g: Chart, c: Chart, i: nat, n: nat)
    requires n <= |g.chains| == |g.pos| == |g.socks| == |c.pos| && c.chains == g.chains && Running(c, i) && c.pos[i] >= g.pos[i]
    ensures Shut(g, Advance(c, i), n) == if i < n then Shut(g, c, n) + Shuts(g, c, i) else Shut(g, c, n)
  {
    hide Socket, Shuts;
    if n > 0 {
      ShutAdvance(g, c, i, n - 1);
      SocketAdvance(g, c, i, n - 1);
      Reorder(Shut(g, c, n - 1), Socket(g, c, n - 1), Shuts(g, c, i));
    }
  }

  /** The sockets that the blocks still linked carry. */
  ghost predicate SocksOk(flows: seq<Flow>, g: Chart, c: Chart) requires Partition(c, |flows|) {
    && |g.pos| == |c.pos| == |c.socks|
    && (forall i: nat :: Running(c, i) ==> c.pos[i] >= g.pos[i] && flows[Current(c, i)].sock == if c.pos[i] == g.pos[i] then c.socks[i] else 0)
    && (forall i, k :: 0 <= i < |c.chains| && c.pos[i] < k < |c.chains[i]| ==> flows[c.chains[i][k]].sock == 0)
  }

  /** The blocks of a list in memory. */
  ghost predicate Chained(flows: seq<Flow>, l: seq<nat>) {
    forall m :: 0 <= m < |l| ==> l[m] < |flows| && flows[l[m]].next == First(l[m + 1..])
  }

  ghost predicate Members(c: Chart, blocks: nat) requires Partition(c, blocks) {
    && Distinct(c.finished) && (forall b :: b in c.finished ==> b < blocks)
    && forall b :: 0 <= b < blocks ==> (b in c.finished <==> c.home[b].1 < c.pos[c.home[b].0])
  }

  /** The blocks freed, and those that were on the done list at the start. */
  ghost predicate Accounted(g: Chart, c: Chart, freed: seq<nat>) {
    multiset(c.finished) == multiset(freed) + multiset(g.finished)
  }

  /** Halfway through the active list. */
  ghost predicate Sweeping(flows: seq<Flow>, head: Ptr, g: Chart, c: Chart, freed: seq<nat>, closed: seq<int>) {
    && c == g.(pos := c.pos, finished := c.finished) && Partition(g, |flows|) && Partition(c, |flows|)
    && ModsOk(flows, c) && ListOk(flows, head, c)
    && Members(c, |flows|) && Accounted(g, c, freed)
    && Chained(flows, g.finished) && (forall b :: b in g.finished ==> b in c.finished)
    && SocksOk(flows, g, c)
    && multiset(closed) == g.refused + Shut(g, c, |g.chains|)
  }

  lemma SocksAtStart(flows: seq<Flow>, g: Chart, sent: seq<Packet>)
    requires Partition(g, |flows|) && forall i :: 0 <= i < |g.chains| ==> |g.chains[i]| > 0 && FlowOk(flows, g, sent, i)
    ensures SocksOk(flows, g, g)
  {
    hide Tally, SeqNos;
    forall i: nat | Running(g, i) ensures flows[Current(g, i)].sock == g.socks[i] { assert FlowOk(flows, g, sent, i); }
    forall i, k | 0 <= i < |g.chains| && g.pos[i] < k < |g.chains[i]| ensures flows[g.chains[i][k]].sock == 0 { assert FlowOk(flows, g, sent, i); }
  }

  /** The done list is a list in memory of the blocks that are over. */
  lemma DoneAtStart(flows: seq<Flow>, done: Ptr, g: Chart)
    requires Partition(g, |flows|) && DoneOk(flows, done, g)
    ensures Members(g, |flows|) && Chained(flows, g.finished) && Accounted(g, g, []) && done == First(g.finished)
  {
  }

  lemma SweepStarts(flows: seq<Flow>, head: Ptr, done: Ptr, g: Chart, sent: seq<Packet>, closed: seq<int>)
    requires Shape(flows, head, done, g) && Books(flows, g, sent, closed)
    ensures Sweeping(flows, head, g, g, [], closed) && done == First(g.finished)
  {
    hide Partition, ModsOk, ListOk, DoneOk, FlowOk, Stamped, ContentOk, Shut, Ended, SocksOk, Members, Chained, Accounted;
    SameLengths(g, |flows|);
    ShutAtStart(g, |g.chains|);
    SocksAtStart(flows, g, sent);
    DoneAtStart(flows, done, g);
  }

  /** The blocks after the first running flow's block is freed. */
  ghost function Swept(flows: seq<Flow>, c: Chart, i: nat): seq<Flow>
    requires Partition(c, |flows|) && Running(c, i)
  {
    var b := Current(c, i);
    var f := if flows[b].sock > 0 then flows[b := flows[b].(sock := 0)] else flows;
    if c.pos[i] + 1 < |c.chains[i]| then var n := c.chains[i][c.pos[i] + 1]; f[n := f[n].(next := flows[b].next)] else f
  }

  lemma SweptAt(flows: seq<Flow>, c: Chart, i: nat, x: nat)
    requires Partition(c, |flows|) && Running(c, i) && x < |flows|
    ensures |Swept(flows, c, i)| == |flows|
    ensures var f := Swept(flows, c, i)[x];
            f == flows[x].(next := if c.home[x] == (i, c.pos[i] + 1) then flows[Current(c, i)].next else flows[x].next,
                           sock := if x == Current(c, i) && flows[x].sock > 0 then 0 else flows[x].sock)
  {
  }

  lemma SweepMods(flows: seq<Flow>, c: Chart, i: nat)
    requires Partition(c, |flows|) && Running(c, i) && ModsOk(flows, c)
    ensures Partition(Advance(c, i), |Swept(flows, c, i)|) && ModsOk(Swept(flows, c, i), Advance(c, i))
  {
    RemovePartition(flows, c, i);
    forall j, k | 0 <= j < |c.chains| && 0 <= k < |c.chains[j]| ensures Swept(flows, c, i)[c.chains[j][k]].mod == After(c.chains[j], k) {
      SweptAt(flows, c, i, c.chains[j][k]);
    }
  }

  /** The block that takes the place of the freed one takes over its link, the others keep theirs. */
  lemma SweepNext(flows: seq<Flow>, c: Chart, i: nat, m: nat)
    requires Partition(c, |flows|) && Running(c, i) && m >= i && Running(Advance(c, i), m)
    ensures |Swept(flows, c, i)| == |flows| && Current(Advance(c, i), m) < |flows| && Running(c, m) && Current(c, m) < |flows|
    ensures Swept(flows, c, i)[Current(Advance(c, i), m)].next == flows[Current(c, m)].next
  {
    HomeIs(c, |flows|, m, Advance(c, i).pos[m]);
    HomeIs(c, |flows|, m, c.pos[m]);
    SweptAt(flows, c, i, Current(Advance(c, i), m));
    hide Partition, Swept;
  }

  lemma SweepList(flows: seq<Flow>, head: Ptr, c: Chart, i: nat)
    requires Partition(c, |flows|) && Running(c, i) && i == Seek(c, 0) && ListOk(flows, head, c)
    ensures Partition(Advance(c, i), |Swept(flows, c, i)|) && ListOk(Swept(flows, c, i), Replacement(c, i), Advance(c, i))
  {
    RemovePartition(flows, c, i);
    SweptLength(flows, c, i);
    EntryAdvanced(c, i, 0);
    hide Swept, Replacement, Partition, Entry, Seek;
    forall m: nat | Running(Advance(c, i), m) ensures Swept(flows, c, i)[Current(Advance(c, i), m)].next == Entry(Advance(c, i), m + 1) {
      NotBefore(c, i, m);
      SweepNext(flows, c, i, m);
      EntryBeyond(c, i, m + 1);
      hide Current, Running, Advance;
    }
  }

  lemma NotBefore(c: Chart, i: nat, m: nat)
    requires Running(c, i) && i == Seek(c, 0) && Running(Advance(c, i), m)
    ensures m >= i && Running(c, m)
  {
    assert Running(c, m);
  }

  lemma SweepSocks(flows: seq<Flow>, g: Chart, c: Chart, i: nat)
    requires Partition(c, |flows|) && Running(c, i) && SocksOk(flows, g, c)
    ensures Partition(Advance(c, i), |Swept(flows, c, i)|) && SocksOk(Swept(flows, c, i), g, Advance(c, i))
  {
    var f', c' := Swept(flows, c, i), Advance(c, i);
    RemovePartition(flows, c, i);
    SweptAt(flows, c, i, Current(c, i));
    hide Swept;
    forall j, k | 0 <= j < |c.chains| && c.pos[j] <= k < |c.chains[j]| && !(j == i && k == c.pos[i])
      ensures f'[c.chains[j][k]].sock == flows[c.chains[j][k]].sock
    {
      HomeIs(c, |flows|, j, k);
      HomeIs(c, |flows|, i, c.pos[i]);
      SweptAt(flows, c, i, c.chains[j][k]);
    }
  }

  lemma SweepChained(flows: seq<Flow>, g: Chart, c: Chart, i: nat)
    requires Partition(c, |flows|) && Running(c, i) && Members(c, |flows|)
    requires Chained(flows, g.finished) && (forall b :: b in g.finished ==> b in c.finished)
    ensures Chained(Swept(flows, c, i), g.finished)
  {
  }

  lemma SweepMembers(g: Chart, c: Chart, freed: seq<nat>, blocks: nat, i: nat)
    requires Partition(c, blocks) && Running(c, i) && Members(c, blocks) && Accounted(g, c, freed)
    ensures Partition(Advance(c, i), blocks) && Members(Advance(c, i), blocks) && Accounted(g, Advance(c, i), freed + [Current(c, i)])
    ensures Current(c, i) !in freed
  {
    DoneMembers(c, blocks, i);
    HomeIs(c, blocks, i, c.pos[i]);
    NotFreed(g, c, freed, Current(c, i));
  }

  lemma SweepClosed(flows: seq<Flow>, g: Chart, c: Chart, closed: seq<int>, i: nat)
    requires Partition(g, |flows|) && Partition(c, |flows|) && c.chains == g.chains && c.socks == g.socks
    requires Running(c, i) && SocksOk(flows, g, c) && multiset(closed) == g.refused + Shut(g, c, |g.chains|)
    ensures var s := flows[Current(c, i)].sock;
            multiset(if s > 0 then closed + [s] else closed) == g.refused + Shut(g, Advance(c, i), |g.chains|)
  {
    ShutAdvance(g, c, i, |g.chains|);
    hide Shut;
  }

  lemma SweepStep(flows: seq<Flow>, head: Ptr, g: Chart, c: Chart, freed: seq<nat>, closed: seq<int>, i: nat)
    requires Sweeping(flows, head, g, c, freed, closed) && i == Seek(c, 0) && Running(c, i)
    ensures var b := Current(c, i);
            var closed' := if flows[b].sock > 0 then closed + [flows[b].sock] else closed;
            Sweeping(Swept(flows, c, i), Replacement(c, i), g, Advance(c, i), freed + [b], closed')
  {
    hide Partition, ModsOk, ListOk, Chained, SocksOk, Members, Accounted, Swept, Replacement, Shut, Running, Seek;
    SweepMods(flows, c, i);
    SweepList(flows, head, c, i);
    SweepSocks(flows, g, c, i);
    SweepChained(flows, g, c, i);
    SweepMembers(g, c, freed, |flows|, i);
    SweepClosed(flows, g, c, closed, i);
    SweptLength(flows, c, i);
  }

  lemma SweptLength(flows: seq<Flow>, c: Chart, i: nat)
    requires Partition(c, |flows|) && Running(c, i)
    ensures Current(c, i) < |flows| && |Swept(flows, c, i)| == |flows|
  {
  }

  lemma NotFreed(g: Chart, c: Chart, freed: seq<nat>, b: nat)
    requires Accounted(g, c, freed) && b !in c.finished
    ensures b !in freed && Accounted(g, c.(finished := [b] + c.finished), freed + [b])
  {
    assert b in freed ==> b in multiset(c.finished);
  }

  /** A block of an active chain is not freed. */
  lemma ActiveIsNotFreed(flows: seq<Flow>, g: Chart, c: Chart, freed: seq<nat>, i: nat, k: nat)
    requires Partition(c, |flows|) && Members(c, |flows|) && Accounted(g, c, freed)
    requires i < |c.chains| && c.pos[i] <= k < |c.chains[i]|
    ensures c.chains[i][k] < |flows| && c.chains[i][k] !in freed
  {
    HomeIs(c, |flows|, i, k);
    hide Partition;
    NotFreed(g, c, freed, c.chains[i][k]);
  }

  /** The next block to free is not yet freed, nor is the one that takes its place. */
  lemma SweepFacts(flows: seq<Flow>, head: Ptr, g: Chart, c: Chart, freed: seq<nat>, closed: seq<int>)
    requires Sweeping(flows, head, g, c, freed, closed)
    ensures |c.chains| == |c.pos| && head == Entry(c, 0)
    ensures head.To? ==>
      var i := Seek(c, 0);
      && Running(c, i) && head.b == Current(c, i) < |flows| && Partition(c, |flows|)
      && head.b !in freed && flows[head.b].mod == After(c.chains[i], c.pos[i]) && flows[head.b].next == Entry(c, i + 1)
      && (flows[head.b].mod.To? ==> flows[head.b].mod.b < |flows| && flows[head.b].mod.b != head.b && flows[head.b].mod.b !in freed)
  {
    hide Members, Accounted, Chained, SocksOk, Shut, Partition, ModsOk, ListOk;
    HeadFacts(flows, head, c);
    hide Entry, Seek, Current;
    if head.To? {
      var i := Seek(c, 0);
      ActiveIsNotFreed(flows, g, c, freed, i, c.pos[i]);
      if c.pos[i] + 1 < |c.chains[i]| { ActiveIsNotFreed(flows, g, c, freed, i, c.pos[i] + 1); }
    }
  }

  lemma HeadFacts(flows: seq<Flow>, head: Ptr, c: Chart)
    requires Partition(c, |flows|) && ModsOk(flows, c) && ListOk(flows, head, c)
    ensures |c.chains| == |c.pos| && head == Entry(c, 0)
    ensures head.To? ==>
      var i := Seek(c, 0);
      && Running(c, i) && head.b == c.chains[i][c.pos[i]] == Current(c, i) < |flows|
      && flows[head.b].mod == After(c.chains[i], c.pos[i]) && flows[head.b].next == Entry(c, i + 1)
      && (flows[head.b].mod.To? ==> flows[head.b].mod.b != head.b)
  {
  }

  /** Once the active list is empty every socket is closed and every block not on the done list freed. */
  lemma SweepEnds(flows: seq<Flow>, head: Ptr, g: Chart, c: Chart, freed: seq<nat>, closed: seq<int>)
    requires Sweeping(flows, head, g, c, freed, closed) && head == Null
    ensures Chained(flows, g.finished) && |g.socks| == |g.chains| && multiset(closed) == g.refused + Open(g.socks, |g.socks|)
    ensures Distinct(freed + g.finished) && forall b: nat :: b in freed + g.finished <==> b < |flows|
  {
    SeekEnds(c, 0);
    ShutAtEnd(g, c, |g.chains|);
    hide Chained, SocksOk, Shut, ModsOk, ListOk;
    var l := freed + g.finished;
    forall b: nat ensures b in l <==> b < |flows| {
      assert b in l <==> b in multiset(l);
      assert b in multiset(c.finished) <==> b in c.finished;
      if b < |flows| { assert !Running(c, c.home[b].0); }
    }
    SameElements(c.finished, l);
  }

  lemma {:induction false} SeekEnds(c: Chart, m: nat)
    requires |c.chains| == |c.pos| && Seek(c, m) >= |c.chains| && m <= |c.chains|
    ensures forall i: nat :: m <= i ==> !Running(c, i)
    decreases |c.chains| - m
  {
  }

  lemma {:induction false} CountDistinct(l: seq<nat>)
    ensures Distinct(l) <==> forall b :: b in multiset(l) ==> multiset(l)[b] == 1
  {
    if l != [] {
      var n := |l| - 1;
      CountDistinct(l[..n]);
      assert l == l[..n] + [l[n]];
      assert forall b :: multiset(l)[b] == multiset(l[..n])[b] + if b == l[n] then 1 else 0;
      if Distinct(l) {
        assert l[n] !in l[..n];
      } else {
        var i, j :| 0 <= i < j < |l| && l[i] == l[j];
        if j == n { assert l[..n][i] in multiset(l[..n]); } else { assert !Distinct(l[..n]) by { assert l[..n][i] == l[..n][j]; } }
      }
    }
  }

  lemma SameElements(l: seq<nat>, l': seq<nat>)
    requires multiset(l) == multiset(l') && Distinct(l)
    ensures Distinct(l')
  {
    CountDistinct(l);
    CountDistinct(l');
  }

  /** Closes the socket of the first active block and puts its successor in its place. */
  method FreeHead(s: Scheduler, freed: seq<nat>, ghost g: Chart, ghost c: Chart) returns (b: nat)
    requires s.head != Null && |c.chains| == |c.pos| && Sweeping(s.flows, s.head, g, c, freed, s.closed)
    modifies s`flows, s`head, s`closed
    ensures |s.flows| == old(|s.flows|) && Running(c, Seek(c, 0)) && b == Current(c, Seek(c, 0)) && b !in freed
    ensures Sweeping(s.flows, s.head, g, Advance(c, Seek(c, 0)), freed + [b], s.closed)
  {
    hide Sweeping;
    ghost var i := Seek(c, 0);
    SweepFacts(s.flows, s.head, g, c, freed, s.closed);
    SweepStep(s.flows, s.head, g, c, freed, s.closed, i);
    SweptLength(s.flows, c, i);
    hide Partition, Entry, Seek;
    b := s.head.b;
    var mem := s.flows;
    if mem[b].sock > 0 {
      s.closed := s.closed + [mem[b].sock];
      mem := mem[b := mem[b].(sock := 0)];
    }
    if mem[b].mod != Null {
      var n := mem[b].mod.b;
      assert n !in freed;
      s.head := To(n);
      mem := mem[n := mem[n].(next := mem[b].next)];
    } else {
      s.head := mem[b].next;
    }
    s.flows := mem;
  }

  /** The first loop of clean_up: the active list. */
  method ClearActive(s: Scheduler) returns (freed: seq<nat>)
    requires s.Valid()
    modifies s`flows, s`head, s`closed
    ensures s.head == Null && s.done == First(s.g.finished) && |s.flows| == old(|s.flows|) && Chained(s.flows, s.g.finished)
    ensures Distinct(freed + s.g.finished) && forall b: nat :: b in freed + s.g.finished <==> b < |s.flows|
    ensures multiset(s.closed) == s.g.refused + Open(s.g.socks, |s.g.socks|)
  {
    hide Shape, Books, Sweeping, Chained, Open;
    ghost var g, c := s.g, s.g;
    ShapeFacts(s.flows, s.head, s.done, g);
    SweepStarts(s.flows, s.head, s.done, g, s.sent, s.closed);
    freed := [];
    while s.head != Null
      invariant |s.flows| == old(|s.flows|)
      invariant Sweeping(s.flows, s.head, g, c, freed, s.closed) && |c.chains| == |c.pos|
      decreases Remaining(c, |c.chains|)
    {
      ghost var i := Seek(c, 0);
      var b := FreeHead(s, freed, g, c);
      RemainingAdvance(c, i, |c.chains|);
      freed := freed + [b];
      c := Advance(c, i);
    }
    SweepEnds(s.flows, s.head, g, c, freed, s.closed);
  }

  /** The second loop of clean_up: the done list. */
  method ClearDone(s: Scheduler, ghost l: seq<nat>, active: seq<nat>) returns (freed: seq<nat>)
    requires s.done == First(l) && Chained(s.flows, l) && Distinct(active + l)
    modifies s`done
    ensures s.done == Null && freed == active + l
  {
    ghost var m := 0;
    freed := active;
    while s.done != Null
      invariant 0 <= m <= |l| && s.done == First(l[m..]) && freed == active + l[..m]
      decreases |l| - m
    {
      var b := s.done.b;
      assert b == l[m] && b == (active + l)[|active| + m];
      assert b !in freed by {
        forall k | 0 <= k < |freed| ensures freed[k] != b { assert freed[k] == (active + l)[k]; }
      }
      s.done := s.flows[b].next;
      freed := freed + [b];
      m := m + 1;
    }
  }

  /** clean_up: the numbers of the blocks in the order they are freed. */
  method CleanUp(s: Scheduler) returns (freed: seq<nat>)
    requires s.Valid()
    modifies s`flows, s`head, s`done, s`closed
    ensures s.head == s.done == Null && |s.flows| == old(|s.flows|)
    ensures Distinct(freed) && forall b: nat :: b in freed <==> b < |s.flows|
    ensures multiset(s.closed) == s.g.refused + Open(s.g.socks, |s.g.socks|)
  {
    hide Shape, Books, Chained, Open;
    freed := ClearActive(s);
    freed := ClearDone(s, s.g.finished, freed);
  }
}
