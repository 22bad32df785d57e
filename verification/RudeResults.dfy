/** What holds in every state of the scheduler, read off the pointers alone. */
module RudeResults {
  import opened Common
  import opened Rude
  import opened FlowControl
  import CleanUp

  /** `l` is the list that starts at p and goes on through `next`. */
  ghost predicate IsList(flows: seq<Flow>, p: Ptr, l: seq<nat>) {
    p == First(l) && CleanUp.Chained(flows, l)
  }

  /** `l` is the list that starts at p and goes on through `mod`. */
  ghost predicate IsModList(flows: seq<Flow>, p: Ptr, l: seq<nat>) {
    p == First(l) && forall m :: 0 <= m < |l| ==> l[m] < |flows| && flows[l[m]].mod == First(l[m + 1..])
  }

  /** The blocks in the active list, from flow i on. */
  ghost function Active(g: Chart, i: nat): seq<nat>
    requires |g.chains| == |g.pos| && i <= |g.chains|
    decreases |g.chains| - i
  {
    if i == |g.chains| then [] else if Running(g, i) then [Current(g, i)] + Active(g, i + 1) else Active(g, i + 1)
  }

  lemma {:induction false} ActiveIsList(flows: seq<Flow>, g: Chart, i: nat)
    requires |g.chains| == |g.pos| && i <= |g.chains|
    requires forall m: nat :: Running(g, m) ==> Current(g, m) < |flows| && flows[Current(g, m)].next == Entry(g, m + 1)
    ensures IsList(flows, Entry(g, i), Active(g, i))
    decreases |g.chains| - i
  {
    hide Entry, Seek, Running, Current, IsList;
    EntryStep(g, i);
    if i < |g.chains| {
      ActiveIsList(flows, g, i + 1);
      if Running(g, i) { PutBefore(flows, Current(g, i), Active(g, i + 1)); }
    } else {
      EmptyList(flows);
    }
  }

  lemma EmptyList(flows: seq<Flow>)
    ensures IsList(flows, Null, [])
  {
  }

  lemma EntryStep(g: Chart, i: nat)
    requires |g.chains| == |g.pos| && i <= |g.chains|
    ensures Entry(g, i) == if i == |g.chains| then Null else if Running(g, i) then To(Current(g, i)) else Entry(g, i + 1)
  {
  }

  lemma PutBefore(flows: seq<Flow>, b: nat, t: seq<nat>)
    requires b < |flows| && IsList(flows, flows[b].next, t)
    ensures IsList(flows, To(b), [b] + t)
  {
  }

  /** Block b is the one of its flow that the active list holds. */
  ghost predicate IsCurrent(g: Chart, b: nat) requires b < |g.home| && g.home[b].0 < |g.pos| { g.home[b].1 == g.pos[g.home[b].0] }

  lemma {:induction false} ActiveMembers(g: Chart, blocks: nat, i: nat)
    requires Partition(g, blocks) && i <= |g.chains|
    ensures forall b :: b in Active(g, i) <==> 0 <= b < blocks && g.home[b].0 >= i && IsCurrent(g, b)
    ensures Distinct(Active(g, i))
    decreases |g.chains| - i
  {
    if i < |g.chains| {
      ActiveMembers(g, blocks, i + 1);
      if Running(g, i) {
        HomeIs(g, blocks, i, g.pos[i]);
        assert Current(g, i) !in Active(g, i + 1);
      }
      forall b | 0 <= b < blocks && g.home[b].0 == i && IsCurrent(g, b) ensures Running(g, i) && b == Current(g, i) {}
    }
  }

  /** The blocks that wait for flow i to reach them. */
  ghost function Waiting(g: Chart, i: nat): seq<nat> requires Running(g, i) { g.chains[i][g.pos[i] + 1..] }

  lemma WaitingMembers(g: Chart, blocks: nat, i: nat)
    requires Partition(g, blocks) && Running(g, i)
    ensures forall m :: 0 <= m < |Waiting(g, i)| ==> Waiting(g, i)[m] < blocks && g.home[Waiting(g, i)[m]] == (i, g.pos[i] + 1 + m)
    ensures forall b: nat :: b in Waiting(g, i) <==> b < blocks && g.home[b].0 == i && g.home[b].1 > g.pos[i]
  {
  }

  lemma WaitingIsList(flows: seq<Flow>, g: Chart, i: nat)
    requires Partition(g, |flows|) && ModsOk(flows, g) && Running(g, i)
    ensures Current(g, i) < |flows| && IsModList(flows, flows[Current(g, i)].mod, Waiting(g, i)) && Distinct(Waiting(g, i))
  {
    WaitingMembers(g, |flows|, i);
    ModSuffix(flows, g.chains[i], g.pos[i] + 1);
    hide Partition, ModsOk, IsModList;
  }

  lemma ModSuffix(flows: seq<Flow>, c: seq<nat>, p: nat)
    requires 0 < p <= |c| && forall k :: 0 <= k < |c| ==> c[k] < |flows| && flows[c[k]].mod == After(c, k)
    ensures IsModList(flows, flows[c[p - 1]].mod, c[p..])
  {
  }

  /** Every block is in exactly one place: in the list from `done`, in the list from
      `head`, or waiting behind exactly one block of that list.  No list meets a block twice. */
  lemma BlocksAreConserved(flows: seq<Flow>, head: Ptr, done: Ptr, g: Chart)
    requires Shape(flows, head, done, g)
    ensures |g.chains| == |g.pos|
    ensures IsList(flows, done, g.finished) && IsList(flows, head, Active(g, 0))
    ensures Distinct(g.finished) && Distinct(Active(g, 0))
    ensures forall i: nat :: Running(g, i) ==> HasItsList(flows, g, i)
    ensures forall b :: 0 <= b < |flows| ==> OnePlace(g, b)
  {
    ActiveMembers(g, |flows|, 0);
    ActiveIsList(flows, g, 0);
    forall i: nat | Running(g, i) ensures HasItsList(flows, g, i) {
      WaitingIsList(flows, g, i);
      HomeIs(g, |flows|, i, g.pos[i]);
    }
    forall b | 0 <= b < |flows| ensures OnePlace(g, b) { PlaceOf(flows, done, g, b); }
  }

  /** What waits for flow i hangs on its block in the active list. */
  ghost predicate HasItsList(flows: seq<Flow>, g: Chart, i: nat) requires |g.chains| == |g.pos| && Running(g, i) {
    && Current(g, i) in Active(g, 0) && Current(g, i) < |flows|
    && IsModList(flows, flows[Current(g, i)].mod, Waiting(g, i)) && Distinct(Waiting(g, i))
  }

  lemma PlaceOf(flows: seq<Flow>, done: Ptr, g: Chart, b: nat)
    requires Partition(g, |flows|) && DoneOk(flows, done, g) && b < |flows|
    ensures OnePlace(g, b)
  {
    ActiveMembers(g, |flows|, 0);
    forall i: nat | Running(g, i) ensures b in Waiting(g, i) <==> i == g.home[b].0 && g.home[b].1 > g.pos[i] { WaitingMembers(g, |flows|, i); }
    hide Active, Waiting;
    if g.home[b].1 > g.pos[g.home[b].0] { assert b in Waiting(g, g.home[b].0); }
  }

  ghost predicate Waits(g: Chart, b: nat) { exists i: nat :: Running(g, i) && b in Waiting(g, i) }

  ghost predicate OnePlace(g: Chart, b: nat) requires |g.chains| == |g.pos| {
    && (b in g.finished ==> b !in Active(g, 0) && !Waits(g, b))
    && (b in Active(g, 0) ==> !Waits(g, b))
    && (b in g.finished || b in Active(g, 0) || Waits(g, b))
    && (forall i: nat, j: nat :: Running(g, i) && Running(g, j) && b in Waiting(g, i) && b in Waiting(g, j) ==> i == j)
  }

  /** When find_next has nothing left, every block is on the done list, once. */
  lemma AllBlocksEnd(flows: seq<Flow>, head: Ptr, done: Ptr, g: Chart)
    requires Shape(flows, head, done, g) && forall i: nat :: i < |g.chains| ==> !Running(g, i)
    ensures head == Null && IsList(flows, done, g.finished) && Distinct(g.finished)
    ensures forall b: nat :: b in g.finished <==> b < |flows|
  {
    forall b: nat | b < |flows| ensures b in g.finished { assert !Running(g, g.home[b].0); }
  }

  /** The packets of a flow carry 0, 1, 2, ... in the order they were sent, across all
      its blocks, and a block that is over records how many there had been. */
  lemma NumbersHaveNoGaps(flows: seq<Flow>, head: Ptr, done: Ptr, g: Chart, sent: seq<Packet>, closed: seq<int>, i: nat)
    requires Shape(flows, head, done, g) && Books(flows, g, sent, closed) && i < |g.chains|
    ensures |g.chains[i]| > 0 && g.pos[i] <= |g.chains[i]| && forall m :: 0 <= m < |g.chains[i]| ==> g.chains[i][m] < |flows|
    ensures var c := g.chains[i];
            var numbers := SeqNos(sent, flows[c[0]].id);
            && |numbers| == Tally(flows, c, |c|) && (forall k :: 0 <= k < |numbers| ==> numbers[k] == k)
            && (forall k :: 0 <= k < g.pos[i] ==> flows[c[k]].seqno == Through(flows, c, k))
            && (Running(g, i) ==> flows[Current(g, i)].seqno == |numbers|)
            && (g.pos[i] == |c| ==> flows[c[|c| - 1]].seqno == |numbers|)
  {
    assert FlowOk(flows, g, sent, i) && Stamped(flows, g, i);
  }
}
