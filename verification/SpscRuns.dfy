/** Whole runs of the SPSC queue: it is a FIFO queue, whatever the interleaving. */
module SpscRuns {
  import opened Common
  import opened RoundUp
  import opened Spsc

  // --------------------------------------------------------------- the constructor

  function EmptyBlock(size: nat, next: nat): Block { Block(0, 0, 0, 0, seq(size, _ => 0), next) }

  /** How many blocks of what size the constructor makes. */
  function Initial(maxSize: nat, maxBlock: nat): Capacity requires maxBlock >= 2 {
    var size := LeastPower(maxSize + 1);
    if size > maxBlock * 2 then Capacity((maxSize + maxBlock * 2 - 3) / (maxBlock - 1), maxBlock, maxSize)
    else Capacity(1, size, maxSize)
  }

  ghost predicate Init(s: State, cap: Capacity) {
    && cap.count == |s.blocks|
    && (forall i :: 0 <= i < cap.count ==> s.blocks[i] == EmptyBlock(cap.size, if i + 1 == cap.count then 0 else i + 1))
    && s.frontBlock == s.tailBlock == 0
    && s.largest == cap.size
    && s.prod.PIdle? && s.cons.CIdle?
  }

  /** The promise of the constructor: room for maxSize elements wherever the consumer stands. */
  lemma InitialIsRoomy(maxSize: nat, maxBlock: nat)
    requires maxSize > 0 && maxBlock >= 2
    ensures Roomy(Initial(maxSize, maxBlock))
  {
  }

  lemma SpareSlot(maxSize: nat)
    requires maxSize < Pow2(WIDTH)
    ensures (maxSize + 1) % Pow2(WIDTH) == if maxSize + 1 == Pow2(WIDTH) then 0 else maxSize + 1
    ensures Pow2(WIDTH - 1) < Pow2(WIDTH)
  {
    hide Pow2;
    WrapsAt(maxSize + 1, Pow2(WIDTH));
    Larger(WIDTH - 1, WIDTH);
  }

  /** The constructor's loop: each new block is linked behind the last and back to the first.  The
      promise is kept for fewer than 2^63 elements; for more the size of the block wraps to 0. */
  method Construct(maxSize: nat, maxBlock: nat) returns (s: State)
    requires 0 < maxSize < Pow2(WIDTH) && maxBlock >= 2
    ensures s.maxBlock == maxBlock
    ensures maxSize < Pow2(WIDTH - 1) ==> Init(s, Initial(maxSize, maxBlock))
    ensures maxSize >= Pow2(WIDTH - 1) ==> s.blocks == [EmptyBlock(0, 0)]
  {
    hide Pow2;
    InitialIsRoomy(maxSize, maxBlock);
    var largest := CeilToPow2((maxSize + 1) % Pow2(WIDTH));
    SpareSlot(maxSize);
    var blocks: seq<Block> := [];
    if largest > maxBlock * 2 {
      var count := (maxSize + maxBlock * 2 - 3) / (maxBlock - 1);
      largest := maxBlock;
      var i := 0;
      while i != count
        invariant 0 <= i <= count && |blocks| == i
        invariant forall j :: 0 <= j < i ==> blocks[j] == EmptyBlock(largest, if j + 1 == i then 0 else j + 1)
      {
        if i > 0 { blocks := blocks[i - 1 := blocks[i - 1].(next := i)]; }
        blocks := blocks + [EmptyBlock(largest, 0)];
        i := i + 1;
      }
    } else {
      blocks := [EmptyBlock(largest, 0)];
    }
    s := State(blocks, 0, 0, largest, maxBlock, PIdle, CIdle);
  }

  // ------------------------------------------------------------- the abstract queue

  /** What one reads walking from block b to block `last`. */
  ghost function Walk(blocks: seq<Block>, b: nat, last: nat, fuel: nat): seq<Item>
    requires b < |blocks| && forall i :: 0 <= i < |blocks| ==> BlockOk(blocks[i], |blocks|)
    decreases fuel
  {
    assert BlockOk(blocks[b], |blocks|);
    if b == last || fuel == 0 then Contents(blocks[b])
    else Contents(blocks[b]) + Walk(blocks, blocks[b].next, last, fuel - 1)
  }

  /** The queue: the blocks from frontBlock to tailBlock, each from front to tail. */
  ghost function Queue(s: State): seq<Item> requires WellFormed(s) {
    Walk(s.blocks, s.frontBlock, s.tailBlock, |s.blocks|)
  }

  lemma {:induction false} Pigeonhole(l: seq<nat>, n: nat)
    requires Distinct(l) && forall i :: 0 <= i < |l| ==> l[i] < n
    ensures |l| <= n
  {
    if l != [] {
      assert l[0] < n;
      if exists k :: 0 <= k < |l| && l[k] == n - 1 {
        var k :| 0 <= k < |l| && l[k] == n - 1;
        var rest := l[..k] + l[k + 1..];
        assert forall i :: 0 <= i < |rest| ==> rest[i] == l[if i < k then i else i + 1];
        Pigeonhole(rest, n - 1);
      } else {
        Pigeonhole(l, n - 1);
      }
    }
  }

  lemma RingDistinct(blocks: seq<Block>, ring: seq<nat>, bs: seq<Block>, j: nat, k: nat)
    requires Ring(blocks, ring, bs) && j < k < |ring|
    ensures ring[j] != ring[k]
  {
  }

  lemma {:induction false} WalkIsFlat(blocks: seq<Block>, ring: seq<nat>, bs: seq<Block>, k: nat, t: nat, fuel: nat)
    requires forall i :: 0 <= i < |blocks| ==> BlockOk(blocks[i], |blocks|)
    requires forall i :: 0 <= i < |bs| ==> Valid(bs[i])
    requires |ring| == |bs| && k <= t < |bs| && fuel >= t - k && ring[k] < |blocks|
    requires Ring(blocks, ring, bs)
    ensures Walk(blocks, ring[k], ring[t], fuel) == Flat(bs[k..t + 1])
    decreases t - k
  {
    hide Ring, Contents, Valid;
    RingAt(blocks, ring, bs, k);
    var row := bs[k..t + 1];
    assert Flat(row) == Contents(row[0]) + Flat(row[1..]);
    assert row[1..] == bs[k + 1..t + 1];
    if k < t {
      RingDistinct(blocks, ring, bs, k, t);
      RingAt(blocks, ring, bs, k + 1);
      WalkIsFlat(blocks, ring, bs, k + 1, t, fuel - 1);
    } else {
      assert row[1..] == [];
    }
  }

  lemma QueueIsElements(s: State, g: Aux)
    requires Inv(s, g)
    ensures WellFormed(s) && AuxOk(g) && Queue(s) == Elements(g)
  {
    TailAnchor(s, g);
    hide Fill, ProducerInv, ConsumerInv, FreshInv, Contents, CapacityOk;
    Pigeonhole(g.ring, |s.blocks|);
    WalkIsFlat(s.blocks, g.ring, g.bs, 0, g.t, |s.blocks|);
  }

  // ------------------------------------------------------------------ whole runs

  ghost predicate IsRun(run: seq<State>, steps: seq<Action>, cap: Capacity) {
    && |run| == |steps| + 1
    && Roomy(cap) && Init(run[0], cap)
    && (forall i :: 0 <= i < |steps| ==>
          WellFormed(run[i]) && Enabled(run[i], steps[i]) && run[i + 1] == Step(run[i], steps[i]).0)
  }

  lemma InitRing(s: State, cap: Capacity)
    requires Roomy(cap) && Init(s, cap)
    ensures Ring(s.blocks, seq(cap.count, i => i), s.blocks)
  {
  }

  lemma InitFill(s: State, cap: Capacity)
    requires Roomy(cap) && Init(s, cap)
    ensures Fill(s.blocks, 0, false) && WellFormed(s) && Flat(s.blocks[..1]) == []
  {
  }

  lemma InitInv(s: State, cap: Capacity) returns (g: Aux)
    requires Roomy(cap) && Init(s, cap)
    ensures Inv(s, g) && AuxOk(g) && Elements(g) == [] && g.cap == cap && !g.sawEmpty && !g.sawFull
  {
    g := Aux(seq(cap.count, i => i), s.blocks, 0, cap, false, false);
    InitRing(s, cap);
    InitFill(s, cap);
    hide Ring, Flat, Contents;
  }

  /** The accounts of a run, state by state. */
  ghost predicate Accounts(run: seq<State>, steps: seq<Action>, gs: seq<Aux>, cap: Capacity) {
    && IsRun(run, steps, cap)
    && 0 < |gs| <= |run|
    && (forall i :: 0 <= i < |gs| ==> Inv(run[i], gs[i]) && AuxOk(gs[i]) && gs[i].cap == cap)
    && Elements(gs[0]) == [] && !gs[0].sawEmpty && !gs[0].sawFull
    && (forall i :: 0 <= i < |gs| - 1 ==> StepOk(run[i], gs[i], steps[i], gs[i + 1]))
  }

  lemma StepGives(s: State, g: Aux, a: Action, g': Aux)
    requires WellFormed(s) && Enabled(s, a) && AuxOk(g) && StepOk(s, g, a, g')
    ensures Inv(Step(s, a).0, g') && AuxOk(g') && g'.cap == g.cap
    ensures Refines(Elements(g), Step(s, a).1, Elements(g'), g'.sawEmpty, g'.sawFull)
    ensures g'.sawEmpty == (!a.CallConsume? && (g.sawEmpty || Elements(g) == []))
    ensures g'.sawFull == (!a.CallEnqueue? && (g.sawFull || |Elements(g)| >= g.cap.maxSize))
  {
    hide Inv, Refines, Elements;
  }

  lemma {:induction false} RunAccounts(run: seq<State>, steps: seq<Action>, cap: Capacity, k: nat) returns (gs: seq<Aux>)
    requires IsRun(run, steps, cap) && k < |run|
    ensures |gs| == k + 1 && Accounts(run, steps, gs, cap)
  {
    hide Inv, StepOk, Elements, Init, WellFormed, Enabled, Step;
    if k == 0 {
      var g := InitInv(run[0], cap);
      gs := [g];
    } else {
      var before := RunAccounts(run, steps, cap, k - 1);
      var g := Preserved(run[k - 1], before[k - 1], steps[k - 1]);
      StepGives(run[k - 1], before[k - 1], steps[k - 1], g);
      gs := before + [g];
    }
  }

  /** The elements enqueued, and those dequeued, in the first k steps. */
  ghost function Inputs(run: seq<State>, steps: seq<Action>, cap: Capacity, k: nat): seq<Item>
    requires IsRun(run, steps, cap) && k <= |steps|
  {
    if k == 0 then []
    else Inputs(run, steps, cap, k - 1) +
         var ev := Step(run[k - 1], steps[k - 1]).1; if ev.Enqueued? then [ev.x] else []
  }

  ghost function Outputs(run: seq<State>, steps: seq<Action>, cap: Capacity, k: nat): seq<Item>
    requires IsRun(run, steps, cap) && k <= |steps|
  {
    if k == 0 then []
    else Outputs(run, steps, cap, k - 1) +
         var ev := Step(run[k - 1], steps[k - 1]).1; if ev.Dequeued? then [ev.x] else []
  }

  lemma {:induction false} InputsAreOutputsAndRest(run: seq<State>, steps: seq<Action>, gs: seq<Aux>, cap: Capacity, k: nat)
    requires Accounts(run, steps, gs, cap) && k < |gs|
    ensures Inputs(run, steps, cap, k) == Outputs(run, steps, cap, k) + Elements(gs[k])
  {
    hide Inv, StepOk, Elements, Init, WellFormed, Enabled, Step;
    if k > 0 {
      InputsAreOutputsAndRest(run, steps, gs, cap, k - 1);
      StepGives(run[k - 1], gs[k - 1], steps[k - 1], gs[k]);
    }
  }

  /** At every moment of every run the elements enqueued so far are, in order,
      those dequeued so far followed by those in the queue: nothing is lost,
      duplicated or reordered. */
  lemma Fifo(run: seq<State>, steps: seq<Action>, cap: Capacity, k: nat)
    requires IsRun(run, steps, cap) && k < |run|
    ensures WellFormed(run[k]) && Inputs(run, steps, cap, k) == Outputs(run, steps, cap, k) + Queue(run[k])
  {
    hide Inv, StepOk, Elements, Init, Step, Queue;
    var gs := RunAccounts(run, steps, cap, k);
    InputsAreOutputsAndRest(run, steps, gs, cap, k);
    QueueIsElements(run[k], gs[k]);
  }

  /** What a step reports about the queue is true of it. */
  lemma EventsAreTrue(run: seq<State>, steps: seq<Action>, cap: Capacity, k: nat)
    requires IsRun(run, steps, cap) && k < |steps|
    ensures WellFormed(run[k]) && WellFormed(run[k + 1])
    ensures var before, after := Queue(run[k]), Queue(run[k + 1]);
            match Step(run[k], steps[k]).1
            case Enqueued(x) => after == before + [x]
            case Dequeued(x) => before == [x] + after
            case Peeked(x) => after == before && before != [] && before[0] == x
            case _ => after == before
  {
    hide Inv, StepOk, Elements, Init, Step, Queue;
    var gs := RunAccounts(run, steps, cap, k + 1);
    StepGives(run[k], gs[k], steps[k], gs[k + 1]);
    QueueIsElements(run[k], gs[k]);
    QueueIsElements(run[k + 1], gs[k + 1]);
  }

  /** The blocks entered are as the assertions say. */
  lemma AssertionsNeverFire(run: seq<State>, steps: seq<Action>, cap: Capacity, k: nat)
    requires IsRun(run, steps, cap) && k < |run|
    ensures WellFormed(run[k]) && AssertionsHold(run[k])
  {
    hide Inv, StepOk, Elements, Init, Step;
    var gs := RunAccounts(run, steps, cap, k);
    var s, g := run[k], gs[k];
    TailAnchor(s, g);
    if s.cons.LoadNextTail? { SecondAnchor(s, g); }
    if s.prod.LoadNextFront? { NextIsEmpty(s, g); }
  }

  lemma NextIsEmpty(s: State, g: Aux)
    requires Inv(s, g) && s.prod.LoadNextFront?
    ensures s.prod.nb < |s.blocks| && s.blocks[s.prod.nb].front == s.blocks[s.prod.nb].tail
  {
    NextAnchor(s, g);
    hide Shape, FreshInv, ConsumerInv;
  }

  lemma {:induction false} SawEmpty(run: seq<State>, steps: seq<Action>, gs: seq<Aux>, cap: Capacity, k: nat) returns (j: nat)
    requires Accounts(run, steps, gs, cap) && k < |gs| && gs[k].sawEmpty && !run[k].cons.CIdle?
    ensures j < k && Elements(gs[j]) == []
    ensures forall i :: j <= i <= k ==> !run[i].cons.CIdle?
  {
    hide Inv, StepOk, Elements, Init, WellFormed, Refines;
    StepGives(run[k - 1], gs[k - 1], steps[k - 1], gs[k]);
    if Elements(gs[k - 1]) == [] {
      j := k - 1;
    } else {
      j := SawEmpty(run, steps, gs, cap, k - 1);
    }
  }

  /** A dequeue (or peek) that reports emptiness found the queue empty at some
      moment of that very call. */
  lemma EmptyMeansEmpty(run: seq<State>, steps: seq<Action>, cap: Capacity, k: nat) returns (j: nat)
    requires IsRun(run, steps, cap) && k < |steps| && Step(run[k], steps[k]).1.ConsumeEmpty?
    ensures j <= k && WellFormed(run[j]) && Queue(run[j]) == []
    ensures forall i :: j <= i <= k ==> !run[i].cons.CIdle?
  {
    hide Inv, StepOk, Elements, Init, Queue;
    var gs := RunAccounts(run, steps, cap, k + 1);
    StepGives(run[k], gs[k], steps[k], gs[k + 1]);
    if Elements(gs[k]) == [] { j := k; } else { j := SawEmpty(run, steps, gs, cap, k); }
    QueueIsElements(run[j], gs[j]);
  }

  lemma {:induction false} SawFull(run: seq<State>, steps: seq<Action>, gs: seq<Aux>, cap: Capacity, k: nat) returns (j: nat)
    requires Accounts(run, steps, gs, cap) && k < |gs| && gs[k].sawFull && !run[k].prod.PIdle?
    ensures j < k && |Elements(gs[j])| >= cap.maxSize
    ensures forall i :: j <= i <= k ==> !run[i].prod.PIdle?
  {
    hide Inv, StepOk, Elements, Init, WellFormed, Refines;
    StepGives(run[k - 1], gs[k - 1], steps[k - 1], gs[k]);
    if |Elements(gs[k - 1])| >= cap.maxSize {
      j := k - 1;
    } else {
      j := SawFull(run, steps, gs, cap, k - 1);
    }
  }

  /** try_enqueue fails only if the queue held the promised maxSize elements at
      some moment of that very call, however the queue has grown since. */
  lemma FullMeansFull(run: seq<State>, steps: seq<Action>, cap: Capacity, k: nat) returns (j: nat)
    requires IsRun(run, steps, cap) && k < |steps| && Step(run[k], steps[k]).1.EnqueueFull?
    ensures j <= k && WellFormed(run[j]) && |Queue(run[j])| >= cap.maxSize
    ensures forall i :: j <= i <= k ==> !run[i].prod.PIdle?
  {
    hide Inv, StepOk, Elements, Init, Queue;
    var gs := RunAccounts(run, steps, cap, k + 1);
    StepGives(run[k], gs[k], steps[k], gs[k + 1]);
    if |Elements(gs[k])| >= cap.maxSize { j := k; } else { j := SawFull(run, steps, gs, cap, k); }
    QueueIsElements(run[j], gs[j]);
  }
}
