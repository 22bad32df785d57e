/** The optimistic-ticket dequeue protocol of one producer of the MPMC queue
    (concurrentqueue.h, ImplicitProducer::dequeue and dequeue_bulk).

    One producer publishes elements by advancing tailIndex; any number of
    consumers run single and bulk dequeues concurrently.  A single dequeue makes
    the same accesses as a bulk dequeue of at most one element. */
module Tickets {
  import opened Common

  type Tid = nat

  datatype Pc =
    | Idle
    | LoadTail(max: nat)                                  // tail = tailIndex.load()
    | LoadOver(max: nat, tail: int)                       // overcommit = dequeueOvercommit.load()
    | LoadOpt(max: nat, tail: int, over: int)             // desiredCount from dequeueOptimisticCount.load()
    | Take(desired: nat, over: int)                       // dequeueOptimisticCount.fetch_add(desired)
    | Recheck(my: int, desired: nat, over: int)           // tail = tailIndex.load()
    | GiveBack(desired: nat, actual: nat)                 // dequeueOvercommit.fetch_add(desired - actual)
    | Claim(actual: nat)                                  // headIndex.fetch_add(actual)

  datatype State = State(tail: int, head: int, opt: int, over: int, pc: seq<Pc>)

  datatype Action = Publish(count: nat) | Call(t: Tid, max: nat) | Run(t: Tid)

  datatype Event = Silent | Claimed(t: Tid, first: int, count: nat) | Failed(t: Tid)

  predicate Enabled(s: State, a: Action) {
    match a
    case Publish(count) => count > 0
    case Call(t, max) => t < |s.pc| && s.pc[t].Idle?
    case Run(t) => t < |s.pc| && !s.pc[t].Idle?
  }

  /** What `actualCount` leaves to do: hand back the shortfall first, then claim. */
  function AfterRecheck(desired: nat, available: int): Pc {
    if available <= 0 then GiveBack(desired, 0)
    else if available < desired then GiveBack(desired, available)
    else Claim(desired)
  }

  function Step(s: State, a: Action): (r: (State, Event))
    requires Enabled(s, a)
    ensures |r.0.pc| == |s.pc|
  {
    match a
    case Publish(count) => (s.(tail := s.tail + count), Silent)
    case Call(t, max) => (s.(pc := s.pc[t := LoadTail(max)]), Silent)
    case Run(t) =>
      match s.pc[t]
      case LoadTail(max) => (s.(pc := s.pc[t := LoadOver(max, s.tail)]), Silent)
      case LoadOver(max, tail) => (s.(pc := s.pc[t := LoadOpt(max, tail, s.over)]), Silent)
      case LoadOpt(max, tail, over) =>
        var desired := tail - (s.opt - over);
        if desired > 0 then (s.(pc := s.pc[t := Take(Min(desired, max), over)]), Silent)
        else (s.(pc := s.pc[t := Idle]), Failed(t))
      case Take(desired, over) =>
        (s.(opt := s.opt + desired, pc := s.pc[t := Recheck(s.opt, desired, over)]), Silent)
      case Recheck(my, desired, over) =>
        (s.(pc := s.pc[t := AfterRecheck(desired, s.tail - (my - over))]), Silent)
      case GiveBack(desired, actual) =>
        (s.(over := s.over + (desired - actual), pc := s.pc[t := if actual > 0 then Claim(actual) else Idle]),
         if actual > 0 then Silent else Failed(t))
      case Claim(actual) =>
        (s.(head := s.head + actual, pc := s.pc[t := Idle]), Claimed(t, s.head, actual))
  }

  predicate Init(s: State) {
    && s.tail == s.head == s.opt == s.over == 0
    && (forall t :: 0 <= t < |s.pc| ==> s.pc[t].Idle?)
  }

  // --------------------------------------------------------------- the tickets

  /** Ticket i is drawn when dequeueOptimisticCount moves past i; it stays with
      its drawer until the second look at tailIndex decides it. */
  datatype Fate = Drawn(t: Tid) | Won | Lost

  ghost function WonCount(ts: seq<Fate>): nat {
    if ts == [] then 0 else WonCount(ts[..|ts| - 1]) + (if ts[|ts| - 1].Won? then 1 else 0)
  }

  ghost function LostCount(ts: seq<Fate>): nat {
    if ts == [] then 0 else LostCount(ts[..|ts| - 1]) + (if ts[|ts| - 1].Lost? then 1 else 0)
  }

  ghost function Repeat(f: Fate, n: nat): seq<Fate> { seq(n, _ => f) }

  lemma {:induction false} CountsBound(ts: seq<Fate>)
    ensures WonCount(ts) + LostCount(ts) <= |ts|
    ensures (forall i :: 0 <= i < |ts| ==> !ts[i].Drawn?) ==> WonCount(ts) + LostCount(ts) == |ts|
  {
    if ts != [] { CountsBound(ts[..|ts| - 1]); }
  }

  lemma {:induction false} CountsConcat(a: seq<Fate>, b: seq<Fate>)
    ensures WonCount(a + b) == WonCount(a) + WonCount(b)
    ensures LostCount(a + b) == LostCount(a) + LostCount(b)
  {
    if b == [] {
      assert a + b == a;
    } else {
      CountsConcat(a, b[..|b| - 1]);
      assert (a + b)[..|a + b| - 1] == a + b[..|b| - 1];
    }
  }

  lemma {:induction false} CountsRepeat(f: Fate, n: nat)
    ensures WonCount(Repeat(f, n)) == (if f.Won? then n else 0)
    ensures LostCount(Repeat(f, n)) == (if f.Lost? then n else 0)
  {
    if n > 0 {
      CountsRepeat(f, n - 1);
      assert Repeat(f, n)[..n - 1] == Repeat(f, n - 1);
    }
  }

  lemma {:induction false} LostPrefix(ts: seq<Fate>, j: nat, k: nat)
    requires j <= k <= |ts|
    ensures LostCount(ts[..j]) <= LostCount(ts[..k])
  {
    if j < k {
      LostPrefix(ts, j, k - 1);
      assert ts[..k][..k - 1] == ts[..k - 1];
    }
  }

  /** A winning ticket, less the losses below it, fits under the tail. */
  ghost predicate WinsFit(ts: seq<Fate>, tail: int) {
    forall k :: 0 <= k < |ts| && ts[k].Won? ==> k + 1 - LostCount(ts[..k]) <= tail
  }

  lemma {:induction false} WinsBound(ts: seq<Fate>, tail: int)
    requires WinsFit(ts, tail) && tail >= 0
    ensures WonCount(ts) <= tail
  {
    if ts != [] {
      var k := |ts| - 1;
      if ts[k].Won? {
        CountsBound(ts);
      } else {
        forall i | 0 <= i < k && ts[..k][i].Won? ensures i + 1 - LostCount(ts[..k][..i]) <= tail {
          assert ts[..k][..i] == ts[..i];
        }
        WinsBound(ts[..k], tail);
      }
    }
  }

  // ------------------------------------------------------------- the invariant

  /** Wins not yet added to headIndex, losses not yet added to dequeueOvercommit. */
  ghost function OwedClaim(p: Pc): nat { if p.GiveBack? || p.Claim? then p.actual else 0 }
  ghost function OwedReturn(p: Pc): nat { if p.GiveBack? && p.actual <= p.desired then p.desired - p.actual else 0 }

  ghost function ClaimsOwed(pcs: seq<Pc>): nat {
    if pcs == [] then 0 else ClaimsOwed(pcs[..|pcs| - 1]) + OwedClaim(pcs[|pcs| - 1])
  }

  ghost function ReturnsOwed(pcs: seq<Pc>): nat {
    if pcs == [] then 0 else ReturnsOwed(pcs[..|pcs| - 1]) + OwedReturn(pcs[|pcs| - 1])
  }

  lemma {:induction false} OwedUpdate(pcs: seq<Pc>, t: Tid, p: Pc)
    requires t < |pcs|
    ensures ClaimsOwed(pcs[t := p]) == ClaimsOwed(pcs) - OwedClaim(pcs[t]) + OwedClaim(p)
    ensures ReturnsOwed(pcs[t := p]) == ReturnsOwed(pcs) - OwedReturn(pcs[t]) + OwedReturn(p)
    ensures OwedClaim(pcs[t]) <= ClaimsOwed(pcs)
  {
    var k := |pcs| - 1;
    if t < k {
      OwedUpdate(pcs[..k], t, p);
      assert pcs[t := p][..k] == pcs[..k][t := p];
    } else {
      assert pcs[t := p][..k] == pcs[..k];
    }
  }

  lemma {:induction false} NothingOwed(pcs: seq<Pc>)
    requires forall t :: 0 <= t < |pcs| ==> pcs[t].Idle?
    ensures ClaimsOwed(pcs) == 0 && ReturnsOwed(pcs) == 0
  {
    if pcs != [] { NothingOwed(pcs[..|pcs| - 1]); }
  }

  /** What a consumer remembers.  `over` was read before the ticket was drawn, so
      that many losses lie below the ticket. */
  ghost predicate LocalOk(p: Pc, t: Tid, ts: seq<Fate>) {
    match p
    case LoadOpt(max, tail, over) => over <= LostCount(ts)
    case Take(desired, over) => over <= LostCount(ts)
    case Recheck(my, desired, over) =>
      && 0 <= my && my + desired <= |ts|
      && over <= LostCount(ts[..my])
      && (forall i :: my <= i < my + desired ==> ts[i] == Drawn(t))
    case GiveBack(desired, actual) => actual <= desired
    case _ => true
  }

  ghost predicate Mine(p: Pc, i: int) { p.Recheck? && p.my <= i < p.my + p.desired }

  /** Undecided tickets and consumers that hold them match up. */
  ghost predicate Hands(pcs: seq<Pc>, ts: seq<Fate>) {
    && (forall i :: 0 <= i < |ts| && ts[i].Drawn? ==> ts[i].t < |pcs| && Mine(pcs[ts[i].t], i))
    && (forall t :: 0 <= t < |pcs| ==> LocalOk(pcs[t], t, ts))
  }

  /** The four counters against the tickets. */
  ghost predicate Tallies(s: State, ts: seq<Fate>) {
    && s.tail >= 0
    && s.opt == |ts|
    && WonCount(ts) == s.head + ClaimsOwed(s.pc)
    && LostCount(ts) == s.over + ReturnsOwed(s.pc)
    && WinsFit(ts, s.tail)
  }

  ghost predicate Inv(s: State, ts: seq<Fate>) { Tallies(s, ts) && Hands(s.pc, ts) }

  /** The first `actual` of the drawn tickets win, the rest lose. */
  ghost function Decided(ts: seq<Fate>, my: nat, desired: nat, actual: nat): seq<Fate> {
    seq(|ts|, i requires 0 <= i < |ts| =>
      if my <= i < my + actual then Won else if my + actual <= i < my + desired then Lost else ts[i])
  }

  ghost function Actual(p: Pc, tail: int): nat requires p.Recheck? {
    OwedClaim(AfterRecheck(p.desired, tail - (p.my - p.over)))
  }

  ghost function Follow(s: State, ts: seq<Fate>, a: Action): seq<Fate>
    requires Inv(s, ts) && Enabled(s, a)
  {
    if a.Run? && s.pc[a.t].Take? then ts + Repeat(Drawn(a.t), s.pc[a.t].desired)
    else if a.Run? && s.pc[a.t].Recheck? then
      assert LocalOk(s.pc[a.t], a.t, ts);
      Decided(ts, s.pc[a.t].my, s.pc[a.t].desired, Actual(s.pc[a.t], s.tail))
    else ts
  }

  // ------------------------------------------------- every step keeps the invariant

  lemma TakeHands(pcs: seq<Pc>, ts: seq<Fate>, t: Tid, d: nat, over: int)
    requires Hands(pcs, ts) && t < |pcs| && pcs[t] == Take(d, over)
    ensures Hands(pcs[t := Recheck(|ts|, d, over)], ts + Repeat(Drawn(t), d))
  {
    var ts' := ts + Repeat(Drawn(t), d);
    var pcs' := pcs[t := Recheck(|ts|, d, over)];
    assert LocalOk(pcs[t], t, ts);
    CountsConcat(ts, Repeat(Drawn(t), d));
    forall u | 0 <= u < |pcs'| ensures LocalOk(pcs'[u], u, ts') {
      assert LocalOk(pcs[u], u, ts);
      if u == t { assert ts'[..|ts|] == ts; }
      else if pcs[u].Recheck? { assert ts'[..pcs[u].my] == ts[..pcs[u].my]; }
    }
  }

  lemma TakeFits(ts: seq<Fate>, t: Tid, d: nat, tail: int)
    requires WinsFit(ts, tail)
    ensures WinsFit(ts + Repeat(Drawn(t), d), tail)
  {
    var ts' := ts + Repeat(Drawn(t), d);
    forall k | 0 <= k < |ts'| && ts'[k].Won? ensures k + 1 - LostCount(ts'[..k]) <= tail { assert ts'[..k] == ts[..k]; }
  }

  /** Drawing tickets appends them, undecided. */
  lemma TakeKeeps(s: State, ts: seq<Fate>, t: Tid)
    requires Inv(s, ts) && t < |s.pc| && s.pc[t].Take?
    ensures Inv(Step(s, Run(t)).0, Follow(s, ts, Run(t)))
  {
    hide Hands, WinsFit;
    var d := s.pc[t].desired;
    CountsConcat(ts, Repeat(Drawn(t), d));
    CountsRepeat(Drawn(t), d);
    OwedUpdate(s.pc, t, Recheck(s.opt, d, s.pc[t].over));
    TakeHands(s.pc, ts, t, d, s.pc[t].over);
    TakeFits(ts, t, d, s.tail);
  }

  ghost function Clamp(x: int, hi: nat): nat { if x < 0 then 0 else if x > hi then hi else x }

  /** What a decision adds to the counts of every prefix. */
  lemma {:induction false} DecidedCounts(ts: seq<Fate>, my: nat, desired: nat, actual: nat, k: nat)
    requires my + desired <= |ts| && actual <= desired && k <= |ts|
    requires forall i :: my <= i < my + desired ==> ts[i].Drawn?
    ensures WonCount(Decided(ts, my, desired, actual)[..k]) == WonCount(ts[..k]) + Clamp(k - my, actual)
    ensures LostCount(Decided(ts, my, desired, actual)[..k]) == LostCount(ts[..k]) + Clamp(k - my - actual, desired - actual)
  {
    if k > 0 {
      DecidedCounts(ts, my, desired, actual, k - 1);
      var ts' := Decided(ts, my, desired, actual);
      assert ts'[..k][..k - 1] == ts'[..k - 1] && ts[..k][..k - 1] == ts[..k - 1];
    }
  }

  lemma DecidedTotal(ts: seq<Fate>, my: nat, desired: nat, actual: nat)
    requires my + desired <= |ts| && actual <= desired
    requires forall i :: my <= i < my + desired ==> ts[i].Drawn?
    ensures WonCount(Decided(ts, my, desired, actual)) == WonCount(ts) + actual
    ensures LostCount(Decided(ts, my, desired, actual)) == LostCount(ts) + desired - actual
  {
    DecidedCounts(ts, my, desired, actual, |ts|);
    var ts' := Decided(ts, my, desired, actual);
    assert ts'[..|ts|] == ts' && ts[..|ts|] == ts;
  }

  /** The decision: with `over` losses below the first ticket, the first `actual`
      tickets fit under the tail just read. */
  lemma DecisionFits(ts: seq<Fate>, tail: int, p: Pc, t: Tid)
    requires WinsFit(ts, tail) && p.Recheck? && LocalOk(p, t, ts)
    ensures Actual(p, tail) <= p.desired
    ensures WinsFit(Decided(ts, p.my, p.desired, Actual(p, tail)), tail)
  {
    var actual := Actual(p, tail);
    var ts' := Decided(ts, p.my, p.desired, actual);
    forall k | 0 <= k < |ts'| && ts'[k].Won? ensures k + 1 - LostCount(ts'[..k]) <= tail {
      DecidedCounts(ts, p.my, p.desired, actual, k);
      if p.my <= k < p.my + actual { LostPrefix(ts, p.my, k); }
    }
  }

  /** Other consumers keep their tickets and the losses below them. */
  lemma DecisionHands(pcs: seq<Pc>, ts: seq<Fate>, t: Tid, actual: nat, p': Pc)
    requires Hands(pcs, ts) && t < |pcs| && pcs[t].Recheck? && actual <= pcs[t].desired
    requires LocalOk(p', t, []) && (p'.GiveBack? || p'.Claim?)
    ensures Hands(pcs[t := p'], Decided(ts, pcs[t].my, pcs[t].desired, actual))
  {
    var p := pcs[t];
    assert LocalOk(p, t, ts);
    var ts' := Decided(ts, p.my, p.desired, actual);
    forall u | 0 <= u < |pcs| && u != t ensures LocalOk(pcs[u], u, ts') {
      assert LocalOk(pcs[u], u, ts);
      if pcs[u].Recheck? {
        DecidedCounts(ts, p.my, p.desired, actual, pcs[u].my);
        forall i | pcs[u].my <= i < pcs[u].my + pcs[u].desired ensures ts'[i] == Drawn(u) { assert ts[i] == Drawn(u); }
      } else {
        DecidedTotal(ts, p.my, p.desired, actual);
      }
    }
  }

  lemma RecheckTallies(s: State, ts: seq<Fate>, t: Tid)
    requires Tallies(s, ts) && t < |s.pc| && s.pc[t].Recheck? && LocalOk(s.pc[t], t, ts)
    ensures Actual(s.pc[t], s.tail) <= s.pc[t].desired
    ensures Tallies(Step(s, Run(t)).0, Decided(ts, s.pc[t].my, s.pc[t].desired, Actual(s.pc[t], s.tail)))
  {
    hide WinsFit, WonCount, LostCount, Decided, ClaimsOwed, ReturnsOwed;
    var p := s.pc[t];
    DecisionFits(ts, s.tail, p, t);
    DecidedTotal(ts, p.my, p.desired, Actual(p, s.tail));
    OwedUpdate(s.pc, t, AfterRecheck(p.desired, s.tail - (p.my - p.over)));
    DecidedLength(ts, p.my, p.desired, Actual(p, s.tail));
  }

  lemma DecidedLength(ts: seq<Fate>, my: nat, desired: nat, actual: nat)
    ensures |Decided(ts, my, desired, actual)| == |ts|
  {
  }

  /** A consumer that neither held tickets nor draws any. */
  lemma HandsMove(pcs: seq<Pc>, ts: seq<Fate>, t: Tid, p': Pc)
    requires Hands(pcs, ts) && t < |pcs| && !pcs[t].Recheck? && !p'.Recheck? && LocalOk(p', t, ts)
    ensures Hands(pcs[t := p'], ts)
  {
    hide LocalOk;
  }

  lemma OtherLocal(s: State, ts: seq<Fate>, a: Action)
    requires Inv(s, ts) && Enabled(s, a) && !a.Publish?
    requires a.Run? ==> !s.pc[a.t].Take? && !s.pc[a.t].Recheck?
    ensures var p' := Step(s, a).0.pc[a.t];
            && Step(s, a).0.pc == s.pc[a.t := p'] && !s.pc[a.t].Recheck? && !p'.Recheck? && LocalOk(p', a.t, ts)
            && s.head + OwedClaim(s.pc[a.t]) == Step(s, a).0.head + OwedClaim(p')
            && s.over + OwedReturn(s.pc[a.t]) == Step(s, a).0.over + OwedReturn(p')
            && Step(s, a).0.opt == s.opt && Step(s, a).0.tail == s.tail
  {
    assert LocalOk(s.pc[a.t], a.t, ts);
    hide WinsFit, ClaimsOwed, WonCount;
  }

  lemma OtherStepsKeep(s: State, ts: seq<Fate>, a: Action)
    requires Inv(s, ts) && Enabled(s, a)
    requires a.Run? ==> !s.pc[a.t].Take? && !s.pc[a.t].Recheck?
    ensures Inv(Step(s, a).0, ts)
  {
    if a.Publish? {
      hide Hands, WonCount, LostCount, ClaimsOwed, ReturnsOwed;
    } else {
      hide Hands, LocalOk, Step, WonCount, LostCount, ClaimsOwed, ReturnsOwed, WinsFit, OwedClaim, OwedReturn;
      OtherLocal(s, ts, a);
      HandsMove(s.pc, ts, a.t, Step(s, a).0.pc[a.t]);
      OwedUpdate(s.pc, a.t, Step(s, a).0.pc[a.t]);
    }
  }

  lemma Preserved(s: State, ts: seq<Fate>, a: Action)
    requires Inv(s, ts) && Enabled(s, a)
    ensures Inv(Step(s, a).0, Follow(s, ts, a))
  {
    if a.Run? && s.pc[a.t].Take? { TakeKeeps(s, ts, a.t); }
    else if a.Run? && s.pc[a.t].Recheck? {
      assert LocalOk(s.pc[a.t], a.t, ts);
      RecheckTallies(s, ts, a.t);
      DecisionHands(s.pc, ts, a.t, Actual(s.pc[a.t], s.tail), Step(s, a).0.pc[a.t]);
    }
    else { OtherStepsKeep(s, ts, a); }
  }

  // ------------------------------------------------------------------ whole runs

  ghost predicate IsRun(run: seq<State>, steps: seq<Action>) {
    && |run| == |steps| + 1
    && Init(run[0])
    && (forall i :: 0 <= i < |steps| ==> Enabled(run[i], steps[i]) && run[i + 1] == Step(run[i], steps[i]).0)
  }

  lemma {:induction false} RunKeepsInv(run: seq<State>, steps: seq<Action>, k: nat) returns (ts: seq<Fate>)
    requires IsRun(run, steps) && k < |run|
    ensures Inv(run[k], ts)
  {
    if k == 0 {
      ts := [];
      NothingOwed(run[0].pc);
    } else {
      var before := RunKeepsInv(run, steps, k - 1);
      Preserved(run[k - 1], before, steps[k - 1]);
      ts := Follow(run[k - 1], before, steps[k - 1]);
    }
  }

  /** Every claimed index holds a published element: a claim never passes the
      tail.  Claims start where the previous one ended, so no index is claimed
      twice and none is skipped. */
  lemma ClaimsStayBelowTail(run: seq<State>, steps: seq<Action>, k: nat)
    requires IsRun(run, steps) && k < |steps|
    ensures match Step(run[k], steps[k]).1
            case Claimed(t, first, count) =>
              && first == run[k].head && run[k + 1].head == first + count
              && first + count <= run[k].tail
            case _ => run[k + 1].head == run[k].head
  {
    var ts := RunKeepsInv(run, steps, k);
    WinsBound(ts, run[k].tail);
    if steps[k].Run? { OwedUpdate(run[k].pc, steps[k].t, run[k].pc[steps[k].t]); }
  }

  /** The overcommit a consumer subtracts never exceeds its ticket. */
  lemma OvercommitBelowTicket(run: seq<State>, steps: seq<Action>, k: nat, t: Tid)
    requires IsRun(run, steps) && k < |run| && t < |run[k].pc| && run[k].pc[t].Recheck?
    ensures run[k].pc[t].over <= run[k].pc[t].my
  {
    var ts := RunKeepsInv(run, steps, k);
    assert LocalOk(run[k].pc[t], t, ts);
    CountsBound(ts[..run[k].pc[t].my]);
  }

  /** With no dequeue in flight the three counters agree and nothing is overdrawn. */
  lemma QuiescentCountersAgree(run: seq<State>, steps: seq<Action>, k: nat)
    requires IsRun(run, steps) && k < |run|
    requires forall t :: 0 <= t < |run[k].pc| ==> run[k].pc[t].Idle?
    ensures run[k].opt - run[k].over == run[k].head <= run[k].tail
  {
    var ts := RunKeepsInv(run, steps, k);
    NothingOwed(run[k].pc);
    CountsBound(ts);
    WinsBound(ts, run[k].tail);
    assert forall i :: 0 <= i < |ts| && ts[i].Drawn? ==> !Mine(run[k].pc[ts[i].t], i);
  }

  /** Only the producer and thread t make steps from step j to before step m. */
  ghost predicate OnlyProducerAnd(steps: seq<Action>, t: Tid, j: nat, m: nat) {
    forall i :: j <= i < m && i < |steps| ==> steps[i].Publish? || steps[i] == Run(t)
  }

  /** A call of t that began in s0 and meets only the producer; `seen` is the tail it read first. */
  ghost predicate Lone(s0: State, s: State, p: Pc, max: nat, seen: int) {
    && s.head == s0.head && s.over == s0.over && s0.tail <= seen <= s.tail
    && s.opt == s0.opt + (if p.Recheck? then p.desired else if p.Claim? then p.actual else 0)
    && match p
       case LoadTail(m) => m == max
       case LoadOver(m, tail) => m == max && tail == seen
       case LoadOpt(m, tail, over) => m == max && tail == seen && over == s.over
       case Take(desired, over) => over == s.over && seen > s.head && desired == Min(seen - s.head, max)
       case Recheck(my, desired, over) => my == s0.opt && over == s.over && seen > s.head && desired == Min(seen - s.head, max)
       case Claim(actual) => seen > s.head && actual == Min(seen - s.head, max)
       case _ => false
  }

  lemma LoneStep(s0: State, s: State, t: Tid, max: nat, seen: int, a: Action) returns (seen': int)
    requires t < |s.pc| && s0.opt - s0.over == s0.head && Lone(s0, s, s.pc[t], max, seen) && Enabled(s, a)
    requires (a.Publish? || a == Run(t)) && Step(s, a).1 == Silent
    ensures Lone(s0, Step(s, a).0, Step(s, a).0.pc[t], max, seen')
    ensures Step(s, a).0.pc[t].LoadTail? <==> s.pc[t].LoadTail? && a != Run(t)
    ensures if s.pc[t].LoadTail? then a == Run(t) ==> seen' == s.tail else seen' == seen
  {
    seen' := if s.pc[t].LoadTail? then Step(s, a).0.tail else seen;
  }

  lemma LoneStart(s: State, t: Tid, max: nat)
    requires Enabled(s, Call(t, max))
    ensures var s' := Step(s, Call(t, max)).0; s'.pc[t] == LoadTail(max) && Lone(s, s', s'.pc[t], max, s'.tail)
  {
  }

  /** Up to the end of the call; f is the step of its first access. */
  lemma {:induction false} LoneCall(run: seq<State>, steps: seq<Action>, k: nat, t: Tid, max: nat, f: nat, m: nat) returns (seen: int)
    requires IsRun(run, steps) && k < m <= |steps| && k < f < |steps| && t < |run[k].pc|
    requires run[k].pc[t].Idle? && run[k].opt - run[k].over == run[k].head
    requires steps[k] == Call(t, max) && OnlyProducerAnd(steps, t, k + 1, m)
    requires steps[f] == Run(t) && forall i :: k < i < f ==> steps[i] != Run(t)
    requires forall i :: k < i < m ==> Step(run[i], steps[i]).1 == Silent
    ensures t < |run[m].pc| && Lone(run[k], run[m], run[m].pc[t], max, seen)
    ensures if m <= f then run[m].pc[t].LoadTail? else !run[m].pc[t].LoadTail? && seen == run[f].tail
    decreases m
  {
    hide Step, Lone;
    if m == k + 1 {
      LoneStart(run[k], t, max);
      seen := run[m].tail;
    } else {
      var before := LoneCall(run, steps, k, t, max, f, m - 1);
      seen := LoneStep(run[k], run[m - 1], t, max, before, steps[m - 1]);
    }
  }

  /** From a state with no dequeue in flight, a dequeue that meets only the producer fails exactly
      when the queue was empty at its first look at the tail, and otherwise takes as many
      of the elements it saw as it may.  Elements published later do not matter. */
  lemma LoneDequeue(run: seq<State>, steps: seq<Action>, k: nat, t: Tid, max: nat, f: nat, m: nat)
    requires IsRun(run, steps) && k < f < m < |steps| && t < |run[k].pc|
    requires forall u :: 0 <= u < |run[k].pc| ==> run[k].pc[u].Idle?
    requires steps[k] == Call(t, max) && OnlyProducerAnd(steps, t, k + 1, m + 1)
    requires steps[f] == Run(t) && forall i :: k < i < f ==> steps[i] != Run(t)
    requires Step(run[m], steps[m]).1 != Silent && forall i :: k < i < m ==> Step(run[i], steps[i]).1 == Silent
    ensures run[k].head <= run[k].tail <= run[f].tail && run[m].head == run[k].head
    ensures Step(run[m], steps[m]).1 ==
            if run[f].tail == run[k].head then Failed(t) else Claimed(t, run[k].head, Min(run[f].tail - run[k].head, max))
  {
    QuiescentCountersAgree(run, steps, k);
    var seen := LoneCall(run, steps, k, t, max, f, m);
    LoneEnd(run[k], run[m], t, max, seen, steps[m]);
    hide Step, Lone;
  }

  lemma LoneEnd(s0: State, s: State, t: Tid, max: nat, seen: int, a: Action)
    requires t < |s.pc| && s0.opt - s0.over == s0.head && Lone(s0, s, s.pc[t], max, seen) && Enabled(s, a)
    requires (a.Publish? || a == Run(t)) && Step(s, a).1 != Silent && s0.head <= s0.tail
    ensures s.head == s0.head && s0.tail <= seen
    ensures Step(s, a).1 == if seen == s0.head then Failed(t) else Claimed(t, s0.head, Min(seen - s0.head, max))
  {
  }

  // -------------------------------------------------------- indices that wrap around

  const HALF_RANGE: int := 0x8000_0000_0000_0000

  function CircularLessThan(a: int, b: int): bool { Word(a - b) > HALF_RANGE }

  /** On the stored words, circular_less_than decides the order of two indices
      less than a full turn apart exactly when b is ahead by less than half the
      range or a by at most half. */
  lemma CircularOrderIsExact(a: int, b: int)
    requires b - a < RANGE && a - b < RANGE
    ensures (CircularLessThan(Word(a), Word(b)) <==> a < b) <==> -HALF_RANGE < a - b <= HALF_RANGE
  {
    hide Word;
    WordOfDifference(a, b);
    WordIs(a - b, if a >= b then 0 else -1);
  }
}
