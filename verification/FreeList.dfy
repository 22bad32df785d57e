/** The reference-counted CAS free list of the MPMC queue
    (concurrentqueue.h, struct FreeList), as a machine over atomic accesses.

    Any number of threads run `add` and `try_get` concurrently.  Every step of a
    thread performs exactly one access to shared memory; between two steps of
    one thread any number of steps of other threads may happen. */
module FreeList {
  import opened Common

  type Node = nat
  type Tid = nat

  datatype Ptr = Null | To(node: Node)

  const SHOULD_BE_ON_FREELIST: nat := 0x8000_0000

  /** The reference bits of a freeListRefs word (`refs & REFS_MASK`). */
  function RefBits(word: nat): nat { word % SHOULD_BE_ON_FREELIST }

  /** The new value of a 32-bit word after `fetch_add(delta)`. */
  function Add32(word: nat, delta: int): nat { (word + delta) % WORD }

  /** What follows `add_knowing_refcount_is_zero`: `add` returns, `try_get`
      goes on with the head it saw when its CAS failed. */
  datatype Continuation = Return | Retry(head: Ptr)

  /** Where a thread stands: the access it will perform next, with its locals. */
  datatype Pc =
    | Idle
    | AddFetch(n: Node)                                  // refs.fetch_add(SHOULD_BE_ON_FREELIST)
    | PubLoad(n: Node, k: Continuation)                  // head = freeListHead.load()
    | PubNext(n: Node, h: Ptr, k: Continuation)          // node->freeListNext.store(head)
    | PubRefs(n: Node, h: Ptr, k: Continuation)          // node->freeListRefs.store(1)
    | PubCas(n: Node, h: Ptr, k: Continuation)           // freeListHead.compare_exchange(head, node)
    | PubFail(n: Node, h: Ptr, k: Continuation)          // refs.fetch_add(SHOULD_BE_ON_FREELIST - 1)
    | GetLoad                                            // head = freeListHead.load()
    | GetRefs(n: Node)                                   // refs = head->freeListRefs.load()
    | GetInc(n: Node, r: nat)                            // refs.compare_exchange(r, r + 1)
    | GetNext(n: Node)                                   // next = head->freeListNext.load()
    | GetCas(n: Node, nx: Ptr)                           // freeListHead.compare_exchange(head, next)
    | GetAssert(n: Node)                                 // assert on head->freeListRefs.load()
    | GetDrop(n: Node)                                   // refs.fetch_add(-2), then return head
    | GetRelease(n: Node, h: Ptr)                        // refs.fetch_add(-1)

  /** Shared memory, the client's nodes, and the threads.  `owned` holds the
      nodes the client may pass to `add`.  `saw` is a history variable no step
      reads: whether the list was empty in some state since the thread's
      current call began. */
  datatype State = State(
    head: Ptr,
    refs: seq<nat>,
    next: seq<Ptr>,
    owned: set<Node>,
    pc: seq<Pc>,
    saw: seq<bool>)

  datatype Action = CallAdd(n: Node) | CallTryGet | Run

  /** What the client sees of a step: it hands in a node, receives one, or is
      told that the list is empty. */
  datatype Event = Silent | Gave(n: Node) | Took(n: Node) | FoundEmpty

  /** The one store of a step, if it stores. */
  datatype Write = NoWrite | Word(n: Node, v: nat) | Next(n: Node, p: Ptr) | Head(p: Ptr)

  datatype Effect = Effect(write: Write, pc: Pc, ev: Event)

  // ---------------------------------------------------------------- the machine

  function Target(pc: Pc): Ptr {
    if pc.Idle? || pc.GetLoad? then Null else To(pc.n)
  }

  predicate PtrOk(p: Ptr, nodes: nat) { p.To? ==> p.node < nodes }

  predicate ContOk(k: Continuation, nodes: nat) { k.Retry? ==> PtrOk(k.head, nodes) }

  predicate PcOk(pc: Pc, nodes: nat) {
    && PtrOk(Target(pc), nodes)
    && (pc.PubLoad? ==> ContOk(pc.k, nodes))
    && (pc.PubNext? || pc.PubRefs? || pc.PubCas? || pc.PubFail? ==> PtrOk(pc.h, nodes) && ContOk(pc.k, nodes))
    && (pc.GetCas? ==> PtrOk(pc.nx, nodes))
    && (pc.GetRelease? ==> PtrOk(pc.h, nodes))
  }

  predicate WellFormed(s: State) {
    && |s.next| == |s.refs|
    && |s.saw| == |s.pc|
    && PtrOk(s.head, |s.refs|)
    && (forall n :: n in s.owned ==> n < |s.refs|)
    && (forall i :: 0 <= i < |s.next| ==> PtrOk(s.next[i], |s.refs|))
    && (forall t :: 0 <= t < |s.pc| ==> PcOk(s.pc[t], |s.refs|))
  }

  /** The loop head of `try_get` with a freshly observed list head. */
  function LoopOn(h: Ptr): Pc { if h.Null? then Idle else GetRefs(h.node) }

  function Resume(k: Continuation): Pc { if k.Return? then Idle else LoopOn(k.head) }

  function EndOf(pc: Pc): Event { if pc.Idle? then FoundEmpty else Silent }

  function EndOfCont(k: Continuation): Event { if k.Return? then Silent else EndOf(Resume(k)) }

  predicate Enabled(s: State, t: Tid, a: Action) {
    && t < |s.pc|
    && match a
       case CallAdd(n) => s.pc[t].Idle? && n in s.owned
       case CallTryGet => s.pc[t].Idle?
       case Run => !s.pc[t].Idle?
  }

  function Watch(s: State, t: Tid): seq<bool>
    requires WellFormed(s) && t < |s.pc|
  {
    seq(|s.pc|, u requires 0 <= u < |s.pc| => s.head.Null? || (s.saw[u] && !(u == t && s.pc[u].Idle?)))
  }

  /** One atomic access of thread t, or the start of a call. */
  function Access(s: State, t: Tid, a: Action): (e: Effect)
    requires WellFormed(s) && Enabled(s, t, a)
    ensures PcOk(e.pc, |s.refs|)
    ensures match e.write
            case NoWrite => true
            case Word(n, _) => n < |s.refs|
            case Next(n, p) => n < |s.refs| && PtrOk(p, |s.refs|)
            case Head(p) => PtrOk(p, |s.refs|)
    ensures e.ev.Took? ==> e.ev.n < |s.refs|
  {
    match a
    case CallAdd(n) => Effect(NoWrite, AddFetch(n), Gave(n))
    case CallTryGet => Effect(NoWrite, GetLoad, Silent)
    case Run =>
      match s.pc[t]
      case AddFetch(n) =>
        Effect(Word(n, Add32(s.refs[n], SHOULD_BE_ON_FREELIST)), if s.refs[n] == 0 then PubLoad(n, Return) else Idle, Silent)
      case PubLoad(n, k) => Effect(NoWrite, PubNext(n, s.head, k), Silent)
      case PubNext(n, h, k) => Effect(Next(n, h), PubRefs(n, h, k), Silent)
      case PubRefs(n, h, k) => Effect(Word(n, 1), PubCas(n, h, k), Silent)
      case PubCas(n, h, k) =>
        if s.head == h then Effect(Head(To(n)), Resume(k), EndOfCont(k))
        else Effect(NoWrite, PubFail(n, s.head, k), Silent)
      case PubFail(n, h, k) =>
        var again := s.refs[n] == 1;
        Effect(Word(n, Add32(s.refs[n], SHOULD_BE_ON_FREELIST - 1)),
               if again then PubNext(n, h, k) else Resume(k), if again then Silent else EndOfCont(k))
      case GetLoad => Effect(NoWrite, LoopOn(s.head), EndOf(LoopOn(s.head)))
      case GetRefs(n) => Effect(NoWrite, if RefBits(s.refs[n]) == 0 then GetLoad else GetInc(n, s.refs[n]), Silent)
      case GetInc(n, r) =>
        if s.refs[n] == r then Effect(Word(n, Add32(r, 1)), GetNext(n), Silent) else Effect(NoWrite, GetLoad, Silent)
      case GetNext(n) => Effect(NoWrite, GetCas(n, s.next[n]), Silent)
      case GetCas(n, nx) =>
        if s.head == To(n) then Effect(Head(nx), GetAssert(n), Silent) else Effect(NoWrite, GetRelease(n, s.head), Silent)
      case GetAssert(n) => Effect(NoWrite, GetDrop(n), Silent)
      case GetDrop(n) => Effect(Word(n, Add32(s.refs[n], -2)), Idle, Took(n))
      case GetRelease(n, h) =>
        var last := s.refs[n] == SHOULD_BE_ON_FREELIST + 1;
        Effect(Word(n, Add32(s.refs[n], -1)),
               if last then PubLoad(n, Retry(h)) else LoopOn(h), if last then Silent else EndOf(LoopOn(h)))
  }

  function Step(s: State, t: Tid, a: Action): (s': State)
    requires WellFormed(s) && Enabled(s, t, a)
    ensures WellFormed(s')
  {
    var e := Access(s, t, a);
    State(
      if e.write.Head? then e.write.p else s.head,
      if e.write.Word? then s.refs[e.write.n := e.write.v] else s.refs,
      if e.write.Next? then s.next[e.write.n := e.write.p] else s.next,
      if e.ev.Gave? then s.owned - {e.ev.n} else if e.ev.Took? then s.owned + {e.ev.n} else s.owned,
      s.pc[t := e.pc],
      Watch(s, t))
  }

  predicate Init(s: State) {
    && WellFormed(s)
    && s.head.Null?
    && (forall n :: 0 <= n < |s.refs| ==> n in s.owned)
    && (forall n :: 0 <= n < |s.refs| ==> s.refs[n] == 0)
    && (forall t :: 0 <= t < |s.pc| ==> s.pc[t].Idle?)
    // every in-flight reference and the list's own fit in 31 bits
    && |s.pc| + 1 < SHOULD_BE_ON_FREELIST
  }

  // ------------------------------------------------------- in-flight references

  /** A thread between a successful reference increment and its decrement. */
  ghost function HeldNode(pc: Pc): Ptr {
    if pc.GetNext? || pc.GetCas? || pc.GetAssert? || pc.GetDrop? || pc.GetRelease? then To(pc.n) else Null
  }

  ghost predicate Holds(pc: Pc, n: Node) { HeldNode(pc) == To(n) }

  ghost function Held(pcs: seq<Pc>, n: Node): nat {
    if pcs == [] then 0 else Held(pcs[..|pcs| - 1], n) + (if Holds(pcs[|pcs| - 1], n) then 1 else 0)
  }

  lemma {:induction false} HeldUpdate(pcs: seq<Pc>, t: Tid, p: Pc, n: Node)
    requires t < |pcs|
    ensures Held(pcs[t := p], n) == Held(pcs, n) + (if Holds(p, n) then 1 else 0) - (if Holds(pcs[t], n) then 1 else 0)
  {
    var k := |pcs| - 1;
    if t < k {
      HeldUpdate(pcs[..k], t, p, n);
      assert pcs[t := p][..k] == pcs[..k][t := p];
    } else {
      assert pcs[t := p][..k] == pcs[..k];
    }
  }

  lemma {:induction false} HeldBound(pcs: seq<Pc>, n: Node)
    ensures Held(pcs, n) <= |pcs|
    ensures forall t :: 0 <= t < |pcs| && Holds(pcs[t], n) ==> Held(pcs, n) >= 1
    ensures (forall t :: 0 <= t < |pcs| ==> !Holds(pcs[t], n)) ==> Held(pcs, n) == 0
  {
    if pcs != [] {
      HeldBound(pcs[..|pcs| - 1], n);
    }
  }

  // ------------------------------------------------------------- the invariant

  /** Where a node is: with the client, with one thread, on the list, or flagged
      for re-adding by whichever thread drops its last reference. */
  datatype Place = Owned | With(t: Tid) | Listed | Pending

  datatype Aux = Aux(list: seq<Node>, place: seq<Place>)

  ghost predicate Adding(pc: Pc) {
    pc.AddFetch? || pc.PubLoad? || pc.PubNext? || pc.PubRefs? || pc.PubCas? || pc.PubFail?
  }

  /** The node a thread is adding, or has taken off the list and not yet returned. */
  ghost function ClaimedNode(pc: Pc): Ptr {
    if Adding(pc) || pc.GetAssert? || pc.GetDrop? then To(pc.n) else Null
  }

  ghost predicate Claims(pc: Pc, n: Node) { ClaimedNode(pc) == To(n) }

  /** The part of a node's word that is not in-flight references. */
  ghost function Extra(pc: Pc): nat {
    match pc
    case AddFetch(_) => 0
    case PubLoad(_, _) => SHOULD_BE_ON_FREELIST
    case PubNext(_, _, _) => SHOULD_BE_ON_FREELIST
    case PubRefs(_, _, _) => SHOULD_BE_ON_FREELIST
    case _ => 1
  }

  ghost function ExtraAt(s: State, g: Aux, n: Node): nat
    requires n < |g.place|
    requires g.place[n].With? ==> g.place[n].t < |s.pc|
  {
    match g.place[n]
    case Owned => 0
    case Listed => 1
    case Pending => SHOULD_BE_ON_FREELIST
    case With(t) => Extra(s.pc[t])
  }

  ghost function First(l: seq<Node>): Ptr { if l == [] then Null else To(l[0]) }

  /** The list reachable from head is exactly l. */
  ghost predicate Linked(head: Ptr, next: seq<Ptr>, l: seq<Node>) {
    && head == First(l)
    && Distinct(l)
    && (forall i :: 0 <= i < |l| ==> l[i] < |next| && next[l[i]] == First(l[i + 1..]))
  }

  ghost predicate PlacesOk(s: State, g: Aux) {
    && |g.place| == |s.refs|
    && (forall n :: 0 <= n < |g.place| ==> (g.place[n].Listed? <==> n in g.list))
    && (forall n :: 0 <= n < |g.place| ==> (g.place[n].Owned? <==> n in s.owned))
    && (forall n :: 0 <= n < |g.place| && g.place[n].With? ==> g.place[n].t < |s.pc| && Claims(s.pc[g.place[n].t], n))
    && (forall t, n :: 0 <= t < |s.pc| && 0 <= n < |g.place| && Claims(s.pc[t], n) ==> g.place[n] == With(t))
  }

  ghost predicate RefsOk(s: State, g: Aux)
    requires PlacesOk(s, g)
  {
    forall n :: 0 <= n < |s.refs| ==>
      && s.refs[n] == Held(s.pc, n) + ExtraAt(s, g, n)
      && (g.place[n].Pending? ==> Held(s.pc, n) >= 1)
      && (g.place[n].With? && Extra(s.pc[g.place[n].t]) == SHOULD_BE_ON_FREELIST ==> Held(s.pc, n) == 0)
  }

  /** What a thread remembers is still true: frozen next pointers, a non-zero
      observed reference count, and an emptiness it has yet to report. */
  ghost predicate LocalOk(s: State, t: Tid)
    requires WellFormed(s) && t < |s.pc|
  {
    match s.pc[t]
    case GetCas(n, nx) => s.next[n] == nx
    case GetInc(n, r) => RefBits(r) != 0
    case PubRefs(n, h, k) => s.next[n] == h && (k == Retry(Null) ==> s.saw[t])
    case PubCas(n, h, k) => s.next[n] == h && (k == Retry(Null) ==> s.saw[t])
    case PubLoad(n, k) => k == Retry(Null) ==> s.saw[t]
    case PubNext(n, h, k) => k == Retry(Null) ==> s.saw[t]
    case PubFail(n, h, k) => k == Retry(Null) ==> s.saw[t]
    case GetRelease(n, h) => h.Null? ==> s.saw[t]
    case _ => true
  }

  /** The accounting of nodes and references. */
  ghost predicate Books(s: State, g: Aux) {
    |s.pc| + 1 < SHOULD_BE_ON_FREELIST && PlacesOk(s, g) && RefsOk(s, g)
  }

  ghost predicate Inv(s: State, g: Aux) {
    && WellFormed(s)
    && Linked(s.head, s.next, g.list)
    && Books(s, g)
    && (forall t :: 0 <= t < |s.pc| ==> LocalOk(s, t))
  }

  /** How the auxiliary state follows a step. */
  ghost function Follow(s: State, g: Aux, t: Tid, a: Action): Aux
    requires Inv(s, g) && Enabled(s, t, a)
  {
    match a
    case CallAdd(n) => g.(place := g.place[n := With(t)])
    case CallTryGet => g
    case Run =>
      match s.pc[t]
      case AddFetch(n) => if s.refs[n] == 0 then g else g.(place := g.place[n := Pending])
      case PubCas(n, h, k) => if s.head == h then Aux([n] + g.list, g.place[n := Listed]) else g
      case PubFail(n, h, k) => if s.refs[n] == 1 then g else g.(place := g.place[n := Pending])
      case GetCas(n, nx) => if s.head == To(n) then Aux(g.list[1..], g.place[n := With(t)]) else g
      case GetDrop(n) => g.(place := g.place[n := Owned])
      case GetRelease(n, h) =>
        if s.refs[n] == SHOULD_BE_ON_FREELIST + 1 then g.(place := g.place[n := With(t)]) else g
      case _ => g
  }

  // ------------------------------------------------- every step keeps the invariant

  /** Thread t concerns itself with no node but n. */
  ghost predicate Only(pc: Pc, n: Node) {
    && (HeldNode(pc).Null? || Holds(pc, n))
    && (ClaimedNode(pc).Null? || Claims(pc, n))
  }

  /** From s to s' only thread t moves, and it touches only the word and the place of n. */
  ghost predicate Moves(s: State, g: Aux, s': State, g': Aux, t: Tid, n: Node) {
    && PlacesOk(s, g)
    && t < |s.pc| && n < |s.refs|
    && |s'.refs| == |s.refs| == |g'.place|
    && |s'.pc| == |s.pc| && s'.pc == s.pc[t := s'.pc[t]]
    && Only(s.pc[t], n) && Only(s'.pc[t], n)
    && s'.refs == s.refs[n := s'.refs[n]]
    && g'.place == g.place[n := g'.place[n]]
    && (forall m :: m != n ==> (m in g.list <==> m in g'.list) && (m in s.owned <==> m in s'.owned))
  }

  lemma PlacesMoved(s: State, g: Aux, s': State, g': Aux, t: Tid, n: Node)
    requires Moves(s, g, s', g', t, n)
    requires g'.place[n].Listed? <==> n in g'.list
    requires g'.place[n].Owned? <==> n in s'.owned
    // the place changes hands only from the mover or from nobody
    requires g'.place[n] == g.place[n] || !g.place[n].With? || g.place[n] == With(t)
    requires Claims(s'.pc[t], n) <==> g'.place[n] == With(t)
    requires g'.place[n].With? && g'.place[n] != With(t) ==> g'.place[n] == g.place[n]
    ensures PlacesOk(s', g')
  {
  }

  lemma RefsMoved(s: State, g: Aux, s': State, g': Aux, t: Tid, n: Node)
    requires Moves(s, g, s', g', t, n) && RefsOk(s, g) && PlacesOk(s', g')
    requires var h := Held(s.pc, n) + One(Holds(s'.pc[t], n)) - One(Holds(s.pc[t], n));
             && s'.refs[n] == h + ExtraAt(s', g', n)
             && (g'.place[n].Pending? ==> h >= 1)
             && (g'.place[n].With? && Extra(s'.pc[g'.place[n].t]) == SHOULD_BE_ON_FREELIST ==> h == 0)
    ensures RefsOk(s', g')
  {
    forall m | 0 <= m < |s'.refs|
      ensures s'.refs[m] == Held(s'.pc, m) + ExtraAt(s', g', m)
      ensures g'.place[m].Pending? ==> Held(s'.pc, m) >= 1
      ensures g'.place[m].With? && Extra(s'.pc[g'.place[m].t]) == SHOULD_BE_ON_FREELIST ==> Held(s'.pc, m) == 0
    {
      HeldUpdate(s.pc, t, s'.pc[t], m);
      if m != n && g.place[m].With? { assert g.place[m].t != t; }
    }
  }

  /** Steps that change no word, no place and no claim. */
  lemma QuietMove(s: State, g: Aux, s': State, t: Tid)
    requires Books(s, g) && t < |s.pc|
    requires s'.refs == s.refs && s'.owned == s.owned
    requires |s'.pc| == |s.pc| && s'.pc == s.pc[t := s'.pc[t]]
    requires HeldNode(s'.pc[t]) == HeldNode(s.pc[t]) && ClaimedNode(s'.pc[t]) == ClaimedNode(s.pc[t])
    requires ClaimedNode(s.pc[t]).To? ==> Extra(s'.pc[t]) == Extra(s.pc[t])
    ensures Books(s', g)
  {
    forall u, m | 0 <= u < |s'.pc| && 0 <= m < |g.place| && Claims(s'.pc[u], m) ensures g.place[m] == With(u) {
      assert Claims(s.pc[u], m);
    }
    forall m | 0 <= m < |s.refs| ensures Held(s'.pc, m) == Held(s.pc, m) && ExtraAt(s', g, m) == ExtraAt(s, g, m) {
      HeldUpdate(s.pc, t, s'.pc[t], m);
    }
  }

  /** Steps of thread t on node n: enough that the books balance for n. */
  lemma NodeMove(s: State, g: Aux, s': State, g': Aux, t: Tid, n: Node)
    requires Books(s, g) && Moves(s, g, s', g', t, n)
    requires (g'.place[n].Listed? <==> n in g'.list) && (g'.place[n].Owned? <==> n in s'.owned)
    requires g'.place[n] == g.place[n] || !g.place[n].With? || g.place[n] == With(t)
    requires Claims(s'.pc[t], n) <==> g'.place[n] == With(t)
    requires g'.place[n].With? && g'.place[n] != With(t) ==> g'.place[n] == g.place[n]
    requires Held(s.pc, n) <= |s.pc| && (Holds(s.pc[t], n) ==> Held(s.pc, n) >= 1) ==>
      var h := Held(s.pc, n) + One(Holds(s'.pc[t], n)) - One(Holds(s.pc[t], n));
      && s'.refs[n] == h + (match g'.place[n]
                            case Owned => 0
                            case Listed => 1
                            case Pending => SHOULD_BE_ON_FREELIST
                            case With(u) => Extra(s'.pc[u]))
      && (g'.place[n].Pending? ==> h >= 1)
      && (g'.place[n].With? && Extra(s'.pc[g'.place[n].t]) == SHOULD_BE_ON_FREELIST ==> h == 0)
    ensures Books(s', g')
  {
    HeldBound(s.pc, n);
    PlacesMoved(s, g, s', g', t, n);
    RefsMoved(s, g, s', g', t, n);
  }

  lemma CallAddOk(s: State, g: Aux, s': State, t: Tid, n: Node)
    requires Books(s, g) && t < |s.pc| && s.pc[t].Idle? && n in s.owned && n < |s.refs|
    requires s' == s.(owned := s.owned - {n}, pc := s.pc[t := AddFetch(n)], saw := s'.saw)
    ensures Books(s', g.(place := g.place[n := With(t)]))
  {
    NodeMove(s, g, s', g.(place := g.place[n := With(t)]), t, n);
  }

  /** Raising the flag: the thread goes on to publish, or leaves that to the last reference. */
  lemma FlagOk(s: State, g: Aux, s': State, t: Tid, n: Node, p: Pc, before: nat)
    requires Books(s, g) && t < |s.pc| && n < |s.refs|
    requires (s.pc[t].AddFetch? && before == 0) || (s.pc[t].PubFail? && before == 1)
    requires s.pc[t].n == n
    requires s' == s.(refs := s.refs[n := Add32(s.refs[n], SHOULD_BE_ON_FREELIST - before)], pc := s.pc[t := p], saw := s'.saw)
    requires if s.refs[n] == before then (p.PubLoad? || p.PubNext?) && p.n == n else p.Idle? || p.GetRefs?
    ensures Books(s', if s.refs[n] == before then g else g.(place := g.place[n := Pending]))
  {
    var g' := if s.refs[n] == before then g else g.(place := g.place[n := Pending]);
    assert Claims(s.pc[t], n) && g.place[n] == With(t);
    assert s.refs[n] == Held(s.pc, n) + before;
    NodeMove(s, g, s', g', t, n);
  }

  lemma PubRefsOk(s: State, g: Aux, s': State, t: Tid)
    requires Books(s, g) && t < |s.pc| && s.pc[t].PubRefs?
    requires s.pc[t].n < |s.refs|
    requires var p := s.pc[t];
             s' == s.(refs := s.refs[p.n := 1], pc := s.pc[t := PubCas(p.n, p.h, p.k)], saw := s'.saw)
    ensures Books(s', g)
  {
    var n := s.pc[t].n;
    assert Claims(s.pc[t], n) && g.place[n] == With(t);
    NodeMove(s, g, s', g, t, n);
  }

  lemma GetDropOk(s: State, g: Aux, s': State, t: Tid)
    requires Books(s, g) && t < |s.pc| && s.pc[t].GetDrop?
    requires s.pc[t].n < |s.refs|
    requires var n := s.pc[t].n;
             s' == s.(refs := s.refs[n := Add32(s.refs[n], -2)], owned := s.owned + {n}, pc := s.pc[t := Idle], saw := s'.saw)
    ensures Books(s', g.(place := g.place[s.pc[t].n := Owned]))
  {
    var n := s.pc[t].n;
    assert Claims(s.pc[t], n) && g.place[n] == With(t);
    NodeMove(s, g, s', g.(place := g.place[n := Owned]), t, n);
  }

  /** Dropping a reference on a node that was not ours to take. */
  lemma ReleaseOk(s: State, g: Aux, s': State, t: Tid, p: Pc)
    requires Books(s, g) && t < |s.pc| && s.pc[t].GetRelease?
    requires s.pc[t].n < |s.refs|
    requires var n := s.pc[t].n;
             && s' == s.(refs := s.refs[n := Add32(s.refs[n], -1)], pc := s.pc[t := p], saw := s'.saw)
             && if s.refs[n] == SHOULD_BE_ON_FREELIST + 1 then p.PubLoad? && p.n == n else p.Idle? || p.GetRefs?
    ensures var n := s.pc[t].n;
            Books(s', if s.refs[n] == SHOULD_BE_ON_FREELIST + 1 then g.(place := g.place[n := With(t)]) else g)
  {
    var n := s.pc[t].n;
    var g' := if s.refs[n] == SHOULD_BE_ON_FREELIST + 1 then g.(place := g.place[n := With(t)]) else g;
    HeldBound(s.pc, n);
    assert Holds(s.pc[t], n);
    assert s.refs[n] == Held(s.pc, n) + ExtraAt(s, g, n);
    NodeMove(s, g, s', g', t, n);
  }

  lemma IncrementOk(s: State, g: Aux, s': State, t: Tid)
    requires Books(s, g) && t < |s.pc| && s.pc[t].GetInc?
    requires s.pc[t].n < |s.refs| && RefBits(s.refs[s.pc[t].n]) != 0
    requires var n := s.pc[t].n;
             s' == s.(refs := s.refs[n := Add32(s.refs[n], 1)], pc := s.pc[t := GetNext(n)], saw := s'.saw)
    ensures Books(s', g)
  {
    var n := s.pc[t].n;
    HeldBound(s.pc, n);
    assert s.refs[n] == Held(s.pc, n) + ExtraAt(s, g, n);
    NodeMove(s, g, s', g, t, n);
  }

  lemma PushOk(s: State, g: Aux, s': State, t: Tid, p: Pc)
    requires Books(s, g) && t < |s.pc| && s.pc[t].PubCas? && s.pc[t].n < |s.refs|
    requires s' == s.(head := To(s.pc[t].n), pc := s.pc[t := p], saw := s'.saw) && (p.Idle? || p.GetRefs?)
    ensures Books(s', Aux([s.pc[t].n] + g.list, g.place[s.pc[t].n := Listed]))
  {
    var n := s.pc[t].n;
    assert Claims(s.pc[t], n) && g.place[n] == With(t);
    NodeMove(s, g, s', Aux([n] + g.list, g.place[n := Listed]), t, n);
  }

  lemma PopOk(s: State, g: Aux, s': State, t: Tid)
    requires Books(s, g) && t < |s.pc| && s.pc[t].GetCas? && s.pc[t].n < |s.refs|
    requires g.list != [] && g.list[0] == s.pc[t].n && Distinct(g.list)
    requires s' == s.(head := s'.head, pc := s.pc[t := GetAssert(s.pc[t].n)], saw := s'.saw)
    ensures Books(s', Aux(g.list[1..], g.place[s.pc[t].n := With(t)]))
  {
    var n := s.pc[t].n;
    assert g.place[n].Listed?;
    assert forall m :: m in g.list <==> m == n || m in g.list[1..];
    NodeMove(s, g, s', Aux(g.list[1..], g.place[n := With(t)]), t, n);
  }

  lemma BooksPreserved(s: State, g: Aux, t: Tid, a: Action)
    requires Inv(s, g) && Enabled(s, t, a)
    ensures Books(Step(s, t, a), Follow(s, g, t, a))
  {
    var s' := Step(s, t, a);
    match a {
      case CallAdd(n) => CallAddOk(s, g, s', t, n);
      case CallTryGet => QuietMove(s, g, s', t);
      case Run =>
        if Adding(s.pc[t]) { AddBooks(s, g, t); } else { GetBooks(s, g, t); }
    }
  }

  lemma AddBooks(s: State, g: Aux, t: Tid)
    requires Inv(s, g) && t < |s.pc| && Adding(s.pc[t])
    ensures Books(Step(s, t, Run), Follow(s, g, t, Run))
  {
    hide Books;
    var s' := Step(s, t, Run);
    var p := Access(s, t, Run).pc;
    match s.pc[t] {
      case AddFetch(n) => FlagOk(s, g, s', t, n, p, 0);
      case PubFail(n, h, k) => FlagOk(s, g, s', t, n, p, 1);
      case PubRefs(n, h, k) => PubRefsOk(s, g, s', t);
      case PubCas(n, h, k) => if s.head == h { PushOk(s, g, s', t, p); } else { QuietMove(s, g, s', t); }
      case _ => QuietMove(s, g, s', t);
    }
  }

  lemma GetBooks(s: State, g: Aux, t: Tid)
    requires Inv(s, g) && t < |s.pc| && !Adding(s.pc[t]) && !s.pc[t].Idle?
    ensures Books(Step(s, t, Run), Follow(s, g, t, Run))
  {
    var s' := Step(s, t, Run);
    var p := Access(s, t, Run).pc;
    assert LocalOk(s, t);
    match s.pc[t] {
      case GetDrop(n) => GetDropOk(s, g, s', t);
      case GetRelease(n, h) => ReleaseOk(s, g, s', t, p);
      case GetInc(n, r) => if s.refs[n] == r { IncrementOk(s, g, s', t); } else { QuietMove(s, g, s', t); }
      case GetCas(n, nx) => if s.head == To(n) { PopOk(s, g, s', t); } else { QuietMove(s, g, s', t); }
      case _ => QuietMove(s, g, s', t);
    }
  }

  lemma StoreLinked(head: Ptr, next: seq<Ptr>, l: seq<Node>, n: Node, p: Ptr)
    requires Linked(head, next, l) && n !in l && n < |next|
    ensures Linked(head, next[n := p], l)
  {
  }

  lemma PushLinked(head: Ptr, next: seq<Ptr>, l: seq<Node>, n: Node)
    requires Linked(head, next, l) && n !in l && n < |next| && next[n] == head
    ensures Linked(To(n), next, [n] + l)
  {
  }

  lemma PopLinked(head: Ptr, next: seq<Ptr>, l: seq<Node>)
    requires Linked(head, next, l) && head.To?
    ensures Linked(next[head.node], next, l[1..])
  {
  }

  lemma AddLinked(s: State, g: Aux, t: Tid)
    requires Inv(s, g) && t < |s.pc| && Adding(s.pc[t])
    ensures var s' := Step(s, t, Run); Linked(s'.head, s'.next, Follow(s, g, t, Run).list)
  {
    var n := s.pc[t].n;
    assert LocalOk(s, t);
    assert Claims(s.pc[t], n) && n !in g.list;
    if s.pc[t].PubNext? {
      StoreLinked(s.head, s.next, g.list, n, s.pc[t].h);
    } else if s.pc[t].PubCas? && s.head == s.pc[t].h {
      PushLinked(s.head, s.next, g.list, n);
    }
  }

  lemma LinkedPreserved(s: State, g: Aux, t: Tid, a: Action)
    requires Inv(s, g) && Enabled(s, t, a)
    ensures var s' := Step(s, t, a); Linked(s'.head, s'.next, Follow(s, g, t, a).list)
  {
    if a.Run? && Adding(s.pc[t]) {
      AddLinked(s, g, t);
    } else if a.Run? && s.pc[t].GetCas? && s.head == To(s.pc[t].n) {
      assert LocalOk(s, t);
      PopLinked(s.head, s.next, g.list);
    }
  }

  /** Nobody else depends on the next pointer a thread is about to store: a held
      reference freezes it, and a node is being added by one thread only. */
  lemma NextFrozen(s: State, g: Aux, t: Tid, u: Tid)
    requires Books(s, g) && t < |s.pc| && u < |s.pc| && t != u
    requires s.pc[t].PubNext? && s.pc[t].n < |s.refs|
    requires s.pc[u].GetCas? || s.pc[u].PubRefs? || s.pc[u].PubCas?
    ensures s.pc[u].n != s.pc[t].n
  {
    var n := s.pc[t].n;
    assert Claims(s.pc[t], n) && g.place[n] == With(t);
    if s.pc[u].GetCas? {
      HeldBound(s.pc, n);
      assert Held(s.pc, n) == 0;
    } else {
      assert Claims(s.pc[u], s.pc[u].n);
    }
  }

  lemma OthersKeepLocals(s: State, g: Aux, t: Tid, a: Action, u: Tid)
    requires Inv(s, g) && Enabled(s, t, a) && u < |s.pc| && u != t
    ensures LocalOk(Step(s, t, a), u)
  {
    assert LocalOk(s, u);
    var e := Access(s, t, a);
    assert e.write.Next? ==> a.Run? && s.pc[t].PubNext? && e.write.n == s.pc[t].n;
    if e.write.Next? && (s.pc[u].GetCas? || s.pc[u].PubRefs? || s.pc[u].PubCas?) {
      NextFrozen(s, g, t, u);
    }
  }

  lemma OwnLocals(s: State, g: Aux, t: Tid, a: Action)
    requires Inv(s, g) && Enabled(s, t, a)
    ensures LocalOk(Step(s, t, a), t)
  {
    assert LocalOk(s, t);
  }

  lemma Preserved(s: State, g: Aux, t: Tid, a: Action)
    requires Inv(s, g) && Enabled(s, t, a)
    ensures Inv(Step(s, t, a), Follow(s, g, t, a))
  {
    BooksPreserved(s, g, t, a);
    LinkedPreserved(s, g, t, a);
    OwnLocals(s, g, t, a);
    forall u | 0 <= u < |s.pc| && u != t ensures LocalOk(Step(s, t, a), u) { OthersKeepLocals(s, g, t, a, u); }
  }

  // ------------------------------------------------------------------ whole runs

  /** run[i + 1] results from run[i] by the i-th scheduled step. */
  ghost predicate IsRun(run: seq<State>, steps: seq<(Tid, Action)>) {
    && |run| == |steps| + 1
    && Init(run[0])
    && (forall i :: 0 <= i < |steps| ==>
          && WellFormed(run[i])
          && Enabled(run[i], steps[i].0, steps[i].1)
          && run[i + 1] == Step(run[i], steps[i].0, steps[i].1))
  }

  lemma {:induction false} RunKeepsInv(run: seq<State>, steps: seq<(Tid, Action)>, k: nat) returns (g: Aux)
    requires IsRun(run, steps) && k < |run|
    ensures Inv(run[k], g)
  {
    if k == 0 {
      g := Aux([], seq(|run[0].refs|, _ => Owned));
      forall n ensures Held(run[0].pc, n) == 0 { HeldBound(run[0].pc, n); }
    } else {
      var h := RunKeepsInv(run, steps, k - 1);
      Preserved(run[k - 1], h, steps[k - 1].0, steps[k - 1].1);
      g := Follow(run[k - 1], h, steps[k - 1].0, steps[k - 1].1);
    }
  }

  /** A node flagged for re-adding that nobody is adding yet. */
  ghost predicate Flagged(s: State, n: Node) requires n < |s.refs| {
    s.refs[n] >= SHOULD_BE_ON_FREELIST && forall t :: 0 <= t < |s.pc| ==> !Claims(s.pc[t], n)
  }

  /** Every node has exactly one home: the client, the list l, one thread, or the flag. */
  ghost predicate OneHome(s: State, l: seq<Node>, n: Node) requires n < |s.refs| {
    && (n in s.owned ==> n !in l && !Flagged(s, n))
    && (n in l ==> !Flagged(s, n))
    && (forall t :: 0 <= t < |s.pc| && Claims(s.pc[t], n) ==>
          n !in s.owned && n !in l && forall u :: 0 <= u < |s.pc| && Claims(s.pc[u], n) ==> u == t)
    && (n in s.owned || n in l || Flagged(s, n) || exists t :: 0 <= t < |s.pc| && Claims(s.pc[t], n))
  }

  /** In every state of every run, every node has exactly one home, the list is
      acyclic, and the reference bits count the list's reference and the
      references in flight, no more and no less. */
  lemma EveryNodeHasOneHome(run: seq<State>, steps: seq<(Tid, Action)>, k: nat) returns (l: seq<Node>)
    requires IsRun(run, steps) && k < |run|
    ensures Linked(run[k].head, run[k].next, l)
    ensures forall n :: 0 <= n < |run[k].refs| ==> OneHome(run[k], l, n)
    ensures forall n :: n in l ==> n < |run[k].refs| && run[k].refs[n] == 1 + Held(run[k].pc, n)
    ensures forall n :: n in run[k].owned ==> n < |run[k].refs| && run[k].refs[n] == Held(run[k].pc, n)
    ensures forall n :: 0 <= n < |run[k].refs| && Flagged(run[k], n) ==>
              run[k].refs[n] == SHOULD_BE_ON_FREELIST + Held(run[k].pc, n) && Held(run[k].pc, n) >= 1
  {
    var g := RunKeepsInv(run, steps, k);
    l := g.list;
    var s := run[k];
    forall n ensures Held(s.pc, n) <= |s.pc| { HeldBound(s.pc, n); }
    forall n | 0 <= n < |s.refs| ensures OneHome(s, l, n) {
      assert s.refs[n] == Held(s.pc, n) + ExtraAt(s, g, n);
    }
  }

  /** The assertion after a successful pop never fires: the flag is clear. */
  lemma TakenNodeIsNotFlagged(run: seq<State>, steps: seq<(Tid, Action)>, k: nat, t: Tid)
    requires IsRun(run, steps) && k < |run| && t < |run[k].pc| && run[k].pc[t].GetAssert?
    ensures run[k].pc[t].n < |run[k].refs| && run[k].refs[run[k].pc[t].n] < SHOULD_BE_ON_FREELIST
  {
    var g := RunKeepsInv(run, steps, k);
    var n := run[k].pc[t].n;
    HeldBound(run[k].pc, n);
    assert PcOk(run[k].pc[t], |run[k].refs|);
    assert Claims(run[k].pc[t], n) && g.place[n] == With(t);
  }

  /** try_get never hands out a node somebody already has. */
  lemma NoDoubleHandOut(run: seq<State>, steps: seq<(Tid, Action)>, k: nat)
    requires IsRun(run, steps) && k < |steps|
    requires Access(run[k], steps[k].0, steps[k].1).ev.Took?
    ensures var n := Access(run[k], steps[k].0, steps[k].1).ev.n;
            && n !in run[k].owned
            && forall u :: 0 <= u < |run[k].pc| && u != steps[k].0 ==> !Claims(run[k].pc[u], n)
  {
    var g := RunKeepsInv(run, steps, k);
    var t := steps[k].0;
    assert PcOk(run[k].pc[t], |run[k].refs|);
    assert Claims(run[k].pc[t], run[k].pc[t].n);
  }

  /** Nothing is lost: when no call is in progress, every node is with the
      client or on the list, and its word says which. */
  lemma QuiescentListIsComplete(run: seq<State>, steps: seq<(Tid, Action)>, k: nat) returns (l: seq<Node>)
    requires IsRun(run, steps) && k < |run|
    requires forall t :: 0 <= t < |run[k].pc| ==> run[k].pc[t].Idle?
    ensures Linked(run[k].head, run[k].next, l)
    ensures forall n :: 0 <= n < |run[k].refs| ==>
              (n in l <==> n !in run[k].owned) && run[k].refs[n] == (if n in l then 1 else 0)
  {
    var g := RunKeepsInv(run, steps, k);
    l := g.list;
    forall n ensures Held(run[k].pc, n) == 0 { HeldBound(run[k].pc, n); }
  }

  /** The history variable means what it says. */
  lemma {:induction false} SawMeansEmpty(run: seq<State>, steps: seq<(Tid, Action)>, k: nat, t: Tid) returns (j: nat)
    requires IsRun(run, steps) && k < |steps| && t < |run[k].pc| && |run[k + 1].saw| > t
    requires run[k + 1].saw[t] && !run[k].pc[t].Idle?
    ensures j <= k && run[j].head.Null?
    ensures forall i :: j < i <= k ==> t < |run[i].pc| && !run[i].pc[t].Idle?
  {
    if run[k].head.Null? {
      j := k;
    } else {
      assert k > 0;
      assert run[k] == Step(run[k - 1], steps[k - 1].0, steps[k - 1].1);
      j := SawMeansEmpty(run, steps, k - 1, t);
    }
  }

  /** try_get returns null only if the list was empty at some moment of that call. */
  lemma NullOnlyWhenEmpty(run: seq<State>, steps: seq<(Tid, Action)>, k: nat) returns (j: nat)
    requires IsRun(run, steps) && k < |steps|
    requires Access(run[k], steps[k].0, steps[k].1).ev.FoundEmpty?
    ensures j <= k && run[j].head.Null?
    ensures forall i :: j < i <= k ==> steps[k].0 < |run[i].pc| && !run[i].pc[steps[k].0].Idle?
  {
    var g := RunKeepsInv(run, steps, k);
    assert LocalOk(run[k], steps[k].0);
    assert run[k + 1].saw[steps[k].0];
    j := SawMeansEmpty(run, steps, k, steps[k].0);
  }
}
