/** The configuration parser of RUDE (rude/parse.c), after the lines are split into
    their fields, and open_sockets (rude/main.c). */
module Parser {
  import opened Common
  import opened Rude
  import opened FlowControl

  const PMINSIZE := 20
  const PMAXSIZE := 32768

  /** What follows the command: a flow type and its arguments.  CBR and CONSTANT are
      the same type; `nums` is missing when there are not two numbers. */
  datatype Args = CbrArgs(nums: Option<(int, int)>) | TraceArgs(list: seq<(nat, Time)>) | NoType

  /** START gives the start of the test when its arguments are in order; the time of
      a command is in milliseconds after that. */
  datatype Line =
    | Comment
    | Start(at: Option<Time>)
    | Tos(id: int, tos: int)
    | On(time: int, id: int, sport: nat, dstOk: bool, args: Args)
    | Off(time: int, id: int)
    | Modify(time: int, id: int, args: Args)
    | Bad

  /** The clock is past 1970. */
  predicate ClockOk(t: Time) { t.sec > 0 && TimeOk(t) }

  function At(start: Time, ms: nat): (t: Time)
    ensures ClockOk(start) ==> ClockOk(t)
  {
    Plus(Time(ms / 1000, (ms % 1000) * 1000), start)
  }

  predicate Unset(t: Time) { t.sec == 0 && t.usec == 0 }

  predicate SizeOk(psize: int) { PMINSIZE <= psize <= PMAXSIZE }

  /** The block kind that well-formed arguments describe.  The rate is read as a long and
      stored as an int. */
  function KindOf(args: Args): (k: Option<Kind>)
    ensures k.Some? ==> KindOk(k.value)
  {
    match args
    case CbrArgs(Some((rate, psize))) => if rate < 0 || !SizeOk(psize) then None else Some(Cbr(Int(rate), psize))
    case TraceArgs(list) =>
      if |list| > 0 && forall m :: 0 <= m < |list| ==> SizeOk(list[m].0) && list[m].1.sec >= 0 && TimeOk(list[m].1)
      then Some(Trace(list, 0)) else None
    case _ => None
  }

  predicate KindOk(k: Kind) {
    match k
    case Cbr(_, psize) => SizeOk(psize)
    case Trace(list, index) => index == 0 < |list| && forall m :: 0 <= m < |list| ==> TimeOk(list[m].1)
  }

  function NewBlock(id: int, start: Time, kind: Kind): Flow {
    Flow(Null, Null, 0, id, start, Time(0, 0), start, 0, 0, 0, kind)
  }

  // ------------------------------------------------------------- the lists while parsing

  ghost predicate BlockOk(f: Flow) {
    && Fresh(f) && f.nextTx == f.start && ClockOk(f.start) && KindOk(f.kind)
    && (Unset(f.stop) || ClockOk(f.stop))
  }

  /** Nothing has been sent or removed. */
  ghost predicate AtStart(g: Chart) {
    && |g.pos| == |g.chains| == |g.socks| && g.finished == []
    && forall i :: 0 <= i < |g.chains| ==> |g.chains[i]| > 0 && g.pos[i] == 0
  }

  ghost function Leader(g: Chart, i: nat): nat requires i < |g.chains| && |g.chains[i]| > 0 { g.chains[i][0] }

  ghost function LeaderAt(g: Chart, i: nat): Ptr requires AtStart(g) { if i < |g.chains| then To(Leader(g, i)) else Null }

  ghost predicate Links(flows: seq<Flow>, head: Ptr, g: Chart) requires AtStart(g) && Partition(g, |flows|) {
    head == LeaderAt(g, 0) && forall i: nat :: i < |g.chains| ==> flows[Leader(g, i)].next == LeaderAt(g, i + 1)
  }

  /** One id heads one entry of the list and runs through its chain. */
  ghost predicate Ids(flows: seq<Flow>, g: Chart) requires AtStart(g) && Partition(g, |flows|) {
    && (forall b :: 0 <= b < |flows| ==> flows[b].id == flows[Leader(g, g.home[b].0)].id)
    && (forall i: nat, j: nat :: i < j < |g.chains| ==> flows[Leader(g, i)].id != flows[Leader(g, j)].id)
  }

  ghost predicate NoSocks(g: Chart) { g.refused == multiset{} && forall i :: 0 <= i < |g.socks| ==> g.socks[i] == 0 }

  ghost predicate Parsed(flows: seq<Flow>, head: Ptr, g: Chart) {
    && AtStart(g) && Partition(g, |flows|) && Links(flows, head, g) && ModsOk(flows, g)
    && Ids(flows, g)
    && NoSocks(g)
    && forall b :: 0 <= b < |flows| ==> BlockOk(flows[b])
  }

  lemma PartitionAt(g: Chart, blocks: nat, i: nat, k: nat)
    requires Partition(g, blocks) && i < |g.chains| && k < |g.chains[i]|
    ensures g.chains[i][k] < blocks == |g.home| && g.home[g.chains[i][k]] == (i, k)
  {
  }

  lemma HomeAt(g: Chart, blocks: nat, b: nat)
    requires Partition(g, blocks) && b < blocks
    ensures blocks == |g.home| && g.home[b].0 < |g.chains| && g.home[b].1 < |g.chains[g.home[b].0]| && g.chains[g.home[b].0][g.home[b].1] == b
  {
  }

  // -------------------------------------------------------------------- ON

  /** A new flow with the one block n. */
  ghost function AddFlow(g: Chart, n: nat): Chart {
    g.(chains := g.chains + [[n]], pos := g.pos + [0], home := g.home + [(|g.chains|, 0)], socks := g.socks + [0])
  }

  /** The memory after the new block is linked behind the last entry. */
  ghost function Linked(flows: seq<Flow>, g: Chart, f: Flow): seq<Flow> requires AtStart(g) && Partition(g, |flows|) {
    if g.chains == [] then flows + [f]
    else var last := Leader(g, |g.chains| - 1); flows[last := flows[last].(next := To(|flows|))] + [f]
  }

  lemma AddPartition(g: Chart, n: nat)
    requires AtStart(g) && Partition(g, n)
    ensures AtStart(AddFlow(g, n)) && Partition(AddFlow(g, n), n + 1) && (NoSocks(g) ==> NoSocks(AddFlow(g, n)))
  {
  }

  /** The chains with the new one. */
  lemma AddedAt(g: Chart, n: nat, i: nat)
    requires AtStart(g) && i <= |g.chains|
    ensures var g' := AddFlow(g, n);
            && AtStart(g') && |g'.chains| == |g.chains| + 1 && g'.chains[i] == (if i < |g.chains| then g.chains[i] else [n])
            && Leader(g', i) == (if i < |g.chains| then Leader(g, i) else n)
            && LeaderAt(g', i) == (if i < |g.chains| then LeaderAt(g, i) else To(n)) && LeaderAt(g', |g.chains| + 1) == Null
  {
  }

  /** Linking changes only `next`, and only of the last leader. */
  lemma LinkedAt(flows: seq<Flow>, g: Chart, f: Flow, b: nat)
    requires AtStart(g) && Partition(g, |flows|) && b < |flows|
    ensures |Linked(flows, g, f)| == |flows| + 1 && Linked(flows, g, f)[|flows|] == f
    ensures Linked(flows, g, f)[b] ==
            flows[b].(next := if g.chains != [] && b == Leader(g, |g.chains| - 1) then To(|flows|) else flows[b].next)
  {
  }

  lemma LinkedLength(flows: seq<Flow>, g: Chart, f: Flow)
    requires AtStart(g) && Partition(g, |flows|)
    ensures |Linked(flows, g, f)| == |flows| + 1 && Linked(flows, g, f)[|flows|] == f
  {
  }

  lemma AddLinkAt(flows: seq<Flow>, head: Ptr, g: Chart, f: Flow, i: nat)
    requires AtStart(g) && Partition(g, |flows|) && Links(flows, head, g) && f.next == Null && i <= |g.chains|
    ensures |Linked(flows, g, f)| == |flows| + 1 && AtStart(AddFlow(g, |flows|)) && |AddFlow(g, |flows|).chains| == |g.chains| + 1
    ensures var f', g' := Linked(flows, g, f), AddFlow(g, |flows|);
            Leader(g', i) < |flows| + 1 && f'[Leader(g', i)].next == LeaderAt(g', i + 1)
  {
    hide Partition, Linked, AddFlow, Leader, LeaderAt;
    LinkedLength(flows, g, f);
    AddedAt(g, |flows|, i);
    if i < |g.chains| {
      AddedAt(g, |flows|, i + 1);
      LeaderInside(g, |flows|, i);
      LeaderInside(g, |flows|, |g.chains| - 1);
      LastLeader(g, |flows|, i);
      LinkedAt(flows, g, f, Leader(g, i));
    }
  }

  lemma LeaderInside(g: Chart, blocks: nat, i: nat)
    requires AtStart(g) && Partition(g, blocks) && i < |g.chains|
    ensures Leader(g, i) < blocks && LeaderAt(g, i) == To(Leader(g, i))
  {
  }

  lemma LastLeader(g: Chart, blocks: nat, i: nat)
    requires AtStart(g) && Partition(g, blocks) && i < |g.chains|
    ensures Leader(g, i) == Leader(g, |g.chains| - 1) <==> i + 1 == |g.chains|
  {
    PartitionAt(g, blocks, i, 0);
    PartitionAt(g, blocks, |g.chains| - 1, 0);
  }

  lemma AddLinks(flows: seq<Flow>, head: Ptr, g: Chart, f: Flow)
    requires AtStart(g) && Partition(g, |flows|) && Links(flows, head, g) && f.next == Null
    ensures |Linked(flows, g, f)| == |flows| + 1 && AtStart(AddFlow(g, |flows|)) && Partition(AddFlow(g, |flows|), |flows| + 1)
    ensures Links(Linked(flows, g, f), if g.chains == [] then To(|flows|) else head, AddFlow(g, |flows|))
  {
    hide Partition, Linked, AddFlow, Leader, LeaderAt, AtStart;
    var n, g', f' := |flows|, AddFlow(g, |flows|), Linked(flows, g, f);
    AddPartition(g, n);
    LinkedLength(flows, g, f);
    AddedAt(g, n, 0);
    forall i: nat | i < |g'.chains| ensures Leader(g', i) < |f'| && f'[Leader(g', i)].next == LeaderAt(g', i + 1) {
      AddLinkAt(flows, head, g, f, i);
    }
  }

  lemma AddMods(flows: seq<Flow>, g: Chart, f: Flow)
    requires AtStart(g) && Partition(g, |flows|) && ModsOk(flows, g) && f.mod == Null
    ensures |Linked(flows, g, f)| == |flows| + 1 && Partition(AddFlow(g, |flows|), |flows| + 1)
    ensures ModsOk(Linked(flows, g, f), AddFlow(g, |flows|))
  {
    var n, g', f' := |flows|, AddFlow(g, |flows|), Linked(flows, g, f);
    AddPartition(g, n);
    LinkedLength(flows, g, f);
    hide Linked;
    forall i, k | 0 <= i < |g'.chains| && 0 <= k < |g'.chains[i]| ensures f'[g'.chains[i][k]].mod == After(g'.chains[i], k) {
      if i < |g.chains| {
        PartitionAt(g, n, i, k);
        LinkedAt(flows, g, f, g.chains[i][k]);
        assert flows[g.chains[i][k]].mod == After(g.chains[i], k);
      }
    }
  }

  lemma AddIds(flows: seq<Flow>, g: Chart, f: Flow)
    requires AtStart(g) && Partition(g, |flows|) && Ids(flows, g)
    requires forall i: nat :: i < |g.chains| ==> flows[Leader(g, i)].id != f.id
    ensures |Linked(flows, g, f)| == |flows| + 1 && AtStart(AddFlow(g, |flows|)) && Partition(AddFlow(g, |flows|), |flows| + 1)
    ensures Ids(Linked(flows, g, f), AddFlow(g, |flows|))
  {
    hide Linked, Partition, Leader;
    var n, g', f' := |flows|, AddFlow(g, |flows|), Linked(flows, g, f);
    AddPartition(g, n);
    LinkedLength(flows, g, f);
    AddedAt(g, n, |g.chains|);
    forall i: nat | i < |g.chains| ensures Leader(g', i) == Leader(g, i) < n && f'[Leader(g', i)].id == flows[Leader(g, i)].id {
      AddedAt(g, n, i);
      LeaderInside(g, n, i);
      LinkedAt(flows, g, f, Leader(g, i));
    }
    forall b | 0 <= b < n + 1 ensures f'[b].id == f'[Leader(g', g'.home[b].0)].id {
      AddedHome(g, n, b);
      if b < n { LinkedAt(flows, g, f, b); }
    }
  }

  lemma AddedHome(g: Chart, n: nat, b: nat)
    requires Partition(g, n) && b <= n
    ensures n == |g.home| && AddFlow(g, n).home[b] == (if b < n then g.home[b] else (|g.chains|, 0)) && (b < n ==> g.home[b].0 < |g.chains|)
  {
  }

  lemma AddParsed(flows: seq<Flow>, head: Ptr, g: Chart, f: Flow)
    requires Parsed(flows, head, g) && BlockOk(f) && f.next == f.mod == Null
    requires forall i: nat :: i < |g.chains| ==> flows[Leader(g, i)].id != f.id
    ensures AtStart(g) && Partition(g, |flows|)
    ensures Parsed(Linked(flows, g, f), if g.chains == [] then To(|flows|) else head, AddFlow(g, |flows|))
  {
    var n, f' := |flows|, Linked(flows, g, f);
    hide AtStart, Partition, Links, ModsOk, Ids, BlockOk, Linked, NoSocks, AddFlow;
    AddPartition(g, n);
    AddLinks(flows, head, g, f);
    AddMods(flows, g, f);
    AddIds(flows, g, f);
    LinkedLength(flows, g, f);
    forall b | 0 <= b < n + 1 ensures BlockOk(f'[b]) {
      if b < n { LinkedAt(flows, g, f, b); SameBlock(flows[b], f'[b]); }
    }
  }

  lemma SameBlock(f: Flow, f': Flow)
    requires BlockOk(f) && f' == f.(next := f'.next, mod := f'.mod)
    ensures BlockOk(f')
  {
  }

  // ------------------------------------------------------------------- OFF

  ghost function Tail(g: Chart, i: nat): nat requires i < |g.chains| && |g.chains[i]| > 0 { g.chains[i][|g.chains[i]| - 1] }

  lemma StopParsed(flows: seq<Flow>, head: Ptr, g: Chart, i: nat, t: Time)
    requires Parsed(flows, head, g) && i < |g.chains|
    requires |g.chains[i]| > 0 && Tail(g, i) < |flows| && ClockOk(t)
    ensures var b := Tail(g, i); Parsed(flows[b := flows[b].(stop := t)], head, g)
  {
    hide Partition;
    var b := Tail(g, i);
    var f' := flows[b := flows[b].(stop := t)];
    SameLinks(flows, f', head, g);
    hide AtStart, Links, ModsOk, Ids;
  }

  lemma SameLinks(flows: seq<Flow>, f': seq<Flow>, head: Ptr, g: Chart)
    requires AtStart(g) && Partition(g, |flows|) && Links(flows, head, g) && ModsOk(flows, g) && Ids(flows, g) && |f'| == |flows|
    requires forall b :: 0 <= b < |flows| ==> f'[b].next == flows[b].next && f'[b].mod == flows[b].mod && f'[b].id == flows[b].id
    ensures Links(f', head, g) && ModsOk(f', g) && Ids(f', g)
  {
    forall b | 0 <= b < |flows| ensures f'[b].id == f'[Leader(g, g.home[b].0)].id {
      HomeAt(g, |flows|, b);
      PartitionAt(g, |flows|, g.home[b].0, 0);
    }
  }

  // ---------------------------------------------------------------- MODIFY

  /** Flow i gets the block n at its end. */
  ghost function Extend(g: Chart, i: nat, n: nat): Chart requires i < |g.chains| {
    g.(chains := g.chains[i := g.chains[i] + [n]], home := g.home + [(i, |g.chains[i]|)])
  }

  ghost function Hung(flows: seq<Flow>, b: nat, f: Flow): seq<Flow> requires b < |flows| {
    flows[b := flows[b].(mod := To(|flows|))] + [f]
  }

  /** Only `mod` of the block before changes. */
  lemma HungAt(flows: seq<Flow>, b: nat, f: Flow, c: nat)
    requires b < |flows| && c < |flows|
    ensures |Hung(flows, b, f)| == |flows| + 1 && Hung(flows, b, f)[|flows|] == f
    ensures Hung(flows, b, f)[c] == flows[c].(mod := if c == b then To(|flows|) else flows[c].mod)
  {
  }

  lemma ExtendPartition(g: Chart, i: nat, n: nat)
    requires AtStart(g) && Partition(g, n) && i < |g.chains|
    ensures AtStart(Extend(g, i, n)) && Partition(Extend(g, i, n), n + 1) && NoSocks(g) == NoSocks(Extend(g, i, n))
    ensures forall j: nat :: j < |g.chains| ==> Leader(Extend(g, i, n), j) == Leader(g, j) < n
    ensures Tail(g, i) < n
  {
    var g' := Extend(g, i, n);
    forall b | 0 <= b < n + 1
      ensures g'.home[b].0 < |g'.chains| && g'.home[b].1 < |g'.chains[g'.home[b].0]| && g'.chains[g'.home[b].0][g'.home[b].1] == b
    {
      if b < n { HomeAt(g, n, b); }
    }
    forall j, k | 0 <= j < |g'.chains| && 0 <= k < |g'.chains[j]| ensures g'.chains[j][k] < n + 1 && g'.home[g'.chains[j][k]] == (j, k) {
      if k < |g.chains[j]| { PartitionAt(g, n, j, k); }
    }
    forall j: nat | j < |g.chains| ensures Leader(Extend(g, i, n), j) == Leader(g, j) < n { PartitionAt(g, n, j, 0); }
    PartitionAt(g, n, i, |g.chains[i]| - 1);
  }

  lemma ExtendLinks(flows: seq<Flow>, head: Ptr, g: Chart, i: nat, f: Flow)
    requires AtStart(g) && Partition(g, |flows|) && Links(flows, head, g) && i < |g.chains|
    ensures Tail(g, i) < |flows| && AtStart(Extend(g, i, |flows|)) && Partition(Extend(g, i, |flows|), |flows| + 1)
    ensures Links(Hung(flows, Tail(g, i), f), head, Extend(g, i, |flows|))
  {
    var n, g', f' := |flows|, Extend(g, i, |flows|), Hung(flows, Tail(g, i), f);
    hide Partition, Leader, Hung, AtStart;
    ExtendPartition(g, i, n);
    HungAt(flows, Tail(g, i), f, Tail(g, i));
    assert |g'.chains| == |g.chains|;
    hide Extend;
    forall j: nat | j < |g.chains| ensures f'[Leader(g', j)].next == LeaderAt(g', j + 1) { HungAt(flows, Tail(g, i), f, Leader(g, j)); }
  }

  lemma ExtendMods(flows: seq<Flow>, g: Chart, i: nat, f: Flow)
    requires AtStart(g) && Partition(g, |flows|) && ModsOk(flows, g) && i < |g.chains| && f.mod == Null
    ensures Tail(g, i) < |flows| && Partition(Extend(g, i, |flows|), |flows| + 1)
    ensures ModsOk(Hung(flows, Tail(g, i), f), Extend(g, i, |flows|))
  {
    var n, g', f' := |flows|, Extend(g, i, |flows|), Hung(flows, Tail(g, i), f);
    ExtendPartition(g, i, n);
    hide Hung, Partition;
    HungAt(flows, Tail(g, i), f, Tail(g, i));
    PartitionAt(g, n, i, |g.chains[i]| - 1);
    forall j, k | 0 <= j < |g'.chains| && 0 <= k < |g'.chains[j]| ensures f'[g'.chains[j][k]].mod == After(g'.chains[j], k) {
      if k < |g.chains[j]| {
        PartitionAt(g, n, j, k);
        HungAt(flows, Tail(g, i), f, g.chains[j][k]);
        assert flows[g.chains[j][k]].mod == After(g.chains[j], k);
      }
    }
  }

  lemma ExtendIds(flows: seq<Flow>, g: Chart, i: nat, f: Flow)
    requires AtStart(g) && Partition(g, |flows|) && Ids(flows, g) && i < |g.chains| && Tail(g, i) < |flows| && f.id == flows[Tail(g, i)].id
    ensures AtStart(Extend(g, i, |flows|)) && Partition(Extend(g, i, |flows|), |flows| + 1)
    ensures Ids(Hung(flows, Tail(g, i), f), Extend(g, i, |flows|))
  {
    var n, g', f' := |flows|, Extend(g, i, |flows|), Hung(flows, Tail(g, i), f);
    ExtendPartition(g, i, n);
    HungAt(flows, Tail(g, i), f, Tail(g, i));
    HomeAt(g, n, Tail(g, i));
    PartitionAt(g, n, i, |g.chains[i]| - 1);
    hide Hung, Leader;
    forall j: nat | j < |g.chains| ensures f'[Leader(g', j)].id == flows[Leader(g, j)].id { HungAt(flows, Tail(g, i), f, Leader(g, j)); }
    forall b | 0 <= b < n + 1 ensures f'[b].id == f'[Leader(g', g'.home[b].0)].id {
      if b < n { HomeAt(g, n, b); HungAt(flows, Tail(g, i), f, b); }
    }
    hide Partition, Extend;
  }

  lemma ExtendParsed(flows: seq<Flow>, head: Ptr, g: Chart, i: nat, f: Flow)
    requires Parsed(flows, head, g) && i < |g.chains| && |g.chains[i]| > 0 && Tail(g, i) < |flows|
    requires BlockOk(f) && f.mod == Null && f.id == flows[Tail(g, i)].id
    ensures Parsed(Hung(flows, Tail(g, i), f), head, Extend(g, i, |flows|))
  {
    hide AtStart, Partition, Links, ModsOk, Ids, BlockOk, Extend, Hung, Tail, Leader, NoSocks;
    ExtendPartition(g, i, |flows|);
    ExtendLinks(flows, head, g, i, f);
    ExtendMods(flows, g, i, f);
    ExtendIds(flows, g, i, f);
    HungAt(flows, Tail(g, i), f, Tail(g, i));
    HungBlocks(flows, Tail(g, i), f);
  }

  lemma HungBlocks(flows: seq<Flow>, b: nat, f: Flow)
    requires b < |flows| && BlockOk(f) && forall c :: 0 <= c < |flows| ==> BlockOk(flows[c])
    ensures forall c :: 0 <= c < |Hung(flows, b, f)| ==> BlockOk(Hung(flows, b, f)[c])
  {
    hide BlockOk;
    forall c | 0 <= c < |flows| + 1 ensures BlockOk(Hung(flows, b, f)[c]) {
      if c < |flows| { HungAt(flows, b, f, c); SameBlock(flows[c], Hung(flows, b, f)[c]); }
    }
  }

  // ------------------------------------------------------- what the lines describe

  /** The flows in the order of their ON commands, each with its time slots. */
  datatype Slot = Slot(start: Time, stop: Time, kind: Kind)
  datatype Course = Course(id: int, slots: seq<Slot>)

  /** A configuration and whether the line that led to it was accepted. */
  datatype Outcome = Outcome(plan: seq<Course>, ok: bool)

  /** The place of an id in the configuration, or its length. */
  function Place(plan: seq<Course>, id: int): (i: nat)
    ensures i <= |plan| && (i < |plan| ==> plan[i].id == id)
    ensures forall j :: 0 <= j < i ==> plan[j].id != id
  {
    if plan == [] then 0
    else if plan[0].id == id then 0
    else assert forall j :: 0 < j < |plan| ==> plan[j] == plan[1..][j - 1]; 1 + Place(plan[1..], id)
  }

  function PlanOn(plan: seq<Course>, id: int, sport: nat, dstOk: bool, at: Time, args: Args): Outcome {
    var kind := KindOf(args);
    if sport < 1024 || !dstOk || kind.None? then Outcome(plan, false)
    else Outcome(plan + [Course(id, [Slot(at, Time(0, 0), kind.value)])], true)
  }

  function PlanOff(plan: seq<Course>, i: nat, at: Time): Outcome {
    if i >= |plan| || plan[i].slots == [] then Outcome(plan, false)
    else
      var last := |plan[i].slots| - 1;
      var slot := plan[i].slots[last];
      if !Unset(slot.stop) then Outcome(plan, false)
      else
        var stop := if Before(at, slot.start) then slot.start else at;
        Outcome(plan[i := plan[i].(slots := plan[i].slots[last := slot.(stop := stop)])], stop == at)
  }

  function PlanModify(plan: seq<Course>, i: nat, at: Time, args: Args): Outcome {
    if i >= |plan| || args.NoType? then Outcome(plan, false)
    else
      var off := PlanOff(plan, i, at);
      var kind := KindOf(args);
      if !off.ok || args.TraceArgs? || kind.None? then Outcome(off.plan, false)
      else Outcome(off.plan[i := off.plan[i].(slots := off.plan[i].slots + [Slot(at, Time(0, 0), kind.value)])], true)
  }

  /** What read_cfg has gathered. */
  datatype Session = Session(plan: seq<Course>, start: Option<Time>, errors: nat, commands: nat)

  function Refuse(x: Session): Session { x.(errors := x.errors + 1) }

  function Take(x: Session, o: Outcome): Session {
    if o.ok then x.(plan := o.plan, commands := x.commands + 1) else x.(plan := o.plan, errors := x.errors + 1)
  }

  /** One line of the file. */
  function Step(x: Session, line: Line): Session {
    match line
    case Comment => x.(commands := x.commands + 1)
    case Start(at) => if x.start.Some? || at.None? then Refuse(x) else x.(start := at, commands := x.commands + 1)
    case Tos(id, tos) => if x.start.None? || Place(x.plan, id) == |x.plan| || !(0 <= tos <= 0xFF) then Refuse(x) else x
    case On(time, id, sport, dstOk, args) =>
      if x.start.None? || time < 0 || Place(x.plan, id) < |x.plan| then Refuse(x)
      else Take(x, PlanOn(x.plan, id, sport, dstOk, At(x.start.value, time), args))
    case Off(time, id) =>
      if x.start.None? || time < 0 then Refuse(x) else Take(x, PlanOff(x.plan, Place(x.plan, id), At(x.start.value, time)))
    case Modify(time, id, args) =>
      if x.start.None? || time < 0 then Refuse(x) else Take(x, PlanModify(x.plan, Place(x.plan, id), At(x.start.value, time), args))
    case Bad => Refuse(x)
  }

  function Steps(lines: seq<Line>): Session {
    if lines == [] then Session([], None, 0, 0) else Step(Steps(lines[..|lines| - 1]), lines[|lines| - 1])
  }

  /** Slots without an end, among the first k. */
  function Open(slots: seq<Slot>, k: nat): nat requires k <= |slots| {
    if k == 0 then 0 else Open(slots, k - 1) + if Unset(slots[k - 1].stop) then 1 else 0
  }

  function OpenIn(plan: seq<Course>, i: nat): nat requires i <= |plan| {
    if i == 0 then 0 else OpenIn(plan, i - 1) + Open(plan[i - 1].slots, |plan[i - 1].slots|)
  }

  /** The lists in memory hold this configuration. */
  ghost predicate Represents(plan: seq<Course>, flows: seq<Flow>, g: Chart) requires AtStart(g) && Partition(g, |flows|) {
    && |plan| == |g.chains|
    && (forall i: nat :: i < |plan| ==> plan[i].id == flows[Leader(g, i)].id && |plan[i].slots| == |g.chains[i]|)
    && (forall i: nat, k: nat :: i < |plan| && k < |g.chains[i]| ==> plan[i].slots[k] == SlotOf(flows[g.chains[i][k]]))
  }

  ghost function SlotOf(f: Flow): Slot { Slot(f.start, f.stop, f.kind) }

  lemma RepresentsAddAt(plan: seq<Course>, flows: seq<Flow>, g: Chart, f: Flow, i: nat, k: nat)
    requires AtStart(g) && Partition(g, |flows|) && Represents(plan, flows, g) && i <= |g.chains|
    ensures var f', g', plan' := Linked(flows, g, f), AddFlow(g, |flows|), plan + [Course(f.id, [SlotOf(f)])];
            && |f'| == |flows| + 1 && AtStart(g') && |g'.chains| == |plan'| == |g.chains| + 1
            && Leader(g', i) < |f'| && plan'[i].id == f'[Leader(g', i)].id && |plan'[i].slots| == |g'.chains[i]|
            && (k < |g'.chains[i]| ==> g'.chains[i][k] < |f'| && plan'[i].slots[k] == SlotOf(f'[g'.chains[i][k]]))
  {
    hide Linked, AddFlow, Partition;
    LinkedLength(flows, g, f);
    AddedAt(g, |flows|, i);
    if i < |g.chains| {
      PartitionAt(g, |flows|, i, 0);
      LinkedAt(flows, g, f, Leader(g, i));
      if k < |g.chains[i]| {
        PartitionAt(g, |flows|, i, k);
        LinkedAt(flows, g, f, g.chains[i][k]);
      }
    }
  }

  lemma RepresentsAdd(plan: seq<Course>, flows: seq<Flow>, g: Chart, f: Flow)
    requires AtStart(g) && Partition(g, |flows|) && Represents(plan, flows, g)
    ensures |Linked(flows, g, f)| == |flows| + 1 && AtStart(AddFlow(g, |flows|)) && Partition(AddFlow(g, |flows|), |flows| + 1)
    ensures Represents(plan + [Course(f.id, [SlotOf(f)])], Linked(flows, g, f), AddFlow(g, |flows|))
  {
    hide Linked, AddFlow, Partition, Leader, SlotOf, AtStart;
    var g', f', plan' := AddFlow(g, |flows|), Linked(flows, g, f), plan + [Course(f.id, [SlotOf(f)])];
    AddPartition(g, |flows|);
    LinkedLength(flows, g, f);
    AddedAt(g, |flows|, 0);
    forall i: nat | i < |plan'| ensures Leader(g', i) < |f'| && plan'[i].id == f'[Leader(g', i)].id && |plan'[i].slots| == |g'.chains[i]| {
      RepresentsAddAt(plan, flows, g, f, i, 0);
    }
    forall i: nat, k: nat | i < |plan'| && k < |g'.chains[i]|
      ensures k < |plan'[i].slots| && g'.chains[i][k] < |f'| && plan'[i].slots[k] == SlotOf(f'[g'.chains[i][k]])
    {
      RepresentsAddAt(plan, flows, g, f, i, k);
    }
  }

  lemma RepresentsStop(plan: seq<Course>, flows: seq<Flow>, g: Chart, i: nat, t: Time)
    requires AtStart(g) && Partition(g, |flows|) && Represents(plan, flows, g) && i < |g.chains| && Tail(g, i) < |flows|
    ensures |plan| == |g.chains| && |plan[i].slots| == |g.chains[i]| && plan[i].slots[|plan[i].slots| - 1] == SlotOf(flows[Tail(g, i)])
    ensures var b, last := Tail(g, i), |plan[i].slots| - 1;
            Represents(plan[i := plan[i].(slots := plan[i].slots[last := plan[i].slots[last].(stop := t)])], flows[b := flows[b].(stop := t)], g)
  {
    PartitionAt(g, |flows|, i, |g.chains[i]| - 1);
    forall j: nat, k: nat | j < |g.chains| && k < |g.chains[j]| ensures g.home[g.chains[j][k]] == (j, k) { PartitionAt(g, |flows|, j, k); }
    hide Partition;
  }

  lemma RepresentsExtend(plan: seq<Course>, flows: seq<Flow>, g: Chart, i: nat, f: Flow)
    requires AtStart(g) && Partition(g, |flows|) && Represents(plan, flows, g) && i < |g.chains| && Tail(g, i) < |flows|
    ensures AtStart(Extend(g, i, |flows|)) && Partition(Extend(g, i, |flows|), |flows| + 1) && |plan| == |g.chains|
    ensures Represents(plan[i := plan[i].(slots := plan[i].slots + [SlotOf(f)])], Hung(flows, Tail(g, i), f), Extend(g, i, |flows|))
  {
    var n, g', f', b := |flows|, Extend(g, i, |flows|), Hung(flows, Tail(g, i), f), Tail(g, i);
    ExtendPartition(g, i, n);
    HungAt(flows, b, f, b);
    hide Hung;
    forall j: nat, k: nat | j < |g.chains| && k < |g.chains[j]|
      ensures g.chains[j][k] < n && SlotOf(f'[g'.chains[j][k]]) == SlotOf(flows[g.chains[j][k]]) && f'[g'.chains[j][k]].id == flows[g.chains[j][k]].id
    {
      PartitionAt(g, n, j, k);
      HungAt(flows, b, f, g.chains[j][k]);
    }
    hide Partition;
  }

  // --------------------------------------------------- what every configuration satisfies

  predicate LineOk(line: Line) { line.Start? && line.at.Some? ==> ClockOk(line.at.value) }

  /** A slot does not end before it starts, and the next one starts when it ends. */
  ghost predicate SlotOk(slots: seq<Slot>, k: nat) requires k < |slots| {
    && ClockOk(slots[k].start)
    && (Unset(slots[k].stop) || !Before(slots[k].stop, slots[k].start))
    && (k + 1 < |slots| ==> !Unset(slots[k].stop) && slots[k].stop == slots[k + 1].start)
  }

  ghost predicate SlotsOk(slots: seq<Slot>) { |slots| > 0 && forall k: nat :: k < |slots| ==> SlotOk(slots, k) }

  ghost predicate Sound(plan: seq<Course>) {
    && (forall i :: 0 <= i < |plan| ==> SlotsOk(plan[i].slots))
    && (forall i, j :: 0 <= i < j < |plan| ==> plan[i].id != plan[j].id)
  }

  lemma OffSound(plan: seq<Course>, i: nat, at: Time)
    requires Sound(plan) && ClockOk(at)
    ensures var o := PlanOff(plan, i, at);
            && Sound(o.plan) && |o.plan| == |plan|
            && (o.ok ==> i < |plan| && o.plan[i].id == plan[i].id && o.plan[i].slots[|o.plan[i].slots| - 1].stop == at)
  {
    var o := PlanOff(plan, i, at);
    if i < |plan| && plan[i].slots != [] {
      var slots, slots' := plan[i].slots, o.plan[i].slots;
      forall k: nat | k < |slots'| ensures SlotOk(slots', k) { assert SlotOk(slots, k); }
    }
  }

  lemma ModifySound(plan: seq<Course>, i: nat, at: Time, args: Args)
    requires Sound(plan) && ClockOk(at)
    ensures Sound(PlanModify(plan, i, at, args).plan)
  {
    var off, o := PlanOff(plan, i, at), PlanModify(plan, i, at, args);
    OffSound(plan, i, at);
    hide PlanOff;
    if o.ok {
      var slots, slots' := off.plan[i].slots, o.plan[i].slots;
      forall k: nat | k < |slots'| ensures SlotOk(slots', k) { if k < |slots| { assert SlotOk(slots, k); } }
    }
  }

  lemma StepSound(x: Session, line: Line)
    requires Sound(x.plan) && LineOk(line) && (x.start.Some? ==> ClockOk(x.start.value))
    ensures var y := Step(x, line); Sound(y.plan) && (y.start.Some? ==> ClockOk(y.start.value))
  {
    hide Sound, PlanOff, PlanModify;
    if x.start.Some? && (line.On? || line.Off? || line.Modify?) && line.time >= 0 {
      var at := At(x.start.value, line.time);
      match line {
        case On(_, id, sport, dstOk, args) => OnSound(x.plan, id, sport, dstOk, at, args);
        case Off(_, id) => OffSound(x.plan, Place(x.plan, id), at);
        case Modify(_, id, args) => ModifySound(x.plan, Place(x.plan, id), at, args);
      }
    }
  }

  lemma OnSound(plan: seq<Course>, id: int, sport: nat, dstOk: bool, at: Time, args: Args)
    requires Sound(plan) && ClockOk(at)
    ensures Place(plan, id) == |plan| ==> Sound(PlanOn(plan, id, sport, dstOk, at, args).plan)
  {
  }

  /** Whatever the file says, ids are unique and the slots of a flow follow one another without gaps. */
  lemma {:induction false} ConfigurationIsSound(lines: seq<Line>)
    requires forall k :: 0 <= k < |lines| ==> LineOk(lines[k])
    ensures Sound(Steps(lines).plan) && (Steps(lines).start.Some? ==> ClockOk(Steps(lines).start.value))
  {
    if lines != [] {
      var n := |lines| - 1;
      ConfigurationIsSound(lines[..n]);
      StepSound(Steps(lines[..n]), lines[n]);
    }
  }

  lemma {:induction false} OpenSlots(slots: seq<Slot>, k: nat)
    requires k <= |slots|
    ensures Open(slots, k) == 0 <==> forall m :: 0 <= m < k ==> !Unset(slots[m].stop)
  {
    if k > 0 { OpenSlots(slots, k - 1); }
  }

  /** read_cfg counts no missing end exactly when every slot has one. */
  lemma {:induction false} NoneOpen(plan: seq<Course>, i: nat)
    requires i <= |plan|
    ensures OpenIn(plan, i) == 0 <==> forall j, m :: 0 <= j < i && 0 <= m < |plan[j].slots| ==> !Unset(plan[j].slots[m].stop)
  {
    if i > 0 {
      NoneOpen(plan, i - 1);
      OpenSlots(plan[i - 1].slots, |plan[i - 1].slots|);
    }
  }

  predicate Covers(slot: Slot, t: Time) { !Before(t, slot.start) && Before(t, slot.stop) }

  lemma {:induction false} LaterStarts(slots: seq<Slot>, k: nat, m: nat)
    requires SlotsOk(slots) && k < m < |slots| && forall j :: 0 <= j < |slots| ==> !Unset(slots[j].stop)
    ensures !Before(slots[m].start, slots[k].stop)
    decreases m - k
  {
    assert SlotOk(slots, m - 1);
    if k + 1 < m { LaterStarts(slots, k, m - 1); }
  }

  /** In a file without errors every moment from a flow's first start to its last stop
      lies in exactly one of its slots. */
  lemma OneSlotAtATime(lines: seq<Line>, i: nat, t: Time)
    requires forall k :: 0 <= k < |lines| ==> LineOk(lines[k])
    requires var x := Steps(lines); x.errors + OpenIn(x.plan, |x.plan|) == 0 && i < |x.plan| && x.plan[i].slots != []
    requires var slots := Steps(lines).plan[i].slots; !Before(t, slots[0].start) && Before(t, slots[|slots| - 1].stop)
    ensures var slots := Steps(lines).plan[i].slots;
            exists k: nat :: k < |slots| && Covers(slots[k], t) && forall m: nat :: m < |slots| && Covers(slots[m], t) ==> m == k
  {
    var plan := Steps(lines).plan;
    var slots := plan[i].slots;
    ConfigurationIsSound(lines);
    NoneOpen(plan, |plan|);
    hide Steps;
    var k := FirstCover(slots, t, |slots| - 1);
    forall m: nat | m < |slots| && Covers(slots[m], t) ensures m == k {
      if m < k { LaterStarts(slots, m, k); }
      if k < m { LaterStarts(slots, k, m); }
    }
  }

  lemma {:induction false} FirstCover(slots: seq<Slot>, t: Time, n: nat) returns (k: nat)
    requires SlotsOk(slots) && n < |slots| && !Before(t, slots[0].start) && Before(t, slots[n].stop)
    ensures k < |slots| && Covers(slots[k], t)
  {
    if Before(t, slots[n].start) {
      assert SlotOk(slots, n - 1);
      k := FirstCover(slots, t, n - 1);
    } else {
      k := n;
    }
  }
}
