/** read_cfg of rude/parse.c, line by line, on the global list of flows. */
module ReadConfig {
  import opened Common
  import opened Rude
  import opened FlowControl
  import opened Parser

  ghost predicate Configured(s: Scheduler, plan: seq<Course>) reads s {
    && Parsed(s.flows, s.head, s.g) && Represents(plan, s.flows, s.g)
    && s.done == Null && s.sent == [] && s.closed == []
  }

  lemma LeaderFacts(flows: seq<Flow>, head: Ptr, g: Chart, plan: seq<Course>, i: nat)
    requires Parsed(flows, head, g) && Represents(plan, flows, g)
    ensures AtStart(g) && head == LeaderAt(g, 0) && |plan| == |g.chains|
    ensures i < |g.chains| ==>
      Leader(g, i) < |flows| && flows[Leader(g, i)].next == LeaderAt(g, i + 1) && flows[Leader(g, i)].id == plan[i].id
  {
    if i < |g.chains| { PartitionAt(g, |flows|, i, 0); }
  }

  /** find_flow_id */
  method FindFlowId(s: Scheduler, id: int, ghost plan: seq<Course>) returns (p: Ptr)
    requires Configured(s, plan)
    ensures |plan| == |s.g.chains| && AtStart(s.g) && p == LeaderAt(s.g, Place(plan, id))
  {
    hide Parsed, Represents;
    ghost var i := 0;
    LeaderFacts(s.flows, s.head, s.g, plan, 0);
    p := s.head;
    while p != Null
      invariant i <= |plan| && p == LeaderAt(s.g, i) && forall j :: 0 <= j < i ==> plan[j].id != id
      decreases |plan| - i
    {
      LeaderFacts(s.flows, s.head, s.g, plan, i);
      if s.flows[p.b].id == id { return; }
      p := s.flows[p.b].next;
      i := i + 1;
    }
  }

  lemma ChainFacts(flows: seq<Flow>, head: Ptr, g: Chart, i: nat, k: nat)
    requires Parsed(flows, head, g) && i < |g.chains| && k < |g.chains[i]|
    ensures g.chains[i][k] < |flows| && flows[g.chains[i][k]].mod == After(g.chains[i], k)
  {
  }

  /** The loop over mod_flow in flow_off and flow_modify. */
  method LastBlock(s: Scheduler, target: nat, ghost i: nat, ghost k: nat) returns (b: nat)
    requires Parsed(s.flows, s.head, s.g) && i < |s.g.chains| && k < |s.g.chains[i]| && target == s.g.chains[i][k]
    ensures b == Tail(s.g, i) < |s.flows|
  {
    hide Parsed;
    b := target;
    ghost var m := k;
    ChainFacts(s.flows, s.head, s.g, i, m);
    while s.flows[b].mod != Null
      invariant m < |s.g.chains[i]| && b == s.g.chains[i][m] < |s.flows| && s.flows[b].mod == After(s.g.chains[i], m)
      decreases |s.g.chains[i]| - m
    {
      b := s.flows[b].mod.b;
      m := m + 1;
      ChainFacts(s.flows, s.head, s.g, i, m);
    }
  }

  /** All leaders are ids of the configuration. */
  lemma NewId(flows: seq<Flow>, head: Ptr, g: Chart, plan: seq<Course>, id: int)
    requires Parsed(flows, head, g) && Represents(plan, flows, g) && Place(plan, id) == |plan|
    ensures AtStart(g) && Partition(g, |flows|) && |plan| == |g.chains|
    ensures forall i: nat :: i < |g.chains| ==> flows[Leader(g, i)].id != id
  {
  }

  lemma NewBlockOk(id: int, start: Time, kind: Kind)
    requires ClockOk(start) && KindOk(kind)
    ensures BlockOk(NewBlock(id, start, kind)) && SlotOf(NewBlock(id, start, kind)) == Slot(start, Time(0, 0), kind)
  {
  }

  /** flow_on */
  method FlowOn(s: Scheduler, at: Time, id: int, sport: nat, dstOk: bool, args: Args, ghost plan: seq<Course>) returns (ok: bool)
    requires Configured(s, plan) && ClockOk(at) && Place(plan, id) == |plan|
    modifies s`flows, s`head, s`g
    ensures ok == PlanOn(plan, id, sport, dstOk, at, args).ok && Configured(s, PlanOn(plan, id, sport, dstOk, at, args).plan)
  {
    hide Parsed, Represents, KindOf, NewBlock, Partition, AtStart, Linked, AddFlow, KindOk, Place;
    var kind := KindOf(args);
    if sport < 1024 || !dstOk || kind.None? { return false; }
    var block := NewBlock(id, at, kind.value);
    OnFacts(s.flows, s.head, s.g, plan, id, at, kind.value);
    Append(s, block, plan);
    s.g := AddFlow(s.g, |s.flows| - 1);
    ok := true;
  }

  lemma OnFacts(flows: seq<Flow>, head: Ptr, g: Chart, plan: seq<Course>, id: int, at: Time, kind: Kind)
    requires Parsed(flows, head, g) && Represents(plan, flows, g) && Place(plan, id) == |plan| && ClockOk(at) && KindOk(kind)
    ensures AtStart(g) && Partition(g, |flows|)
    ensures var flows', g' := Linked(flows, g, NewBlock(id, at, kind)), AddFlow(g, |flows|);
            && Parsed(flows', if g.chains == [] then To(|flows|) else head, g')
            && Represents(plan + [Course(id, [Slot(at, Time(0, 0), kind)])], flows', g')
  {
    NewBlockOk(id, at, kind);
    NewId(flows, head, g, plan, id);
    AddParsed(flows, head, g, NewBlock(id, at, kind));
    RepresentsAdd(plan, flows, g, NewBlock(id, at, kind));
    hide Parsed, Represents, Partition, AtStart, Linked, AddFlow, BlockOk;
  }

  /** The end of flow_on: the block goes behind the last entry of the list. */
  method Append(s: Scheduler, block: Flow, ghost plan: seq<Course>)
    requires Configured(s, plan) && AtStart(s.g) && Partition(s.g, |s.flows|)
    modifies s`flows, s`head
    ensures s.flows == Linked(old(s.flows), s.g, block) && |s.flows| == old(|s.flows|) + 1
    ensures s.head == if s.g.chains == [] then To(old(|s.flows|)) else old(s.head)
  {
    hide Parsed, Represents, Partition;
    LeaderFacts(s.flows, s.head, s.g, plan, 0);
    if s.head == Null {
      s.head := To(|s.flows|);
      s.flows := s.flows + [block];
    } else {
      var temp := LastEntry(s, plan);
      s.flows := s.flows[temp := s.flows[temp].(next := To(|s.flows|))] + [block];
    }
  }

  /** The loop over next in flow_on. */
  method LastEntry(s: Scheduler, ghost plan: seq<Course>) returns (temp: nat)
    requires Configured(s, plan) && s.head != Null
    ensures |plan| == |s.g.chains| > 0 && AtStart(s.g) && temp == Leader(s.g, |s.g.chains| - 1) < |s.flows|
  {
    hide Parsed, Represents;
    LeaderFacts(s.flows, s.head, s.g, plan, 0);
    temp := s.head.b;
    ghost var i := 0;
    while s.flows[temp].next != Null
      invariant i < |s.g.chains| && AtStart(s.g) && temp == Leader(s.g, i) < |s.flows| && s.flows[temp].next == LeaderAt(s.g, i + 1)
      decreases |s.g.chains| - i
    {
      temp := s.flows[temp].next.b;
      i := i + 1;
      LeaderFacts(s.flows, s.head, s.g, plan, i);
    }
  }

  lemma TailFacts(flows: seq<Flow>, head: Ptr, g: Chart, plan: seq<Course>, i: nat)
    requires Parsed(flows, head, g) && Represents(plan, flows, g) && i < |g.chains|
    ensures AtStart(g) && Partition(g, |flows|) && |g.chains[i]| > 0 && Tail(g, i) < |flows| && BlockOk(flows[Tail(g, i)])
    ensures |plan| == |g.chains| && |plan[i].slots| == |g.chains[i]| && plan[i].slots[|plan[i].slots| - 1] == SlotOf(flows[Tail(g, i)])
  {
    PartitionAt(g, |flows|, i, |g.chains[i]| - 1);
  }

  /** flow_off */
  method FlowOff(s: Scheduler, target: nat, at: Time, ghost i: nat, ghost k: nat, ghost plan: seq<Course>) returns (ok: bool)
    requires Configured(s, plan) && ClockOk(at)
    requires i < |s.g.chains| && k < |s.g.chains[i]| && target == s.g.chains[i][k]
    modifies s`flows
    ensures ok == PlanOff(plan, i, at).ok && Configured(s, PlanOff(plan, i, at).plan) && |s.flows| == old(|s.flows|)
  {
    hide Parsed, Represents;
    var b := LastBlock(s, target, i, k);
    TailFacts(s.flows, s.head, s.g, plan, i);
    var f := s.flows[b];
    if f.stop.sec != 0 || f.stop.usec != 0 { return false; }
    var stop := if Before(at, f.start) then f.start else at;
    ok := !Before(at, f.start);
    StopParsed(s.flows, s.head, s.g, i, stop);
    RepresentsStop(plan, s.flows, s.g, i, stop);
    s.flows := s.flows[b := f.(stop := stop)];
  }

  /** A line accepted by flow_off leaves its time in the last slot. */
  lemma OffSucceeded(plan: seq<Course>, i: nat, at: Time)
    requires PlanOff(plan, i, at).ok && ClockOk(at)
    ensures var p := PlanOff(plan, i, at).plan;
            && i < |plan| == |p| && |p[i].slots| == |plan[i].slots| > 0 && p[i].slots[|p[i].slots| - 1].stop == at && !Unset(at)
            && p[i].id == plan[i].id
  {
  }

  /** flow_modify */
  method FlowModify(s: Scheduler, target: nat, at: Time, args: Args, ghost i: nat, ghost plan: seq<Course>) returns (ok: bool)
    requires Configured(s, plan) && ClockOk(at) && i < |plan| == |s.g.chains| && |s.g.chains[i]| > 0 && target == Leader(s.g, i)
    modifies s`flows, s`g
    ensures ok == PlanModify(plan, i, at, args).ok && Configured(s, PlanModify(plan, i, at, args).plan)
  {
    hide Parsed, Represents, PlanOff;
    if args.NoType? { return false; }
    var temp := LastBlock(s, target, i, 0);
    TailFacts(s.flows, s.head, s.g, plan, i);
    ok := FlowOff(s, temp, at, i, |s.g.chains[i]| - 1, plan);
    if !ok { return; }
    OffSucceeded(plan, i, at);
    var kind := KindOf(args);
    if args.TraceArgs? || kind.None? { return false; }
    ghost var plan' := PlanOff(plan, i, at).plan;
    TailFacts(s.flows, s.head, s.g, plan', i);
    var block := NewBlock(s.flows[temp].id, at, kind.value);
    NewBlockOk(block.id, at, kind.value);
    hide BlockOk, Partition, AtStart;
    ExtendParsed(s.flows, s.head, s.g, i, block);
    RepresentsExtend(plan', s.flows, s.g, i, block);
    ghost var n := |s.flows|;
    s.flows := s.flows[temp := s.flows[temp].(mod := To(|s.flows|))] + [block];
    s.g := Extend(s.g, i, n);
  }

  // ------------------------------------------------------------- the whole file

  lemma PlaceFacts(s: Scheduler, plan: seq<Course>, id: int)
    requires Configured(s, plan)
    ensures |plan| == |s.g.chains| && AtStart(s.g)
    ensures Place(plan, id) < |plan| ==> |s.g.chains[Place(plan, id)]| > 0
  {
  }

  /** A command line once START is set and the time is not negative. */
  method Command(s: Scheduler, start: Time, line: Line, ghost plan: seq<Course>) returns (ok: bool)
    requires Configured(s, plan) && ClockOk(start) && (line.On? || line.Off? || line.Modify?) && line.time >= 0
    modifies s`flows, s`head, s`g
    ensures var x := Step(Session(plan, Some(start), 0, 0), line); Configured(s, x.plan) && ok == (x.errors == 0)
  {
    hide Parsed, Represents, PlanOn, PlanOff, PlanModify, AtStart;
    PlaceFacts(s, plan, line.id);
    var p := FindFlowId(s, line.id, plan);
    ghost var i := Place(plan, line.id);
    var at := At(start, line.time);
    match line {
      case On(_, id, sport, dstOk, args) =>
        if p != Null { return false; }
        ok := FlowOn(s, at, id, sport, dstOk, args, plan);
      case Off(_, id) =>
        if p == Null { NotFound(plan, i, at, NoType); return false; }
        ok := FlowOff(s, p.b, at, i, 0, plan);
      case Modify(_, id, args) =>
        if p == Null { NotFound(plan, i, at, args); return false; }
        ok := FlowModify(s, p.b, at, args, i, plan);
    }
  }

  lemma NotFound(plan: seq<Course>, i: nat, at: Time, args: Args)
    requires i >= |plan|
    ensures PlanOff(plan, i, at) == PlanModify(plan, i, at, args) == Outcome(plan, false)
  {
  }

  ghost predicate Empty(s: Scheduler) reads s {
    && |s.flows| == |s.sent| == |s.closed| == 0 && s.head == s.done == Null
    && |s.g.chains| == |s.g.pos| == |s.g.finished| == |s.g.home| == |s.g.socks| == |s.g.refused| == 0
  }

  lemma EmptyConfigured(s: Scheduler, plan: seq<Course>)
    requires Empty(s) && |plan| == 0
    ensures Configured(s, plan)
  {
  }

  /** The loop of read_cfg; `errors` counts down as in the original. */
  method ReadLines(s: Scheduler, lines: seq<Line>) returns (errors: int, commands: int)
    requires Empty(s) && forall k :: 0 <= k < |lines| ==> LineOk(lines[k])
    modifies s`flows, s`head, s`g
    ensures Configured(s, Steps(lines).plan) && errors + Steps(lines).errors == 0 && commands == Steps(lines).commands
  {
    hide Parsed, Represents, PlanOn, PlanOff, PlanModify, Place;
    errors, commands := 0, 0;
    var start: Option<Time> := None;
    var k := 0;
    ghost var x := Steps(lines[..0]);
    EmptyConfigured(s, x.plan);
    while k < |lines|
      invariant 0 <= k <= |lines| && x == Steps(lines[..k]) && Configured(s, x.plan)
      invariant start == x.start && errors + x.errors == 0 && commands == x.commands && (start.Some? ==> ClockOk(start.value))
    {
      var line := lines[k];
      assert LineOk(lines[k]);
      match line {
        case Comment => commands := commands + 1;
        case Start(at) =>
          if start.Some? || at.None? { errors := errors - 1; } else { start := at; commands := commands + 1; }
        case Tos(id, tos) =>
          if start.None? { errors := errors - 1; }
          else {
            var p := FindFlowId(s, id, x.plan);
            if p == Null || tos < 0 || tos > 0xFF { errors := errors - 1; }
          }
        case Bad => errors := errors - 1;
        case _ =>
          if start.None? || line.time < 0 { errors := errors - 1; }
          else {
            var ok := Command(s, start.value, line, x.plan);
            if ok { commands := commands + 1; } else { errors := errors - 1; }
            CountsApart(x, line);
          }
      }
      assert lines[..k + 1][..k] == lines[..k] && lines[..k + 1][k] == line;
      x := Step(x, line);
      k := k + 1;
    }
    assert lines[..k] == lines;
  }

  /** The counters do not matter to what a line does. */
  lemma CountsApart(x: Session, line: Line)
    requires x.start.Some? && (line.On? || line.Off? || line.Modify?) && line.time >= 0
    ensures var y := Step(Session(x.plan, x.start, 0, 0), line);
            Step(x, line) == Session(y.plan, x.start, x.errors + y.errors, x.commands + y.commands) && y.errors + y.commands == 1
  {
  }

  // ------------------------------------------------- the last pass over all blocks

  /** A block with rate zero is put off until after its end. */
  function Scheduled(f: Flow): Flow {
    if f.kind.Cbr? && f.kind.rate == 0 then f.(nextTx := Time(f.stop.sec + 1, f.stop.usec)) else f
  }

  /** Block b comes before block k of flow i. */
  ghost predicate Passed(g: Chart, b: nat, i: nat, k: nat) requires b < |g.home| {
    g.home[b].0 < i || (g.home[b].0 == i && g.home[b].1 < k)
  }

  ghost predicate Halfway(flows0: seq<Flow>, flows: seq<Flow>, g: Chart, i: nat, k: nat) {
    && |flows| == |flows0| == |g.home|
    && forall b: nat :: b < |flows| ==> flows[b] == if Passed(g, b, i, k) then Scheduled(flows0[b]) else flows0[b]
  }

  lemma PassBlock(flows0: seq<Flow>, flows: seq<Flow>, g: Chart, i: nat, k: nat)
    requires Partition(g, |flows0|) && i < |g.chains| && k < |g.chains[i]| && Halfway(flows0, flows, g, i, k)
    ensures var b := g.chains[i][k];
            && b < |flows| && flows[b] == flows0[b] && Halfway(flows0, flows[b := Scheduled(flows[b])], g, i, k + 1)
            && (k + 1 == |g.chains[i]| ==> Halfway(flows0, flows[b := Scheduled(flows[b])], g, i + 1, 0))
  {
    PartitionAt(g, |flows|, i, k);
    var k' := k + 1;
    forall b: nat | b < |flows| ensures Passed(g, b, i, k') <==> Passed(g, b, i, k) || b == g.chains[i][k] { HomeAt(g, |flows|, b); }
    if k + 1 == |g.chains[i]| {
      LastOfChain(g, |flows|, i);
    }
    hide Passed, Partition;
  }

  lemma LastOfChain(g: Chart, blocks: nat, i: nat)
    requires Partition(g, blocks) && i < |g.chains|
    ensures blocks == |g.home|
    ensures var i', n := i + 1, |g.chains[i]|; forall b: nat :: b < blocks ==> (Passed(g, b, i', 0) <==> Passed(g, b, i, n))
  {
  }

  lemma PassStarts(flows: seq<Flow>, g: Chart)
    requires Partition(g, |flows|)
    ensures Halfway(flows, flows, g, 0, 0)
  {
  }

  /** What the pass reads at block k of flow i. */
  lemma PassFacts(flows: seq<Flow>, head: Ptr, g: Chart, plan: seq<Course>, i: nat, k: nat)
    requires Parsed(flows, head, g) && Represents(plan, flows, g) && i < |g.chains| && k < |g.chains[i]|
    ensures AtStart(g) && Partition(g, |flows|) && |plan| == |g.chains| && |plan[i].slots| == |g.chains[i]|
    ensures var b := g.chains[i][k];
            b < |flows| && flows[b].mod == After(g.chains[i], k) && plan[i].slots[k] == SlotOf(flows[b])
    ensures Leader(g, i) < |flows| && flows[Leader(g, i)].next == LeaderAt(g, i + 1)
  {
    PartitionAt(g, |flows|, i, k);
    PartitionAt(g, |flows|, i, 0);
  }

  /** Block k of flow i as the pass finds it, and where the pass goes on. */
  ghost function StandAt(g: Chart, i: nat, k: nat): Ptr { if i < |g.chains| && k < |g.chains[i]| then To(g.chains[i][k]) else Null }

  ghost function Count(plan: seq<Course>, i: nat, k: nat): nat {
    if i < |plan| && k <= |plan[i].slots| then OpenIn(plan, i) + Open(plan[i].slots, k) else OpenIn(plan, |plan|)
  }

  lemma PassStep(flows0: seq<Flow>, flows: seq<Flow>, head: Ptr, g: Chart, plan: seq<Course>, i: nat, k: nat)
    requires Parsed(flows0, head, g) && Represents(plan, flows0, g) && i < |g.chains| && k < |g.chains[i]|
    requires Halfway(flows0, flows, g, i, k)
    ensures AtStart(g) && Leader(g, i) < |flows| && g.chains[i][k] < |flows|
    ensures var b := g.chains[i][k];
            var f := flows[b];
            var flows' := flows[b := Scheduled(f)];
            && f.mod == StandAt(g, i, k + 1)
            && Count(plan, i, k) + (if Unset(f.stop) then 1 else 0) ==
               (if k + 1 < |g.chains[i]| then Count(plan, i, k + 1) else Count(plan, i + 1, 0))
            && (if k + 1 < |g.chains[i]| then Halfway(flows0, flows', g, i, k + 1) else Halfway(flows0, flows', g, i + 1, 0))
            && flows'[Leader(g, i)].next == StandAt(g, i + 1, 0) == LeaderAt(g, i + 1)
  {
    hide Parsed, Represents, Halfway, Partition, Scheduled;
    PassFacts(flows0, head, g, plan, i, k);
    LeaderFacts(flows0, head, g, plan, i);
    PassBlock(flows0, flows, g, i, k);
    var flows' := flows[g.chains[i][k] := Scheduled(flows[g.chains[i][k]])];
    LinksKept(flows0, flows', g, i, k + 1, Leader(g, i));
    if i + 1 < |g.chains| { EnterChain(flows0, head, g, plan, i + 1); }
  }

  /** The second half of read_cfg: counts the blocks without an end and schedules. */
  method CheckStops(s: Scheduler, ghost plan: seq<Course>) returns (missing: nat)
    requires Configured(s, plan)
    modifies s`flows
    ensures |s.flows| == old(|s.flows|) && forall b :: 0 <= b < |s.flows| ==> s.flows[b] == Scheduled(old(s.flows)[b])
    ensures missing == OpenIn(plan, |plan|)
  {
    hide Parsed, Represents, Halfway, Partition, AtStart, Leader, LeaderAt, StandAt, Count;
    ghost var flows0, g := s.flows, s.g;
    ghost var i, k := 0, 0;
    missing := 0;
    PassBegins(flows0, s.head, g, plan);
    var temp, tmp := s.head, s.head;
    while temp != Null
      invariant AtStart(g) && i <= |g.chains| && temp == StandAt(g, i, k) && tmp == LeaderAt(g, i)
      invariant |s.flows| == |flows0| && Halfway(flows0, s.flows, g, i, k)
      invariant missing == Count(plan, i, k) && (temp == Null ==> i == |g.chains| && k == 0)
      decreases |g.chains| - i, if i < |g.chains| then |g.chains[i]| - k else 0
    {
      StandFacts(g, i, k);
      PassStep(flows0, s.flows, s.head, g, plan, i, k);
      StandFacts(g, i, k + 1);
      StandFacts(g, i + 1, 0);
      var f := s.flows[temp.b];
      if f.stop.sec == 0 && f.stop.usec == 0 { missing := missing + 1; }
      var f' := f;
      if f.kind.Cbr? && f.kind.rate == 0 { f' := f.(nextTx := Time(f.stop.sec + 1, f.stop.usec)); }
      s.flows := s.flows[temp.b := f'];
      if f.mod != Null {
        temp := f.mod;
        k := k + 1;
      } else {
        temp := s.flows[tmp.b].next;
        tmp := temp;
        i, k := i + 1, 0;
      }
    }
    PassDone(flows0, s.flows, s.head, g, plan);
  }

  lemma StandFacts(g: Chart, i: nat, k: nat)
    requires AtStart(g)
    ensures StandAt(g, i, k) == if i < |g.chains| && k < |g.chains[i]| then To(g.chains[i][k]) else Null
    ensures i < |g.chains| ==> |g.chains[i]| > 0 && LeaderAt(g, i) == To(Leader(g, i))
  {
  }

  lemma PassBegins(flows: seq<Flow>, head: Ptr, g: Chart, plan: seq<Course>)
    requires Parsed(flows, head, g) && Represents(plan, flows, g)
    ensures AtStart(g) && head == StandAt(g, 0, 0) == LeaderAt(g, 0) && Halfway(flows, flows, g, 0, 0) && Count(plan, 0, 0) == 0
    ensures head == Null ==> |g.chains| == 0
  {
    PassStarts(flows, g);
  }

  lemma PassDone(flows0: seq<Flow>, flows: seq<Flow>, head: Ptr, g: Chart, plan: seq<Course>)
    requires Parsed(flows0, head, g) && Represents(plan, flows0, g) && Halfway(flows0, flows, g, |g.chains|, 0)
    ensures |flows| == |flows0| && forall b :: 0 <= b < |flows| ==> flows[b] == Scheduled(flows0[b])
    ensures Count(plan, |g.chains|, 0) == OpenIn(plan, |plan|)
  {
  }

  lemma EnterChain(flows: seq<Flow>, head: Ptr, g: Chart, plan: seq<Course>, i: nat)
    requires Parsed(flows, head, g) && Represents(plan, flows, g) && i < |g.chains|
    ensures AtStart(g) && |plan| == |g.chains| && |plan[i].slots| == |g.chains[i]| > 0 && Leader(g, i) == g.chains[i][0]
  {
  }

  lemma LinksKept(flows0: seq<Flow>, flows: seq<Flow>, g: Chart, i: nat, k: nat, b: nat)
    requires Halfway(flows0, flows, g, i, k) && b < |flows0|
    ensures |flows| == |flows0| && flows[b].next == flows0[b].next
  {
  }

  // -------------------------------------------------------- a configuration is a schedule

  /** A state to start from: all blocks linked and nothing sent; the first block of
      each flow has the flow's socket. */
  ghost predicate Ready(flows: seq<Flow>, head: Ptr, g: Chart) {
    && AtStart(g) && Partition(g, |flows|) && Links(flows, head, g) && ModsOk(flows, g) && Ids(flows, g)
    && forall b :: 0 <= b < |flows| ==> ContentOk(flows[b]) && Unused(flows[b], SockOf(g, b))
  }

  predicate Unused(f: Flow, sock: int) { f.sock == sock && f.errors == f.success == f.seqno == 0 }

  ghost function SockOf(g: Chart, b: nat): int requires b < |g.home| && g.home[b].0 < |g.socks| {
    if g.home[b].1 == 0 then g.socks[g.home[b].0] else 0
  }

  lemma ReadyShape(flows: seq<Flow>, head: Ptr, g: Chart)
    requires AtStart(g) && Partition(g, |flows|) && Links(flows, head, g) && ModsOk(flows, g)
    ensures Shape(flows, head, Null, g)
  {
    forall i: nat | i < |g.chains| ensures Running(g, i) && Seek(g, i) == i && Entry(g, i) == LeaderAt(g, i) {}
    forall i: nat | Running(g, i) ensures flows[Current(g, i)].next == Entry(g, i + 1) {
      PartitionAt(g, |flows|, i, 0);
      assert Leader(g, i) == Current(g, i);
    }
  }

  lemma {:induction false} NoPackets(flows: seq<Flow>, c: seq<nat>, k: nat)
    requires k <= |c| && forall m :: 0 <= m < |c| ==> c[m] < |flows| && flows[c[m]].errors == flows[c[m]].success == 0
    ensures Tally(flows, c, k) == 0
  {
    if k > 0 { NoPackets(flows, c, k - 1); }
  }

  lemma {:induction false} NoneEnded(g: Chart, n: nat)
    requires n <= |g.chains| == |g.pos| == |g.socks| && forall i: nat :: i < |g.chains| ==> Running(g, i)
    ensures Ended(g, n) == multiset{}
  {
    if n > 0 { NoneEnded(g, n - 1); }
  }

  lemma ReadyFlow(flows: seq<Flow>, g: Chart, i: nat, sent: seq<Packet>)
    requires AtStart(g) && Partition(g, |flows|) && Ids(flows, g) && i < |g.chains| && |sent| == 0
    requires forall b :: 0 <= b < |flows| ==> Unused(flows[b], SockOf(g, b))
    ensures FlowOk(flows, g, sent, i) && Stamped(flows, g, i)
  {
    var c := g.chains[i];
    forall m | 0 <= m < |c|
      ensures c[m] < |flows| && Unused(flows[c[m]], if m == 0 then g.socks[i] else 0) && flows[c[m]].id == flows[c[0]].id
    {
      PartitionAt(g, |flows|, i, m);
      assert Leader(g, i) == c[0];
    }
    NoPackets(flows, c, |c|);
    hide Partition, Ids;
  }

  lemma ReadyBooks(flows: seq<Flow>, head: Ptr, g: Chart, sent: seq<Packet>, closed: seq<int>)
    requires Ready(flows, head, g) && |sent| == 0 && multiset(closed) == g.refused
    ensures Partition(g, |flows|) && Books(flows, g, sent, closed)
  {
    hide ContentOk, Links, ModsOk;
    forall i | 0 <= i < |g.chains| ensures FlowOk(flows, g, sent, i) && Stamped(flows, g, i) { ReadyFlow(flows, g, i, sent); }
    forall i: nat | i < |g.chains| ensures Running(g, i) {}
    NoneEnded(g, |g.chains|);
    forall i, j | 0 <= i < j < |g.chains| ensures flows[g.chains[i][0]].id != flows[g.chains[j][0]].id {
      assert flows[Leader(g, i)].id != flows[Leader(g, j)].id;
    }
    hide Partition, FlowOk, Stamped, Ids;
  }

  /** Such a state is one the scheduler can run from. */
  lemma ReadyIsValid(flows: seq<Flow>, head: Ptr, g: Chart, sent: seq<Packet>, closed: seq<int>)
    requires Ready(flows, head, g) && |sent| == 0 && multiset(closed) == g.refused
    ensures Shape(flows, head, Null, g) && Books(flows, g, sent, closed)
  {
    hide Partition, Links, ModsOk, Ids, ContentOk, Shape, Books, AtStart;
    ReadyShape(flows, head, g);
    ReadyBooks(flows, head, g, sent, closed);
  }

  lemma ScheduledContent(f: Flow)
    requires BlockOk(f)
    ensures ContentOk(Scheduled(f)) && Unused(Scheduled(f), 0)
    ensures Scheduled(f).id == f.id && Scheduled(f).next == f.next && Scheduled(f).mod == f.mod && SlotOf(Scheduled(f)) == SlotOf(f)
  {
  }

  /** The block b after the pass. */
  ghost predicate Settled(f0: Flow, f: Flow) {
    && ContentOk(f) && Unused(f, 0) && f.id == f0.id && f.next == f0.next && f.mod == f0.mod && SlotOf(f) == SlotOf(f0)
  }

  lemma AllSettled(flows0: seq<Flow>, flows: seq<Flow>)
    requires |flows| == |flows0| && forall b :: 0 <= b < |flows| ==> BlockOk(flows0[b]) && flows[b] == Scheduled(flows0[b])
    ensures forall b :: 0 <= b < |flows| ==> Settled(flows0[b], flows[b])
  {
    hide Scheduled, BlockOk, ContentOk, Unused, SlotOf;
    forall b | 0 <= b < |flows| ensures Settled(flows0[b], flows[b]) { ScheduledContent(flows0[b]); }
  }

  /** Nothing is open yet, so every block has socket 0. */
  lemma NoSockets(g: Chart, blocks: nat)
    requires Partition(g, blocks) && NoSocks(g)
    ensures |g.home| == blocks && forall b :: 0 <= b < blocks ==> g.home[b].0 < |g.socks| && SockOf(g, b) == 0
  {
  }

  lemma SamePlan(plan: seq<Course>, flows0: seq<Flow>, flows: seq<Flow>, g: Chart)
    requires AtStart(g) && Partition(g, |flows0|) && Represents(plan, flows0, g)
    requires |flows| == |flows0| && forall b :: 0 <= b < |flows| ==> flows[b].id == flows0[b].id && SlotOf(flows[b]) == SlotOf(flows0[b])
    ensures Represents(plan, flows, g)
  {
    hide SlotOf;
    forall i, k | 0 <= i < |g.chains| && 0 <= k < |g.chains[i]| ensures g.chains[i][k] < |flows| { PartitionAt(g, |flows|, i, k); }
    hide Partition;
  }

  /** What read_cfg leaves behind is ready, whether or not there were errors. */
  lemma ScheduleIsReady(flows0: seq<Flow>, flows: seq<Flow>, head: Ptr, g: Chart, plan: seq<Course>)
    requires Parsed(flows0, head, g) && |flows| == |flows0| && forall b :: 0 <= b < |flows| ==> flows[b] == Scheduled(flows0[b])
    requires Represents(plan, flows0, g)
    ensures Ready(flows, head, g) && Represents(plan, flows, g) && NoSocks(g)
  {
    hide Scheduled, ContentOk, BlockOk, Links, ModsOk, Ids, Represents, Partition, AtStart, Unused, SockOf, SlotOf, NoSocks;
    AllSettled(flows0, flows);
    NoSockets(g, |flows|);
    SameLinks(flows0, flows, head, g);
    SamePlan(plan, flows0, flows, g);
  }

  // ---------------------------------------------------------------- the main result

  /** read_cfg: the number of commands, or minus the number of errors. */
  method ReadCfg(s: Scheduler, lines: seq<Line>) returns (result: int)
    requires Empty(s) && forall k :: 0 <= k < |lines| ==> LineOk(lines[k])
    modifies s`flows, s`head, s`g
    ensures Ready(s.flows, s.head, s.g) && Represents(Steps(lines).plan, s.flows, s.g)
    ensures s.done == Null && s.sent == [] && s.closed == [] && NoSocks(s.g)
    ensures var x := Steps(lines);
            var errors := x.errors + OpenIn(x.plan, |x.plan|);
            result == if errors > 0 then -errors else x.commands
  {
    var errors, commands := ReadLines(s, lines);
    ghost var plan, flows0 := Steps(lines).plan, s.flows;
    var missing := CheckStops(s, plan);
    hide Parsed, Represents, Ready, Steps, Scheduled;
    ScheduleIsReady(flows0, s.flows, s.head, s.g, plan);
    errors := errors - missing;
    result := if errors != 0 then errors else commands;
  }
}
