/** What the self times of the profiler add up to, and how packets reach the analysis. */
module ProfilerTimes {
  import opened Profiler

  // ------------------------------------------------------------------ what really happened

  datatype Event = Enter(zone: nat, time: nat) | Exit(time: nat)

  function PacketOf(e: Event): Packet requires e.Enter? ==> e.zone < OFFSETS {
    match e case Enter(zone, time) => Make(zone, time) case Exit(time) => Make(BIAS, time)
  }

  /** Entry times of the zones still open, innermost last. */
  function Open(events: seq<Event>): seq<nat> {
    if events == [] then []
    else
      var open := Open(events[..|events| - 1]);
      match events[|events| - 1]
      case Enter(_, time) => open + [time]
      case Exit(_) => if open == [] then [] else open[..|open| - 1]
  }

  function LastTime(events: seq<Event>): nat { if events == [] then 0 else events[|events| - 1].time }

  /** Time spent in zones that were entered from outside all zones and have ended. */
  function Outermost(events: seq<Event>): nat {
    if events == [] then 0
    else
      var n := |events| - 1;
      var open := Open(events[..n]);
      Outermost(events[..n]) + if events[n].Exit? && |open| == 1 then Clamped(events[n].time, open[0]) else 0
  }

  /** Time does not run backwards, zones nest, and none lasts as long as the time
      stamp takes to wrap. */
  ghost predicate Proper(events: seq<Event>) {
    events == [] ||
    (var n := |events| - 1;
     var open := Open(events[..n]);
     && Proper(events[..n]) && events[n].time >= LastTime(events[..n])
     && match events[n]
        case Enter(zone, _) => zone < OFFSETS && zone != BIAS
        case Exit(time) => open != [] && time - open[|open| - 1] < TIMES)
  }

  function PacketsOf(events: seq<Event>): (ps: seq<Packet>)
    requires forall k :: 0 <= k < |events| && events[k].Enter? ==> events[k].zone < OFFSETS
    ensures |ps| == |events|
  {
    if events == [] then [] else PacketsOf(events[..|events| - 1]) + [PacketOf(events[|events| - 1])]
  }

  lemma {:induction false} ProperZones(events: seq<Event>)
    requires Proper(events)
    ensures forall k :: 0 <= k < |events| && events[k].Enter? ==> events[k].zone < OFFSETS
  {
    if events != [] {
      var n := |events| - 1;
      ProperZones(events[..n]);
      assert forall k :: 0 <= k < n ==> events[..n][k] == events[k];
    }
  }

  // -------------------------------------------------------------- what the sheet says

  /** Self time of the zones below n. */
  function SelfTotal(stats: Stats, n: nat): nat { if n == 0 then 0 else SelfTotal(stats, n - 1) + Tally(stats, n - 1).1 }

  lemma {:induction false} CreditAdds(stats: Stats, zone: nat, calls: nat, duration: nat, n: nat)
    ensures SelfTotal(Credit(stats, zone, calls, duration), n) == SelfTotal(stats, n) + if zone < n then duration else 0
  {
    if n > 0 { CreditAdds(stats, zone, calls, duration, n - 1); }
  }

  function ChildSum(nodes: seq<Node>): nat { if nodes == [] then 0 else ChildSum(nodes[..|nodes| - 1]) + nodes[|nodes| - 1].childTotal }

  /** The end of what node k's children have used so far. */
  ghost function Until(open: seq<nat>, now: nat, k: nat): nat requires k < |open| { if k + 1 < |open| then open[k + 1] else now }

  ghost predicate NodeOk(node: Node, open: nat, until: nat) {
    Timestamp(node.packet) == open % TIMES && Offset(node.packet) < OFFSETS && open + node.childTotal <= until
  }

  /** The nodes are those of the open zones, and no zone's children took longer than it
      has been open. */
  ghost predicate Matches(nodes: seq<Node>, open: seq<nat>, now: nat) {
    && |nodes| == |open|
    && forall k: nat :: k < |nodes| ==> NodeOk(nodes[k], open[k], Until(open, now, k))
  }

  lemma MaskedDifference(from: nat, to: nat)
    requires from <= to < from + TIMES
    ensures (to % TIMES - from % TIMES) % TIMES == to - from
  {
  }

  lemma MatchesEnter(nodes: seq<Node>, open: seq<nat>, now: nat, zone: nat, time: nat)
    requires Matches(nodes, open, now) && zone < OFFSETS && time >= now
    ensures Matches(nodes + [Node(Make(zone, time), 0)], open + [time], time)
  {
    PacketRoundTrip(zone, time);
    hide Timestamp, Offset, Make;
    var nodes', open' := nodes + [Node(Make(zone, time), 0)], open + [time];
    forall k: nat | k < |nodes'| ensures NodeOk(nodes'[k], open'[k], Until(open', time, k)) {
      if k < |nodes| { assert NodeOk(nodes[k], open[k], Until(open, now, k)); }
    }
  }

  /** The self time is not clamped, and together with what the parent is charged it is
      what the zone took. */
  lemma MatchesExit(nodes: seq<Node>, open: seq<nat>, now: nat, time: nat)
    requires Matches(nodes, open, now) && time >= now && open != [] && time - open[|open| - 1] < TIMES
    ensures var node, p, n := nodes[|nodes| - 1], Make(BIAS, time), |open| - 1;
            var duration := time - open[n];
            && duration >= 0 && Elapsed(node.packet, p) == duration
            && SelfTime(node, p, Overhead(0, 0)) + node.childTotal == duration
            && Matches(Closed(nodes, duration), open[..n], time)
            && ChildSum(Closed(nodes, duration)) == ChildSum(nodes) - node.childTotal + if n == 0 then 0 else duration
  {
    var n := |open| - 1;
    var node, p := nodes[n], Make(BIAS, time);
    assert NodeOk(node, open[n], Until(open, now, n));
    PacketRoundTrip(BIAS, time);
    MaskedDifference(open[n], time);
    hide Timestamp, Offset, Make;
    var duration := time - open[n];
    ClosedMatches(nodes, open, now, time);
    ClosedSum(nodes, duration);
  }

  lemma ClosedMatches(nodes: seq<Node>, open: seq<nat>, now: nat, time: nat)
    requires Matches(nodes, open, now) && time >= now && open != [] && time >= open[|open| - 1]
    ensures Matches(Closed(nodes, time - open[|open| - 1]), open[..|open| - 1], time)
  {
    hide Timestamp, Offset;
    var n := |open| - 1;
    var nodes', open' := Closed(nodes, time - open[n]), open[..n];
    forall k: nat | k < |nodes'| ensures NodeOk(nodes'[k], open'[k], Until(open', time, k)) {
      assert NodeOk(nodes[k], open[k], Until(open, now, k));
    }
  }

  lemma ClosedSum(nodes: seq<Node>, duration: nat)
    requires nodes != []
    ensures ChildSum(Closed(nodes, duration)) == ChildSum(nodes) - nodes[|nodes| - 1].childTotal + if |nodes| == 1 then 0 else duration
  {
  }

  /** What has been credited is the time spent in outermost zones that have ended and in
      the ended children of open ones. */
  ghost predicate Balanced(x: Sheet, events: seq<Event>, n: nat) {
    && Matches(x.nodes, Open(events), LastTime(events))
    && SelfTotal(x.stats, n) == Outermost(events) + ChildSum(x.nodes)
  }

  lemma EnterBalances(x: Sheet, events: seq<Event>, n: nat)
    requires events != [] && Proper(events) && events[|events| - 1].Enter? && Balanced(x, events[..|events| - 1], n)
    ensures var e := events[|events| - 1]; e.zone < OFFSETS && Balanced(Step(x, PacketOf(e), Overhead(0, 0)), events, n)
  {
    hide Make, Offset, Timestamp, Matches, SelfTotal, ChildSum, Open, Outermost, LastTime, Proper;
    var m := |events| - 1;
    var e, before := events[m], events[..m];
    EnterFacts(events);
    PacketRoundTrip(e.zone, e.time);
    MatchesEnter(x.nodes, Open(before), LastTime(before), e.zone, e.time);
    NewChild(x.nodes, Make(e.zone, e.time));
  }

  lemma EnterFacts(events: seq<Event>)
    requires events != [] && Proper(events) && events[|events| - 1].Enter?
    ensures var before, e := events[..|events| - 1], events[|events| - 1];
            && e.zone < OFFSETS && e.zone != BIAS && e.time >= LastTime(before)
            && Open(events) == Open(before) + [e.time] && LastTime(events) == e.time && Outermost(events) == Outermost(before)
  {
  }

  lemma NewChild(nodes: seq<Node>, p: Packet)
    ensures ChildSum(nodes + [Node(p, 0)]) == ChildSum(nodes)
  {
  }

  lemma ExitBalances(x: Sheet, events: seq<Event>, n: nat)
    requires events != [] && Proper(events) && events[|events| - 1].Exit? && n >= OFFSETS && Balanced(x, events[..|events| - 1], n)
    ensures Balanced(Step(x, PacketOf(events[|events| - 1]), Overhead(0, 0)), events, n)
  {
    hide Make, Offset, Timestamp, Matches, Closed, Credit, SelfTotal, ChildSum, SelfTime, Elapsed, NodeOk, Open, Outermost, LastTime, Proper;
    var m := |events| - 1;
    var e, before := events[m], events[..m];
    var open, now := Open(before), LastTime(before);
    ExitFacts(events);
    PacketRoundTrip(BIAS, e.time);
    InnermostFacts(x.nodes, open, now);
    MatchesExit(x.nodes, open, now, e.time);
    var node := x.nodes[|x.nodes| - 1];
    CreditAdds(x.stats, Offset(node.packet), 1, SelfTime(node, PacketOf(e), Overhead(0, 0)), n);
  }

  lemma ExitFacts(events: seq<Event>)
    requires events != [] && Proper(events) && events[|events| - 1].Exit?
    ensures var before, time := events[..|events| - 1], events[|events| - 1].time;
            var open := Open(before);
            && open != [] && time >= LastTime(before) && time - open[|open| - 1] < TIMES
            && Open(events) == open[..|open| - 1] && LastTime(events) == time
            && Outermost(events) == Outermost(before) + if |open| == 1 then Clamped(time, open[0]) else 0
  {
  }

  lemma InnermostFacts(nodes: seq<Node>, open: seq<nat>, now: nat)
    requires Matches(nodes, open, now) && open != []
    ensures |nodes| == |open| && Offset(nodes[|nodes| - 1].packet) < OFFSETS && open[|open| - 1] <= now
  {
  }

  lemma StepBalances(x: Sheet, events: seq<Event>, n: nat)
    requires events != [] && Proper(events) && n >= OFFSETS && Balanced(x, events[..|events| - 1], n)
    ensures var e := events[|events| - 1];
            (e.Enter? ==> e.zone < OFFSETS) && Balanced(Step(x, PacketOf(e), Overhead(0, 0)), events, n)
  {
    hide Proper, Balanced, Step, PacketOf;
    if events[|events| - 1].Enter? { EnterBalances(x, events, n); } else { ExitBalances(x, events, n); }
  }

  lemma {:induction false} RunBalances(events: seq<Event>, n: nat)
    requires Proper(events) && n >= OFFSETS
    ensures forall k :: 0 <= k < |events| && events[k].Enter? ==> events[k].zone < OFFSETS
    ensures Balanced(Run(Sheet([], map[]), PacketsOf(events), Overhead(0, 0)), events, n)
  {
    hide Step, PacketOf;
    ProperZones(events);
    if events == [] {
      NothingYet(n);
    } else {
      var m := |events| - 1;
      RunBalances(events[..m], n);
      var ps := PacketsOf(events);
      assert ps[..m] == PacketsOf(events[..m]);
      StepBalances(Run(Sheet([], map[]), PacketsOf(events[..m]), Overhead(0, 0)), events, n);
    }
  }

  lemma {:induction false} NothingYet(n: nat)
    ensures SelfTotal(map[], n) == 0
  {
    if n > 0 { NothingYet(n - 1); }
  }

  /** Without overhead, once all zones have ended, the self times of all zones together
      are exactly the time spent inside outermost zones, however they nested. */
  lemma SelfTimesAddUp(events: seq<Event>, n: nat)
    requires Proper(events) && Open(events) == [] && n >= OFFSETS
    ensures forall k :: 0 <= k < |events| && events[k].Enter? ==> events[k].zone < OFFSETS
    ensures var x := Run(Sheet([], map[]), PacketsOf(events), Overhead(0, 0));
            x.nodes == [] && SelfTotal(x.stats, n) == Outermost(events)
  {
    RunBalances(events, n);
  }

  // ---------------------------------------------------------- analyzing packets again

  /** No zone has lost a call. */
  ghost predicate NoFewerCalls(x: Sheet, y: Sheet) { forall z :: Tally(x.stats, z).0 <= Tally(y.stats, z).0 }

  ghost predicate MoreCalls(x: Sheet, y: Sheet) { exists z :: Tally(x.stats, z).0 < Tally(y.stats, z).0 }

  lemma StepGrows(x: Sheet, y: Sheet, p: Packet, o: Overhead)
    requires NoFewerCalls(x, y) && Fine(y, p)
    ensures NoFewerCalls(x, Step(y, p, o)) && (MoreCalls(x, y) ==> MoreCalls(x, Step(y, p, o)))
    ensures MoreCalls(x, Step(y, p, o)) || |Step(y, p, o).nodes| == |y.nodes| + 1
  {
    var y' := Step(y, p, o);
    assert forall z :: Tally(y.stats, z).0 <= Tally(y'.stats, z).0;
    if MoreCalls(x, y) {
      var z :| Tally(x.stats, z).0 < Tally(y.stats, z).0;
      assert Tally(x.stats, z).0 < Tally(y'.stats, z).0;
    }
    if Offset(p) == BIAS {
      var z := Offset(y.nodes[|y.nodes| - 1].packet);
      assert Tally(x.stats, z).0 <= Tally(y.stats, z).0 < Tally(y'.stats, z).0;
    }
  }

  lemma {:induction false} RunGrows(x: Sheet, ps: seq<Packet>, o: Overhead)
    requires AllFine(x, ps, o)
    ensures NoFewerCalls(x, Run(x, ps, o))
    ensures MoreCalls(x, Run(x, ps, o)) || |Run(x, ps, o).nodes| == |x.nodes| + |ps|
  {
    hide Step, Fine, MoreCalls, NoFewerCalls;
    if ps == [] {
      NoneFewer(x);
    } else {
      var n := |ps| - 1;
      RunGrows(x, ps[..n], o);
      StepGrows(x, Run(x, ps[..n], o), ps[n], o);
    }
  }

  lemma NoneFewer(x: Sheet)
    ensures NoFewerCalls(x, x)
  {
  }

  /** Analyzing packets changes the totals or the open zones, unless there are none. */
  lemma PacketsLeaveTraces(x: Sheet, ps: seq<Packet>, o: Overhead)
    requires AllFine(x, ps, o)
    ensures Run(x, ps, o) == x <==> ps == []
  {
    RunGrows(x, ps, o);
  }

  /** A buffer of one entry: after a second analysis the zone seems to be open twice. */
  lemma OnePacketTwice(zone: nat, time: nat, o: Overhead)
    requires zone < OFFSETS && zone != BIAS
    ensures var p := Make(zone, time);
            && AllFine(Sheet([], map[]), [p] + [p], o)
            && Run(Sheet([], map[]), [p], o).nodes == [Node(p, 0)]
            && Run(Sheet([], map[]), [p] + [p], o).nodes == [Node(p, 0), Node(p, 0)]
  {
    var p := Make(zone, time);
    PacketRoundTrip(zone, time);
    hide Make, Offset;
    assert ([p] + [p])[..1] == [p] && [p][..0] == [];
    assert Run(Sheet([], map[]), [p], o) == Step(Sheet([], map[]), p, o);
    BatchesDoNotMatter(Sheet([], map[]), [p], [p], o);
  }

  /** A buffer of one exit that closes the outermost zone: a second analysis leaves the
      bounds of the stack, which the program asserts it does not. */
  lemma OneExitTwice(before: seq<Packet>, time: nat, o: Overhead)
    requires Run(Sheet([], map[]), before + [Make(BIAS, time)], o).nodes == []
    ensures !AllFine(Sheet([], map[]), before + [Make(BIAS, time)] + [Make(BIAS, time)], o)
  {
    var p := Make(BIAS, time);
    var once := before + [p];
    PacketRoundTrip(BIAS, time);
    hide Make, Offset, Step;
    assert (once + [p])[..|once|] == once;
  }

  // ------------------------------------------------------------- how packets get there

  const BUFFER := 8

  /** ThreadSpecific: a small buffer in front of the storage, both emptied when full. */
  class ThreadSpecific {
    var buffer: seq<Packet>
    var packets: seq<Packet>
    const maxPackets: nat
    const results: Results

    ghost var written: seq<Packet>
    ghost var analyzed: seq<Packet>

    /** The results are those of the packets analyzed so far. */
    ghost predicate Sound() reads this, results, results.zones {
      && |buffer| <= BUFFER <= maxPackets && |packets| <= maxPackets
      && results.Valid() && results.Abstract() == Run(Sheet([], map[]), analyzed, results.overhead)
    }

    /** Before the results are wanted: every packet is at one place. */
    ghost predicate Valid() reads this, results, results.zones {
      Sound() && written == analyzed + packets + buffer && (buffer == [] ==> written == [])
    }

    constructor (maxPackets: nat, overhead: Overhead)
      requires maxPackets >= BUFFER
      ensures Valid() && written == [] && fresh(results) && fresh(results.zones) && results.overhead == overhead
    {
      buffer, packets, written, analyzed := [], [], [], [];
      this.maxPackets := maxPackets;
      results := new Results(overhead);
    }

    /** Storage full: empty it. */
    method Flush()
      requires Sound() && AllFine(Sheet([], map[]), analyzed + packets + buffer, results.overhead)
      modifies this`packets, this`analyzed, results`numZones, results`stats, results`nodes, results.zones
      ensures Sound() && packets == [] && analyzed == old(analyzed + packets)
    {
      hide Run, AllFine, Shows, Zone;
      BatchesDoNotMatter(Sheet([], map[]), analyzed + packets, buffer, results.overhead);
      BatchesDoNotMatter(Sheet([], map[]), analyzed, packets, results.overhead);
      results.AnalyzePackets(packets);
      analyzed := analyzed + packets;
      packets := [];
    }

    /** Write */
    method Write(packet: Packet)
      requires Valid() && AllFine(Sheet([], map[]), written, results.overhead)
      modifies this`buffer, this`packets, this`analyzed, this`written, results`numZones, results`stats, results`nodes, results.zones
      ensures Valid() && written == old(written) + [packet]
    {
      hide Run, AllFine, Shows, Zone;
      if |buffer| == BUFFER {
        if |packets| + BUFFER > maxPackets { Flush(); }
        packets := packets + buffer;
        buffer := [];
      }
      buffer := buffer + [packet];
      written := written + [packet];
    }

    /** AnalyzeRemainingPackets: what is in the storage and then what is in the buffer; the
        storage is empty afterwards, the buffer is as before. */
    method AnalyzeRemaining()
      requires Sound() && AllFine(Sheet([], map[]), analyzed + packets + buffer, results.overhead)
      modifies this`packets, this`analyzed, results`numZones, results`stats, results`nodes, results.zones
      ensures Sound() && packets == [] && buffer == old(buffer) && analyzed == old(analyzed + packets + buffer)
      ensures old(Valid()) ==> analyzed == written && results.Abstract() == Run(Sheet([], map[]), written, results.overhead)
    {
      hide Run, AllFine, Shows, Zone;
      ghost var all := analyzed + packets + buffer;
      if |packets| + |buffer| > maxPackets { Flush(); }
      BatchesDoNotMatter(Sheet([], map[]), analyzed, packets + buffer, results.overhead);
      assert analyzed + (packets + buffer) == all;
      packets := packets + buffer;
      results.AnalyzePackets(packets);
      analyzed := all;
      packets := [];
    }

    /** Results printed twice: the second time they are those of the written packets followed by
        the buffered ones once more, and the same as before only if nothing was ever written. */
    method AnalyzeTwice() returns (ghost first: Sheet)
      requires Valid() && AllFine(Sheet([], map[]), written, results.overhead)
      requires AllFine(Sheet([], map[]), written + buffer, results.overhead)
      modifies this`packets, this`analyzed, results`numZones, results`stats, results`nodes, results.zones
      ensures Sound() && packets == [] && buffer == old(buffer)
      ensures first == Run(Sheet([], map[]), written, results.overhead)
      ensures results.Abstract() == Run(Sheet([], map[]), written + buffer, results.overhead)
      ensures results.Abstract() == first <==> written == []
    {
      hide Run, AllFine, Shows, Zone;
      AnalyzeRemaining();
      first := results.Abstract();
      assert analyzed + packets + buffer == written + buffer;
      AnalyzeRemaining();
      BatchesDoNotMatter(Sheet([], map[]), written, buffer, results.overhead);
      PacketsLeaveTraces(first, buffer, results.overhead);
    }
  }
}
