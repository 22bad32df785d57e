/** The zone profiler of highwayhash/profiler.h: packets of zone entries and exits, the
    stack that turns them into self times, and the self-organizing list of totals. */
module Profiler {

  const OFFSETS: nat := 0x200_0000        // 25 bits of name offset
  const BIAS: nat := 0x100_0000           // marks an exit
  const TIMES: nat := 0x80_0000_0000      // 39 bits of time stamp
  const CALLS: nat := 0x80_0000_0000      // 39 bits of call count
  const MAX_DEPTH := 64
  const MAX_ZONES := 256

  // ------------------------------------------------------------------- packed words

  datatype Packet = Packet(bits: nat)

  function Make(offset: nat, timestamp: nat): Packet requires offset < OFFSETS { Packet(offset * TIMES + timestamp % TIMES) }

  function Timestamp(p: Packet): nat { p.bits % TIMES }

  function Offset(p: Packet): nat { p.bits / TIMES }

  lemma PacketRoundTrip(offset: nat, timestamp: nat)
    requires offset < OFFSETS
    ensures Offset(Make(offset, timestamp)) == offset && Timestamp(Make(offset, timestamp)) == timestamp % TIMES
    ensures Make(offset, timestamp).bits < 0x1_0000_0000_0000_0000
  {
  }

  /** Calls in the low bits, the zone in the high ones. */
  datatype Accumulator = Accumulator(word: nat, total: nat)

  function Zone(a: Accumulator): nat { a.word / CALLS }

  function NumCalls(a: Accumulator): nat { a.word % CALLS }

  // ------------------------------------------------------------------ the plain form

  /** What is known of a zone: calls and self time. */
  type Stats = map<nat, (nat, nat)>

  function Tally(stats: Stats, zone: nat): (nat, nat) { if zone in stats then stats[zone] else (0, 0) }

  function Credit(stats: Stats, zone: nat, calls: nat, duration: nat): Stats {
    stats[zone := (Tally(stats, zone).0 + calls, Tally(stats, zone).1 + duration)]
  }

  /** The list holds exactly these totals, one entry for each zone. */
  ghost predicate Shows(zones: seq<Accumulator>, stats: Stats) {
    && |zones| == |stats|
    && (forall i, j :: 0 <= i < j < |zones| ==> Zone(zones[i]) != Zone(zones[j]))
    && (forall i :: 0 <= i < |zones| ==> Zone(zones[i]) in stats && stats[Zone(zones[i])] == (NumCalls(zones[i]), zones[i].total))
    && (forall z :: z in stats ==> Listed(zones, z))
  }

  ghost predicate Listed(zones: seq<Accumulator>, zone: nat) { exists i :: 0 <= i < |zones| && Zone(zones[i]) == zone }

  function Bump(a: Accumulator, calls: nat, duration: nat): Accumulator { Accumulator(a.word + calls, a.total + duration) }

  lemma BumpKeepsZone(a: Accumulator, calls: nat, duration: nat)
    requires NumCalls(a) + calls < CALLS
    ensures var b := Bump(a, calls, duration); Zone(b) == Zone(a) && NumCalls(b) == NumCalls(a) + calls && b.total == a.total + duration
  {
  }

  /** An entry is brought up to date and changes places with the one before it. */
  lemma Swapped(zones: seq<Accumulator>, stats: Stats, i: nat, k: nat, calls: nat, duration: nat)
    requires Shows(zones, stats) && i < |zones| && k <= i && NumCalls(zones[i]) + calls < CALLS
    ensures Shows(zones[i := zones[k]][k := Bump(zones[i], calls, duration)], Credit(stats, Zone(zones[i]), calls, duration))
  {
    hide Bump, Zone, NumCalls, Listed;
    var z := Zone(zones[i]);
    var zones', stats' := zones[i := zones[k]][k := Bump(zones[i], calls, duration)], Credit(stats, z, calls, duration);
    BumpKeepsZone(zones[i], calls, duration);
    SameSize(stats, stats');
    forall x | x in stats' ensures Listed(zones', x) { StillListed(zones, zones', i, k, x); }
  }

  lemma StillListed(zones: seq<Accumulator>, zones': seq<Accumulator>, i: nat, k: nat, x: nat)
    requires Listed(zones, x) && i < |zones| == |zones'| && k < |zones|
    requires Zone(zones'[k]) == Zone(zones[i]) && (k != i ==> zones'[i] == zones[k])
    requires forall m :: 0 <= m < |zones| && m != i && m != k ==> zones'[m] == zones[m]
    ensures Listed(zones', x)
  {
  }

  lemma SameSize(a: Stats, b: Stats)
    requires a.Keys == b.Keys
    ensures |a| == |b|
  {
  }

  lemma OneLarger(a: Stats, b: Stats, zone: nat)
    requires zone !in a && b.Keys == a.Keys + {zone}
    ensures |b| == |a| + 1
  {
  }

  lemma Packed(zone: nat, calls: nat, duration: nat)
    requires calls < CALLS
    ensures var a := Accumulator(zone * CALLS + calls, duration); Zone(a) == zone && NumCalls(a) == calls
  {
  }

  lemma Appended(zones: seq<Accumulator>, stats: Stats, zone: nat, calls: nat, duration: nat)
    requires Shows(zones, stats) && zone !in stats && calls < CALLS
    ensures Shows(zones + [Accumulator(zone * CALLS + calls, duration)], Credit(stats, zone, calls, duration))
  {
    hide Zone, NumCalls, Listed;
    var a := Accumulator(zone * CALLS + calls, duration);
    var zones', stats' := zones + [a], Credit(stats, zone, calls, duration);
    Packed(zone, calls, duration);
    OneLarger(stats, stats', zone);
    forall x | x in stats' ensures Listed(zones', x) { ListedToo(zones, a, x); }
  }

  lemma ListedToo(zones: seq<Accumulator>, a: Accumulator, x: nat)
    requires Listed(zones, x) || Zone(a) == x
    ensures Listed(zones + [a], x)
  {
    if Zone(a) == x {
      assert Zone((zones + [a])[|zones|]) == x;
    } else {
      var m :| 0 <= m < |zones| && Zone(zones[m]) == x;
      assert Zone((zones + [a])[m]) == x;
    }
  }

  // ------------------------------------------------------------------- self times

  datatype Node = Node(packet: Packet, childTotal: nat)

  /** The zones being timed, innermost last, and the totals of those that are over. */
  datatype Sheet = Sheet(nodes: seq<Node>, stats: Stats)

  datatype Overhead = Overhead(self: nat, child: nat)

  /** ClampedSubtract */
  function Clamped(a: nat, b: nat): nat { if b > a then 0 else a - b }

  /** From one time stamp to the next; the mask takes care of one wrap. */
  function Elapsed(from: Packet, to: Packet): nat { (Timestamp(to) - Timestamp(from)) % TIMES }

  /** The nodes after the innermost has ended. */
  function Closed(nodes: seq<Node>, duration: nat): seq<Node> requires nodes != [] {
    var n := |nodes| - 1;
    if n == 0 then [] else nodes[..n][n - 1 := nodes[n - 1].(childTotal := nodes[n - 1].childTotal + duration)]
  }

  function SelfTime(node: Node, p: Packet, o: Overhead): nat {
    Clamped(Elapsed(node.packet, p), o.self + o.child + node.childTotal)
  }

  function Step(x: Sheet, p: Packet, o: Overhead): Sheet {
    if Offset(p) != BIAS then x.(nodes := x.nodes + [Node(p, 0)])
    else if x.nodes == [] then x
    else
      var node := x.nodes[|x.nodes| - 1];
      Sheet(Closed(x.nodes, Elapsed(node.packet, p) + o.child), Credit(x.stats, Offset(node.packet), 1, SelfTime(node, p, o)))
  }

  /** What the program asserts of the next packet: the stack does not overflow or
      underflow, there is room for the zone, and its calls can be counted. */
  ghost predicate Fine(x: Sheet, p: Packet) {
    if Offset(p) != BIAS then |x.nodes| < MAX_DEPTH
    else
      && x.nodes != [] && Creditable(x.stats, Offset(x.nodes[|x.nodes| - 1].packet), 1)
      && !Overlooked(x.stats, Offset(x.nodes[|x.nodes| - 1].packet))
  }

  ghost predicate Creditable(stats: Stats, zone: nat, calls: nat) {
    Tally(stats, zone).0 + calls < CALLS && (zone in stats || |stats| < MAX_ZONES)
  }

  /** The one case in which the list forgets a call: a first zone whose biased offset is
      zero looks like the unused first entry. */
  ghost predicate Overlooked(stats: Stats, zone: nat) { zone == 0 && stats == map[] }

  function Run(x: Sheet, ps: seq<Packet>, o: Overhead): Sheet {
    if ps == [] then x else Step(Run(x, ps[..|ps| - 1], o), ps[|ps| - 1], o)
  }

  ghost predicate AllFine(x: Sheet, ps: seq<Packet>, o: Overhead) {
    ps == [] || (AllFine(x, ps[..|ps| - 1], o) && Fine(Run(x, ps[..|ps| - 1], o), ps[|ps| - 1]))
  }

  /** Packets analyzed in two batches give what they give in one. */
  lemma {:induction false} BatchesDoNotMatter(x: Sheet, a: seq<Packet>, b: seq<Packet>, o: Overhead)
    ensures Run(x, a + b, o) == Run(Run(x, a, o), b, o)
    ensures AllFine(x, a + b, o) <==> AllFine(x, a, o) && AllFine(Run(x, a, o), b, o)
    decreases |b|
  {
    hide Step, Fine;
    if b == [] {
      assert a + b == a;
    } else {
      var n := |b| - 1;
      assert (a + b)[..|a + b| - 1] == a + b[..n];
      BatchesDoNotMatter(x, a, b[..n], o);
    }
  }

  class Results {
    const zones: array<Accumulator>
    var numZones: nat
    var nodes: seq<Node>
    const overhead: Overhead

    ghost var stats: Stats

    ghost predicate Valid() reads this, zones {
      && zones.Length == MAX_ZONES && numZones <= MAX_ZONES && Shows(zones[..numZones], stats)
      && (numZones == 0 ==> Zone(zones[0]) == 0)
    }

    ghost function Abstract(): Sheet reads this { Sheet(nodes, stats) }

    constructor (overhead: Overhead)
      ensures Valid() && fresh(zones) && Abstract() == Sheet([], map[]) && this.overhead == overhead
    {
      zones := new Accumulator[MAX_ZONES](_ => Accumulator(0, 0));
      numZones, nodes, stats := 0, [], map[];
      this.overhead := overhead;
      new;
    }

    /** UpdateOrAdd: the totals change as in a plain map, except that a first zone at
        offset zero is overlooked. */
    method UpdateOrAdd(zone: nat, calls: nat, duration: nat)
      requires Valid() && Creditable(stats, zone, calls)
      requires Overlooked(stats, zone) ==> NumCalls(zones[0]) + calls < CALLS
      modifies this`numZones, this`stats, zones
      ensures Valid() && stats == if Overlooked(old(stats), zone) then old(stats) else Credit(old(stats), zone, calls, duration)
    {
      hide Zone, NumCalls, Shows, Credit, Bump, Listed, Tally;
      ShowsFacts(zones[..numZones], stats, zone);
      ghost var before := zones[..numZones];
      if Zone(zones[0]) == zone {
        if numZones == 0 {
          BumpKeepsZone(zones[0], calls, duration);
          zones[0] := Bump(zones[0], calls, duration);
          assert zones[..numZones] == before;
        } else {
          Swapped(before, stats, 0, 0, calls, duration);
          zones[0] := Bump(zones[0], calls, duration);
          assert zones[..numZones] == before[0 := before[0]][0 := Bump(before[0], calls, duration)];
          stats := Credit(stats, zone, calls, duration);
        }
        return;
      }
      var i := IndexOf(zone);
      if i < numZones {
        Swapped(before, stats, i, i - 1, calls, duration);
        var prev := zones[i - 1];
        zones[i - 1] := Bump(zones[i], calls, duration);
        zones[i] := prev;
        assert zones[..numZones] == before[i := before[i - 1]][i - 1 := Bump(before[i], calls, duration)];
      } else {
        Appended(before, stats, zone, calls, duration);
        zones[numZones] := Accumulator(zone * CALLS + calls, duration);
        numZones := numZones + 1;
        assert zones[..numZones] == before + [Accumulator(zone * CALLS + calls, duration)];
      }
      stats := Credit(stats, zone, calls, duration);
    }

    /** The search behind the first entry. */
    method IndexOf(zone: nat) returns (i: nat)
      requires zones.Length == MAX_ZONES && numZones <= MAX_ZONES && Zone(zones[0]) != zone
      ensures 1 <= i && (i < numZones ==> Zone(zones[i]) == zone)
      ensures i >= numZones ==> forall j :: 0 <= j < numZones ==> Zone(zones[j]) != zone
    {
      hide Zone;
      i := 1;
      while i < numZones
        invariant 1 <= i && forall j :: 0 <= j < i && j < numZones ==> Zone(zones[j]) != zone
      {
        if Zone(zones[i]) == zone { return; }
        i := i + 1;
      }
    }

    /** One packet of AnalyzePackets. */
    method Analyze(p: Packet)
      requires Valid() && Fine(Abstract(), p)
      modifies this`numZones, this`stats, this`nodes, zones
      ensures Valid() && Abstract() == Step(old(Abstract()), p, overhead)
    {
      hide Zone, NumCalls, Shows, Credit, Listed, Tally, Creditable;
      if Offset(p) != BIAS {
        nodes := nodes + [Node(p, 0)];
        return;
      }
      var node := nodes[|nodes| - 1];
      var duration := (Timestamp(p) - Timestamp(node.packet)) % TIMES;
      var self := Clamped(duration, overhead.self + overhead.child + node.childTotal);
      UpdateOrAdd(Offset(node.packet), 1, self);
      nodes := nodes[..|nodes| - 1];
      if |nodes| != 0 {
        var n := |nodes| - 1;
        nodes := nodes[n := nodes[n].(childTotal := nodes[n].childTotal + (duration + overhead.child))];
      }
    }

    /** AnalyzePackets */
    method AnalyzePackets(packets: seq<Packet>)
      requires Valid() && AllFine(Abstract(), packets, overhead)
      modifies this`numZones, this`stats, this`nodes, zones
      ensures Valid() && Abstract() == Run(old(Abstract()), packets, overhead)
    {
      hide Step, Fine, Shows, Zone;
      var i := 0;
      assert packets[..0] == [];
      while i < |packets|
        invariant 0 <= i <= |packets| && Valid() && Abstract() == Run(old(Abstract()), packets[..i], overhead)
      {
        BatchesDoNotMatter(old(Abstract()), packets[..i + 1], packets[i + 1..], overhead);
        assert packets[..i + 1] + packets[i + 1..] == packets;
        assert packets[..i + 1][..i] == packets[..i] && packets[..i + 1][i] == packets[i];
        Analyze(packets[i]);
        i := i + 1;
      }
      assert packets[..i] == packets;
    }
  }

  lemma ShowsFacts(zones: seq<Accumulator>, stats: Stats, zone: nat)
    requires Shows(zones, stats)
    ensures |zones| == |stats|
    ensures forall i :: 0 <= i < |zones| && Zone(zones[i]) == zone ==> Tally(stats, zone).0 == NumCalls(zones[i]) && zone in stats
    ensures (forall i :: 0 <= i < |zones| ==> Zone(zones[i]) != zone) ==> zone !in stats
  {
  }
}
