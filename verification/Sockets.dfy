/** open_sockets of rude/main.c, and what becomes of every socket it opens. */
module Sockets {
  import opened Common
  import opened Rude
  import opened FlowControl
  import opened Parser
  import opened ReadConfig
  import CleanUp

  /** What the system answers for one flow: the descriptor, negative if there is none,
      whether bind succeeds, and whether the flags can be read and set. */
  datatype Answer = Answer(fd: int, bound: bool, flags: bool)

  predicate Granted(a: Answer) { a.fd >= 0 && a.bound && a.flags }

  predicate Rejected(a: Answer) { a.fd >= 0 && !a.bound }

  /** What is left in send_sock. */
  function Kept(a: Answer): int { if Rejected(a) then 0 else a.fd }

  function Got(a: Answer): seq<int> { if a.fd >= 0 then [a.fd] else [] }

  function Lost(a: Answer): seq<int> { if Rejected(a) then [a.fd] else [] }

  /** Every descriptor that socket() returned for the first n flows. */
  ghost function Returned(socket: nat -> Answer, n: nat): seq<int> {
    if n == 0 then [] else Returned(socket, n - 1) + Got(socket(n - 1))
  }

  /** Those closed at once because bind failed. */
  ghost function Unbound(socket: nat -> Answer, n: nat): seq<int> {
    if n == 0 then [] else Unbound(socket, n - 1) + Lost(socket(n - 1))
  }

  // --------------------------------------------------------------- opening

  lemma OpenNext(flows: seq<Flow>, head: Ptr, g: Chart, i: nat, fd: int, refused: multiset<int>)
    requires Ready(flows, head, g) && i < |g.chains|
    ensures AtStart(g) && Leader(g, i) < |flows| && |g.socks| == |g.chains| && flows[Leader(g, i)].next == LeaderAt(g, i + 1)
    ensures var b := Leader(g, i); Ready(flows[b := flows[b].(sock := fd)], head, g.(socks := g.socks[i := fd], refused := refused))
  {
    var b, g' := Leader(g, i), g.(socks := g.socks[i := fd], refused := refused);
    var flows' := flows[b := flows[b].(sock := fd)];
    PartitionAt(g, |flows|, i, 0);
    OpenOne(flows, g, i, fd, refused);
    hide Unused, SockOf, ContentOk;
    SameLinks(flows, flows', head, g);
    hide Links, ModsOk, Ids, Partition;
    OtherSocks(flows', head, g, g');
  }

  lemma OpenOne(flows: seq<Flow>, g: Chart, i: nat, fd: int, refused: multiset<int>)
    requires AtStart(g) && Partition(g, |flows|) && i < |g.chains| && Leader(g, i) < |flows|
    requires forall b :: 0 <= b < |flows| ==> ContentOk(flows[b]) && Unused(flows[b], SockOf(g, b))
    ensures var b, g' := Leader(g, i), g.(socks := g.socks[i := fd], refused := refused);
            var flows' := flows[b := flows[b].(sock := fd)];
            Partition(g', |flows|) && forall c :: 0 <= c < |flows'| ==> ContentOk(flows'[c]) && Unused(flows'[c], SockOf(g', c))
  {
  }

  lemma OtherSocks(flows: seq<Flow>, head: Ptr, g: Chart, g': Chart)
    requires AtStart(g) && Partition(g, |flows|) && Links(flows, head, g) && ModsOk(flows, g) && Ids(flows, g)
    requires g' == g.(socks := g'.socks, refused := g'.refused) && |g'.socks| == |g.socks|
    ensures AtStart(g') && Partition(g', |flows|) && Links(flows, head, g') && ModsOk(flows, g') && Ids(flows, g')
  {
    forall j: nat | j < |g.chains| ensures Leader(g', j) == Leader(g, j) {}
    forall j: nat ensures LeaderAt(g', j) == LeaderAt(g, j) {}
  }

  /** The body of the loop of open_sockets: what goes to send_sock, and 1 for a failure. */
  method OpenSocket(s: Scheduler, a: Answer) returns (fd: int, failed: nat)
    modifies s`created, s`closed
    ensures fd == Kept(a) && failed <= 1 && (failed == 0 <==> Granted(a))
    ensures s.created == old(s.created) + Got(a) && s.closed == old(s.closed) + Lost(a)
  {
    fd, failed := a.fd, 0;
    if fd < 0 {
      failed := 1;
    } else {
      s.created := s.created + [fd];
      if !a.bound {
        s.closed := s.closed + [fd];
        fd, failed := 0, 1;
      } else if !a.flags {
        failed := 1;
      }
    }
  }

  /** open_sockets: a failure is counted and the next flow is tried. */
  method OpenSockets(s: Scheduler, socket: nat -> Answer) returns (result: int)
    requires Ready(s.flows, s.head, s.g) && s.created == s.closed == [] && s.g.refused == multiset{}
    modifies s`flows, s`g, s`created, s`closed
    ensures Ready(s.flows, s.head, s.g) && SameEntries(old(s.flows), s.flows)
    ensures s.g == old(s.g).(socks := s.g.socks, refused := s.g.refused) && |s.g.socks| == |s.g.chains|
    ensures forall i :: 0 <= i < |s.g.socks| ==> s.g.socks[i] == Kept(socket(i))
    ensures s.created == Returned(socket, |s.g.chains|)
    ensures s.closed == Unbound(socket, |s.g.chains|) && s.g.refused == multiset(s.closed)
    ensures result <= 0 && (result == 0 <==> forall i: nat :: i < |s.g.chains| ==> Granted(socket(i)))
  {
    hide Ready, AtStart, Kept, Granted, Got, Lost;
    OpenStarts(s.flows, s.head, s.g);
    result := 0;
    var flow, i := s.head, 0;
    while flow != Null
      invariant AtStart(s.g) && i <= |s.g.chains| == |s.g.socks| && flow == LeaderAt(s.g, i) && SameEntries(old(s.flows), s.flows)
      invariant Ready(s.flows, s.head, s.g) && s.g == old(s.g).(socks := s.g.socks, refused := s.g.refused)
      invariant forall j :: 0 <= j < i ==> s.g.socks[j] == Kept(socket(j))
      invariant s.created == Returned(socket, i) && s.closed == Unbound(socket, i) && s.g.refused == multiset(s.closed)
      invariant result <= 0 && (result == 0 <==> forall j: nat :: j < i ==> Granted(socket(j)))
      decreases |s.g.chains| - i
    {
      var b := flow.b;
      var fd, failed := OpenSocket(s, socket(i));
      OpenNext(s.flows, s.head, s.g, i, fd, multiset(s.closed));
      result := result - failed;
      s.flows := s.flows[b := s.flows[b].(sock := fd)];
      s.g := s.g.(socks := s.g.socks[i := fd], refused := multiset(s.closed));
      OpenStarts(s.flows, s.head, s.g);
      flow := s.flows[b].next;
      i := i + 1;
    }
  }

  lemma OpenStarts(flows: seq<Flow>, head: Ptr, g: Chart)
    requires Ready(flows, head, g)
    ensures AtStart(g) && head == LeaderAt(g, 0) && |g.socks| == |g.chains|
  {
  }

  // --------------------------------------------------------------- the account

  /** Flows whose socket got descriptor 0 and was bound. */
  ghost function AtZero(socket: nat -> Answer, n: nat): nat {
    if n == 0 then 0 else AtZero(socket, n - 1) + ZeroAt(socket(n - 1))
  }

  ghost function ZeroAt(a: Answer): nat { if a.fd == 0 && a.bound then 1 else 0 }

  /** k sockets with descriptor 0. */
  ghost function Zeros(k: nat): multiset<int> { multiset{}[0 := k] }

  /** What socket() returned is what open_sockets closed, what the closing code sees, and the
      bound sockets with descriptor 0. */
  lemma {:induction false} Account(socket: nat -> Answer, socks: seq<int>, n: nat)
    requires n <= |socks| && forall i :: 0 <= i < n ==> socks[i] == Kept(socket(i))
    ensures multiset(Returned(socket, n)) == multiset(Unbound(socket, n)) + CleanUp.Open(socks, n) + Zeros(AtZero(socket, n))
  {
    hide Got, Lost, Kept, Zeros, CleanUp.OpenAt, ZeroAt;
    NoZeros();
    if n > 0 {
      var a := socket(n - 1);
      assert socks[n - 1] == Kept(a);
      Account(socket, socks, n - 1);
      var r, u, o, k := Returned(socket, n - 1), Unbound(socket, n - 1), CleanUp.Open(socks, n - 1), AtZero(socket, n - 1);
      OneSocket(a, multiset(r), multiset(u), o, k);
      Joined(r, Got(a));
      Joined(u, Lost(a));
    }
  }

  lemma NoZeros()
    ensures Zeros(0) == multiset{}
  {
  }

  lemma Joined(a: seq<int>, b: seq<int>)
    ensures multiset(a + b) == multiset(a) + multiset(b)
  {
  }

  /** Every answer of the system falls under exactly one of the three heads, or opened nothing. */
  lemma OneSocket(a: Answer, r: multiset<int>, u: multiset<int>, o: multiset<int>, k: nat)
    requires r == u + o + Zeros(k)
    ensures r + multiset(Got(a)) == u + multiset(Lost(a)) + (o + CleanUp.OpenAt(Kept(a))) + Zeros(k + ZeroAt(a))
  {
    assert Zeros(k + 1) == Zeros(k) + multiset{0};
    if a.fd >= 0 { assert multiset(Got(a)) == multiset{a.fd}; }
    if Rejected(a) { assert multiset(Lost(a)) == multiset{a.fd}; }
  }

  lemma {:induction false} NoneAtZero(socket: nat -> Answer, n: nat)
    ensures AtZero(socket, n) == 0 <==> forall i: nat :: i < n ==> !(socket(i).fd == 0 && socket(i).bound)
  {
    if n > 0 { NoneAtZero(socket, n - 1); }
  }

  /** A run that ends in clean_up closes each socket as often as it was opened exactly
      when no bound flow got descriptor 0. */
  lemma ClosedIffNoZero(socket: nat -> Answer, socks: seq<int>, created: seq<int>, closed: seq<int>)
    requires forall i :: 0 <= i < |socks| ==> socks[i] == Kept(socket(i))
    requires created == Returned(socket, |socks|)
    requires multiset(closed) == multiset(Unbound(socket, |socks|)) + CleanUp.Open(socks, |socks|)
    ensures multiset(created) == multiset(closed) + Zeros(AtZero(socket, |socks|))
    ensures multiset(closed) == multiset(created) <==> forall i: nat :: i < |socks| ==> !(socket(i).fd == 0 && socket(i).bound)
  {
    Account(socket, socks, |socks|);
    NoneAtZero(socket, |socks|);
    assert Zeros(AtZero(socket, |socks|))[0] == AtZero(socket, |socks|);
    assert (multiset(closed) + Zeros(AtZero(socket, |socks|)))[0] == multiset(closed)[0] + AtZero(socket, |socks|);
  }

  /** One flow, and socket() returns 0: bind succeeds, the flow may transmit, and its socket is never closed. */
  lemma DescriptorZero(socket: nat -> Answer, closed: seq<int>)
    requires socket(0) == Answer(0, true, true)
    requires multiset(closed) == multiset(Unbound(socket, 1)) + CleanUp.Open([Kept(socket(0))], 1)
    ensures Granted(socket(0)) && Returned(socket, 1) == [0] && closed == []
  {
    assert |multiset(closed)| == |closed|;
  }
}
