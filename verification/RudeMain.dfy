/** main of rude/main.c: read the configuration, open the sockets, transmit, clean up. */
module RudeMain {
  import opened Common
  import opened Rude
  import opened FlowControl
  import opened Parser
  import opened ReadConfig
  import opened Sockets
  import CleanUp

  /** A whole run.  Whatever the file says and however the sockets and the clock behave,
      every block is freed once.  Every socket is closed as often as it was opened exactly
      when no bound flow got descriptor 0. */
  method Run(lines: seq<Line>, socket: nat -> Answer, nows: seq<Time>, delivered: seq<bool>)
    returns (s: Scheduler, result: int, freed: seq<nat>)
    requires |delivered| == |nows| && forall k :: 0 <= k < |lines| ==> LineOk(lines[k])
    ensures s.head == s.done == Null && Distinct(freed) && forall b: nat :: b in freed <==> b < |s.flows|
    ensures var x := Steps(lines);
            var errors := x.errors + OpenIn(x.plan, |x.plan|);
            result == if errors > 0 then -errors else x.commands
    ensures result <= 0 ==> s.sent == [] && s.created == s.closed == []
    ensures result > 0 ==> s.created == Returned(socket, |Steps(lines).plan|)
    ensures result > 0 ==> multiset(s.created) == multiset(s.closed) + Zeros(AtZero(socket, |Steps(lines).plan|))
    ensures result > 0 ==>
      (multiset(s.closed) == multiset(s.created) <==> forall i: nat :: i < |Steps(lines).plan| ==> !(socket(i).fd == 0 && socket(i).bound))
    ensures forall i :: 0 <= i < |Steps(lines).plan| ==> Numbered(s.sent, Steps(lines).plan[i].id)
    ensures result > 0 && s.sent != [] ==> forall i: nat :: i < |Steps(lines).plan| ==> Granted(socket(i))
  {
    hide Ready, Represents, Shape, Books, Steps, CleanUp.Open, Distinct, Returned, Unbound, AtZero, Zeros, Granted, Kept;
    s := new Scheduler();
    result := ReadCfg(s, lines);
    ghost var plan, g, flows := Steps(lines).plan, s.g, s.flows;
    ReadyFacts(s.flows, s.head, s.g, plan);
    if result > 0 {
      var failures := OpenSockets(s, socket);
      SameTitles(flows, s.flows, g, s.g, plan);
      hide SameEntries, Titles;
      ReadyIsValid(s.flows, s.head, s.g, s.sent, s.closed);
      if failures == 0 {
        ghost var flows1 := s.flows;
        var over := s.Run(nows, delivered);
        SameTitles(flows1, s.flows, g, s.g, plan);
      }
    } else {
      ReadyIsValid(s.flows, s.head, s.g, s.sent, s.closed);
    }
    AllNumbered(s.flows, s.head, s.done, s.g, s.sent, s.closed, plan);
    freed := CleanUp.CleanUp(s);
    if result > 0 {
      ClosedIffNoZero(socket, s.g.socks, s.created, s.closed);
    } else {
      NothingOpened(s.g, s.closed);
    }
  }

  /** Without sockets there is nothing to close. */
  lemma NothingOpened(g: Chart, closed: seq<int>)
    requires NoSocks(g) && multiset(closed) == g.refused + CleanUp.Open(g.socks, |g.socks|)
    ensures closed == []
  {
    NoneOpen(g.socks, |g.socks|);
    assert |multiset(closed)| == 0;
  }

  lemma {:induction false} NoneOpen(socks: seq<int>, n: nat)
    requires n <= |socks| && forall i :: 0 <= i < |socks| ==> socks[i] == 0
    ensures CleanUp.Open(socks, n) == multiset{}
  {
    if n > 0 { NoneOpen(socks, n - 1); }
  }

  /** The packets of a flow are numbered 0, 1, 2, ... in the order they were sent. */
  ghost predicate Numbered(sent: seq<Packet>, id: int) { exists n: nat :: SeqNos(sent, id) == UpTo(n) }

  /** The flows of the chart, in order, are those of the configuration. */
  ghost predicate Titles(flows: seq<Flow>, g: Chart, plan: seq<Course>) {
    && |plan| == |g.chains|
    && forall i :: 0 <= i < |plan| ==> |g.chains[i]| > 0 && g.chains[i][0] < |flows| && flows[g.chains[i][0]].id == plan[i].id
  }

  lemma AllNumbered(flows: seq<Flow>, head: Ptr, done: Ptr, g: Chart, sent: seq<Packet>, closed: seq<int>, plan: seq<Course>)
    requires Shape(flows, head, done, g) && Books(flows, g, sent, closed) && Titles(flows, g, plan)
    ensures forall i :: 0 <= i < |plan| ==> Numbered(sent, plan[i].id)
  {
    forall i | 0 <= i < |plan| ensures Numbered(sent, plan[i].id) {
      assert FlowOk(flows, g, sent, i);
      assert SeqNos(sent, plan[i].id) == UpTo(Tally(flows, g.chains[i], |g.chains[i]|));
    }
  }

  lemma SameTitles(flows: seq<Flow>, flows': seq<Flow>, g: Chart, g': Chart, plan: seq<Course>)
    requires Titles(flows, g, plan) && SameEntries(flows, flows') && g'.chains == g.chains
    ensures Titles(flows', g', plan)
  {
  }

  lemma ReadyFacts(flows: seq<Flow>, head: Ptr, g: Chart, plan: seq<Course>)
    requires Ready(flows, head, g) && Represents(plan, flows, g)
    ensures |g.socks| == |plan| == |g.chains| && Titles(flows, g, plan)
  {
  }
}
