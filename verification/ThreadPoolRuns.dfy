/** Runs of the thread pool in which its counter goes as far as it can. */
module ThreadPoolRuns {
  import opened Common
  import opened ThreadPool

  /** A run of a pool of n workers in which every call is Run(b, e). */
  ghost predicate RunsOf(run: seq<State>, steps: seq<Action>, b: nat, e: nat, n: nat) {
    && IsRun(run, steps) && |run[0].workers| == n
    && forall i :: 0 <= i < |steps| && steps[i].CallRun? ==> steps[i] == CallRun(b, e)
  }

  /** A run goes on by any step its last state enables. */
  lemma Extend(run: seq<State>, steps: seq<Action>, b: nat, e: nat, n: nat, a: Action, s: State, s': State)
    returns (r: seq<State>, q: seq<Action>)
    requires RunsOf(run, steps, b, e, n) && s == run[|run| - 1] && Enabled(s, a) && s' == Step(s, a).0 && (a.CallRun? ==> a == CallRun(b, e))
    ensures RunsOf(r, q, b, e, n) && r[|r| - 1] == s' && |r| == |run| + 1 && r[|r| - 2] == s && q == steps + [a]
  {
    hide Enabled, Step, Init;
    r, q := run + [s'], steps + [a];
  }

  lemma NotEmpty(run: seq<State>, steps: seq<Action>, b: nat, e: nat, n: nat)
    requires RunsOf(run, steps, b, e, n)
    ensures |run| > 0
  {
  }

  // -------------------------------------------------------------------- crews

  /** Worker 0 as given, workers 1 to k one way, the others another. */
  ghost function Crew(n: nat, zero: Worker, k: nat, done: Worker, rest: Worker): seq<Worker> {
    seq(n, t => if t == 0 then zero else if t <= k then done else rest)
  }

  lemma CrewSteps(n: nat, zero: Worker, k: nat, done: Worker, rest: Worker, w: Worker)
    requires n > 0
    ensures |Crew(n, zero, k, done, rest)| == n && Crew(n, zero, k, done, rest)[0] == zero
    ensures Crew(n, zero, k, done, rest)[0 := w] == Crew(n, w, k, done, rest)
    ensures k + 1 < n ==>
      Crew(n, zero, k, done, rest)[k + 1] == rest && Crew(n, zero, k, done, rest)[k + 1 := done] == Crew(n, zero, k + 1, done, rest)
    ensures k + 1 >= n ==> Crew(n, zero, k, done, rest) == Crew(n, zero, 0, rest, done)
  {
    assert Crew(n, zero, k, done, rest)[0 := w] == Crew(n, w, k, done, rest);
    if k + 1 < n { assert Crew(n, zero, k, done, rest)[k + 1 := done] == Crew(n, zero, k + 1, done, rest); }
    if k + 1 >= n { assert Crew(n, zero, k, done, rest) == Crew(n, zero, 0, rest, done); }
  }

  /** During Run(b, e). */
  ghost function On(b: nat, e: nat, crew: seq<Worker>, reserved: int, ran: seq<int>): State {
    State(Barrier(b, e), crew, 0, Encode(b, e), reserved, ran)
  }

  // ------------------------------------------------------- single steps of a worker

  lemma Loads(s: State, t: Tid, first: int, num: int)
    requires t < |s.workers| && s.workers[t] == Load(first, num)
    ensures Enabled(s, RunWorker(t))
    ensures Step(s, RunWorker(t)).0 == s.(workers := s.workers[t := Take(first, num, Share(Int(num - s.reserved), |s.workers|))])
  {
  }

  lemma Takes(s: State, t: Tid, first: int, num: int, size: int, b: int, e: int)
    requires t < |s.workers| && s.workers[t] == Take(first, num, size)
    requires b == Int(first + s.reserved) && e == Min(Int(b + size), Int(first + num))
    ensures Enabled(s, RunWorker(t))
    ensures Step(s, RunWorker(t)).0 ==
            s.(reserved := Int(s.reserved + size), workers := s.workers[t := if b >= e then Arriving else Work(first, num, b, e)])
  {
  }

  lemma Works(s: State, t: Tid, first: int, num: int, i: int, e: int)
    requires t < |s.workers| && s.workers[t] == Work(first, num, i, e)
    ensures Enabled(s, RunWorker(t))
    ensures var s' := Step(s, RunWorker(t)).0; s'.main == s.main && s'.ran == s.ran + [i]
  {
  }

  // ------------------------------------------------------------------ the start

  lemma {:induction false} Arrive(b: nat, e: nat, n: nat, k: nat) returns (run: seq<State>, steps: seq<Action>)
    requires b < e < INT_RANGE && 0 <= k < n < INT_RANGE / 2
    ensures RunsOf(run, steps, b, e, n)
    ensures run[|run| - 1] == State(Constructing, Crew(n, Waiting, k, Waiting, Arriving), k + 1, 0, 0, [])
  {
    if k == 0 {
      var s := State(Constructing, Crew(n, Arriving, 0, Arriving, Arriving), 0, 0, 0, []);
      run, steps := [s], [];
      CrewSteps(n, Arriving, 0, Arriving, Arriving, Waiting);
      assert Crew(n, Waiting, 0, Arriving, Arriving) == Crew(n, Waiting, 0, Waiting, Arriving);
      run, steps := Extend(run, steps, b, e, n, RunWorker(0), s, s.(workers := Crew(n, Waiting, 0, Waiting, Arriving), ready := 1));
    } else {
      run, steps := Arrive(b, e, n, k - 1);
      var s := run[|run| - 1];
      CrewSteps(n, Waiting, k - 1, Waiting, Arriving, Waiting);
      run, steps := Extend(run, steps, b, e, n, RunWorker(k), s, s.(workers := Crew(n, Waiting, k, Waiting, Arriving), ready := k + 1));
    }
  }

  /** All workers are awake and nothing is reserved. */
  lemma Awake(b: nat, e: nat, n: nat) returns (run: seq<State>, steps: seq<Action>)
    requires b < e < INT_RANGE && 0 < n < INT_RANGE / 2
    ensures RunsOf(run, steps, b, e, n) && run[|run| - 1] == On(b, e, Crew(n, Woken, 0, Woken, Woken), 0, [])
  {
    run, steps := Arrive(b, e, n, n - 1);
    var crew := Crew(n, Waiting, 0, Arriving, Waiting);
    CrewSteps(n, Waiting, n - 1, Waiting, Arriving, Waiting);
    var s0 := State(Constructing, crew, n, 0, 0, []);
    var s1 := s0.(main := Idle, ready := 0);
    run, steps := Extend(run, steps, b, e, n, RunMain, s0, s1);
    var s2 := s1.(main := Reset(b, e));
    run, steps := Extend(run, steps, b, e, n, CallRun(b, e), s1, s2);
    var s3 := s2.(main := Command(b, e));
    run, steps := Extend(run, steps, b, e, n, RunMain, s2, s3);
    var s4 := s3.(main := Notify(b, e), command := Encode(b, e));
    run, steps := Extend(run, steps, b, e, n, RunMain, s3, s4);
    var s5 := On(b, e, Crew(n, Woken, 0, Woken, Woken), 0, []);
    assert seq(|crew|, t requires 0 <= t < |crew| => Wake(crew[t])) == s5.workers;
    run, steps := Extend(run, steps, b, e, n, RunMain, s4, s5);
  }

  /** The share everybody asks for at the start. */
  ghost function Asking(b: nat, e: nat, n: nat): Worker requires b <= e && n > 0 { Take(b, e - b, Largest(e - b, n)) }

  lemma AskFirst(b: nat, e: nat, n: nat, crew: seq<Worker>, t: nat, run: seq<State>, steps: seq<Action>)
    returns (r: seq<State>, q: seq<Action>)
    requires b < e < INT_RANGE && 0 < n < INT_RANGE / 2 && t < n == |crew| && crew[t] == Woken
    requires RunsOf(run, steps, b, e, n) && run[|run| - 1] == On(b, e, crew, 0, [])
    ensures RunsOf(r, q, b, e, n) && r[|r| - 1] == On(b, e, crew[t := Asking(b, e, n)], 0, [])
  {
    CommandRoundTrip(b, e);
    var s := On(b, e, crew, 0, []);
    var s1 := s.(workers := crew[t := Load(b, e - b)]);
    r, q := Extend(run, steps, b, e, n, RunWorker(t), s, s1);
    assert s1.workers[t := Asking(b, e, n)] == crew[t := Asking(b, e, n)];
    r, q := Extend(r, q, b, e, n, RunWorker(t), s1, s1.(workers := crew[t := Asking(b, e, n)]));
  }

  /** Workers 0 to k have asked for their first share and not yet taken it. */
  lemma {:induction false} AllAsk(b: nat, e: nat, n: nat, k: nat) returns (run: seq<State>, steps: seq<Action>)
    requires b < e < INT_RANGE && 0 <= k < n < INT_RANGE / 2
    ensures RunsOf(run, steps, b, e, n)
    ensures run[|run| - 1] == On(b, e, Crew(n, Asking(b, e, n), k, Asking(b, e, n), Woken), 0, [])
  {
    var w := Asking(b, e, n);
    if k == 0 {
      run, steps := Awake(b, e, n);
      CrewSteps(n, Woken, 0, Woken, Woken, w);
      run, steps := AskFirst(b, e, n, Crew(n, Woken, 0, Woken, Woken), 0, run, steps);
      assert Crew(n, w, 0, Woken, Woken) == Crew(n, w, 0, w, Woken);
    } else {
      run, steps := AllAsk(b, e, n, k - 1);
      CrewSteps(n, w, k - 1, w, Woken, w);
      run, steps := AskFirst(b, e, n, Crew(n, w, k - 1, w, Woken), k, run, steps);
    }
  }

  // ------------------------------------------------- worker 0 does all the work

  /** The others hold on to their first share. */
  ghost function Holding(b: nat, e: nat, n: nat, zero: Worker): seq<Worker> requires b <= e && n > 0 {
    Crew(n, zero, 0, Woken, Asking(b, e, n))
  }

  ghost predicate EndsHolding(run: seq<State>, steps: seq<Action>, b: nat, e: nat, n: nat, zero: Worker, r: int) {
    && 0 < n && b <= e && RunsOf(run, steps, b, e, n)
    && var s := run[|run| - 1]; s == On(b, e, Holding(b, e, n, zero), r, s.ran)
  }

  lemma ZeroMoves(run: seq<State>, steps: seq<Action>, b: nat, e: nat, n: nat, zero: Worker, r: int, w: Worker, r': int)
    returns (run': seq<State>, steps': seq<Action>)
    requires EndsHolding(run, steps, b, e, n, zero, r) && !zero.Waiting?
    requires var s := run[|run| - 1]; var s' := WorkerStep(s, 0); s' == s.(workers := s.workers[0 := w], reserved := r', ran := s'.ran)
    ensures EndsHolding(run', steps', b, e, n, w, r')
  {
    var s := run[|run| - 1];
    CrewSteps(n, zero, 0, Woken, Asking(b, e, n), w);
    run', steps' := Extend(run, steps, b, e, n, RunWorker(0), s, WorkerStep(s, 0));
  }

  lemma {:induction false} Perform(run: seq<State>, steps: seq<Action>, b: nat, e: nat, n: nat, i: int, end: int, r: int)
    returns (run': seq<State>, steps': seq<Action>)
    requires i < end && EndsHolding(run, steps, b, e, n, Work(b, e - b, i, end), r)
    ensures EndsHolding(run', steps', b, e, n, Load(b, e - b), r)
    decreases end - i
  {
    CrewSteps(n, Work(b, e - b, i, end), 0, Woken, Asking(b, e, n), Woken);
    if i + 1 < end {
      run', steps' := ZeroMoves(run, steps, b, e, n, Work(b, e - b, i, end), r, Work(b, e - b, i + 1, end), r);
      run', steps' := Perform(run', steps', b, e, n, i + 1, end, r);
    } else {
      run', steps' := ZeroMoves(run, steps, b, e, n, Work(b, e - b, i, end), r, Load(b, e - b), r);
    }
  }

  /** Worker 0 takes its share and performs it. */
  lemma TakeAndPerform(run: seq<State>, steps: seq<Action>, b: nat, e: nat, n: nat, r: int, size: int)
    returns (run': seq<State>, steps': seq<Action>)
    requires b < e < INT_RANGE && 0 <= r && 1 <= size <= e - b - r && EndsHolding(run, steps, b, e, n, Take(b, e - b, size), r)
    ensures EndsHolding(run', steps', b, e, n, Load(b, e - b), r + size)
  {
    CrewSteps(n, Take(b, e - b, size), 0, Woken, Asking(b, e, n), Woken);
    run', steps' := ZeroMoves(run, steps, b, e, n, Take(b, e - b, size), r, Work(b, e - b, b + r, b + r + size), r + size);
    run', steps' := Perform(run', steps', b, e, n, b + r, b + r + size, r + size);
  }

  /** ... until every task is reserved. */
  lemma {:induction false} Exhaust(run: seq<State>, steps: seq<Action>, b: nat, e: nat, n: nat, r: int)
    returns (run': seq<State>, steps': seq<Action>)
    requires b < e < INT_RANGE && 0 <= r <= e - b && EndsHolding(run, steps, b, e, n, Load(b, e - b), r)
    ensures EndsHolding(run', steps', b, e, n, Load(b, e - b), e - b)
    decreases e - b - r
  {
    if r == e - b {
      run', steps' := run, steps;
    } else {
      var num := e - b;
      var size := Share(num - r, n);
      ShareBound(num, r, n);
      CrewSteps(n, Load(b, num), 0, Woken, Asking(b, e, n), Woken);
      run', steps' := ZeroMoves(run, steps, b, e, n, Load(b, num), r, Take(b, num, size), r);
      run', steps' := TakeAndPerform(run', steps', b, e, n, r, size);
      run', steps' := Exhaust(run', steps', b, e, n, r + size);
    }
  }

  /** Every task is reserved, and all workers but one still hold their first share. */
  lemma AllReserved(b: nat, e: nat, n: nat) returns (run: seq<State>, steps: seq<Action>)
    requires b < e < INT_RANGE && 0 < n < INT_RANGE / 2
    ensures EndsHolding(run, steps, b, e, n, Load(b, e - b), e - b)
  {
    var w, num := Asking(b, e, n), e - b;
    run, steps := AllAsk(b, e, n, n - 1);
    assert Crew(n, w, n - 1, w, Woken) == Holding(b, e, n, w);
    ShareBound(num, 0, n);
    run, steps := TakeAndPerform(run, steps, b, e, n, 0, Largest(num, n));
    run, steps := Exhaust(run, steps, b, e, n, Largest(num, n));
  }

  // --------------------------------------------------- the others take too much

  /** Workers 1 to k have added their shares for nothing. */
  ghost predicate Marched(run: seq<State>, steps: seq<Action>, b: nat, e: nat, n: nat, k: nat) {
    && 0 < n && b <= e && RunsOf(run, steps, b, e, n)
    && var s := run[|run| - 1];
       s == On(b, e, Crew(n, Load(b, e - b), k, Arriving, Asking(b, e, n)), e - b + k * Largest(e - b, n), s.ran)
  }

  /** Worker k + 1 adds its share too; the sums it forms are end plus so many shares. */
  lemma MarchOne(run: seq<State>, steps: seq<Action>, b: nat, e: nat, n: nat, k: nat)
    returns (run': seq<State>, steps': seq<Action>)
    requires b < e < INT_RANGE && k + 1 < n < INT_RANGE / 2 && Marched(run, steps, b, e, n, k)
    requires e + k * Largest(e - b, n) < INT_RANGE
    ensures RunsOf(run', steps', b, e, n) && |run'| >= 2
    ensures InRange(run'[|run'| - 2], steps'[|steps'| - 1]) <==> e + (k + 1) * Largest(e - b, n) < INT_RANGE
    ensures var s := run'[|run'| - 1];
            s == On(b, e, Crew(n, Load(b, e - b), k + 1, Arriving, Asking(b, e, n)), Int(e - b + (k + 1) * Largest(e - b, n)), s.ran)
  {
    hide Largest, Int, Crew, Step, RunsOf;
    NotEmpty(run, steps, b, e, n);
    var l, num := Largest(e - b, n), e - b;
    var s := run[|run| - 1];
    CrewSteps(n, Load(b, num), k, Arriving, Asking(b, e, n), Woken);
    LargestBound(num, n);
    Product(k, l);
    var crew := Crew(n, Load(b, num), k + 1, Arriving, Asking(b, e, n));
    TooMuch(b, e, k * l, l);
    Takes(s, k + 1, b, num, l, e + k * l, Min(Int(e + k * l + l), e));
    run', steps' := Extend(run, steps, b, e, n, RunWorker(k + 1), s, s.(workers := crew, reserved := Int(num + (k + 1) * l)));
  }

  lemma Product(k: nat, l: int)
    requires l >= 1
    ensures (k + 1) * l == k * l + l && k * l >= 0
  {
    NotNegative(k, l);
  }

  lemma LargestBound(num: int, n: nat)
    requires n > 0 && 0 < num < INT_RANGE
    ensures 1 <= Largest(num, n) <= INT_RANGE / 2
  {
    ShareIsSmall(num, n);
  }

  /** The sums of a worker that comes when everything is reserved. */
  lemma TooMuch(b: nat, e: nat, over: int, l: int)
    requires b < e && 0 <= over && 1 <= l <= INT_RANGE / 2 && e + over < INT_RANGE
    ensures Int(b + (e - b + over)) == e + over && Int(b + (e - b)) == e && e + over >= Min(Int(e + over + l), e)
    ensures InInt(e + over + l) <==> e + over + l < INT_RANGE
    ensures InInt(e - b + over + l) <== e + over + l < INT_RANGE
  {
  }

  /** As many workers as the int range allows. */
  lemma {:induction false} March(b: nat, e: nat, n: nat, k: nat) returns (run: seq<State>, steps: seq<Action>)
    requires b < e < INT_RANGE && k < n < INT_RANGE / 2 && e + k * Largest(e - b, n) < INT_RANGE
    ensures Marched(run, steps, b, e, n, k)
  {
    hide Largest, RunsOf, Asking, InRange;
    if k == 0 {
      run, steps := AllReserved(b, e, n);
      assert Holding(b, e, n, Load(b, e - b)) == Crew(n, Load(b, e - b), 0, Arriving, Asking(b, e, n));
    } else {
      LargestPositive(e - b, n);
      Product(k - 1, Largest(e - b, n));
      run, steps := March(b, e, n, k - 1);
      run, steps := MarchOne(run, steps, b, e, n, k - 1);
    }
  }

  /** Last, worker 0 asks again and adds one. */
  lemma LastOne(b: nat, e: nat, n: nat) returns (run: seq<State>, steps: seq<Action>)
    requires b < e < INT_RANGE && 0 < n < INT_RANGE / 2 && e + (n - 1) * Largest(e - b, n) < INT_RANGE
    ensures RunsOf(run, steps, b, e, n) && |run| >= 2
    ensures InRange(run[|run| - 2], steps[|steps| - 1]) <==> Fits(b, e, n)
    ensures var s := run[|run| - 1]; s.main == Barrier(b, e) && |s.workers| == n && s.reserved == Int(e - b + Overshoot(e - b, n))
  {
    hide Largest, Int, Crew, Share, Step, RunsOf, Overshoot, Asking;
    var l, num := Largest(e - b, n), e - b;
    LargestBound(num, n);
    NotNegative(n - 1, l);
    run, steps := March(b, e, n, n - 1);
    NotEmpty(run, steps, b, e, n);
    var s, over := run[|run| - 1], (n - 1) * l;
    LastSums(b, e, over);
    LastShare(num, over, n);
    CrewSteps(n, Load(b, num), n - 1, Arriving, Asking(b, e, n), Take(b, num, 1));
    Loads(s, 0, b, num);
    var s1 := s.(workers := Crew(n, Take(b, num, 1), n - 1, Arriving, Asking(b, e, n)));
    run, steps := Extend(run, steps, b, e, n, RunWorker(0), s, s1);
    CrewSteps(n, Take(b, num, 1), n - 1, Arriving, Asking(b, e, n), Arriving);
    Takes(s1, 0, b, num, 1, e + over, Min(Int(e + over + 1), e));
    run, steps := Extend(run, steps, b, e, n, RunWorker(0), s1, Step(s1, RunWorker(0)).0);
    OvershootIs(num, n);
    LastInInt(b, e, over);
  }

  lemma OvershootIs(num: int, n: nat)
    requires n > 0
    ensures Overshoot(num, n) == (n - 1) * Largest(num, n) + 1
  {
  }

  lemma LastShare(num: int, over: int, n: nat)
    requires n > 0 && 0 < num && 0 <= over && num + over < INT_RANGE
    ensures Share(Int(num - (num + over)), n) == 1
  {
    ShareBound(num, num + over, n);
    hide Share;
  }

  lemma LastSums(b: nat, e: nat, over: int)
    requires b < e && 0 <= over && e + over < INT_RANGE
    ensures Int(b + (e - b + over)) == e + over && Int(b + (e - b)) == e && e + over >= Min(Int(e + over + 1), e)
    ensures e - b + over < INT_RANGE
  {
  }

  lemma LastInInt(b: nat, e: nat, over: int)
    requires b < e && 0 <= over && e + over < INT_RANGE
    ensures InInt(b + (e - b + over)) && InInt(b + (e - b)) && (e + over + 1 < INT_RANGE ==> InInt(e - b + over + 1))
    ensures InInt(b + (e - b + over) + 1) <==> e + over + 1 < INT_RANGE
  {
  }

  // ------------------------------------------------------------------ the results

  ghost predicate AllInRange(run: seq<State>, steps: seq<Action>) {
    |run| == |steps| + 1 && forall k :: 0 <= k < |steps| ==> Enabled(run[k], steps[k]) && InRange(run[k], steps[k])
  }

  /** The last k for which end and k largest shares are an int. */
  lemma {:induction false} LastInRange(e: nat, l: int, n: nat) returns (k: nat)
    requires e < INT_RANGE <= e + n * l && l >= 1
    ensures k < n && e + k * l < INT_RANGE <= e + (k + 1) * l
  {
    k := n - 1;
    if e + k * l >= INT_RANGE { k := LastInRange(e, l, k); }
  }

  lemma LargestPositive(num: int, n: nat)
    requires n > 0
    ensures Largest(num, n) >= 1
  {
  }

  /** A range that does not fit has a run with an overflow. */
  lemma SomeOverflow(b: nat, e: nat, n: nat) returns (run: seq<State>, steps: seq<Action>)
    requires b < e < INT_RANGE && 0 < n < INT_RANGE / 2 && !Fits(b, e, n)
    ensures RunsOf(run, steps, b, e, n) && !AllInRange(run, steps)
  {
    var l := Largest(e - b, n);
    LargestPositive(e - b, n);
    if e + (n - 1) * l < INT_RANGE {
      run, steps := LastOne(b, e, n);
    } else {
      var k := LastInRange(e, l, n - 1);
      run, steps := March(b, e, n, k);
      run, steps := MarchOne(run, steps, b, e, n, k);
    }
    hide Fits, Largest;
    assert Enabled(run[|run| - 2], steps[|steps| - 1]);
  }

  /** No run of the pool leaves the int range if and only if the end of the range and
      the largest overshoot are together an int. */
  lemma IntRangeIsKept(b: nat, e: nat, n: nat)
    requires b < e < INT_RANGE && 0 < n < INT_RANGE / 2
    ensures (forall run: seq<State>, steps: seq<Action> :: RunsOf(run, steps, b, e, n) ==> AllInRange(run, steps)) <==> Fits(b, e, n)
  {
    if Fits(b, e, n) {
      forall run: seq<State>, steps: seq<Action> | RunsOf(run, steps, b, e, n) ensures AllInRange(run, steps) {
        FittingRun(run, steps, b, e, n);
      }
    } else {
      var run, steps := SomeOverflow(b, e, n);
    }
  }

  lemma FittingRun(run: seq<State>, steps: seq<Action>, b: nat, e: nat, n: nat)
    requires RunsOf(run, steps, b, e, n) && n > 0 && Fits(b, e, n)
    ensures AllSafe(run, steps) && AllInRange(run, steps)
  {
    hide Overshoot, Inv, Step, InRange;
    forall k | 0 <= k < |steps| ensures Proper(run[0], steps[k]) {}
    forall k | 0 <= k < |steps| ensures InRange(run[k], steps[k]) {
      RunKeepsInv(run, steps, k);
      OnlyThisCall(run, steps, b, e, n, k);
      assert Proper(run[0], steps[k]);
      Preserved(run[k], steps[k]);
    }
  }

  /** The bound on the overshoot is attained, for every range that fits. */
  lemma OvershootIsReached(b: nat, e: nat, n: nat) returns (run: seq<State>, steps: seq<Action>)
    requires b < e && 0 < n < INT_RANGE / 2 && Fits(b, e, n)
    ensures RunsOf(run, steps, b, e, n)
    ensures var s := run[|run| - 1]; s.main == Barrier(b, e) && |s.workers| == n && s.reserved == e - b + Overshoot(e - b, n)
  {
    hide RunsOf, Largest, Overshoot, InRange;
    OvershootIs(e - b, n);
    OvershootPositive(e - b, n);
    run, steps := LastOne(b, e, n);
  }

  /** The overshoot stays below x in every run. */
  ghost predicate StaysBelow(b: nat, e: nat, n: nat, x: int) {
    forall run: seq<State>, steps: seq<Action>, k: nat ::
      RunsOf(run, steps, b, e, n) && k < |run| && run[k].main.Barrier? ==> run[k].reserved - (e - b) < x
  }

  lemma {:induction false} OnlyThisCall(run: seq<State>, steps: seq<Action>, b: nat, e: nat, n: nat, k: nat)
    requires RunsOf(run, steps, b, e, n) && k < |run|
    ensures match run[k].main case Constructing => true case Idle => true case m => m.begin == b && m.end == e
    ensures |run[k].workers| == n
  {
    if k > 0 { OnlyThisCall(run, steps, b, e, n, k - 1); }
  }

  /** So it stays below half the number of tasks or the number of workers, whichever is
      more, if and only if half the tasks are more than the workers. */
  lemma StrictBoundHolds(b: nat, e: nat, n: nat)
    requires b < e && 0 < n < INT_RANGE / 2 && Fits(b, e, n)
    ensures StaysBelow(b, e, n, Max((e - b) / 2, n)) <==> (e - b) / 2 > n
  {
    OvershootSize(e - b, n);
    if (e - b) / 2 > n {
      forall run: seq<State>, steps: seq<Action>, k: nat | RunsOf(run, steps, b, e, n) && k < |run| && run[k].main.Barrier?
        ensures run[k].reserved - (e - b) < Max((e - b) / 2, n)
      {
        FittingRun(run, steps, b, e, n);
        OnlyThisCall(run, steps, b, e, n, k);
        OvershootBound(run, steps, k);
      }
    } else {
      var run, steps := OvershootIsReached(b, e, n);
      assert run[|run| - 1].main.Barrier?;
    }
  }

  lemma OvershootSize(num: int, n: nat)
    requires num > 0 && n > 0
    ensures Overshoot(num, n) < Max(num / 2, n) <==> num / 2 > n
    ensures Overshoot(num, n) <= Max(num / 2, n)
  {
    var q, l := num / (n * 2), Largest(num, n);
    assert q * (n * 2) <= num < q * (n * 2) + n * 2;
    assert (n * q) * 2 == q * (n * 2);
    assert (n - 1) * l == n * l - l;
    if num / 2 <= n && q >= 2 { Multiples(q, 1, n * 2); }
  }

  /** A share is at most half the int range. */
  lemma ShareIsSmall(remaining: int, n: nat)
    requires n > 0 && InInt(remaining)
    ensures 1 <= Share(remaining, n) <= INT_RANGE / 2
  {
    if remaining >= 0 {
      var q := remaining / (n * 2);
      assert q * (n * 2) <= remaining;
      if q > INT_RANGE / 2 { Multiples(q, INT_RANGE / 2, n * 2); }
    }
  }

  /** When the counter has passed the int range, the next worker performs a task below
      the range. */
  lemma WrongFrom(run: seq<State>, steps: seq<Action>, b: nat, e: nat, n: nat, k: nat, r: int)
    returns (run': seq<State>, steps': seq<Action>)
    requires b < e < INT_RANGE && 0 < n < INT_RANGE / 2 && RunsOf(run, steps, b, e, n)
    requires INT_RANGE <= b + r < INT_RANGE + INT_RANGE / 2
    requires var s := run[|run| - 1]; s == On(b, e, Crew(n, Load(b, e - b), k, Arriving, Asking(b, e, n)), Int(r), s.ran)
    ensures RunsOf(run', steps', b, e, n) && run'[|run'| - 1].main == Barrier(b, e)
    ensures b + r - WORD < 0 && b + r - WORD in run'[|run'| - 1].ran
  {
    hide Int, Crew, Share, Step, RunsOf, Asking, Encode;
    var num, x := e - b, b + r - WORD;
    NotEmpty(run, steps, b, e, n);
    var s := run[|run| - 1];
    var size := Share(Int(num - s.reserved), n);
    ShareIsSmall(Int(num - s.reserved), n);
    WrongSums(b, e, r, size);
    CrewSteps(n, Load(b, num), k, Arriving, Asking(b, e, n), Take(b, num, size));
    Loads(s, 0, b, num);
    var s1 := s.(workers := Crew(n, Take(b, num, size), k, Arriving, Asking(b, e, n)));
    run', steps' := Extend(run, steps, b, e, n, RunWorker(0), s, s1);
    CrewSteps(n, Take(b, num, size), k, Arriving, Asking(b, e, n), Work(b, num, x, x + size));
    Takes(s1, 0, b, num, size, x, x + size);
    var s2 := s1.(reserved := Int(s1.reserved + size), workers := Crew(n, Work(b, num, x, x + size), k, Arriving, Asking(b, e, n)));
    run', steps' := Extend(run', steps', b, e, n, RunWorker(0), s1, s2);
    CrewSteps(n, Work(b, num, x, x + size), k, Arriving, Asking(b, e, n), Arriving);
    Works(s2, 0, b, num, x, x + size);
    run', steps' := Extend(run', steps', b, e, n, RunWorker(0), s2, Step(s2, RunWorker(0)).0);
    assert (s2.ran + [x])[|s2.ran|] == x;
  }

  /** The sums of a worker that finds the counter past the int range. */
  lemma WrongSums(b: nat, e: nat, r: int, size: int)
    requires b < e < INT_RANGE && INT_RANGE <= b + r < INT_RANGE + INT_RANGE / 2 && 1 <= size <= INT_RANGE / 2
    ensures Int(b + Int(r)) == b + r - WORD < 0 && Int(b + r - WORD + size) == b + r - WORD + size && Int(b + (e - b)) == e
    ensures Min(b + r - WORD + size, e) == b + r - WORD + size
  {
  }

  /** If the end of the range and the shares of all workers but one pass the int range,
      there is a run in which a task outside the range is performed. */
  lemma WrongTask(b: nat, e: nat, n: nat) returns (run: seq<State>, steps: seq<Action>, x: int)
    requires b < e < INT_RANGE && 0 < n < INT_RANGE / 2 && e + (n - 1) * Largest(e - b, n) >= INT_RANGE
    ensures RunsOf(run, steps, b, e, n) && x < 0 && x in run[|run| - 1].ran && run[|run| - 1].main == Barrier(b, e)
  {
    var l := Largest(e - b, n);
    LargestPositive(e - b, n);
    var k := LastInRange(e, l, n - 1);
    run, steps := March(b, e, n, k);
    run, steps := MarchOne(run, steps, b, e, n, k);
    LargestBound(e - b, n);
    Product(k, l);
    x := e + (k + 1) * l - WORD;
    run, steps := WrongFrom(run, steps, b, e, n, k + 1, e - b + (k + 1) * l);
  }

  /** No task has been performed twice or outside the range. */
  ghost predicate NoneTwice(s: State) { s.main.Barrier? ==> forall x :: Times(s.ran, x) <= One(s.main.begin <= x < s.main.end) }

  /** If this step returns from Run, every task has been performed. */
  ghost predicate AllDone(s: State, a: Action, s': State) {
    a.RunMain? && s.main.Barrier? ==> forall x :: Times(s'.ran, x) == One(s.main.begin <= x < s.main.end)
  }

  ghost predicate EachTaskOnce(run: seq<State>, steps: seq<Action>) {
    && |run| == |steps| + 1
    && (forall k :: 0 <= k < |run| ==> NoneTwice(run[k]))
    && (forall k :: 0 <= k < |steps| ==> AllDone(run[k], steps[k], run[k + 1]))
  }

  /** Every run performs every task exactly once and nothing else if and only if the end
      of the range and the shares of all workers but one are together an int. */
  lemma ExactlyOnce(b: nat, e: nat, n: nat)
    requires b < e < INT_RANGE && 0 < n < INT_RANGE / 2
    ensures (forall run: seq<State>, steps: seq<Action> :: RunsOf(run, steps, b, e, n) ==> EachTaskOnce(run, steps)) <==>
            e + (n - 1) * Largest(e - b, n) < INT_RANGE
  {
    if e + (n - 1) * Largest(e - b, n) < INT_RANGE {
      forall run: seq<State>, steps: seq<Action> | RunsOf(run, steps, b, e, n) ensures EachTaskOnce(run, steps) { SafeRun(run, steps, b, e, n); }
    } else {
      var run, steps, x := WrongTask(b, e, n);
      var k := |run| - 1;
      Occurs(run[k].ran, x);
      assert !NoneTwice(run[k]);
    }
  }

  lemma SafeRun(run: seq<State>, steps: seq<Action>, b: nat, e: nat, n: nat)
    requires RunsOf(run, steps, b, e, n) && n > 0 && Safe(b, e, n)
    ensures EachTaskOnce(run, steps)
  {
    hide Safe, Step;
    forall k | 0 <= k < |steps| ensures Proper(run[0], steps[k]) {}
    forall k | 0 <= k < |run| ensures NoneTwice(run[k]) {
      if run[k].main.Barrier? {
        forall x ensures Times(run[k].ran, x) <= One(run[k].main.begin <= x < run[k].main.end) { NeverTwice(run, steps, k, x); }
      }
    }
    forall k | 0 <= k < |steps| ensures AllDone(run[k], steps[k], run[k + 1]) {
      if steps[k].RunMain? && run[k].main.Barrier? { RunPerformsEachTaskOnce(run, steps, k); }
    }
  }

  lemma {:induction false} Occurs(log: seq<int>, x: int)
    requires x in log
    ensures Times(log, x) >= 1
  {
    var k := |log| - 1;
    if log[k] != x {
      assert x in log[..k];
      Occurs(log[..k], x);
    }
  }

  /** Two workers and the largest range there is: task_(INT_MIN) is called. */
  lemma LargestRangeFails() returns (run: seq<State>, steps: seq<Action>)
    ensures RunsOf(run, steps, 0, INT_RANGE - 1, 2) && -INT_RANGE in run[|run| - 1].ran
  {
    var b, e: nat, n: nat := 0, INT_RANGE - 1, 2;
    run, steps := AllReserved(b, e, n);
    var w, s := Asking(b, e, n), run[|run| - 1];
    assert s.workers == [Load(0, e), w];
    var s1 := s.(workers := [Take(0, e, 1), w]);
    run, steps := Extend(run, steps, b, e, n, RunWorker(0), s, s1);
    var s2 := s.(workers := [Arriving, w], reserved := -INT_RANGE);
    run, steps := Extend(run, steps, b, e, n, RunWorker(0), s1, s2);
    var s3 := WorkerStep(s2, 1);
    assert s3.workers[1] == Work(0, e, -INT_RANGE, w.size - INT_RANGE);
    run, steps := Extend(run, steps, b, e, n, RunWorker(1), s2, s3);
    var s4 := WorkerStep(s3, 1);
    run, steps := Extend(run, steps, b, e, n, RunWorker(1), s3, s4);
    assert s4.ran[|s3.ran|] == -INT_RANGE;
  }
}
