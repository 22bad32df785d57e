/** The fork-join pool of highwayhash (data_parallel.h, class ThreadPool), as a
    machine over the main thread and any number of workers.

    Sections under the mutex are single steps; outside it every access to the
    atomic counter is a step of its own.  Workers wake only when notified.  The
    counter and the sums formed from it are 32-bit ints and wrap around. */
module ThreadPool {
  import opened Common

  type Tid = nat

  /** A worker in ThreadFunc and RunRange; `first` and `num` are the range decoded
      from the command it read. */
  datatype Worker =
    | Arriving                                            // lock; ++workers_ready_; wait
    | Waiting                                             // in worker_start_cv_.wait
    | Woken                                               // command = worker_start_command_
    | Load(first: int, num: int)                          // num_reserved_.load()
    | Take(first: int, num: int, size: int)               // num_reserved_.fetch_add(my_size)
    | Work(first: int, num: int, i: int, end: int)        // task_(i)

  /** The main thread in the constructor or in Run(begin, end). */
  datatype Main =
    | Constructing                                        // WorkersReadyBarrier
    | Idle
    | Reset(begin: nat, end: nat)                         // num_reserved_.store(0)
    | Command(begin: nat, end: nat)                       // worker_start_command_ = ...
    | Notify(begin: nat, end: nat)                        // worker_start_cv_.notify_all()
    | Barrier(begin: nat, end: nat)                       // WorkersReadyBarrier

  /** `ran` records, in order, the tasks performed since the counter was reset. */
  datatype State = State(main: Main, workers: seq<Worker>, ready: int, command: nat, reserved: int, ran: seq<int>)

  datatype Action = CallRun(begin: nat, end: nat) | RunMain | RunWorker(t: Tid)

  datatype Event = Silent | Constructed | Returned(begin: nat, end: nat)

  /** The command word; the two reserved values are 0 (wait) and all ones (exit). */
  function Encode(begin: nat, end: nat): nat { end * WORD + begin }

  const WORKER_WAIT: nat := 0
  const WORKER_EXIT: nat := WORD * WORD - 1

  function First(command: nat): int { command % WORD }
  function End(command: nat): int { command / WORD }

  function Max(a: int, b: int): int { if a > b then a else b }

  /** How much a worker asks for; a negative remainder asks for one. */
  function Share(remaining: int, workers: nat): int requires workers > 0 {
    if remaining < 0 then 1 else Max(remaining / (workers * 2), 1)
  }

  predicate Enabled(s: State, a: Action) {
    match a
    case CallRun(begin, end) => s.main.Idle? && begin <= end < INT_RANGE
    case RunMain => !s.main.Idle? && (s.main.Constructing? || s.main.Barrier? ==> s.ready == |s.workers|)
    case RunWorker(t) => t < |s.workers| && !s.workers[t].Waiting?
  }

  function Wake(w: Worker): Worker { if w.Waiting? then Woken else w }

  function MainStep(s: State): (r: (State, Event)) requires Enabled(s, RunMain) {
    match s.main
    case Constructing => (s.(ready := 0, main := Idle), Constructed)
    case Reset(b, e) => (s.(reserved := 0, ran := [], main := Command(b, e)), Silent)
    case Command(b, e) => (s.(command := Encode(b, e), main := Notify(b, e)), Silent)
    case Notify(b, e) =>
      (s.(workers := seq(|s.workers|, t requires 0 <= t < |s.workers| => Wake(s.workers[t])), main := Barrier(b, e)), Silent)
    case Barrier(b, e) => (s.(ready := 0, main := Idle), Returned(b, e))
  }

  function WorkerStep(s: State, t: Tid): (s': State) requires Enabled(s, RunWorker(t)) {
    match s.workers[t]
    case Arriving => s.(ready := s.ready + 1, workers := s.workers[t := Waiting])
    case Woken => s.(workers := s.workers[t := Load(First(s.command), End(s.command) - First(s.command))])
    case Load(first, num) => s.(workers := s.workers[t := Take(first, num, Share(Int(num - s.reserved), |s.workers|))])
    case Take(first, num, size) =>
      var b := Int(first + s.reserved);
      var e := Min(Int(b + size), Int(first + num));
      s.(reserved := Int(s.reserved + size), workers := s.workers[t := if b >= e then Arriving else Work(first, num, b, e)])
    case Work(first, num, i, e) =>
      s.(ran := s.ran + [i], workers := s.workers[t := if i + 1 < e then Work(first, num, i + 1, e) else Load(first, num)])
  }

  function Step(s: State, a: Action): (r: (State, Event)) requires Enabled(s, a) {
    match a
    case CallRun(b, e) => if b == e then (s, Returned(b, e)) else (s.(main := Reset(b, e)), Silent)
    case RunMain => MainStep(s)
    case RunWorker(t) => (WorkerStep(s, t), Silent)
  }

  /** No int computed in this step is out of range. */
  predicate InRange(s: State, a: Action) requires Enabled(s, a) {
    a.RunWorker? ==>
      match s.workers[a.t]
      case Load(first, num) => InInt(num - s.reserved)
      case Take(first, num, size) =>
        && InInt(first + s.reserved) && InInt(first + s.reserved + size)
        && InInt(first + num) && InInt(s.reserved + size)
      case _ => true
  }

  predicate Init(s: State) {
    && 0 < |s.workers| < INT_RANGE / 2 && s.reserved == 0
    && s.main.Constructing? && s.ready == 0
    && (forall t :: 0 <= t < |s.workers| ==> s.workers[t].Arriving?)
  }

  /** A command carries its range, and is never mistaken for a reserved one. */
  lemma CommandRoundTrip(begin: nat, end: nat)
    requires begin < end < INT_RANGE
    ensures First(Encode(begin, end)) == begin && End(Encode(begin, end)) == end
    ensures Encode(begin, end) != WORKER_WAIT && Encode(begin, end) != WORKER_EXIT
  {
  }

  // --------------------------------------------------------------- bookkeeping

  /** How often x occurs in a log. */
  ghost function Times(log: seq<int>, x: int): nat {
    if log == [] then 0 else Times(log[..|log| - 1], x) + One(log[|log| - 1] == x)
  }

  ghost predicate HasTask(w: Worker, x: int) { w.Work? && w.i <= x < w.end }

  /** How many workers have reserved x and not yet performed it. */
  ghost function Holders(ws: seq<Worker>, x: int): nat {
    if ws == [] then 0 else Holders(ws[..|ws| - 1], x) + One(HasTask(ws[|ws| - 1], x))
  }

  ghost function Parked(ws: seq<Worker>): nat {
    if ws == [] then 0 else Parked(ws[..|ws| - 1]) + One(ws[|ws| - 1].Waiting?)
  }

  /** What a worker will still add to the counter once every task is reserved. */
  ghost function Owes(w: Worker): int {
    match w
    case Take(_, _, size) => size
    case Arriving => 0
    case Waiting => 0
    case _ => 1
  }

  ghost function Owed(ws: seq<Worker>): int {
    if ws == [] then 0 else Owed(ws[..|ws| - 1]) + Owes(ws[|ws| - 1])
  }

  lemma {:induction false} Update(ws: seq<Worker>, t: Tid, w: Worker, x: int)
    requires t < |ws|
    ensures Holders(ws[t := w], x) == Holders(ws, x) - One(HasTask(ws[t], x)) + One(HasTask(w, x))
    ensures Parked(ws[t := w]) == Parked(ws) - One(ws[t].Waiting?) + One(w.Waiting?)
    ensures Owed(ws[t := w]) == Owed(ws) - Owes(ws[t]) + Owes(w)
  {
    var k := |ws| - 1;
    if t < k {
      Update(ws[..k], t, w, x);
      assert ws[t := w][..k] == ws[..k][t := w];
    } else {
      assert ws[t := w][..k] == ws[..k];
    }
  }

  lemma {:induction false} ParkedBound(ws: seq<Worker>)
    ensures Parked(ws) <= |ws|
    ensures Parked(ws) == |ws| <==> forall t :: 0 <= t < |ws| ==> ws[t].Waiting?
    ensures (forall t :: 0 <= t < |ws| ==> !ws[t].Waiting?) ==> Parked(ws) == 0
  {
    if ws != [] { ParkedBound(ws[..|ws| - 1]); }
  }

  lemma {:induction false} NoHolders(ws: seq<Worker>, x: int)
    requires forall t :: 0 <= t < |ws| ==> !ws[t].Work?
    ensures Holders(ws, x) == 0
  {
    if ws != [] { NoHolders(ws[..|ws| - 1], x); }
  }

  /** The largest share anyone asks for. */
  function Largest(num: int, workers: nat): int requires workers > 0 { Max(num / (workers * 2), 1) }

  lemma {:induction false} OwedBound(ws: seq<Worker>, cap: int)
    requires cap >= 1 && forall t :: 0 <= t < |ws| && ws[t].Take? ==> 1 <= ws[t].size <= cap
    ensures 0 <= Owed(ws) <= |ws| * cap
  {
    if ws != [] {
      OwedBound(ws[..|ws| - 1], cap);
      assert |ws| * cap == (|ws| - 1) * cap + cap;
    }
  }

  /** All workers but one owe at most the largest share each. */
  lemma OthersOwe(ws: seq<Worker>, cap: int, t: Tid)
    requires t < |ws| && cap >= 1 && forall u :: 0 <= u < |ws| && ws[u].Take? ==> 1 <= ws[u].size <= cap
    ensures Owed(ws) <= (|ws| - 1) * cap + Owes(ws[t])
  {
    var w := Take(0, 0, cap);
    Update(ws, t, w, 0);
    OwedBound(ws[t := w], cap);
    assert (|ws| - 1) * cap == |ws| * cap - cap;
  }

  /** The most the counter can pass the number of tasks by. */
  function Overshoot(num: int, workers: nat): int requires workers > 0 { (workers - 1) * Largest(num, workers) + 1 }

  /** What a caller must see to: no int is out of range. */
  predicate Fits(begin: nat, end: nat, workers: nat) requires workers > 0 {
    end + Overshoot(end - begin, workers) < INT_RANGE
  }

  /** One more: the sum that wraps is the last, and is only compared. */
  predicate Safe(begin: nat, end: nat, workers: nat) requires workers > 0 {
    end + Overshoot(end - begin, workers) <= INT_RANGE
  }

  /** The state with the number of reservations in place of the counter, which may have
      wrapped, but only just. */
  ghost function Lift(s: State): State { if s.reserved == -INT_RANGE then s.(reserved := INT_RANGE) else s }

  // ------------------------------------------------------------- the invariant

  ghost predicate WorkerOk(w: Worker, first: int, num: int, reserved: int, workers: nat) requires workers > 0 {
    match w
    case Arriving => reserved >= num
    case Waiting => reserved >= num
    case Woken => true
    case Load(f, n) => f == first && n == num
    case Take(f, n, size) => f == first && n == num && 1 <= size <= Largest(num, workers)
    case Work(f, n, i, e) => f == first && n == num && first <= i < e <= first + Min(reserved, num)
  }

  /** While a run is on: every reserved task is performed or held, once, and the
      counter has not run too far. */
  ghost predicate Running(s: State, first: int, num: int) requires |s.workers| > 0 {
    && s.reserved >= 0
    && (forall t :: 0 <= t < |s.workers| ==> WorkerOk(s.workers[t], first, num, s.reserved, |s.workers|))
    && (forall x :: Times(s.ran, x) + Holders(s.workers, x) == One(first <= x < first + Min(s.reserved, num)))
    && (s.reserved >= num ==> s.reserved - num + Owed(s.workers) <= Overshoot(num, |s.workers|))
    && (s.reserved < num && AllTaking(s.workers) ==> s.reserved - num + Owed(s.workers) < Overshoot(num, |s.workers|))
  }

  ghost predicate AllTaking(ws: seq<Worker>) { forall t :: 0 <= t < |ws| ==> ws[t].Take? }

  ghost predicate AllWaiting(s: State) { s.ready == 0 && forall t :: 0 <= t < |s.workers| ==> s.workers[t].Waiting? }

  ghost predicate Inv(s: State) {
    && 0 < |s.workers| < INT_RANGE / 2
    && match s.main
       case Constructing =>
         s.ready == Parked(s.workers) && forall t :: 0 <= t < |s.workers| ==> s.workers[t].Arriving? || s.workers[t].Waiting?
       case Idle => AllWaiting(s)
       case Reset(b, e) => AllWaiting(s) && b < e && Safe(b, e, |s.workers|)
       case Command(b, e) => AllWaiting(s) && b < e && Safe(b, e, |s.workers|) && s.reserved == 0 && s.ran == []
       case Notify(b, e) => AllWaiting(s) && b < e && Safe(b, e, |s.workers|) && s.reserved == 0 && s.ran == [] && s.command == Encode(b, e)
       case Barrier(b, e) =>
         && b < e && Safe(b, e, |s.workers|) && s.command == Encode(b, e)
         && s.ready == Parked(s.workers)
         && Running(Lift(s), b, e - b) && InInt(s.reserved)
  }

  // ------------------------------------------------- every step keeps the invariant

  lemma {:induction false} TimesSnoc(log: seq<int>, y: int, x: int)
    ensures Times(log + [y], x) == Times(log, x) + One(y == x)
  {
  }

  lemma ShareBound(num: int, reserved: int, workers: nat)
    requires workers > 0 && 0 <= reserved && 0 < num
    ensures 1 <= Share(num - reserved, workers) <= Largest(num, workers)
    ensures if reserved >= num then Share(num - reserved, workers) == 1 else Share(num - reserved, workers) <= num - reserved
  {
    if reserved <= num {
      DivMonotone(num - reserved, num, workers * 2);
      DivBelow(num - reserved, workers * 2);
    }
  }

  lemma DivBelow(a: int, d: int)
    requires 0 <= a && d > 0
    ensures 0 <= a / d <= a
  {
    var q := a / d;
    assert q * d <= a;
    if q > a { Multiples(q, a, d); }
  }

  lemma DivMonotone(a: int, b: int, d: int)
    requires 0 <= a <= b && d > 0
    ensures a / d <= b / d && (a == 0 ==> a / d == 0)
  {
    var qa, qb := a / d, b / d;
    assert qa * d <= a && b < qb * d + d;
    if qa > qb { Multiples(qa, qb, d); }
  }

  /** The step of a worker on unbounded integers. */
  function Ideal(s: State, t: Tid): (s': State) requires Enabled(s, RunWorker(t)) {
    match s.workers[t]
    case Load(first, num) => s.(workers := s.workers[t := Take(first, num, Share(num - s.reserved, |s.workers|))])
    case Take(first, num, size) =>
      var b := first + s.reserved;
      var e := Min(b + size, first + num);
      s.(reserved := s.reserved + size, workers := s.workers[t := if b >= e then Arriving else Work(first, num, b, e)])
    case _ => WorkerStep(s, t)
  }

  /** Steps that neither reserve nor perform a task. */
  lemma QuietStep(s: State, s': State, t: Tid, first: int, num: int)
    requires |s.workers| > 0 && Running(s, first, num) && t < |s.workers| && num > 0
    requires |s'.workers| == |s.workers| && s' == s.(ready := s'.ready, workers := s.workers[t := s'.workers[t]])
    requires !s.workers[t].Work? && !s'.workers[t].Work?
    requires WorkerOk(s'.workers[t], first, num, s.reserved, |s.workers|)
    requires s.reserved >= num ==> Owes(s'.workers[t]) <= Owes(s.workers[t])
    requires s.reserved < num && s'.workers[t].Take? ==> s'.workers[t].size <= num - s.reserved
    ensures Running(s', first, num)
  {
    forall x ensures Holders(s'.workers, x) == Holders(s.workers, x) { Update(s.workers, t, s'.workers[t], x); }
    Update(s.workers, t, s'.workers[t], 0);
    if s.reserved < num && AllTaking(s'.workers) {
      SizesOk(s, first, num);
      OthersOwe(s.workers, Largest(num, |s.workers|), t);
    }
  }

  lemma SizesOk(s: State, first: int, num: int)
    requires |s.workers| > 0 && Running(s, first, num)
    ensures forall u :: 0 <= u < |s.workers| && s.workers[u].Take? ==> 1 <= s.workers[u].size <= Largest(num, |s.workers|)
  {
    forall u | 0 <= u < |s.workers| && s.workers[u].Take? ensures 1 <= s.workers[u].size <= Largest(num, |s.workers|) {
      assert WorkerOk(s.workers[u], first, num, s.reserved, |s.workers|);
    }
  }

  /** Performing a task moves it from held to performed. */
  lemma WorkStep(s: State, s': State, t: Tid, first: int, num: int)
    requires |s.workers| > 0 && Running(s, first, num) && t < |s.workers| && num > 0 && s.workers[t].Work?
    requires s' == WorkerStep(s, t)
    ensures Running(s', first, num)
  {
    var w := s.workers[t];
    assert WorkerOk(w, first, num, s.reserved, |s.workers|);
    forall x ensures Times(s'.ran, x) + Holders(s'.workers, x) == Times(s.ran, x) + Holders(s.workers, x) {
      Update(s.workers, t, s'.workers[t], x);
      TimesSnoc(s.ran, w.i, x);
    }
    Update(s.workers, t, s'.workers[t], 0);
    assert !s'.workers[t].Take?;
  }

  lemma TakeCounts(s: State, s': State, t: Tid, first: int, num: int)
    requires |s.workers| > 0 && Running(s, first, num) && t < |s.workers| && num > 0 && s.workers[t].Take?
    requires s' == Ideal(s, t)
    ensures forall x :: Times(s'.ran, x) + Holders(s'.workers, x) == One(first <= x < first + Min(s'.reserved, num))
  {
    var w := s.workers[t];
    assert WorkerOk(w, first, num, s.reserved, |s.workers|);
    forall x ensures Times(s'.ran, x) + Holders(s'.workers, x) == One(first <= x < first + Min(s'.reserved, num)) {
      Update(s.workers, t, s'.workers[t], x);
      assert Times(s.ran, x) + Holders(s.workers, x) == One(first <= x < first + Min(s.reserved, num));
    }
  }

  /** The share that reserves the last task: if all are taking, one of them asked last
      and asked for no more than was left; if not, one of them owes only one. */
  lemma TakeOwes(s: State, s': State, t: Tid, first: int, num: int)
    requires |s.workers| > 0 && Running(s, first, num) && t < |s.workers| && num > 0 && s.workers[t].Take?
    requires s' == Ideal(s, t) && s'.reserved >= num
    ensures s'.reserved - num + Owed(s'.workers) <= Overshoot(num, |s.workers|)
  {
    assert WorkerOk(s.workers[t], first, num, s.reserved, |s.workers|);
    Update(s.workers, t, s'.workers[t], 0);
    if s.reserved < num && !AllTaking(s.workers) {
      var u :| 0 <= u < |s.workers| && !s.workers[u].Take?;
      SizesOk(s, first, num);
      OthersOwe(s.workers, Largest(num, |s.workers|), u);
    }
  }

  /** Reserving: the new range is held by this worker alone. */
  lemma TakeStep(s: State, s': State, t: Tid, first: int, num: int)
    requires |s.workers| > 0 && Running(s, first, num) && t < |s.workers| && num > 0 && s.workers[t].Take?
    requires s' == Ideal(s, t)
    ensures Running(s', first, num)
  {
    var w := s.workers[t];
    assert WorkerOk(w, first, num, s.reserved, |s.workers|);
    TakeCounts(s, s', t, first, num);
    if s'.reserved >= num { TakeOwes(s, s', t, first, num); }
    forall u | 0 <= u < |s.workers| ensures WorkerOk(s'.workers[u], first, num, s'.reserved, |s.workers|) {
      assert WorkerOk(s.workers[u], first, num, s.reserved, |s.workers|);
    }
    assert !s'.workers[t].Take?;
  }

  /** What a worker is about to add stays within the bound. */
  lemma NextBound(s: State, t: Tid, first: int, num: int)
    requires |s.workers| > 0 && Running(s, first, num) && t < |s.workers| && num > 0
    requires s.workers[t].Load? || s.workers[t].Take?
    ensures s.reserved + Owes(s.workers[t]) <= num + Overshoot(num, |s.workers|)
    ensures s.reserved < num ==> s.reserved + Owes(s.workers[t]) < num + Overshoot(num, |s.workers|)
  {
    hide Overshoot, Largest;
    SizesOk(s, first, num);
    OvershootPositive(num, |s.workers|);
    if s.reserved >= num || AllTaking(s.workers) {
      OwedOthers(s.workers, t);
    } else {
      TakeBelow(s, t, first, num);
    }
  }

  lemma OvershootPositive(num: int, workers: nat)
    requires workers > 0
    ensures Overshoot(num, workers) >= 1
  {
    NotNegative(workers - 1, Largest(num, workers));
  }

  /** As long as the range is safe, the 32-bit step is the ideal one, and if it fits no
      int leaves its range. */
  lemma StepIsIdeal(s: State, t: Tid)
    requires Inv(s) && Enabled(s, RunWorker(t)) && s.main.Barrier?
    ensures var s' := WorkerStep(s, t); Lift(s') == Ideal(Lift(s), t) && InInt(s'.reserved)
    ensures Fits(s.main.begin, s.main.end, |s.workers|) ==> InRange(s, RunWorker(t))
  {
    hide Inv, Fits, Overshoot, InRange, Ideal, WorkerStep;
    if s.workers[t].Load? || s.workers[t].Take? { CountingIsIdeal(s, t); } else { RestIsIdeal(s, t); }
  }

  lemma RestIsIdeal(s: State, t: Tid)
    requires Inv(s) && Enabled(s, RunWorker(t)) && s.main.Barrier? && !s.workers[t].Load? && !s.workers[t].Take?
    ensures var s' := WorkerStep(s, t); Lift(s') == Ideal(Lift(s), t) && InInt(s'.reserved)
    ensures InRange(s, RunWorker(t))
  {
    hide Running, Safe, Encode;
  }

  lemma CountingIsIdeal(s: State, t: Tid)
    requires Inv(s) && Enabled(s, RunWorker(t)) && s.main.Barrier? && (s.workers[t].Load? || s.workers[t].Take?)
    ensures var s' := WorkerStep(s, t); Lift(s') == Ideal(Lift(s), t) && InInt(s'.reserved)
    ensures Fits(s.main.begin, s.main.end, |s.workers|) ==> InRange(s, RunWorker(t))
  {
    hide Overshoot, Largest, Share, Running, Int;
    var first, num, n := s.main.begin, s.main.end - s.main.begin, |s.workers|;
    var w, r := s.workers[t], Lift(s).reserved;
    RunningFacts(Lift(s), t, first, num);
    OvershootPositive(num, n);
    NextBound(Lift(s), t, first, num);
    Sums(first, num, r, Owes(w), Overshoot(num, n));
  }

  /** The sums of a worker that adds `size` to the counter r. */
  lemma Sums(first: nat, num: int, r: int, size: int, over: int)
    requires 0 < num && first + num < INT_RANGE && 0 <= r && 1 <= size && first + num + over <= INT_RANGE
    requires r + size <= num + over && (r < num ==> r + size < num + over)
    ensures r < INT_RANGE && Int(first + r) == first + r && Int(first + num) == first + num && Int(num - r) == num - r && InInt(num - r)
    ensures if r < num then Int(first + r + size) == first + r + size else first + r >= Min(Int(first + r + size), first + num)
    ensures Int(r + size) == if r + size == INT_RANGE then -INT_RANGE else r + size
    ensures first + num + over < INT_RANGE ==> InInt(first + r) && InInt(first + r + size) && InInt(first + num) && InInt(r + size)
  {
  }

  lemma RunningFacts(s: State, t: Tid, first: int, num: int)
    requires |s.workers| > 0 && Running(s, first, num) && t < |s.workers|
    ensures s.reserved >= 0 && WorkerOk(s.workers[t], first, num, s.reserved, |s.workers|)
  {
  }

  /** Nobody owes less than nothing. */
  lemma OwedOthers(ws: seq<Worker>, t: Tid)
    requires t < |ws| && forall u :: 0 <= u < |ws| && ws[u].Take? ==> ws[u].size >= 1
    ensures Owes(ws[t]) <= Owed(ws)
  {
    Update(ws, t, Waiting, 0);
    OwedNonNegative(ws[t := Waiting]);
  }

  lemma {:induction false} OwedNonNegative(ws: seq<Worker>)
    requires forall u :: 0 <= u < |ws| && ws[u].Take? ==> ws[u].size >= 1
    ensures Owed(ws) >= 0
  {
    if ws != [] { OwedNonNegative(ws[..|ws| - 1]); }
  }

  /** With somebody not taking there is another worker, so one share more still fits. */
  lemma TakeBelow(s: State, t: Tid, first: int, num: int)
    requires |s.workers| > 0 && Running(s, first, num) && t < |s.workers| && num > 0 && s.reserved < num && !AllTaking(s.workers)
    ensures s.reserved + Owes(s.workers[t]) < num + Overshoot(num, |s.workers|)
  {
    var n, cap := |s.workers|, Largest(num, |s.workers|);
    assert WorkerOk(s.workers[t], first, num, s.reserved, n);
    OvershootPositive(num, n);
    if s.workers[t].Take? {
      assert n >= 2;
      if n > 2 { Multiples(n - 1, 1, cap); }
    }
  }

  lemma RunningKeeps(s: State, t: Tid, first: nat, num: int)
    requires |s.workers| > 0 && Running(s, first, num) && Enabled(s, RunWorker(t)) && 0 < num && first + num < INT_RANGE
    requires s.command == Encode(first, first + num)
    ensures Running(Ideal(s, t), first, num)
  {
    var s' := Ideal(s, t);
    assert WorkerOk(s.workers[t], first, num, s.reserved, |s.workers|);
    CommandRoundTrip(first, first + num);
    ShareBound(num, s.reserved, |s.workers|);
    if s.workers[t].Work? { WorkStep(s, s', t, first, num); }
    else if s.workers[t].Take? { TakeStep(s, s', t, first, num); }
    else { QuietStep(s, s', t, first, num); }
  }

  lemma WorkerKeeps(s: State, t: Tid)
    requires Inv(s) && Enabled(s, RunWorker(t)) && s.main.Barrier?
    ensures Inv(WorkerStep(s, t))
  {
    hide Running, Overshoot, WorkerStep, Ideal, Safe, Encode;
    var s' := WorkerStep(s, t);
    var first, num := s.main.begin, s.main.end - s.main.begin;
    WorkerFrame(s, t);
    StepIsIdeal(s, t);
    SafeCall(s);
    RunningKeeps(Lift(s), t, first, num);
    Update(s.workers, t, s'.workers[t], 0);
  }

  lemma SafeCall(s: State)
    requires Inv(s) && s.main.Barrier?
    ensures s.main.begin < s.main.end < INT_RANGE && Running(Lift(s), s.main.begin, s.main.end - s.main.begin)
  {
    hide Running, Overshoot;
    OvershootPositive(s.main.end - s.main.begin, |s.workers|);
  }

  /** What a worker's step leaves alone; it only counts itself ready when it begins to wait. */
  lemma WorkerFrame(s: State, t: Tid)
    requires Enabled(s, RunWorker(t))
    ensures var s' := WorkerStep(s, t);
            && s' == s.(reserved := s'.reserved, ran := s'.ran, ready := s'.ready, workers := s.workers[t := s'.workers[t]])
            && s'.ready == s.ready + One(s.workers[t].Arriving?) && !s.workers[t].Waiting? && (s'.workers[t].Waiting? <==> s.workers[t].Arriving?)
  {
  }

  /** Waking everybody starts a run. */
  lemma NotifyKeeps(s: State)
    requires Inv(s) && s.main.Notify?
    ensures Inv(MainStep(s).0)
  {
    var s' := MainStep(s).0;
    ParkedBound(s'.workers);
    forall x ensures Holders(s'.workers, x) == 0 { NoHolders(s'.workers, x); }
  }

  /** A call that the pool can take. */
  ghost predicate Proper(s: State, a: Action) { |s.workers| > 0 && (a.CallRun? ==> a.begin == a.end || Safe(a.begin, a.end, |s.workers|)) }

  lemma Preserved(s: State, a: Action)
    requires Inv(s) && Enabled(s, a) && Proper(s, a)
    ensures Inv(Step(s, a).0) && |Step(s, a).0.workers| == |s.workers|
    ensures (s.main.Barrier? ==> Fits(s.main.begin, s.main.end, |s.workers|)) ==> InRange(s, a)
  {
    ParkedBound(s.workers);
    if a.RunWorker? {
      if s.main.Barrier? { StepIsIdeal(s, a.t); WorkerKeeps(s, a.t); }
      else { Update(s.workers, a.t, Step(s, a).0.workers[a.t], 0); }
    } else if a.RunMain? && s.main.Notify? {
      NotifyKeeps(s);
    }
  }

  // ------------------------------------------------------------------ whole runs

  ghost predicate IsRun(run: seq<State>, steps: seq<Action>) {
    && |run| == |steps| + 1
    && Init(run[0])
    && (forall i :: 0 <= i < |steps| ==> Enabled(run[i], steps[i]) && run[i + 1] == Step(run[i], steps[i]).0)
  }

  /** All calls of the run are safe. */
  ghost predicate AllSafe(run: seq<State>, steps: seq<Action>) {
    |run| > 0 && forall i :: 0 <= i < |steps| ==> Proper(run[0], steps[i])
  }

  lemma {:induction false} RunKeepsInv(run: seq<State>, steps: seq<Action>, k: nat)
    requires IsRun(run, steps) && AllSafe(run, steps) && k < |run|
    ensures Inv(run[k]) && |run[k].workers| == |run[0].workers|
  {
    if k == 0 {
      ParkedBound(run[0].workers);
    } else {
      RunKeepsInv(run, steps, k - 1);
      assert Proper(run[0], steps[k - 1]);
      Preserved(run[k - 1], steps[k - 1]);
    }
  }

  /** When Run returns after starting workers, every task in [begin, end) has been
      performed exactly once and nothing else has, and every worker waits again. */
  lemma RunPerformsEachTaskOnce(run: seq<State>, steps: seq<Action>, k: nat)
    requires IsRun(run, steps) && AllSafe(run, steps) && k < |steps| && steps[k].RunMain? && run[k].main.Barrier?
    ensures var s, s' := run[k], run[k + 1];
            && (forall x :: Times(s'.ran, x) == One(s.main.begin <= x < s.main.end))
            && (forall t :: 0 <= t < |s'.workers| ==> s'.workers[t].Waiting?)
  {
    RunKeepsInv(run, steps, k);
    var s := run[k];
    ParkedBound(s.workers);
    assert s.workers[0].Waiting? && WorkerOk(s.workers[0], s.main.begin, s.main.end - s.main.begin, Lift(s).reserved, |s.workers|);
    forall x ensures Times(s.ran, x) == One(s.main.begin <= x < s.main.end) { NoHolders(s.workers, x); }
  }

  /** No task is ever performed twice, or outside the range, even halfway through. */
  lemma NeverTwice(run: seq<State>, steps: seq<Action>, k: nat, x: int)
    requires IsRun(run, steps) && AllSafe(run, steps) && k < |run| && run[k].main.Barrier?
    ensures Times(run[k].ran, x) <= One(run[k].main.begin <= x < run[k].main.end)
  {
    RunKeepsInv(run, steps, k);
    assert Times(run[k].ran, x) + Holders(run[k].workers, x) ==
           One(run[k].main.begin <= x < run[k].main.begin + Min(Lift(run[k]).reserved, run[k].main.end - run[k].main.begin));
  }

  /** The counter passes the number of tasks by at most the largest share of all
      workers but one, and one. */
  lemma OvershootBound(run: seq<State>, steps: seq<Action>, k: nat)
    requires IsRun(run, steps) && AllSafe(run, steps) && k < |run| && run[k].main.Barrier?
    ensures var num := run[k].main.end - run[k].main.begin;
            |run[k].workers| > 0 && run[k].reserved <= num + Overshoot(num, |run[k].workers|)
  {
    hide Overshoot, Largest;
    RunKeepsInv(run, steps, k);
    var s := run[k];
    var num := s.main.end - s.main.begin;
    OvershootPositive(num, |s.workers|);
    if s.reserved >= num {
      SizesOk(s, s.main.begin, num);
      OwedNonNegative(s.workers);
    }
  }
}
