/** What the rate on a configuration line does to the transmission times of its flow. */
module RudeClock {
  import opened Common
  import opened Rude
  import opened Parser

  /** Division that truncates towards zero. */
  function Trunc(a: int, b: int): int requires b != 0 { if a >= 0 then a / b else -(-a / b) }

  lemma Quotient(a: int, b: int, q: int, r: int)
    requires b > 0 && a == q * b + r && 0 <= r < b
    ensures a / b == q && a % b == r
  {
    var p := a / b;
    assert a == p * b + a % b;
    if p > q { Multiples(p, q, b); } else if q > p { Multiples(q, p, b); }
  }

  /** The sum in send_cbr is usec + 1000000 / rate, exactly, cut off behind the point. */
  lemma NextUsecTruncates(usec: int, rate: int)
    requires rate != 0 && (rate > 0 ==> usec >= 0)
    ensures NextUsec(usec, rate) == Trunc(usec * rate + 1000000, rate)
  {
    var d := if rate > 0 then rate else -rate;
    var q, r := 1000000 / d, 1000000 % d;
    assert 1000000 == q * d + r;
    if rate > 0 {
      assert usec * rate + 1000000 == (usec + q) * d + r && usec * rate >= 0;
      Quotient(usec * rate + 1000000, d, usec + q, r);
    } else {
      TruncNegative(usec, d, q, r);
    }
  }

  lemma TruncNegative(usec: int, d: int, q: int, r: int)
    requires d > 0 && 1000000 == q * d + r && 0 <= r < d
    ensures Trunc(usec * -d + 1000000, -d) == if r == 0 || usec <= q then usec - q else usec - q - 1
  {
    var a, u := usec * -d + 1000000, usec - q;
    Distribute(usec, q, d);
    TruncOf(a, d);
    hide Trunc;
    if u <= 0 {
      NotPositive(u, d);
      Quotient(a, d, -u, r);
    } else {
      Multiples(u, 0, d);
      if r == 0 { Quotient(-a, d, u, 0); } else {
        Distribute(u, 1, d);
        Quotient(-a, d, u - 1, d - r);
      }
    }
  }

  lemma Distribute(x: int, y: int, d: int)
    ensures (x - y) * d == x * d - y * d && x * -d == -(x * d) && -(x - y) * d == y * d - x * d
  {
  }

  lemma NotPositive(u: int, d: int)
    requires u <= 0 < d
    ensures u * d <= 0
  {
  }

  lemma TruncOf(a: int, d: int)
    requires d > 0
    ensures Trunc(a, -d) == if a >= 0 then -(a / d) else -a / d
  {
    if a >= 0 { NegativeDivisor(a, d); } else { NegativeDivisor(-a, d); }
  }

  lemma NegativeDivisor(a: int, d: int)
    requires a >= 0 && d > 0
    ensures a / -d == -(a / d)
  {
  }

  /** The transmission time after k more packets. */
  ghost function Later(t: Time, rate: int, k: nat): Time requires rate != 0 {
    if k == 0 then t else NextTime(Later(t, rate, k - 1), rate)
  }

  lemma {:induction false} SteadyStays(t: Time, rate: int, k: nat)
    requires rate > 0 || rate < -1000000
    requires TimeOk(t)
    ensures TimeOk(Later(t, rate, k))
  {
    if k > 0 {
      SteadyStays(t, rate, k - 1);
      StepSize(rate);
    }
  }

  lemma StepSize(rate: int)
    requires rate != 0
    ensures rate > 0 ==> 0 <= 1000000 / rate <= 1000000
    ensures rate < -1000000 ==> 1000000 / -rate == 0 && 1000000 % -rate != 0
    ensures -1000000 <= rate < 0 ==> 1000000 / -rate >= 1
  {
    if rate > 0 {
      var q := 1000000 / rate;
      assert q * rate <= 1000000;
      if q > 1000000 { Multiples(q, 1000000, rate); }
    } else if rate < -1000000 {
      Quotient(1000000, -rate, 0, 1000000);
    } else {
      var q := 1000000 / -rate;
      assert 1000000 < q * -rate + -rate;
    }
  }

  /** Any other negative rate takes the clock below zero. */
  lemma {:induction false} GoesNegative(t: Time, rate: int) returns (k: nat)
    requires -1000000 <= rate < 0 && TimeOk(t)
    ensures !TimeOk(Later(t, rate, k))
    decreases t.usec
  {
    StepSize(rate);
    var u := NextTime(t, rate);
    if !TimeOk(u) {
      k := 1;
      assert Later(t, rate, 0) == t;
    } else {
      var j := GoesNegative(u, rate);
      k := j + 1;
      LaterFirst(t, rate, j);
    }
  }

  lemma {:induction false} LaterFirst(t: Time, rate: int, k: nat)
    requires rate != 0
    ensures Later(t, rate, k + 1) == Later(NextTime(t, rate), rate, k)
  {
    if k > 0 { LaterFirst(t, rate, k - 1); } else { assert Later(t, rate, 0) == t; }
  }

  /** A line with this rate keeps every later transmission time a proper time, wherever it
      starts, if and only if the rate, modulo 2^32, is not among the last million values. */
  lemma RateKeepsTheClock(rate: int, psize: int, t: Time)
    requires KindOf(CbrArgs(Some((rate, psize)))).Some? && TimeOk(t) && rate % WORD != 0
    ensures var stored := KindOf(CbrArgs(Some((rate, psize)))).value.rate;
            stored != 0 && ((forall k: nat :: TimeOk(Later(t, stored, k))) <==> rate % WORD < WORD - 1000000)
  {
    var stored := Int(rate);
    if -1000000 <= stored < 0 {
      var k := GoesNegative(t, stored);
    } else {
      forall k: nat ensures TimeOk(Later(t, stored, k)) { SteadyStays(t, stored, k); }
    }
  }

  /** The rate 4294967295 is accepted and stored as -1; its flow's second packet is due
      at a negative fraction of a second. */
  lemma NegativeRate(sec: int)
    ensures KindOf(CbrArgs(Some((4294967295, PMINSIZE)))) == Some(Cbr(-1, PMINSIZE))
    ensures NextTime(Time(sec, 0), -1) == Time(sec, -1000000)
  {
  }

  /** The rates stored as zero, which are never sent, are the multiples of 2^32. */
  lemma ZeroRate(rate: int, psize: int)
    requires KindOf(CbrArgs(Some((rate, psize)))).Some?
    ensures KindOf(CbrArgs(Some((rate, psize)))).value.rate == 0 <==> rate % WORD == 0
  {
  }
}
