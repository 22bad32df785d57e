/** What several of the models share. */
module Common {

  datatype Option<T> = None | Some(value: T)

  function Min(a: int, b: int): int { if a < b then a else b }

  ghost function One(b: bool): nat { if b then 1 else 0 }

  ghost predicate Distinct(l: seq<nat>) { forall i, j :: 0 <= i < j < |l| ==> l[i] != l[j] }

  lemma SubsetSize<T>(a: set<T>, b: set<T>)
    requires a <= b
    ensures |a| <= |b| && (|a| == |b| ==> a == b)
  {
    assert b == a + (b - a);
    assert |a + (b - a)| == |a| + |b - a|;
  }

  lemma {:induction false} NotNegative(n: nat, d: nat)
    ensures n * d >= 0
  {
    if n > 0 {
      NotNegative(n - 1, d);
      assert n * d == (n - 1) * d + d;
    }
  }

  lemma Multiples(p: int, q: int, d: int)
    requires p > q && d > 0
    ensures p * d >= q * d + d
  {
    NotNegative(p - q - 1, d);
    assert (p - q - 1) * d == p * d - q * d - d;
  }

  /** Sums of multisets in another order. */
  lemma Reorder(a: multiset<int>, b: multiset<int>, c: multiset<int>)
    ensures a + c + b == a + b + c && a + (b + c) == a + b + c
  {
  }

  // -------------------------------------------------------------- machine words

  /** Values of a 32-bit word. */
  const WORD: nat := 0x1_0000_0000

  /** A 32-bit int holds values from -INT_RANGE to INT_RANGE - 1. */
  const INT_RANGE: int := 0x8000_0000

  predicate InInt(x: int) { -INT_RANGE <= x < INT_RANGE }

  /** A value as a 32-bit int holds it. */
  function Int(x: int): (r: int)
    ensures InInt(r) && (InInt(x) ==> r == x)
  {
    var w := x % WORD;
    if w < INT_RANGE then w else w - WORD
  }

  /** Values of a 64-bit word. */
  const RANGE: nat := 0x1_0000_0000_0000_0000

  /** An index as stored in a 64-bit word. */
  function Word(i: int): int { i % RANGE }

  /** The word of a number is what is left in range after whole turns. */
  lemma WordIs(x: int, k: int)
    requires 0 <= x - RANGE * k < RANGE
    ensures Word(x) == x - RANGE * k
  {
  }

  lemma WordOfDifference(a: int, b: int)
    ensures Word(Word(a) - Word(b)) == Word(a - b)
  {
  }
}
