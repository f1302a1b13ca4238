/** Facts about division and set sizes that several modules need. */
module Arith {

  function Min(a: int, b: int): (m: int)
    ensures m <= a && m <= b && (m == a || m == b)
  {
    if a < b then a else b
  }

  lemma Multiple(k: int, n: nat)
    ensures k >= 1 ==> k * n >= n
    ensures k <= -1 ==> k * n <= 0 - n
  {
    if k >= 1 {
      assert k * n == n + (k - 1) * n;
    } else if k <= -1 {
      assert k * n == 0 - n - (-k - 1) * n;
    }
  }

  /** Quotient and remainder are unique. */
  lemma DivIs(x: nat, n: nat, q: int, r: nat)
    requires r < n && x == q * n + r
    ensures x / n == q && x % n == r
  {
    Multiple(x / n - q, n);
    assert (x / n - q) * n == r - x % n;
  }

  /** The two-digit number with high digit `q` and low digit `r` in base `n`. */
  function Pair(q: nat, n: nat, r: nat): nat {
    q * n + r
  }

  lemma PairDigits(q: nat, n: nat, r: nat)
    requires r < n
    ensures Pair(q, n, r) / n == q && Pair(q, n, r) % n == r
  {
    DivIs(Pair(q, n, r), n, q, r);
  }

  lemma DigitsPair(x: nat, n: nat)
    requires n > 0
    ensures x % n < n && Pair(x / n, n, x % n) == x
  {
  }

  /** Numbers with the same digits are the same and no others. */
  lemma PairInjective(q: nat, n: nat, r: nat, q': nat, r': nat)
    requires r < n && r' < n && Pair(q, n, r) == Pair(q', n, r')
    ensures q == q' && r == r'
  {
    PairDigits(q, n, r);
    PairDigits(q', n, r');
  }

  /** A two-digit number stays below its range, and its high digit too. */
  lemma PairBelow(q: nat, high: nat, n: nat, r: nat)
    requires q < high && r < n
    ensures Pair(q, n, r) < high * n
  {
    Multiple(high - q, n);
    assert high * n == q * n + (high - q) * n;
  }

  /** Numbers compare by their high digits, the low digit of the larger one being no larger. */
  lemma PairOrder(k: nat, m: nat, n: nat, i: nat, j: nat)
    requires j <= i < n
    ensures Pair(k, n, i) < Pair(m, n, j) <==> k < m
  {
    Multiple(m - k, n);
    Multiple(k - m, n);
    assert m * n - k * n == (m - k) * n;
    assert k * n - m * n == (k - m) * n;
  }

  lemma QuotientBelow(x: nat, high: nat, n: nat)
    requires n > 0 && x < high * n
    ensures x / n < high
  {
    Multiple(x / n - high + 1, n);
    assert x == x / n * n + x % n;
    assert (x / n - high + 1) * n == x - x % n - high * n + n;
  }

  lemma ThreeDigits(t: nat, a: nat, b: nat, c: nat) returns (x: nat, y: nat, z: nat)
    requires t < a * (b * c) && b > 0 && c > 0
    ensures x < a && y < b && z < c && t == Pair(x, b * c, Pair(y, c, z))
  {
    var n := b * c;
    Multiple(b, c);
    QuotientBelow(t, a, n);
    DigitsPair(t, n);
    var rest := t % n;
    QuotientBelow(rest, b, c);
    DigitsPair(rest, c);
    x, y, z := t / n, rest / c, rest % c;
  }

  function CeilDiv(x: nat, n: nat): nat
    requires n > 0
  {
    (x + n - 1) / n
  }

  /** The multiples of `n` below `x` are as many as the rounded-up quotient. */
  lemma CeilBelow(k: nat, x: nat, n: nat)
    requires n > 0
    ensures k < CeilDiv(x, n) <==> k * n < x
  {
    var c, r := CeilDiv(x, n), (x + n - 1) % n;
    assert x + n - 1 == c * n + r;
    Multiple(c - k, n);
    Multiple(k - c + 1, n);
    assert (c - k) * n == c * n - k * n;
    assert (k - c + 1) * n == k * n - c * n + n;
  }

  lemma ModAdd(x: nat, y: nat, n: nat)
    requires n > 0
    ensures (x % n + y) % n == (x + y) % n
  {
    var q, r := (x % n + y) / n, (x % n + y) % n;
    assert x + y == x / n * n + q * n + r == (x / n + q) * n + r;
    DivIs(x + y, n, x / n + q, r);
  }

  lemma SameResidue(t: nat, u: nat, n: nat)
    requires n > 0 && t % n == u % n && u <= t < u + n
    ensures t == u
  {
    Multiple(t / n - u / n, n);
    assert t - u == (t / n - u / n) * n;
  }

  lemma SubsetSize<T>(a: set<T>, b: set<T>)
    requires a <= b
    ensures |a| <= |b|
    ensures |a| == |b| ==> a == b
  {
    assert b == a + (b - a);
    assert |b| == |a| + |b - a|;
    if |a| == |b| {
      assert b - a == {};
    }
  }

  function Below(n: nat): (s: set<nat>)
    ensures forall i: nat :: i in s <==> i < n
  {
    if n == 0 then {} else Below(n - 1) + {n - 1}
  }

  lemma {:induction false} BelowSize(n: nat)
    ensures |Below(n)| == n
  {
    if n == 0 {
    } else {
      BelowSize(n - 1);
    }
  }

  /** A set that `f` enumerates without repetition has as many elements as the range. */
  lemma {:induction false} EnumeratedSize<T>(f: nat -> T, n: nat, s: set<T>)
    requires forall i :: 0 <= i < n ==> f(i) in s
    requires forall i, j :: 0 <= i < j < n ==> f(i) != f(j)
    requires forall x :: x in s ==> exists i :: 0 <= i < n && f(i) == x
    ensures |s| == n
  {
    if n == 0 {
      assert s == {};
    } else {
      var rest := s - {f(n - 1)};
      forall x | x in rest
        ensures exists i :: 0 <= i < n - 1 && f(i) == x
      {
        var i :| 0 <= i < n && f(i) == x;
        assert i != n - 1;
      }
      EnumeratedSize(f, n - 1, rest);
    }
  }

  // ----- striding: worker `i` of `n` takes i, i + n, i + 2n, ...

  /** The item after `t` of its worker is `n` away, and none in between is its own. */
  ghost predicate NextInLane(lane: nat -> nat, n: nat, t: nat) {
    && n > 0 && lane(t + n) == lane(t)
    && forall u :: t <= u < t + n && lane(u) == lane(t) ==> u == t
  }

  /** `lane` tells whose item each is. */
  ghost predicate Strides(lane: nat -> nat, n: nat) {
    && (forall i :: 0 <= i < n ==> lane(i) == i)
    && (forall t :: 0 <= t ==> lane(t) < n)
    && (forall t: nat :: NextInLane(lane, n, t))
  }

  lemma ModNextInLane(n: nat, t: nat)
    requires n > 0
    ensures NextInLane((u: nat) => u % n, n, t)
  {
    DivIs(t + n, n, t / n + 1, t % n);
    forall u | t <= u < t + n && u % n == t % n
      ensures u == t
    {
      SameResidue(u, t, n);
    }
  }

  lemma ModStrides(n: nat)
    requires n > 0
    ensures Strides((t: nat) => t % n, n)
  {
    forall i | 0 <= i < n
      ensures i % n == i
    {
      DivIs(i, n, 0, i);
    }
    var lane := (t: nat) => t % n;
    forall t: nat
      ensures NextInLane(lane, n, t)
    {
      ModNextInLane(n, t);
    }
  }
}
