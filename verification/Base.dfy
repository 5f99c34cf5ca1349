/** Small shared vocabulary: an option type, unsigned 64-bit arithmetic and sums over sequences. */
module Base {

  datatype Option<+T> = None | Some(value: T)

  datatype Result<+T, +E> = Ok(value: T) | Err(error: E)

  /** The number of values of a Go `uint64`. */
  const WORD: nat := 0x1_0000_0000_0000_0000

  /** A Go `uint64`. */
  type Word = x: int | 0 <= x < WORD

  /** Go's `+` on `uint64`: the sum wraps. */
  function AddWord(a: Word, b: Word): Word {
    (a + b) % WORD
  }

  /** The sum of `weight` over a sequence. */
  function Sum<T>(s: seq<T>, weight: T -> int): int {
    if s == [] then 0 else Sum(s[..|s| - 1], weight) + weight(s[|s| - 1])
  }

  lemma SumAppend<T>(s: seq<T>, x: T, weight: T -> int)
    ensures Sum(s + [x], weight) == Sum(s, weight) + weight(x)
  {
    assert (s + [x])[..|s|] == s;
  }

  lemma {:induction false} SumUpdate<T>(s: seq<T>, i: nat, x: T, weight: T -> int)
    requires i < |s|
    ensures Sum(s[i := x], weight) == Sum(s, weight) - weight(s[i]) + weight(x)
  {
    var n := |s| - 1;
    if i == n {
      assert s[i := x][..n] == s[..n];
    } else {
      assert s[i := x][..n] == s[..n][i := x];
      SumUpdate(s[..n], i, x, weight);
    }
  }

  lemma {:induction false} SumNonNegative<T>(s: seq<T>, weight: T -> int)
    requires forall k :: 0 <= k < |s| ==> weight(s[k]) >= 0
    ensures Sum(s, weight) >= 0
  {
    if s != [] {
      SumNonNegative(s[..|s| - 1], weight);
    }
  }

  lemma {:induction false} SumAllZero<T>(s: seq<T>, weight: T -> int)
    requires forall k :: 0 <= k < |s| ==> weight(s[k]) == 0
    ensures Sum(s, weight) == 0
  {
    if s != [] {
      SumAllZero(s[..|s| - 1], weight);
    }
  }

  /** With non-negative weights a sum is 0 only if every weight is. */
  lemma {:induction false} SumZero<T>(s: seq<T>, weight: T -> int)
    requires forall k :: 0 <= k < |s| ==> weight(s[k]) >= 0
    ensures Sum(s, weight) == 0 <==> forall k :: 0 <= k < |s| ==> weight(s[k]) == 0
  {
    if s != [] {
      var front := s[..|s| - 1];
      SumZero(front, weight);
      SumNonNegative(front, weight);
      assert s == front + [s[|s| - 1]];
      assert forall k :: 0 <= k < |front| ==> front[k] == s[k];
    }
  }

  /** Equal weights, equal sums. */
  lemma {:induction false} SumSame<T>(a: seq<T>, b: seq<T>, weight: T -> int)
    requires |a| == |b| && forall k :: 0 <= k < |a| ==> weight(a[k]) == weight(b[k])
    ensures Sum(a, weight) == Sum(b, weight)
  {
    if a != [] {
      SumSame(a[..|a| - 1], b[..|b| - 1], weight);
    }
  }

  /** No element occurs twice. */
  ghost predicate Distinct<T>(s: seq<T>) {
    forall i, j :: 0 <= i < j < |s| ==> s[i] != s[j]
  }

  /** `s` with every occurrence of `x` taken out, in order. */
  function Without<T(==)>(s: seq<T>, x: T): seq<T> {
    if s == [] then []
    else
      var r := Without(s[..|s| - 1], x);
      if s[|s| - 1] == x then r else r + [s[|s| - 1]]
  }

  lemma {:induction false} WithoutMembers<T>(s: seq<T>, x: T)
    ensures forall y :: y in Without(s, x) <==> y in s && y != x
    ensures x !in s ==> Without(s, x) == s
    ensures |Without(s, x)| <= |s|
  {
    if s != [] {
      var front, last := s[..|s| - 1], s[|s| - 1];
      WithoutMembers(front, x);
      assert s == front + [last];
    }
  }

  lemma {:induction false} WithoutCounts<T>(s: seq<T>, x: T)
    ensures multiset(Without(s, x)) == multiset(s)[x := 0]
  {
    if s != [] {
      var front, last := s[..|s| - 1], s[|s| - 1];
      WithoutCounts(front, x);
      assert s == front + [last];
    }
  }

  lemma {:induction false} WithoutDistinct<T>(s: seq<T>, x: T)
    requires Distinct(s)
    ensures Distinct(Without(s, x))
  {
    if s != [] {
      var front, last := s[..|s| - 1], s[|s| - 1];
      WithoutDistinct(front, x);
      WithoutMembers(front, x);
      assert last !in front;
    }
  }

  lemma SubsetSize<T>(a: set<T>, b: set<T>)
    requires a <= b
    ensures |a| <= |b|
  {
    assert b == a + (b - a);
  }
}
