/** Lists without repetition, permutations, and the `order by` of the queries. */
module Seqs {

  ghost predicate Distinct<T>(s: seq<T>) {
    forall i, j | 0 <= i < j < |s| :: s[i] != s[j]
  }

  /** Both lists hold the same elements, each as often. */
  ghost predicate Permutation<T>(a: seq<T>, b: seq<T>) {
    multiset(a) == multiset(b)
  }

  lemma PermutationBasics<T>(a: seq<T>, b: seq<T>)
    requires Permutation(a, b)
    ensures |a| == |b|
    ensures forall x :: x in a <==> x in b
  {
    assert |multiset(a)| == |a| && |multiset(b)| == |b|;
    forall x ensures x in a <==> x in b {
      assert x in a <==> x in multiset(a);
      assert x in b <==> x in multiset(b);
    }
  }

  /** Taking element k out of a list takes one occurrence out of its multiset. */
  lemma {:induction false} RemoveAt<T>(s: seq<T>, k: nat)
    requires k < |s|
    ensures multiset(s[..k] + s[k + 1..]) == multiset(s) - multiset{s[k]}
  {
    assert s == s[..k] + [s[k]] + s[k + 1..];
  }

  lemma {:induction false} DistinctCounts<T>(s: seq<T>, x: T)
    requires Distinct(s)
    ensures multiset(s)[x] == if x in s then 1 else 0
  {
    if s != [] {
      var front := s[..|s| - 1];
      assert s == front + [s[|s| - 1]];
      DistinctCounts(front, x);
    }
  }

  lemma {:induction false} CountsAreDistinct<T>(s: seq<T>)
    requires forall x :: multiset(s)[x] <= 1
    ensures Distinct(s)
  {
    forall i, j | 0 <= i < j < |s| ensures s[i] != s[j] {
      assert s == s[..j] + s[j..];
      assert multiset(s) == multiset(s[..j]) + multiset(s[j..]);
      assert s[..j][i] in multiset(s[..j]);
      assert s[j..][0] in multiset(s[j..]);
      assert multiset(s)[s[i]] <= 1;
    }
  }

  lemma {:induction false} PermutationKeepsDistinct<T>(a: seq<T>, b: seq<T>)
    requires Permutation(a, b) && Distinct(a)
    ensures Distinct(b)
  {
    forall x ensures multiset(b)[x] <= 1 {
      DistinctCounts(a, x);
    }
    CountsAreDistinct(b);
  }

  lemma {:induction false} DistinctSameElements<T>(a: seq<T>, b: seq<T>)
    requires Distinct(a) && Distinct(b)
    requires forall x :: x in a <==> x in b
    ensures Permutation(a, b)
  {
    forall x ensures multiset(a)[x] == multiset(b)[x] {
      DistinctCounts(a, x);
      DistinctCounts(b, x);
    }
  }

  /** |a| pigeons without repetition, all from a, are all of a. */
  lemma {:induction false} Pigeonhole<T>(a: seq<T>, b: seq<T>)
    requires |a| == |b| && Distinct(b)
    requires forall x | x in b :: x in a
    ensures Permutation(a, b)
    decreases |a|
  {
    if b == [] {
      assert a == [];
    } else {
      var x := b[0];
      assert x in a;
      var k :| 0 <= k < |a| && a[k] == x;
      var rest := a[..k] + a[k + 1..];
      assert a == a[..k] + [x] + a[k + 1..];
      assert b == [x] + b[1..];
      forall y | y in b[1..] ensures y in rest {
        assert y in b && y != x;
        var m :| 0 <= m < |a| && a[m] == y;
        assert m != k;
        assert y == if m < k then rest[m] else rest[m - 1];
      }
      Pigeonhole(rest, b[1..]);
      assert multiset(a) == multiset(rest) + multiset{x};
    }
  }

  ghost predicate SortedBy<T>(s: seq<T>, le: (T, T) -> bool) {
    forall i, j | 0 <= i < j < |s| :: le(s[i], s[j])
  }

  ghost predicate TotalOrder<T(!new)>(le: (T, T) -> bool) {
    && (forall x, y :: le(x, y) || le(y, x))
    && (forall x, y, z :: le(x, y) && le(y, z) ==> le(x, z))
  }

  function InsertBy<T>(x: T, s: seq<T>, le: (T, T) -> bool): (r: seq<T>)
    ensures multiset(r) == multiset(s) + multiset{x}
  {
    if s == [] then [x]
    else if le(x, s[0]) then [x] + s
    else
      assert s == [s[0]] + s[1..];
      [s[0]] + InsertBy(x, s[1..], le)
  }

  /** `order by`: the rows of a table in the order of le. */
  function SortBy<T>(s: seq<T>, le: (T, T) -> bool): (r: seq<T>)
    ensures Permutation(r, s)
  {
    if s == [] then []
    else
      assert s == [s[0]] + s[1..];
      InsertBy(s[0], SortBy(s[1..], le), le)
  }

  lemma {:induction false} InsertBySorted<T(!new)>(x: T, s: seq<T>, le: (T, T) -> bool)
    requires TotalOrder(le) && SortedBy(s, le)
    ensures SortedBy(InsertBy(x, s, le), le)
  {
    if s != [] && !le(x, s[0]) {
      var rest := InsertBy(x, s[1..], le);
      InsertBySorted(x, s[1..], le);
      forall j | 0 <= j < |rest| ensures le(s[0], rest[j]) {
        assert rest[j] in multiset(rest);
        assert rest[j] in multiset(s[1..]) + multiset{x};
        if rest[j] != x {
          assert rest[j] in s[1..];
          var k :| 0 <= k < |s[1..]| && s[1..][k] == rest[j];
          assert le(s[0], s[k + 1]);
        }
      }
    }
  }

  lemma {:induction false} SortBySorted<T(!new)>(s: seq<T>, le: (T, T) -> bool)
    requires TotalOrder(le)
    ensures SortedBy(SortBy(s, le), le)
  {
    if s != [] {
      SortBySorted(s[1..], le);
      InsertBySorted(s[0], SortBy(s[1..], le), le);
    }
  }

  lemma {:induction false} SortedIsFixed<T>(s: seq<T>, le: (T, T) -> bool)
    requires SortedBy(s, le)
    ensures SortBy(s, le) == s
  {
    if |s| == 1 {
      assert SortBy(s[1..], le) == [];
    } else if s != [] {
      SortedIsFixed(s[1..], le);
      assert le(s[0], s[1]);
    }
  }

  /** Reading rows back in order returns the list as it was written exactly when it was written in order. */
  lemma {:induction false} SortByFixedIff<T(!new)>(s: seq<T>, le: (T, T) -> bool)
    requires TotalOrder(le)
    ensures SortBy(s, le) == s <==> SortedBy(s, le)
  {
    SortBySorted(s, le);
    if SortedBy(s, le) {
      SortedIsFixed(s, le);
    }
  }

  /** What each step keeps holds to the end. */
  lemma {:induction false} KeptAlong<T>(s: seq<T>, kept: T -> bool, a: nat, j: nat)
    requires a <= j < |s| && kept(s[a])
    requires forall k | a < k <= j && kept(s[k - 1]) :: kept(s[k])
    ensures kept(s[j])
    decreases j
  {
    if a < j {
      KeptAlong(s, kept, a, j - 1);
    }
  }
}
