/** Lookup maps filled from a list: of several elements with one key, the last one stays. */
module Lookup {
  import opened Common
  import opened Seqs

  ghost predicate UniqueBy<T, K>(s: seq<T>, key: T -> K) {
    forall i, j | 0 <= i < j < |s| :: key(s[i]) != key(s[j])
  }

  /** The map a loop `m[key(x)] = x` over the list leaves behind. */
  function MapOf<T, K(==)>(s: seq<T>, key: T -> K): map<K, T> {
    if s == [] then map[] else MapOf(s[..|s| - 1], key)[key(s[|s| - 1]) := s[|s| - 1]]
  }

  lemma {:induction false} MapOfContents<T, K>(s: seq<T>, key: T -> K, id: K)
    ensures id in MapOf(s, key) ==> MapOf(s, key)[id] in s && key(MapOf(s, key)[id]) == id
    ensures id !in MapOf(s, key) ==> forall i | 0 <= i < |s| :: key(s[i]) != id
  {
    if s != [] {
      MapOfContents(s[..|s| - 1], key, id);
    }
  }

  function Find<T, K(==)>(s: seq<T>, key: T -> K, id: K): (r: Option<T>)
    ensures r.Some? ==> r.value in s && key(r.value) == id
    ensures r.None? ==> forall i | 0 <= i < |s| :: key(s[i]) != id
  {
    MapOfContents(s, key, id);
    if id in MapOf(s, key) then Some(MapOf(s, key)[id]) else None
  }

  method IndexBy<T, K(==)>(s: seq<T>, key: T -> K) returns (m: map<K, T>)
    ensures m == MapOf(s, key)
  {
    m := map[];
    for i := 0 to |s|
      invariant m == MapOf(s[..i], key)
    {
      assert s[..i + 1][..i] == s[..i];
      m := m[key(s[i]) := s[i]];
    }
    assert s[..|s|] == s;
  }

  lemma {:induction false} FindUnique<T, K>(s: seq<T>, key: T -> K, x: T)
    requires UniqueBy(s, key) && x in s
    ensures Find(s, key, key(x)) == Some(x)
  {
    var found := Find(s, key, key(x));
    var i :| 0 <= i < |s| && s[i] == x;
    var j :| 0 <= j < |s| && s[j] == found.value;
    assert i == j;
  }

  lemma {:induction false} UniqueByIsDistinct<T, K>(s: seq<T>, key: T -> K)
    requires UniqueBy(s, key)
    ensures Distinct(s)
  {
    forall i, j | 0 <= i < j < |s| ensures s[i] != s[j] {
      assert key(s[i]) != key(s[j]);
    }
  }

  lemma {:induction false} PermutationKeepsUnique<T, K>(a: seq<T>, b: seq<T>, key: T -> K)
    requires Permutation(a, b) && UniqueBy(a, key)
    ensures UniqueBy(b, key)
  {
    UniqueByIsDistinct(a, key);
    PermutationKeepsDistinct(a, b);
    PermutationBasics(a, b);
    forall i, j | 0 <= i < j < |b| ensures key(b[i]) != key(b[j]) {
      assert b[i] != b[j] && b[i] in a && b[j] in a;
      FindUnique(a, key, b[i]);
      FindUnique(a, key, b[j]);
    }
  }

  /** What a lookup finds does not depend on the order of the list. */
  lemma {:induction false} FindPermutation<T, K>(a: seq<T>, b: seq<T>, key: T -> K, id: K)
    requires Permutation(a, b) && UniqueBy(a, key)
    ensures Find(a, key, id) == Find(b, key, id)
  {
    PermutationKeepsUnique(a, b, key);
    PermutationBasics(a, b);
    var x := Find(a, key, id);
    if x.Some? {
      FindUnique(b, key, x.value);
    }
  }
}
