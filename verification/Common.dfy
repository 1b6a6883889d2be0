/** Small facts about options, duplicate-free sequences and sums, shared by the models. */
module Common {

  datatype Option<+T> = None | Some(value: T)

  predicate NoDup<T(==)>(s: seq<T>) {
    forall i, j :: 0 <= i < j < |s| ==> s[i] != s[j]
  }

  function Elems<T>(s: seq<T>): set<T> {
    set x | x in s
  }

  /** `s` lists every element of `S` exactly once, in some order. */
  predicate Enumerates<T(==)>(s: seq<T>, S: set<T>) {
    && NoDup(s)
    && (forall x | x in s :: x in S)
    && (forall x | x in S :: x in s)
  }

  lemma EnumeratesSize<T>(s: seq<T>, S: set<T>)
    requires Enumerates(s, S)
    ensures |s| == |S|
  {
    if s == [] {
      assert S == {};
    } else {
      var last := s[|s| - 1];
      assert s == s[..|s| - 1] + [last];
      EnumeratesSize(s[..|s| - 1], S - {last});
    }
  }

  lemma EnumeratesNothing<T>(s: seq<T>)
    requires Enumerates(s, {})
    ensures s == []
  {
    EnumeratesSize(s, {});
  }

  lemma SubsetSize<T>(A: set<T>, B: set<T>)
    requires A <= B
    ensures |A| <= |B|
    ensures |A| == |B| ==> A == B
  {
    assert B == A + (B - A);
    assert |B| == |A| + |B - A|;
  }

  lemma NoDupAppend<T>(s: seq<T>, t: seq<T>)
    requires NoDup(s) && NoDup(t)
    requires forall x | x in t :: x !in s
    ensures NoDup(s + t)
  {
    var u := s + t;
    forall i, j | 0 <= i < j < |u|
      ensures u[i] != u[j]
    {
      if i < |s| <= j {
        assert u[i] in s && u[j] in t;
      }
    }
  }

  lemma MulMonotone(a: int, b: int, d: nat)
    requires a <= b
    ensures a * d <= b * d
  {
  }

  lemma AtMostQuotient(n: int, d: nat, k: int)
    requires d > 0
    ensures n * d <= k <==> n <= k / d
  {
    var q := k / d;
    assert q * d <= k < (q + 1) * d;
    if n <= q {
      MulMonotone(n, q, d);
    } else {
      MulMonotone(q + 1, n, d);
    }
  }

  /** The elements of a set in some order: what a store that keeps no order may return. */
  method Members<T(==)>(S: set<T>) returns (s: seq<T>)
    ensures Enumerates(s, S)
  {
    s := [];
    var rest := S;
    while rest != {}
      invariant rest <= S
      invariant Enumerates(s, S - rest)
      decreases rest
    {
      var x :| x in rest;
      NoDupAppend(s, [x]);
      s, rest := s + [x], rest - {x};
    }
  }
}
