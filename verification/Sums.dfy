/** Sums over a sequence: how often something occurs in several containers together. */
module Sums {

  ghost function Sum<A>(s: seq<A>, f: A -> nat): nat {
    if s == [] then 0 else Sum(s[..|s| - 1], f) + f(s[|s| - 1])
  }

  lemma SumAppend<A>(s: seq<A>, x: A, f: A -> nat)
    ensures Sum(s + [x], f) == Sum(s, f) + f(x)
  {
    assert (s + [x])[..|s|] == s;
  }

  lemma {:induction false} SumConcat<A>(s: seq<A>, t: seq<A>, f: A -> nat)
    ensures Sum(s + t, f) == Sum(s, f) + Sum(t, f)
  {
    if t == [] {
      assert s + t == s;
    } else {
      SumConcat(s, t[..|t| - 1], f);
      assert (s + t)[..|s + t| - 1] == s + t[..|t| - 1];
    }
  }

  /** The head of a sequence and the rest of it. */
  lemma SumHead<A>(s: seq<A>, f: A -> nat)
    requires s != []
    ensures Sum(s, f) == f(s[0]) + Sum(s[1..], f)
  {
    SumConcat([s[0]], s[1..], f);
    assert [s[0]] + s[1..] == s;
    assert Sum([s[0]][..0], f) == 0;
  }

  lemma {:induction false} SumUpdate<A>(s: seq<A>, i: nat, x: A, f: A -> nat)
    requires i < |s|
    ensures Sum(s[i := x], f) + f(s[i]) == Sum(s, f) + f(x)
  {
    var n := |s| - 1;
    if i == n {
      assert s[i := x][..n] == s[..n];
    } else {
      SumUpdate(s[..n], i, x, f);
      assert s[i := x][..n] == s[..n][i := x];
    }
  }

  lemma {:induction false} SumHas<A>(s: seq<A>, i: nat, f: A -> nat)
    requires i < |s|
    ensures f(s[i]) <= Sum(s, f)
  {
    var n := |s| - 1;
    if i < n {
      SumHas(s[..n], i, f);
    }
  }

  /** Two elements of a sequence both count. */
  lemma {:induction false} SumHasTwo<A>(s: seq<A>, i: nat, j: nat, f: A -> nat)
    requires i < |s| && j < |s| && i != j
    ensures f(s[i]) + f(s[j]) <= Sum(s, f)
  {
    var n := |s| - 1;
    if i == n {
      SumHas(s[..n], j, f);
    } else if j == n {
      SumHas(s[..n], i, f);
    } else {
      SumHasTwo(s[..n], i, j, f);
    }
  }

  /** A sum of zeros is zero. */
  lemma {:induction false} SumZero<A>(s: seq<A>, f: A -> nat)
    requires forall x <- s :: f(x) == 0
    ensures Sum(s, f) == 0
  {
    if s != [] {
      SumZero(s[..|s| - 1], f);
    }
  }

  /** Elementwise larger terms have a larger sum. */
  lemma {:induction false} SumMonotone<A>(s: seq<A>, f: A -> nat, g: A -> nat)
    requires forall x <- s :: f(x) <= g(x)
    ensures Sum(s, f) <= Sum(s, g)
  {
    if s != [] {
      SumMonotone(s[..|s| - 1], f, g);
    }
  }

  /** A sequence without the last occurrence of an element. */
  function RemoveOne<A(==)>(s: seq<A>, x: A): (r: seq<A>)
    requires x in s
    ensures |r| == |s| - 1 && multiset(s) == multiset(r) + multiset{x}
  {
    var n := |s| - 1;
    assert s == s[..n] + [s[n]];
    if s[n] == x then s[..n] else RemoveOne(s[..n], x) + [s[n]]
  }

  lemma {:induction false} SumRemove<A>(s: seq<A>, x: A, f: A -> nat)
    requires x in s
    ensures Sum(RemoveOne(s, x), f) + f(x) == Sum(s, f)
  {
    var n := |s| - 1;
    if s[n] != x {
      SumRemove(s[..n], x, f);
      SumAppend(RemoveOne(s[..n], x), s[n], f);
    }
  }

  /** A sum does not depend on the order of the elements. */
  lemma {:induction false} SumPermutation<A>(a: seq<A>, b: seq<A>, f: A -> nat)
    requires multiset(a) == multiset(b)
    ensures Sum(a, f) == Sum(b, f)
    decreases |a|
  {
    if a == [] {
      assert |multiset(b)| == 0;
    } else {
      var n := |a| - 1;
      var x := a[n];
      assert a == a[..n] + [x];
      assert multiset(a) == multiset(a[..n]) + multiset{x};
      assert x in multiset(b);
      var b' := RemoveOne(b, x);
      SumRemove(b, x, f);
      assert multiset(a[..n]) == multiset(b) - multiset{x};
      assert multiset(b') == multiset(b) - multiset{x};
      SumPermutation(a[..n], b', f);
    }
  }

  function Is<A(==)>(x: A): A -> nat {
    y => if y == x then 1 else 0
  }

  /** The multiplicity of an element as a sum. */
  lemma {:induction false} CountIsSum<A>(s: seq<A>, x: A)
    ensures multiset(s)[x] == Sum(s, Is(x))
  {
    if s != [] {
      var n := |s| - 1;
      assert s == s[..n] + [s[n]];
      CountIsSum(s[..n], x);
    }
  }

  /** The sum over a sequence from the parts before, at and after a position. */
  lemma SumAround<A>(s: seq<A>, n: nat, f: A -> nat)
    requires n < |s|
    ensures Sum(s, f) == Sum(s[..n], f) + f(s[n]) + Sum(s[n + 1..], f)
  {
    var head, tail := s[..n], s[n..];
    assert s == head + tail;
    SumConcat(head, tail, f);
    SumHead(tail, f);
    assert tail[1..] == s[n + 1..];
  }
}
