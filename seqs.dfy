/** The array methods the source chains: `map`, `filter`, `slice(0, n)`, and the
    index-keyed `filter` that removes one position. */
module Seqs {

  /** `xs.map(f)`. */
  function Map<A, B>(xs: seq<A>, f: A -> B): (r: seq<B>)
    ensures |r| == |xs|
    ensures forall i :: 0 <= i < |xs| ==> r[i] == f(xs[i])
  {
    if xs == [] then [] else [f(xs[0])] + Map(xs[1..], f)
  }

  lemma {:induction false} MapAppend<A, B>(a: seq<A>, b: seq<A>, f: A -> B)
    ensures Map(a + b, f) == Map(a, f) + Map(b, f)
  {
    if a != [] {
      assert (a + b)[1..] == a[1..] + b;
      MapAppend(a[1..], b, f);
    }
  }

  /** `xs.filter(p)`: keeps exactly the elements satisfying `p`, in their order. */
  function Filter<T>(xs: seq<T>, p: T -> bool): (r: seq<T>)
    ensures |r| <= |xs|
    ensures forall i :: 0 <= i < |r| ==> r[i] in xs && p(r[i])
    ensures forall i :: 0 <= i < |xs| && p(xs[i]) ==> xs[i] in r
  {
    if xs == [] then []
    else (if p(xs[0]) then [xs[0]] else []) + Filter(xs[1..], p)
  }

  /** Filtering distributes over concatenation: the survivors of `a` all come
      before those of `b`, so relative order is kept. */
  lemma {:induction false} FilterAppend<T>(a: seq<T>, b: seq<T>, p: T -> bool)
    ensures Filter(a + b, p) == Filter(a, p) + Filter(b, p)
  {
    if a != [] {
      var h := if p(a[0]) then [a[0]] else [];
      assert (a + b)[0] == a[0];
      assert (a + b)[1..] == a[1..] + b;
      calc {
        Filter(a + b, p);
        h + Filter(a[1..] + b, p);
        { FilterAppend(a[1..], b, p); }
        h + (Filter(a[1..], p) + Filter(b, p));
        (h + Filter(a[1..], p)) + Filter(b, p);
        Filter(a, p) + Filter(b, p);
      }
    } else {
      assert a + b == b;
    }
  }

  /** A filter whose predicate holds everywhere gives back its input. */
  lemma {:induction false} FilterAll<T>(xs: seq<T>, p: T -> bool)
    requires forall i :: 0 <= i < |xs| ==> p(xs[i])
    ensures Filter(xs, p) == xs
  {
    if xs != [] {
      FilterAll(xs[1..], p);
    }
  }

  /** Mapping after filtering equals filtering by the transported predicate after mapping. */
  lemma {:induction false} MapFilter<A, B>(xs: seq<A>, f: A -> B, p: A -> bool, q: B -> bool)
    requires forall x :: p(x) == q(f(x))
    ensures Map(Filter(xs, p), f) == Filter(Map(xs, f), q)
  {
    if xs != [] {
      MapFilter(xs[1..], f, p, q);
      var h := if p(xs[0]) then [xs[0]] else [];
      MapAppend(h, Filter(xs[1..], p), f);
      assert Map(h, f) == if q(f(xs[0])) then [f(xs[0])] else [];
    }
  }

  /** `xs.slice(0, n)`: the longest prefix of length at most `n`. */
  function Take<T>(xs: seq<T>, n: nat): (r: seq<T>)
    ensures |r| <= n && |r| <= |xs|
    ensures |r| == n || |r| == |xs|
    ensures r == xs[..|r|]
  {
    if |xs| <= n then xs else xs[..n]
  }

  lemma MapTake<A, B>(xs: seq<A>, f: A -> B, n: nat)
    ensures Map(Take(xs, n), f) == Take(Map(xs, f), n)
  {
    var l, r := Map(Take(xs, n), f), Take(Map(xs, f), n);
    assert |l| == |r|;
    forall i | 0 <= i < |l| ensures l[i] == r[i] {
      assert l[i] == f(Take(xs, n)[i]) == f(xs[i]);
    }
  }

  /** `xs.filter((_, index) => index !== i)`, walking the positions from the front. */
  function WithoutIndex<T>(xs: seq<T>, i: int): seq<T>
  {
    if xs == [] then []
    else (if i == 0 then [] else [xs[0]]) + WithoutIndex(xs[1..], i - 1)
  }

  /** Removing position `i` leaves the elements before and after it, in order;
      an index outside the sequence removes nothing. */
  lemma {:induction false} WithoutIndexSpec<T>(xs: seq<T>, i: int)
    ensures 0 <= i < |xs| ==> WithoutIndex(xs, i) == xs[..i] + xs[i + 1..]
    ensures !(0 <= i < |xs|) ==> WithoutIndex(xs, i) == xs
  {
    if xs != [] {
      var rest := xs[1..];
      WithoutIndexSpec(rest, i - 1);
      assert WithoutIndex(xs, i) == (if i == 0 then [] else [xs[0]]) + WithoutIndex(rest, i - 1);
      if i == 0 {
        assert xs[..0] + xs[1..] == rest;
      } else if 0 < i < |xs| {
        assert rest[..i - 1] == xs[1..i];
        assert rest[i - 1 + 1..] == xs[i + 1..];
        assert [xs[0]] + xs[1..i] == xs[..i];
        assert [xs[0]] + (xs[1..i] + xs[i + 1..]) == xs[..i] + xs[i + 1..];
      } else {
        assert [xs[0]] + rest == xs;
      }
    }
  }
}
