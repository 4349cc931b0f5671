/**
 * `Array.prototype.filter` and `slice(0, k)` over sequences, with the facts
 * every derived query relies on: membership, order and partition.
 */
module Lists {

  /** `xs` is an order-preserving sublist of `ys` (what `filter` can produce). */
  predicate Sublist<T(==)>(xs: seq<T>, ys: seq<T>)
    decreases |ys|
  {
    if xs == [] then true
    else if ys == [] then false
    else if xs[0] == ys[0] then Sublist(xs[1..], ys[1..])
    else Sublist(xs, ys[1..])
  }

  /** `xs.filter(p)`: the elements that satisfy `p`, in their original order. */
  function Filter<T(==)>(xs: seq<T>, p: T -> bool): (r: seq<T>)
    ensures |r| <= |xs|
    ensures forall i :: 0 <= i < |r| ==> r[i] in xs && p(r[i])
    ensures forall i :: 0 <= i < |xs| && p(xs[i]) ==> xs[i] in r
    ensures Sublist(r, xs)
  {
    if xs == [] then []
    else if p(xs[0]) then [xs[0]] + Filter(xs[1..], p)
    else
      var rest := Filter(xs[1..], p);
      assert rest != [] ==> rest[0] in rest && rest[0] != xs[0];
      rest
  }

  /** `filter` keeps every copy of a passing element and no copy of a failing one. */
  lemma {:induction false} FilterCounts<T(!new)>(xs: seq<T>, p: T -> bool)
    ensures forall x :: multiset(Filter(xs, p))[x] == if p(x) then multiset(xs)[x] else 0
  {
    if xs != [] {
      FilterCounts(xs[1..], p);
      assert xs == [xs[0]] + xs[1..];
    }
  }

  /** A filter every element passes returns the list itself. */
  lemma {:induction false} FilterKeepsAll<T>(xs: seq<T>, p: T -> bool)
    requires forall i :: 0 <= i < |xs| ==> p(xs[i])
    ensures Filter(xs, p) == xs
  {
    if xs != [] {
      FilterKeepsAll(xs[1..], p);
    }
  }

  /** Filters whose tests agree on every element of the list keep the same elements. */
  lemma {:induction false} FilterAgree<T>(xs: seq<T>, p: T -> bool, q: T -> bool)
    requires forall i :: 0 <= i < |xs| ==> p(xs[i]) == q(xs[i])
    ensures Filter(xs, p) == Filter(xs, q)
  {
    if xs != [] {
      FilterAgree(xs[1..], p, q);
    }
  }

  /**
   * Two filters whose tests are each other's negation on every element split
   * the list: together they keep each element exactly once.
   */
  lemma {:induction false} FilterPartition<T>(xs: seq<T>, p: T -> bool, q: T -> bool)
    requires forall i :: 0 <= i < |xs| ==> (p(xs[i]) <==> !q(xs[i]))
    ensures |Filter(xs, p)| + |Filter(xs, q)| == |xs|
    ensures multiset(Filter(xs, p)) + multiset(Filter(xs, q)) == multiset(xs)
  {
    if xs != [] {
      var h, t := xs[0], xs[1..];
      assert xs == [h] + t;
      forall i | 0 <= i < |t|
        ensures p(t[i]) <==> !q(t[i])
      {
        assert t[i] == xs[i + 1];
      }
      FilterPartition(t, p, q);
      if p(h) {
        assert Filter(xs, p) == [h] + Filter(t, p);
        assert Filter(xs, q) == Filter(t, q);
      } else {
        assert Filter(xs, p) == Filter(t, p);
        assert Filter(xs, q) == [h] + Filter(t, q);
      }
    }
  }

  /** `xs.slice(0, k)` for a number `k`: a negative end counts from the back. */
  function SliceTo<T>(xs: seq<T>, k: int): (r: seq<T>)
    ensures k >= 0 ==> |r| == if k < |xs| then k else |xs|
    ensures k < 0 ==> |r| == if |xs| + k > 0 then |xs| + k else 0
    ensures r == xs[..|r|]
  {
    var end := if k >= 0 then (if k < |xs| then k else |xs|) else (if |xs| + k > 0 then |xs| + k else 0);
    xs[..end]
  }
}
