/**
 * The two `Array.prototype` methods the catalog queries are built from,
 * `filter` and `some`, as functions over sequences, with the facts about
 * `filter` that the query lemmas use: it keeps catalog order, it distributes
 * over concatenation, and a weaker predicate keeps more.
 */
module JsArrays {

  /** `r` is obtained from `xs` by deleting elements, the rest keeping their order. */
  ghost predicate IsSubsequence<T>(r: seq<T>, xs: seq<T>)
    decreases |xs|
  {
    || r == []
    || (xs != [] &&
        (|| (r[0] == xs[0] && IsSubsequence(r[1..], xs[1..]))
         || IsSubsequence(r, xs[1..])))
  }

  /** `xs.filter(keep)`. */
  function Filter<T(==,!new)>(xs: seq<T>, keep: T -> bool): (r: seq<T>)
    ensures |r| <= |xs|
    ensures forall x :: x in r <==> x in xs && keep(x)
  {
    if xs == [] then []
    else (if keep(xs[0]) then [xs[0]] else []) + Filter(xs[1..], keep)
  }

  /** `xs.some(holds)`. */
  function Any<T>(xs: seq<T>, holds: T -> bool): (b: bool)
    ensures b <==> exists i | 0 <= i < |xs| :: holds(xs[i])
  {
    if xs == [] then false
    else holds(xs[0]) || Any(xs[1..], holds)
  }

  /** `some` holds exactly when the test holds for a member. */
  lemma {:induction false} AnyMember<T>(xs: seq<T>, holds: T -> bool)
    ensures Any(xs, holds) <==> exists x | x in xs :: holds(x)
  {
    if Any(xs, holds) {
      var i :| 0 <= i < |xs| && holds(xs[i]);
      assert xs[i] in xs;
    }
  }

  /** The result of `filter` keeps the order of its input. */
  lemma {:induction false} FilterIsSubsequence<T(!new)>(xs: seq<T>, keep: T -> bool)
    ensures IsSubsequence(Filter(xs, keep), xs)
    decreases |xs|
  {
    if xs != [] {
      FilterIsSubsequence(xs[1..], keep);
      var rest := Filter(xs[1..], keep);
      if keep(xs[0]) {
        assert Filter(xs, keep) == [xs[0]] + rest;
        assert ([xs[0]] + rest)[1..] == rest;
      } else {
        assert Filter(xs, keep) == rest;
      }
    }
  }

  /**
   * `filter` keeps every passing occurrence: each value occurs in the result
   * as often as in the input when it passes the test, and not at all otherwise.
   */
  lemma {:induction false} FilterCounts<T(!new)>(xs: seq<T>, keep: T -> bool)
    ensures forall x :: multiset(Filter(xs, keep))[x] == if keep(x) then multiset(xs)[x] else 0
    decreases |xs|
  {
    if xs != [] {
      FilterCounts(xs[1..], keep);
      assert xs == [xs[0]] + xs[1..];
    }
  }

  /** Filtering a concatenation filters each part and concatenates the results. */
  lemma {:induction false} FilterConcat<T(!new)>(a: seq<T>, b: seq<T>, keep: T -> bool)
    ensures Filter(a + b, keep) == Filter(a, keep) + Filter(b, keep)
    decreases |a|
  {
    if a == [] {
      assert a + b == b;
    } else {
      assert (a + b)[0] == a[0];
      assert (a + b)[1..] == a[1..] + b;
      FilterConcat(a[1..], b, keep);
    }
  }

  /** A predicate that keeps every element of `xs` leaves `xs` as it is. */
  lemma {:induction false} FilterKeepsAll<T(!new)>(xs: seq<T>, keep: T -> bool)
    requires forall x | x in xs :: keep(x)
    ensures Filter(xs, keep) == xs
    decreases |xs|
  {
    if xs != [] {
      FilterKeepsAll(xs[1..], keep);
      assert [xs[0]] + xs[1..] == xs;
    }
  }

  /** Two predicates that agree on the elements of `xs` filter it alike. */
  lemma {:induction false} FilterCongruent<T(!new)>(xs: seq<T>, p: T -> bool, q: T -> bool)
    requires forall x | x in xs :: p(x) == q(x)
    ensures Filter(xs, p) == Filter(xs, q)
    decreases |xs|
  {
    if xs != [] {
      FilterCongruent(xs[1..], p, q);
    }
  }

  /**
   * A predicate that holds wherever a stronger one holds keeps a superset,
   * and the smaller result sits inside the larger one in the same order.
   */
  lemma {:induction false} FilterWeakens<T(!new)>(xs: seq<T>, p: T -> bool, q: T -> bool)
    requires forall x | x in xs :: p(x) ==> q(x)
    ensures IsSubsequence(Filter(xs, p), Filter(xs, q))
    decreases |xs|
  {
    if xs != [] {
      FilterWeakens(xs[1..], p, q);
      var rp, rq := Filter(xs[1..], p), Filter(xs[1..], q);
      if p(xs[0]) {
        assert Filter(xs, p) == [xs[0]] + rp;
        assert Filter(xs, q) == [xs[0]] + rq;
        assert ([xs[0]] + rp)[1..] == rp;
        assert ([xs[0]] + rq)[1..] == rq;
      } else if q(xs[0]) {
        assert Filter(xs, p) == rp;
        var larger := [xs[0]] + rq;
        assert Filter(xs, q) == larger;
        assert larger[1..] == rq;
        assert IsSubsequence(rp, larger);
      } else {
        assert Filter(xs, p) == rp && Filter(xs, q) == rq;
      }
    }
  }
}
