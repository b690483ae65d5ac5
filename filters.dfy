/** Order-keeping selection, the shape of every "append the matching
    items to a list" loop and of list comprehensions with an `if`. */
module Filters {

  /** The images under `f` of the elements of `xs` that satisfy `p`,
      in the order of `xs`. */
  function Keep<T, U>(xs: seq<T>, p: T -> bool, f: T -> U): (r: seq<U>)
    ensures |r| <= |xs|
  {
    if xs == [] then []
    else
      Keep(xs[..|xs| - 1], p, f)
      + (if p(xs[|xs| - 1]) then [f(xs[|xs| - 1])] else [])
  }

  /** Number of elements of `xs` that satisfy `p`. */
  function Count<T>(xs: seq<T>, p: T -> bool): nat {
    if xs == [] then 0
    else Count(xs[..|xs| - 1], p) + (if p(xs[|xs| - 1]) then 1 else 0)
  }

  /** One more element looked at: the result grows by at most it. */
  lemma KeepStep<T, U>(xs: seq<T>, i: nat, p: T -> bool, f: T -> U)
    requires i < |xs|
    ensures Keep(xs[..i + 1], p, f)
            == Keep(xs[..i], p, f) + (if p(xs[i]) then [f(xs[i])] else [])
    ensures Count(xs[..i + 1], p) == Count(xs[..i], p) + (if p(xs[i]) then 1 else 0)
  {
    assert xs[..i + 1][..i] == xs[..i];
  }

  /** Selection distributes over concatenation: the kept items of
      `a + b` are those of `a` followed by those of `b`. */
  lemma {:induction false} KeepAppend<T, U>(a: seq<T>, b: seq<T>, p: T -> bool, f: T -> U)
    ensures Keep(a + b, p, f) == Keep(a, p, f) + Keep(b, p, f)
    ensures Count(a + b, p) == Count(a, p) + Count(b, p)
    decreases |b|
  {
    if b == [] {
      assert a + b == a;
    } else {
      var init, last := b[..|b| - 1], b[|b| - 1];
      assert (a + b)[..|a + b| - 1] == a + init;
      assert (a + b)[|a + b| - 1] == last;
      KeepAppend(a, init, p, f);
      assert Keep(a + b, p, f) == Keep(a + init, p, f) + (if p(last) then [f(last)] else []);
    }
  }

  /** `y` is kept exactly when some element satisfying `p` maps to it. */
  lemma {:induction false} KeepMembers<T, U>(xs: seq<T>, p: T -> bool, f: T -> U, y: U)
    ensures y in Keep(xs, p, f) <==> exists i :: 0 <= i < |xs| && p(xs[i]) && f(xs[i]) == y
    decreases |xs|
  {
    if xs != [] {
      var n := |xs| - 1;
      KeepMembers(xs[..n], p, f, y);
      if y in Keep(xs, p, f) && y !in Keep(xs[..n], p, f) {
        assert p(xs[n]) && f(xs[n]) == y;
      }
      if exists i :: 0 <= i < |xs| && p(xs[i]) && f(xs[i]) == y {
        var i :| 0 <= i < |xs| && p(xs[i]) && f(xs[i]) == y;
        if i < n {
          assert xs[..n][i] == xs[i];
        }
      }
    }
  }

  /** Nothing is kept exactly when no element satisfies `p`. */
  lemma {:induction false} KeepEmpty<T, U>(xs: seq<T>, p: T -> bool, f: T -> U)
    ensures Keep(xs, p, f) == [] <==> forall i :: 0 <= i < |xs| ==> !p(xs[i])
    decreases |xs|
  {
    if xs != [] {
      var n := |xs| - 1;
      KeepEmpty(xs[..n], p, f);
      assert forall i :: 0 <= i < n ==> xs[..n][i] == xs[i];
    }
  }

  /** The count is the length of the selection. */
  lemma {:induction false} CountIsKeepLength<T, U>(xs: seq<T>, p: T -> bool, f: T -> U)
    ensures Count(xs, p) == |Keep(xs, p, f)|
    decreases |xs|
  {
    if xs != [] {
      CountIsKeepLength(xs[..|xs| - 1], p, f);
    }
  }

  /** When `p` and `q` never hold together, their counts add up to the
      count of their disjunction `pq`. */
  lemma {:induction false} CountDisjoint<T>(xs: seq<T>, p: T -> bool, q: T -> bool, pq: T -> bool)
    requires forall x :: pq(x) == (p(x) || q(x))
    requires forall x :: !(p(x) && q(x))
    ensures Count(xs, pq) == Count(xs, p) + Count(xs, q)
    decreases |xs|
  {
    if xs != [] {
      CountDisjoint(xs[..|xs| - 1], p, q, pq);
    }
  }

  /** An element satisfies exactly one of `p` and `q`: the two counts
      add up to the length. */
  lemma {:induction false} CountComplement<T>(xs: seq<T>, p: T -> bool, q: T -> bool)
    requires forall x :: q(x) == !p(x)
    ensures Count(xs, p) + Count(xs, q) == |xs|
    decreases |xs|
  {
    if xs != [] {
      CountComplement(xs[..|xs| - 1], p, q);
    }
  }

  /** No element satisfies `p`: the count is zero. */
  lemma {:induction false} CountNone<T>(xs: seq<T>, p: T -> bool)
    requires forall i :: 0 <= i < |xs| ==> !p(xs[i])
    ensures Count(xs, p) == 0
    decreases |xs|
  {
    if xs != [] {
      var n := |xs| - 1;
      assert forall i :: 0 <= i < n ==> xs[..n][i] == xs[i];
      CountNone(xs[..n], p);
    }
  }
}
