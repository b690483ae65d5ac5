/** Counting dictionaries: the `d[k] = d.get(k, 0) + 1` pattern the
    analyzers use for per-language, per-label, per-assignee and
    per-author counts. */
module Histogram {

  /** The dictionary after counting one more `k`. */
  function Bump(h: map<string, nat>, k: string): (r: map<string, nat>)
    ensures r.Keys == h.Keys + {k}
    ensures r[k] == (if k in h then h[k] else 0) + 1
    ensures forall j :: j in h && j != k ==> r[j] == h[j]
  {
    h[k := (if k in h then h[k] else 0) + 1]
  }

  /** The counts of the elements of `xs`, counted left to right. */
  function Hist(xs: seq<string>): map<string, nat> {
    if xs == [] then map[] else Bump(Hist(xs[..|xs| - 1]), xs[|xs| - 1])
  }

  /** The dictionary after counting each of `xs` in turn. */
  function BumpAll(h: map<string, nat>, xs: seq<string>): map<string, nat> {
    if xs == [] then h else Bump(BumpAll(h, xs[..|xs| - 1]), xs[|xs| - 1])
  }

  /** Counting `ys` on top of the counts of `xs` gives the counts of
      `xs + ys`. */
  lemma {:induction false} BumpAllHist(xs: seq<string>, ys: seq<string>)
    ensures BumpAll(Hist(xs), ys) == Hist(xs + ys)
    decreases |ys|
  {
    if ys == [] {
      assert xs + ys == xs;
    } else {
      var init := ys[..|ys| - 1];
      BumpAllHist(xs, init);
      assert (xs + ys)[..|xs + ys| - 1] == xs + init;
      assert (xs + ys)[|xs + ys| - 1] == ys[|ys| - 1];
    }
  }

  /** Number of occurrences of `x` in `xs`. */
  function Occurrences(xs: seq<string>, x: string): nat {
    if xs == [] then 0
    else Occurrences(xs[..|xs| - 1], x) + (if xs[|xs| - 1] == x then 1 else 0)
  }

  lemma HistAppend(xs: seq<string>, x: string)
    ensures Hist(xs + [x]) == Bump(Hist(xs), x)
  {
    assert (xs + [x])[..|xs|] == xs;
  }

  /** A key is counted exactly when it occurs, and its count is its
      number of occurrences. */
  lemma {:induction false} HistCounts(xs: seq<string>, x: string)
    ensures x in Hist(xs) <==> x in xs
    ensures x in Hist(xs) ==> Hist(xs)[x] == Occurrences(xs, x)
    ensures x !in xs ==> Occurrences(xs, x) == 0
    decreases |xs|
  {
    if xs != [] {
      var init := xs[..|xs| - 1];
      HistCounts(init, x);
      assert xs == init + [xs[|xs| - 1]];
      assert x in xs <==> x in init || x == xs[|xs| - 1];
    }
  }

  /** Counts of `x` add up over a concatenation. */
  lemma {:induction false} OccurrencesAppend(xs: seq<string>, ys: seq<string>, x: string)
    ensures Occurrences(xs + ys, x) == Occurrences(xs, x) + Occurrences(ys, x)
    decreases |ys|
  {
    if ys == [] {
      assert xs + ys == xs;
    } else {
      var init := ys[..|ys| - 1];
      OccurrencesAppend(xs, init, x);
      assert (xs + ys)[..|xs + ys| - 1] == xs + init;
      assert (xs + ys)[|xs + ys| - 1] == ys[|ys| - 1];
    }
  }

  /** Two counting dictionaries added key by key. */
  function Merge(h: map<string, nat>, g: map<string, nat>): map<string, nat> {
    map k | k in h.Keys + g.Keys :: (if k in h then h[k] else 0) + (if k in g then g[k] else 0)
  }

  /** The counts of `xs + ys` are the counts of `xs` and of `ys` added
      key by key. */
  lemma HistConcat(xs: seq<string>, ys: seq<string>)
    ensures Hist(xs + ys) == Merge(Hist(xs), Hist(ys))
  {
    var h, m := Hist(xs + ys), Merge(Hist(xs), Hist(ys));
    forall k | k in h || k in m
      ensures k in h && k in m && h[k] == m[k]
    {
      HistCounts(xs + ys, k);
      HistCounts(xs, k);
      HistCounts(ys, k);
      OccurrencesAppend(xs, ys, k);
    }
    assert h.Keys == m.Keys;
  }

  ghost function Pick(h: map<string, nat>): string
    requires h != map[]
  {
    var k :| k in h; k
  }

  /** Sum of all counts of a counting dictionary. */
  ghost function Total(h: map<string, nat>): nat
    decreases |h|
  {
    if h == map[] then 0
    else
      var k := Pick(h);
      assert |(h - {k}).Keys| < |h.Keys| by {
        assert (h - {k}).Keys == h.Keys - {k};
      }
      h[k] + Total(h - {k})
  }

  /** Any key may be taken out first. */
  lemma {:induction false} TotalRemove(h: map<string, nat>, k: string)
    requires k in h
    ensures Total(h) == h[k] + Total(h - {k})
    decreases |h|
  {
    var j := Pick(h);
    if j != k {
      assert (h - {j}).Keys == h.Keys - {j};
      assert (h - {k}).Keys == h.Keys - {k};
      TotalRemove(h - {j}, k);
      TotalRemove(h - {k}, j);
      assert h - {j} - {k} == h - {k} - {j};
    }
  }

  /** Counting one more element raises the sum of counts by one. */
  lemma TotalBump(h: map<string, nat>, k: string)
    ensures Total(Bump(h, k)) == Total(h) + 1
  {
    var b := Bump(h, k);
    TotalRemove(b, k);
    if k in h {
      TotalRemove(h, k);
      assert b - {k} == h - {k};
    } else {
      assert b - {k} == h;
    }
  }

  /** The counts of a sequence add up to its length. */
  lemma {:induction false} TotalHist(xs: seq<string>)
    ensures Total(Hist(xs)) == |xs|
    decreases |xs|
  {
    if xs != [] {
      TotalHist(xs[..|xs| - 1]);
      TotalBump(Hist(xs[..|xs| - 1]), xs[|xs| - 1]);
    }
  }
}
