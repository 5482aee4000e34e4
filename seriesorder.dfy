/**
 * After collection: the series are put in palette-rank order
 * (`sort.Sort(seriesColors(series))`) and every scalar constant is appended
 * as a flat series over the xs of the first series.
 */
module SeriesOrder {
  import opened Multisets
  import opened Palette
  import opened Expressions
  import opened Collector

  /** Palette ranks never decrease along the list. */
  predicate RankSorted(s: seq<Series>)
  {
    forall a, b :: 0 <= a < b < |s| ==> Rank(s[a].color) <= Rank(s[b].color)
  }

  /** `seriesColors.Swap`. */
  method SwapSeries(a: array<Series>, i: nat, j: nat)
    requires i < a.Length && j < a.Length
    modifies a
    ensures a[i] == old(a[j]) && a[j] == old(a[i])
    ensures forall k :: 0 <= k < a.Length && k != i && k != j ==> a[k] == old(a[k])
    ensures multiset(a[..]) == multiset(old(a[..]))
  {
    a[i], a[j] := a[j], a[i];
  }

  /** One insertion step of `sort.Sort(seriesColors)`: the series at `i` moves left past higher ranks. */
  method InsertSeries(a: array<Series>, i: nat)
    requires i < a.Length
    requires forall x, y :: 0 <= x < y < i ==> Rank(a[x].color) <= Rank(a[y].color)
    modifies a
    ensures forall x, y :: 0 <= x < y <= i ==> Rank(a[x].color) <= Rank(a[y].color)
    ensures a[i + 1..] == old(a[i + 1..])
    ensures multiset(a[..]) == multiset(old(a[..]))
  {
    var j := i;
    while j > 0 && Rank(a[j].color) < Rank(a[j - 1].color)
      invariant 0 <= j <= i
      invariant forall x, y :: 0 <= x < y <= i && x != j && y != j ==> Rank(a[x].color) <= Rank(a[y].color)
      invariant forall y :: j < y <= i ==> Rank(a[j].color) <= Rank(a[y].color)
      invariant a[i + 1..] == old(a[i + 1..])
      invariant multiset(a[..]) == multiset(old(a[..]))
    {
      SwapSeries(a, j, j - 1);
      j := j - 1;
    }
  }

  /**
   * `sort.Sort(seriesColors(series))`, as Go runs it on short inputs: the
   * series rearranged so that palette ranks never decrease.
   */
  method SortByColor(a: array<Series>)
    modifies a
    ensures RankSorted(a[..])
    ensures multiset(a[..]) == multiset(old(a[..]))
  {
    var i := 1;
    while i < a.Length
      invariant 1 <= i
      invariant forall x, y :: 0 <= x < y < i && y < a.Length ==> Rank(a[x].color) <= Rank(a[y].color)
      invariant multiset(a[..]) == multiset(old(a[..]))
    {
      InsertSeries(a, i);
      i := i + 1;
    }
  }

  predicate RankOrdered(p: seq<Color>)
  {
    forall a, b :: 0 <= a < b < |p| ==> Rank(p[a]) <= Rank(p[b])
  }

  /** A rank-ordered list starts with a colour of least rank among its elements. */
  lemma HeadHasLeastRank(p: seq<Color>, c: Color)
    requires RankOrdered(p) && c in multiset(p)
    ensures Rank(p[0]) <= Rank(c)
  {
    var j :| 0 <= j < |p| && p[j] == c;
    if j > 0 {
      assert Rank(p[0]) <= Rank(p[j]);
    }
  }

  /** Two rank-ordered lists with the same colours start with the same colour. */
  lemma RankOrderedSameHead(p: seq<Color>, q: seq<Color>)
    requires RankOrdered(p) && RankOrdered(q)
    requires multiset(p) == multiset(q) && p != []
    ensures q != [] && p[0] == q[0]
  {
    assert p[0] in multiset(q);
    assert q[0] in multiset(p);
    HeadHasLeastRank(q, p[0]);
    HeadHasLeastRank(p, q[0]);
    assert p[0] == Colors[Rank(p[0])] == Colors[Rank(q[0])] == q[0];
  }

  /** Dropping the head keeps a list rank-ordered and removes one copy of the head's colour. */
  lemma RankOrderedTail(p: seq<Color>)
    requires RankOrdered(p) && p != []
    ensures RankOrdered(p[1..])
    ensures multiset(p[1..]) == multiset(p) - multiset{p[0]}
  {
    assert p == [p[0]] + p[1..];
  }

  /** Two rank-ordered colour lists with the same colours, counted with multiplicity, are equal. */
  lemma {:induction false} RankOrderedColorsUnique(p: seq<Color>, q: seq<Color>)
    requires RankOrdered(p) && RankOrdered(q)
    requires multiset(p) == multiset(q)
    ensures p == q
    decreases |p|
  {
    if p == [] {
      assert |multiset(q)| == |q| == 0;
    } else {
      RankOrderedSameHead(p, q);
      RankOrderedTail(p);
      RankOrderedTail(q);
      RankOrderedColorsUnique(p[1..], q[1..]);
      assert p == [p[0]] + p[1..] && q == [q[0]] + q[1..];
    }
  }

  /**
   * The colour order after the sort depends only on which colours were
   * collected, never on the order the answers arrived in.
   */
  lemma ColorOrderIndependentOfArrival(a: seq<Series>, b: seq<Series>)
    requires RankSorted(a) && RankSorted(b)
    requires multiset(ColorsOf(a)) == multiset(ColorsOf(b))
    ensures ColorsOf(a) == ColorsOf(b)
  {
    RankOrderedColorsUnique(ColorsOf(a), ColorsOf(b));
  }

  /** When no colour repeats, the sorted list itself is determined by the collected series. */
  lemma DistinctColorsFixOrder(a: seq<Series>, b: seq<Series>)
    requires RankSorted(a) && RankSorted(b)
    requires multiset(a) == multiset(b)
    requires forall x, y :: 0 <= x < y < |a| ==> a[x].color != a[y].color
    ensures a == b
  {
    MapPreservesMultiset(a, b, (s: Series) => s.color);
    ColorOrderIndependentOfArrival(a, b);
    assert |multiset(a)| == |a| && |multiset(b)| == |b|;
    forall k | 0 <= k < |b| ensures a[k] == b[k] {
      assert b[k] in multiset(a);
      var j :| 0 <= j < |a| && a[j] == b[k];
      assert ColorsOf(a)[k] == ColorsOf(b)[k];
    }
  }

  /** With at most five expressions every request has its own colour. */
  lemma FewExpressionsDistinctColors(exprs: seq<Expr>)
    requires |exprs| <= |Colors|
    ensures forall k, l :: 0 <= k < l < |Requests(exprs)| ==> Requests(exprs)[k].color != Requests(exprs)[l].color
  {
    RequestsByPosition(exprs);
    var positions, requests := QueryPositions(exprs), Requests(exprs);
    forall k, l | 0 <= k < l < |requests|
      ensures requests[k].color != requests[l].color
    {
      assert positions[k] < positions[l] < |Colors|;
      ColorAtSameIff(positions[k], positions[l]);
    }
  }

  /** `s` is a constant line at `value` over the points `xs`. */
  predicate IsFlat(s: Series, value: real, xs: seq<int>)
  {
    s.xs == xs && |s.ys| == |xs| && forall k :: 0 <= k < |s.ys| ==> s.ys[k] == value
  }

  /**
   * Past the first `n` series, `all` holds one flat line per scalar, in
   * order, over the xs of the first series, scalar `i` in colour slot
   * `n + 2i`.
   */
  predicate Broadcasted(all: seq<Series>, n: nat, scalars: seq<real>)
  {
    && 0 < n
    && |all| == n + |scalars|
    && forall i :: 0 <= i < |scalars| ==>
      && IsFlat(all[n + i], scalars[i], all[0].xs)
      && all[n + i].color == ColorAt(n + 2 * i)
      && all[n + i].style == Line
  }

  /**
   * The broadcast loop. The colour index is the list's current length plus
   * the scalar's index, and the list grows by one per scalar, so scalar `i`
   * ends up with colour slot `n + 2i`.
   */
  method Broadcast(sorted: seq<Series>, scalars: seq<real>) returns (all: seq<Series>)
    requires |sorted| > 0
    ensures Broadcasted(all, |sorted|, scalars)
    ensures all[..|sorted|] == sorted
  {
    all := sorted;
    for i := 0 to |scalars|
      invariant |all| == |sorted| + i && all[..|sorted|] == sorted
      invariant forall j :: 0 <= j < i ==>
        && IsFlat(all[|sorted| + j], scalars[j], sorted[0].xs)
        && all[|sorted| + j].color == ColorAt(|sorted| + 2 * j)
        && all[|sorted| + j].style == Line
    {
      assert all[0] == sorted[0];
      var xs, ys := FlatLine(all[0].xs, scalars[i]);
      var line := Series(xs, ys, ColorAt(|all| + i), Line);
      assert IsFlat(line, scalars[i], sorted[0].xs);
      all := all + [line];
      assert all[..|sorted|] == sorted;
    }
    assert all[0] == all[..|sorted|][0];
  }

  /** The inner loop of the broadcast: one point at `value` for every x of the domain. */
  method FlatLine(domain: seq<int>, value: real) returns (xs: seq<int>, ys: seq<real>)
    ensures xs == domain && |ys| == |domain|
    ensures forall m :: 0 <= m < |ys| ==> ys[m] == value
  {
    xs, ys := [], [];
    for k := 0 to |domain|
      invariant xs == domain[..k] && |ys| == k
      invariant forall m :: 0 <= m < k ==> ys[m] == value
    {
      xs, ys := xs + [domain[k]], ys + [value];
    }
    assert domain[..|domain|] == domain;
  }
}
