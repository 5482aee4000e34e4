/**
 * Turning one accepted matrix result into a drawable series: all samples
 * flattened into parallel x/y sequences, the pairs sorted by x (`xyPair`),
 * then every x raised by 50 at a time until the xs strictly increase.
 */
module Normalizer {
  import opened Multisets

  /** One sample: a timestamp (modelled as an integer) and a value. */
  datatype Sample = Sample(t: int, v: real)

  /** One series of a matrix result; its labels play no part here. */
  datatype RawSeries = RawSeries(values: seq<Sample>)

  /** The step by which a colliding x is raised. */
  const Nudge: int := 50

  /** The samples of every series of the matrix, series after series. */
  function Samples(matrix: seq<RawSeries>): seq<Sample>
  {
    if matrix == [] then [] else Samples(matrix[..|matrix| - 1]) + matrix[|matrix| - 1].values
  }

  /** The pairs `(xs[k], ys[k])`, which `xyPair` keeps together. */
  function Zip(xs: seq<int>, ys: seq<real>): (r: seq<Sample>)
    requires |xs| == |ys|
    ensures |r| == |xs| && forall k :: 0 <= k < |xs| ==> r[k] == Sample(xs[k], ys[k])
  {
    seq(|xs|, k requires 0 <= k < |xs| => Sample(xs[k], ys[k]))
  }

  predicate Nondecreasing(xs: seq<int>)
  {
    forall a, b :: 0 <= a < b < |xs| ==> xs[a] <= xs[b]
  }

  predicate StrictlyIncreasing(xs: seq<int>)
  {
    forall a, b :: 0 <= a < b < |xs| ==> xs[a] < xs[b]
  }

  /** The flattening loops: every sample's x and y appended, one chart series per query. */
  method Flatten(matrix: seq<RawSeries>) returns (xs: seq<int>, ys: seq<real>)
    ensures |xs| == |ys| && Zip(xs, ys) == Samples(matrix)
  {
    xs, ys := [], [];
    for i := 0 to |matrix|
      invariant |xs| == |ys| && Zip(xs, ys) == Samples(matrix[..i])
    {
      assert matrix[..i + 1][..i] == matrix[..i];
      var values := matrix[i].values;
      for j := 0 to |values|
        invariant |xs| == |ys| && Zip(xs, ys) == Samples(matrix[..i]) + values[..j]
      {
        assert values[..j + 1] == values[..j] + [values[j]];
        xs, ys := xs + [values[j].t], ys + [values[j].v];
      }
      assert values[..|values|] == values;
    }
    assert matrix[..|matrix|] == matrix;
  }

  /** `xyPair.Swap`: positions `i` and `j` exchange both their x and their y. */
  method SwapPairs(xs: array<int>, ys: array<real>, i: nat, j: nat)
    requires xs.Length == ys.Length && i < xs.Length && j < xs.Length
    modifies xs, ys
    ensures xs[..] == old(xs[..])[i := old(xs[j])][j := old(xs[i])]
    ensures ys[..] == old(ys[..])[i := old(ys[j])][j := old(ys[i])]
    ensures multiset(Zip(xs[..], ys[..])) == multiset(Zip(old(xs[..]), old(ys[..])))
  {
    ghost var before := Zip(xs[..], ys[..]);
    xs[i], xs[j] := xs[j], xs[i];
    ys[i], ys[j] := ys[j], ys[i];
    assert Zip(xs[..], ys[..]) == before[i := before[j]][j := before[i]];
  }

  /** One step of the insertion sort: the pair at `i` moves left past every strictly larger x. */
  method InsertPair(xs: array<int>, ys: array<real>, i: nat)
    requires xs.Length == ys.Length && i < xs.Length
    requires forall a, b :: 0 <= a < b < i ==> xs[a] <= xs[b]
    modifies xs, ys
    ensures forall a, b :: 0 <= a < b <= i ==> xs[a] <= xs[b]
    ensures xs[i + 1..] == old(xs[i + 1..]) && ys[i + 1..] == old(ys[i + 1..])
    ensures multiset(Zip(xs[..], ys[..])) == multiset(Zip(old(xs[..]), old(ys[..])))
  {
    var j := i;
    while j > 0 && xs[j] < xs[j - 1]
      invariant 0 <= j <= i
      invariant forall a, b :: 0 <= a < b <= i && a != j && b != j ==> xs[a] <= xs[b]
      invariant forall b :: j < b <= i ==> xs[j] <= xs[b]
      invariant xs[i + 1..] == old(xs[i + 1..]) && ys[i + 1..] == old(ys[i + 1..])
      invariant multiset(Zip(xs[..], ys[..])) == multiset(Zip(old(xs[..]), old(ys[..])))
    {
      SwapPairs(xs, ys, j, j - 1);
      j := j - 1;
    }
  }

  /**
   * `sort.Sort(xyPair{xs, ys})`, as Go runs it on short inputs: insertion by
   * adjacent swaps, moving a pair left while its x is strictly smaller.
   */
  method SortPairs(xs: array<int>, ys: array<real>)
    requires xs.Length == ys.Length
    modifies xs, ys
    ensures Nondecreasing(xs[..])
    ensures multiset(Zip(xs[..], ys[..])) == multiset(Zip(old(xs[..]), old(ys[..])))
  {
    var n := xs.Length;
    var i := 1;
    while i < n
      invariant 1 <= i
      invariant forall a, b :: 0 <= a < b < i && b < n ==> xs[a] <= xs[b]
      invariant multiset(Zip(xs[..], ys[..])) == multiset(Zip(old(xs[..]), old(ys[..])))
    {
      InsertPair(xs, ys, i);
      i := i + 1;
    }
  }

  /**
   * The inner nudge loop on one x: the least `x + 50k` above `prev`.
   */
  function Lift(prev: int, x: int): (r: int)
    ensures r > prev && r >= x && (r - x) % Nudge == 0
    ensures x > prev ==> r == x
    ensures r == x || r - Nudge <= prev
    decreases prev - x
  {
    if x > prev then x else Lift(prev, x + Nudge)
  }

  /** The xs after the nudge loop: each x lifted above the already-lifted x before it. */
  function Nudged(s: seq<int>): (r: seq<int>)
    ensures |r| == |s|
    ensures |s| > 0 ==> r[0] == s[0]
  {
    if |s| <= 1 then s
    else
      var p := Nudged(s[..|s| - 1]);
      p + [Lift(p[|p| - 1], s[|s| - 1])]
  }

  /** The nudge loop, in place on the xs; the ys are not touched. */
  method NudgeXs(xs: array<int>)
    modifies xs
    ensures xs[..] == Nudged(old(xs[..]))
  {
    var n := xs.Length;
    ghost var orig := xs[..];
    var i := 1;
    while i < n
      invariant 1 <= i && (i <= n || n == 0)
      invariant n > 0 ==> xs[..i] == Nudged(orig[..i])
      invariant n > 0 ==> xs[i..] == orig[i..]
    {
      ghost var done := xs[..i];
      while xs[i - 1] >= xs[i]
        invariant xs[..i] == done && xs[i + 1..] == orig[i + 1..]
        invariant Lift(xs[i - 1], xs[i]) == Lift(xs[i - 1], orig[i])
        decreases xs[i - 1] - xs[i]
      {
        xs[i] := xs[i] + Nudge;
      }
      assert orig[..i + 1][..i] == orig[..i];
      assert xs[..i + 1] == xs[..i] + [xs[i]];
      assert xs[i + 1..] == orig[i + 1..];
      i := i + 1;
    }
    assert n > 0 ==> orig[..n] == orig;
    assert xs[..n] == xs[..];
  }

  /** After the nudge loop the xs strictly increase. */
  lemma {:induction false} NudgedIsStrictlyIncreasing(s: seq<int>)
    ensures StrictlyIncreasing(Nudged(s))
    decreases |s|
  {
    if |s| > 1 {
      var p := Nudged(s[..|s| - 1]);
      NudgedIsStrictlyIncreasing(s[..|s| - 1]);
      var r := Nudged(s);
      assert r == p + [Lift(p[|p| - 1], s[|s| - 1])];
      forall a, b | 0 <= a < b < |r| ensures r[a] < r[b] {
        if b < |p| {
        } else {
          assert a <= |p| - 1;
          assert r[a] <= p[|p| - 1];
        }
      }
    }
  }

  /** The nudge loop only raises an x, and only by a multiple of 50. */
  lemma {:induction false} NudgedRaisesByFifties(s: seq<int>)
    ensures forall k :: 0 <= k < |s| ==> Nudged(s)[k] >= s[k] && (Nudged(s)[k] - s[k]) % Nudge == 0
    decreases |s|
  {
    if |s| > 1 {
      NudgedRaisesByFifties(s[..|s| - 1]);
      assert forall k :: 0 <= k < |s| - 1 ==> s[..|s| - 1][k] == s[k];
    }
  }

  /** On xs that already strictly increase, the nudge loop changes nothing. */
  lemma {:induction false} NudgedKeepsIncreasing(s: seq<int>)
    requires StrictlyIncreasing(s)
    ensures Nudged(s) == s
    decreases |s|
  {
    if |s| > 1 {
      var init := s[..|s| - 1];
      assert StrictlyIncreasing(init);
      NudgedKeepsIncreasing(init);
      assert s == init + [s[|s| - 1]];
    }
  }

  /** Running the nudge loop twice is running it once. */
  lemma {:induction false} NudgedIdempotent(s: seq<int>)
    ensures Nudged(Nudged(s)) == Nudged(s)
  {
    NudgedIsStrictlyIncreasing(s);
    NudgedKeepsIncreasing(Nudged(s));
  }

  /** The worked example: a duplicate timestamp moves 50 past its twin. */
  lemma NudgeExample()
    ensures Nudged([0, 1000, 1000]) == [0, 1000, 1050]
  {
    assert [0, 1000, 1000][..2] == [0, 1000];
    assert [0, 1000][..1] == [0];
  }

  /** `sx` and `ys` are the samples rearranged so that `sx` is nondecreasing. */
  ghost predicate SortedArrangement(sx: seq<int>, ys: seq<real>, samples: seq<Sample>)
  {
    |sx| == |ys| && Nondecreasing(sx) && multiset(Zip(sx, ys)) == multiset(samples)
  }

  /** `xs`, `ys` is what the plotter draws for `samples`: some sorted arrangement, nudged. */
  ghost predicate Normalized(xs: seq<int>, ys: seq<real>, samples: seq<Sample>)
  {
    exists sx :: SortedArrangement(sx, ys, samples) && xs == Nudged(sx)
  }

  /** The per-result normalisation: flatten, sort the pairs, nudge. */
  method NormalizeResult(matrix: seq<RawSeries>) returns (xs: seq<int>, ys: seq<real>)
    ensures Normalized(xs, ys, Samples(matrix))
  {
    var fx, fy := Flatten(matrix);
    var xa := new int[|fx|](k requires 0 <= k < |fx| => fx[k]);
    var ya := new real[|fy|](k requires 0 <= k < |fy| => fy[k]);
    assert xa[..] == fx && ya[..] == fy;
    SortPairs(xa, ya);
    ghost var sx := xa[..];
    NudgeXs(xa);
    xs, ys := xa[..], ya[..];
    assert SortedArrangement(sx, ys, Samples(matrix));
  }

  /** The y of each sample, in order. */
  function Values(samples: seq<Sample>): seq<real>
  {
    MapSeq(samples, (s: Sample) => s.v)
  }

  /**
   * A normalised series has one point per sample, strictly increasing xs,
   * and exactly the samples' ys, rearranged.
   */
  lemma NormalizedShape(xs: seq<int>, ys: seq<real>, samples: seq<Sample>)
    requires Normalized(xs, ys, samples)
    ensures |xs| == |ys| == |samples|
    ensures StrictlyIncreasing(xs)
    ensures multiset(ys) == multiset(Values(samples))
  {
    var sx :| SortedArrangement(sx, ys, samples) && xs == Nudged(sx);
    var z := Zip(sx, ys);
    assert |multiset(z)| == |z| && |multiset(samples)| == |samples|;
    NudgedIsStrictlyIncreasing(sx);
    MapPreservesMultiset(z, samples, (s: Sample) => s.v);
    assert MapSeq(z, (s: Sample) => s.v) == ys;
  }
}
