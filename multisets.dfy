/** Sequence facts the plotter's ordering arguments share. */
module Multisets {

  /** `f` applied to every element, in order. */
  function MapSeq<A, B>(s: seq<A>, f: A -> B): (r: seq<B>)
    ensures |r| == |s| && forall k :: 0 <= k < |s| ==> r[k] == f(s[k])
  {
    seq(|s|, k requires 0 <= k < |s| => f(s[k]))
  }

  /** `s` without its element at `j`. */
  function RemoveAt<T>(s: seq<T>, j: nat): (r: seq<T>)
    requires j < |s|
    ensures multiset(r) == multiset(s) - multiset{s[j]}
    ensures |r| == |s| - 1
  {
    assert s == s[..j] + [s[j]] + s[j + 1..];
    s[..j] + s[j + 1..]
  }

  lemma MapRemoveAt<A, B>(s: seq<A>, j: nat, f: A -> B)
    requires j < |s|
    ensures MapSeq(RemoveAt(s, j), f) == RemoveAt(MapSeq(s, f), j)
  {
  }

  /** The image of `s` is the image of `s` without position `j`, plus `f(s[j])`. */
  lemma MapMultisetSplit<A, B>(s: seq<A>, j: nat, f: A -> B)
    requires j < |s|
    ensures multiset(MapSeq(s, f)) == multiset(MapSeq(RemoveAt(s, j), f)) + multiset{f(s[j])}
  {
    MapRemoveAt(s, j, f);
    var image := MapSeq(s, f);
    assert image[j] in multiset(image);
    assert multiset(RemoveAt(image, j)) == multiset(image) - multiset{image[j]};
  }

  /** Rearranging a sequence rearranges its image the same way. */
  lemma {:induction false} MapPreservesMultiset<A, B>(a: seq<A>, b: seq<A>, f: A -> B)
    requires multiset(a) == multiset(b)
    ensures multiset(MapSeq(a, f)) == multiset(MapSeq(b, f))
    decreases |a|
  {
    if a == [] {
      assert |multiset(b)| == |b|;
    } else {
      assert a[0] in multiset(b);
      var j :| 0 <= j < |b| && b[j] == a[0];
      MapPreservesMultiset(RemoveAt(a, 0), RemoveAt(b, j), f);
      MapMultisetSplit(a, 0, f);
      MapMultisetSplit(b, j, f);
    }
  }
}
