/**
 * The part of Go's `strings` package the configuration loaders use:
 * `strings.Replace(s, target, replacement, 1)`, which replaces the first occurrence only.
 */
module GoStrings {

  /** `pat` occurs in `s` starting at position `i`. */
  predicate OccursAt(s: string, pat: string, i: int)
  {
    0 <= i <= |s| && pat <= s[i..]
  }

  /** `i` is where `pat` first occurs in `s`. */
  predicate FirstOccurrence(s: string, pat: string, i: int)
  {
    OccursAt(s, pat, i) && forall j :: 0 <= j < i ==> !OccursAt(s, pat, j)
  }

  /** The first position at or after `from` where `pat` occurs in `s`, or -1. */
  function IndexFrom(s: string, pat: string, from: nat): (r: int)
    ensures r == -1 || (from <= r && OccursAt(s, pat, r))
    ensures forall i :: from <= i && (r == -1 || i < r) ==> !OccursAt(s, pat, i)
    decreases |s| - from
  {
    if from + |pat| > |s| then -1
    else if pat <= s[from..] then from
    else IndexFrom(s, pat, from + 1)
  }

  /** Go's `strings.Index`: the position of the first occurrence of `pat` in `s`, or -1. */
  function IndexOf(s: string, pat: string): (r: int)
    ensures r == -1 || OccursAt(s, pat, r)
    ensures forall i :: 0 <= i && (r == -1 || i < r) ==> !OccursAt(s, pat, i)
  {
    IndexFrom(s, pat, 0)
  }

  /** `strings.Replace(s, target, replacement, 1)`: the first occurrence of `target` becomes `replacement`. */
  function ReplaceFirst(s: string, target: string, replacement: string): (r: string)
    ensures (forall i :: !OccursAt(s, target, i)) ==> r == s
    ensures forall i :: FirstOccurrence(s, target, i) ==> r == s[..i] + replacement + s[i + |target|..]
  {
    var i := IndexOf(s, target);
    if i == -1 then s else s[..i] + replacement + s[i + |target|..]
  }

  /** Only the first occurrence is rewritten: what follows a leading `target` is kept verbatim. */
  lemma ReplaceFirstAtFront(target: string, replacement: string, rest: string)
    ensures ReplaceFirst(target + rest, target, replacement) == replacement + rest
  {
    var s := target + rest;
    assert FirstOccurrence(s, target, 0) by {
      assert s[0..] == s;
    }
    assert s[..0] + replacement + s[|target|..] == replacement + rest by {
      assert s[..0] == [] && s[|target|..] == rest;
    }
  }

  /** When nothing before `target` starts like it, the first occurrence is the one right after the prefix. */
  lemma ReplaceFirstAfter(prefix: string, target: string, replacement: string, rest: string)
    requires |target| > 0
    requires target[0] !in prefix
    ensures ReplaceFirst(prefix + target + rest, target, replacement) == prefix + replacement + rest
  {
    var s := prefix + target + rest;
    assert s[|prefix|..] == target + rest;
    forall j | 0 <= j < |prefix|
      ensures !OccursAt(s, target, j)
    {
      assert s[j] == prefix[j] != target[0];
    }
    assert FirstOccurrence(s, target, |prefix|);
    assert s[..|prefix|] == prefix;
    assert s[|prefix| + |target|..] == rest;
  }
}
