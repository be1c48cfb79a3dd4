/** Searching inside strings: the two Foundation/stdlib calls the parser relies on,
    `String.range(of:)` (is there a contiguous occurrence?) and
    `String.firstIndex(of:)` (where is the first occurrence of a character?). */
module Text {

  import opened Wrappers

  lemma ConcatAssoc<T>(a: seq<T>, b: seq<T>, c: seq<T>)
    ensures a + (b + c) == (a + b) + c
  {
  }

  /** `pat` occurs in `s` starting at position `k`. */
  predicate OccursAt(s: string, pat: string, k: nat)
  {
    k + |pat| <= |s| && s[k..k + |pat|] == pat
  }

  lemma OccursAtShift(s: string, pat: string)
    requires |s| > 0
    ensures forall k: nat :: OccursAt(s[1..], pat, k) <==> OccursAt(s, pat, k + 1)
  {
    forall k: nat
      ensures OccursAt(s[1..], pat, k) <==> OccursAt(s, pat, k + 1)
    {
      if k + |pat| <= |s[1..]| {
        assert s[1..][k..k + |pat|] == s[k + 1..k + 1 + |pat|];
      }
    }
  }

  /** `pat` occurs somewhere in `s` as a contiguous run of characters. */
  function Occurs(s: string, pat: string): (b: bool)
    ensures b <==> exists k: nat :: OccursAt(s, pat, k)
    decreases |s|
  {
    if |s| < |pat| then
      assert forall k: nat :: !OccursAt(s, pat, k);
      false
    else if s[..|pat|] == pat then
      assert OccursAt(s, pat, 0);
      true
    else
      OccursAtShift(s, pat);
      assert !OccursAt(s, pat, 0);
      assert forall k: nat :: OccursAt(s, pat, k) ==> k > 0 && OccursAt(s[1..], pat, k - 1);
      Occurs(s[1..], pat)
  }

  /** `s.range(of: pat) != nil`: a substring test with no tokenisation; an empty
      search string is never found. */
  function Contains(s: string, pat: string): (b: bool)
    ensures b <==> pat != [] && exists k: nat :: OccursAt(s, pat, k)
  {
    pat != [] && Occurs(s, pat)
  }

  /** Position of the first occurrence of `c` in `s`, if there is one. */
  function FirstIndexOf(s: string, c: char): (r: Option<nat>)
    ensures r.None? <==> c !in s
    ensures r.Some? ==> r.value < |s| && s[r.value] == c && c !in s[..r.value]
  {
    if s == [] then None
    else if s[0] == c then Some(0)
    else
      match FirstIndexOf(s[1..], c)
      case None => None
      case Some(i) =>
        assert s[..i + 1] == [s[0]] + s[1..][..i];
        Some(i + 1)
  }

  /** Whatever follows it, the first `c` of `a + [c] + b` is the one right after a
      `c`-free prefix `a`. */
  lemma {:induction false} FirstIndexOfJoin(a: string, c: char, b: string)
    requires c !in a
    ensures FirstIndexOf(a + [c] + b, c) == Some(|a|)
  {
    var s := a + [c] + b;
    assert s[|a|] == c;
    assert s[..|a|] == a;
  }

}
