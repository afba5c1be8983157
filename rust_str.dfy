/**
 * The few `str` operations of Rust's standard library that the build script
 * relies on, over strings modelled as sequences of `char`.
 */
module RustStr {
  import opened Wrappers

  /** `pat` occurs in `s` starting at index `i`. */
  ghost predicate OccursAt(s: seq<char>, pat: seq<char>, i: int) {
    0 <= i && i + |pat| <= |s| && s[i..i + |pat|] == pat
  }

  /** Reference meaning of `str::contains`: some occurrence of `pat` exists. */
  ghost predicate HasOccurrence(s: seq<char>, pat: seq<char>) {
    exists i :: OccursAt(s, pat, i)
  }

  /** `str::contains` with a string pattern, as a left-to-right scan. */
  predicate Contains(s: seq<char>, pat: seq<char>)
    decreases |s|
  {
    if |s| < |pat| then false
    else s[..|pat|] == pat || Contains(s[1..], pat)
  }

  /** A slice of the tail is the slice one further along in the whole. */
  lemma TailSlice(s: seq<char>, i: nat, n: nat)
    requires i + 1 + n <= |s|
    ensures s[1..][i..i + n] == s[i + 1..i + 1 + n]
  {
    var a, b := s[1..][i..i + n], s[i + 1..i + 1 + n];
    assert forall k :: 0 <= k < |a| ==> a[k] == b[k];
  }

  /** The scan finds `pat` exactly when some occurrence of it exists. */
  lemma {:induction false} ContainsIsOccurrence(s: seq<char>, pat: seq<char>)
    ensures Contains(s, pat) <==> HasOccurrence(s, pat)
    decreases |s|
  {
    if |s| < |pat| {
    } else if s[..|pat|] == pat {
      assert OccursAt(s, pat, 0);
    } else {
      ContainsIsOccurrence(s[1..], pat);
      if Contains(s[1..], pat) {
        var i :| OccursAt(s[1..], pat, i);
        TailSlice(s, i, |pat|);
        assert OccursAt(s, pat, i + 1);
      }
      if HasOccurrence(s, pat) {
        var i :| OccursAt(s, pat, i);
        assert i != 0;
        TailSlice(s, i - 1, |pat|);
        assert OccursAt(s[1..], pat, i - 1);
      }
    }
  }

  /**
   * `str::replace` with one-character pattern and replacement: every `from`
   * becomes `to`, every other character is kept, in place.
   */
  function ReplaceChar(s: seq<char>, from: char, to: char): (r: seq<char>)
    ensures |r| == |s|
    ensures forall i :: 0 <= i < |s| ==> r[i] == (if s[i] == from then to else s[i])
  {
    if s == [] then [] else [if s[0] == from then to else s[0]] + ReplaceChar(s[1..], from, to)
  }

  /**
   * One `Chars::next` call on the characters not yet read: the next
   * character and what remains after it. On an exhausted iterator it yields
   * nothing and stays exhausted, as the fused `Chars` does.
   */
  function Next(rest: seq<char>): (Option<char>, seq<char>) {
    if rest == [] then (None, []) else (Some(rest[0]), rest[1..])
  }
}
