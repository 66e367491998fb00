/**
 * String.prototype.replace with a one-character string pattern and a
 * replacement without `$` patterns: only the first occurrence of the pattern
 * is replaced; a string without it is returned unchanged.
 */
module Text {
  import opened Wrappers

  /** The index of the first occurrence of `c` in `s`, if any. */
  function IndexOf(s: string, c: char): (r: Option<nat>)
    ensures r.None? <==> c !in s
    ensures r.Some? ==> r.value < |s| && s[r.value] == c && c !in s[..r.value]
  {
    if s == [] then None
    else if s[0] == c then Some(0)
    else
      match IndexOf(s[1..], c)
      case None => None
      case Some(i) =>
        assert s[1..][..i] == s[1..i + 1];
        assert s[..i + 1] == [s[0]] + s[1..i + 1];
        Some(i + 1)
  }

  /** `s.replace(c, rep)` for a one-character pattern `c` and a replacement
      `rep` without `$` patterns, which is copied literally. */
  function ReplaceFirst(s: string, c: char, rep: string): (r: string)
  {
    match IndexOf(s, c)
    case None => s
    case Some(i) => s[..i] + rep + s[i + 1..]
  }

  /** A string that does not contain the pattern comes back unchanged. */
  lemma ReplaceFirstAbsent(s: string, c: char, rep: string)
    requires c !in s
    ensures ReplaceFirst(s, c, rep) == s
  {
  }

  /** Splitting at the first occurrence: what precedes it is kept, it is
      replaced, and everything after it (later occurrences included) is kept. */
  lemma ReplaceFirstAt(a: string, c: char, b: string, rep: string)
    requires c !in a
    ensures ReplaceFirst(a + [c] + b, c, rep) == a + rep + b
  {
    var s := a + [c] + b;
    assert s[|a|] == c;
    assert s[..|a|] == a;
    assert forall k :: 0 <= k < |a| ==> s[k] == a[k];
    assert s[|a| + 1..] == b;
  }

  /** Replacing with a text that does not contain the pattern removes
      exactly one occurrence of it. */
  lemma ReplaceFirstRemovesOne(s: string, c: char, rep: string)
    requires c in s && c !in rep
    ensures multiset(ReplaceFirst(s, c, rep))[c] == multiset(s)[c] - 1
  {
    var i := IndexOf(s, c).value;
    assert s == s[..i] + [c] + s[i + 1..];
    assert multiset(s) == multiset(s[..i]) + multiset{c} + multiset(s[i + 1..]);
    var r := ReplaceFirst(s, c, rep);
    assert r == s[..i] + rep + s[i + 1..];
    assert multiset(r) == multiset(s[..i]) + multiset(rep) + multiset(s[i + 1..]);
  }
}
