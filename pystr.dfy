/** The few Python `str` operations the chef relies on. */
module PyStr {

  /** Python's `str.isspace` (also what `\s` matches in a `str` pattern). */
  predicate IsSpace(c: char)
  {
    c == ' ' || ('\t' <= c <= '\r') || ('\U{1C}' <= c <= '\U{1F}') ||
    c == '\U{85}' || c == '\U{A0}' || c == '\U{1680}' || ('\U{2000}' <= c <= '\U{200A}') ||
    c == '\U{2028}' || c == '\U{2029}' || c == '\U{202F}' || c == '\U{205F}' || c == '\U{3000}'
  }

  predicate AllSpace(s: string)
  {
    forall k :: 0 <= k < |s| ==> IsSpace(s[k])
  }

  /** Number of leading whitespace characters of `s`. */
  function LeadingSpaces(s: string): (n: nat)
    ensures n <= |s|
  {
    if s == [] || !IsSpace(s[0]) then 0 else 1 + LeadingSpaces(s[1..])
  }

  /** `LeadingSpaces` counts the longest all-whitespace prefix. */
  lemma {:induction false} LeadingSpacesSpec(s: string)
    ensures AllSpace(s[..LeadingSpaces(s)])
    ensures LeadingSpaces(s) < |s| ==> !IsSpace(s[LeadingSpaces(s)])
  {
    if s != [] && IsSpace(s[0]) {
      LeadingSpacesSpec(s[1..]);
      var n := LeadingSpaces(s);
      assert s[..n] == [s[0]] + s[1..][..n - 1];
      if n < |s| {
        assert s[n] == s[1..][n - 1];
      }
    }
  }

  /** Number of trailing whitespace characters of `s`. */
  function TrailingSpaces(s: string): (n: nat)
    ensures n <= |s|
  {
    if s == [] || !IsSpace(s[|s| - 1]) then 0 else 1 + TrailingSpaces(s[..|s| - 1])
  }

  /** `TrailingSpaces` counts the longest all-whitespace suffix. */
  lemma {:induction false} TrailingSpacesSpec(s: string)
    ensures AllSpace(s[|s| - TrailingSpaces(s)..])
    ensures TrailingSpaces(s) < |s| ==> !IsSpace(s[|s| - TrailingSpaces(s) - 1])
  {
    if s != [] && IsSpace(s[|s| - 1]) {
      var init := s[..|s| - 1];
      TrailingSpacesSpec(init);
      var n := TrailingSpaces(s);
      assert s[|s| - n..] == init[|init| - (n - 1)..] + [s[|s| - 1]];
      if n < |s| {
        assert s[|s| - n - 1] == init[|init| - (n - 1) - 1];
      }
    }
  }

  /** Python's `s.strip()`: `s` without its leading and trailing whitespace. */
  function Strip(s: string): string
  {
    var i := LeadingSpaces(s);
    var rest := s[i..];
    s[i..i + |rest| - TrailingSpaces(rest)]
  }

  /** What `Strip` removes is whitespace, and what it keeps neither starts nor ends with any. */
  lemma {:induction false} StripTrims(s: string)
    ensures var r := Strip(s);
            exists i, j :: 0 <= i <= j <= |s| && r == s[i..j] && AllSpace(s[..i]) && AllSpace(s[j..])
    ensures var r := Strip(s);
            r != [] ==> !IsSpace(r[0]) && !IsSpace(r[|r| - 1])
  {
    var i := LeadingSpaces(s);
    var rest := s[i..];
    var t := TrailingSpaces(rest);
    var j := i + |rest| - t;
    LeadingSpacesSpec(s);
    TrailingSpacesSpec(rest);
    assert s[j..] == rest[|rest| - t..];
    var r := Strip(s);
    assert r == s[i..j];
    if r != [] {
      assert r[0] == s[i];
      assert r[|r| - 1] == rest[|rest| - t - 1];
    }
  }

  /** Python's `s.split('/')[-1]`: the text after the last `/`, or all of `s` if it has none. */
  function LastSegment(s: string): string
  {
    if s == [] || s[|s| - 1] == '/' then [] else LastSegment(s[..|s| - 1]) + [s[|s| - 1]]
  }

  /** The last segment is a slash-free suffix of `s`, preceded by a slash unless it is all of `s`. */
  lemma {:induction false} LastSegmentSpec(s: string)
    ensures var r := LastSegment(s);
            '/' !in r && |r| <= |s| && r == s[|s| - |r|..] && (|r| < |s| ==> s[|s| - |r| - 1] == '/')
  {
    if s != [] && s[|s| - 1] != '/' {
      var init := s[..|s| - 1];
      LastSegmentSpec(init);
      var r := LastSegment(s);
      assert r == LastSegment(init) + [s[|s| - 1]];
      assert s[|s| - |r|..] == init[|init| - (|r| - 1)..] + [s[|s| - 1]];
      if |r| < |s| {
        assert s[|s| - |r| - 1] == init[|init| - (|r| - 1) - 1];
      }
    }
  }

  /** Whatever precedes a final slash-free part, that part is the last segment. */
  lemma {:induction false} LastSegmentAfterSlash(p: string, e: string)
    requires '/' !in e
    ensures LastSegment(p + "/" + e) == e
  {
    var s := p + "/" + e;
    var r := LastSegment(s);
    LastSegmentSpec(s);
    assert s[|s| - |e| - 1] == '/';
    assert s[|s| - |e|..] == e;
  }

  /** `t` occurs in `s` starting at index `i`. */
  predicate OccursAt(s: string, t: string, i: nat)
  {
    i + |t| <= |s| && s[i..i + |t|] == t
  }

  /** Python's `t in s` on strings. */
  function Contains(s: string, t: string): bool
    decreases |s|
  {
    if |t| > |s| then false
    else if s[..|t|] == t then true
    else Contains(s[1..], t)
  }

  /** `Contains` holds exactly when `t` occurs in `s` as a contiguous substring. */
  lemma {:induction false} ContainsOccurs(s: string, t: string)
    ensures Contains(s, t) <==> exists i :: OccursAt(s, t, i)
    decreases |s|
  {
    if |t| > |s| {
      assert forall i :: !OccursAt(s, t, i);
    } else if s[..|t|] == t {
      assert OccursAt(s, t, 0);
    } else {
      ContainsOccurs(s[1..], t);
      SubstringOfTail(s, t);
      assert !OccursAt(s, t, 0);
    }
  }

  /** An occurrence of `t` past the first character of `s` is an occurrence in `s[1..]`. */
  lemma SubstringOfTail(s: string, t: string)
    requires |s| > 0
    ensures forall i: nat :: 1 <= i && OccursAt(s, t, i) ==> OccursAt(s[1..], t, i - 1)
    ensures forall j: nat :: OccursAt(s[1..], t, j) ==> OccursAt(s, t, j + 1)
  {
    forall j: nat | OccursAt(s[1..], t, j)
      ensures OccursAt(s, t, j + 1)
    {
      assert s[1..][j..j + |t|] == s[j + 1..j + 1 + |t|];
    }
  }
}
