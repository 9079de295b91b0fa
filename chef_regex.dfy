/**
 * The two regular expressions that sushichef.py applies to `onclick` attributes, with the
 * meaning `re.search` gives them: among all places where the pattern matches, Python returns
 * the first one its backtracking search tries, that is the leftmost start and then, for each
 * greedy quantifier from left to right, the longest repetition.
 */
module ChefRegex {
  import opened Results
  import opened PyStr

  /** No character of `s[lo..hi]` is a line break (what `.` refuses). */
  predicate NoNewline(s: string, lo: nat, hi: nat)
  {
    lo <= hi <= |s| && forall k :: lo <= k < hi ==> s[k] != '\n'
  }

  /** Every character of `s[lo..hi]` is whitespace (what `\s*` accepts). */
  predicate SpacesBetween(s: string, lo: nat, hi: nat)
  {
    lo <= hi <= |s| && forall k :: lo <= k < hi ==> IsSpace(s[k])
  }

  /** No character of `s[lo..hi]` is a single quote (what `[^']+` accepts). */
  predicate NoQuote(s: string, lo: nat, hi: nat)
  {
    lo <= hi <= |s| && forall k :: lo <= k < hi ==> s[k] != '\''
  }

  /** The first index at or after `k` that is not whitespace, or `|s|`. */
  function SkipSpaces(s: string, k: nat): (j: nat)
    requires k <= |s|
    ensures k <= j <= |s| && SpacesBetween(s, k, j)
    ensures j < |s| ==> !IsSpace(s[j])
    decreases |s| - k
  {
    if k < |s| && IsSpace(s[k]) then SkipSpaces(s, k + 1) else k
  }

  /** A whitespace run followed by a non-whitespace character cannot be any shorter or longer. */
  lemma SpaceRunForced(s: string, k: nat, j: nat)
    requires k <= j < |s| && SpacesBetween(s, k, j) && !IsSpace(s[j])
    ensures j == SkipSpaces(s, k)
  {
  }

  // ---------------------------------------------------------------------------------------
  // The video descriptor: \(\s*"(.+)",\s*"(.+)"\)

  const DescriptorPattern := "\\(\\s*\\\"(.+)\\\"\\,\\s*\\\"(.+)\\\"\\)"

  /** The positions of one match of the descriptor pattern: the opening parenthesis, the
      quotes opening and closing the first group, and those of the second group. */
  datatype Descriptor = Descriptor(start: nat, quote1: nat, close1: nat, quote2: nat, close2: nat)

  /** `s` matches the descriptor pattern at the positions `m`. */
  predicate DescriptorAt(s: string, m: Descriptor)
  {
    // \(\s*"
    m.start < m.quote1 < |s| && s[m.start] == '(' && SpacesBetween(s, m.start + 1, m.quote1) &&
    s[m.quote1] == '"' &&
    // (.+)",
    m.quote1 + 1 < m.close1 && m.close1 + 1 < |s| && NoNewline(s, m.quote1 + 1, m.close1) &&
    s[m.close1] == '"' && s[m.close1 + 1] == ',' &&
    // \s*"
    m.close1 + 2 <= m.quote2 < |s| && SpacesBetween(s, m.close1 + 2, m.quote2) && s[m.quote2] == '"' &&
    // (.+)"\)
    m.quote2 + 1 < m.close2 && m.close2 + 1 < |s| && NoNewline(s, m.quote2 + 1, m.close2) &&
    s[m.close2] == '"' && s[m.close2 + 1] == ')'
  }

  /** The backtracking search tries match `a` before match `b`: a smaller start, or the same
      start and a longer repetition of the first greedy quantifier where they differ. */
  ghost predicate TriedBefore(a: Descriptor, b: Descriptor)
  {
    a.start < b.start ||
    (a.start == b.start &&
      (a.quote1 > b.quote1 ||
      (a.quote1 == b.quote1 &&
        (a.close1 > b.close1 ||
        (a.close1 == b.close1 &&
          (a.quote2 > b.quote2 ||
          (a.quote2 == b.quote2 && a.close2 > b.close2)))))))
  }

  /** `m` is the match `re.search` reports. */
  ghost predicate FirstDescriptor(s: string, m: Descriptor)
  {
    DescriptorAt(s, m) && forall m' :: DescriptorAt(s, m') ==> !TriedBefore(m', m)
  }

  /** The second group, tried from its longest candidate `c` down: the first candidate that
      completes a match after the fixed positions `start`, `quote1`, `close1`, `quote2`. */
  function SecondGroupFrom(s: string, start: nat, quote1: nat, close1: nat, quote2: nat, c: nat)
    : (r: Option<Descriptor>)
    requires c + 2 <= |s|
    ensures r.Some? ==> DescriptorAt(s, r.value) && r.value.close2 <= c
    ensures r.Some? ==> r.value == Descriptor(start, quote1, close1, quote2, r.value.close2)
    ensures r.Some? ==> forall m :: DescriptorAt(s, m) && m == r.value.(close2 := m.close2) && m.close2 <= c
                                    ==> m.close2 <= r.value.close2
    ensures r.None? ==> forall m :: DescriptorAt(s, m) && m == Descriptor(start, quote1, close1, quote2, m.close2)
                                    ==> m.close2 > c
    decreases c
  {
    if c <= quote2 + 1 then None
    else if DescriptorAt(s, Descriptor(start, quote1, close1, quote2, c)) then
      Some(Descriptor(start, quote1, close1, quote2, c))
    else SecondGroupFrom(s, start, quote1, close1, quote2, c - 1)
  }

  /** Once the first group closes at `close1`, the second group's opening quote is forced. */
  lemma SecondQuoteForced(s: string, close1: nat)
    requires close1 + 2 <= |s|
    ensures forall m :: DescriptorAt(s, m) && m.close1 == close1 ==> m.quote2 == SkipSpaces(s, close1 + 2)
  {
    forall m | DescriptorAt(s, m) && m.close1 == close1 ensures m.quote2 == SkipSpaces(s, close1 + 2) {
      SpaceRunForced(s, close1 + 2, m.quote2);
    }
  }

  /** The match with the first group closing at `close1`, if there is one. */
  function WithFirstGroup(s: string, start: nat, quote1: nat, close1: nat): (r: Option<Descriptor>)
    requires close1 < |s|
    ensures r.Some? ==> DescriptorAt(s, r.value)
    ensures r.Some? ==> r.value.start == start && r.value.quote1 == quote1 && r.value.close1 == close1
    ensures r.Some? ==> forall m :: DescriptorAt(s, m) && m.start == start && m.quote1 == quote1 &&
                                    m.close1 == close1
                                    ==> !TriedBefore(m, r.value)
    ensures r.None? ==> forall m :: DescriptorAt(s, m) && m.start == start && m.quote1 == quote1
                                    ==> m.close1 != close1
  {
    if close1 + 2 >= |s| || s[close1] != '"' || s[close1 + 1] != ',' then None
    else
      var quote2 := SkipSpaces(s, close1 + 2);
      SecondQuoteForced(s, close1);
      if quote2 == |s| || s[quote2] != '"' then
        None
      else
        SecondGroupFrom(s, start, quote1, close1, quote2, |s| - 2)
  }

  /** The first group, tried from its longest candidate `c` down. */
  function FirstGroupFrom(s: string, start: nat, quote1: nat, c: nat): (r: Option<Descriptor>)
    requires c < |s|
    ensures r.Some? ==> DescriptorAt(s, r.value) && r.value.close1 <= c
    ensures r.Some? ==> r.value.start == start && r.value.quote1 == quote1
    ensures r.Some? ==> forall m :: DescriptorAt(s, m) && m.start == start && m.quote1 == quote1 &&
                                    m.close1 <= c
                                    ==> !TriedBefore(m, r.value)
    ensures r.None? ==> forall m :: DescriptorAt(s, m) && m.start == start && m.quote1 == quote1
                                    ==> m.close1 > c
    decreases c
  {
    if c <= quote1 + 1 then None
    else
      var here := WithFirstGroup(s, start, quote1, c);
      if here.Some? then here else FirstGroupFrom(s, start, quote1, c - 1)
  }

  /** The match starting at `start`, if there is one. */
  function DescriptorStartingAt(s: string, start: nat): (r: Option<Descriptor>)
    requires start < |s|
    ensures r.Some? ==> DescriptorAt(s, r.value) && r.value.start == start
    ensures r.Some? ==> forall m :: DescriptorAt(s, m) && m.start == start ==> !TriedBefore(m, r.value)
    ensures r.None? ==> forall m :: DescriptorAt(s, m) ==> m.start != start
  {
    if s[start] != '(' then None
    else
      var quote1 := SkipSpaces(s, start + 1);
      assert forall m :: DescriptorAt(s, m) && m.start == start ==> m.quote1 == quote1 by {
        forall m | DescriptorAt(s, m) && m.start == start ensures m.quote1 == quote1 {
          SpaceRunForced(s, start + 1, m.quote1);
        }
      }
      if quote1 == |s| || s[quote1] != '"' then None
      else FirstGroupFrom(s, start, quote1, |s| - 1)
  }

  /** The first match starting at or after `i`. */
  function DescriptorFrom(s: string, i: nat): (r: Option<Descriptor>)
    requires i <= |s|
    ensures r.Some? ==> DescriptorAt(s, r.value) && i <= r.value.start
    ensures r.Some? ==> forall m :: DescriptorAt(s, m) && i <= m.start ==> !TriedBefore(m, r.value)
    ensures r.None? ==> forall m :: DescriptorAt(s, m) ==> m.start < i
    decreases |s| - i
  {
    if i == |s| then None
    else
      var here := DescriptorStartingAt(s, i);
      if here.Some? then here else DescriptorFrom(s, i + 1)
  }

  /** `re.search(DescriptorPattern, onclick)` followed by `.group(1)` and `.group(2)`: the
      handler name and the asset id, or an error when nothing matches (`.group` on None). */
  function DescriptorGroups(onclick: string): (r: Result<(string, string)>)
    ensures r.Err? ==> forall m :: !DescriptorAt(onclick, m)
    ensures r.Err? ==> r.error == NoMatch(DescriptorPattern)
    ensures r.Ok? ==> exists m :: FirstDescriptor(onclick, m) &&
                                  r.value == (onclick[m.quote1 + 1..m.close1], onclick[m.quote2 + 1..m.close2])
  {
    match DescriptorFrom(onclick, 0)
    case None => Err(NoMatch(DescriptorPattern))
    case Some(m) =>
      assert FirstDescriptor(onclick, m);
      Ok((onclick[m.quote1 + 1..m.close1], onclick[m.quote2 + 1..m.close2]))
  }

  /** A match with no opening parenthesis before it and no double quote after its first one
      other than its own is the only match that starts no later than it. */
  lemma SameDescriptor(s: string, e: Descriptor, m: Descriptor)
    requires DescriptorAt(s, e) && DescriptorAt(s, m) && m.start <= e.start
    requires forall k :: 0 <= k < e.start ==> s[k] != '('
    requires forall k :: e.quote1 < k < |s| && s[k] == '"' ==> k == e.close1 || k == e.quote2 || k == e.close2
    ensures m == e
  {
    assert s[m.start] == '(';
    assert m.start == e.start;
    SpaceRunForced(s, e.start + 1, e.quote1);
    SpaceRunForced(s, e.start + 1, m.quote1);
    assert m.quote1 == e.quote1;
    assert s[m.close1] == '"' && s[m.quote2] == '"' && s[m.close2] == '"';
    assert m.close1 == e.close1;
    SpaceRunForced(s, e.close1 + 2, e.quote2);
    SpaceRunForced(s, e.close1 + 2, m.quote2);
    assert m.quote2 == e.quote2;
  }

  /** The groups are those of the first match the search finds. */
  lemma GroupsOfFirst(s: string)
    requires DescriptorFrom(s, 0).Some?
    ensures var m := DescriptorFrom(s, 0).value;
            DescriptorGroups(s) == Ok((s[m.quote1 + 1..m.close1], s[m.quote2 + 1..m.close2]))
  {
  }

  /** Such a match is the one `re.search` finds first. */
  lemma FoundFirst(s: string, e: Descriptor)
    requires DescriptorAt(s, e)
    requires forall k :: 0 <= k < e.start ==> s[k] != '('
    requires forall k :: e.quote1 < k < |s| && s[k] == '"' ==> k == e.close1 || k == e.quote2 || k == e.close2
    ensures DescriptorFrom(s, 0) == Some(e)
  {
    var d := DescriptorFrom(s, 0);
    assert d.Some?;
    assert !TriedBefore(e, d.value);
    SameDescriptor(s, e, d.value);
  }

  /** So its groups are the groups. */
  lemma OnlyDescriptor(s: string, e: Descriptor)
    requires DescriptorAt(s, e)
    requires forall k :: 0 <= k < e.start ==> s[k] != '('
    requires forall k :: e.quote1 < k < |s| && s[k] == '"' ==> k == e.close1 || k == e.quote2 || k == e.close2
    ensures DescriptorGroups(s) == Ok((s[e.quote1 + 1..e.close1], s[e.quote2 + 1..e.close2]))
  {
    FoundFirst(s, e);
    GroupsOfFirst(s);
  }

  /** The descriptor laid out at known positions: what the round trip needs of its text. */
  lemma DescriptorLaidOut(s: string, e: Descriptor, handler: string, asset: string)
    requires e.start < e.quote1 == e.start + 1 && e.quote1 + 1 < e.close1 && e.close1 + 2 <= e.quote2
    requires e.quote2 + 1 < e.close2 && e.close2 + 1 < |s|
    requires s[e.start] == '(' && s[e.quote1] == '"' && s[e.close1] == '"' && s[e.close1 + 1] == ','
    requires s[e.quote2] == '"' && s[e.close2] == '"' && s[e.close2 + 1] == ')'
    requires '(' !in s[..e.start]
    requires '"' !in s[e.quote1 + 1..e.close1] && '\n' !in s[e.quote1 + 1..e.close1]
    requires AllSpace(s[e.close1 + 2..e.quote2])
    requires '"' !in s[e.quote2 + 1..e.close2] && '\n' !in s[e.quote2 + 1..e.close2]
    requires '"' !in s[e.close2 + 2..]
    requires s[e.quote1 + 1..e.close1] == handler && s[e.quote2 + 1..e.close2] == asset
    ensures DescriptorGroups(s) == Ok((handler, asset))
  {
    forall k | 0 <= k < e.start ensures s[k] != '(' {
      assert s[k] == s[..e.start][k];
    }
    forall k | e.quote1 < k < e.close1 ensures s[k] != '"' && s[k] != '\n' {
      assert s[k] == s[e.quote1 + 1..e.close1][k - e.quote1 - 1];
    }
    forall k | e.close1 + 2 <= k < e.quote2 ensures IsSpace(s[k]) {
      assert s[k] == s[e.close1 + 2..e.quote2][k - e.close1 - 2];
    }
    forall k | e.quote2 < k < e.close2 ensures s[k] != '"' && s[k] != '\n' {
      assert s[k] == s[e.quote2 + 1..e.close2][k - e.quote2 - 1];
    }
    forall k | e.close2 + 2 <= k < |s| ensures s[k] != '"' {
      assert s[k] == s[e.close2 + 2..][k - e.close2 - 2];
    }
    assert DescriptorAt(s, e);
    OnlyDescriptor(s, e);
  }

  /** The text `name("handler",<spaces>"asset")tail`. */
  function DescriptorText(name: string, handler: string, spaces: string, asset: string, tail: string): string
  {
    name + "(\"" + handler + "\"," + spaces + "\"" + asset + "\")" + tail
  }

  /** Where each part of a `DescriptorText` lies. */
  lemma DescriptorTextLayout(name: string, handler: string, spaces: string, asset: string, tail: string)
    ensures var s := DescriptorText(name, handler, spaces, asset, tail);
      var q1 := |name| + 1;
      var c1 := q1 + 1 + |handler|;
      var q2 := c1 + 2 + |spaces|;
      var c2 := q2 + 1 + |asset|;
      |s| == c2 + 2 + |tail| &&
      s[..|name|] == name && s[q1 + 1..c1] == handler && s[c1 + 2..q2] == spaces &&
      s[q2 + 1..c2] == asset && s[c2 + 2..] == tail &&
      s[|name|] == '(' && s[q1] == '"' && s[c1] == '"' && s[c1 + 1] == ',' &&
      s[q2] == '"' && s[c2] == '"' && s[c2 + 1] == ')'
  {
  }

  /** For an `onclick` written `name("handler",<whitespace>"asset")tail`, where the handler and
      the asset id hold no double quote or line break and nothing after the asset id holds a
      double quote, group 1 is the handler and group 2 the asset id. */
  lemma {:induction false} DescriptorRoundTrip(name: string, handler: string, spaces: string, asset: string,
                                               tail: string)
    requires '(' !in name
    requires |handler| > 0 && '"' !in handler && '\n' !in handler
    requires AllSpace(spaces)
    requires |asset| > 0 && '"' !in asset && '\n' !in asset
    requires '"' !in tail
    ensures DescriptorGroups(DescriptorText(name, handler, spaces, asset, tail)) == Ok((handler, asset))
  {
    var s := DescriptorText(name, handler, spaces, asset, tail);
    DescriptorTextLayout(name, handler, spaces, asset, tail);
    var st := |name|;
    var q1 := st + 1;
    var c1 := q1 + 1 + |handler|;
    var q2 := c1 + 2 + |spaces|;
    var c2 := q2 + 1 + |asset|;
    DescriptorLaidOut(s, Descriptor(st, q1, c1, q2, c2), handler, asset);
  }

  // ---------------------------------------------------------------------------------------
  // The language selector: openLinkWithTranslation\('([^\']+)'\)

  const TranslationPattern := "openLinkWithTranslation\\('([^\\']+)'\\)"

  /** The literal text the pattern starts with. */
  const TranslationCall := "openLinkWithTranslation('"

  /** `s` matches the language pattern at `start`, its group ending at the quote at `close`. */
  predicate TranslationAt(s: string, start: nat, close: nat)
  {
    start + |TranslationCall| < close && close + 1 < |s| &&
    s[start..start + |TranslationCall|] == TranslationCall &&
    NoQuote(s, start + |TranslationCall|, close) && s[close] == '\'' && s[close + 1] == ')'
  }

  /** `(start, close)` is the match `re.search` reports: the leftmost, and at that start the
      longest group. */
  ghost predicate FirstTranslation(s: string, start: nat, close: nat)
  {
    TranslationAt(s, start, close) &&
    forall st: nat, cl: nat :: TranslationAt(s, st, cl) ==> start < st || (start == st && cl <= close)
  }

  /** The first single quote at or after `k`, or `|s|`. */
  function NextQuote(s: string, k: nat): (j: nat)
    requires k <= |s|
    ensures k <= j <= |s| && NoQuote(s, k, j)
    ensures j < |s| ==> s[j] == '\''
    decreases |s| - k
  {
    if k == |s| || s[k] == '\'' then k else NextQuote(s, k + 1)
  }

  /** `[^']+'` can only end at the first quote. */
  lemma QuoteForced(s: string, k: nat, j: nat)
    requires k <= j < |s| && NoQuote(s, k, j) && s[j] == '\''
    ensures j == NextQuote(s, k)
  {
  }

  /** The first match starting at or after `i`. */
  function TranslationFrom(s: string, i: nat): (r: Option<(nat, nat)>)
    requires i <= |s|
    ensures r.Some? ==> TranslationAt(s, r.value.0, r.value.1) && i <= r.value.0
    ensures r.Some? ==> forall st: nat, cl: nat :: TranslationAt(s, st, cl) && i <= st
                                         ==> r.value.0 < st || (r.value.0 == st && cl <= r.value.1)
    ensures r.None? ==> forall st: nat, cl: nat :: TranslationAt(s, st, cl) ==> st < i
    decreases |s| - i
  {
    if i + |TranslationCall| >= |s| then None
    else if s[i..i + |TranslationCall|] != TranslationCall then TranslationFrom(s, i + 1)
    else
      var close := NextQuote(s, i + |TranslationCall|);
      assert forall cl :: TranslationAt(s, i, cl) ==> cl == close by {
        forall cl | TranslationAt(s, i, cl) ensures cl == close {
          QuoteForced(s, i + |TranslationCall|, cl);
        }
      }
      if TranslationAt(s, i, close) then Some((i, close)) else TranslationFrom(s, i + 1)
  }

  /** `re.search(TranslationPattern, onclick).group(1)`: the language code between the quotes,
      or an error when nothing matches. */
  function TranslationGroup(onclick: string): (r: Result<string>)
    ensures r.Err? ==> r.error == NoMatch(TranslationPattern)
    ensures r.Err? ==> forall st: nat, cl: nat :: !TranslationAt(onclick, st, cl)
    ensures r.Ok? ==> |r.value| > 0 && '\'' !in r.value
    ensures r.Ok? ==> exists st: nat, cl: nat :: FirstTranslation(onclick, st, cl) &&
                                       r.value == onclick[st + |TranslationCall|..cl]
  {
    match TranslationFrom(onclick, 0)
    case None => Err(NoMatch(TranslationPattern))
    case Some((st, cl)) =>
      assert FirstTranslation(onclick, st, cl);
      Ok(onclick[st + |TranslationCall|..cl])
  }

  /** With no opening parenthesis before the call at `start`, no call starts earlier: the
      call's own parenthesis is its only one and sits at offset 23. */
  lemma NoCallBefore(s: string, start: nat, st: nat)
    requires start + |TranslationCall| <= |s| && s[start..start + |TranslationCall|] == TranslationCall
    requires '(' !in s[..start]
    requires st < start
    ensures s[st..st + |TranslationCall|] != TranslationCall
  {
    if st + 23 < start {
      assert s[st + 23] == s[..start][st + 23];
    } else {
      var j := st + 23 - start;
      assert s[st + 23] == s[start..start + |TranslationCall|][j];
      assert TranslationCall[j] == TranslationCall[..23][j];
      assert TranslationCall[..23] == "openLinkWithTranslation";
    }
    assert s[st + 23] != '(';
    assert s[st..st + |TranslationCall|][23] == s[st + 23];
  }

  /** A match with no opening parenthesis before its own is the one `re.search` reports. */
  lemma OnlyTranslation(s: string, start: nat, close: nat, code: string)
    requires TranslationAt(s, start, close)
    requires '(' !in s[..start]
    requires s[start + |TranslationCall|..close] == code
    ensures TranslationGroup(s) == Ok(code)
  {
    var r := TranslationGroup(s);
    var st: nat, cl: nat :| FirstTranslation(s, st, cl) && r.value == s[st + |TranslationCall|..cl];
    assert st <= start;
    if st < start {
      NoCallBefore(s, start, st);
      assert false;
    }
    QuoteForced(s, start + |TranslationCall|, close);
    QuoteForced(s, start + |TranslationCall|, cl);
  }

  /** For an `onclick` written `prefix` `openLinkWithTranslation('code')` `suffix`, with no
      opening parenthesis in the prefix and no quote in a non-empty code, the extracted
      language is the code. */
  lemma {:induction false} TranslationRoundTrip(prefix: string, code: string, suffix: string)
    requires '(' !in prefix
    requires |code| > 0 && '\'' !in code
    ensures TranslationGroup(prefix + TranslationCall + code + "')" + suffix) == Ok(code)
  {
    var s := prefix + TranslationCall + code + "')" + suffix;
    var start := |prefix|;
    var close := start + |TranslationCall| + |code|;
    assert s[..start] == prefix;
    assert s[start..start + |TranslationCall|] == TranslationCall;
    assert s[start + |TranslationCall|..close] == code;
    assert s[close] == '\'' && s[close + 1] == ')';
    forall k | start + |TranslationCall| <= k < close ensures s[k] != '\'' {
      assert s[k] == s[start + |TranslationCall|..close][k - start - |TranslationCall|];
    }
    OnlyTranslation(s, start, close, code);
  }
}
