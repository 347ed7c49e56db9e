/** The heading pattern `/^#\s+(.+)$/m` that both post-listing routes use,
    written out as scanning. It finds the first heading match, gives the
    captured title, and removes the match for the excerpt. */
module MarkdownHeading {
  import opened Wrappers
  import opened JsText

  /** Where `^` matches in multiline mode. */
  predicate IsLineStart(s: string, p: int) {
    0 <= p <= |s| && (p == 0 || IsLineTerminator(s[p - 1]))
  }

  /** The pattern matches with `#` at `p`, `\s+` over `s[p+1..q]` and the
      group `(.+)` over `s[q..e]`, and `$` holds at `e`. */
  predicate PatternMatch(s: string, p: int, q: int, e: int) {
    && IsLineStart(s, p) && p < |s| && s[p] == '#'
    && p + 1 < q < e <= |s|
    && (forall k :: p + 1 <= k < q ==> IsWhitespace(s[k]))
    && (forall k :: q <= k < e ==> !IsLineTerminator(s[k]))
    && (e == |s| || IsLineTerminator(s[e]))
  }

  /** A match: the whole span is `s[start..end]`, the group `s[group..end]`. */
  datatype Match = Match(start: nat, group: nat, end: nat)

  /** The match the regular-expression engine reports: the leftmost start,
      for it the longest `\s+`, and for that the longest `.+`. */
  ghost predicate IsFirstMatch(s: string, m: Match) {
    IsFirstMatchFrom(s, 0, m)
  }

  /** The same, for a search that starts at position `from`. */
  ghost predicate IsFirstMatchFrom(s: string, from: int, m: Match) {
    && PatternMatch(s, m.start, m.group, m.end)
    && (forall p, q, e :: from <= p < m.start ==> !PatternMatch(s, p, q, e))
    && (forall q, e :: m.group < q ==> !PatternMatch(s, m.start, q, e))
    && (forall e :: m.end < e ==> !PatternMatch(s, m.start, m.group, e))
  }

  ghost predicate NoMatch(s: string) {
    forall p, q, e :: !PatternMatch(s, p, q, e)
  }

  /** The end of the run of whitespace that starts at `i`. */
  function WhitespaceEnd(s: string, i: nat): (j: nat)
    requires i <= |s|
    ensures i <= j <= |s|
    ensures forall k :: i <= k < j ==> IsWhitespace(s[k])
    ensures j == |s| || !IsWhitespace(s[j])
    decreases |s| - i
  {
    if i < |s| && IsWhitespace(s[i]) then WhitespaceEnd(s, i + 1) else i
  }

  /** The end of the line that contains position `i`. */
  function LineEnd(s: string, i: nat): (j: nat)
    requires i <= |s|
    ensures i <= j <= |s|
    ensures forall k :: i <= k < j ==> !IsLineTerminator(s[k])
    ensures j == |s| || IsLineTerminator(s[j])
    decreases |s| - i
  {
    if i < |s| && !IsLineTerminator(s[i]) then LineEnd(s, i + 1) else i
  }

  /** The largest `q` in `lo..hi` at which `.` can match: backtracking `\s+`
      from its longest extent. */
  function LastGroupStart(s: string, lo: nat, hi: int): (r: Option<nat>)
    ensures r.Some? ==> lo <= r.value <= hi && r.value < |s| && !IsLineTerminator(s[r.value])
    ensures r.Some? ==> forall k :: r.value < k <= hi && k < |s| ==> IsLineTerminator(s[k])
    ensures r.None? ==> forall k :: lo <= k <= hi && k < |s| ==> IsLineTerminator(s[k])
    decreases hi - lo
  {
    if hi < lo then None
    else if hi < |s| && !IsLineTerminator(s[hi]) then Some(hi)
    else LastGroupStart(s, lo, hi - 1)
  }

  /** The attempt to match at position `p`. */
  function MatchAt(s: string, p: nat): (r: Option<Match>)
    requires p <= |s|
    ensures r.Some? ==> r.value.start == p && PatternMatch(s, p, r.value.group, r.value.end)
    ensures r.Some? ==> forall q, e :: r.value.group < q ==> !PatternMatch(s, p, q, e)
    ensures r.Some? ==> forall e :: r.value.end < e ==> !PatternMatch(s, p, r.value.group, e)
    ensures r.None? ==> forall q, e :: !PatternMatch(s, p, q, e)
  {
    if !(IsLineStart(s, p) && p < |s| && s[p] == '#') then None
    else
      var w := WhitespaceEnd(s, p + 1);
      GroupStartsAreCandidates(s, p);
      match LastGroupStart(s, p + 2, w)
      case None => None
      case Some(q) => Some(Match(p, q, LineEnd(s, q)))
  }

  /** Every group start of a match at `p` lies within the whitespace run
      after the `#`, before the end of the text, on a character `.` matches. */
  lemma GroupStartsAreCandidates(s: string, p: nat)
    requires p < |s|
    ensures forall q, e :: PatternMatch(s, p, q, e) ==>
      p + 2 <= q <= WhitespaceEnd(s, p + 1) && q < |s| && !IsLineTerminator(s[q])
  {
    var w := WhitespaceEnd(s, p + 1);
    forall q, e | PatternMatch(s, p, q, e)
      ensures q <= w
    {
      if w < q { assert false; }
    }
  }

  /** The first match at or after position `p`. */
  function MatchFrom(s: string, p: nat): (r: Option<Match>)
    requires p <= |s|
    ensures r.Some? ==> p <= r.value.start && IsFirstMatchFrom(s, p, r.value)
    ensures r.None? ==> forall p', q, e :: p <= p' ==> !PatternMatch(s, p', q, e)
    decreases |s| - p
  {
    match MatchAt(s, p)
    case Some(m) => Some(m)
    case None => if p == |s| then None else MatchFrom(s, p + 1)
  }

  /** `s.match(/^#\s+(.+)$/m)`: the first match, or none when the pattern
      matches nowhere. */
  function FirstMatch(s: string): (r: Option<Match>)
    ensures r.Some? ==> IsFirstMatch(s, r.value)
    ensures r.None? ==> NoMatch(s)
  {
    MatchFrom(s, 0)
  }

  /** `titleMatch ? titleMatch[1] : 'Untitled'`. */
  function Title(s: string): string {
    match FirstMatch(s)
    case Some(m) => s[m.group..m.end]
    case None => "Untitled"
  }

  /** `s.replace(/^#\s+.+$/m, '')`: the first match cut out. */
  function RemoveFirstHeading(s: string): string {
    match FirstMatch(s)
    case Some(m) => s[..m.start] + s[m.end..]
    case None => s
  }

  /** The title is the group of the first match when there is one, and
      "Untitled" when the pattern matches nowhere; a matched title
      is never empty and never spans a line break. */
  lemma TitleSpec(s: string)
    ensures FirstMatch(s).Some? ==> Title(s) == s[FirstMatch(s).value.group..FirstMatch(s).value.end]
    ensures FirstMatch(s).None? <==> NoMatch(s)
    ensures FirstMatch(s).None? ==> Title(s) == "Untitled"
    ensures Title(s) != ""
    ensures forall k :: 0 <= k < |Title(s)| ==> !IsLineTerminator(Title(s)[k])
  {
    match FirstMatch(s)
    case Some(m) =>
      assert PatternMatch(s, m.start, m.group, m.end);
    case None =>
  }

  /** No match begins on a line that starts with "##". */
  lemma NoMatchOnSubheading(s: string, p: nat)
    requires p + 2 <= |s| && s[p] == '#' && s[p + 1] == '#'
    ensures forall q, e :: !PatternMatch(s, p, q, e)
  {
  }

  /** A heading line gives its text as the title. */
  lemma TitleOfHeadingLine()
    ensures Title("# Hello\n\nWorld") == "Hello"
  {
    var s := "# Hello\n\nWorld";
    assert WhitespaceEnd(s, 2) == 2;
    assert WhitespaceEnd(s, 1) == 2;
    assert LastGroupStart(s, 2, 2) == Some(2);
    assert LineEnd(s, 7) == 7;
    assert LineEnd(s, 2) == 7;
    assert MatchAt(s, 0) == Some(Match(0, 2, 7));
    assert s[2..7] == "Hello";
  }

  /** `\s+` also matches line breaks: a lone `#` takes the next line as the
      title, even a line that starts with "##". */
  lemma TitleCrossesLineBreak()
    ensures Title("#\nHello") == "Hello"
    ensures Title("#\n## Sub") == "## Sub"
  {
    var s := "#\nHello";
    assert WhitespaceEnd(s, 2) == 2;
    assert WhitespaceEnd(s, 1) == 2;
    assert LastGroupStart(s, 2, 2) == Some(2);
    assert LineEnd(s, 7) == 7;
    assert LineEnd(s, 2) == 7;
    assert MatchAt(s, 0) == Some(Match(0, 2, 7));
    assert s[2..7] == "Hello";
    var t := "#\n## Sub";
    assert WhitespaceEnd(t, 2) == 2;
    assert WhitespaceEnd(t, 1) == 2;
    assert LastGroupStart(t, 2, 2) == Some(2);
    assert LineEnd(t, 8) == 8;
    assert LineEnd(t, 2) == 8;
    assert MatchAt(t, 0) == Some(Match(0, 2, 8));
    assert t[2..8] == "## Sub";
  }

  /** Removing the first match keeps everything before and after it: the
      text is split into what precedes the heading, the heading (a `#` line
      ending in the title) and what follows, the middle part is dropped, and
      what precedes it holds no heading of its own. */
  lemma RemoveFirstHeadingSpec(s: string)
    ensures FirstMatch(s).None? ==> RemoveFirstHeading(s) == s
    ensures FirstMatch(s).Some? ==>
      var m := FirstMatch(s).value;
      && s == s[..m.start] + s[m.start..m.end] + s[m.end..]
      && s[m.start] == '#' && Title(s) == s[m.group..m.end]
      && RemoveFirstHeading(s) == s[..m.start] + s[m.end..] && |RemoveFirstHeading(s)| < |s|
      && NoMatch(s[..m.start])
  {
    match FirstMatch(s)
    case None =>
    case Some(m) =>
      assert s == s[..m.start] + s[m.start..m.end] + s[m.end..];
      NoMatchBefore(s, m);
  }

  /** A match inside the text before the first match would be a match in
      the whole text that starts earlier. */
  lemma NoMatchBefore(s: string, m: Match)
    requires IsFirstMatch(s, m)
    ensures NoMatch(s[..m.start])
  {
    var t := s[..m.start];
    forall p, q, e | PatternMatch(t, p, q, e)
      ensures false
    {
      // The group cannot end at `m.start`: the character before a line
      // start is a line terminator.
      if e < |t| {
        assert PatternMatch(s, p, q, e);
      }
    }
  }
}
