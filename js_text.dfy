/** The ECMAScript string operations the blog's code relies on: the
    whitespace and line-terminator classes of its regular expressions,
    `trim`, `substring`, `startsWith`, `Array.prototype.join` and
    `toUpperCase`. */
module JsText {

  /** LineTerminator of ECMAScript: what `.` never matches and where `^`
      and `$` match in multiline mode. */
  predicate IsLineTerminator(c: char) {
    c == '\n' || c == '\r' || c == '\U{2028}' || c == '\U{2029}'
  }

  /** WhiteSpace or LineTerminator of ECMAScript: the class `\s`, and what
      `String.prototype.trim` strips from both ends. */
  predicate IsWhitespace(c: char) {
    || c == '\t' || c == '\U{000B}' || c == '\U{000C}' || c == ' '
    || c == '\U{00A0}' || c == '\U{1680}' || ('\U{2000}' <= c <= '\U{200A}')
    || c == '\U{202F}' || c == '\U{205F}' || c == '\U{3000}' || c == '\U{FEFF}'
    || IsLineTerminator(c)
  }

  predicate AllWhitespace(s: string) {
    forall k :: 0 <= k < |s| ==> IsWhitespace(s[k])
  }

  /** `s.startsWith(prefix)`: case-sensitive, character by character. */
  predicate StartsWith(s: string, prefix: string) {
    |prefix| <= |s| && s[..|prefix|] == prefix
  }

  /** Drops the leading whitespace: what is left is a suffix of `s` that is
      empty or starts with a non-whitespace character. */
  function TrimStart(s: string): (r: string)
    ensures |r| <= |s| && r == s[|s| - |r|..]
    ensures AllWhitespace(s[..|s| - |r|])
    ensures r == [] || !IsWhitespace(r[0])
    decreases |s|
  {
    if |s| > 0 && IsWhitespace(s[0]) then
      var r := TrimStart(s[1..]);
      assert s[1..][|s| - 1 - |r|..] == s[|s| - |r|..];
      assert s[..|s| - |r|] == [s[0]] + s[1..][..|s| - 1 - |r|];
      r
    else s
  }

  /** Drops the trailing whitespace: what is left is a prefix of `s` that is
      empty or ends with a non-whitespace character. */
  function TrimEnd(s: string): (r: string)
    ensures |r| <= |s| && r == s[..|r|]
    ensures AllWhitespace(s[|r|..])
    ensures r == [] || !IsWhitespace(r[|r| - 1])
    decreases |s|
  {
    if |s| > 0 && IsWhitespace(s[|s| - 1]) then
      var t := s[..|s| - 1];
      var r := TrimEnd(t);
      assert t[..|r|] == s[..|r|];
      assert s[|r|..] == t[|r|..] + [s[|s| - 1]];
      WhitespaceAppend(t[|r|..], s[|s| - 1]);
      r
    else s
  }

  lemma WhitespaceAppend(a: string, c: char)
    requires AllWhitespace(a) && IsWhitespace(c)
    ensures AllWhitespace(a + [c])
  {
  }

  /** `s.trim()`. */
  function Trim(s: string): string {
    TrimEnd(TrimStart(s))
  }

  /** `Trim` is exactly the removal of whitespace padding: whatever
      non-padded text is surrounded by whitespace, trimming gives it back. */
  lemma {:induction false} TrimOfPadded(left: string, middle: string, right: string)
    requires AllWhitespace(left) && AllWhitespace(right)
    requires middle == [] || (!IsWhitespace(middle[0]) && !IsWhitespace(middle[|middle| - 1]))
    ensures Trim(left + middle + right) == middle
  {
    if middle == [] {
      assert left + middle + right == left + right;
      TrimStartAllWhitespace(left + right);
    } else {
      assert left + middle + right == left + (middle + right);
      TrimStartOfPadded(left, middle + right);
      TrimEndOfPadded(middle, right);
    }
  }

  lemma {:induction false} TrimStartOfPadded(left: string, rest: string)
    requires AllWhitespace(left)
    requires rest == [] || !IsWhitespace(rest[0])
    ensures TrimStart(left + rest) == rest
    decreases |left|
  {
    if left != [] {
      assert (left + rest)[1..] == left[1..] + rest;
      TrimStartOfPadded(left[1..], rest);
    } else {
      assert left + rest == rest;
    }
  }

  lemma {:induction false} TrimEndOfPadded(rest: string, right: string)
    requires AllWhitespace(right)
    requires rest == [] || !IsWhitespace(rest[|rest| - 1])
    ensures TrimEnd(rest + right) == rest
    decreases |right|
  {
    if right != [] {
      assert (rest + right)[..|rest + right| - 1] == rest + right[..|right| - 1];
      TrimEndOfPadded(rest, right[..|right| - 1]);
    } else {
      assert rest + right == rest;
    }
  }

  lemma TrimStartAllWhitespace(s: string)
    requires AllWhitespace(s)
    ensures TrimStart(s) == []
  {
  }

  /** `s.substring(0, n)` for `n >= 0`: at most the first `n` characters. */
  function Prefix(s: string, n: nat): (r: string)
    ensures |r| == if |s| <= n then |s| else n
    ensures StartsWith(s, r)
  {
    if |s| <= n then s else s[..n]
  }

  /** `parts.join(sep)`. */
  function Join(parts: seq<string>, sep: string): string
    decreases |parts|
  {
    if |parts| == 0 then ""
    else if |parts| == 1 then parts[0]
    else parts[0] + sep + Join(parts[1..], sep)
  }

  /** A join is empty exactly when there is no separator in it and every part
      is empty: with a non-empty separator, when it has at most one part and
      that part is empty. */
  lemma {:induction false} JoinEmpty(parts: seq<string>, sep: string)
    requires sep != ""
    ensures Join(parts, sep) == "" <==> |parts| == 0 || (|parts| == 1 && parts[0] == "")
  {
    if |parts| > 1 {
      assert |Join(parts, sep)| >= |sep|;
    }
  }

  /** The number a string of decimal digits denotes. */
  function DecimalValue(s: string): int
    decreases |s|
  {
    if |s| == 0 then 0
    else 10 * DecimalValue(s[..|s| - 1]) + (s[|s| - 1] as int - '0' as int)
  }

  /** The decimal numeral of a natural number: digits only, no leading
      zero, and denoting `n`. */
  function NatText(n: nat): (r: string)
    ensures |r| >= 1
    ensures forall k :: 0 <= k < |r| ==> '0' <= r[k] <= '9'
    ensures r[0] != '0' || r == "0"
    ensures DecimalValue(r) == n
    decreases n
  {
    var digit := ['0' + (n % 10) as char];
    if n < 10 then digit
    else
      var r := NatText(n / 10) + digit;
      assert r[..|r| - 1] == NatText(n / 10);
      r
  }

  /** `String(n)` for an integer-valued number of moderate size. */
  function IntText(n: int): (r: string)
    ensures |r| >= 1
  {
    if n < 0 then "-" + NatText(-n) else NatText(n)
  }

  /** One character of `toUpperCase`, for the ASCII letters. */
  function UpperChar(c: char): char {
    if 'a' <= c <= 'z' then (c as int - 32) as char else c
  }

  function ToUpperCase(s: string): string {
    seq(|s|, i requires 0 <= i < |s| => UpperChar(s[i]))
  }

  /** Upper-casing keeps the length, leaves no lower-case ASCII letter
      behind, changes no other character, and a second pass changes
      nothing. */
  lemma ToUpperCaseFacts(s: string)
    ensures |ToUpperCase(s)| == |s|
    ensures forall k :: 0 <= k < |s| ==> !('a' <= ToUpperCase(s)[k] <= 'z')
    ensures forall k :: 0 <= k < |s| && !('a' <= s[k] <= 'z') ==> ToUpperCase(s)[k] == s[k]
    ensures ToUpperCase(ToUpperCase(s)) == ToUpperCase(s)
  {
  }
}
