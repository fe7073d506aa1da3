/** String helpers shared by the proxy and the deploy page: the JavaScript
    string operations the two programs rely on, written as recognizers over
    `seq<char>`. */
module Text {

  /** A value JavaScript may leave `undefined` or `null`. */
  datatype Option<T> = None | Some(value: T)

  predicate StartsWith(s: string, prefix: string) {
    |prefix| <= |s| && s[..|prefix|] == prefix
  }

  /** `String.prototype.endsWith` */
  predicate EndsWith(s: string, suffix: string) {
    |suffix| <= |s| && s[|s| - |suffix|..] == suffix
  }

  /** `needle` occurs in `s` starting at index `i` */
  ghost predicate OccursAt(s: string, needle: string, i: int) {
    0 <= i && i + |needle| <= |s| && s[i..i + |needle|] == needle
  }

  /** `String.prototype.includes`: a case-sensitive substring test */
  predicate Contains(s: string, needle: string)
    decreases |s|
  {
    StartsWith(s, needle) || (|s| > 0 && Contains(s[1..], needle))
  }

  lemma {:induction false} ContainsIffOccurs(s: string, needle: string)
    ensures Contains(s, needle) <==> exists i :: OccursAt(s, needle, i)
    decreases |s|
  {
    if StartsWith(s, needle) {
      assert OccursAt(s, needle, 0);
    } else if |s| == 0 {
      assert !OccursAt(s, needle, 0);
    } else {
      ContainsIffOccurs(s[1..], needle);
      if Contains(s[1..], needle) {
        var i :| OccursAt(s[1..], needle, i);
        assert s[1..][i..i + |needle|] == s[i + 1..i + 1 + |needle|];
        assert OccursAt(s, needle, i + 1);
      }
      assert !OccursAt(s, needle, 0);
      forall i | OccursAt(s, needle, i) ensures Contains(s[1..], needle) {
        assert s[1..][i - 1..i - 1 + |needle|] == s[i..i + |needle|];
        assert OccursAt(s[1..], needle, i - 1);
      }
    }
  }

  /** `s.split(sep)[0]`: the text before the first `sep`, or all of `s`
      when `sep` does not occur. */
  function FirstField(s: string, sep: char): (field: string)
    ensures StartsWith(s, field)
    ensures sep !in field
    ensures |field| < |s| ==> s[|field|] == sep
  {
    if s == [] || s[0] == sep then [] else [s[0]] + FirstField(s[1..], sep)
  }

  /** The field is determined by where the first separator is. */
  lemma {:induction false} FirstFieldOfJoin(a: string, sep: char, b: string)
    requires sep !in a
    ensures FirstField(a + [sep] + b, sep) == a
  {
    if a != [] {
      assert (a + [sep] + b)[1..] == a[1..] + [sep] + b;
      FirstFieldOfJoin(a[1..], sep, b);
    }
  }

  /** The field runs at least as far as any separator-free prefix. */
  lemma FirstFieldCovers(s: string, sep: char, p: string)
    requires StartsWith(s, p) && sep !in p
    ensures StartsWith(FirstField(s, sep), p)
  {
  }

  /** A string without the separator is its own first field. */
  lemma FirstFieldWhole(s: string, sep: char)
    requires sep !in s
    ensures FirstField(s, sep) == s
  {
  }

  /** The characters `String.prototype.trim` removes: ECMAScript
      WhiteSpace and LineTerminator. */
  predicate IsWhitespace(c: char) {
    || c == '\t' || c == '\n' || c == '\U{000B}' || c == '\U{000C}' || c == '\r'
    || c == ' ' || c == '\U{00A0}' || c == '\U{1680}'
    || ('\U{2000}' <= c <= '\U{200A}')
    || c == '\U{2028}' || c == '\U{2029}' || c == '\U{202F}' || c == '\U{205F}'
    || c == '\U{3000}' || c == '\U{FEFF}'
  }

  predicate IsBlank(s: string) {
    forall i :: 0 <= i < |s| ==> IsWhitespace(s[i])
  }

  /** One whitespace character in front of a blank prefix keeps it blank. */
  lemma TrimStartStep(s: string, r: string)
    requires s != [] && IsWhitespace(s[0])
    requires EndsWith(s[1..], r) && IsBlank(s[1..][..|s| - 1 - |r|])
    ensures EndsWith(s, r) && IsBlank(s[..|s| - |r|])
  {
  }

  /** One whitespace character after a blank suffix keeps it blank. */
  lemma TrimEndStep(s: string, r: string)
    requires s != [] && IsWhitespace(s[|s| - 1])
    requires StartsWith(s[..|s| - 1], r) && IsBlank(s[..|s| - 1][|r|..])
    ensures StartsWith(s, r) && IsBlank(s[|r|..])
  {
  }

  /** Drops the leading whitespace: what is removed is blank, and what is
      left does not start with whitespace. */
  function TrimStart(s: string): (r: string)
    ensures EndsWith(s, r)
    ensures IsBlank(s[..|s| - |r|])
    ensures r != [] ==> !IsWhitespace(r[0])
  {
    if s != [] && IsWhitespace(s[0]) then
      var r := TrimStart(s[1..]);
      TrimStartStep(s, r);
      r
    else s
  }

  /** Drops the trailing whitespace: what is removed is blank, and what is
      left does not end with whitespace. */
  function TrimEnd(s: string): (r: string)
    ensures StartsWith(s, r)
    ensures IsBlank(s[|r|..])
    ensures r != [] ==> !IsWhitespace(r[|r| - 1])
  {
    if s != [] && IsWhitespace(s[|s| - 1]) then
      var r := TrimEnd(s[..|s| - 1]);
      TrimEndStep(s, r);
      r
    else s
  }

  /** `String.prototype.trim` */
  function Trim(s: string): string {
    TrimEnd(TrimStart(s))
  }

  /** Follows from the contract of `TrimStart`; the body only names the
      character that decides each direction, which keeps the proof cheap. */
  lemma TrimStartBlank(s: string)
    ensures TrimStart(s) == [] <==> IsBlank(s)
  {
    var r := TrimStart(s);
    if r == [] {
      assert s[..|s|] == s;
    } else {
      assert r[0] == s[|s| - |r|];
    }
  }

  lemma TrimEndEmpty(s: string)
    ensures TrimEnd(s) == [] <==> IsBlank(s)
  {
  }

  /** `!s.trim()` holds exactly for the strings made only of whitespace. */
  lemma TrimEmptyIffBlank(s: string)
    ensures Trim(s) == [] <==> IsBlank(s)
  {
    TrimStartBlank(s);
    var t := TrimStart(s);
    TrimEndEmpty(t);
  }
}
