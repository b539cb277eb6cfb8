/** The pieces of Python's `str` behaviour the bot relies on. */
module PyStrings {

  /** `c.isspace()` for Python 3: ASCII whitespace, the information separators and the
      Unicode space characters. */
  predicate IsSpace(c: char)
  {
    || c == ' '
    || ('\t' <= c <= '\r')
    || ('\U{1C}' <= c <= '\U{1F}')
    || c == '\U{85}' || c == '\U{A0}' || c == '\U{1680}'
    || ('\U{2000}' <= c <= '\U{200A}')
    || c == '\U{2028}' || c == '\U{2029}' || c == '\U{202F}' || c == '\U{205F}' || c == '\U{3000}'
  }

  /** The regex class `[a-zA-Z0-9]`. */
  predicate IsAsciiAlnum(c: char)
  {
    ('a' <= c <= 'z') || ('A' <= c <= 'Z') || ('0' <= c <= '9')
  }

  /** The regex class `[\w-]`, with `\w` taken over ASCII. */
  predicate IsWordOrHyphen(c: char)
  {
    IsAsciiAlnum(c) || c == '_' || c == '-'
  }

  ghost predicate AllSpace(s: string)
  {
    forall i :: 0 <= i < |s| ==> IsSpace(s[i])
  }

  /** `s.lstrip()` */
  function TrimStart(s: string): (r: string)
    ensures |r| <= |s| && r == s[|s| - |r|..]
    ensures r == [] || !IsSpace(r[0])
  {
    if s != [] && IsSpace(s[0]) then TrimStart(s[1..]) else s
  }

  /** `lstrip` removes whitespace only. */
  lemma {:induction false} TrimStartSpace(s: string)
    ensures AllSpace(s[..|s| - |TrimStart(s)|])
  {
    if s != [] && IsSpace(s[0]) {
      TrimStartSpace(s[1..]);
      var k := |s| - |TrimStart(s)|;
      assert s[..k] == [s[0]] + s[1..][..k - 1];
    }
  }

  /** `s.rstrip()` */
  function TrimEnd(s: string): (r: string)
    ensures |r| <= |s| && r == s[..|r|]
    ensures r == [] || !IsSpace(r[|r| - 1])
  {
    if s != [] && IsSpace(s[|s| - 1]) then TrimEnd(s[..|s| - 1]) else s
  }

  /** `rstrip` removes whitespace only. */
  lemma {:induction false} TrimEndSpace(s: string)
    ensures AllSpace(s[|TrimEnd(s)|..])
  {
    if s != [] && IsSpace(s[|s| - 1]) {
      TrimEndSpace(s[..|s| - 1]);
      var k := |TrimEnd(s)|;
      assert s[k..] == s[..|s| - 1][k..] + [s[|s| - 1]];
    }
  }

  /** `s.strip()`: a contiguous part of `s`; StripEnds and StripRemovesOnlySpace show that
      it neither starts nor ends with whitespace and that only whitespace lies around it. */
  function Strip(s: string): (r: string)
    ensures |r| <= |s|
    ensures |s| - |TrimStart(s)| + |r| <= |s|
    ensures r == s[|s| - |TrimStart(s)|..|s| - |TrimStart(s)| + |r|]
  {
    var t := TrimStart(s);
    StripInside(s, t, TrimEnd(t));
    TrimEnd(t)
  }

  /** What `strip` keeps neither starts nor ends with whitespace. */
  lemma StripEnds(s: string)
    ensures var r := Strip(s); r == [] || (!IsSpace(r[0]) && !IsSpace(r[|r| - 1]))
  {
    var t := TrimStart(s);
    var r := TrimEnd(t);
    if r != [] {
      assert r[0] == t[0];
    }
  }

  /** What is kept lies right after the leading whitespace. */
  lemma StripInside(s: string, t: string, r: string)
    requires |t| <= |s| && t == s[|s| - |t|..]
    requires |r| <= |t| && r == t[..|r|]
    ensures |s| - |t| + |r| <= |s| && r == s[|s| - |t|..|s| - |t| + |r|]
  {
  }

  /** Only whitespace precedes and follows what `strip` keeps. */
  lemma StripRemovesOnlySpace(s: string)
    ensures AllSpace(s[..|s| - |TrimStart(s)|])
    ensures AllSpace(s[|s| - |TrimStart(s)| + |Strip(s)|..])
  {
    TrimStartSpace(s);
    StripTailSpace(s);
  }

  lemma StripTailSpace(s: string)
    ensures AllSpace(s[|s| - |TrimStart(s)| + |Strip(s)|..])
  {
    var t := TrimStart(s);
    var r := TrimEnd(t);
    assert Strip(s) == r;
    TrimEndSpace(t);
    SpaceSame(t[|r|..], s[|s| - |t| + |r|..]);
  }

  lemma SpaceSame(a: string, b: string)
    requires AllSpace(a) && a == b
    ensures AllSpace(b)
  {
  }

  lemma StripNoSurroundingSpace(s: string)
    requires s == [] || (!IsSpace(s[0]) && !IsSpace(s[|s| - 1]))
    ensures Strip(s) == s
  {
  }

  lemma StripIdempotent(s: string)
    ensures Strip(Strip(s)) == Strip(s)
  {
    StripEnds(s);
    StripNoSurroundingSpace(Strip(s));
  }

  /** `''.join(parts)` */
  function Join(parts: seq<string>): (r: string)
    ensures parts == [] ==> r == ""
  {
    if parts == [] then "" else Join(parts[..|parts| - 1]) + parts[|parts| - 1]
  }

  lemma JoinAppend(parts: seq<string>, p: string)
    ensures Join(parts + [p]) == Join(parts) + p
  {
    assert (parts + [p])[..|parts|] == parts;
  }
}
