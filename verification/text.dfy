/**
  The two text operations the renderer relies on: trimming white space
  from both ends of a rendered buffer (`bytes.TrimSpace`) and quoting a
  template text into an error message (`%q`). Text is a sequence of
  Unicode code points, which is what the buffer holds when it is valid
  UTF-8.
 */
module Text {

  /** White space as `unicode.IsSpace` defines it. */
  predicate IsSpace(c: char)
  {
    || c == ' ' || c == '\t' || c == '\n' || c == '\r'
    || c == '\U{0B}' || c == '\U{0C}'                   // vertical tab, form feed
    || c == '\U{85}' || c == '\U{A0}'                   // next line, no-break space
    || c == '\U{1680}'
    || ('\U{2000}' <= c <= '\U{200A}')
    || c == '\U{2028}' || c == '\U{2029}' || c == '\U{202F}' || c == '\U{205F}'
    || c == '\U{3000}'
  }

  /** `s` without its leading white space. */
  function TrimLeft(s: string): (r: string)
    ensures |r| <= |s| && r == s[|s| - |r|..]
    ensures forall k :: 0 <= k < |s| - |r| ==> IsSpace(s[k])
    ensures r != [] ==> !IsSpace(r[0])
  {
    if s != [] && IsSpace(s[0]) then
      var r := TrimLeft(s[1..]);
      assert s[1..][|s| - 1 - |r|..] == s[|s| - |r|..];
      assert forall k :: 1 <= k < |s| ==> s[k] == s[1..][k - 1];
      r
    else s
  }

  /** `s` without its trailing white space. */
  function TrimRight(s: string): (r: string)
    ensures |r| <= |s| && r == s[..|r|]
    ensures forall k :: |r| <= k < |s| ==> IsSpace(s[k])
    ensures r != [] ==> !IsSpace(r[|r| - 1])
  {
    if s != [] && IsSpace(s[|s| - 1]) then TrimRight(s[..|s| - 1]) else s
  }

  /**
    `bytes.TrimSpace`: `s` without white space at either end. It is empty
    exactly when `s` is all white space, and otherwise starts and ends with
    a character that is not white space.
   */
  function TrimSpace(s: string): (r: string)
    ensures |r| <= |s|
    ensures r == [] <==> forall k :: 0 <= k < |s| ==> IsSpace(s[k])
    ensures r != [] ==> !IsSpace(r[0]) && !IsSpace(r[|r| - 1])
  {
    TrimBoth(s);
    TrimRight(TrimLeft(s))
  }

  lemma TrimBoth(s: string)
    ensures |TrimRight(TrimLeft(s))| <= |s|
    ensures TrimRight(TrimLeft(s)) == [] <==> forall k :: 0 <= k < |s| ==> IsSpace(s[k])
    ensures var r := TrimRight(TrimLeft(s));
            r != [] ==> !IsSpace(r[0]) && !IsSpace(r[|r| - 1])
  {
    var l := TrimLeft(s);
    var r := TrimRight(l);
    if r != [] {
      assert r[0] == l[0];
      assert !IsSpace(s[|s| - |l|]);
    }
  }

  /** The escape a double-quoted Go string literal uses for `c`, if any. */
  function EscapeChar(c: char): (r: string)
  {
    if c == '"' then "\\\""
    else if c == '\\' then "\\\\"
    else if c == '\n' then "\\n"
    else if c == '\t' then "\\t"
    else if c == '\r' then "\\r"
    else [c]
  }

  /** The body of a double-quoted literal for `s`. */
  function Escape(s: string): (r: string)
  {
    if s == [] then [] else EscapeChar(s[0]) + Escape(s[1..])
  }

  /** `%q` of a string: the double-quoted, escaped literal. */
  function Quote(s: string): (r: string)
    ensures |r| >= |s| + 2 && r[0] == '"' && r[|r| - 1] == '"'
  {
    EscapeLength(s);
    "\"" + Escape(s) + "\""
  }

  lemma {:induction false} EscapeLength(s: string)
    ensures |Escape(s)| >= |s|
  {
    if s != [] {
      EscapeLength(s[1..]);
    }
  }

  /** Reads the body of a double-quoted literal back. */
  function Unescape(s: string): string
  {
    if s == [] then []
    else if s[0] == '\\' && |s| >= 2 then
      [match s[1] case 'n' => '\n' case 't' => '\t' case 'r' => '\r' case c => c] + Unescape(s[2..])
    else [s[0]] + Unescape(s[1..])
  }

  /** Quoting loses nothing: the literal reads back as the original text. */
  lemma {:induction false} UnescapeEscape(s: string)
    ensures Unescape(Escape(s)) == s
  {
    if s != [] {
      UnescapeChar(s[0], Escape(s[1..]));
      UnescapeEscape(s[1..]);
      assert [s[0]] + s[1..] == s;
    }
  }

  /** One escaped character, followed by any text, reads back as that character. */
  lemma UnescapeChar(c: char, t: string)
    ensures Unescape(EscapeChar(c) + t) == [c] + Unescape(t)
  {
    var e := EscapeChar(c);
    var s := e + t;
    if |e| == 2 {
      assert s[0] == '\\' && s[1] == e[1] && s[2..] == t;
    } else {
      assert s[0] == c && s[1..] == t;
    }
  }
}
