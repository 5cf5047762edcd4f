/**
 * JSON.stringify applied to a string (the QuoteJSONString operation of
 * ECMA-262), the `.replace(/"/g, "")` that the login form applies to what it
 * reads back, and JSON.parse of a string literal, the decoding that inverts
 * JSON.stringify.
 */
module Json {
  import opened Forms

  /** A character JSON.stringify copies unchanged and `.replace(/"/g, "")`
      keeps: not a quote, not a backslash, not a C0 control character. */
  predicate IsPlainChar(c: char) {
    c != '"' && c != '\\' && c >= ' '
  }

  predicate JsonSafe(s: string) {
    forall i :: 0 <= i < |s| ==> IsPlainChar(s[i])
  }

  predicate NoQuotes(s: string) {
    forall i :: 0 <= i < |s| ==> s[i] != '"'
  }

  /** A lower-case hexadecimal digit. */
  function HexDigit(n: nat): char
    requires n < 16
  {
    if n < 10 then ('0' as int + n) as char else ('a' as int + n - 10) as char
  }

  /** The escape of one character: the short escapes for backspace, tab, line
      feed, form feed, carriage return, quote and backslash; `\u00xx` with
      lower-case hex digits for the other C0 control characters; the character
      itself otherwise (a Dafny char is never a lone surrogate). */
  function EscapeChar(c: char): (r: string)
    ensures IsPlainChar(c) <==> r == [c]
    ensures |r| >= 1 && (!IsPlainChar(c) ==> |r| >= 2)
    ensures c != '"' ==> NoQuotes(r)
  {
    if c == '\U{8}' then "\\b"
    else if c == '\t' then "\\t"
    else if c == '\n' then "\\n"
    else if c == '\U{C}' then "\\f"
    else if c == '\r' then "\\r"
    else if c == '"' then "\\\""
    else if c == '\\' then "\\\\"
    else if c < ' ' then ['\\', 'u', '0', '0', HexDigit(c as int / 16), HexDigit(c as int % 16)]
    else [c]
  }

  /** The body of the quoted string, character by character. */
  function Escape(s: string): (r: string)
    ensures |r| >= |s|
    ensures JsonSafe(s) ==> r == s
    ensures !JsonSafe(s) ==> |r| > |s|
    ensures NoQuotes(s) ==> NoQuotes(r)
  {
    if s == [] then []
    else
      var head, tail := EscapeChar(s[0]), Escape(s[1..]);
      assert JsonSafe(s) ==> JsonSafe(s[1..]) by {
        if JsonSafe(s) {
          forall i | 0 <= i < |s[1..]| ensures IsPlainChar(s[1..][i]) {
            assert s[1..][i] == s[i + 1];
          }
        }
      }
      assert !JsonSafe(s) ==> !IsPlainChar(s[0]) || !JsonSafe(s[1..]) by {
        if !JsonSafe(s) {
          var i :| 0 <= i < |s| && !IsPlainChar(s[i]);
          if i > 0 { assert s[1..][i - 1] == s[i]; }
        }
      }
      assert NoQuotes(s) ==> NoQuotes(s[1..]) by {
        if NoQuotes(s) {
          forall i | 0 <= i < |s[1..]| ensures s[1..][i] != '"' {
            assert s[1..][i] == s[i + 1];
          }
        }
      }
      head + tail
  }

  /** JSON.stringify(s) for a string s. */
  function Stringify(s: string): (r: string)
    ensures |r| >= |s| + 2 && r[0] == '"' && r[|r| - 1] == '"'
  {
    "\"" + Escape(s) + "\""
  }

  /** `.replace(/"/g, "")`: every double quote removed, the rest kept in order. */
  function RemoveQuotes(s: string): (r: string)
    ensures |r| <= |s|
    ensures NoQuotes(r)
    ensures NoQuotes(s) ==> r == s
  {
    if s == [] then []
    else
      var rest := RemoveQuotes(s[1..]);
      assert NoQuotes(s) ==> NoQuotes(s[1..]) by {
        if NoQuotes(s) {
          forall i | 0 <= i < |s[1..]| ensures s[1..][i] != '"' {
            assert s[1..][i] == s[i + 1];
          }
        }
      }
      if s[0] == '"' then rest else [s[0]] + rest
  }

  lemma {:induction false} RemoveQuotesAppend(a: string, b: string)
    ensures RemoveQuotes(a + b) == RemoveQuotes(a) + RemoveQuotes(b)
  {
    if a != [] {
      assert (a + b)[0] == a[0] && (a + b)[1..] == a[1..] + b;
      RemoveQuotesAppend(a[1..], b);
      if a[0] != '"' {
        assert RemoveQuotes(a + b) == [a[0]] + RemoveQuotes(a[1..] + b);
        assert RemoveQuotes(a) == [a[0]] + RemoveQuotes(a[1..]);
      }
    } else {
      assert a + b == b;
    }
  }

  /** Under the side condition, JSON.stringify only wraps the string in quotes. */
  lemma StringifyPlain(s: string)
    requires JsonSafe(s)
    ensures Stringify(s) == "\"" + s + "\""
  {
  }

  /** Removing the quotes from JSON.stringify(s) gives back s exactly when s
      holds no quote, no backslash and no control character: a quote comes
      back as a lone backslash, and every other escape is longer than the
      character it replaces. */
  lemma {:induction false} RemoveQuotesStringify(s: string)
    ensures RemoveQuotes(Stringify(s)) == s <==> JsonSafe(s)
  {
    var e := Escape(s);
    RemoveQuotesAppend("\"", e);
    RemoveQuotesAppend("\"" + e, "\"");
    assert RemoveQuotes(Stringify(s)) == RemoveQuotes(e);
    if JsonSafe(s) {
      assert NoQuotes(s);
    } else if !NoQuotes(s) {
      var i :| 0 <= i < |s| && s[i] == '"';
      assert RemoveQuotes(e) != s;
    } else {
      assert RemoveQuotes(e) == e;
    }
  }

  /** The value of a hexadecimal digit of either case. */
  function HexValue(c: char): Option<nat> {
    if '0' <= c <= '9' then Some(c as int - '0' as int)
    else if 'a' <= c <= 'f' then Some(c as int - 'a' as int + 10)
    else if 'A' <= c <= 'F' then Some(c as int - 'A' as int + 10)
    else None
  }

  /** The character a `\uXXXX` escape stands for; a surrogate code unit is
      not a character on its own. */
  function CodeUnit(h: string): Option<char>
    requires |h| == 4
  {
    match (HexValue(h[0]), HexValue(h[1]), HexValue(h[2]), HexValue(h[3]))
    case (Some(a), Some(b), Some(c), Some(d)) =>
      var v := 4096 * a + 256 * b + 16 * c + d;
      if 0xD800 <= v <= 0xDFFF then None else Some(v as char)
    case _ => None
  }

  /** The character after a backslash in a short escape, decoded. */
  function ShortEscape(e: char): Option<char> {
    if e == '"' then Some('"')
    else if e == '\\' then Some('\\')
    else if e == '/' then Some('/')
    else if e == 'b' then Some('\U{8}')
    else if e == 'f' then Some('\U{C}')
    else if e == 'n' then Some('\n')
    else if e == 'r' then Some('\r')
    else if e == 't' then Some('\t')
    else None
  }

  function Cons(c: char, rest: Option<string>): Option<string> {
    match rest
    case None => None
    case Some(u) => Some([c] + u)
  }

  /** The characters of a JSON string literal between its quotes, decoded;
      None where JSON.parse would throw (a bare quote, a control character,
      an unknown or truncated escape). */
  function Unescape(t: string): Option<string>
    decreases |t|
  {
    if t == [] then Some([])
    else if t[0] == '\\' then
      if 2 <= |t| && ShortEscape(t[1]).Some? then Cons(ShortEscape(t[1]).value, Unescape(t[2..]))
      else if 6 <= |t| && t[1] == 'u' then
        match CodeUnit(t[2..6])
        case None => None
        case Some(c) => Cons(c, Unescape(t[6..]))
      else None
    else if IsPlainChar(t[0]) then Cons(t[0], Unescape(t[1..]))
    else None
  }

  /** JSON.parse of a string literal. */
  function Parse(r: string): Option<string> {
    if 2 <= |r| && r[0] == '"' && r[|r| - 1] == '"' then Unescape(r[1..|r| - 1]) else None
  }

  /** Decoding undoes the escape of one character, whatever follows it. */
  lemma UnescapeEscapeChar(c: char, rest: string)
    ensures Unescape(EscapeChar(c) + rest) == Cons(c, Unescape(rest))
  {
  }

  lemma {:induction false} UnescapeEscape(s: string)
    ensures Unescape(Escape(s)) == Some(s)
  {
    if s != [] {
      UnescapeEscapeChar(s[0], Escape(s[1..]));
      UnescapeEscape(s[1..]);
      assert [s[0]] + s[1..] == s;
    }
  }

  /** JSON.parse(JSON.stringify(s)) gives back s for every string. */
  lemma ParseStringify(s: string)
    ensures Parse(Stringify(s)) == Some(s)
  {
    var r := Stringify(s);
    assert r[1..|r| - 1] == Escape(s);
    UnescapeEscape(s);
  }
}
