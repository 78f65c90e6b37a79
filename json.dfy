/**
 * `JSON.stringify` restricted to the values the host runner compares: `null`
 * and arrays of strings (ECMA-262, section 25.5.2, SerializeJSONArray and
 * QuoteJSONString). The runner decides whether to reload packages by comparing
 * two such strings; `StringifyInjective` shows that this comparison is exactly
 * equality of the remembered and requested lists as ordered sequences.
 *
 * The string and array layers are written for any per-character escape `esc`;
 * `Stringify` instantiates them with JSON's escape table `EscapeChar`. The
 * layers only rely on `esc` being a code that never starts with a quote and
 * that splits a text in one way only (`QuoteSafeCode`).
 */
module Json {
  import opened Wrappers

  /** A lower-case hexadecimal digit, as the `\u00XX` escapes are written. */
  function HexDigit(d: nat): (h: char)
    requires d < 16
    ensures h in "0123456789abcdef"
  {
    "0123456789abcdef"[d]
  }

  /** The JSON text for one character of a string (QuoteJSONString). */
  function EscapeChar(c: char): (e: string)
  {
    if c == '"' then "\\\""
    else if c == '\\' then "\\\\"
    else if c as int == 0x08 then "\\b"
    else if c as int == 0x0C then "\\f"
    else if c == '\n' then "\\n"
    else if c == '\r' then "\\r"
    else if c == '\t' then "\\t"
    else if c as int < 0x20 then "\\u00" + [HexDigit(c as int / 16), HexDigit(c as int % 16)]
    else [c]
  }

  /** The escaped characters of a string, without the surrounding quotes. */
  function Escaped(esc: char -> string, s: string): string
  {
    if s == [] then [] else esc(s[0]) + Escaped(esc, s[1..])
  }

  /** A string literal. */
  function Literal(esc: char -> string, s: string): string
  {
    "\"" + Escaped(esc, s) + "\""
  }

  /** The remaining elements of an array, each preceded by a comma, then the closing bracket. */
  function MoreItems(esc: char -> string, l: seq<string>): string
  {
    if l == [] then "]" else "," + Literal(esc, l[0]) + MoreItems(esc, l[1..])
  }

  /** An array of strings. */
  function ListText(esc: char -> string, l: seq<string>): string
  {
    if l == [] then "[]" else "[" + Literal(esc, l[0]) + MoreItems(esc, l[1..])
  }

  /** `null` or an array of strings. */
  function Text(esc: char -> string, v: Option<seq<string>>): string
  {
    match v
    case None => "null"
    case Some(l) => ListText(esc, l)
  }

  /** `JSON.stringify` of `null` or of an array of strings: `null`, or a bracketed array. */
  function Stringify(v: Option<seq<string>>): (s: string)
    ensures s == "null" <==> v.None?
    ensures v.Some? ==> |s| >= 2 && s[0] == '[' && s[|s| - 1] == ']'
  {
    MoreItemsCloses(EscapeChar, if v.Some? && v.value != [] then v.value[1..] else []);
    assert "null"[0] == 'n';
    Text(EscapeChar, v)
  }

  /** The tail of an array's text always ends with the closing bracket. */
  lemma {:induction false} MoreItemsCloses(esc: char -> string, l: seq<string>)
    ensures |MoreItems(esc, l)| >= 1 && MoreItems(esc, l)[|MoreItems(esc, l)| - 1] == ']'
    decreases |l|
  {
    if l != [] {
      MoreItemsCloses(esc, l[1..]);
    }
  }

  /** An escape that never starts with a quote and that no other escape extends. */
  ghost predicate QuoteSafeCode(esc: char -> string)
  {
    && (forall c :: |esc(c)| >= 1 && esc(c)[0] != '"')
    && (forall c1, c2, x, y :: esc(c1) + x == esc(c2) + y ==> c1 == c2 && x == y)
  }

  lemma HexDigitInjective(a: nat, b: nat)
    requires a < 16 && b < 16 && HexDigit(a) == HexDigit(b)
    ensures a == b
  {
  }

  /** An escape is recognisable from its first two characters, and never starts with a quote. */
  lemma EscapeShape(c: char)
    ensures |EscapeChar(c)| >= 1 && EscapeChar(c)[0] != '"'
    ensures EscapeChar(c)[0] != '\\' ==> EscapeChar(c) == [c]
    ensures EscapeChar(c)[0] == '\\' ==> |EscapeChar(c)| >= 2 && (|EscapeChar(c)| == 6 <==> EscapeChar(c)[1] == 'u')
    ensures EscapeChar(c)[0] == '\\' ==> (|EscapeChar(c)| == 2 <==> EscapeChar(c)[1] != 'u')
  {
  }

  lemma EscapeCharInjective(c1: char, c2: char)
    requires EscapeChar(c1) == EscapeChar(c2)
    ensures c1 == c2
  {
    var e := EscapeChar(c1);
    EscapeShape(c1);
    EscapeShape(c2);
    if |e| == 6 {
      assert c1 as int < 0x20 && c2 as int < 0x20;
      assert e[4] == HexDigit(c1 as int / 16) == HexDigit(c2 as int / 16);
      assert e[5] == HexDigit(c1 as int % 16) == HexDigit(c2 as int % 16);
      HexDigitInjective(c1 as int / 16, c2 as int / 16);
      HexDigitInjective(c1 as int % 16, c2 as int % 16);
    }
  }

  /** No JSON escape is a proper prefix of another: a text splits into escapes in one way only. */
  lemma EscapePrefixFree(c1: char, c2: char, x: string, y: string)
    requires EscapeChar(c1) + x == EscapeChar(c2) + y
    ensures c1 == c2 && x == y
  {
    var e1, e2 := EscapeChar(c1), EscapeChar(c2);
    EscapeShape(c1);
    EscapeShape(c2);
    assert e1[0] == (e1 + x)[0] == (e2 + y)[0] == e2[0];
    if e1[0] == '\\' {
      assert e1[1] == (e1 + x)[1] == (e2 + y)[1] == e2[1];
    }
    assert |e1| == |e2|;
    assert e1 == (e1 + x)[..|e1|] == (e2 + y)[..|e2|] == e2;
    EscapeCharInjective(c1, c2);
    assert x == (e1 + x)[|e1|..] == (e2 + y)[|e2|..] == y;
  }

  lemma EscapeCharIsQuoteSafe()
    ensures QuoteSafeCode(EscapeChar)
  {
    forall c ensures |EscapeChar(c)| >= 1 && EscapeChar(c)[0] != '"' {
      EscapeShape(c);
    }
    forall c1, c2, x, y | EscapeChar(c1) + x == EscapeChar(c2) + y ensures c1 == c2 && x == y {
      EscapePrefixFree(c1, c2, x, y);
    }
  }

  /** The escaped text of a non-empty string does not start with a quote. */
  lemma EscapedHead(esc: char -> string, s: string, x: string)
    requires QuoteSafeCode(esc) && s != []
    ensures (Escaped(esc, s) + x)[0] == esc(s[0])[0] != '"'
  {
  }

  /** The closing quote of a string literal is found unambiguously. */
  lemma {:induction false} EscapedPrefixFree(esc: char -> string, s1: string, s2: string, x: string, y: string)
    requires QuoteSafeCode(esc)
    requires Escaped(esc, s1) + ("\"" + x) == Escaped(esc, s2) + ("\"" + y)
    ensures s1 == s2 && x == y
    decreases |s1|
  {
    if s1 == [] {
      if s2 != [] {
        EscapedHead(esc, s2, "\"" + y);
        assert false;
      }
      assert Escaped(esc, s1) == [] == Escaped(esc, s2);
      assert Escaped(esc, s1) + ("\"" + x) == "\"" + x;
      assert Escaped(esc, s2) + ("\"" + y) == "\"" + y;
      assert x == ("\"" + x)[1..];
      assert y == ("\"" + y)[1..];
    } else if s2 == [] {
      EscapedHead(esc, s1, "\"" + x);
      assert false;
    } else {
      var t1, t2 := Escaped(esc, s1[1..]) + ("\"" + x), Escaped(esc, s2[1..]) + ("\"" + y);
      assert esc(s1[0]) + t1 == Escaped(esc, s1) + ("\"" + x);
      assert esc(s2[0]) + t2 == Escaped(esc, s2) + ("\"" + y);
      assert s1[0] == s2[0] && t1 == t2;
      EscapedPrefixFree(esc, s1[1..], s2[1..], x, y);
      assert s1 == [s1[0]] + s1[1..] && s2 == [s2[0]] + s2[1..];
    }
  }

  /** A string literal followed by anything is read back as that string and that remainder. */
  lemma LiteralPrefixFree(esc: char -> string, s1: string, s2: string, x: string, y: string)
    requires QuoteSafeCode(esc)
    requires Literal(esc, s1) + x == Literal(esc, s2) + y
    ensures s1 == s2 && x == y
  {
    assert Literal(esc, s1) + x == "\"" + (Escaped(esc, s1) + ("\"" + x));
    assert Literal(esc, s2) + y == "\"" + (Escaped(esc, s2) + ("\"" + y));
    assert Escaped(esc, s1) + ("\"" + x) == (Literal(esc, s1) + x)[1..]
        == (Literal(esc, s2) + y)[1..] == Escaped(esc, s2) + ("\"" + y);
    EscapedPrefixFree(esc, s1, s2, x, y);
  }

  lemma {:induction false} MoreItemsInjective(esc: char -> string, a: seq<string>, b: seq<string>)
    requires QuoteSafeCode(esc)
    requires MoreItems(esc, a) == MoreItems(esc, b)
    ensures a == b
    decreases |a|
  {
    if a == [] || b == [] {
      assert MoreItems(esc, a)[0] == MoreItems(esc, b)[0];
    } else {
      var ra, rb := MoreItems(esc, a[1..]), MoreItems(esc, b[1..]);
      assert MoreItems(esc, a) == "," + (Literal(esc, a[0]) + ra);
      assert MoreItems(esc, b) == "," + (Literal(esc, b[0]) + rb);
      assert Literal(esc, a[0]) + ra == MoreItems(esc, a)[1..] == MoreItems(esc, b)[1..] == Literal(esc, b[0]) + rb;
      LiteralPrefixFree(esc, a[0], b[0], ra, rb);
      MoreItemsInjective(esc, a[1..], b[1..]);
      assert a == [a[0]] + a[1..] && b == [b[0]] + b[1..];
    }
  }

  lemma TextInjective(esc: char -> string, u: Option<seq<string>>, v: Option<seq<string>>)
    requires QuoteSafeCode(esc)
    requires Text(esc, u) == Text(esc, v)
    ensures u == v
  {
    assert Text(esc, u)[0] == Text(esc, v)[0];
    if u.Some? && v.Some? {
      var a, b := u.value, v.value;
      if a != [] && b != [] {
        var ra, rb := MoreItems(esc, a[1..]), MoreItems(esc, b[1..]);
        assert ListText(esc, a) == "[" + (Literal(esc, a[0]) + ra);
        assert ListText(esc, b) == "[" + (Literal(esc, b[0]) + rb);
        assert Literal(esc, a[0]) + ra == ListText(esc, a)[1..] == ListText(esc, b)[1..] == Literal(esc, b[0]) + rb;
        LiteralPrefixFree(esc, a[0], b[0], ra, rb);
        MoreItemsInjective(esc, a[1..], b[1..]);
        assert a == [a[0]] + a[1..] && b == [b[0]] + b[1..];
      }
    }
  }

  /**
   * Two values stringify to the same text exactly when they are equal: `null`
   * differs from every array, and arrays agree exactly when they hold the
   * same strings in the same order.
   */
  lemma StringifyInjective(u: Option<seq<string>>, v: Option<seq<string>>)
    ensures Stringify(u) == Stringify(v) <==> u == v
  {
    if Stringify(u) == Stringify(v) {
      EscapeCharIsQuoteSafe();
      TextInjective(EscapeChar, u, v);
    }
  }
}
