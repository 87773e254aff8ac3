/**
 * The cache keys of the Pinterest layer: `pinterest_<type>_` followed by
 * `JSON.stringify(params)` (src/services/pinterestApi.js and
 * src/hooks/usePinterestPins.js build them the same way). The parameter
 * objects are flat, with string or integer values, and are serialised in the
 * order their properties were written.
 */
module CacheKeys {
  import opened Wrappers
  import opened Text

  /** A property value of a parameter object. */
  datatype JsonValue = JNum(n: int) | JStr(s: string)

  /** A lower-case hexadecimal digit. */
  function HexDigit(d: nat): (c: char)
    requires d < 16
    ensures IsHexLetterOrDigit(c)
  {
    if d < 10 then ('0' as int + d) as char else ('a' as int + d - 10) as char
  }

  predicate IsHexLetterOrDigit(c: char) {
    '0' <= c <= '9' || 'a' <= c <= 'f'
  }

  lemma HexDigitInjective(d: nat, e: nat)
    requires d < 16 && e < 16
    ensures HexDigit(d) == HexDigit(e) ==> d == e
  {
  }

  /**
   * The letter of the two-character escape of `c` in a JSON string: the
   * quote, the backslash, backspace, tab, line feed, form feed and carriage
   * return have one.
   */
  function ShortEscape(c: char): (r: Option<char>)
    ensures r.Some? ==> r.value in "\"\\btnfr"
  {
    if c == '"' then Some('"')
    else if c == '\\' then Some('\\')
    else if c as int == 8 then Some('b')
    else if c as int == 9 then Some('t')
    else if c as int == 10 then Some('n')
    else if c as int == 12 then Some('f')
    else if c as int == 13 then Some('r')
    else None
  }

  /** The serialised form of one character inside a JSON string. */
  function EscapeChar(c: char): (r: string)
    ensures |r| == 1 || |r| == 2 || |r| == 6
    ensures |r| == 1 <==> r == [c]
    ensures |r| == 1 ==> c != '"' && c != '\\' && ' ' <= c
    ensures |r| > 1 ==> r[0] == '\\'
    ensures |r| == 2 ==> r[1] in "\"\\btnfr"
    ensures |r| == 6 ==> r[1] == 'u'
  {
    match ShortEscape(c)
    case Some(e) => ['\\', e]
    case None =>
      if c < ' ' then
        var k := c as int;
        ['\\', 'u', '0', '0', HexDigit(k / 16), HexDigit(k % 16)]
      else [c]
  }

  /** The escapes of two characters are equal only for equal characters. */
  lemma EscapeCharInjective(c: char, d: char)
    ensures EscapeChar(c) == EscapeChar(d) ==> c == d
  {
    if |EscapeChar(c)| == 6 && EscapeChar(c) == EscapeChar(d) {
      HexDigitInjective(c as int / 16, d as int / 16);
      HexDigitInjective(c as int % 16, d as int % 16);
    }
  }

  /** No escape is a proper prefix of another, so an escaped text splits one way only. */
  lemma EscapeCharPrefix(c: char, d: char, s: string, t: string)
    ensures EscapeChar(c) + s == EscapeChar(d) + t ==> c == d && s == t
  {
    var ec, ed := EscapeChar(c), EscapeChar(d);
    if ec + s == ed + t {
      assert (ec + s)[0] == ec[0] && (ed + t)[0] == ed[0];
      if |ec| > 1 {
        assert (ec + s)[1] == ec[1] && (ed + t)[1] == ed[1];
      }
      assert |ec| == |ed|;
      assert ec == (ec + s)[..|ec|] == (ed + t)[..|ed|] == ed;
      EscapeCharInjective(c, d);
      assert s == (ec + s)[|ec|..] == (ed + t)[|ed|..] == t;
    }
  }

  /** The body of a JSON string: every character escaped in turn. */
  function Escape(s: string): (r: string)
    ensures |r| >= |s|
  {
    if s == [] then [] else EscapeChar(s[0]) + Escape(s[1..])
  }

  /** `JSON.stringify` of a string. */
  function Quote(s: string): string {
    "\"" + Escape(s) + "\""
  }

  /** No escape starts with a quote. */
  lemma EscapeCharNotQuote(c: char)
    ensures EscapeChar(c)[0] != '"'
  {
    var e := EscapeChar(c);
    if |e| == 1 {
      assert e == [c];
    }
  }

  /** An escaped non-empty text followed by a quote starts with the escape of its first character. */
  lemma EscapeQuoteUnfold(a: string, x: string)
    requires a != []
    ensures Escape(a) + "\"" + x == EscapeChar(a[0]) + (Escape(a[1..]) + "\"" + x)
    ensures (Escape(a) + "\"" + x)[0] != '"'
  {
    var e, rest := EscapeChar(a[0]), Escape(a[1..]);
    assert Escape(a) == e + rest;
    Regroup3(e, rest, "\"", x);
    EscapeCharNotQuote(a[0]);
    assert (e + (rest + "\"" + x))[0] == e[0];
  }

  /** Concatenation regroups. */
  lemma Regroup3(e: string, r: string, q: string, x: string)
    ensures e + r + q + x == e + (r + q + x)
  {
  }

  /** An escaped text followed by a quote determines both the text and what follows the quote. */
  lemma {:induction false} EscapeQuoteInjective(a: string, b: string, x: string, y: string)
    ensures Escape(a) + "\"" + x == Escape(b) + "\"" + y ==> a == b && x == y
    decreases |a|
  {
    var l, r := Escape(a) + "\"" + x, Escape(b) + "\"" + y;
    if a == [] && b == [] {
      assert l == "\"" + x && r == "\"" + y;
      assert l[1..] == x && r[1..] == y;
    } else if a == [] {
      assert l[0] == '"';
      EscapeQuoteUnfold(b, y);
    } else if b == [] {
      assert r[0] == '"';
      EscapeQuoteUnfold(a, x);
    } else {
      EscapeQuoteUnfold(a, x);
      EscapeQuoteUnfold(b, y);
      EscapeCharPrefix(a[0], b[0], Escape(a[1..]) + "\"" + x, Escape(b[1..]) + "\"" + y);
      EscapeQuoteInjective(a[1..], b[1..], x, y);
      if l == r {
        assert a == [a[0]] + a[1..] && b == [b[0]] + b[1..];
      }
    }
  }

  /** `JSON.stringify` of a property value. */
  function JsonText(v: JsonValue): string {
    match v
    case JNum(n) => IntToString(n)
    case JStr(s) => Quote(s)
  }

  /** The members of an object, comma-separated, in the given order. */
  function Members(props: seq<(string, JsonValue)>): string {
    if props == [] then ""
    else
      var member := Quote(props[0].0) + ":" + JsonText(props[0].1);
      if |props| == 1 then member else member + "," + Members(props[1..])
  }

  /** `JSON.stringify(params)` for a flat object. */
  function Stringify(props: seq<(string, JsonValue)>): (r: string)
    ensures |r| >= 2 && r[0] == '{' && r[|r| - 1] == '}'
  {
    "{" + Members(props) + "}"
  }

  /** The cache key of resource `kind` with parameters `props`. */
  function CacheKey(kind: string, props: seq<(string, JsonValue)>): (r: string)
    ensures StartsWith(r, "pinterest_" + kind + "_{")
  {
    var r := "pinterest_" + kind + "_" + Stringify(props);
    assert r[..|"pinterest_" + kind + "_{"|] == "pinterest_" + kind + "_{";
    r
  }

  /**
   * Keys of two different resource names (neither holding `{`) never
   * coincide, whatever their parameters.
   */
  lemma KindsSeparate(k1: string, k2: string, p1: seq<(string, JsonValue)>, p2: seq<(string, JsonValue)>)
    requires '{' !in k1 && '{' !in k2 && k1 != k2
    ensures CacheKey(k1, p1) != CacheKey(k2, p2)
  {
    var a, b := CacheKey(k1, p1), CacheKey(k2, p2);
    var pa, pb := "pinterest_" + k1 + "_{", "pinterest_" + k2 + "_{";
    assert a[..|pa|] == pa && b[..|pb|] == pb;
    if |k1| < |k2| {
      var i := 11 + |k1|;
      assert a[i] == pa[i] == '{';
      assert b[i] == pb[i] == (if |k2| == |k1| + 1 then '_' else k2[|k1| + 1]);
      assert b[i] != '{';
    } else if |k2| < |k1| {
      var i := 11 + |k2|;
      assert b[i] == pb[i] == '{';
      assert a[i] == pa[i] == (if |k1| == |k2| + 1 then '_' else k1[|k2| + 1]);
      assert a[i] != '{';
    } else {
      var j :| 0 <= j < |k1| && k1[j] != k2[j];
      assert a[10 + j] == pa[10 + j] == k1[j];
      assert b[10 + j] == pb[10 + j] == k2[j];
    }
  }

  /** The text of a two-property object after `{"` and the escape of the first name's first character. */
  function AfterFirstChar(n1: string, v1: JsonValue, n2: string, v2: JsonValue): string
    requires n1 != []
  {
    Escape(n1[1..]) + "\"" + ":" + JsonText(v1) + "," + Members([(n2, v2)]) + "}"
  }

  lemma Regroup<T>(p: seq<T>, lb: seq<T>, q: seq<T>, e0: seq<T>, e1: seq<T>, colon: seq<T>, j: seq<T>,
                   comma: seq<T>, m: seq<T>, rb: seq<T>)
    ensures p + (lb + ((q + (e0 + e1) + q) + colon + j + comma + m) + rb)
         == (p + lb + q) + (e0 + (e1 + q + colon + j + comma + m + rb))
  {
  }

  /** A two-property key, split after the escape of the first name's first character. */
  lemma TwoPropertyKey(kind: string, n1: string, v1: JsonValue, n2: string, v2: JsonValue)
    requires n1 != []
    ensures CacheKey(kind, [(n1, v1), (n2, v2)]) ==
      ("pinterest_" + kind + "_" + "{" + "\"") + (EscapeChar(n1[0]) + AfterFirstChar(n1, v1, n2, v2))
  {
    assert Escape(n1) == EscapeChar(n1[0]) + Escape(n1[1..]);
    Regroup("pinterest_" + kind + "_", "{", "\"", EscapeChar(n1[0]), Escape(n1[1..]), ":", JsonText(v1),
      ",", Members([(n2, v2)]), "}");
  }

  /**
   * Property order matters: the same two properties written in the other
   * order give another key.
   */
  lemma OrderMatters(kind: string, n1: string, v1: JsonValue, n2: string, v2: JsonValue)
    requires n1 != [] && n2 != [] && n1[0] != n2[0]
    ensures CacheKey(kind, [(n1, v1), (n2, v2)]) != CacheKey(kind, [(n2, v2), (n1, v1)])
  {
    var p := "pinterest_" + kind + "_" + "{" + "\"";
    var x := EscapeChar(n1[0]) + AfterFirstChar(n1, v1, n2, v2);
    var y := EscapeChar(n2[0]) + AfterFirstChar(n2, v2, n1, v1);
    TwoPropertyKey(kind, n1, v1, n2, v2);
    TwoPropertyKey(kind, n2, v2, n1, v1);
    EscapeCharPrefix(n1[0], n2[0], AfterFirstChar(n1, v1, n2, v2), AfterFirstChar(n2, v2, n1, v1));
    assert (p + x)[|p|..] == x && (p + y)[|p|..] == y;
  }

  /** A number followed by a separator that is not a digit determines both. */
  lemma IntTextPrefix(m: int, n: int, sep: char, x: string, y: string)
    requires !IsDigit(sep) && sep != '-'
    ensures IntToString(m) + [sep] + x == IntToString(n) + [sep] + y ==> m == n && x == y
  {
    var a, b := IntToString(m), IntToString(n);
    var l, r := a + [sep] + x, b + [sep] + y;
    if |a| < |b| {
      assert l[|a|] == sep && r[|a|] == b[|a|];
    } else if |b| < |a| {
      assert r[|b|] == sep && l[|b|] == a[|b|];
    } else if l == r {
      assert a == l[..|a|] == r[..|b|] == b;
      IntToStringInjective(m, n);
      assert x == l[|a| + 1..] == r[|b| + 1..] == y;
    }
  }

  /** Two sequences that agree after a common prefix. */
  lemma DropPrefix<T>(p: seq<T>, x: seq<T>, y: seq<T>)
    ensures p + x == p + y ==> x == y
  {
    assert (p + x)[|p|..] == x && (p + y)[|p|..] == y;
  }

  lemma RegroupStringNumber<T>(p: seq<T>, lb: seq<T>, q: seq<T>, a: seq<T>, colon: seq<T>, s: seq<T>,
                               comma: seq<T>, b: seq<T>, n: seq<T>, rb: seq<T>)
    ensures p + (lb + ((q + a + q) + colon + (q + s + q) + comma + ((q + b + q) + colon + n)) + rb)
         == (p + lb + q + a + q + colon + q) + (s + q + (comma + q + b + q + colon + n + rb))
  {
  }

  /** The key of an object `{a: <string>, b: <number>}`, split around the string's escaped text. */
  lemma StringNumberKey(kind: string, a: string, b: string, s: string, n: int)
    ensures CacheKey(kind, [(a, JStr(s)), (b, JNum(n))]) ==
      ("pinterest_" + kind + "_" + "{" + "\"" + Escape(a) + "\"" + ":" + "\"")
      + (Escape(s) + "\"" + ("," + "\"" + Escape(b) + "\"" + ":" + IntToString(n) + "}"))
  {
    assert Members([(a, JStr(s)), (b, JNum(n))]) ==
      Quote(a) + ":" + Quote(s) + "," + (Quote(b) + ":" + IntToString(n));
    RegroupStringNumber("pinterest_" + kind + "_", "{", "\"", Escape(a), ":", Escape(s), ",", Escape(b),
      IntToString(n), "}");
  }

  /**
   * Keys of objects `{a: <string>, b: <number>}` (the board-pins and search
   * keys) are equal exactly when both values are.
   */
  lemma StringNumberKeyInjective(kind: string, a: string, b: string, s1: string, n1: int, s2: string, n2: int)
    ensures CacheKey(kind, [(a, JStr(s1)), (b, JNum(n1))]) == CacheKey(kind, [(a, JStr(s2)), (b, JNum(n2))])
      <==> s1 == s2 && n1 == n2
  {
    var p := "pinterest_" + kind + "_" + "{" + "\"" + Escape(a) + "\"" + ":" + "\"";
    var q := "," + "\"" + Escape(b) + "\"" + ":";
    StringNumberKey(kind, a, b, s1, n1);
    StringNumberKey(kind, a, b, s2, n2);
    DropPrefix(p, Escape(s1) + "\"" + (q + IntToString(n1) + "}"), Escape(s2) + "\"" + (q + IntToString(n2) + "}"));
    EscapeQuoteInjective(s1, s2, q + IntToString(n1) + "}", q + IntToString(n2) + "}");
    DropPrefix(q, IntToString(n1) + "}", IntToString(n2) + "}");
    assert (q + IntToString(n1) + "}") == q + (IntToString(n1) + "}");
    assert (q + IntToString(n2) + "}") == q + (IntToString(n2) + "}");
    IntTextPrefix(n1, n2, '}', [], []);
    assert IntToString(n1) + "}" == IntToString(n1) + ['}'] + [];
    assert IntToString(n2) + "}" == IntToString(n2) + ['}'] + [];
  }

  lemma RegroupNumberNumber<T>(p: seq<T>, lb: seq<T>, q: seq<T>, a: seq<T>, colon: seq<T>, m: seq<T>,
                               comma: seq<T>, b: seq<T>, n: seq<T>, rb: seq<T>)
    ensures p + (lb + ((q + a + q) + colon + m + comma + ((q + b + q) + colon + n)) + rb)
         == (p + lb + q + a + q + colon) + (m + comma + (q + b + q + colon + n + rb))
  {
  }

  /** The key of an object `{a: <number>, b: <number>}`, split after the first number. */
  lemma NumberNumberKey(kind: string, a: string, b: string, m: int, n: int)
    ensures CacheKey(kind, [(a, JNum(m)), (b, JNum(n))]) ==
      ("pinterest_" + kind + "_" + "{" + "\"" + Escape(a) + "\"" + ":")
      + (IntToString(m) + "," + ("\"" + Escape(b) + "\"" + ":" + IntToString(n) + "}"))
  {
    assert Members([(a, JNum(m)), (b, JNum(n))]) ==
      Quote(a) + ":" + IntToString(m) + "," + (Quote(b) + ":" + IntToString(n));
    RegroupNumberNumber("pinterest_" + kind + "_", "{", "\"", Escape(a), ":", IntToString(m), ",", Escape(b),
      IntToString(n), "}");
  }

  /**
   * Keys of objects `{a: <number>, b: <number>}` (the category-pins key) are
   * equal exactly when both values are.
   */
  lemma NumberNumberKeyInjective(kind: string, a: string, b: string, m1: int, n1: int, m2: int, n2: int)
    ensures CacheKey(kind, [(a, JNum(m1)), (b, JNum(n1))]) == CacheKey(kind, [(a, JNum(m2)), (b, JNum(n2))])
      <==> m1 == m2 && n1 == n2
  {
    var p := "pinterest_" + kind + "_" + "{" + "\"" + Escape(a) + "\"" + ":";
    var q := "\"" + Escape(b) + "\"" + ":";
    NumberNumberKey(kind, a, b, m1, n1);
    NumberNumberKey(kind, a, b, m2, n2);
    DropPrefix(p, IntToString(m1) + "," + (q + IntToString(n1) + "}"), IntToString(m2) + "," + (q + IntToString(n2) + "}"));
    IntTextPrefix(m1, m2, ',', q + IntToString(n1) + "}", q + IntToString(n2) + "}");
    assert IntToString(m1) + "," + (q + IntToString(n1) + "}") == IntToString(m1) + [','] + (q + IntToString(n1) + "}");
    assert IntToString(m2) + "," + (q + IntToString(n2) + "}") == IntToString(m2) + [','] + (q + IntToString(n2) + "}");
    DropPrefix(q, IntToString(n1) + "}", IntToString(n2) + "}");
    assert (q + IntToString(n1) + "}") == q + (IntToString(n1) + "}");
    assert (q + IntToString(n2) + "}") == q + (IntToString(n2) + "}");
    IntTextPrefix(n1, n2, '}', [], []);
    assert IntToString(n1) + "}" == IntToString(n1) + ['}'] + [];
    assert IntToString(n2) + "}" == IntToString(n2) + ['}'] + [];
  }

  /** The key of an object `{a: <number>}`, split before the number. */
  lemma NumberKey(kind: string, a: string, n: int)
    ensures CacheKey(kind, [(a, JNum(n))]) == ("pinterest_" + kind + "_" + "{" + Quote(a) + ":") + (IntToString(n) + ['}'] + [])
  {
    assert Members([(a, JNum(n))]) == Quote(a) + ":" + IntToString(n);
  }

  /** Keys of one-number objects `{a: <number>}` (the featured-pins key) are equal exactly when the numbers are. */
  lemma NumberKeyInjective(kind: string, a: string, n1: int, n2: int)
    ensures CacheKey(kind, [(a, JNum(n1))]) == CacheKey(kind, [(a, JNum(n2))]) <==> n1 == n2
  {
    var p := "pinterest_" + kind + "_" + "{" + Quote(a) + ":";
    NumberKey(kind, a, n1);
    NumberKey(kind, a, n2);
    DropPrefix(p, IntToString(n1) + ['}'] + [], IntToString(n2) + ['}'] + []);
    IntTextPrefix(n1, n2, '}', [], []);
  }
}
