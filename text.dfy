/**
 * The JavaScript string and number operations the site relies on, written out
 * with the semantics of the language: `includes`, `startsWith`, `toLowerCase`,
 * `trim`, `String(n)`, `parseInt`, `Number`, `slice`, `%` and `Math.ceil` of a
 * division.
 */
module Text {
  import opened Wrappers

  function Min(a: int, b: int): int { if a <= b then a else b }
  function Max(a: int, b: int): int { if a >= b then a else b }

  // ---------------------------------------------------------------- searching

  /** `s.startsWith(p)` */
  predicate StartsWith<T(==)>(s: seq<T>, p: seq<T>) {
    |p| <= |s| && s[..|p|] == p
  }

  /** JavaScript truthiness of an optional string: present and not empty. */
  predicate Truthy(s: Option<string>) {
    s.Some? && s.value != ""
  }

  /** `a || fallback` for a string fallback. */
  function OrElse(a: Option<string>, fallback: string): string {
    if Truthy(a) then a.value else fallback
  }

  /** `s.includes(p)`: `p` occurs at some position of `s`. */
  predicate Contains(s: string, p: string)
    decreases |s|
  {
    StartsWith(s, p) || (|s| > 0 && Contains(s[1..], p))
  }

  /** Whatever surrounds it, a string includes itself. */
  lemma {:induction false} ContainsInfix(a: string, p: string, b: string)
    ensures Contains(a + p + b, p)
  {
    if |a| == 0 {
      assert a + p + b == p + b;
      assert (p + b)[..|p|] == p;
    } else {
      assert (a + p + b)[1..] == a[1..] + p + b;
      ContainsInfix(a[1..], p, b);
    }
  }

  /** What a string includes, any extension of it includes too. */
  lemma {:induction false} ContainsAppend(s: string, t: string, p: string)
    requires Contains(s, p)
    ensures Contains(s + t, p)
  {
    if StartsWith(s, p) {
      assert (s + t)[..|p|] == s[..|p|];
    } else {
      assert (s + t)[1..] == s[1..] + t;
      ContainsAppend(s[1..], t, p);
    }
  }

  /** The pieces joined in order: `pieces.join('')`. */
  function Concat(pieces: seq<string>): string {
    if pieces == [] then "" else Concat(pieces[..|pieces| - 1]) + pieces[|pieces| - 1]
  }

  /** Joined pieces include each piece. */
  lemma {:induction false} ConcatContainsPiece(pieces: seq<string>, i: nat)
    requires i < |pieces|
    ensures Contains(Concat(pieces), pieces[i])
  {
    var n := |pieces| - 1;
    if i == n {
      ContainsInfix(Concat(pieces[..n]), pieces[n], []);
      assert Concat(pieces[..n]) + pieces[n] + [] == Concat(pieces);
    } else {
      ConcatContainsPiece(pieces[..n], i);
      ContainsAppend(Concat(pieces[..n]), pieces[n], pieces[i]);
    }
  }

  /** `s.includes(c)` for a one-character string: `c` is one of the characters of `s`. */
  lemma {:induction false} ContainsChar(s: string, c: char)
    ensures Contains(s, [c]) <==> c in s
  {
    if |s| > 0 {
      ContainsChar(s[1..], c);
      assert s == [s[0]] + s[1..];
    }
  }

  /** The index form of `includes`: an occurrence at position `i`. */
  lemma ContainsAt(s: string, p: string, i: nat)
    requires i + |p| <= |s| && s[i..i + |p|] == p
    ensures Contains(s, p)
  {
    assert s == s[..i] + p + s[i + |p|..];
    ContainsInfix(s[..i], p, s[i + |p|..]);
  }

  // ------------------------------------------------------------ letter case

  predicate IsUpper(c: char) { 'A' <= c <= 'Z' }

  function LowerChar(c: char): char {
    if IsUpper(c) then (c as int + 32) as char else c
  }

  /** `s.toLowerCase()`, for the ASCII letters. */
  function Lower(s: string): (r: string)
    ensures |r| == |s|
    ensures forall i :: 0 <= i < |s| ==> !IsUpper(r[i])
    ensures forall i :: 0 <= i < |s| && !IsUpper(s[i]) ==> r[i] == s[i]
    ensures forall i :: 0 <= i < |s| && IsUpper(s[i]) ==>
      'a' <= r[i] <= 'z' && r[i] as int - 'a' as int == s[i] as int - 'A' as int
  {
    seq(|s|, i requires 0 <= i < |s| => LowerChar(s[i]))
  }

  predicate HasUpper(s: string) {
    exists i :: 0 <= i < |s| && IsUpper(s[i])
  }

  // ------------------------------------------------------------- whitespace

  /**
   * The characters `trim` removes and the regular-expression class `\s`
   * matches: the white-space and line-terminator code points of ECMAScript.
   */
  predicate IsSpace(c: char) {
    var n := c as int;
    n == 0x09 || n == 0x0A || n == 0x0B || n == 0x0C || n == 0x0D || n == 0x20
    || n == 0xA0 || n == 0x1680 || (0x2000 <= n <= 0x200A) || n == 0x2028 || n == 0x2029
    || n == 0x202F || n == 0x205F || n == 0x3000 || n == 0xFEFF
  }

  /** `s.trimStart()` */
  function TrimStart(s: string): (r: string)
    ensures |r| <= |s| && r == s[|s| - |r|..]
    ensures forall i :: 0 <= i < |s| - |r| ==> IsSpace(s[i])
    ensures r == [] || !IsSpace(r[0])
  {
    if |s| > 0 && IsSpace(s[0]) then TrimStart(s[1..]) else s
  }

  /** `s.trimEnd()` */
  function TrimEnd(s: string): (r: string)
    ensures |r| <= |s| && r == s[..|r|]
    ensures forall i :: |r| <= i < |s| ==> IsSpace(s[i])
    ensures r == [] || !IsSpace(r[|r| - 1])
  {
    if |s| > 0 && IsSpace(s[|s| - 1]) then TrimEnd(s[..|s| - 1]) else s
  }

  /** `s.trim()` */
  function Trim(s: string): string {
    TrimEnd(TrimStart(s))
  }

  /** `s.trim()` is empty exactly when every character of `s` is white space. */
  lemma TrimEmptyIffBlank(s: string)
    ensures Trim(s) == [] <==> forall i :: 0 <= i < |s| ==> IsSpace(s[i])
  {
    var t := TrimStart(s);
    var u := TrimEnd(t);
    if u != [] {
      assert u[|u| - 1] == t[|u| - 1] == s[|s| - |t| + |u| - 1];
    }
  }

  // ---------------------------------------------------------------- numbers

  predicate IsDigit(c: char) { '0' <= c <= '9' }

  function DigitChar(d: nat): char
    requires d < 10
  {
    ('0' as int + d) as char
  }

  /** `String(n)` for a whole number: its decimal digits, most significant first. */
  function NatToString(n: nat): (r: string)
    ensures |r| > 0
    ensures forall i :: 0 <= i < |r| ==> IsDigit(r[i])
    decreases n
  {
    if n < 10 then [DigitChar(n)] else NatToString(n / 10) + [DigitChar(n % 10)]
  }

  /** `String(i)` for an integer: a minus sign exactly when it is negative. */
  function IntToString(i: int): (r: string)
    ensures |r| > 0 && (r[0] == '-' <==> i < 0)
    ensures forall k :: 0 < k < |r| ==> IsDigit(r[k])
  {
    if i < 0 then "-" + NatToString(-i) else NatToString(i)
  }

  /** The value of a digit in the bases up to 36 (`0-9`, `a-z`, `A-Z`); 36 for any other character. */
  function DigitValue(c: char): nat {
    if '0' <= c <= '9' then c as int - '0' as int
    else if 'a' <= c <= 'z' then c as int - 'a' as int + 10
    else if 'A' <= c <= 'Z' then c as int - 'A' as int + 10
    else 36
  }

  /** The length of the longest prefix of `s` made of digits of base `radix`. */
  function DigitRun(s: string, radix: nat): (n: nat)
    ensures n <= |s|
    ensures forall i :: 0 <= i < n ==> DigitValue(s[i]) < radix
    ensures n < |s| ==> DigitValue(s[n]) >= radix
  {
    if |s| > 0 && DigitValue(s[0]) < radix then 1 + DigitRun(s[1..], radix) else 0
  }

  /** The number the digits `ds` write in base `radix`, most significant first. */
  function DigitsValue(ds: string, radix: nat): nat
    requires forall i :: 0 <= i < |ds| ==> DigitValue(ds[i]) < radix
  {
    if |ds| == 0 then 0
    else
      var init := ds[..|ds| - 1];
      assert forall i :: 0 <= i < |init| ==> init[i] == ds[i];
      var high: nat := DigitsValue(init, radix);
      ProductNat(high, radix);
      high * radix + DigitValue(ds[|ds| - 1])
  }

  /** The product of two whole numbers is a whole number. */
  lemma ProductNat(a: nat, b: nat)
    ensures a * b >= 0
  {
  }

  /**
   * `parseInt(s)` with no radix argument: leading white space is skipped, then
   * an optional sign, then a `0x`/`0X` prefix selects base 16, then the longest
   * run of digits is read. `None` stands for `NaN` (no digit at all).
   */
  function ParseInt(s: string): Option<int> {
    var t := TrimStart(s);
    var u := if |t| > 0 && (t[0] == '-' || t[0] == '+') then t[1..] else t;
    match ParseMagnitude(u)
    case None => None
    case Some(v) => Some(if |t| > 0 && t[0] == '-' then -(v as int) else v as int)
  }

  /** The unsigned part of `parseInt`: an optional `0x`/`0X` prefix, then the longest run of digits. */
  function ParseMagnitude(u: string): Option<nat> {
    var hex := |u| >= 2 && u[0] == '0' && (u[1] == 'x' || u[1] == 'X');
    var radix := if hex then 16 else 10;
    var body := if hex then u[2..] else u;
    var n := DigitRun(body, radix);
    if n == 0 then None else Some(DigitsValue(body[..n], radix))
  }

  /**
   * `Number(s)` on the integer forms: surrounding white space is ignored, the
   * empty string is 0, a decimal integer may carry a sign, and `0x`, `0o`,
   * `0b` (either case) introduce unsigned bases 16, 8 and 2; the whole rest
   * must be digits. `None` stands for `NaN`.
   */
  function ToNumber(s: string): Option<int> {
    var t := Trim(s);
    if t == [] then Some(0)
    else if |t| >= 2 && t[0] == '0' && t[1] in "xXoObB" then
      var radix := if t[1] in "xX" then 16 else if t[1] in "oO" then 8 else 2;
      var body := t[2..];
      if |body| > 0 && DigitRun(body, radix) == |body| then Some(DigitsValue(body, radix)) else None
    else
      var body := if t[0] == '-' || t[0] == '+' then t[1..] else t;
      if |body| > 0 && DigitRun(body, 10) == |body| then
        var v: int := DigitsValue(body, 10);
        Some(if t[0] == '-' then -v else v)
      else None
  }

  lemma {:induction false} NatToStringValue(n: nat)
    ensures DigitRun(NatToString(n), 10) == |NatToString(n)|
    ensures DigitsValue(NatToString(n), 10) == n
    decreases n
  {
    var t := NatToString(n);
    if n >= 10 {
      NatToStringValue(n / 10);
      assert t[..|t| - 1] == NatToString(n / 10);
    }
  }

  /** A string that neither starts nor ends with white space is its own trim. */
  lemma TrimmedEnds(s: string)
    requires |s| > 0 && !IsSpace(s[0]) && !IsSpace(s[|s| - 1])
    ensures TrimStart(s) == s && Trim(s) == s
  {
  }

  /** The decimal form of an integer has no white space around it. */
  lemma IntToStringTrimmed(i: int)
    ensures TrimStart(IntToString(i)) == IntToString(i)
    ensures Trim(IntToString(i)) == IntToString(i)
  {
    var s := IntToString(i);
    var d := NatToString(if i < 0 then -i else i);
    assert s[0] == '-' || s[0] == d[0];
    assert s[|s| - 1] == d[|d| - 1];
    TrimmedEnds(s);
  }

  /** A digit is none of the letters that introduce a radix prefix. */
  lemma DigitNotRadixMark(c: char)
    requires IsDigit(c)
    ensures c !in "xXoObB"
  {
  }

  /** Reading back the decimal form of an integer with `parseInt` gives the integer. */
  lemma IntToStringParseInt(i: int)
    ensures ParseInt(IntToString(i)) == Some(i)
  {
    var s := IntToString(i);
    var m: nat := if i < 0 then -i else i;
    NatToStringMagnitude(m);
    IntToStringTrimmed(i);
    var u := if i < 0 then s[1..] else s;
    assert u == NatToString(m);
  }

  /** `parseInt` reads the whole decimal form of a whole number. */
  lemma NatToStringMagnitude(m: nat)
    ensures ParseMagnitude(NatToString(m)) == Some(m)
  {
    var d := NatToString(m);
    NatToStringValue(m);
    assert |d| >= 2 ==> IsDigit(d[1]);
    assert d[..|d|] == d;
  }

  /** Reading back the decimal form of an integer with `Number` gives the integer. */
  lemma IntToStringToNumber(i: int)
    ensures ToNumber(IntToString(i)) == Some(i)
  {
    var s := IntToString(i);
    var m: nat := if i < 0 then -i else i;
    NatToStringValue(m);
    IntToStringTrimmed(i);
    var d := NatToString(m);
    if |s| >= 2 {
      DigitNotRadixMark(s[1]);
    }
    var body := if s[0] == '-' then s[1..] else s;
    assert body == d;
  }

  /** Reading back the decimal form of an integer gives the integer, with `parseInt` and with `Number`. */
  lemma IntToStringRoundTrip(i: int)
    ensures ParseInt(IntToString(i)) == Some(i)
    ensures ToNumber(IntToString(i)) == Some(i)
  {
    IntToStringParseInt(i);
    IntToStringToNumber(i);
  }

  /** Distinct integers have distinct decimal forms. */
  lemma IntToStringInjective(i: int, j: int)
    requires IntToString(i) == IntToString(j)
    ensures i == j
  {
    IntToStringRoundTrip(i);
    IntToStringRoundTrip(j);
  }

  // -------------------------------------------------------------- sequences

  /** Where `slice` starts or stops for an argument `k` on a sequence of length `n`. */
  function SliceIndex(k: int, n: nat): (p: nat)
    ensures p <= n
    ensures 0 <= k ==> p == Min(k, n)
    ensures k < 0 ==> p == Max(n + k, 0)
  {
    if k < 0 then Max(n + k, 0) else Min(k, n)
  }

  /** `s.slice(start, end)` */
  function JsSlice<T>(s: seq<T>, start: int, end: int): (r: seq<T>)
    ensures |r| == Max(SliceIndex(end, |s|) - SliceIndex(start, |s|), 0)
    ensures forall i :: 0 <= i < |r| ==> r[i] == s[SliceIndex(start, |s|) + i]
  {
    var from := SliceIndex(start, |s|);
    var to := SliceIndex(end, |s|);
    if from < to then s[from..to] else []
  }

  /** `s.slice(0, k)`: the first `k` elements, or all but the last `-k` when `k` is negative. */
  function Take<T>(s: seq<T>, k: int): (r: seq<T>)
    ensures 0 <= k ==> r == s[..Min(k, |s|)]
    ensures k < 0 ==> r == s[..Max(|s| + k, 0)]
  {
    JsSlice(s, 0, k)
  }

  /** JavaScript's `a % b` for a positive divisor: the remainder has the sign of `a`. */
  function JsRem(a: int, b: int): (r: int)
    requires b > 0
    ensures 0 <= a ==> 0 <= r < b && r == a % b
    ensures a < 0 ==> -b < r <= 0
    ensures a == JsQuot(a, b) * b + r
  {
    if a >= 0 then a % b
    else
      var q, m := (-a) / b, (-a) % b;
      assert -a == q * b + m;
      assert (-q) * b == -(q * b);
      -m
  }

  /** The quotient `Math.trunc(a / b)`: rounded toward zero. */
  function JsQuot(a: int, b: int): int
    requires b > 0
  {
    if a >= 0 then a / b else -((-a) / b)
  }

  /** `Math.ceil(n / d)`: the least number of groups of `d` that hold `n` items. */
  function CeilDiv(n: nat, d: nat): (r: nat)
    requires d > 0
    ensures r * d >= n
    ensures r == 0 || (r - 1) * d < n
  {
    (n + d - 1) / d
  }
}
