/**
 * String helpers shared by the extractor, the describer and the designer:
 * the handful of JavaScript string operations the components use
 * (includes, startsWith, toLowerCase, trim, substring, number-to-string
 * conversion, parseInt / parseFloat on digit strings and toFixed),
 * written out over seq<char>.
 */
module Text {

  datatype Option<+T> = None | Some(value: T)

  // ---------------------------------------------------------------------
  // Characters

  /** JavaScript's white space and line terminators: the regex class \s, and
      what String.prototype.trim removes. */
  predicate IsSpace(c: char) {
    var k := c as int;
    k == 0x20 || (0x09 <= k <= 0x0D) || k == 0xA0 || k == 0x1680
    || (0x2000 <= k <= 0x200A) || k == 0x2028 || k == 0x2029
    || k == 0x202F || k == 0x205F || k == 0x3000 || k == 0xFEFF
  }

  /** The regex class \d: ASCII digits only. */
  predicate IsDigit(c: char) {
    '0' <= c <= '9'
  }

  function DigitValue(c: char): (d: nat)
    requires IsDigit(c)
    ensures d < 10
  {
    c as int - '0' as int
  }

  function DigitChar(d: nat): (c: char)
    requires d < 10
    ensures IsDigit(c) && DigitValue(c) == d
  {
    ('0' as int + d) as char
  }

  /** ASCII lower-casing of one character. */
  function LowerChar(c: char): (r: char)
    ensures 'A' <= c <= 'Z' ==> r as int == c as int + 32
    ensures !('A' <= c <= 'Z') ==> r == c
  {
    if 'A' <= c <= 'Z' then (c as int + 32) as char else c
  }

  /** toLowerCase, restricted to ASCII letters. */
  function Lower(s: string): (r: string)
    ensures |r| == |s|
    ensures forall i :: 0 <= i < |s| ==> r[i] == LowerChar(s[i])
  {
    seq(|s|, i requires 0 <= i < |s| => LowerChar(s[i]))
  }

  // ---------------------------------------------------------------------
  // Substrings

  /** w occurs in s starting at index i. */
  predicate HasAt(s: string, i: nat, w: string) {
    i + |w| <= |s| && s[i..i + |w|] == w
  }

  /** String.prototype.includes. */
  predicate Contains(s: string, w: string) {
    exists i :: 0 <= i <= |s| && HasAt(s, i, w)
  }

  /** String.prototype.startsWith. */
  predicate StartsWith(s: string, p: string) {
    HasAt(s, 0, p)
  }

  /** String.prototype.endsWith. */
  predicate EndsWith(s: string, p: string) {
    |p| <= |s| && s[|s| - |p|..] == p
  }

  /** An occurrence of w inside an occurrence of v is an occurrence in s. */
  lemma ContainsInner(s: string, v: string, w: string, k: nat)
    requires Contains(s, v)
    requires HasAt(v, k, w)
    ensures Contains(s, w)
  {
    var i :| 0 <= i <= |s| && HasAt(s, i, v);
    forall j | 0 <= j < |w|
      ensures s[i + k + j] == w[j]
    {
      assert s[i + k + j] == s[i..i + |v|][k + j];
    }
    assert s[i + k..i + k + |w|] == w;
    assert HasAt(s, i + k, w);
  }

  lemma ContainsLeft(a: string, b: string, w: string)
    requires Contains(a, w)
    ensures Contains(a + b, w)
  {
    var i :| 0 <= i <= |a| && HasAt(a, i, w);
    assert (a + b)[i..i + |w|] == a[i..i + |w|];
    assert HasAt(a + b, i, w);
  }

  lemma ContainsRight(a: string, b: string, w: string)
    requires Contains(b, w)
    ensures Contains(a + b, w)
  {
    var i :| 0 <= i <= |b| && HasAt(b, i, w);
    assert (a + b)[|a| + i..|a| + i + |w|] == b[i..i + |w|];
    assert HasAt(a + b, |a| + i, w);
  }

  lemma StartsWithConcat(a: string, b: string, p: string)
    requires StartsWith(a, p)
    ensures StartsWith(a + b, p)
  {
    assert (a + b)[..|p|] == a[..|p|];
  }

  lemma EndsWithConcat(a: string, b: string)
    ensures EndsWith(a + b, b)
  {
    assert (a + b)[|a + b| - |b|..] == b;
  }

  lemma EndsWithTrans(a: string, b: string, c: string)
    requires EndsWith(a, b) && EndsWith(b, c)
    ensures EndsWith(a, c)
  {
    assert a[|a| - |c|..] == a[|a| - |b|..][|b| - |c|..];
  }

  lemma StartsWithTrans(a: string, b: string, c: string)
    requires StartsWith(a, b) && StartsWith(b, c)
    ensures StartsWith(a, c)
  {
    assert a[..|c|] == a[..|b|][..|c|];
  }

  /** Putting the same text in front of both sides keeps a prefix a prefix. */
  lemma StartsWithPrepend(a: string, b: string, c: string)
    requires StartsWith(b, c)
    ensures StartsWith(a + b, a + c)
  {
    assert (a + b)[..|a + c|] == a + b[..|c|];
  }

  lemma EndsWithContains(s: string, w: string)
    requires EndsWith(s, w)
    ensures Contains(s, w)
  {
    assert HasAt(s, |s| - |w|, w);
  }

  /** Appending the same text to both sides keeps a suffix a suffix. */
  lemma EndsWithAppend(a: string, b: string, c: string)
    requires EndsWith(a, b)
    ensures EndsWith(a + c, b + c)
  {
    assert (a + c)[|a + c| - |b + c|..] == a[|a| - |b|..] + c;
  }

  // ---------------------------------------------------------------------
  // trim and substring

  /** Index of the first character that is not white space, scanning from i. */
  function SkipSpaces(s: string, i: nat): (j: nat)
    requires i <= |s|
    ensures i <= j <= |s|
    ensures forall k :: i <= k < j ==> IsSpace(s[k])
    ensures j < |s| ==> !IsSpace(s[j])
    decreases |s| - i
  {
    if i < |s| && IsSpace(s[i]) then SkipSpaces(s, i + 1) else i
  }

  /** One past the last character of s[..j] that is not white space. */
  function TrailingStart(s: string, j: nat): (k: nat)
    requires j <= |s|
    ensures k <= j
    ensures forall m :: k <= m < j ==> IsSpace(s[m])
    ensures k > 0 ==> !IsSpace(s[k - 1])
  {
    if j > 0 && IsSpace(s[j - 1]) then TrailingStart(s, j - 1) else j
  }

  /** String.prototype.trim. */
  function Trim(s: string): (r: string)
    ensures |r| <= |s|
    ensures r != [] ==> !IsSpace(r[0]) && !IsSpace(r[|r| - 1])
    ensures r == [] <==> forall k :: 0 <= k < |s| ==> IsSpace(s[k])
  {
    var i := SkipSpaces(s, 0);
    var k := TrailingStart(s, |s|);
    if i < k then s[i..k] else []
  }

  /** s.substring(0, n). */
  function Prefix(s: string, n: nat): (r: string)
    ensures |r| <= n && |r| <= |s|
    ensures r == s[..|r|]
    ensures |s| <= n ==> r == s
  {
    if |s| <= n then s else s[..n]
  }

  // ---------------------------------------------------------------------
  // Integers to text and back

  function NatToString(n: nat): (r: string)
    ensures r != []
    ensures forall k :: 0 <= k < |r| ==> IsDigit(r[k])
  {
    if n < 10 then [DigitChar(n)] else NatToString(n / 10) + [DigitChar(n % 10)]
  }

  /** String(i) for an integer. */
  function IntToString(i: int): (r: string)
    ensures r != []
  {
    if i < 0 then "-" + NatToString(-i) else NatToString(i)
  }

  predicate AllDigits(s: string) {
    forall k :: 0 <= k < |s| ==> IsDigit(s[k])
  }

  /** The value of a run of decimal digits (parseInt on a digit string). */
  function DigitsValue(s: string): nat
    requires AllDigits(s)
  {
    if s == [] then 0 else DigitsValue(s[..|s| - 1]) * 10 + DigitValue(s[|s| - 1])
  }

  /** Reading back what NatToString wrote gives the number. */
  lemma {:induction false} NatToStringRoundTrip(n: nat)
    ensures DigitsValue(NatToString(n)) == n
  {
    var r := NatToString(n);
    if n >= 10 {
      NatToStringRoundTrip(n / 10);
      assert r[..|r| - 1] == NatToString(n / 10);
    } else {
      assert r[..|r| - 1] == [];
    }
  }

  lemma NatToStringInjective(m: nat, n: nat)
    requires NatToString(m) == NatToString(n)
    ensures m == n
  {
    NatToStringRoundTrip(m);
    NatToStringRoundTrip(n);
  }

  function Pow10(k: nat): (p: nat)
    ensures p >= 1
  {
    if k == 0 then 1 else 10 * Pow10(k - 1)
  }

  /** Value of "<ip>.<fp>" where both parts are digit strings. */
  function DecimalValue(ip: string, fp: string): real
    requires AllDigits(ip) && AllDigits(fp)
  {
    DigitsValue(ip) as real + DigitsValue(fp) as real / Pow10(|fp|) as real
  }

  // ---------------------------------------------------------------------
  // Number.prototype.toFixed and Number-to-string

  function Zeros(k: nat): (r: string)
    ensures |r| == k && AllDigits(r)
  {
    if k == 0 then [] else "0" + Zeros(k - 1)
  }

  /** x.toFixed(places) for |x| < 10^21: n is the integer for which
      n / 10^places is nearest to |x| (the larger one on a tie), written with
      exactly `places` digits after the point and a "-" when x < 0. */
  function Fixed(x: real, places: nat): (r: string)
  {
    var a := if x < 0.0 then -x else x;
    var n := (a * Pow10(places) as real + 0.5).Floor;
    var m := NatToString(n);
    var padded := if |m| <= places then Zeros(places + 1 - |m|) + m else m;
    (if x < 0.0 then "-" else "")
    + (if places == 0 then padded
       else padded[..|padded| - places] + "." + padded[|padded| - places..])
  }

  /** toFixed writes a minus sign or a digit first. */
  lemma FixedFirstChar(x: real, places: nat)
    ensures Fixed(x, places) != []
    ensures Fixed(x, places)[0] == '-' || IsDigit(Fixed(x, places)[0])
  {
    var a := if x < 0.0 then -x else x;
    var n := (a * Pow10(places) as real + 0.5).Floor;
    var m := NatToString(n);
    var padded := if |m| <= places then Zeros(places + 1 - |m|) + m else m;
    assert |padded| > places && IsDigit(padded[0]);
  }

  /** x.toFixed(1) for x >= 0 is the number of tenths n nearest to 10x
      written as "<n / 10>.<n % 10>", so it is within 0.05 of x. */
  lemma FixedOneDecimal(x: real)
    requires x >= 0.0
    ensures var n := (x * 10.0 + 0.5).Floor;
            n >= 0
            && Fixed(x, 1) == NatToString(n / 10) + "." + [DigitChar(n % 10)]
            && n as real / 10.0 - 0.05 <= x < n as real / 10.0 + 0.05
  {
    assert Pow10(1) == 10;
    var n := (x * 10.0 + 0.5).Floor;
    var m := NatToString(n);
    if n < 10 {
      assert m == [DigitChar(n)];
      assert Zeros(1) == "0";
      assert NatToString(n / 10) == "0";
      var padded := Zeros(1) + m;
      assert padded[..1] == "0" && padded[1..] == m;
    } else {
      assert m[..|m| - 1] == NatToString(n / 10);
      assert m[|m| - 1..] == [DigitChar(n % 10)];
    }
  }

  /** The digits of n padded to at least three, as toFixed(2) writes the
      number of hundredths n: the whole part, then the last two digits. */
  predicate CentsForm(n: nat) {
    var m := NatToString(n);
    var padded := if |m| <= 2 then Zeros(3 - |m|) + m else m;
    |padded| >= 3
    && padded[..|padded| - 2] == NatToString(n / 100)
    && padded[|padded| - 2..] == [DigitChar(n / 10 % 10), DigitChar(n % 10)]
  }

  lemma CentsDigits(n: nat)
    ensures CentsForm(n)
  {
    if n < 10 {
      CentsBelowTen(n);
    } else if n < 100 {
      CentsBelowHundred(n);
    } else {
      CentsFromHundred(n);
    }
  }

  lemma CentsBelowTen(n: nat)
    requires n < 10
    ensures CentsForm(n)
  {
    var tail := [DigitChar(0), DigitChar(n)];
    assert n / 10 % 10 == 0 && n % 10 == n && n / 100 == 0;
    assert NatToString(n) == [DigitChar(n)];
    assert Zeros(2) == [DigitChar(0), DigitChar(0)];
    var padded := Zeros(2) + NatToString(n);
    assert padded[..1] == [DigitChar(0)] && padded[1..] == tail;
  }

  lemma CentsBelowHundred(n: nat)
    requires 10 <= n < 100
    ensures CentsForm(n)
  {
    var tail := [DigitChar(n / 10), DigitChar(n % 10)];
    assert n / 10 % 10 == n / 10 && n / 10 < 10 && n / 100 == 0;
    assert NatToString(n) == NatToString(n / 10) + [DigitChar(n % 10)];
    assert NatToString(n) == tail;
    assert Zeros(1) == [DigitChar(0)];
    var padded := Zeros(1) + NatToString(n);
    assert padded[..1] == [DigitChar(0)] && padded[1..] == tail;
  }

  lemma CentsFromHundred(n: nat)
    requires n >= 100
    ensures CentsForm(n)
  {
    var q := n / 10;
    var tail := [DigitChar(q % 10), DigitChar(n % 10)];
    assert q >= 10 && q % 10 == n / 10 % 10 && q / 10 == n / 100;
    assert NatToString(q) == NatToString(n / 100) + [DigitChar(q % 10)];
    var m := NatToString(n);
    assert m == NatToString(n / 100) + tail;
    assert m[..|m| - 2] == NatToString(n / 100);
    assert m[|m| - 2..] == tail;
  }

  /** x.toFixed(2) for x >= 0 is the number of hundredths n nearest to
      100x written as "<n / 100>.<two digits>", so it is within 0.005 of x. */
  lemma FixedTwoDecimals(x: real)
    requires x >= 0.0
    ensures var n := (x * 100.0 + 0.5).Floor;
            n >= 0
            && Fixed(x, 2) == NatToString(n / 100) + "." + [DigitChar(n / 10 % 10), DigitChar(n % 10)]
            && n as real / 100.0 - 0.005 <= x < n as real / 100.0 + 0.005
  {
    assert Pow10(2) == 100;
    CentsDigits((x * 100.0 + 0.5).Floor);
  }

  /** Up to `fuel` further decimal digits of a fraction 0 <= f < 1, stopping
      when nothing remains. */
  function FractionDigits(f: real, fuel: nat): (r: string)
    requires 0.0 <= f < 1.0
    ensures AllDigits(r)
    decreases fuel
  {
    if fuel == 0 || f == 0.0 then []
    else
      var d := (f * 10.0).Floor;
      assert 0 <= d < 10;
      [DigitChar(d)] + FractionDigits(f * 10.0 - d as real, fuel - 1)
  }

  /** Number-to-string for a decimal with at most 20 digits after the point. */
  function NumberToString(x: real): (r: string)
    ensures r != [] && IsDigit(r[|r| - 1])
  {
    var a := if x < 0.0 then -x else x;
    var ip := a.Floor;
    var frac := FractionDigits(a - ip as real, 20);
    (if x < 0.0 then "-" else "")
    + NatToString(ip)
    + (if frac == [] then [] else "." + frac)
  }
}
