/** Python's `int(text)` on a string (base 10), and the decimal form `str(n)` it inverts. */
module PyInt {
  import opened Wrappers

  /**
   * The white space `int()` ignores at both ends: the ASCII characters " \t\n\v\f\r" and the
   * non-ASCII characters for which `str.isspace()` holds. The ASCII separators U+001C to U+001F,
   * white space to `str.isspace()`, are not skipped by `int()` and make it fail.
   */
  predicate IsSpace(c: char) {
    c == ' ' || '\t' <= c <= '\r' || c == '\U{85}' || c == '\U{a0}'
    || c == '\U{1680}' || '\U{2000}' <= c <= '\U{200a}' || c == '\U{2028}' || c == '\U{2029}'
    || c == '\U{202f}' || c == '\U{205f}' || c == '\U{3000}'
  }

  predicate IsDigit(c: char) {
    '0' <= c <= '9'
  }

  function DigitValue(c: char): (d: nat)
    requires IsDigit(c)
    ensures d < 10
  {
    c as int - '0' as int
  }

  function DigitChar(d: nat): (c: char)
    requires d < 10
    ensures IsDigit(c) && DigitValue(c) == d
  {
    ('0' as int + d) as char
  }

  /** The text with the leading white space removed. */
  function TrimLeft(s: string): (r: string)
    ensures |r| <= |s| && r == s[|s| - |r|..]
    ensures r == [] || !IsSpace(r[0])
    ensures forall i {:trigger IsSpace(s[i])} :: 0 <= i < |s| - |r| ==> IsSpace(s[i])
  {
    if s != [] && IsSpace(s[0]) then
      var r := TrimLeft(s[1..]);
      assert s[1..][|s| - 1 - |r|..] == s[|s| - |r|..];
      assert forall i :: 1 <= i < |s| - |r| ==> s[i] == s[1..][i - 1];
      r
    else s
  }

  /** The text with the trailing white space removed. */
  function TrimRight(s: string): (r: string)
    ensures |r| <= |s| && r == s[..|r|]
    ensures r == [] || !IsSpace(r[|r| - 1])
    ensures forall i {:trigger IsSpace(s[i])} :: |r| <= i < |s| ==> IsSpace(s[i])
  {
    if s != [] && IsSpace(s[|s| - 1]) then TrimRight(s[..|s| - 1]) else s
  }

  function Strip(s: string): string {
    TrimRight(TrimLeft(s))
  }

  /**
   * Digits as `int()` accepts them after the sign: at least one digit, and a single
   * underscore allowed only between two digits.
   */
  predicate ValidDigits(b: string) {
    |b| > 0 && IsDigit(b[0]) && DigitsOrUnderscores(b)
    && forall i :: 0 <= i < |b| && b[i] == '_' ==> i + 1 < |b| && IsDigit(b[i + 1])
  }

  predicate DigitsOrUnderscores(b: string) {
    forall i :: 0 <= i < |b| ==> IsDigit(b[i]) || b[i] == '_'
  }

  /** The number the digits denote, underscores being ignored. */
  function DigitsValue(b: string): nat
    requires DigitsOrUnderscores(b)
  {
    if b == [] then 0
    else if b[|b| - 1] == '_' then DigitsValue(b[..|b| - 1])
    else 10 * DigitsValue(b[..|b| - 1]) + DigitValue(b[|b| - 1])
  }

  /** A sign and digits, or digits alone, with no white space around them. */
  function ParseSigned(t: string): (r: Option<int>)
    ensures r.Some? <==> ValidDigits(t) || (|t| > 0 && (t[0] == '-' || t[0] == '+') && ValidDigits(t[1..]))
  {
    if |t| > 0 && (t[0] == '-' || t[0] == '+') then
      if ValidDigits(t[1..]) then
        var v: int := DigitsValue(t[1..]);
        Some(if t[0] == '-' then -v else v)
      else None
    else if ValidDigits(t) then Some(DigitsValue(t))
    else None
  }

  /**
   * `int(s)`: the text without its surrounding white space, parsed; `None` where Python
   * raises `ValueError`. Non-ASCII decimal digits, which Python also accepts, are not part
   * of this model.
   */
  function ParseInt(s: string): (r: Option<int>)
    ensures (forall i :: 0 <= i < |s| ==> !IsSpace(s[i])) ==> r == ParseSigned(s)
  {
    if forall i :: 0 <= i < |s| ==> !IsSpace(s[i]) then StripNone(s); ParseSigned(Strip(s))
    else ParseSigned(Strip(s))
  }

  /** Text without white space is left as it is by the stripping. */
  lemma StripNone(s: string)
    requires forall i :: 0 <= i < |s| ==> !IsSpace(s[i])
    ensures Strip(s) == s
  {
    if s != [] {
      assert !IsSpace(s[0]) && !IsSpace(s[|s| - 1]);
      StripPlain(s);
    }
  }

  /** `str(n)` for a natural number. */
  function ShowNat(n: nat): (r: string)
    ensures |r| > 0
  {
    if n < 10 then [DigitChar(n)] else ShowNat(n / 10) + [DigitChar(n % 10)]
  }

  /** `str(n)`: the decimal form, with a leading `-` for negative numbers. */
  function Show(n: int): string {
    if n < 0 then "-" + ShowNat(-n) else ShowNat(n)
  }

  lemma {:induction false} ShowNatDigits(n: nat)
    ensures forall i :: 0 <= i < |ShowNat(n)| ==> IsDigit(ShowNat(n)[i])
    ensures ValidDigits(ShowNat(n)) && DigitsValue(ShowNat(n)) == n
  {
    if n >= 10 {
      ShowNatDigits(n / 10);
      var s := ShowNat(n);
      assert s[..|s| - 1] == ShowNat(n / 10);
    }
  }

  lemma StripPlain(s: string)
    requires s != [] && !IsSpace(s[0]) && !IsSpace(s[|s| - 1])
    ensures Strip(s) == s
  {
    assert TrimLeft(s) == s;
  }

  /** Plain digits parse to the number they denote. */
  lemma ParseDigits(d: string)
    requires ValidDigits(d)
    ensures ParseSigned(d) == Some(DigitsValue(d))
  {
    assert IsDigit(d[0]);
  }

  /** A minus sign before plain digits negates the number they denote. */
  lemma ParseNegative(t: string)
    requires |t| > 0 && t[0] == '-' && ValidDigits(t[1..])
    ensures ParseSigned(t) == Some(-(DigitsValue(t[1..]) as int))
  {
  }

  /** `int(str(n)) == n`: the decimal form of every integer parses back to it. */
  lemma ParseShow(n: int)
    ensures ParseInt(Show(n)) == Some(n)
  {
    var m: nat := if n < 0 then -n else n;
    ShowNatDigits(m);
    var d := ShowNat(m);
    assert IsDigit(d[0]) && IsDigit(d[|d| - 1]);
    if n < 0 {
      var s := "-" + d;
      assert s[1..] == d && s[|s| - 1] == d[|d| - 1];
      StripPlain(s);
      ParseNegative(s);
    } else {
      StripPlain(d);
      ParseDigits(d);
    }
  }

  /** A character of the input that is no white space stays in the stripped text. */
  lemma StripKeeps(s: string, i: nat)
    requires i < |s| && !IsSpace(s[i])
    ensures exists k :: 0 <= k < |Strip(s)| && Strip(s)[k] == s[i]
  {
    var l := TrimLeft(s);
    var off := |s| - |l|;
    assert i >= off;
    assert l[i - off] == s[i];
    var r := TrimRight(l);
    assert i - off < |r|;
    assert r == Strip(s);
    assert r[i - off] == l[i - off];
  }

  /**
   * A character that is neither an ASCII digit, an underscore, a sign nor white space makes
   * `int()` raise `ValueError` (non-ASCII decimal digits are outside this model).
   */
  lemma ParseRejectsForeign(s: string, i: nat)
    requires i < |s|
    requires !IsDigit(s[i]) && s[i] != '_' && s[i] != '+' && s[i] != '-' && !IsSpace(s[i])
    ensures ParseInt(s) == None
  {
    StripKeeps(s, i);
    var t := Strip(s);
    var k :| 0 <= k < |t| && t[k] == s[i];
    if |t| > 0 && (t[0] == '-' || t[0] == '+') {
      assert k > 0;
      assert t[1..][k - 1] == t[k];
      assert !DigitsOrUnderscores(t[1..]);
    } else {
      assert !DigitsOrUnderscores(t);
    }
  }
}
