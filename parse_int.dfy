/**
 * `parseInt(s, 10)` and the `parseInt(...) || default` idiom. JavaScript's
 * parseInt skips leading white space, reads an optional sign and then the
 * longest run of decimal digits; with no digit the result is NaN, here `None`.
 */
module IntParsing {
  import opened Wrappers
  import opened JsText

  /** The longest prefix of `s` made of decimal digits. */
  function DigitRun(s: string): (ds: string)
    ensures |ds| <= |s| && ds == s[..|ds|]
    ensures forall i :: 0 <= i < |ds| ==> IsDigit(ds[i])
    ensures |ds| == |s| || !IsDigit(s[|ds|])
  {
    if s != [] && IsDigit(s[0]) then [s[0]] + DigitRun(s[1..]) else ""
  }

  /** The value of a string of decimal digits, most significant first. */
  function DecimalValue(ds: string): nat
    requires forall i :: 0 <= i < |ds| ==> IsDigit(ds[i])
  {
    if ds == [] then 0
    else 10 * DecimalValue(ds[..|ds| - 1]) + DigitOf(ds[|ds| - 1])
  }

  function DigitOf(c: char): nat
    requires IsDigit(c)
  {
    c as int - '0' as int
  }

  /** `parseInt(s, 10)`, with `None` for NaN. */
  function ParseInt(s: string): Option<int> {
    ParseSigned(TrimStart(s))
  }

  /** parseInt after the leading white space: an optional sign, then the digits. */
  function ParseSigned(t: string): Option<int> {
    if t != [] && (t[0] == '-' || t[0] == '+') then WithSign(t[0] == '-', DigitRun(t[1..]))
    else WithSign(false, DigitRun(t))
  }

  function WithSign(negative: bool, ds: string): Option<int>
    requires forall i :: 0 <= i < |ds| ==> IsDigit(ds[i])
  {
    if ds == [] then None
    else
      var magnitude: int := DecimalValue(ds);
      Some(if negative then -magnitude else magnitude)
  }

  /** `parseInt(s, 10) || fallback`: NaN and zero (also `-0`) are falsy and give the fallback. */
  function IntOr(parsed: Option<int>, fallback: int): (n: int)
    ensures n == fallback || (parsed == Some(n) && n != 0)
    ensures (parsed.None? || parsed == Some(0)) ==> n == fallback
    ensures parsed.Some? && parsed.value != 0 ==> n == parsed.value
    ensures fallback != 0 ==> n != 0
  {
    if parsed.None? || parsed.value == 0 then fallback else parsed.value
  }

  /** The canonical decimal text of a natural number. */
  function DecimalString(n: nat): (ds: string)
    ensures ds != [] && forall i :: 0 <= i < |ds| ==> IsDigit(ds[i])
    decreases n
  {
    var last := ['0' + (n % 10) as char];
    if n < 10 then last else DecimalString(n / 10) + last
  }

  lemma {:induction false} DecimalValueOfString(n: nat)
    ensures DecimalValue(DecimalString(n)) == n
    decreases n
  {
    var ds := DecimalString(n);
    if n >= 10 {
      DecimalValueOfString(n / 10);
      assert ds[..|ds| - 1] == DecimalString(n / 10);
    }
  }

  lemma {:induction false} DigitRunOfDigits(ds: string, rest: string)
    requires forall i :: 0 <= i < |ds| ==> IsDigit(ds[i])
    requires rest == [] || !IsDigit(rest[0])
    ensures DigitRun(ds + rest) == ds
  {
    if ds != [] {
      DigitRunOfDigits(ds[1..], rest);
      assert (ds + rest)[1..] == ds[1..] + rest;
    }
  }

  /** The decimal text of any integer, with a leading `-` when negative. */
  function IntString(n: int): string {
    if n < 0 then "-" + DecimalString(-n) else DecimalString(n)
  }

  /**
   * parseInt reads back the decimal text of any integer, whatever non-digit
   * text follows it (so `"2abc"` is 2 and `"10.5"` is 10).
   */
  lemma ParseIntOfIntString(n: int, rest: string)
    requires rest == [] || !IsDigit(rest[0])
    ensures ParseInt(IntString(n) + rest) == Some(n)
  {
    var m: nat := if n < 0 then -n else n;
    var ds := DecimalString(m);
    DecimalValueOfString(m);
    assert WithSign(n < 0, ds) == Some(n);
    if n < 0 {
      assert IntString(n) + rest == "-" + (ds + rest);
      ParseMinus(ds, rest);
    } else {
      assert IntString(n) + rest == ds + rest;
      ParseUnsigned(ds, rest);
    }
  }

  /** A run of digits followed by a non-digit reads as that run. */
  lemma ParseUnsigned(ds: string, rest: string)
    requires ds != [] && forall i :: 0 <= i < |ds| ==> IsDigit(ds[i])
    requires rest == [] || !IsDigit(rest[0])
    ensures ParseInt(ds + rest) == WithSign(false, ds)
  {
    DigitRunOfDigits(ds, rest);
    var s := ds + rest;
    NoSpaceNoTrim(s);
    assert s[0] != '-' && s[0] != '+';
    assert ParseSigned(s) == WithSign(false, ds);
  }

  /** A `-`, a run of digits and then a non-digit reads as the negated run. */
  lemma ParseMinus(ds: string, rest: string)
    requires ds != [] && forall i :: 0 <= i < |ds| ==> IsDigit(ds[i])
    requires rest == [] || !IsDigit(rest[0])
    ensures ParseInt("-" + (ds + rest)) == WithSign(true, ds)
  {
    DigitRunOfDigits(ds, rest);
    var s := "-" + (ds + rest);
    NoSpaceNoTrim(s);
    SignedMinus(ds + rest);
  }

  lemma SignedMinus(t: string)
    ensures ParseSigned("-" + t) == WithSign(true, DigitRun(t))
  {
    var s := "-" + t;
    assert s[0] == '-' && s[1..] == t;
  }

  lemma NoSpaceNoTrim(s: string)
    requires s != [] && (s[0] == '-' || IsDigit(s[0]))
    ensures TrimStart(s) == s
  {
    assert !IsJsSpace(s[0]);
  }

  /** Leading white space does not change the value parseInt reads. */
  lemma {:induction false} ParseIntSkipsSpace(sp: string, s: string)
    requires forall i :: 0 <= i < |sp| ==> IsJsSpace(sp[i])
    ensures ParseInt(sp + s) == ParseInt(s)
  {
    TrimStartSkips(sp, s);
  }

  lemma {:induction false} TrimStartSkips(sp: string, s: string)
    requires forall i :: 0 <= i < |sp| ==> IsJsSpace(sp[i])
    ensures TrimStart(sp + s) == TrimStart(s)
  {
    if sp != [] {
      var t := sp + s;
      assert t[1..] == sp[1..] + s;
      assert IsJsSpace(t[0]);
      TrimStartSkips(sp[1..], s);
    } else {
      assert sp + s == s;
    }
  }

  /**
   * NaN exactly when no digit follows the leading white space and at most one
   * sign: empty or blank text, a lone sign, or text such as `abc` or ` -x1`.
   */
  lemma ParseIntNaN(s: string)
    ensures ParseInt(s).None? <==>
              var t := TrimStart(s);
              var u := if t != [] && (t[0] == '-' || t[0] == '+') then t[1..] else t;
              u == [] || !IsDigit(u[0])
  {
  }

  /** An absent parameter reaches `parseInt` as the text `undefined`, which is NaN. */
  lemma UndefinedIsNaN()
    ensures ParseInt("undefined") == None
  {
    var u := "undefined";
    assert !IsJsSpace(u[0]);
    assert TrimStart(u) == u;
    ParseIntNaN(u);
  }
}
