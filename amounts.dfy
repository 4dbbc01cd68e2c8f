/**
 * Python's `float(text)` for the plain decimal notation ingredient amounts are written in:
 * surrounding white space, an optional sign, digits with an optional decimal point.
 */
module Amounts {
  import opened Text
  import opened Results

  predicate AllDigits(s: string) {
    forall i :: 0 <= i < |s| ==> IsDigit(s[i])
  }

  /** The value of a string of decimal digits; the empty string is 0. */
  function DigitsValue(ds: string): nat
    requires AllDigits(ds)
  {
    if ds == [] then 0
    else DigitsValue(ds[..|ds| - 1]) * 10 + (ds[|ds| - 1] as int - '0' as int)
  }

  /** Index of the first `c` in `s`, or `|s|` when there is none. */
  function IndexOfChar(s: string, c: char): (k: nat)
    ensures k <= |s|
    ensures k < |s| ==> s[k] == c
    ensures forall j :: 0 <= j < k ==> s[j] != c
  {
    if s == [] then 0 else if s[0] == c then 0 else 1 + IndexOfChar(s[1..], c)
  }

  /** The value of the digits after a decimal point: "25" is 0.25. */
  function Fraction(ds: string): real
    requires AllDigits(ds)
  {
    if ds == [] then 0.0
    else ((ds[0] as int - '0' as int) as real + Fraction(ds[1..])) / 10.0
  }

  /** The value of the digits `whole` before and `frac` after the point, when there is at least one. */
  function DecimalOf(whole: string, frac: string): Option<real> {
    if |whole| + |frac| > 0 && AllDigits(whole) && AllDigits(frac) then
      Some(DigitsValue(whole) as real + Fraction(frac))
    else
      None
  }

  /** Unsigned decimal: digits, optionally a point and more digits, with at least one digit. */
  function ParseDecimal(t: string): (r: Option<real>)
    ensures r.Some? ==> exists i :: 0 <= i < |t| && IsDigit(t[i])
  {
    var k := IndexOfChar(t, '.');
    var frac := if k < |t| then t[k + 1..] else "";
    assert DecimalOf(t[..k], frac).Some? ==> exists i :: 0 <= i < |t| && IsDigit(t[i]) by {
      if DecimalOf(t[..k], frac).Some? {
        if k > 0 {
          assert IsDigit(t[..k][0]);
        } else {
          assert IsDigit(frac[0]) && frac[0] == t[k + 1];
        }
      }
    }
    DecimalOf(t[..k], frac)
  }

  /**
   * `float(text)`; `None` where Python raises `ValueError`. White space around the number
   * is ignored, and a text without a digit (an empty or blank amount, a word) is refused.
   */
  function ParseAmount(text: string): (r: Option<real>)
    ensures r.Some? ==> exists i :: 0 <= i < |text| && IsDigit(text[i])
    decreases |text|
  {
    if |text| > 0 && IsSpace(text[0]) then
      var r := ParseAmount(text[1..]);
      assert r.Some? ==> exists i :: 0 <= i < |text| && IsDigit(text[i]) by {
        if r.Some? {
          var i :| 0 <= i < |text[1..]| && IsDigit(text[1..][i]);
          assert IsDigit(text[i + 1]);
        }
      }
      r
    else if |text| > 0 && IsSpace(text[|text| - 1]) then
      var r := ParseAmount(text[..|text| - 1]);
      assert r.Some? ==> exists i :: 0 <= i < |text| && IsDigit(text[i]) by {
        if r.Some? {
          var i :| 0 <= i < |text| - 1 && IsDigit(text[..|text| - 1][i]);
          assert IsDigit(text[i]);
        }
      }
      r
    else if |text| > 0 && text[0] == '-' then
      SignedAfter(text);
      match ParseDecimal(text[1..])
      case Some(v) => Some(-v)
      case None => None
    else if |text| > 0 && text[0] == '+' then
      SignedAfter(text);
      ParseDecimal(text[1..])
    else ParseDecimal(text)
  }

  /** A digit after the sign is a digit of the whole text. */
  lemma SignedAfter(text: string)
    requires |text| > 0
    ensures ParseDecimal(text[1..]).Some? ==> exists i :: 0 <= i < |text| && IsDigit(text[i])
  {
    if ParseDecimal(text[1..]).Some? {
      var i :| 0 <= i < |text[1..]| && IsDigit(text[1..][i]);
      assert IsDigit(text[i + 1]);
    }
  }

  /** Without a sign or surrounding white space, `float()` reads the decimal itself. */
  lemma ParseAmountUnsigned(t: string)
    requires |t| > 0 && IsDigit(t[0]) && !IsSpace(t[|t| - 1])
    ensures ParseAmount(t) == ParseDecimal(t)
  {
  }

  /** `w.f` with digit strings `w` and `f` reads as the whole number `w` plus the fraction `f`. */
  lemma ParseAmountDecimal(w: string, f: string)
    requires AllDigits(w) && AllDigits(f) && |w| > 0
    ensures ParseAmount(w + "." + f) ==
      Some(DigitsValue(w) as real + Fraction(f))
  {
    var t := w + "." + f;
    assert t[0] == w[0] && IsDigit(t[0]);
    assert t[|t| - 1] == '.' || IsDigit(t[|t| - 1]);
    ParseAmountUnsigned(t);
    DecimalPoint(w, f);
  }

  lemma DecimalPoint(w: string, f: string)
    requires AllDigits(w) && AllDigits(f) && |w| > 0
    ensures ParseDecimal(w + "." + f) ==
      Some(DigitsValue(w) as real + Fraction(f))
  {
    DotAfter(w, f);
    AroundDot(w, f);
    DecimalAt(w + "." + f, |w|, w, f);
  }

  lemma AroundDot(w: string, f: string)
    ensures (w + "." + f)[..|w|] == w && (w + "." + f)[|w| + 1..] == f
  {
    var t := w + "." + f;
    assert t[..|w|] == w;
    assert t[|w| + 1..] == f;
  }

  lemma DecimalAt(t: string, k: nat, w: string, f: string)
    requires IndexOfChar(t, '.') == k < |t| && t[..k] == w && t[k + 1..] == f
    ensures ParseDecimal(t) == DecimalOf(w, f)
  {
  }

  lemma DotAfter(w: string, f: string)
    requires AllDigits(w)
    ensures IndexOfChar(w + "." + f, '.') == |w|
  {
    var t := w + "." + f;
    assert t[|w|] == '.';
    assert forall j :: 0 <= j < |w| ==> t[j] == w[j] && t[j] != '.';
    IndexOfCharFirst(t, '.', |w|);
  }

  lemma {:induction false} IndexOfCharFirst(s: string, c: char, k: nat)
    requires k < |s| && s[k] == c && forall j :: 0 <= j < k ==> s[j] != c
    ensures IndexOfChar(s, c) == k
  {
    if k > 0 {
      IndexOfCharFirst(s[1..], c, k - 1);
    }
  }

  /** A run of digits reads as the whole number it spells. */
  lemma ParseAmountWhole(ds: string)
    requires |ds| > 0 && AllDigits(ds)
    ensures ParseAmount(ds) == Some(DigitsValue(ds) as real)
  {
    ParseAmountUnsigned(ds);
    DecimalWhole(ds);
  }

  lemma DecimalWhole(ds: string)
    requires |ds| > 0 && AllDigits(ds)
    ensures ParseDecimal(ds) == Some(DigitsValue(ds) as real)
  {
    var k := IndexOfChar(ds, '.');
    assert k == |ds|;
    assert ds[..k] == ds;
    assert Fraction("") == 0.0;
  }

  lemma ParseAmountHalf()
    ensures ParseAmount("0.5") == Some(0.5)
  {
    assert DigitsValue("0") == 0 by { assert "0"[..0] == ""; }
    assert DigitsValue("5") == 5 by { assert "5"[..0] == ""; }
    assert Fraction("5") == 0.5;
    ParseAmountDecimal("0", "5");
    assert "0" + "." + "5" == "0.5";
  }
}
