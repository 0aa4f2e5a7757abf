/**
 * Decimal text of identifiers. A policy item's `Id` is a `json.Number`: the
 * identifier is carried as exact decimal text and never as a machine
 * integer, so identifiers of any size keep their value.
 */
module Decimal {
  import opened Wrappers

  /** A `json.Number`: a number kept as its text. */
  datatype Number = Number(text: string) {

    /** The text of the number, as `json.Number.String` returns it. */
    function String(): string {
      text
    }
  }

  predicate IsDigit(c: char) {
    '0' <= c <= '9'
  }

  predicate AllDigits(s: string) {
    forall i :: 0 <= i < |s| ==> IsDigit(s[i])
  }

  /** Non-empty decimal digits with no leading zero (except "0" itself). */
  predicate IsCanonical(s: string) {
    |s| > 0 && AllDigits(s) && (s[0] == '0' ==> |s| == 1)
  }

  function DigitValue(c: char): (d: nat)
    requires IsDigit(c)
    ensures d < 10
  {
    c as int - '0' as int
  }

  function DigitChar(d: nat): (c: char)
    requires d < 10
    ensures IsDigit(c) && DigitValue(c) == d
  {
    ('0' as int + d) as char
  }

  /** The value of a string of digits, most significant digit first. */
  function Value(s: string): nat
    requires AllDigits(s)
  {
    if s == [] then 0 else Value(s[..|s| - 1]) * 10 + DigitValue(s[|s| - 1])
  }

  /** Canonical decimal text of `n`. */
  function Show(n: nat): (s: string)
    ensures IsCanonical(s)
    ensures s == "0" <==> n == 0
  {
    if n < 10 then [DigitChar(n)] else Show(n / 10) + [DigitChar(n % 10)]
  }

  /** The number a decimal text denotes; absent when the text is empty or holds a non-digit. */
  function Parse(s: string): (r: Option<nat>)
    ensures r.Some? <==> |s| > 0 && AllDigits(s)
  {
    if |s| > 0 && AllDigits(s) then Some(Value(s)) else None
  }

  /** The number whose text is the canonical decimal of `n`. */
  function FromNat(n: nat): (x: Number)
    ensures IsCanonical(x.String())
  {
    Number(Show(n))
  }

  /** Reading back the decimal text of a number gives the number. */
  lemma {:induction false} ParseShow(n: nat)
    ensures Parse(Show(n)) == Some(n)
  {
    var s := Show(n);
    if n < 10 {
      assert s[..|s| - 1] == [];
    } else {
      ParseShow(n / 10);
      assert s[..|s| - 1] == Show(n / 10);
      assert Value(s) == (n / 10) * 10 + n % 10;
    }
  }

  /** A number a text of digits denotes is positive when its leading digit is not zero. */
  lemma {:induction false} ValuePositive(s: string)
    requires |s| > 0 && AllDigits(s) && s[0] != '0'
    ensures Value(s) > 0
  {
    if |s| > 1 {
      var p := s[..|s| - 1];
      assert p[0] == s[0];
      ValuePositive(p);
    }
  }

  /** Canonical decimal text survives a parse followed by a show: the codec is a bijection on it. */
  lemma {:induction false} ShowParse(s: string)
    requires IsCanonical(s)
    ensures Parse(s).Some? && Show(Parse(s).value) == s
  {
    if |s| > 1 {
      var p := s[..|s| - 1];
      assert p[0] == s[0];
      assert IsCanonical(p);
      ValuePositive(p);
      ShowParse(p);
      assert Value(s) / 10 == Value(p);
      assert Value(s) % 10 == DigitValue(s[|s| - 1]);
      assert s == p + [s[|s| - 1]];
    }
  }

  /** The number built from `n` reads back as `n`. */
  lemma FromNatRoundTrip(n: nat)
    ensures Parse(FromNat(n).String()) == Some(n)
  {
    ParseShow(n);
  }
}
