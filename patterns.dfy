/** The regular expressions the payment pages and the payment routes share, written
    as predicates over strings, and the exact reading of an amount that matches the
    two-decimals pattern as a whole number of cents. */
module Patterns {
  import opened Base
  import opened Text

  /** `/^\d{10,12}$/` */
  predicate IsAccountNumber(s: string)
  {
    10 <= |s| <= 12 && AllDigits(s)
  }

  /** `/^[A-Z]{6}[A-Z0-9]{2}([A-Z0-9]{3})?$/`: six letters, then two or five letters
      or digits (a loose ISO 9362 BIC layout). */
  predicate IsSwiftCode(s: string)
  {
    && (|s| == 8 || |s| == 11)
    && (forall i :: 0 <= i < 6 ==> IsUpper(s[i]))
    && (forall i :: 6 <= i < |s| ==> IsUpperOrDigit(s[i]))
  }

  /** `/^[A-Z]{3}$/` */
  predicate IsCurrencyCode(s: string)
  {
    |s| == 3 && forall i :: 0 <= i < 3 ==> IsUpper(s[i])
  }

  /** `/^\d+(\.\d{1,2})?$/`: a whole part of digits, optionally a point and one or two
      more digits. */
  predicate IsAmountText(s: string)
  {
    || (s != [] && AllDigits(s))
    || (exists k :: 0 < k < |s| && s[k] == '.' && AllDigits(s[..k])
                    && 1 <= |s| - k - 1 <= 2 && AllDigits(s[k + 1..]))
  }

  /** The position of the decimal point of an amount text, if it has one. */
  function PointAt(s: string): (r: Option<nat>)
    ensures r.Some? ==> r.value < |s| && s[r.value] == '.' && forall i :: 0 <= i < r.value ==> s[i] != '.'
    ensures r.None? ==> forall i :: 0 <= i < |s| ==> s[i] != '.'
  {
    if s == [] then None
    else if s[0] == '.' then Some(0)
    else match PointAt(s[1..])
      case None => None
      case Some(k) => Some(k + 1)
  }

  /** A point preceded only by digits is the first point. */
  lemma PointAtFirstDot(s: string, j: nat)
    requires j < |s| && s[j] == '.' && AllDigits(s[..j])
    ensures PointAt(s) == Some(j)
  {
    assert forall i :: 0 <= i < j ==> s[..j][i] == s[i];
  }

  /** The value in cents of a text matching the amount pattern; None for any other text.
      One decimal digit counts tens of cents. */
  function AmountCents(s: string): (r: Option<nat>)
    ensures r.Some? <==> IsAmountText(s)
  {
    match PointAt(s)
    case None =>
      if s != [] && AllDigits(s) then Some(DigitsValue(s) * 100) else None
    case Some(k) =>
      var whole, frac := s[..k], s[k + 1..];
      if k > 0 && AllDigits(whole) && 1 <= |frac| <= 2 && AllDigits(frac)
      then Some(DigitsValue(whole) * 100 + (if |frac| == 1 then DigitsValue(frac) * 10 else DigitsValue(frac)))
      else
        assert !IsAmountText(s) by {
          forall j | 0 < j < |s| && s[j] == '.' && AllDigits(s[..j])
            ensures !(1 <= |s| - j - 1 <= 2 && AllDigits(s[j + 1..]))
          {
            PointAtFirstDot(s, j);
          }
          assert !AllDigits(s) by { assert !IsDigit(s[k]); }
        }
        None
  }

  /** Two decimal digits for the cents part, zero-padded. */
  function TwoDigits(n: nat): (r: string)
    requires n < 100
    ensures |r| == 2 && AllDigits(r) && DigitsValue(r) == n
  {
    var r := [DigitChar(n / 10), DigitChar(n % 10)];
    assert r[..1] == [DigitChar(n / 10)] && r[..1][..0] == [];
    assert DigitsValue(r[..1]) == n / 10;
    r
  }

  /** An amount written with exactly two decimals, as the form lets a user type it. */
  function FormatCents(c: nat): (r: string)
    ensures IsAmountText(r)
  {
    var whole, frac := NatToDecimal(c / 100), TwoDigits(c % 100);
    var r := whole + "." + frac;
    assert r[|whole|] == '.' && r[..|whole|] == whole && r[|whole| + 1..] == frac;
    r
  }

  /** Reading a formatted amount back gives the same number of cents. */
  lemma {:induction false} CentsRoundTrip(c: nat)
    ensures AmountCents(FormatCents(c)) == Some(c)
  {
    var whole, frac := NatToDecimal(c / 100), TwoDigits(c % 100);
    var r := FormatCents(c);
    assert r == whole + "." + frac;
    assert forall i :: 0 <= i < |whole| ==> r[i] == whole[i] && r[i] != '.';
    assert r[|whole|] == '.';
    assert PointAt(r) == Some(|whole|);
    assert r[..|whole|] == whole && r[|whole| + 1..] == frac;
    DecimalRoundTrip(c / 100);
  }

  lemma TenFold(n: nat)
    requires n > 0
    ensures NatToDecimal(n * 10) == NatToDecimal(n) + "0"
  {
    assert (n * 10) / 10 == n && (n * 10) % 10 == 0;
  }

  lemma MillionDecimal()
    ensures NatToDecimal(1000000) == "1000000"
  {
    TenFold(1);
    TenFold(10);
    TenFold(100);
    TenFold(1000);
    TenFold(10000);
    TenFold(100000);
  }

  /** The smallest amount the forms accept, in cents. */
  lemma SmallestAmount()
    ensures AmountCents("0.01") == Some(1)
  {
    CentsRoundTrip(1);
    assert TwoDigits(1) == "01";
  }

  /** The largest amount the forms accept, in cents. */
  lemma LargestAmount()
    ensures AmountCents("1000000.00") == Some(100000000)
  {
    var c: nat := 100000000;
    CentsRoundTrip(c);
    MillionDecimal();
    assert c / 100 == 1000000 && c % 100 == 0;
    var w, f := NatToDecimal(c / 100), TwoDigits(c % 100);
    assert w == "1000000";
    assert f == "00";
    assert FormatCents(c) == w + "." + f;
    assert w + "." + f == "1000000.00";
  }

  /** One cent above the largest amount. */
  lemma JustAboveLargestAmount()
    ensures AmountCents("1000000.01") == Some(100000001)
  {
    var c: nat := 100000001;
    CentsRoundTrip(c);
    MillionDecimal();
    assert c / 100 == 1000000 && c % 100 == 1;
    var w, f := NatToDecimal(c / 100), TwoDigits(c % 100);
    assert w == "1000000";
    assert f == "01";
    assert FormatCents(c) == w + "." + f;
    assert w + "." + f == "1000000.01";
  }

  /** A whole number reads as hundreds of cents and a single decimal digit as tens;
      a point with no digits on either side, or three decimals, do not match. */
  lemma AmountShapes()
    ensures AmountCents("0") == Some(0)
    ensures AmountCents("1.5") == Some(150)
    ensures AmountCents("1.") == None && AmountCents(".5") == None && AmountCents("1.234") == None
  {
    assert PointAt("0") == None;
    assert DigitsValue("0") == 0 by { assert "0"[..0] == []; }
    var s := "1.5";
    PointAtFirstDot(s, 1);
    assert s[..1] == "1" && s[2..] == "5";
    assert DigitsValue("1") == 1 by { assert "1"[..0] == []; }
    assert DigitsValue("5") == 5 by { assert "5"[..0] == []; }
    PointAtFirstDot("1.", 1);
    PointAtFirstDot(".5", 0);
    PointAtFirstDot("1.234", 1);
    assert "1.234"[2..] == "234";
  }

  /** The SWIFT pattern on the example the form shows, on an eleven-character code, and
      on codes that are too short or in lower case. */
  lemma SwiftExamples()
    ensures IsSwiftCode("ABSAZAJJ") && IsSwiftCode("ABSAZAJJ123")
    ensures !IsSwiftCode("ABSAZAJ") && !IsSwiftCode("absazajj") && !IsSwiftCode("ABSAZAJJ1")
  {
    assert !IsUpper("absazajj"[0]);
  }
}
