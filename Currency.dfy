/** Price formatting: `formatINR` turns an optional price in rupees into the
    display string "₹" followed by the price's decimal digits, or into no
    string when the price is absent. The price travels as a Candid `Nat`, so
    it is never negative. */
module Currency {

  import opened Wrappers

  /** The Indian rupee sign, U+20B9, the one character in front of the digits. */
  const Rupee: char := '\U{20B9}'

  predicate IsDigit(c: char) {
    '0' <= c <= '9'
  }

  predicate AllDigits(s: string) {
    forall i :: 0 <= i < |s| ==> IsDigit(s[i])
  }

  /** The form `bigint.prototype.toString()` gives a non-negative number:
      at least one digit, and no leading zero unless the whole string is "0". */
  predicate IsCanonicalDecimal(s: string) {
    |s| >= 1 && AllDigits(s) && (s[0] == '0' ==> s == "0")
  }

  function DigitChar(d: nat): (c: char)
    requires d < 10
    ensures IsDigit(c) && c as int - '0' as int == d
  {
    "0123456789"[d]
  }

  function DigitValue(c: char): (d: nat)
    requires IsDigit(c)
    ensures d < 10 && DigitChar(d) == c
  {
    c as int - '0' as int
  }

  /** Number of decimal digits of `n` (zero has one digit). */
  function NumDigits(n: nat): (k: nat)
    ensures k >= 1
    ensures n < 10 <==> k == 1
  {
    if n < 10 then 1 else 1 + NumDigits(n / 10)
  }

  function Pow10(e: nat): (r: nat)
    ensures r >= 1
  {
    if e == 0 then 1 else 10 * Pow10(e - 1)
  }

  /** `NumDigits(n)` is the number of decimal digits in the usual sense:
      n lies below 10^k and, unless it is zero, at or above 10^(k-1). */
  lemma {:induction false} NumDigitsBounds(n: nat)
    ensures n < Pow10(NumDigits(n))
    ensures n >= 1 ==> Pow10(NumDigits(n) - 1) <= n
  {
    if n >= 10 {
      NumDigitsBounds(n / 10);
    }
  }

  /** Decimal rendering of a non-negative integer, most significant digit first. */
  function Decimal(n: nat): (s: string)
    ensures IsCanonicalDecimal(s)
    ensures |s| == NumDigits(n)
    ensures s[0] == '0' <==> n == 0
  {
    if n < 10 then [DigitChar(n)] else Decimal(n / 10) + [DigitChar(n % 10)]
  }

  /** Value of a string of decimal digits (the reference reading of a decimal). */
  function DigitsValue(s: string): nat
    requires AllDigits(s)
  {
    if s == [] then 0 else 10 * DigitsValue(s[..|s| - 1]) + DigitValue(s[|s| - 1])
  }

  /** formatCurrency.ts `formatINR`: an absent price (undefined or null) gives
      no string; a present price, zero included, gives "₹" and its digits. */
  function FormatINR(priceInINR: Option<nat>): (r: Option<string>)
    ensures r.Some? <==> priceInINR.Some?
    ensures r.Some? ==> |r.value| == 1 + NumDigits(priceInINR.value)
    ensures r.Some? ==> r.value[0] == Rupee && IsCanonicalDecimal(r.value[1..])
  {
    match priceInINR
    case None => None
    case Some(p) => Some([Rupee] + Decimal(p))
  }

  /** The reader of formatted prices: strips the rupee sign and reads the
      digits, refusing anything `FormatINR` cannot produce. */
  function ParseINR(s: string): (r: Option<nat>)
    ensures r.Some? ==> |s| >= 2 && s[0] == Rupee
  {
    if |s| >= 2 && s[0] == Rupee && IsCanonicalDecimal(s[1..])
    then Some(DigitsValue(s[1..]))
    else None
  }

  /** Reading back a rendered number gives the number. */
  lemma {:induction false} DigitsValueOfDecimal(n: nat)
    ensures DigitsValue(Decimal(n)) == n
  {
    var s := Decimal(n);
    if n < 10 {
      assert s[..|s| - 1] == [];
    } else {
      assert s[..|s| - 1] == Decimal(n / 10);
      DigitsValueOfDecimal(n / 10);
    }
  }

  /** A digit string with a non-zero first digit has a positive value. */
  lemma {:induction false} DigitsValuePositive(s: string)
    requires |s| >= 1 && AllDigits(s) && s[0] != '0'
    ensures DigitsValue(s) > 0
  {
    if |s| > 1 {
      DigitsValuePositive(s[..|s| - 1]);
    }
  }

  /** Rendering the value of a canonical digit string gives that string back:
      the canonical form is the only spelling `Decimal` produces. */
  lemma {:induction false} DecimalOfDigitsValue(s: string)
    requires IsCanonicalDecimal(s)
    ensures Decimal(DigitsValue(s)) == s
  {
    var n := DigitsValue(s);
    if |s| == 1 {
      assert s[..0] == [];
    } else {
      var init := s[..|s| - 1];
      var d := DigitValue(s[|s| - 1]);
      DigitsValuePositive(init);
      assert n == 10 * DigitsValue(init) + d;
      assert n / 10 == DigitsValue(init) && n % 10 == d;
      DecimalOfDigitsValue(init);
      assert s == init + [s[|s| - 1]];
    }
  }

  /** A price of zero is formatted, not treated as absent. */
  lemma ZeroIsFormatted()
    ensures FormatINR(Some(0)) == Some([Rupee, '0'])
  {
    assert Decimal(0) == ['0'];
    assert [Rupee] + Decimal(0) == [Rupee, '0'];
  }

  /** 199 is formatted as "₹199". */
  lemma OneNinetyNine()
    ensures FormatINR(Some(199)) == Some([Rupee, '1', '9', '9'])
  {
    assert DigitChar(1) == '1' && DigitChar(9) == '9';
    assert Decimal(1) == "1";
    assert Decimal(19) == "19";
    assert Decimal(199) == "199";
    assert [Rupee] + Decimal(199) == [Rupee, '1', '9', '9'];
  }

  /** Round trip: the reader recovers every formatted price. */
  lemma ParseFormatted(p: nat)
    ensures ParseINR(FormatINR(Some(p)).value) == Some(p)
  {
    var s := FormatINR(Some(p)).value;
    assert s[1..] == Decimal(p);
    DigitsValueOfDecimal(p);
  }

  /** The other direction: every string the reader accepts is the formatting
      of the price it reads. */
  lemma FormatParsed(s: string)
    requires ParseINR(s).Some?
    ensures FormatINR(ParseINR(s)) == Some(s)
  {
    DecimalOfDigitsValue(s[1..]);
    assert [Rupee] + s[1..] == s;
  }

  /** Distinct prices give distinct strings. */
  lemma FormatINRInjective(p: nat, q: nat)
    requires FormatINR(Some(p)) == FormatINR(Some(q))
    ensures p == q
  {
    ParseFormatted(p);
    ParseFormatted(q);
  }
}
