/** Amounts as they are printed to and read back from the payment gateway: integer cents, and decimal
    strings of yuan. */
module EpayAmount {
  import opened Numbers
  import opened Options

  const MAX_PARSED_CENTS := 99999999999

  predicate IsDigit(c: char) {
    '0' <= c <= '9'
  }

  predicate AllDigits(s: string) {
    forall k :: 0 <= k < |s| ==> IsDigit(s[k])
  }

  function DigitOf(d: nat): (c: char)
    requires d < 10
    ensures IsDigit(c) && c as int - '0' as int == d
  {
    '0' + d as char
  }

  function ValueOf(c: char): (d: nat)
    requires IsDigit(c)
    ensures d < 10 && DigitOf(d) == c
  {
    c as int - '0' as int
  }

  /** The decimal digits of a number, without leading zeros. */
  function Digits(n: nat): (s: string)
    ensures AllDigits(s) && s != ""
  {
    if n < 10 then [DigitOf(n)] else Digits(n / 10) + [DigitOf(n % 10)]
  }

  function Number(s: string): nat
    requires AllDigits(s)
  {
    if s == "" then 0 else 10 * Number(s[..|s|-1]) + ValueOf(s[|s|-1])
  }

  /** padStart of a number below 100. */
  function TwoDigits(n: nat): (s: string)
    requires n < 100
    ensures |s| == 2 && AllDigits(s)
  {
    [DigitOf(n / 10), DigitOf(n % 10)]
  }

  /** formatEpayAmount: None stands for the thrown error. */
  function Format(cents: int): Option<string> {
    if cents < 0 || MAX_SAFE_INTEGER < cents then None
    else Some(Digits(cents / 100) + "." + TwoDigits(cents % 100))
  }

  /** Where the first point is, or the end. */
  function Point(s: string): (k: nat)
    ensures k <= |s| && (k < |s| ==> s[k] == '.')
    ensures forall j :: 0 <= j < k ==> s[j] != '.'
  {
    if s == "" || s[0] == '.' then 0 else 1 + Point(s[1..])
  }

  function Yuan(s: string): string {
    s[..Point(s)]
  }

  function Fraction(s: string): string {
    if Point(s) == |s| then "" else s[Point(s) + 1..]
  }

  /** 0, or up to nine digits that do not begin with 0. */
  predicate IsYuan(s: string) {
    s == "0" || (1 <= |s| <= 9 && s[0] != '0' && AllDigits(s))
  }

  /** The pattern an amount must match. */
  predicate IsAmount(s: string) {
    IsYuan(Yuan(s)) && AllDigits(Fraction(s)) && (Point(s) < |s| ==> 1 <= |Fraction(s)| <= 2)
  }

  function PadEnd(s: string): (r: string)
    requires |s| <= 2 && AllDigits(s)
    ensures |r| == 2 && AllDigits(r) && forall i :: 0 <= i < 2 ==> r[i] == if i < |s| then s[i] else '0'
  {
    if |s| == 2 then s else if |s| == 1 then s + "0" else "00"
  }

  /** parseEpayAmount: None stands for the thrown error. */
  function Parse(s: string): Option<nat> {
    if !IsAmount(s) then None
    else
      var cents := Number(Yuan(s)) * 100 + Number(PadEnd(Fraction(s)));
      if MAX_SAFE_INTEGER < cents then None else Some(cents)
  }

  function Power(n: nat): (p: nat)
    ensures p > 0
  {
    if n == 0 then 1 else 10 * Power(n - 1)
  }

  lemma {:induction false} NumberBounds(s: string)
    requires AllDigits(s)
    ensures Number(s) < Power(|s|)
    ensures s != "" && s[0] != '0' ==> Power(|s| - 1) <= Number(s)
  {
    if s != "" {
      var front := s[..|s|-1];
      NumberBounds(front);
      if front == "" {
        assert ValueOf(s[0]) == 0 ==> s[0] == '0';
      } else {
        assert front[0] == s[0];
      }
    }
  }

  lemma {:induction false} DigitsReadBack(n: nat)
    ensures Number(Digits(n)) == n
    ensures Digits(n)[0] == '0' ==> n == 0 && Digits(n) == "0"
  {
    if n >= 10 {
      DigitsReadBack(n / 10);
      assert Digits(n)[..|Digits(n)|-1] == Digits(n / 10);
      assert Digits(n)[0] == Digits(n / 10)[0];
    } else {
      assert [DigitOf(n)][..0] == "";
    }
  }

  /** A number written without leading zeros is written in one way only. */
  lemma {:induction false} DigitsAreUnique(s: string)
    requires AllDigits(s) && s != "" && (s == "0" || s[0] != '0')
    ensures Digits(Number(s)) == s
  {
    var front, last := s[..|s|-1], s[|s|-1];
    assert s == front + [last];
    if front == "" {
      assert Number(front) == 0;
    } else {
      assert front[0] == s[0];
      DigitsAreUnique(front);
      NumberBounds(front);
      assert Number(s) / 10 == Number(front) && Number(s) % 10 == ValueOf(last);
      assert Number(front) >= Power(|front| - 1) >= 1;
    }
  }

  lemma PowersOfTen()
    ensures Power(9) == 1000000000 && Power(2) == 100
  {
    assert Power(3) == 1000 && Power(6) == 1000000;
  }

  lemma {:induction false} PowersGrow(m: nat, n: nat)
    requires m <= n
    ensures Power(m) <= Power(n)
  {
    if m < n {
      PowersGrow(m, n - 1);
    }
  }

  lemma NineDigits(n: nat)
    ensures |Digits(n)| <= 9 <==> n < 1000000000
  {
    var s := Digits(n);
    DigitsReadBack(n);
    NumberBounds(s);
    PowersOfTen();
    if |s| <= 9 {
      PowersGrow(|s|, 9);
    } else if s[0] != '0' {
      PowersGrow(9, |s| - 1);
    }
  }

  lemma PointIn(yuan: string, fraction: string)
    requires AllDigits(yuan) && AllDigits(fraction)
    ensures Point(yuan + "." + fraction) == |yuan|
  {
    var s := yuan + "." + fraction;
    assert s[|yuan|] == '.' && forall j :: 0 <= j < |yuan| ==> s[j] == yuan[j];
  }

  lemma TwoDigitsReadBack(n: nat)
    requires n < 100
    ensures Number(TwoDigits(n)) == n
  {
    var s := TwoDigits(n);
    assert s[..1] == [DigitOf(n / 10)] && s[..1][..0] == "";
    assert Number(s[..1]) == n / 10;
  }

  lemma TwoDigitsAreUnique(s: string)
    requires |s| == 2 && AllDigits(s)
    ensures Number(s) < 100 && TwoDigits(Number(s)) == s
  {
    assert s[..1][..0] == "";
    assert Number(s[..1]) == ValueOf(s[0]);
    assert Number(s) == 10 * ValueOf(s[0]) + ValueOf(s[1]);
  }

  /** A printed amount is read back as it was, up to the largest that nine digits of yuan can hold; above
      that the amount is printed, and refused when it is read. */
  lemma PrintedIsReadBack(cents: int)
    requires Format(cents).Some?
    ensures Parse(Format(cents).value) == if cents <= MAX_PARSED_CENTS then Some(cents) else None
  {
    var yuan, fraction := Digits(cents / 100), TwoDigits(cents % 100);
    var s := yuan + "." + fraction;
    PointIn(yuan, fraction);
    assert Yuan(s) == yuan && Fraction(s) == fraction;
    DigitsReadBack(cents / 100);
    NineDigits(cents / 100);
    TwoDigitsReadBack(cents % 100);
  }

  /** The two decimals written out. */
  function Canonical(s: string): string
    requires IsAmount(s)
  {
    Yuan(s) + "." + PadEnd(Fraction(s))
  }

  lemma CanonicalIsPrinted(s: string)
    requires Parse(s).Some?
    ensures Parse(s).value <= MAX_PARSED_CENTS
    ensures Format(Parse(s).value) == Some(Canonical(s))
  {
    hide Point, Number, Digits, PadEnd, TwoDigits, Power;
    var yuan, fraction := Yuan(s), PadEnd(Fraction(s));
    DigitsAreUnique(yuan);
    TwoDigitsAreUnique(fraction);
    NumberBounds(yuan);
    PowersOfTen();
    PowersGrow(|yuan|, 9);
  }

  /** An amount that is read is printed in one form: two decimals, the same yuan, the same value. */
  lemma ReadIsPrintedCanonically(s: string)
    requires Parse(s).Some?
    ensures Format(Parse(s).value) == Some(Canonical(s))
    ensures Parse(Canonical(s)) == Parse(s)
    ensures Canonical(s) == s <==> |Fraction(s)| == 2
  {
    CanonicalIsPrinted(s);
    PrintedIsReadBack(Parse(s).value);
    hide Number, Digits, Power, Parse, Format;
    if Point(s) < |s| {
      assert s == Yuan(s) + "." + Fraction(s);
    } else {
      assert s == Yuan(s);
    }
  }

  lemma DigitsValue(s: string)
    requires 1 <= |s| <= 2 && AllDigits(s)
    ensures Number(s) == if |s| == 1 then ValueOf(s[0]) else 10 * ValueOf(s[0]) + ValueOf(s[1])
  {
    assert s[..1][..0] == "";
  }

  lemma NoPointIn(yuan: string)
    requires AllDigits(yuan)
    ensures Point(yuan) == |yuan|
  {
    assert forall j :: 0 <= j < |yuan| ==> yuan[j] != '.';
  }

  /** The largest amount of the pattern is a safe integer. */
  lemma YuanFit(yuan: string)
    requires IsYuan(yuan)
    ensures Number(yuan) < 1000000000
  {
    NumberBounds(yuan);
    PowersOfTen();
    PowersGrow(|yuan|, 9);
  }

  lemma YuanIs(yuan: string)
    requires IsYuan(yuan)
    ensures Parse(yuan) == Some(100 * Number(yuan))
  {
    hide Number, Point, Power;
    NoPointIn(yuan);
    assert Yuan(yuan) == yuan && Fraction(yuan) == "";
    YuanFit(yuan);
    DigitsValue("00");
  }

  lemma DecimalsAre(yuan: string, decimals: string)
    requires IsYuan(yuan) && AllDigits(decimals)
    ensures |decimals| !in {1, 2} ==> Parse(yuan + "." + decimals) == None
    ensures |decimals| in {1, 2} ==>
              Parse(yuan + "." + decimals) == Some(Number(yuan) * 100 + Number(PadEnd(decimals)))
  {
    hide Number, Point, Power, PadEnd;
    var s := yuan + "." + decimals;
    PointIn(yuan, decimals);
    assert Yuan(s) == yuan && Fraction(s) == decimals;
    YuanFit(yuan);
    if |decimals| in {1, 2} { DigitsValue(PadEnd(decimals)); }
  }

  /** What an amount means, digit by digit: yuan alone are so many hundred cents, one decimal counts tens of
      cents, two decimals cents; no decimals after a point, or more than two, are refused. */
  lemma AmountIs(yuan: string, decimals: string)
    requires IsYuan(yuan) && AllDigits(decimals)
    ensures Parse(yuan) == Some(100 * Number(yuan))
    ensures Parse(yuan + "." + decimals)
            == if |decimals| == 1 then Some(100 * Number(yuan) + 10 * ValueOf(decimals[0]))
               else if |decimals| == 2 then
                 Some(100 * Number(yuan) + 10 * ValueOf(decimals[0]) + ValueOf(decimals[1]))
               else None
  {
    hide Number, Parse;
    YuanIs(yuan);
    DecimalsAre(yuan, decimals);
    if |decimals| in {1, 2} { DigitsValue(PadEnd(decimals)); }
  }

  /** The pattern of an amount whose yuan are its first k characters. */
  predicate Matches(s: string, k: nat) {
    && 1 <= k <= |s| && k <= 9
    && (forall j :: 0 <= j < k ==> IsDigit(s[j]))
    && (k > 1 ==> s[0] != '0')
    && (k < |s| ==> s[k] == '.' && k + 2 <= |s| <= k + 3 && forall j :: k < j < |s| ==> IsDigit(s[j]))
  }

  /** Exactly the strings of this pattern are read. */
  lemma ReadIffMatched(s: string)
    ensures Parse(s).Some? <==> exists k: nat :: Matches(s, k)
  {
    hide Number, Power;
    if IsAmount(s) {
      var k := Point(s);
      assert forall j :: 0 <= j < k ==> s[..k][j] == s[j];
      assert k < |s| ==> forall j :: k < j < |s| ==> s[j] == s[k + 1..][j - k - 1];
      assert Matches(s, k);
      if k < |s| {
        assert s == Yuan(s) + "." + Fraction(s);
        AmountIs(Yuan(s), Fraction(s));
      } else {
        assert s == Yuan(s);
        AmountIs(s, "");
      }
    } else if k: nat :| Matches(s, k) {
      assert Point(s) == k;
    }
  }

  /** Exactly the safe integers from 0 on are printed: the yuan without leading zeros, and two decimals. */
  lemma PrintIs(cents: int)
    ensures Format(cents).Some? <==> 0 <= cents <= 9007199254740991
    ensures Format(cents).Some? ==>
              exists yuan, decimals ::
                && Format(cents) == Some(yuan + "." + decimals) && AllDigits(yuan) && AllDigits(decimals)
                && yuan != "" && (yuan[0] == '0' ==> yuan == "0") && |decimals| == 2
                && 100 * Number(yuan) + 10 * ValueOf(decimals[0]) + ValueOf(decimals[1]) == cents
  {
    if Format(cents).Some? {
      DigitsReadBack(cents / 100);
      assert Format(cents) == Some(Digits(cents / 100) + "." + TwoDigits(cents % 100));
    }
  }

  lemma PartsAreUnique(a: string, b: string, c: string, d: string)
    requires AllDigits(a) && AllDigits(b) && AllDigits(c) && AllDigits(d) && a + "." + b == c + "." + d
    ensures a == c && b == d
  {
    hide Point;
    PointIn(a, b);
    PointIn(c, d);
    assert a == (a + "." + b)[..|a|] && c == (c + "." + d)[..|c|];
    assert b == (a + "." + b)[|a| + 1..] && d == (c + "." + d)[|c| + 1..];
  }

  /** Two strings mean the same amount exactly when they are printed alike: decimals apart, each amount has
      one spelling. */
  lemma AmountsHaveOneSpelling(s: string, t: string)
    requires Parse(s).Some? && Parse(t).Some?
    ensures Parse(s) == Parse(t) <==> Yuan(s) == Yuan(t) && PadEnd(Fraction(s)) == PadEnd(Fraction(t))
  {
    CanonicalIsPrinted(s);
    CanonicalIsPrinted(t);
    hide Point, Number, Digits, PadEnd, Format;
    if Parse(s) == Parse(t) {
      PartsAreUnique(Yuan(s), PadEnd(Fraction(s)), Yuan(t), PadEnd(Fraction(t)));
    }
  }
}
