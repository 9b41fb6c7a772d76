/** Decimal SOQ figures and shors. */
module Amounts {

  datatype Option<T> = None | Some(value: T)

  const SHORS_PER_SOQ := 100_000_000
  const MAX_INT64 := 0x7fff_ffff_ffff_ffff

  predicate Digit(c: char) {
    '0' <= c <= '9'
  }

  predicate Digits(s: string) {
    forall k | 0 <= k < |s| :: Digit(s[k])
  }

  function DigitValue(c: char): int {
    c as int - '0' as int
  }

  /** The number a string of digits spells. */
  function Num(s: string): int {
    if s == "" then 0 else 10 * Num(s[..|s| - 1]) + DigitValue(s[|s| - 1])
  }

  function Pow10(n: nat): nat {
    if n == 0 then 1 else 10 * Pow10(n - 1)
  }

  // ----- What is accepted -----

  /** An integer with no point, or one followed by a point and one to eight
      more digits. */
  ghost predicate IsFigure(s: string, whole: string, frac: string) {
    && whole != "" && Digits(whole) && Digits(frac) && |frac| <= 8
    && s == if frac == "" then whole else whole + "." + frac
  }

  /** Its value in shors. */
  function Shors(whole: string, frac: string): int
    requires |frac| <= 8
  {
    Num(whole) * SHORS_PER_SOQ + Num(frac) * Pow10(8 - |frac|)
  }

  lemma NumMore(s: string, c: char)
    ensures Num(s + [c]) == 10 * Num(s) + DigitValue(c)
  {
    assert (s + [c])[..|s|] == s;
  }

  lemma NumFour(a: char, b: char, c: char, d: char, s: string)
    ensures Num(s + [a, b, c, d]) ==
              10000 * Num(s) + 1000 * DigitValue(a) + 100 * DigitValue(b) + 10 * DigitValue(c) + DigitValue(d)
  {
    NumMore(s, a);
    NumMore(s + [a], b);
    NumMore(s + [a] + [b], c);
    NumMore(s + [a] + [b] + [c], d);
    assert s + [a, b, c, d] == s + [a] + [b] + [c] + [d];
  }

  lemma DigitsInOrder(d: nat)
    requires d < 10
    ensures DigitValue("0123456789"[d]) == d
  {
  }

  /** One more than a float64 can hold exactly, which is read exactly. */
  lemma PastFloat()
    ensures IsFigure("90071992.54740993", "90071992", "54740993")
    ensures Shors("90071992", "54740993") == 9_007_199_254_740_993
  {
    NumFour('9', '0', '0', '7', "");
    NumFour('1', '9', '9', '2', "9007");
    NumFour('5', '4', '7', '4', "");
    NumFour('0', '9', '9', '3', "5474");
    assert "" + "9007" == "9007" && "9007" + "1992" == "90071992";
    assert "" + "5474" == "5474" && "5474" + "0993" == "54740993";
    assert "90071992" + "." + "54740993" == "90071992.54740993";
  }

  /** The first point, or the length. */
  function Point(s: string): (k: nat)
    ensures k <= |s| && (k < |s| ==> s[k] == '.') && forall j | 0 <= j < k :: s[j] != '.'
  {
    if s == "" then 0 else if s[0] == '.' then 0 else 1 + Point(s[1..])
  }

  lemma PointOf(s: string, k: nat)
    requires k <= |s| && (k < |s| ==> s[k] == '.') && forall j | 0 <= j < k :: s[j] != '.'
    ensures Point(s) == k
  {
  }

  /** A figure splits in one way. */
  lemma FigureSplits(s: string, whole: string, frac: string)
    requires IsFigure(s, whole, frac)
    ensures Point(s) == |whole| && whole == s[..|whole|]
    ensures frac == if |whole| == |s| then "" else s[|whole| + 1..]
  {
    assert forall j | 0 <= j < |whole| :: s[j] == whole[j] && Digit(whole[j]);
    assert |whole| < |s| ==> s[|whole|] == '.';
    PointOf(s, |whole|);
  }

  lemma {:induction false} NumBounds(s: string)
    requires Digits(s)
    ensures 0 <= Num(s) < Pow10(|s|)
  {
    if s != "" {
      NumBounds(s[..|s| - 1]);
    }
  }

  /** More digits never spell less. */
  lemma {:induction false} NumGrows(s: string, k: nat)
    requires Digits(s) && k <= |s|
    ensures Num(s[..k]) <= Num(s)
    decreases |s| - k
  {
    if k < |s| {
      NumGrows(s, k + 1);
      NumBounds(s[..k]);
      assert s[..k + 1][..k] == s[..k];
    } else {
      assert s[..k] == s;
    }
  }

  // ----- The parser -----

  method FindPoint(s: string) returns (k: nat)
    ensures k == Point(s)
  {
    k := 0;
    while k < |s| && s[k] != '.'
      invariant k <= |s| && forall j | 0 <= j < k :: s[j] != '.'
    {
      k := k + 1;
    }
    PointOf(s, k);
  }

  /** The integer part; every intermediate value fits in 64 bits. */
  method ReadWhole(whole: string) returns (r: Option<int>)
    ensures r.Some? <==> Digits(whole) && Num(whole) <= MAX_INT64
    ensures r.Some? ==> r.value == Num(whole) >= 0
  {
    var soq := 0;
    for k := 0 to |whole|
      invariant Digits(whole[..k]) && 0 <= soq == Num(whole[..k]) <= MAX_INT64
    {
      assert whole[..k + 1][..k] == whole[..k];
      if !Digit(whole[k]) {
        return None;
      }
      var d := DigitValue(whole[k]);
      if soq > (MAX_INT64 - d) / 10 {
        if Digits(whole) {
          NumGrows(whole, k + 1);
        }
        return None;
      }
      soq := soq * 10 + d;
    }
    assert whole[..|whole|] == whole;
    return Some(soq);
  }

  /** The fraction, filled up to eight digits. */
  method ReadFraction(frac: string) returns (r: Option<int>)
    requires |frac| <= 8
    ensures r.Some? <==> Digits(frac)
    ensures r.Some? ==> r.value == Num(frac) * Pow10(8 - |frac|) && 0 <= r.value < SHORS_PER_SOQ
  {
    var shors := 0;
    for k := 0 to 8
      invariant k <= |frac| ==> Digits(frac[..k]) && shors == Num(frac[..k])
      invariant k > |frac| ==> Digits(frac) && shors == Num(frac) * Pow10(k - |frac|)
    {
      shors := shors * 10;
      if k < |frac| {
        assert frac[..k + 1][..k] == frac[..k];
        if !Digit(frac[k]) {
          return None;
        }
        shors := shors + DigitValue(frac[k]);
      } else {
        assert frac[..|frac|] == frac;
        FillUp(Num(frac), k - |frac|);
      }
    }
    assert frac[..|frac|] == frac;
    assert Digits(frac) && shors == Num(frac) * Pow10(8 - |frac|);
    FractionBound(frac);
    return Some(shors);
  }

  lemma FillUp(n: int, k: nat)
    ensures n * Pow10(k) * 10 == n * Pow10(k + 1) && n * Pow10(0) == n
  {
    assert n * (10 * Pow10(k)) == n * Pow10(k) * 10;
  }

  lemma {:induction false} Pow10Adds(a: nat, b: nat)
    ensures Pow10(a + b) == Pow10(a) * Pow10(b) && Pow10(b) >= 1
  {
    if b > 0 {
      Pow10Adds(a, b - 1);
      assert Pow10(a) * (10 * Pow10(b - 1)) == 10 * (Pow10(a) * Pow10(b - 1));
    }
  }

  lemma Pow10Eight()
    ensures Pow10(8) == SHORS_PER_SOQ
  {
    assert Pow10(2) == 100 && Pow10(4) == 10000;
    assert Pow10(6) == 1000000;
  }

  lemma FractionBound(frac: string)
    requires Digits(frac) && |frac| <= 8
    ensures 0 <= Num(frac) * Pow10(8 - |frac|) < SHORS_PER_SOQ
  {
    NumBounds(frac);
    Pow10Adds(|frac|, 8 - |frac|);
    Pow10Eight();
    Below(Num(frac), Pow10(|frac|), Pow10(8 - |frac|));
  }

  lemma {:induction false} Below(a: int, b: int, p: int)
    requires 0 <= a < b && p >= 1
    ensures 0 <= a * p < b * p
    decreases p
  {
    if p > 1 {
      Below(a, b, p - 1);
      assert a * p == a * (p - 1) + a && b * p == b * (p - 1) + b;
    }
  }

  /** ParseSOQ: what it makes of the two parts. */
  method ParseParts(whole: string, frac: string) returns (r: Option<int>)
    requires |frac| <= 8
    ensures r.Some? <==> whole != "" && Digits(whole) && Digits(frac) && Shors(whole, frac) <= MAX_INT64
    ensures r.Some? ==> r.value == Shors(whole, frac)
  {
    if whole == "" {
      return None;
    }
    var soq := ReadWhole(whole);
    if Digits(whole) && Digits(frac) {
      FractionBound(frac);
      NumBounds(whole);
    }
    if soq.None? {
      return None;
    }
    if soq.value > MAX_INT64 / SHORS_PER_SOQ {
      return None;
    }
    var shors := soq.value * SHORS_PER_SOQ;
    var fracShors := ReadFraction(frac);
    if fracShors.None? {
      return None;
    }
    if shors > MAX_INT64 - fracShors.value {
      return None;
    }
    return Some(shors + fracShors.value);
  }

  /** Accepts exactly the figures whose value fits in 64 bits, and gives that
      value. */
  method ParseSOQ(s: string) returns (r: Option<int>)
    ensures r.Some? <==> exists whole, frac :: IsFigure(s, whole, frac) && Shors(whole, frac) <= MAX_INT64
    ensures forall whole, frac | IsFigure(s, whole, frac) &&
            Shors(whole, frac) <= MAX_INT64 :: r == Some(Shors(whole, frac))
  {
    var whole, frac := s, "";
    var i := FindPoint(s);
    forall w, f | IsFigure(s, w, f) ensures w == s[..i] && f == if i == |s| then "" else s[i + 1..] {
      FigureSplits(s, w, f);
    }
    if i < |s| {
      whole, frac := s[..i], s[i + 1..];
      if frac == "" || |frac| > 8 {
        NoFigure(s, i);
        return None;
      }
      assert s == whole + "." + frac;
    }
    assert i == |s| ==> s[..i] == s;
    r := ParseParts(whole, frac);
    if r.Some? {
      assert IsFigure(s, whole, frac);
    }
  }

  lemma NoFigure(s: string, i: nat)
    requires i == Point(s) < |s| && (s[i + 1..] == "" || |s[i + 1..]| > 8)
    ensures forall w, f :: !IsFigure(s, w, f)
  {
    forall w, f ensures !IsFigure(s, w, f) {
      if IsFigure(s, w, f) {
        FigureSplits(s, w, f);
        assert false;
      }
    }
  }

  // ----- The printer -----

  function DigitChar(d: int): char
    requires 0 <= d < 10
  {
    ('0' as int + d) as char
  }

  /** Exactly `k` digits. */
  function Fixed(n: nat, k: nat): (s: string)
    ensures |s| == k && Digits(s)
  {
    if k == 0 then "" else Fixed(n / 10, k - 1) + [DigitChar(n % 10)]
  }

  function Decimal(n: nat): (s: string)
    ensures s != "" && Digits(s)
  {
    if n < 10 then [DigitChar(n)] else Decimal(n / 10) + [DigitChar(n % 10)]
  }

  function Printed(shors: nat): string {
    Decimal(shors / SHORS_PER_SOQ) + "." + Fixed(shors % SHORS_PER_SOQ, 8)
  }

  lemma {:induction false} NumFixed(n: nat, k: nat)
    requires n < Pow10(k)
    ensures Num(Fixed(n, k)) == n
  {
    if k > 0 {
      NumFixed(n / 10, k - 1);
      assert Fixed(n, k)[..k - 1] == Fixed(n / 10, k - 1);
    }
  }

  lemma {:induction false} NumDecimal(n: nat)
    ensures Num(Decimal(n)) == n
  {
    if n < 10 {
      assert Decimal(n)[..0] == "";
    } else {
      NumDecimal(n / 10);
      assert Decimal(n)[..|Decimal(n)| - 1] == Decimal(n / 10);
    }
  }

  /** What is printed is a figure worth what was printed, so the parser gives it
      back for every amount that fits in 64 bits. */
  lemma PrintedParses(shors: nat)
    ensures var whole, frac := Decimal(shors / SHORS_PER_SOQ), Fixed(shors % SHORS_PER_SOQ, 8);
            IsFigure(Printed(shors), whole, frac) && Shors(whole, frac) == shors
  {
    Pow10Eight();
    NumDecimal(shors / SHORS_PER_SOQ);
    NumFixed(shors % SHORS_PER_SOQ, 8);
  }

  method ParsePrinted(shors: nat) returns (r: Option<int>)
    requires shors <= MAX_INT64
    ensures r == Some(shors)
  {
    PrintedParses(shors);
    r := ParseSOQ(Printed(shors));
  }
}
