/**
  * Decimal integer parsing as the gradebook uses it: Go's strconv.Atoi on a
  * 64-bit platform, where `int` is 64 bits wide.
  *
  * Atoi accepts an optional leading '+' or '-' followed by one or more ASCII
  * decimal digits (leading zeros allowed, no underscores, no spaces), and
  * fails when the text is anything else or when the value does not fit in a
  * 64-bit signed integer. Itoa, the shortest decimal text of an integer, is
  * the rendering Atoi is checked against.
  */
module Strconv {

  datatype Option<+T> = None | Some(value: T)

  /** Bounds of Go's `int` on a 64-bit platform. */
  const MinInt: int := -0x8000_0000_0000_0000
  const MaxInt: int := 0x7FFF_FFFF_FFFF_FFFF

  predicate IsDigit(c: char) {
    '0' <= c <= '9'
  }

  predicate AllDigits(s: string) {
    forall i :: 0 <= i < |s| ==> IsDigit(s[i])
  }

  function DigitValue(c: char): nat
    requires IsDigit(c)
  {
    c as int - '0' as int
  }

  /** The value of a run of decimal digits, most significant digit first. */
  function DecimalValue(ds: string): nat
    requires AllDigits(ds)
  {
    if ds == [] then 0 else DecimalValue(ds[..|ds| - 1]) * 10 + DigitValue(ds[|ds| - 1])
  }

  predicate HasSign(s: string) {
    |s| > 0 && (s[0] == '+' || s[0] == '-')
  }

  /** The text after the optional sign. */
  function Magnitude(s: string): string {
    if HasSign(s) then s[1..] else s
  }

  /** strconv.Atoi: Some(value) on success, None for a syntax or range error. */
  function Atoi(s: string): (r: Option<int>)
    ensures r.Some? ==> MinInt <= r.value <= MaxInt
    ensures r.Some? ==> Magnitude(s) != [] && AllDigits(Magnitude(s))
    ensures r.Some? && r.value < 0 ==> s[0] == '-'
  {
    var ds := Magnitude(s);
    if ds == [] || !AllDigits(ds) then None
    else
      var v: int := if s[0] == '-' then -(DecimalValue(ds) as int) else DecimalValue(ds);
      if MinInt <= v <= MaxInt then Some(v) else None
  }

  function DigitChar(d: nat): char
    requires d < 10
  {
    ('0' as int + d) as char
  }

  /** Shortest decimal digits of n. */
  function Digits(n: nat): string
    decreases n
  {
    if n < 10 then [DigitChar(n)] else Digits(n / 10) + [DigitChar(n % 10)]
  }

  /** The shortest decimal text of n, with '-' for a negative n. */
  function Itoa(n: int): string {
    if n < 0 then "-" + Digits(-n) else Digits(n)
  }

  lemma {:induction false} DigitsValue(n: nat)
    ensures |Digits(n)| > 0 && AllDigits(Digits(n))
    ensures DecimalValue(Digits(n)) == n
    decreases n
  {
    if n >= 10 {
      DigitsValue(n / 10);
      var ds := Digits(n);
      assert ds[..|ds| - 1] == Digits(n / 10);
    }
  }

  /**
    * Every 64-bit integer survives a round trip through its decimal text;
    * the text of any integer outside that range is a range error.
    */
  lemma AtoiItoa(n: int)
    ensures Atoi(Itoa(n)) == if MinInt <= n <= MaxInt then Some(n) else None
  {
    var s := Itoa(n);
    if n < 0 {
      var ds := Digits(-n);
      DigitsValue(-n);
      assert s == "-" + ds;
      assert s[0] == '-' && HasSign(s);
      assert Magnitude(s) == ds;
    } else {
      var ds := Digits(n);
      DigitsValue(n);
      assert s == ds && IsDigit(s[0]);
      assert Magnitude(s) == ds;
    }
  }

  /**
    * Atoi fails on empty text, on a bare sign, and whenever some character
    * other than a leading sign is not a decimal digit.
    */
  lemma AtoiRejects(s: string)
    ensures s == [] || s == "+" || s == "-" ==> Atoi(s) == None
    ensures (exists j :: 0 <= j < |s| && !IsDigit(s[j]) && !(j == 0 && HasSign(s))) ==> Atoi(s) == None
  {
    if j :| 0 <= j < |s| && !IsDigit(s[j]) && !(j == 0 && HasSign(s)) {
      if HasSign(s) {
        assert Magnitude(s)[j - 1] == s[j];
      } else {
        assert Magnitude(s)[j] == s[j];
      }
    }
  }

  /** A lone digit parses to its value. */
  lemma AtoiSingleDigit(c: char)
    requires IsDigit(c)
    ensures Atoi([c]) == Some(DigitValue(c))
  {
    assert !HasSign([c]) && Magnitude([c]) == [c] && AllDigits([c]);
    assert [c][..0] == [];
    assert DecimalValue([c]) == DigitValue(c) <= 9;
  }
}
