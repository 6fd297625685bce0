/** Go's `strconv.Atoi` on a 64-bit platform: an optional sign, then one or
    more decimal digits, with a value that fits in 64 bits. */
module Strconv {
  import opened Wrappers

  const MinInt64: int := -0x8000_0000_0000_0000
  const MaxInt64: int := 0x7fff_ffff_ffff_ffff

  predicate IsDigit(c: char)
  {
    '0' <= c <= '9'
  }

  predicate AllDigits(s: string)
  {
    forall i :: 0 <= i < |s| ==> IsDigit(s[i])
  }

  function DigitValue(c: char): nat
    requires IsDigit(c)
  {
    (c as int) - ('0' as int)
  }

  /** The value of a digit string read left to right, as the parse loop does. */
  function DecimalValue(s: string): nat
    requires AllDigits(s)
  {
    if s == [] then 0 else DecimalValue(s[..|s| - 1]) * 10 + DigitValue(s[|s| - 1])
  }

  /** The digits after an optional leading sign. */
  function Unsigned(s: string): string
  {
    if |s| > 0 && (s[0] == '-' || s[0] == '+') then s[1..] else s
  }

  /** The text Go's parser accepts before the range check: an optional
      sign followed by at least one decimal digit. */
  predicate WellFormed(s: string)
  {
    |Unsigned(s)| > 0 && AllDigits(Unsigned(s))
  }

  /** The number a well-formed text denotes, negated after a minus sign. */
  function SignedValue(s: string): int
    requires WellFormed(s)
  {
    var m: int := DecimalValue(Unsigned(s));
    if s[0] == '-' then -m else m
  }

  /** The error carries the input; whether Go reports a syntax or a range
      error is not distinguished. */
  function Atoi(s: string): (r: Result<int, string>)
    ensures r.Ok? <==> WellFormed(s) && MinInt64 <= SignedValue(s) <= MaxInt64
    ensures r.Ok? ==> r.value == SignedValue(s)
    ensures r.Err? ==> r.error == s
  {
    if |s| == 0 then Err(s)
    else
      var digits := if s[0] == '-' || s[0] == '+' then s[1..] else s;
      if |digits| == 0 || !AllDigits(digits) then Err(s)
      else
        var m: int := DecimalValue(digits);
        var v := if s[0] == '-' then -m else m;
        if v < MinInt64 || v > MaxInt64 then Err(s) else Ok(v)
  }

  /** Go accepts an explicit plus sign and leading zeros. */
  lemma AtoiAcceptsSignAndLeadingZeros()
    ensures Atoi("+5") == Ok(5) && Atoi("007") == Ok(7) && Atoi("-0") == Ok(0)
  {
    assert Unsigned("+5") == "5";
    assert Unsigned("-0") == "0";
    assert "007"[..2] == "00" && "00"[..1] == "0";
  }

  /** The shortest decimal rendering of a natural number. */
  function Digits(n: nat): (r: string)
    ensures |r| > 0 && AllDigits(r)
  {
    var d := ['0' + (n % 10) as char];
    if n < 10 then d else Digits(n / 10) + d
  }

  /** `strconv.Itoa`. */
  function Itoa(n: int): string
  {
    if n < 0 then "-" + Digits(-n) else Digits(n)
  }

  lemma {:induction false} DecimalValueOfDigits(n: nat)
    ensures DecimalValue(Digits(n)) == n
  {
    var s := Digits(n);
    if n >= 10 {
      DecimalValueOfDigits(n / 10);
      assert s[..|s| - 1] == Digits(n / 10);
    }
  }

  /** Atoi reads back what Itoa writes, for every 64-bit integer. */
  lemma AtoiItoa(n: int)
    requires MinInt64 <= n <= MaxInt64
    ensures Atoi(Itoa(n)) == Ok(n)
  {
    if n < 0 {
      var s := Itoa(n);
      assert s[1..] == Digits(-n);
      DecimalValueOfDigits(-n);
    } else {
      DecimalValueOfDigits(n);
    }
  }

  /** A sign alone, or any character outside the digits after the sign, is refused. */
  lemma AtoiRejectsNonNumbers(s: string, i: nat)
    requires 0 < i < |s| && !IsDigit(s[i])
    ensures Atoi(s).Err? && Atoi("-").Err? && Atoi("+").Err?
  {
    if s[0] == '-' || s[0] == '+' {
      assert Unsigned(s)[i - 1] == s[i];
    } else {
      assert Unsigned(s)[i] == s[i];
    }
  }
}
