/**
 * Decimal conversion of Go integers: `strconv.Atoi`, which reads the `:id`
 * route parameter, and `fmt.Sprintf("%d")`, which writes the id into a
 * redirect target.
 */
module Strconv {
  import opened Wrappers
  import opened Models

  predicate IsDigit(c: char) { '0' <= c <= '9' }

  predicate AllDigits(s: string) { forall i :: 0 <= i < |s| ==> IsDigit(s[i]) }

  function DigitValue(c: char): (d: nat)
    requires IsDigit(c)
    ensures d < 10
  {
    (c as int - '0' as int) as nat
  }

  function DigitChar(d: nat): (c: char)
    requires d < 10
    ensures IsDigit(c) && DigitValue(c) == d
  {
    ('0' as int + d) as char
  }

  /** The value of a string of decimal digits, most significant first. */
  function DigitsValue(s: string): nat
    requires AllDigits(s)
  {
    if s == [] then 0 else DigitsValue(s[..|s| - 1]) * 10 + DigitValue(s[|s| - 1])
  }

  /** The shortest decimal digits of n (no leading zeros, "0" for zero). */
  function NatDigits(n: nat): (s: string)
    decreases n
  {
    if n < 10 then [DigitChar(n)] else NatDigits(n / 10) + [DigitChar(n % 10)]
  }

  /** `fmt.Sprintf("%d", n)`. */
  function Itoa(n: int): string
  {
    if n < 0 then "-" + NatDigits(-n) else NatDigits(n)
  }

  /** The decimal syntax Go accepts for `int`: an optional sign, then one or more digits. */
  predicate IsDecimal(s: string)
  {
    (s != [] && AllDigits(s)) || (|s| >= 2 && (s[0] == '+' || s[0] == '-') && AllDigits(s[1..]))
  }

  /** The value a decimal string denotes, leading zeros and a sign on zero included. */
  function DecimalValue(s: string): int
    requires IsDecimal(s)
  {
    if AllDigits(s) then DigitsValue(s)
    else if s[0] == '-' then -(DigitsValue(s[1..]) as int)
    else DigitsValue(s[1..])
  }

  /**
   * `strconv.Atoi`: an optional sign followed by one or more decimal digits,
   * whose value fits Go's 64-bit `int`; anything else is an error (None).
   */
  function Atoi(s: string): (r: Option<int>)
    ensures r.Some? <==> IsDecimal(s) && InInt64(DecimalValue(s))
    ensures r.Some? ==> r.value == DecimalValue(s)
  {
    var signed := |s| > 0 && (s[0] == '-' || s[0] == '+');
    var digits := if signed then s[1..] else s;
    if digits == [] || !AllDigits(digits) then None
    else
      var v: int := DigitsValue(digits);
      var n := if s[0] == '-' then -v else v;
      if InInt64(n) then Some(n) else None
  }

  /** Go's readings of a plus sign, leading zeros and "-0". */
  lemma AtoiAccepts()
    ensures Atoi("+7") == Some(7) && Atoi("007") == Some(7) && Atoi("-0") == Some(0) && Atoi("-12") == Some(-12)
  {
    assert "007"[..2] == "00" && "00"[..1] == "0" && "0"[..0] == "";
    assert "-12"[1..] == "12" && "12"[..1] == "1" && "1"[..0] == "";
  }

  /** A bare sign, a doubled sign, a stray letter and a space are refused. */
  lemma AtoiRejects()
    ensures Atoi("") == None && Atoi("-") == None && Atoi("+-1") == None && Atoi("1a") == None && Atoi(" 1") == None
  {
    assert !IsDigit("1a"[1]) && !IsDigit("+-1"[1]) && !IsDigit(" 1"[0]);
  }

  lemma {:induction false} NatDigitsRoundTrip(n: nat)
    ensures NatDigits(n) != [] && AllDigits(NatDigits(n))
    ensures DigitsValue(NatDigits(n)) == n
    decreases n
  {
    var s := NatDigits(n);
    if n < 10 {
      assert s == [DigitChar(n)];
      assert s[..0] == [];
    } else {
      NatDigitsRoundTrip(n / 10);
      var p := NatDigits(n / 10);
      assert s == p + [DigitChar(n % 10)];
      assert s[..|s| - 1] == p;
    }
  }

  /** Writing an int with %d and reading it back with Atoi gives the int. */
  lemma ItoaAtoiRoundTrip(n: int)
    requires InInt64(n)
    ensures Atoi(Itoa(n)) == Some(n)
  {
    if n < 0 {
      NatDigitsRoundTrip(-n);
      var s := Itoa(n);
      assert s[0] == '-' && s[1..] == NatDigits(-n);
    } else {
      NatDigitsRoundTrip(n);
      var s := NatDigits(n);
      assert IsDigit(s[0]);
    }
  }

  /** %d output never contains a path separator, so it fits one path segment. */
  lemma ItoaIsSegment(n: int)
    ensures Itoa(n) != [] && '/' !in Itoa(n)
  {
    var m: nat := if n < 0 then -n else n;
    NatDigitsRoundTrip(m);
    var d := NatDigits(m);
    assert forall i :: 0 <= i < |d| ==> d[i] != '/' by {
      forall i | 0 <= i < |d| ensures d[i] != '/' { assert IsDigit(d[i]); }
    }
  }
}
