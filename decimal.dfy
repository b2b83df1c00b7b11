/**
 * Decimal conversions between integers and strings, as the subscriber uses them for the
 * "retries" attribute: `strconv.Atoi` to read a count and `strconv.Itoa` to write one.
 * Integers are unbounded here: Atoi's clamping of out-of-range numerals is not modelled.
 */
module Decimal {
  import opened Wrappers

  predicate IsDigit(c: char) {
    '0' <= c <= '9'
  }

  function DigitValue(c: char): (d: nat)
    requires IsDigit(c)
    ensures d < 10
  {
    c as int - '0' as int
  }

  function DigitChar(d: nat): (c: char)
    requires d < 10
    ensures IsDigit(c) && DigitValue(c) == d
  {
    ('0' as int + d) as char
  }

  /** A numeral as Atoi accepts it: an optional '+' or '-' sign followed by one or more decimal digits. */
  predicate IsNumeral(s: string) {
    var start := if |s| > 0 && (s[0] == '+' || s[0] == '-') then 1 else 0;
    start < |s| && forall i | start <= i < |s| :: IsDigit(s[i])
  }

  /**
   * The value of a run of digits, read from left to right as Atoi's loop does
   * (each digit multiplies the value so far by ten and adds itself);
   * None when the run is empty or holds a non-digit.
   */
  function DigitsValue(s: string): Option<nat> {
    if |s| == 0 || !IsDigit(s[|s| - 1]) then None
    else if |s| == 1 then Some(DigitValue(s[0]))
    else match DigitsValue(s[..|s| - 1])
      case None => None
      case Some(v) => Some(10 * v + DigitValue(s[|s| - 1]))
  }

  /** strconv.Atoi on unbounded integers: None stands for its syntax error. Only a '-' sign gives a negative value. */
  function Atoi(s: string): (r: Option<int>)
    ensures r.Some? ==> |s| > 0 && (r.value < 0 ==> s[0] == '-')
  {
    if |s| == 0 then None
    else if s[0] == '-' then
      match DigitsValue(s[1..])
      case None => None
      case Some(v) => Some(0 - v as int)
    else if s[0] == '+' then
      match DigitsValue(s[1..])
      case None => None
      case Some(v) => Some(v)
    else
      match DigitsValue(s)
      case None => None
      case Some(v) => Some(v)
  }

  /** The shortest digit string of a natural number. */
  function NatDigits(n: nat): (s: string)
    decreases n
  {
    if n < 10 then [DigitChar(n)] else NatDigits(n / 10) + [DigitChar(n % 10)]
  }

  /** strconv.Itoa: a numeral that Atoi accepts, signed with '-' exactly when n is negative. */
  function Itoa(n: int): (r: string)
    ensures IsNumeral(r) && (r[0] == '-' <==> n < 0)
  {
    var m := if n < 0 then -n else n;
    NatDigitsAreDigits(m);
    var r := if n < 0 then "-" + NatDigits(m) else NatDigits(m);
    assert n < 0 ==> forall i | 1 <= i < |r| :: r[i] == NatDigits(m)[i - 1];
    r
  }

  lemma {:induction false} NatDigitsAreDigits(n: nat)
    ensures |NatDigits(n)| > 0
    ensures forall i | 0 <= i < |NatDigits(n)| :: IsDigit(NatDigits(n)[i])
    decreases n
  {
    if n >= 10 {
      NatDigitsAreDigits(n / 10);
    }
  }

  /** Reading back the digits of n yields n. */
  lemma {:induction false} DigitsValueOfNatDigits(n: nat)
    ensures DigitsValue(NatDigits(n)) == Some(n)
    decreases n
  {
    if n >= 10 {
      var p := NatDigits(n / 10);
      var s := NatDigits(n);
      NatDigitsAreDigits(n / 10);
      assert s == p + [DigitChar(n % 10)];
      assert s[..|s| - 1] == p;
      DigitsValueOfNatDigits(n / 10);
    }
  }

  /** Round trip: Atoi reads back exactly the integer Itoa wrote, negative numbers included. */
  lemma ItoaRoundTrip(n: int)
    ensures Atoi(Itoa(n)) == Some(n)
  {
    var m := if n < 0 then -n else n;
    NatDigitsAreDigits(m);
    DigitsValueOfNatDigits(m);
    if n < 0 {
      assert Itoa(n)[1..] == NatDigits(m);
    } else {
      assert IsDigit(Itoa(n)[0]);
    }
  }

  /** DigitsValue is defined exactly on non-empty all-digit strings. */
  lemma {:induction false} DigitsValueDefined(s: string)
    ensures DigitsValue(s).Some? <==> |s| > 0 && forall i | 0 <= i < |s| :: IsDigit(s[i])
    decreases |s|
  {
    if |s| > 1 {
      var p := s[..|s| - 1];
      DigitsValueDefined(p);
      if IsDigit(s[|s| - 1]) && DigitsValue(p).Some? {
        forall i | 0 <= i < |s| ensures IsDigit(s[i]) {
          if i < |s| - 1 { assert s[i] == p[i]; }
        }
      }
      if forall i | 0 <= i < |s| :: IsDigit(s[i]) {
        forall i | 0 <= i < |p| ensures IsDigit(p[i]) { assert p[i] == s[i]; }
      }
    }
  }

  /** Atoi succeeds on exactly the numerals: a sign on its own, an empty string or any other character is rejected. */
  lemma AtoiDefinedIffNumeral(s: string)
    ensures Atoi(s).Some? <==> IsNumeral(s)
  {
    if |s| > 0 {
      if s[0] == '+' || s[0] == '-' {
        var t := s[1..];
        DigitsValueDefined(t);
        if IsNumeral(s) {
          forall i | 0 <= i < |t| ensures IsDigit(t[i]) { assert t[i] == s[i + 1]; }
        }
        if DigitsValue(t).Some? {
          forall i | 1 <= i < |s| ensures IsDigit(s[i]) { assert s[i] == t[i - 1]; }
        }
      } else {
        DigitsValueDefined(s);
      }
    }
  }

  /** A run of k zeros. */
  function Zeros(k: nat): (z: string)
    ensures |z| == k && forall i | 0 <= i < k :: z[i] == '0'
  {
    seq(k, _ => '0')
  }

  lemma {:induction false} ZerosValue(k: nat)
    requires k > 0
    ensures DigitsValue(Zeros(k)) == Some(0)
    decreases k
  {
    if k > 1 {
      assert Zeros(k)[..k - 1] == Zeros(k - 1);
      ZerosValue(k - 1);
    }
  }

  /** Leading zeros do not change the value of a run of digits. */
  lemma {:induction false} LeadingZerosIgnored(k: nat, t: string)
    requires |t| > 0
    ensures DigitsValue(Zeros(k) + t) == DigitsValue(t)
    decreases |t|
  {
    var u := Zeros(k) + t;
    if k == 0 {
      assert u == t;
    } else if |t| == 1 {
      assert u[..|u| - 1] == Zeros(k);
      ZerosValue(k);
    } else {
      assert u[..|u| - 1] == Zeros(k) + t[..|t| - 1];
      LeadingZerosIgnored(k, t[..|t| - 1]);
    }
  }

  /** An unsigned run of digits reads as its value. */
  lemma AtoiUnsigned(t: string)
    requires |t| > 0 && IsDigit(t[0])
    ensures Atoi(t) == DigitsValue(t)
  {
  }

  /** A sign followed by a run of digits: '-' negates its value, '+' keeps it. */
  lemma AtoiSigned(sign: string, t: string, n: nat)
    requires (sign == "+" || sign == "-") && DigitsValue(t) == Some(n)
    ensures Atoi(sign + t) == Some(if sign == "-" then 0 - n as int else n)
  {
    assert (sign + t)[1..] == t;
  }

  /**
   * Atoi reads every numeral, canonical or not: an optional '+' or '-' sign, any number of
   * leading zeros, then the digits of n ("+5", "007" and "-0" read as 5, 7 and 0).
   */
  lemma AtoiReadsNumeral(sign: string, k: nat, n: nat)
    requires sign == "" || sign == "+" || sign == "-"
    ensures Atoi(sign + Zeros(k) + NatDigits(n)) == Some(if sign == "-" then 0 - n as int else n)
  {
    var t := Zeros(k) + NatDigits(n);
    NatDigitsAreDigits(n);
    DigitsValueOfNatDigits(n);
    LeadingZerosIgnored(k, NatDigits(n));
    assert DigitsValue(t) == Some(n);
    assert sign + Zeros(k) + NatDigits(n) == sign + t;
    if sign == "" {
      assert sign + t == t && IsDigit(t[0]);
      AtoiUnsigned(t);
    } else {
      AtoiSigned(sign, t, n);
    }
  }
}
