/**
 * Python's `int(s)` on a string, restricted to ASCII decimal literals: an optional
 * sign followed by one or more digits. Any other string makes `int` raise
 * `ValueError`, modelled as `None`.
 */
module PythonInt {
  import opened Results

  predicate IsDigit(c: char) { '0' <= c <= '9' }

  function DigitValue(c: char): (d: nat)
    requires IsDigit(c)
    ensures d < 10
  {
    (c as int) - ('0' as int)
  }

  function DigitChar(d: nat): (c: char)
    requires d < 10
    ensures IsDigit(c) && DigitValue(c) == d
  {
    (('0' as int) + d) as char
  }

  /** The grammar `int` accepts: one or more digits. */
  predicate AllDigits(t: string) {
    |t| > 0 && forall i :: 0 <= i < |t| ==> IsDigit(t[i])
  }

  /** The grammar `int` accepts: `[+-]? digit+`. */
  predicate IsDecimal(s: string) {
    AllDigits(s) || (|s| > 0 && (s[0] == '+' || s[0] == '-') && AllDigits(s[1..]))
  }

  /** Reads the digits left to right; `None` on an empty string or a non-digit. */
  function DigitsValue(t: string): Option<nat>
    decreases |t|
  {
    if |t| == 0 || !IsDigit(t[|t| - 1]) then None
    else if |t| == 1 then Some(DigitValue(t[0]))
    else match DigitsValue(t[..|t| - 1])
      case None => None
      case Some(p) => Some(10 * p + DigitValue(t[|t| - 1]))
  }

  function Pow10(k: nat): (p: nat)
    ensures p >= 1
  {
    if k == 0 then 1 else 10 * Pow10(k - 1)
  }

  /** The number a digit string denotes: each digit times ten to the power of its position from the right. */
  function PositionalValue(t: string): nat
    requires AllDigits(t)
    decreases |t|
  {
    if |t| == 1 then DigitValue(t[0])
    else
      assert AllDigits(t[1..]) by { assert forall i :: 0 <= i < |t| - 1 ==> t[1..][i] == t[i + 1]; }
      DigitValue(t[0]) * Pow10(|t| - 1) + PositionalValue(t[1..])
  }

  /** The integer a string of the form `[+-]? digit+` denotes. */
  function DecimalValue(s: string): int
    requires IsDecimal(s)
  {
    if AllDigits(s) then PositionalValue(s)
    else if s[0] == '-' then -(PositionalValue(s[1..]) as int)
    else PositionalValue(s[1..])
  }

  /** `int(s)` for a string `s`: `None` stands for the `ValueError`. */
  function ParseInt(s: string): (r: Option<int>)
    ensures IsDecimal(s) ==> r == Some(DecimalValue(s))
    ensures !IsDecimal(s) ==> r == None
  {
    DigitsValueSpec(s);
    if |s| > 0 && s[0] == '-' then
      DigitsValueSpec(s[1..]);
      match DigitsValue(s[1..])
      case None => None
      case Some(n) => Some(-(n as int))
    else if |s| > 0 && s[0] == '+' then
      DigitsValueSpec(s[1..]);
      match DigitsValue(s[1..])
      case None => None
      case Some(n) => Some(n)
    else
      match DigitsValue(s)
      case None => None
      case Some(n) => Some(n)
  }

  /** The canonical decimal spelling of a natural number (Python's `str(n)`). */
  function NatToString(n: nat): (s: string)
    ensures AllDigits(s)
  {
    if n < 10 then [DigitChar(n)] else NatToString(n / 10) + [DigitChar(n % 10)]
  }

  /** The canonical decimal spelling of an integer (Python's `str(n)`). */
  function IntToString(n: int): (s: string)
    ensures IsDecimal(s)
  {
    if n < 0 then "-" + NatToString(-n) else NatToString(n)
  }

  /** Appending a digit to a digit string gives a digit string. */
  lemma AllDigitsSnoc(u: string, c: char)
    requires AllDigits(u) && IsDigit(c)
    ensures AllDigits(u + [c])
  {
  }

  /** Appending a digit multiplies the value so far by ten and adds the digit. */
  lemma {:induction false} PositionalValueSnoc(u: string, c: char)
    requires AllDigits(u) && IsDigit(c)
    ensures AllDigits(u + [c])
    ensures PositionalValue(u + [c]) == 10 * PositionalValue(u) + DigitValue(c)
    decreases |u|
  {
    AllDigitsSnoc(u, c);
    var w := u + [c];
    if |u| == 1 {
      assert w[1..] == [c];
    } else {
      var v := u[1..];
      assert AllDigits(v) by { assert forall i :: 0 <= i < |v| ==> v[i] == u[i + 1]; }
      assert w[0] == u[0] && w[1..] == v + [c];
      PositionalValueSnoc(v, c);
      var d, p := DigitValue(u[0]), Pow10(|u| - 1);
      calc {
        PositionalValue(w);
        d * Pow10(|u|) + PositionalValue(v + [c]);
        d * (10 * p) + 10 * PositionalValue(v) + DigitValue(c);
        { assert d * (10 * p) == 10 * (d * p); }
        10 * (d * p + PositionalValue(v)) + DigitValue(c);
        10 * PositionalValue(u) + DigitValue(c);
      }
    }
  }

  /** The digit reader succeeds exactly on non-empty all-digit strings, with their positional value. */
  lemma {:induction false} DigitsValueSpec(t: string)
    ensures DigitsValue(t).Some? <==> AllDigits(t)
    ensures AllDigits(t) ==> DigitsValue(t) == Some(PositionalValue(t))
    decreases |t|
  {
    if |t| > 1 && IsDigit(t[|t| - 1]) {
      var u := t[..|t| - 1];
      assert t == u + [t[|t| - 1]];
      DigitsValueSpec(u);
      if AllDigits(t) {
        assert forall i :: 0 <= i < |u| ==> u[i] == t[i];
        PositionalValueSnoc(u, t[|t| - 1]);
      }
    }
  }

  /** Leading zeros do not change the value `int` reads. */
  lemma LeadingZeroIgnored(t: string)
    requires AllDigits(t)
    ensures DigitsValue("0" + t) == DigitsValue(t)
  {
    var w := "0" + t;
    assert AllDigits(w) by {
      forall i | 0 <= i < |w| ensures IsDigit(w[i]) {
        if i > 0 { assert w[i] == t[i - 1]; }
      }
    }
    assert w[1..] == t;
    DigitsValueSpec(w);
    DigitsValueSpec(t);
  }

  /** A leading `+` does not change the value `int` reads. */
  lemma PlusSignIgnored(t: string)
    requires AllDigits(t)
    ensures ParseInt("+" + t) == ParseInt(t)
  {
  }

  /** A leading `-` negates the value `int` reads. */
  lemma MinusSignNegates(t: string)
    requires AllDigits(t)
    ensures DigitsValue(t).Some?
    ensures ParseInt("-" + t) == Some(-(DigitsValue(t).value as int))
  {
  }

  /** Reading back the canonical spelling of `n` gives `n`. */
  lemma {:induction false} DigitsValueOfNatToString(n: nat)
    ensures DigitsValue(NatToString(n)) == Some(n)
  {
    if n >= 10 {
      var p := NatToString(n / 10);
      var s := NatToString(n);
      assert s == p + [DigitChar(n % 10)];
      assert s[..|s| - 1] == p;
      DigitsValueOfNatToString(n / 10);
    }
  }

  /** `int(str(n)) == n` for every integer `n`. */
  lemma ParseIntRoundTrip(n: int)
    ensures ParseInt(IntToString(n)) == Some(n)
  {
    if n < 0 {
      var s := IntToString(n);
      assert s[1..] == NatToString(-n);
      DigitsValueOfNatToString(-n);
    } else {
      DigitsValueOfNatToString(n);
    }
  }

  /** A string made only of digits never reads as a negative number. */
  lemma ParseIntOfDigitsNonNegative(t: string)
    requires AllDigits(t)
    ensures ParseInt(t).Some? && ParseInt(t).value >= 0
  {
  }
}
