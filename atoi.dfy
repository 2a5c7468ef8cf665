/**
 * Go's `strconv.Atoi` on a 64-bit platform: an optional single sign, then one or
 * more ASCII decimal digits, and a value that fits in a signed 64-bit `int`.
 */
module Atoi {
  import opened Wrappers

  const MinInt: int := -0x8000_0000_0000_0000
  const MaxInt: int := 0x7FFF_FFFF_FFFF_FFFF

  predicate IsDigit(c: char) {
    '0' <= c <= '9'
  }

  predicate IsDigits(s: string) {
    forall i :: 0 <= i < |s| ==> IsDigit(s[i])
  }

  function DigitValue(c: char): nat
    requires IsDigit(c)
  {
    c as int - '0' as int
  }

  /** The value of a string of decimal digits, most significant digit first. */
  function DigitsValue(s: string): nat
    requires IsDigits(s)
  {
    if s == [] then 0 else 10 * DigitsValue(s[..|s| - 1]) + DigitValue(s[|s| - 1])
  }

  predicate HasSign(s: string) {
    |s| > 0 && (s[0] == '+' || s[0] == '-')
  }

  /** `s` with its leading sign, if any, removed. */
  function Magnitude(s: string): string {
    if HasSign(s) then s[1..] else s
  }

  /** `strconv.Atoi(s)`: `Some(n)` when it returns `n` with a nil error, `None` otherwise. */
  function ParseInt(s: string): (r: Option<int>)
    ensures r.Some? ==> MinInt <= r.value <= MaxInt
    ensures r.Some? ==> |Magnitude(s)| > 0 && IsDigits(Magnitude(s))
    ensures (|Magnitude(s)| > 0 && IsDigits(Magnitude(s))
             && DigitsValue(Magnitude(s)) <= (if s[0] == '-' then -MinInt else MaxInt)) ==> r.Some?
    ensures r.Some? ==> r.value == (if s[0] == '-' then -(DigitsValue(Magnitude(s)) as int) else DigitsValue(Magnitude(s)))
  {
    var m := Magnitude(s);
    if m == [] || !IsDigits(m) then None
    else
      var d: int := DigitsValue(m);
      var v := if s[0] == '-' then -d else d;
      if MinInt <= v <= MaxInt then Some(v) else None
  }

  /** `s` is an optional sign followed by one or more '0' digits. */
  predicate SpellsZero(s: string) {
    var m := Magnitude(s);
    |m| > 0 && forall i :: 0 <= i < |m| ==> m[i] == '0'
  }

  lemma {:induction false} DigitsValueZero(s: string)
    requires IsDigits(s)
    ensures DigitsValue(s) == 0 <==> forall i :: 0 <= i < |s| ==> s[i] == '0'
  {
    if s != [] {
      var p := s[..|s| - 1];
      DigitsValueZero(p);
      assert forall i :: 0 <= i < |p| ==> p[i] == s[i];
      if DigitsValue(s) == 0 {
        forall i | 0 <= i < |s| ensures s[i] == '0' {
          if i < |p| { assert p[i] == '0'; }
        }
      }
    }
  }

  /** The strings that parse as zero are exactly the zero spellings: "0", "00", "+0", "-0", ... */
  lemma ParseIntZero(s: string)
    ensures ParseInt(s) == Some(0) <==> SpellsZero(s)
  {
    var m := Magnitude(s);
    if m != [] && IsDigits(m) {
      DigitsValueZero(m);
    }
  }

  lemma ZeroSpellings()
    ensures ParseInt("0") == ParseInt("00") == ParseInt("+0") == ParseInt("-0") == Some(0)
    ensures ParseInt("") == ParseInt("+") == ParseInt("-") == ParseInt(" 0") == ParseInt("0x0") == None
  {
    ParseIntZero("0");
    ParseIntZero("00");
    ParseIntZero("+0");
    ParseIntZero("-0");
    assert !IsDigits(" 0") by { assert !IsDigit(" 0"[0]); }
    assert !IsDigits("0x0") by { assert !IsDigit("0x0"[1]); }
  }

  /** The canonical decimal spelling of `n`. */
  function FormatNat(n: nat): (s: string)
    ensures |s| > 0 && IsDigits(s)
  {
    if n < 10 then [('0' as int + n) as char]
    else FormatNat(n / 10) + [('0' as int + n % 10) as char]
  }

  function FormatInt(n: int): string {
    if n < 0 then "-" + FormatNat(-n) else FormatNat(n)
  }

  lemma {:induction false} FormatNatValue(n: nat)
    ensures DigitsValue(FormatNat(n)) == n
  {
    if n >= 10 {
      FormatNatValue(n / 10);
      var s := FormatNat(n);
      assert s[..|s| - 1] == FormatNat(n / 10);
    }
  }

  /** Every 64-bit integer is accepted in its canonical spelling and read back unchanged. */
  lemma ParseFormat(n: int)
    requires MinInt <= n <= MaxInt
    ensures ParseInt(FormatInt(n)) == Some(n)
  {
    if n < 0 {
      FormatNatValue(-n);
      assert Magnitude(FormatInt(n)) == FormatNat(-n);
    } else {
      FormatNatValue(n);
      assert IsDigit(FormatNat(n)[0]);
    }
  }

  /** `k` '0' characters. */
  function Zeros(k: nat): string {
    seq(k, _ => '0')
  }

  /** Leading zeros do not change the value of a digit string. */
  lemma {:induction false} DigitsValueLeadingZeros(z: string, t: string)
    requires forall i :: 0 <= i < |z| ==> z[i] == '0'
    requires IsDigits(t)
    ensures IsDigits(z + t) && DigitsValue(z + t) == DigitsValue(t)
    decreases |t|
  {
    assert IsDigits(z + t) by {
      forall i | 0 <= i < |z + t| ensures IsDigit((z + t)[i]) {
        if i < |z| { assert (z + t)[i] == z[i]; } else { assert (z + t)[i] == t[i - |z|]; }
      }
    }
    if t == [] {
      assert z + t == z;
      DigitsValueZero(z);
    } else {
      var p := t[..|t| - 1];
      DigitsValueLeadingZeros(z, p);
      assert (z + t)[..|z + t| - 1] == z + p;
    }
  }

  /**
   * Every in-range spelling is accepted, not only the canonical one: an optional
   * sign, any number of leading zeros, then the digits of the magnitude.
   */
  lemma ParseSpelling(sign: string, zeros: nat, n: nat)
    requires sign == "" || sign == "+" || sign == "-"
    requires MinInt <= (if sign == "-" then -(n as int) else n) <= MaxInt
    ensures ParseInt(sign + Zeros(zeros) + FormatNat(n)) == Some(if sign == "-" then -(n as int) else n)
  {
    var t := Zeros(zeros) + FormatNat(n);
    PaddedDigits(zeros, n);
    var s := sign + Zeros(zeros) + FormatNat(n);
    assert s == sign + t;
    if sign == "" {
      assert s == t;
    } else {
      assert s[1..] == t;
    }
    ParseMagnitude(s, n);
  }

  /** Leading zeros then the canonical digits: a digit string worth `n`, with no sign. */
  lemma PaddedDigits(zeros: nat, n: nat)
    ensures var t := Zeros(zeros) + FormatNat(n);
      && |t| > 0 && IsDigits(t) && DigitsValue(t) == n && !HasSign(t)
  {
    FormatNatValue(n);
    DigitsValueLeadingZeros(Zeros(zeros), FormatNat(n));
    var t := Zeros(zeros) + FormatNat(n);
    assert IsDigit(t[0]);
  }

  /** A signed digit string in range parses as its signed value. */
  lemma ParseMagnitude(s: string, n: nat)
    requires |Magnitude(s)| > 0 && IsDigits(Magnitude(s)) && DigitsValue(Magnitude(s)) == n
    requires MinInt <= (if s[0] == '-' then -(n as int) else n) <= MaxInt
    ensures ParseInt(s) == Some(if s[0] == '-' then -(n as int) else n)
  {
  }

  lemma NonCanonicalSpellings()
    ensures ParseInt("007") == Some(7)
    ensures ParseInt("+5") == Some(5)
    ensures ParseInt("-042") == Some(-42)
    ensures ParseInt(FormatNat(MaxInt + 1)) == None
  {
    ParseSpelling("", 2, 7);
    assert "" + Zeros(2) + FormatNat(7) == "007";
    ParseSpelling("+", 0, 5);
    assert "+" + Zeros(0) + FormatNat(5) == "+5";
    ParseSpelling("-", 1, 42);
    assert "-" + Zeros(1) + FormatNat(42) == "-042";
    FormatNatValue(MaxInt + 1);
    assert IsDigit(FormatNat(MaxInt + 1)[0]);
  }
}
