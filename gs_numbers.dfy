// The C++ library conversions `std::stoi` and `std::stoull` that the shader
// descriptor parser applies to its numeric fields, and the decimal rendering
// they invert.
module DecimalText {
  import opened Common

  const INT_MIN: int := -0x8000_0000
  const INT_MAX: int := 0x7FFF_FFFF

  predicate IsDigit(c: char) { '0' <= c <= '9' }

  /** `isspace` in the C locale. */
  predicate IsSpace(c: char)
  {
    c == ' ' || c == '\t' || c == '\n' || c == '\r' || c as int == 11 || c as int == 12
  }

  /** Number of leading whitespace characters. */
  function LeadingSpaces(s: string): (r: nat)
    ensures r <= |s|
    ensures forall k :: 0 <= k < r ==> IsSpace(s[k])
    ensures r == |s| || !IsSpace(s[r])
  {
    if |s| > 0 && IsSpace(s[0]) then 1 + LeadingSpaces(s[1..]) else 0
  }

  /** Number of leading decimal digits. */
  function LeadingDigits(s: string): (r: nat)
    ensures r <= |s|
    ensures forall k :: 0 <= k < r ==> IsDigit(s[k])
    ensures r == |s| || !IsDigit(s[r])
  {
    if |s| > 0 && IsDigit(s[0]) then 1 + LeadingDigits(s[1..]) else 0
  }

  /** The value of a string of decimal digits, most significant first. */
  function DecimalValue(ds: string): nat
    requires forall k :: 0 <= k < |ds| ==> IsDigit(ds[k])
  {
    if |ds| == 0 then 0
    else
      var c := ds[|ds| - 1];
      assert IsDigit(c);
      var last: nat := c as int - '0' as int;
      DecimalValue(ds[..|ds| - 1]) * 10 + last
  }

  /** What `strtol`/`strtoull` read: leading whitespace, an optional sign and
      a run of digits, the rest ignored. `None` when there is no digit. The
      pair is the sign and the magnitude before any range check. */
  function ReadInteger(s: string): Option<(bool, nat)>
  {
    var i := LeadingSpaces(s);
    var signed := i < |s| && (s[i] == '-' || s[i] == '+');
    var negative := i < |s| && s[i] == '-';
    var rest := if signed then s[i + 1..] else s[i..];
    var n := LeadingDigits(rest);
    if n == 0 then None else Some((negative, DecimalValue(rest[..n])))
  }

  /** `std::stoi`: `None` stands for the exception it throws when nothing is
      converted or the value is outside the range of `int`. */
  function StoI(s: string): (r: Option<int>)
    ensures r.Some? ==> INT_MIN <= r.value <= INT_MAX
    ensures ReadInteger(s).None? ==> r.None?
    ensures r.Some? ==> r.value == SignedValue(ReadInteger(s).value)
    ensures ReadInteger(s).Some? && INT_MIN <= SignedValue(ReadInteger(s).value) <= INT_MAX ==> r.Some?
  {
    IntInRange(ReadInteger(s))
  }

  /** The range check of `std::stoi` on what was read. */
  function IntInRange(read: Option<(bool, nat)>): (r: Option<int>)
    ensures r.Some? ==> INT_MIN <= r.value <= INT_MAX
    ensures read.None? ==> r.None?
  {
    match read
    case None => None
    case Some((negative, m)) =>
      var v := SignedValue((negative, m));
      if INT_MIN <= v <= INT_MAX then Some(v) else None
  }

  /** The value a sign and a magnitude stand for. */
  function SignedValue(read: (bool, nat)): int
  {
    if read.0 then -(read.1 as int) else read.1
  }

  /** `std::stoull`: a magnitude above 2^64 - 1 throws; a leading minus sign
      negates modulo 2^64, as `strtoull` does. */
  function StoULL(s: string): (r: Option<nat>)
    ensures r.Some? ==> r.value < TWO64
    ensures ReadInteger(s).None? ==> r.None?
    ensures r.Some? ==> ReadInteger(s).value.1 < TWO64 && (r.value - SignedValue(ReadInteger(s).value)) % TWO64 == 0
    ensures ReadInteger(s).Some? && ReadInteger(s).value.1 < TWO64 ==> r.Some?
  {
    match ReadInteger(s)
    case None => None
    case Some((negative, m)) =>
      if m >= TWO64 then None
      else Some(if negative then (TWO64 - m) % TWO64 else m)
  }

  /** Decimal rendering of a natural number, without leading zeros. */
  function NatText(n: nat): (r: string)
    ensures |r| > 0
    ensures forall k :: 0 <= k < |r| ==> IsDigit(r[k])
  {
    if n < 10 then [('0' as int + n) as char]
    else NatText(n / 10) + [('0' as int + n % 10) as char]
  }

  /** Decimal rendering of an integer, with a minus sign when negative. */
  function IntText(v: int): string
  {
    if v < 0 then "-" + NatText(-v) else NatText(v)
  }

  lemma {:induction false} NatTextValue(n: nat)
    ensures DecimalValue(NatText(n)) == n
  {
    var r := NatText(n);
    if n >= 10 {
      NatTextValue(n / 10);
      assert r[..|r| - 1] == NatText(n / 10);
    }
  }

  lemma {:induction false} AllDigits(s: string)
    requires forall k :: 0 <= k < |s| ==> IsDigit(s[k])
    ensures LeadingDigits(s) == |s|
    decreases |s|
  {
    if |s| > 0 { AllDigits(s[1..]); }
  }

  /** A rendering without sign reads as that magnitude, not negated. */
  lemma ReadNatText(n: nat)
    ensures ReadInteger(NatText(n)) == Some((false, n))
  {
    var s := NatText(n);
    assert LeadingSpaces(s) == 0;
    AllDigits(s);
    NatTextValue(n);
    assert s[0..] == s && s[..|s|] == s;
  }

  /** A rendering after a minus sign reads as that magnitude, negated. */
  lemma ReadNegNatText(n: nat)
    ensures ReadInteger("-" + NatText(n)) == Some((true, n))
  {
    var t := NatText(n);
    var s := "-" + t;
    assert LeadingSpaces(s) == 0;
    assert s[1..] == t;
    AllDigits(t);
    NatTextValue(n);
    assert t[..|t|] == t;
  }

  /** `std::stoull` reads back every decimal rendering of a 64-bit value. */
  lemma StoULLNatText(n: nat)
    requires n < TWO64
    ensures StoULL(NatText(n)) == Some(n)
  {
    ReadNatText(n);
  }

  /** `std::stoi` reads back every decimal rendering of an `int`. */
  lemma StoIIntText(v: int)
    requires INT_MIN <= v <= INT_MAX
    ensures StoI(IntText(v)) == Some(v)
  {
    ReadIntText(v);
  }

  /** An integer's rendering reads as its sign and magnitude. */
  lemma ReadIntText(v: int)
    ensures ReadInteger(IntText(v)) == Some((v < 0, if v < 0 then -v else v))
  {
    if v < 0 {
      ReadNegNatText(-v);
    } else {
      ReadNatText(v);
    }
  }

  /** No decimal rendering contains a space. */
  lemma IntTextNoSpace(v: int)
    ensures ' ' !in IntText(v)
  {
    var s := IntText(v);
    if v < 0 {
      var t := NatText(-v);
      assert s == "-" + t;
      assert forall k :: 0 <= k < |t| ==> t[k] != ' ';
    }
  }

  lemma NatTextNoSpace(n: nat)
    ensures ' ' !in NatText(n)
  {
    var t := NatText(n);
    assert forall k :: 0 <= k < |t| ==> t[k] != ' ';
  }
}
