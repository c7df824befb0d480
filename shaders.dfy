// `astrcmpi`: the case-insensitive comparison of two C strings used to look
// up shaders and effects by name.
module Shaders {
  import opened Common

  /** The bytes of a C string before its terminating NUL. */
  type CString = s: seq<byte> | forall k :: 0 <= k < |s| ==> s[k] != 0

  /** What a possibly null `const char *` points to: a null pointer reads
      as the empty string. */
  function Deref(p: Option<CString>): (s: CString)
    ensures p.None? ==> s == []
    ensures p.Some? ==> s == p.value
  {
    if p.None? then [] else p.value
  }

  /** The byte at position `i`, with the terminator (0) at and past the
      end. */
  function At(s: CString, i: nat): (c: byte)
    ensures (c == 0) <==> i >= |s|
  {
    if i < |s| then s[i] else 0
  }

  /** `toupper` in the "C" locale: lower-case ASCII letters move to upper
      case, every other byte is unchanged. */
  function ToUpper(c: byte): (u: byte)
    ensures (u == 0) <==> (c == 0)
    ensures c < 128 ==> u < 128
  {
    if 'a' as int <= c as int <= 'z' as int then c - 32 else c
  }

  /** The value of a `char` holding byte `c`: `char` is signed on some
      targets (bytes from 128 on are negative) and unsigned on others. */
  function CharValue(c: byte, signedChar: bool): int
  {
    if signedChar && c >= 128 then c as int - 256 else c as int
  }

  lemma CharValueInjective(x: byte, y: byte, signedChar: bool)
    ensures CharValue(x, signedChar) == CharValue(y, signedChar) <==> x == y
  {
  }

  /** The `char` the loop compares at position `i`. */
  function Key(s: CString, i: nat, signedChar: bool): int
  {
    CharValue(ToUpper(At(s, i)), signedChar)
  }

  /** The comparison from position `i` on, as the loop performs it: the
      first position whose upper-cased characters differ decides; the
      comparison ends with 0 at the end of either string. */
  function CompareFrom(a: CString, b: CString, i: nat, signedChar: bool): (r: int)
    requires i <= |a| && i <= |b|
    ensures r == -1 || r == 0 || r == 1
    decreases |a| - i
  {
    if Key(a, i, signedChar) < Key(b, i, signedChar) then -1
    else if Key(a, i, signedChar) > Key(b, i, signedChar) then 1
    else if At(a, i) == 0 || At(b, i) == 0 then 0
    else CompareFrom(a, b, i + 1, signedChar)
  }

  function Compare(a: CString, b: CString, signedChar: bool): int
  {
    CompareFrom(a, b, 0, signedChar)
  }

  /** Upper-cases every character. */
  function Upper(s: CString): (u: seq<byte>)
    ensures |u| == |s|
    ensures forall k :: 0 <= k < |s| ==> u[k] == ToUpper(s[k])
  {
    seq(|s|, k requires 0 <= k < |s| => ToUpper(s[k]))
  }

  /** `astrcmpi`. */
  method Astrcmpi(str1: Option<CString>, str2: Option<CString>, signedChar: bool) returns (r: int)
    ensures r == Compare(Deref(str1), Deref(str2), signedChar)
  {
    var a, b := Deref(str1), Deref(str2);
    var i := 0;
    while true
      invariant i <= |a| && i <= |b|
      invariant CompareFrom(a, b, i, signedChar) == Compare(a, b, signedChar)
      decreases |a| - i
    {
      var ch1 := CharValue(ToUpper(At(a, i)), signedChar);
      var ch2 := CharValue(ToUpper(At(b, i)), signedChar);
      if ch1 < ch2 {
        return -1;
      } else if ch1 > ch2 {
        return 1;
      }
      if At(a, i) == 0 || At(b, i) == 0 {
        return 0;
      }
      i := i + 1;
    }
  }

  /** The comparison is 0 exactly when the two strings are equal after
      upper-casing, whatever the signedness of `char`. */
  lemma {:induction false} CompareFromZero(a: CString, b: CString, i: nat, signedChar: bool)
    requires i <= |a| && i <= |b|
    ensures CompareFrom(a, b, i, signedChar) == 0 <==> Upper(a)[i..] == Upper(b)[i..]
    decreases |a| - i
  {
    var ua, ub := Upper(a), Upper(b);
    CharValueInjective(ToUpper(At(a, i)), ToUpper(At(b, i)), signedChar);
    if i == |a| || i == |b| {
      if i < |a| {
        assert ua[i..][0] == ToUpper(a[i]) != 0;
      }
      if i < |b| {
        assert ub[i..][0] == ToUpper(b[i]) != 0;
      }
    } else {
      CompareFromZero(a, b, i + 1, signedChar);
      assert ua[i..] == [ua[i]] + ua[i + 1..];
      assert ub[i..] == [ub[i]] + ub[i + 1..];
    }
  }

  lemma CompareZero(a: CString, b: CString, signedChar: bool)
    ensures Compare(a, b, signedChar) == 0 <==> Upper(a) == Upper(b)
  {
    CompareFromZero(a, b, 0, signedChar);
    assert Upper(a)[0..] == Upper(a) && Upper(b)[0..] == Upper(b);
  }

  /** Swapping the arguments negates the result. */
  lemma {:induction false} CompareFromAntisymmetric(a: CString, b: CString, i: nat, signedChar: bool)
    requires i <= |a| && i <= |b|
    ensures CompareFrom(a, b, i, signedChar) == -CompareFrom(b, a, i, signedChar)
    decreases |a| - i
  {
    if Key(a, i, signedChar) == Key(b, i, signedChar) && At(a, i) != 0 && At(b, i) != 0 {
      CompareFromAntisymmetric(a, b, i + 1, signedChar);
    }
  }

  lemma CompareAntisymmetric(a: CString, b: CString, signedChar: bool)
    ensures Compare(a, b, signedChar) == -Compare(b, a, signedChar)
  {
    CompareFromAntisymmetric(a, b, 0, signedChar);
  }

  /** The strings agree, character for character after upper-casing, on
      positions `i` up to `k`. */
  predicate AgreeBetween(a: CString, b: CString, i: nat, k: nat, signedChar: bool)
  {
    forall j :: i <= j < k ==> Key(a, j, signedChar) == Key(b, j, signedChar)
  }

  /** The result is -1 exactly when, at the first position whose
      upper-cased characters differ, the character of `a` is the smaller:
      the order is lexicographic, with the terminator taking part. */
  lemma {:induction false} CompareFromBelow(a: CString, b: CString, i: nat, signedChar: bool)
    requires i <= |a| && i <= |b|
    ensures CompareFrom(a, b, i, signedChar) == -1 <==>
      exists k :: i <= k <= |a| && k <= |b| && AgreeBetween(a, b, i, k, signedChar)
                  && Key(a, k, signedChar) < Key(b, k, signedChar)
    decreases |a| - i
  {
    if Key(a, i, signedChar) < Key(b, i, signedChar) {
      assert AgreeBetween(a, b, i, i, signedChar);
    } else if Key(a, i, signedChar) > Key(b, i, signedChar) {
    } else if At(a, i) == 0 || At(b, i) == 0 {
      CharValueInjective(ToUpper(At(a, i)), ToUpper(At(b, i)), signedChar);
      assert i == |a| && i == |b|;
    } else {
      CompareFromBelow(a, b, i + 1, signedChar);
      if CompareFrom(a, b, i, signedChar) == -1 {
        var k :| i + 1 <= k <= |a| && k <= |b| && AgreeBetween(a, b, i + 1, k, signedChar)
                 && Key(a, k, signedChar) < Key(b, k, signedChar);
        assert AgreeBetween(a, b, i, k, signedChar);
      } else {
        forall k | i < k <= |a| && k <= |b| && AgreeBetween(a, b, i, k, signedChar)
          ensures AgreeBetween(a, b, i + 1, k, signedChar)
        {
        }
      }
    }
  }

  lemma CompareBelow(a: CString, b: CString, signedChar: bool)
    ensures Compare(a, b, signedChar) == -1 <==>
      exists k: nat :: k <= |a| && k <= |b| && AgreeBetween(a, b, 0, k, signedChar)
                  && Key(a, k, signedChar) < Key(b, k, signedChar)
  {
    CompareFromBelow(a, b, 0, signedChar);
  }

  /** A proper prefix of an ASCII string compares below it. */
  lemma {:induction false} PrefixFromBelow(a: CString, b: CString, i: nat, signedChar: bool)
    requires |a| < |b| && a == b[..|a|] && i <= |a|
    requires forall k :: 0 <= k < |b| ==> b[k] < 128
    ensures CompareFrom(a, b, i, signedChar) == -1
    decreases |a| - i
  {
    if i < |a| {
      assert a[i] == b[i];
      PrefixFromBelow(a, b, i + 1, signedChar);
    } else {
      assert ToUpper(b[i]) != 0 && ToUpper(b[i]) < 128;
    }
  }

  lemma PrefixBelow(a: CString, b: CString, signedChar: bool)
    requires |a| < |b| && a == b[..|a|]
    requires forall k :: 0 <= k < |b| ==> b[k] < 128
    ensures Compare(a, b, signedChar) == -1
  {
    PrefixFromBelow(a, b, 0, signedChar);
  }

  /** Without the ASCII restriction the prefix rule fails where `char` is
      signed: the empty string compares above a string starting with byte
      200, whose `char` value is negative. */
  lemma PrefixAboveWhenSigned()
    ensures Compare([], [200], true) == 1
    ensures Compare([], [200], false) == -1
  {
    assert Key([200], 0, true) == -56;
  }
}
