// Shared value types and machine-arithmetic helpers used by every module.
module Common {

  datatype Option<T> = None | Some(value: T)

  /** An unsigned 8-bit value, as stored in a byte buffer. */
  newtype byte = x: int | 0 <= x < 256

  const TWO32: int := 0x1_0000_0000
  const TWO64: int := 0x1_0000_0000_0000_0000

  /** The values of a `uint32_t`. */
  type uint32 = x: int | 0 <= x < TWO32

  /** `uint32_t` arithmetic: the value a 32-bit unsigned variable holds. */
  function U32(x: int): (r: int)
    ensures 0 <= r < TWO32
    ensures (r - x) % TWO32 == 0
    ensures 0 <= x < TWO32 ==> r == x
  {
    x % TWO32
  }

  /** `size_t` arithmetic on a 64-bit target. */
  function U64(x: int): (r: int)
    ensures 0 <= r < TWO64
    ensures 0 <= x < TWO64 ==> r == x
  {
    x % TWO64
  }

  /** A sequence resized to `n` entries, as `std::vector::resize` does:
      the common prefix is kept and new entries take the value `fill`. */
  function Resize<T>(s: seq<T>, n: nat, fill: T): (r: seq<T>)
    ensures |r| == n
    ensures forall k :: 0 <= k < n && k < |s| ==> r[k] == s[k]
    ensures forall k :: |s| <= k < n ==> r[k] == fill
  {
    if n <= |s| then s[..n] else s + seq(n - |s|, _ => fill)
  }

  /** Bitwise and of two naturals, bit by bit from the lowest. */
  function BitAnd(a: nat, b: nat): nat
  {
    if a == 0 || b == 0 then 0
    else 2 * BitAnd(a / 2, b / 2) + (if a % 2 == 1 && b % 2 == 1 then 1 else 0)
  }

  lemma {:induction false} BitAndSelf(m: nat)
    ensures BitAnd(m, m) == m
  {
    if m > 0 {
      BitAndSelf(m / 2);
    }
  }

  /** `a & b` with `b` even: the low bit of the result is clear and the
      rest is the and of the remaining bits. */
  lemma BitAndHalve(a: nat, m: nat)
    ensures BitAnd(a, 2 * m) == 2 * BitAnd(a / 2, m)
  {
  }

  /** The mask of the `n` lowest bits. */
  function Ones(n: nat): nat
  {
    if n == 0 then 0 else 2 * Ones(n - 1) + 1
  }

  /** Masking with `n` low ones keeps every value it covers. */
  lemma {:induction false} BitAndOnes(a: nat, n: nat)
    requires a <= Ones(n)
    ensures BitAnd(a, Ones(n)) == a
  {
    if a > 0 && n > 0 {
      BitAndOnes(a / 2, n - 1);
    }
  }

  lemma OnesPlus8(n: nat)
    ensures Ones(n + 8) == 256 * Ones(n) + 255
  {
    assert Ones(n + 2) == 4 * Ones(n) + 3;
    assert Ones(n + 4) == 4 * Ones(n + 2) + 3;
    assert Ones(n + 6) == 4 * Ones(n + 4) + 3;
    assert Ones(n + 8) == 4 * Ones(n + 6) + 3;
  }

  lemma Ones59()
    ensures Ones(59) == TWO64 / 32 - 1
  {
    assert Ones(3) == 7;
    OnesPlus8(3);
    OnesPlus8(11);
    OnesPlus8(19);
    OnesPlus8(27);
    OnesPlus8(35);
    OnesPlus8(43);
    OnesPlus8(51);
  }

  lemma ShiftMask5(y: nat, m: nat)
    ensures BitAnd(y, 32 * m) == 32 * BitAnd(y / 32, m)
  {
    BitAndHalve(y, 16 * m);
    BitAndHalve(y / 2, 8 * m);
    BitAndHalve(y / 2 / 2, 4 * m);
    BitAndHalve(y / 2 / 2 / 2, 2 * m);
    BitAndHalve(y / 2 / 2 / 2 / 2, m);
    assert y / 2 / 2 / 2 / 2 / 2 == y / 32;
  }

  /** A 64-bit value and `~31` (every bit but the five lowest): the value
      rounded down to a multiple of 32. */
  lemma ClearLow5(y: nat)
    requires y < TWO64
    ensures BitAnd(y, TWO64 - 32) == y / 32 * 32
  {
    Ones59();
    var m := Ones(59);
    assert 32 * m == TWO64 - 32;
    ShiftMask5(y, m);
    BitAndOnes(y / 32, 59);
  }
}
