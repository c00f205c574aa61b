/**
 * The fixed-width unsigned integers of <cstdint> used by the CAN tool, and the
 * bitwise AND it applies to identifiers, written out on natural numbers.
 */
module Ints {

  type byte = x: int | 0 <= x < 0x100
  type uint16 = x: int | 0 <= x < 0x1_0000
  type uint32 = x: int | 0 <= x < 0x1_0000_0000

  /** 2^k */
  function Pow2(k: nat): (r: nat)
    ensures r >= 1
  {
    if k == 0 then 1 else 2 * Pow2(k - 1)
  }

  /** Bitwise AND of two non-negative numbers, bit by bit from the least significant one. */
  function And(a: nat, b: nat): (r: nat)
    ensures r <= a && r <= b
  {
    if a == 0 || b == 0 then 0
    else 2 * And(a / 2, b / 2) + (if a % 2 == 1 && b % 2 == 1 then 1 else 0)
  }

  /** AND with the low mask 2^k - 1 leaves every value already below 2^k unchanged. */
  lemma {:induction false} AndLowMaskKeeps(x: nat, k: nat)
    ensures x < Pow2(k) ==> And(x, Pow2(k) - 1) == x
  {
    if 0 < x < Pow2(k) {
      assert k > 0;
      AndLowMaskKeeps(x / 2, k - 1);
      assert (Pow2(k) - 1) / 2 == Pow2(k - 1) - 1;
      assert (Pow2(k) - 1) % 2 == 1;
    }
  }

  lemma MulNonNeg(a: int, b: int)
    requires a >= 0 && b >= 0
    ensures a * b >= 0
  {
  }

  /** d * e lies strictly between -d and d only for e == 0. */
  lemma SmallMultiple(d: int, e: int)
    requires d > 0 && -d < d * e < d
    ensures e == 0
  {
    if e >= 1 {
      MulNonNeg(d, e - 1);
    } else if e <= -1 {
      MulNonNeg(d, -e - 1);
    }
  }

  /** Division with remainder is unique: a remainder in range is the one `%` gives. */
  lemma ModUnique(x: int, d: int, q: int, r: int)
    requires d > 0 && x == d * q + r && 0 <= r < d
    ensures x % d == r
  {
    var q', r' := x / d, x % d;
    assert x == d * q' + r';
    assert d * (q - q') == r' - r;
    SmallMultiple(d, q - q');
  }

  /** Taking x modulo 2p is taking x / 2 modulo p, shifted back, plus the low bit. */
  lemma ModDouble(x: nat, p: nat)
    requires p >= 1
    ensures x % (2 * p) == 2 * ((x / 2) % p) + x % 2
  {
    var h := x / 2;
    var q, r := h / p, h % p;
    assert h == p * q + r;
    assert x == (2 * p) * q + (2 * r + x % 2);
    ModUnique(x, 2 * p, q, 2 * r + x % 2);
  }

  /** AND with the low mask 2^k - 1 keeps exactly the value modulo 2^k. */
  lemma {:induction false} AndLowMaskMod(x: nat, k: nat)
    ensures And(x, Pow2(k) - 1) == x % Pow2(k)
  {
    if k == 0 {
      assert Pow2(k) == 1;
    } else if x == 0 {
      ModUnique(0, Pow2(k), 0, 0);
    } else {
      var p := Pow2(k - 1);
      var m := Pow2(k) - 1;
      assert m == 2 * (p - 1) + 1;
      assert m / 2 == p - 1 && m % 2 == 1;
      AndLowMaskMod(x / 2, k - 1);
      assert And(x, m) == 2 * And(x / 2, p - 1) + x % 2;
      ModDouble(x, p);
      assert Pow2(k) == 2 * p;
    }
  }
}
