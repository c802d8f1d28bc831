/** The bit operations the sources use, on non-negative integers of any size. */
module Bits {

  function And(x: nat, y: nat): nat {
    if x == 0 || y == 0 then 0 else (if x % 2 == 1 && y % 2 == 1 then 1 else 0) + 2 * And(x / 2, y / 2)
  }

  function Or(x: nat, y: nat): nat
    decreases x + y
  {
    if x == 0 then y else if y == 0 then x
    else (if x % 2 == 1 || y % 2 == 1 then 1 else 0) + 2 * Or(x / 2, y / 2)
  }

  function Shl(x: nat, n: nat): nat {
    if n == 0 then x else 2 * Shl(x, n - 1)
  }

  function Pow2(n: nat): (p: nat)
    ensures p > 0
  {
    if n == 0 then 1 else 2 * Pow2(n - 1)
  }

  /** Shifting in eight low bits by or is adding them. */
  lemma ShiftOr(x: nat, c: nat)
    requires c < 256
    ensures Or(Shl(x, 8), c) == 256 * x + c
  {
    ShiftOrBits(x, 8, 256, c);
  }

  lemma {:induction false} ShiftOrBits(x: nat, n: nat, p: nat, c: nat)
    requires p == Pow2(n) && c < p
    ensures Shl(x, n) == p * x && Or(Shl(x, n), c) == p * x + c
  {
    if n > 0 {
      var q := Pow2(n - 1);
      ShiftOrBits(x, n - 1, q, c / 2);
      assert p * x == 2 * (q * x) by { Assoc(q, x); }
      OrEven(Shl(x, n - 1), c);
    }
  }

  lemma Assoc(q: nat, x: nat)
    ensures (2 * q) * x == 2 * (q * x)
  {
  }

  lemma OrEven(y: nat, c: nat)
    ensures Or(2 * y, c) == c % 2 + 2 * Or(y, c / 2)
  {
    assert (2 * y) / 2 == y && (2 * y) % 2 == 0;
    assert c == c % 2 + 2 * (c / 2);
  }

  /** The high bit of an octet, and what is left without it. */
  lemma HighBit(x: nat)
    requires x < 256
    ensures And(x, 0x80) != 0 <==> x >= 128
    ensures And(x, 0x7f) == if x >= 128 then x - 128 else x
  {
    assert Pow2(3) == 8 && Pow2(5) == 4 * Pow2(3) && Pow2(7) == 4 * Pow2(5);
    TopBit(x, 7, 128);
    LowMask(x, 7, 128);
  }

  lemma {:induction false} TopBit(x: nat, n: nat, m: nat)
    requires m == Pow2(n) && x < 2 * m
    ensures And(x, m) == if x >= m then m else 0
  {
    if n == 0 {
      AndStep(x, 1, 0);
    } else {
      TopBit(x / 2, n - 1, Pow2(n - 1));
      AndStep(x, 0, Pow2(n - 1));
    }
  }

  lemma {:induction false} LowMask(x: nat, n: nat, m: nat)
    requires m == Pow2(n) && x < 2 * m
    ensures And(x, m - 1) == if x >= m then x - m else x
  {
    if n > 0 {
      LowMask(x / 2, n - 1, Pow2(n - 1));
      AndStep(x, 1, Pow2(n - 1) - 1);
    }
  }

  lemma AndStep(x: nat, bit: nat, y: nat)
    requires bit < 2
    ensures And(x, 2 * y + bit) == (if x % 2 == 1 && bit == 1 then 1 else 0) + 2 * And(x / 2, y)
  {
    assert (2 * y + bit) / 2 == y && (2 * y + bit) % 2 == bit;
  }

  /** The two low bits, which carry the message security level. */
  lemma LowTwoBits(f: nat)
    ensures And(f, 0) == 0
    ensures And(f, 1) == f % 2
    ensures And(f, 3) == f % 4
  {
    AndStep(f, 1, 0);
    AndStep(f, 1, 1);
    AndStep(f / 2, 1, 0);
  }
}
