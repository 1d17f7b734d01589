/**
 * Arithmetic behind the shift-based encodings: powers of two, the kernel's
 * get_count_order (the number of bits needed to index n slots), and a
 * bitwise OR on naturals for the older OR-composed keymap index.
 */
module Bits {

  function Pow2(k: nat): (p: nat)
    ensures p >= 1
  {
    if k == 0 then 1 else 2 * Pow2(k - 1)
  }

  lemma {:induction false} Pow2Add(a: nat, b: nat)
    ensures Pow2(a + b) == Pow2(a) * Pow2(b)
  {
    if b > 0 {
      Pow2Add(a, b - 1);
      calc {
        Pow2(a + b);
        2 * Pow2(a + b - 1);
        2 * (Pow2(a) * Pow2(b - 1));
        Pow2(a) * (2 * Pow2(b - 1));
      }
    }
  }

  lemma {:induction false} Pow2Monotone(a: nat, b: nat)
    requires a <= b
    ensures Pow2(a) <= Pow2(b)
  {
    if a < b {
      Pow2Monotone(a, b - 1);
    }
  }

  /**
   * get_count_order(n) for n >= 1: the least k such that n <= 2^k, that is
   * the ceiling of log2(n). The kernel helper is defined through fls(); the
   * two ensures below pin its value down uniquely (see CountOrderUnique).
   */
  function CountOrder(n: nat): (k: nat)
    requires n >= 1
    ensures n <= Pow2(k)
    ensures k > 0 ==> Pow2(k - 1) < n
    decreases n
  {
    if n == 1 then 0 else 1 + CountOrder((n + 1) / 2)
  }

  /** Any k that has CountOrder's two properties is CountOrder(n). */
  lemma CountOrderUnique(n: nat, k: nat)
    requires n >= 1
    requires n <= Pow2(k)
    requires k > 0 ==> Pow2(k - 1) < n
    ensures k == CountOrder(n)
  {
    var j := CountOrder(n);
    if k < j {
      Pow2Monotone(k, j - 1);
    } else if j < k {
      Pow2Monotone(j, k - 1);
    }
  }

  /** A power of two needs exactly its exponent: get_count_order(2^k) == k. */
  lemma CountOrderOfPow2(k: nat)
    ensures CountOrder(Pow2(k)) == k
  {
    if k > 0 {
      assert Pow2(k - 1) < Pow2(k);
    }
    CountOrderUnique(Pow2(k), k);
  }

  /** C's `|` on non-negative integers, bit by bit from the least significant. */
  function BitOr(a: nat, b: nat): nat
    decreases a + b
  {
    if a == 0 then b
    else if b == 0 then a
    else 2 * BitOr(a / 2, b / 2) + (if a % 2 == 1 || b % 2 == 1 then 1 else 0)
  }

  /** OR-ing a value below 2^k into a multiple of 2^k is addition: the bits do not overlap. */
  lemma {:induction false} BitOrDisjoint(a: nat, b: nat, k: nat)
    requires b < Pow2(k)
    ensures BitOr(a * Pow2(k), b) == a * Pow2(k) + b
  {
    if k > 0 && a != 0 && b != 0 {
      var h := a * Pow2(k - 1);
      assert a * Pow2(k) == 2 * h;
      BitOrDisjoint(a, b / 2, k - 1);
      assert BitOr(2 * h, b) == 2 * BitOr(h, b / 2) + b % 2;
    }
  }

  /** C's `&` on non-negative integers, bit by bit from the least significant. */
  function BitAnd(a: nat, b: nat): (r: nat)
    ensures r <= a && r <= b
    decreases a + b
  {
    if a == 0 || b == 0 then 0
    else 2 * BitAnd(a / 2, b / 2) + (if a % 2 == 1 && b % 2 == 1 then 1 else 0)
  }

  /** Quotient and remainder by m are unique. */
  lemma DivModUnique(a1: nat, b1: nat, a2: nat, b2: nat, m: nat)
    requires b1 < m && b2 < m
    requires a1 * m + b1 == a2 * m + b2
    ensures a1 == a2 && b1 == b2
  {
    if a1 < a2 {
      MulLeMono(a1 + 1, a2, m);
      assert false;
    } else if a2 < a1 {
      MulLeMono(a2 + 1, a1, m);
      assert false;
    }
  }

  lemma MulLeMono(x: nat, y: nat, m: nat)
    requires x <= y
    ensures x * m <= y * m
  {
  }

  /** Collecting a common factor q. */
  lemma Regroup(a: nat, b: nat, c: nat, q: nat)
    ensures a * (b * q) + c * q == (a * b + c) * q
  {
  }

  /** Spreading a factor p over a sum with a multiplied term. */
  lemma Distribute(p: nat, q: nat, x: nat, y: nat)
    ensures p * (q * x + y) == (p * q) * x + p * y
  {
  }

  /** Dividing p*q + s by p, for s below p, gives back q and s. */
  lemma DivPlus(p: nat, q: nat, s: nat)
    requires s < p
    ensures (p * q + s) / p == q && (p * q + s) % p == s
  {
    var x := p * q + s;
    assert x == (x / p) * p + x % p;
    assert q * p == p * q;
    DivModUnique(x / p, x % p, q, s, p);
  }

  /** Halving then dividing by p is dividing by 2p. */
  lemma DivHalf(a: nat, p: nat)
    requires p >= 1
    ensures a / 2 / p == a / (2 * p)
  {
    var q, r := a / (2 * p), a % (2 * p);
    assert a == (2 * p) * q + r;
    assert a / 2 == p * q + r / 2;
    DivPlus(p, q, r / 2);
  }

  /** Masking with the single bit 2^j keeps exactly that bit of a. */
  lemma {:induction false} BitAndPow2(a: nat, j: nat)
    ensures BitAnd(a, Pow2(j)) == Pow2(j) * (a / Pow2(j) % 2)
  {
    if j > 0 && a != 0 {
      var h := Pow2(j - 1);
      assert Pow2(j) == 2 * h;
      BitAndEven(a, h);
      BitAndPow2(a / 2, j - 1);
      DivHalf(a, h);
      Assoc2(h, a / (2 * h) % 2);
    } else if j == 0 {
      assert Pow2(0) == 1;
      assert BitAnd(a, 1) == a % 2;
    } else {
      DivPlus(Pow2(j), 0, 0);
    }
  }

  /** A single-bit mask p = 2^j meets a exactly when bit j of a is set. */
  lemma MaskMeetsBit(a: nat, j: nat, p: nat)
    requires p == Pow2(j)
    ensures BitAnd(a, p) != 0 <==> a / p % 2 == 1
  {
    BitAndPow2(a, j);
  }

  /** The powers of two behind the 16-bit keycode flags. */
  lemma Pow2Flags()
    ensures Pow2(8) == 0x100 && Pow2(9) == 0x200 && Pow2(10) == 0x400
    ensures Pow2(11) == 0x800 && Pow2(12) == 0x1000
  {
    assert Pow2(4) == 16;
    assert Pow2(8) == 0x100;
  }

  /** An even mask drops the lowest bit: a & 2h is twice (a / 2) & h. */
  lemma BitAndEven(a: nat, h: nat)
    requires a != 0 && h >= 1
    ensures BitAnd(a, 2 * h) == 2 * BitAnd(a / 2, h)
  {
    assert (2 * h) / 2 == h && (2 * h) % 2 == 0;
  }

  lemma Assoc2(h: nat, t: nat)
    ensures 2 * (h * t) == (2 * h) * t
  {
  }

  /** Two numbers that share a set bit have a non-zero `&`. */
  lemma {:induction false} BitAndSharedBit(a: nat, b: nat, j: nat)
    requires a / Pow2(j) % 2 == 1 && b / Pow2(j) % 2 == 1
    ensures BitAnd(a, b) != 0
  {
    if j > 0 {
      var h := Pow2(j - 1);
      assert Pow2(j) == 2 * h;
      DivHalf(a, h);
      DivHalf(b, h);
      BitAndSharedBit(a / 2, b / 2, j - 1);
    }
  }
}
