/** Bitwise operators on natural numbers, and the arithmetic the masks and shifts of the words stand for. */
module Bits {
  import opened Modulo

  function Pow2(k: nat): (p: nat)
    ensures p > 0
  {
    if k == 0 then 1 else 2 * Pow2(k - 1)
  }

  function And(a: nat, b: nat): nat {
    if a == 0 || b == 0 then 0 else 2 * And(a / 2, b / 2) + (a % 2) * (b % 2)
  }

  function Or(a: nat, b: nat): nat {
    if a == 0 then b else if b == 0 then a else 2 * Or(a / 2, b / 2) + if a % 2 == 1 || b % 2 == 1 then 1 else 0
  }

  function Shl(a: nat, k: nat): nat { a * Pow2(k) }
  function Shr(a: nat, k: nat): nat { if k == 0 then a else Shr(a / 2, k - 1) }

  lemma {:induction false} Pow2Plus(j: nat, k: nat)
    ensures Pow2(j + k) == Pow2(j) * Pow2(k)
  {
    if j > 0 { Pow2Plus(j - 1, k); }
  }

  /** x % 2m from the halves of x. */
  lemma HalfMod(x: nat, m: nat)
    requires m > 0
    ensures x % (2 * m) == 2 * ((x / 2) % m) + x % 2
    ensures x / (2 * m) == (x / 2) / m
  {
    var q, r := (x / 2) / m, (x / 2) % m;
    assert x == 2 * (x / 2) + x % 2 && x / 2 == q * m + r;
    assert x == q * (2 * m) + (2 * r + x % 2) by { assert 2 * (q * m) == q * (2 * m); }
    assert 2 * r + x % 2 < 2 * m;
    ModUnique(x, 2 * m, q, 2 * r + x % 2);
  }

  lemma {:induction false} ShrIsDivision(a: nat, k: nat)
    ensures Shr(a, k) == a / Pow2(k)
  {
    if k > 0 {
      ShrIsDivision(a / 2, k - 1);
      HalfMod(a, Pow2(k - 1));
    }
  }

  /** Masking the low bits is a remainder. */
  lemma {:induction false} MaskIsModulo(x: nat, k: nat)
    ensures And(x, Pow2(k) - 1) == x % Pow2(k)
  {
    if k > 0 && x > 0 {
      var h, m := Pow2(k - 1), Pow2(k) - 1;
      assert m / 2 == h - 1 && m % 2 == 1 && m > 0;
      assert And(x, m) == 2 * And(x / 2, m / 2) + x % 2;
      hide And;
      HalfMod(x, h);
      MaskIsModulo(x / 2, k - 1);
    } else if x == 0 {
      ModSmall(0, Pow2(k));
    }
  }

  /** The complement, in a word of n bits, of the k low ones. */
  function HighMask(n: nat, k: nat): nat
    requires k <= n
  {
    Pow2Rises(k, n);
    Pow2(n) - Pow2(k)
  }

  /** Masking with it rounds down to a multiple. */
  lemma {:induction false} MaskRoundsDown(x: nat, n: nat, k: nat)
    requires x < Pow2(n) && k <= n
    ensures And(x, HighMask(n, k)) == x - x % Pow2(k)
  {
    if k == 0 {
      MaskIsModulo(x, n);
      SmallMod(x, Pow2(n));
    } else {
      HalfMod(x, Pow2(k - 1));
      assert HighMask(n, k) == 2 * HighMask(n - 1, k - 1);
      MaskRoundsDown(x / 2, n - 1, k - 1);
    }
  }

  lemma SmallMod(x: nat, m: nat)
    requires x < m
    ensures x % m == x
  {
    ModSmall(x, m);
  }

  lemma {:induction false} Pow2Rises(j: nat, k: nat)
    requires j <= k
    ensures Pow2(j) <= Pow2(k)
  {
    if j < k { Pow2Rises(j, k - 1); }
  }

  /** Or of a shifted word and bits below the shift is a sum. */
  lemma {:induction false} OrIsSum(a: nat, b: nat, k: nat)
    requires b < Pow2(k)
    ensures Or(Shl(a, k), b) == Shl(a, k) + b
  {
    if k > 0 {
      var s := a * Pow2(k);
      assert s == 2 * (a * Pow2(k - 1)) by { assert Pow2(k) == 2 * Pow2(k - 1); }
      OrIsSum(a, b / 2, k - 1);
    }
  }

  /** The two fields of a packed word. */
  lemma FieldsOf(a: nat, b: nat, k: nat)
    requires b < Pow2(k)
    ensures Shr(Shl(a, k) + b, k) == a && And(Shl(a, k) + b, Pow2(k) - 1) == b
  {
    ModUnique(a * Pow2(k) + b, Pow2(k), a, b);
    ShrIsDivision(a * Pow2(k) + b, k);
    MaskIsModulo(a * Pow2(k) + b, k);
  }

  // ----- powers of two -----

  /** is_power_of_two() */
  predicate IsPowerOfTwo(n: nat) { n > 0 && And(n, n - 1) == 0 }

  lemma {:induction false} AndPositive(a: nat, b: nat, x: nat)
    requires a / 2 == x && b / 2 == x && x > 0
    ensures And(a, b) > 0
  {
    AndSelf(x);
  }

  lemma {:induction false} AndSelf(x: nat)
    ensures And(x, x) == x
  {
    if x > 0 { AndSelf(x / 2); }
  }

  lemma OddPower(n: nat, k: nat)
    requires n % 2 == 1 && n > 1
    ensures n != Pow2(k)
  {
    assert k > 0 ==> Pow2(k) == 2 * Pow2(k - 1);
  }

  lemma HalfPower(n: nat, k: nat)
    requires n % 2 == 0 && n == Pow2(k)
    ensures k > 0 && n / 2 == Pow2(k - 1)
  {
    assert k > 0 ==> Pow2(k) == 2 * Pow2(k - 1);
  }

  /** The test finds exactly the powers of two. */
  lemma {:induction false} PowerOfTwoTest(n: nat)
    ensures IsPowerOfTwo(n) <==> exists k: nat :: n == Pow2(k)
  {
    if n == 0 {
    } else if n == 1 {
      assert n == Pow2(0);
      assert IsPowerOfTwo(1);
    } else if n % 2 == 1 {
      AndPositive(n, n - 1, n / 2);
      assert !IsPowerOfTwo(n);
      forall k: nat ensures n != Pow2(k) { OddPower(n, k); }
    } else {
      PowerOfTwoTest(n / 2);
      assert (n - 1) / 2 == n / 2 - 1;
      assert And(n, n - 1) == 2 * And(n / 2, n / 2 - 1);
      assert IsPowerOfTwo(n) <==> IsPowerOfTwo(n / 2);
      hide And, IsPowerOfTwo;
      if IsPowerOfTwo(n / 2) {
        var k: nat :| n / 2 == Pow2(k);
        assert n == Pow2(k + 1);
      }
      if k: nat :| n == Pow2(k) {
        HalfPower(n, k);
      }
    }
  }

  /** With a power-of-two capacity, `pos & mask` is the position modulo the capacity. */
  lemma RingIndex(pos: nat, capacity: nat)
    requires IsPowerOfTwo(capacity)
    ensures And(pos, capacity - 1) == pos % capacity
  {
    PowerOfTwoTest(capacity);
    var k: nat :| capacity == Pow2(k);
    MaskIsModulo(pos, k);
  }

  // ----- the powers the words use, and 64-bit sums -----

  const T24: nat := 0x100_0000
  const T32: nat := 0x1_0000_0000
  const T39: nat := 0x80_0000_0000
  const T40: nat := 0x100_0000_0000
  const T62: nat := 0x4000_0000_0000_0000
  const T63: nat := 0x8000_0000_0000_0000
  const T64: nat := 0x1_0000_0000_0000_0000

  lemma Powers()
    ensures Pow2(1) == 2 && Pow2(2) == 4 && Pow2(6) == 64
    ensures Pow2(24) == T24 && Pow2(32) == T32 && Pow2(39) == T39 && Pow2(40) == T40
    ensures Pow2(62) == T62 && Pow2(63) == T63 && Pow2(64) == T64
  {
    assert Pow2(6) == 64 && Pow2(8) == 256;
    Pow2Plus(8, 8);
    Pow2Plus(16, 8);
    Pow2Plus(16, 16);
    Pow2Plus(32, 8);
    assert Pow2(40) == 2 * Pow2(39);
    Pow2Plus(32, 32);
    assert Pow2(64) == 2 * Pow2(63) && Pow2(63) == 2 * Pow2(62);
  }

  type Size = x: nat | x < T64

  function Add64(a: nat, b: nat): Size { (a + b) % T64 }
  function Mul64(a: nat, b: nat): Size { (a * b) % T64 }

  function Sub64(a: Size, b: Size): Size { if b <= a then a - b else a + T64 - b }
}
