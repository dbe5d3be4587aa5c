/** Arithmetic of 64-bit words on the naturals below 2^64. */
module Words {
  import opened Common

  const TWO_64: nat := 0x1_0000_0000_0000_0000
  const TWO_17: nat := 0x2_0000
  const TWO_24: nat := 0x100_0000
  const TWO_34: nat := 0x4_0000_0000
  const TWO_47: nat := 0x8000_0000_0000

  /** Bitwise exclusive or. */
  function Xor(a: nat, b: nat): nat {
    if a == 0 && b == 0 then 0
    else 2 * Xor(a / 2, b / 2) + if a % 2 == b % 2 then 0 else 1
  }

  lemma {:induction false} XorTwice(a: nat, b: nat)
    ensures Xor(Xor(a, b), b) == a
  {
    if !(a == 0 && b == 0) {
      var x := Xor(a / 2, b / 2);
      var bit := if a % 2 == b % 2 then 0 else 1;
      assert Xor(a, b) / 2 == x && Xor(a, b) % 2 == bit;
      XorTwice(a / 2, b / 2);
    }
  }

  lemma {:induction false} XorZero(a: nat)
    ensures Xor(a, 0) == a && Xor(a, a) == 0
  {
    if a != 0 {
      XorZero(a / 2);
    }
  }

  lemma {:induction false} XorAtMostSum(a: nat, b: nat)
    ensures Xor(a, b) <= a + b
  {
    if !(a == 0 && b == 0) {
      XorAtMostSum(a / 2, b / 2);
    }
  }

  lemma XorInjective(a: nat, a': nat, b: nat)
    requires Xor(a, b) == Xor(a', b)
    ensures a == a'
  {
    XorTwice(a, b);
    XorTwice(a', b);
  }

  lemma {:induction false} XorCommutes(a: nat, b: nat)
    ensures Xor(a, b) == Xor(b, a)
  {
    if !(a == 0 && b == 0) {
      XorCommutes(a / 2, b / 2);
    }
  }

  lemma {:induction false} XorAssociates(a: nat, b: nat, c: nat)
    ensures Xor(Xor(a, b), c) == Xor(a, Xor(b, c))
    decreases a + b + c
  {
    if a + b + c > 0 {
      XorAssociates(a / 2, b / 2, c / 2);
      XorHalves(a, b);
      XorHalves(b, c);
      XorHalves(Xor(a, b), c);
      XorHalves(a, Xor(b, c));
      XorFromHalves(Xor(Xor(a, b), c), Xor(a, Xor(b, c)));
    }
  }

  lemma XorHalves(a: nat, b: nat)
    ensures Xor(a, b) / 2 == Xor(a / 2, b / 2) && Xor(a, b) % 2 == if a % 2 == b % 2 then 0 else 1
  {
  }

  lemma XorFromHalves(x: nat, y: nat)
    requires x / 2 == y / 2 && x % 2 == y % 2
    ensures x == y
  {
  }

  /** Changing one operand and making up for it in the other. */
  lemma XorMakesUp(a: nat, b: nat, r: nat)
    ensures Xor(b, Xor(r, Xor(a, b))) == Xor(a, r)
  {
    XorAssociates(r, a, b);
    XorCommutes(b, Xor(Xor(r, a), b));
    XorTwice(Xor(r, a), b);
    XorCommutes(r, a);
  }

  function Power2(n: nat): (p: nat)
    ensures p > 0
  {
    if n == 0 then 1 else 2 * Power2(n - 1)
  }

  predicate PowerOfTwo(a: nat) {
    a == 1 || (a > 0 && a % 2 == 0 && PowerOfTwo(a / 2))
  }

  lemma {:induction false} Exponent(a: nat) returns (n: nat)
    requires PowerOfTwo(a)
    ensures a == Power2(n)
  {
    n := 0;
    if a != 1 {
      n := Exponent(a / 2);
      n := n + 1;
    }
  }

  /** Bitwise and. */
  function And(a: nat, b: nat): nat {
    if a == 0 || b == 0 then 0
    else 2 * And(a / 2, b / 2) + if a % 2 == 1 && b % 2 == 1 then 1 else 0
  }

  lemma ModDouble(x: nat, m: nat)
    requires m > 0
    ensures x % (2 * m) == 2 * (x / 2 % m) + x % 2
  {
    var q, r := x / 2 / m, x / 2 % m;
    assert x / 2 == q * m + r;
    DoubleProduct(q, m);
    DivModUnique(x, 2 * m, q, 2 * r + x % 2);
  }

  lemma DoubleProduct(q: nat, m: nat)
    ensures q * (2 * m) == 2 * (q * m)
  {
  }

  /** The low bits of a mask of ones select the remainder. */
  lemma {:induction false} LowMask(x: nat, k: nat)
    ensures And(x, Power2(k) - 1) == x % Power2(k)
  {
    if k > 0 {
      LowMask(x / 2, k - 1);
      ModDouble(x, Power2(k - 1));
    }
  }

  lemma RoundDouble(x: nat, a: nat, w: nat)
    requires a > 0 && w > 0
    ensures (x - x % (2 * a)) % (2 * w) == 2 * ((x / 2 - x / 2 % a) % w)
  {
    RoundDown(x / 2, a);
    var y := x / 2 - x / 2 % a;
    ModDouble(x, a);
    assert x - x % (2 * a) == 2 * y;
    ModDouble(2 * y, w);
  }

  lemma AndEven(x: nat, b: nat, c: nat)
    requires c == 2 * b
    ensures And(x, c) == 2 * And(x / 2, b)
  {
  }

  /** Bits `j` to `k` - 1 of `x`. */
  function Between(x: nat, j: nat, k: nat): nat
    requires j <= k
  {
    if j == 0 then x % Power2(k) else 2 * Between(x / 2, j - 1, k - 1)
  }

  lemma {:induction false} MaskSelects(x: nat, j: nat, k: nat)
    requires j <= k
    ensures Power2(j) <= Power2(k)
    ensures And(x, Power2(k) - Power2(j)) == Between(x, j, k)
  {
    if j == 0 {
      LowMask(x, k);
    } else {
      MaskSelects(x / 2, j - 1, k - 1);
      AndEven(x, Power2(k - 1) - Power2(j - 1), Power2(k) - Power2(j));
    }
  }

  lemma {:induction false} BetweenRoundsDown(x: nat, j: nat, k: nat)
    requires j <= k
    ensures Between(x, j, k) == (x - x % Power2(j)) % Power2(k)
  {
    if j > 0 {
      BetweenRoundsDown(x / 2, j - 1, k - 1);
      RoundDouble(x, Power2(j - 1), Power2(k - 1));
    }
  }

  /** Masking with ~(a - 1) in a k-bit word rounds down to a multiple of `a`, for a power of two. */
  lemma HighMask(x: nat, j: nat, k: nat)
    requires j <= k
    ensures Power2(j) <= Power2(k)
    ensures And(x, Power2(k) - Power2(j)) == (x - x % Power2(j)) % Power2(k)
  {
    MaskSelects(x, j, k);
    BetweenRoundsDown(x, j, k);
  }

  lemma PowerOf32()
    ensures Power2(32) == TWO_32
  {
    assert Power2(1) == 2;
    PowerAdds(1, 1);
    PowerAdds(2, 2);
    PowerAdds(4, 4);
    PowerAdds(8, 8);
    PowerAdds(16, 16);
  }

  lemma {:induction false} PowerGrows(m: nat, n: nat)
    requires m <= n
    ensures Power2(m) <= Power2(n)
  {
    if m < n {
      PowerGrows(m, n - 1);
    }
  }

  /** `x & ~(a - 1)` on 32-bit words. */
  lemma MaskRoundsDown(x: nat, a: nat)
    requires PowerOfTwo(a) && a <= TWO_32
    ensures And(x, TWO_32 - a) == (x - x % a) % TWO_32
  {
    var j := Exponent(a);
    PowerOf32();
    if j > 32 {
      PowerGrows(33, j);
    }
    HighMask(x, j, 32);
  }

  /** `(x + a - 1) & ~(a - 1)`, the way offsets are aligned, cut to 32 bits by the width of the mask. */
  lemma MaskIsAlignUp(x: nat, a: nat)
    requires PowerOfTwo(a) && a <= TWO_32
    ensures And(x + a - 1, TWO_32 - a) == AlignUp(x, a) % TWO_32
  {
    MaskedUp(x, a, x + a - 1, TWO_32 - a);
  }

  lemma MaskedUp(x: nat, a: nat, y: nat, mask: nat)
    requires PowerOfTwo(a) && a <= TWO_32 && y == x + a - 1 && mask == TWO_32 - a
    ensures And(y, mask) == AlignUp(x, a) % TWO_32
  {
    MaskRoundsDown(y, a);
    RoundedDownIsAlignUp(x, a, y);
  }

  lemma RoundedDownIsAlignUp(x: nat, a: nat, y: nat)
    requires a > 0 && y == x + a - 1
    ensures y - y % a == AlignUp(x, a)
  {
    RoundDown(y, a);
    var d := y - y % a;
    AlignUpUnique(x, a, d);
  }

  lemma MaskIsAlignUpNoWrap(x: nat, a: nat)
    requires PowerOfTwo(a) && a <= TWO_32 && x + a - 1 < TWO_32
    ensures And((x + a - 1) % TWO_32, TWO_32 - a) == AlignUp(x, a)
  {
    SmallMod(x + a - 1, TWO_32);
    MaskIsAlignUp(x, a);
    SmallMod(AlignUp(x, a), TWO_32);
  }

  lemma {:induction false} XorBound(a: nat, b: nat, n: nat)
    requires a < Power2(n) && b < Power2(n)
    ensures Xor(a, b) < Power2(n)
  {
    if !(a == 0 && b == 0) {
      XorBound(a / 2, b / 2, n - 1);
    }
  }

  lemma HalfOfQuotient(x: nat, m: nat)
    requires m > 0
    ensures x / (2 * m) == x / 2 / m
  {
    var q, r := x / 2 / m, x / 2 % m;
    assert x / 2 == q * m + r;
    DoubleProduct(q, m);
    DivModUnique(x, 2 * m, q, 2 * r + x % 2);
  }

  /** Words that agree above bit `n` differ by less than 2^n. */
  lemma {:induction false} SharedHigh(a: nat, b: nat, n: nat)
    requires a / Power2(n) == b / Power2(n)
    ensures Xor(a, b) < Power2(n)
  {
    if n == 0 {
      XorZero(a);
    } else {
      HalfOfQuotient(a, Power2(n - 1));
      HalfOfQuotient(b, Power2(n - 1));
      SharedHigh(a / 2, b / 2, n - 1);
      XorHalves(a, b);
    }
  }

  function Shift(a: nat, n: nat): nat {
    if n == 0 then a else 2 * Shift(a, n - 1)
  }

  lemma {:induction false} ShiftMultiplies(a: nat, n: nat)
    ensures Shift(a, n) == a * Power2(n)
  {
    if n > 0 {
      ShiftMultiplies(a, n - 1);
      DoubleProduct(a, Power2(n - 1));
    }
  }

  /** Above bit `n`, exclusive or leaves the low bits alone. */
  lemma {:induction false} XorShifted(a: nat, x: nat, low: nat, n: nat)
    requires low < Power2(n)
    ensures Xor(Shift(a, n) + low, Shift(x, n)) == Shift(Xor(a, x), n) + low
  {
    if n > 0 {
      XorShifted(a, x, low / 2, n - 1);
      XorDoubled(Shift(a, n) + low, Shift(x, n), Shift(a, n - 1) + low / 2, Shift(x, n - 1), low % 2);
    }
  }

  /** Exclusive or, from the halves and the last bit. */
  lemma XorDoubled(a: nat, b: nat, p: nat, q: nat, bit: nat)
    requires bit < 2 && a == 2 * p + bit && b == 2 * q
    ensures Xor(a, b) == 2 * Xor(p, q) + bit
  {
    XorHalves(a, b);
  }

  lemma Xor64(a: nat, b: nat)
    requires a < TWO_64 && b < TWO_64
    ensures Xor(a, b) < TWO_64
  {
    PowerOf64();
    XorBound(a, b, 64);
  }

  lemma PowerOf24()
    ensures Power2(24) == TWO_24
  {
    assert Power2(1) == 2;
    PowerAdds(1, 1);
    PowerAdds(2, 2);
    PowerAdds(4, 4);
    PowerAdds(8, 8);
    PowerAdds(16, 8);
  }

  lemma PowerOf34()
    ensures Power2(34) == TWO_34
  {
    assert Power2(1) == 2;
    PowerAdds(1, 1);
    PowerOf32();
    PowerAdds(32, 2);
  }

  lemma PowerOf64()
    ensures Power2(64) == TWO_64
  {
    PowerOf32();
    PowerAdds(32, 32);
  }

  lemma {:induction false} PowerAdds(m: nat, n: nat)
    ensures Power2(m + n) == Power2(m) * Power2(n)
  {
    if n > 0 {
      PowerAdds(m, n - 1);
    }
  }

  /** Rotate a 64-bit word; the two halves of the or have no bit in common. */
  function RotateLeft17(x: nat): nat {
    x * TWO_17 % TWO_64 + x / TWO_47
  }

  function RotateRight17(x: nat): nat {
    x / TWO_17 + x * TWO_47 % TWO_64
  }

  lemma RotateBack(x: nat)
    requires x < TWO_64
    ensures RotateLeft17(x) < TWO_64 && RotateRight17(RotateLeft17(x)) == x
  {
    var q, r := x / TWO_47, x % TWO_47;
    assert x == q * TWO_47 + r && q < TWO_17;
    assert x * TWO_17 == q * TWO_64 + r * TWO_17;
    assert RotateLeft17(x) == r * TWO_17 + q;
    var y := r * TWO_17 + q;
    assert y / TWO_17 == r && y * TWO_47 == r * TWO_64 + q * TWO_47;
  }

  lemma RotateForth(x: nat)
    requires x < TWO_64
    ensures RotateRight17(x) < TWO_64 && RotateLeft17(RotateRight17(x)) == x
  {
    var q, r := x / TWO_17, x % TWO_17;
    Swapped(q, r, RotateRight17(x));
  }

  lemma Swapped(q: nat, r: nat, y: nat)
    requires q < TWO_47 && r < TWO_17 && y == q + (q * TWO_17 + r) * TWO_47 % TWO_64
    ensures y < TWO_64 && RotateLeft17(y) == q * TWO_17 + r
  {
    DivModUnique((q * TWO_17 + r) * TWO_47, TWO_64, q, r * TWO_47);
    DivModUnique(y, TWO_47, r, q);
    DivModUnique(y * TWO_17, TWO_64, r, q * TWO_17);
  }

  /** Multiplying by an odd constant loses nothing modulo 2^64: `inverse` undoes it. */
  lemma MultiplyInjective(x: nat, y: nat, c: nat, inverse: nat, k: nat)
    requires x < TWO_64 && y < TWO_64
    requires c * inverse == k * TWO_64 + 1
    requires x * c % TWO_64 == y * c % TWO_64
    ensures x == y
  {
    MultiplyBack(x, c, inverse, k);
    MultiplyBack(y, c, inverse, k);
  }

  lemma MultiplyBack(x: nat, c: nat, inverse: nat, k: nat)
    requires x < TWO_64 && c * inverse == k * TWO_64 + 1
    ensures (x * c % TWO_64) * inverse % TWO_64 == x
  {
    var q, r := x * c / TWO_64, x * c % TWO_64;
    assert x * c == q * TWO_64 + r;
    assert x * c * inverse == x * (c * inverse) == x * k * TWO_64 + x;
    assert x * c * inverse == q * inverse * TWO_64 + r * inverse;
    assert r * inverse == (x * k - q * inverse) * TWO_64 + x;
    DivModUnique(r * inverse, TWO_64, x * k - q * inverse, x);
  }
}
