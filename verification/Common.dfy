/** Small datatypes and arithmetic shared by every component. */
module Common {

  datatype Option<+T> = None | Some(value: T)

  const TWO_32: nat := 0x1_0000_0000

  /** Round `x` up to the next multiple of `a`. */
  function AlignUp(x: nat, a: nat): (r: nat)
    requires a > 0
    ensures x <= r < x + a
  {
    if x == 0 then 0 else if x <= a then a else a + AlignUp(x - a, a)
  }

  lemma {:induction false} AlignUpIsMultiple(x: nat, a: nat)
    requires a > 0
    ensures AlignUp(x, a) % a == 0
  {
    if x > a {
      AlignUpIsMultiple(x - a, a);
      AddMultiple(AlignUp(x - a, a), a);
    } else if x > 0 {
      MultipleMod(1, a);
    }
  }

  lemma {:induction false} MultipleMod(k: nat, a: nat)
    requires a > 0
    ensures (k * a) % a == 0
  {
    if k > 0 {
      MultipleMod(k - 1, a);
      assert k * a == (k - 1) * a + a;
      AddMultiple((k - 1) * a, a);
    }
  }

  /** Adding the modulus changes neither the remainder nor anything but one unit of the quotient. */
  lemma AddMultiple(x: nat, a: nat)
    requires a > 0
    ensures (x + a) % a == x % a
    ensures (x + a) / a == x / a + 1
  {
    var q := x / a;
    var r := x % a;
    assert x + a == (q + 1) * a + r;
    DivModUnique(x + a, a, q + 1, r);
  }

  lemma MulAtLeast(d: int, a: nat)
    requires d >= 1
    ensures d * a >= a
  {
    assert (d - 1) * a >= 0;
  }

  /** Reducing a number below twice the modulus. */
  lemma ModOnce(x: nat, a: nat)
    requires a > 0 && x < 2 * a
    ensures x % a == if x < a then x else x - a
  {
    if x < a {
      DivModUnique(x, a, 0, x);
    } else {
      DivModUnique(x, a, 1, x - a);
    }
  }

  lemma SmallMod(x: nat, m: nat)
    requires x < m
    ensures x % m == x
  {
  }

  lemma DivModUnique(x: int, a: nat, q: int, r: int)
    requires a > 0 && 0 <= r < a && x == q * a + r
    ensures x / a == q && x % a == r
  {
    var q' := x / a;
    var r' := x % a;
    assert (q - q') * a == r' - r;
    if q - q' >= 1 {
      MulAtLeast(q - q', a);
    } else if q' - q >= 1 {
      MulAtLeast(q' - q, a);
    }
  }

  lemma SumOfMultiples(x: nat, y: nat, a: nat)
    requires a > 0 && x % a == 0 && y % a == 0
    ensures (x + y) % a == 0
  {
    var i, j := x / a, y / a;
    assert x + y == (i + j) * a + 0;
    DivModUnique(x + y, a, i + j, 0);
  }

  /** Different multiples of `a` are at least `a` apart. */
  lemma MultiplesApart(x: nat, y: nat, a: nat)
    requires a > 0 && x % a == 0 && y % a == 0 && x < y
    ensures x + a <= y
  {
    var i, j := x / a, y / a;
    assert x == i * a && y == j * a;
    assert (j - i) * a == y - x;
    if j > i {
      MulAtLeast(j - i, a);
    }
  }

  /** No other multiple of `a` lies in `[x, x + a)`. */
  lemma AlignUpUnique(x: nat, a: nat, r: nat)
    requires a > 0 && r % a == 0 && x <= r < x + a
    ensures AlignUp(x, a) == r
  {
    AlignUpIsMultiple(x, a);
    if r < AlignUp(x, a) {
      MultiplesApart(r, AlignUp(x, a), a);
    } else if AlignUp(x, a) < r {
      MultiplesApart(AlignUp(x, a), r, a);
    }
  }

  /** A multiple of `a` is left alone, and a multiple can be taken out of the sum. */
  lemma AlignUpMultiple(x: nat, m: nat, a: nat)
    requires a > 0 && m % a == 0
    ensures AlignUp(m, a) == m
    ensures AlignUp(m + x, a) == m + AlignUp(x, a)
  {
    AlignUpUnique(m, a, m);
    AlignUpIsMultiple(x, a);
    SumOfMultiples(m, AlignUp(x, a), a);
    AlignUpUnique(m + x, a, m + AlignUp(x, a));
  }

  /** Aligning to 256 bytes without a loop. */
  lemma AlignUp256(x: nat)
    ensures AlignUp(x, 256) == (x + 255) / 256 * 256
  {
    AlignUpUnique(x, 256, (x + 255) / 256 * 256);
  }

  lemma RoundDown(x: nat, a: nat)
    requires a > 0
    ensures 0 <= x - x % a && (x - x % a) % a == 0
    ensures x - a < x - x % a <= x
  {
    assert x == x / a * a + x % a;
    MultipleMod(x / a, a);
  }

  // ---------------------------------------------------------------- counting

  function Range(n: nat): (r: set<nat>)
    ensures |r| == n && forall k: nat :: k in r <==> k < n
  {
    if n == 0 then {} else Range(n - 1) + {n - 1}
  }

  function Image(xs: seq<nat>): (r: set<nat>)
    ensures forall x :: x in r <==> x in xs
  {
    if xs == [] then {} else Image(xs[..|xs| - 1]) + {xs[|xs| - 1]}
  }

  lemma {:induction false} ImageSize(xs: seq<nat>)
    requires forall i, j :: 0 <= i < j < |xs| ==> xs[i] != xs[j]
    ensures |Image(xs)| == |xs|
  {
    if xs != [] {
      ImageSize(xs[..|xs| - 1]);
    }
  }

  lemma {:induction false} SubsetSize(x: set<nat>, y: set<nat>)
    requires x <= y
    ensures |x| <= |y|
  {
    if x != {} {
      var e :| e in x;
      SubsetSize(x - {e}, y - {e});
    }
  }

  /** More positions than values: some value repeats. */
  lemma Pigeonhole(xs: seq<nat>, n: nat) returns (i: nat, j: nat)
    requires |xs| > n && forall k :: 0 <= k < |xs| ==> xs[k] < n
    ensures i < j < |xs| && xs[i] == xs[j]
  {
    if forall a, b :: 0 <= a < b < |xs| ==> xs[a] != xs[b] {
      ImageSize(xs);
      SubsetSize(Image(xs), Range(n));
    }
    i, j :| 0 <= i < j < |xs| && xs[i] == xs[j];
  }
}
