/**
 Whole numbers as IEEE 754 doubles: a number is rounded to the nearest double, of two
 equally near ones to the even one, and to infinity beyond the largest.
 */
module Doubles {
  datatype Double = Finite(value: nat) | Infinite

  const TWO53: nat := 0x20_0000_0000_0000
  const MAX_SAFE: nat := TWO53 - 1

  function Pow2(k: nat): (power: nat)
    ensures power > 0
  {
    if k == 0 then 1 else 2 * Pow2(k - 1)
  }

  /** The distance between the doubles around `n`. */
  function Unit(n: nat): (u: nat)
    ensures u > 0 && n < TWO53 * u && (u > 1 ==> TWO53 * u <= 2 * n)
  {
    if n < TWO53 then 1 else 2 * Unit(n / 2)
  }

  /** The multiple of `u` nearest to `n`. */
  function RoundTo(n: nat, u: nat): nat
    requires u > 0
  {
    var q, r := n / u, n % u;
    if 2 * r < u || (2 * r == u && q % 2 == 0) then q * u else (q + 1) * u
  }

  function Nearest(n: nat): nat {
    RoundTo(n, Unit(n))
  }

  /** `Number` on a row of digits with this value. */
  function Number(n: nat): Double {
    if Nearest(n) < Pow2(1024) then Finite(Nearest(n)) else Infinite
  }

  lemma Pow2Plus8(k: nat)
    ensures Pow2(k + 8) == 256 * Pow2(k)
  {
    assert Pow2(k + 2) == 2 * Pow2(k + 1) == 4 * Pow2(k);
    assert Pow2(k + 4) == 2 * Pow2(k + 3) == 4 * Pow2(k + 2);
    assert Pow2(k + 6) == 2 * Pow2(k + 5) == 4 * Pow2(k + 4);
    assert Pow2(k + 8) == 2 * Pow2(k + 7) == 4 * Pow2(k + 6);
  }

  lemma Pow2Of53()
    ensures Pow2(53) == TWO53
  {
    assert Pow2(5) == 32;
    Pow2Plus8(5);
    Pow2Plus8(13);
    Pow2Plus8(21);
    Pow2Plus8(29);
    Pow2Plus8(37);
    Pow2Plus8(45);
  }

  lemma {:induction false} Pow2AtLeast(k: nat)
    requires k >= 53
    ensures Pow2(k) >= TWO53
  {
    if k == 53 {
      Pow2Of53();
    } else {
      Pow2AtLeast(k - 1);
    }
  }

  lemma NumberIsExact(n: nat)
    requires n <= MAX_SAFE
    ensures Number(n) == Finite(n)
  {
    Pow2AtLeast(1024);
  }

  /** The first two whole numbers that share a double. */
  lemma FirstMerge()
    ensures Number(TWO53) == Number(TWO53 + 1) == Finite(TWO53)
  {
    Pow2AtLeast(1023);
    assert Unit(TWO53 / 2) == 1 && Unit(TWO53) == 2 && Unit(TWO53 + 1) == 2;
    assert Pow2(1024) == 2 * Pow2(1023);
  }

  lemma RoundToMonotone(m: nat, n: nat, u: nat)
    requires m <= n && u > 0
    ensures RoundTo(m, u) <= RoundTo(n, u)
  {
    var q, p := m / u, n / u;
    QuotientMonotone(m, n, u);
    if q < p {
      Multiples(q + 1, p, u);
    } else {
      assert m == q * u + m % u && n == q * u + n % u;
    }
    Multiples(p, p + 1, u);
    Multiples(q, q + 1, u);
  }

  lemma QuotientMonotone(m: nat, n: nat, u: nat)
    requires m <= n && u > 0
    ensures m / u <= n / u
  {
    if m / u > n / u {
      Multiples(n / u + 1, m / u, u);
    }
  }

  lemma Multiples(a: nat, b: nat, u: nat)
    requires a <= b
    ensures a * u <= b * u
  {
    assert b * u == a * u + (b - a) * u;
  }

  lemma {:induction false} UnitMonotone(m: nat, n: nat)
    requires m <= n
    ensures Unit(m) == Unit(n) || 2 * Unit(m) <= Unit(n)
  {
    if m >= TWO53 {
      UnitMonotone(m / 2, n / 2);
    } else if n >= TWO53 {
      assert Unit(n) == 2 * Unit(n / 2);
    }
  }

  lemma RoundsUpTo(n: nat, u: nat, bound: nat)
    requires u > 0 && n <= bound * u
    ensures RoundTo(n, u) <= bound * u
  {
    RoundToMonotone(n, bound * u, u);
    RoundsExactly(bound, u);
  }

  lemma RoundsExactly(q: nat, u: nat)
    requires u > 0
    ensures RoundTo(q * u, u) == q * u
  {
    assert (q * u) / u == q && (q * u) % u == 0 by {
      var d := (q * u) / u;
      assert q * u == d * u + (q * u) % u;
      if d < q {
        Multiples(d + 1, q, u);
      } else if d > q {
        Multiples(q + 1, d, u);
      }
    }
  }

  /** Rounding never reverses two numbers. */
  lemma NearestMonotone(m: nat, n: nat)
    requires m <= n
    ensures Nearest(m) <= Nearest(n)
  {
    var u, w := Unit(m), Unit(n);
    UnitMonotone(m, n);
    if u == w {
      RoundToMonotone(m, n, u);
    } else {
      RoundsUpTo(m, u, TWO53);
      var half := TWO53 / 2;
      assert TWO53 * u <= half * w;
      RoundToMonotone(half * w, n, w);
      RoundsExactly(half, w);
    }
  }

  /** A larger double comes from a larger number. */
  lemma NumberReflects(m: nat, n: nat)
    requires Number(m).Finite? && (Number(n).Infinite? || Number(m).value < Number(n).value)
    ensures m < n
  {
    if n <= m {
      NearestMonotone(n, m);
    }
  }

  lemma {:induction false} UnitOfPower(k: nat)
    requires k >= 53
    ensures Pow2(k) == (TWO53 / 2) * Unit(Pow2(k))
  {
    if k == 53 {
      Pow2Of53();
      assert Unit(TWO53 / 2) == 1;
    } else {
      UnitOfPower(k - 1);
      Pow2AtLeast(k);
      assert Pow2(k) / 2 == Pow2(k - 1);
    }
  }

  /** From the first power of two beyond the doubles on, every number is infinite. */
  lemma HugeIsInfinite(n: nat)
    requires n >= Pow2(1024)
    ensures Number(n) == Infinite
  {
    UnitOfPower(1024);
    RoundsExactly(TWO53 / 2, Unit(Pow2(1024)));
    NearestMonotone(Pow2(1024), n);
  }

  // ---- the nearest double ----

  function Distance(a: nat, b: nat): nat {
    if a < b then b - a else a - b
  }

  lemma {:induction false} UnitIsPower(n: nat) returns (k: nat)
    ensures Unit(n) == Pow2(k)
  {
    if n < TWO53 {
      k := 0;
    } else {
      k := UnitIsPower(n / 2);
      k := k + 1;
    }
  }

  lemma {:induction false} PowersDivide(j: nat, k: nat)
    requires j <= k
    ensures Pow2(k) == Pow2(k - j) * Pow2(j)
  {
    if j < k {
      PowersDivide(j, k - 1);
    }
  }

  lemma MultiplesApart(b: nat, q: nat, u: nat)
    requires u > 0
    ensures q < b ==> q * u + u <= b * u
    ensures q > b + 1 ==> b * u + 2 * u <= q * u
    ensures q == b + 1 ==> q * u == b * u + u
  {
    assert (q + 1) * u == q * u + u && (b + 1) * u == b * u + u && (b + 2) * u == b * u + 2 * u;
    if q < b {
      Multiples(q + 1, b, u);
    } else if q > b + 1 {
      Multiples(b + 2, q, u);
    }
  }

  /** No multiple of the unit is nearer, and of two equally near ones it is the even one. */
  lemma RoundToIsNearest(n: nat, u: nat, q: nat) returns (p: nat)
    requires u > 0
    ensures RoundTo(n, u) == p * u
    ensures Distance(n, p * u) <= Distance(n, q * u)
    ensures Distance(n, p * u) == Distance(n, q * u) ==> p == q || p % 2 == 0
  {
    hide *;
    var b, r := RoundToBy(n, u);
    p := if 2 * r < u || (2 * r == u && b % 2 == 0) then b else b + 1;
    MultiplesApart(b, q, u);
    MultiplesApart(b, p, u);
    var x, y, z := b * u, q * u, p * u;
    assert z == if p == b then x else x + u;
    NearerOf(x, y, u, r, b, q, p);
  }

  lemma RoundToBy(n: nat, u: nat) returns (b: nat, r: nat)
    requires u > 0
    ensures n == b * u + r && r < u
    ensures RoundTo(n, u) == if 2 * r < u || (2 * r == u && b % 2 == 0) then b * u else b * u + u
  {
    b, r := n / u, n % u;
    assert (b + 1) * u == b * u + u;
  }

  /** The same with the products for numbers. */
  lemma NearerOf(x: nat, y: nat, u: nat, r: nat, b: nat, q: nat, p: nat)
    requires r < u
    requires p == if 2 * r < u || (2 * r == u && b % 2 == 0) then b else b + 1
    requires if q < b then y + u <= x else if q == b then y == x else if q == b + 1 then y == x + u else x + 2 * u <= y
    ensures var z := if p == b then x else x + u;
            && Distance(x + r, z) <= Distance(x + r, y)
            && (Distance(x + r, z) == Distance(x + r, y) ==> p == q || p % 2 == 0)
  {}

  /**
   Up to the range of doubles, `Nearest(n)` is a double, none is nearer to `n`, and if another
   is as near, its own last binary digit is zero.
   */
  lemma NearestIsNearest(n: nat, m: nat, k: nat) returns (p: nat, j: nat)
    requires m <= TWO53
    ensures Nearest(n) == p * Pow2(j) && p <= TWO53
    ensures Distance(n, Nearest(n)) <= Distance(n, m * Pow2(k))
    ensures Distance(n, Nearest(n)) == Distance(n, m * Pow2(k)) ==> Nearest(n) == m * Pow2(k) || p % 2 == 0
  {
    hide *;
    NumberSays(n);
    j := UnitIsPower(n);
    if j <= k {
      p := NearestOfCoarse(n, m, k, j);
    } else {
      p := NearestOfFine(n, m, k, j);
    }
    RoundsUpTo(n, Pow2(j), TWO53);
    MultiplesApart(TWO53, p, Pow2(j));
  }

  /** A multiple of a power at least the unit is one of the unit. */
  lemma NearestOfCoarse(n: nat, m: nat, k: nat, j: nat) returns (p: nat)
    requires j <= k
    ensures RoundTo(n, Pow2(j)) == p * Pow2(j)
    ensures var d := m * Pow2(k);
            Distance(n, p * Pow2(j)) <= Distance(n, d)
            && (Distance(n, p * Pow2(j)) == Distance(n, d) ==> p * Pow2(j) == d || p % 2 == 0)
  {
    hide *;
    var c := Pow2(k - j);
    PowersDivide(j, k);
    Associates(m, c, Pow2(j));
    p := RoundToIsNearest(n, Pow2(j), m * c);
  }

  /** One of a smaller power lies below the half range that the unit begins with. */
  lemma NearestOfFine(n: nat, m: nat, k: nat, j: nat) returns (p: nat)
    requires k < j && m <= TWO53 && Unit(n) == Pow2(j)
    ensures RoundTo(n, Pow2(j)) == p * Pow2(j)
    ensures var d := m * Pow2(k);
            Distance(n, p * Pow2(j)) <= Distance(n, d)
            && (Distance(n, p * Pow2(j)) == Distance(n, d) ==> p * Pow2(j) == d || p % 2 == 0)
  {
    hide *;
    var half := TWO53 / 2;
    p := RoundToIsNearest(n, Pow2(j), half);
    FineIsBelow(n, m, k, j);
    NearerBelow(n, m * Pow2(k), half * Pow2(j), p * Pow2(j));
  }

  lemma FineIsBelow(n: nat, m: nat, k: nat, j: nat)
    requires k < j && m <= TWO53 && Unit(n) == Pow2(j)
    ensures m * Pow2(k) <= (TWO53 / 2) * Pow2(j) <= n
  {
    var u := Unit(n);
    PowersDivide(k + 1, j);
    Multiples(1, Pow2(j - k - 1), Pow2(k + 1));
    Doubled(k);
    Multiples(m, TWO53, Pow2(k));
    BelowHalf(n, u, m * Pow2(k), Pow2(k));
  }

  lemma BelowHalf(n: nat, u: nat, d: nat, power: nat)
    requires u >= 2 * power && power > 0 && d <= TWO53 * power && TWO53 * u <= 2 * n
    ensures d <= (TWO53 / 2) * u <= n
  {}

  lemma NearerBelow(n: nat, d: nat, h: nat, z: nat)
    requires d <= h <= n && Distance(n, z) <= Distance(n, h)
    ensures Distance(n, z) <= Distance(n, d) && (Distance(n, z) == Distance(n, d) ==> d == h)
  {}

  lemma Associates(a: nat, b: nat, c: nat)
    ensures a * (b * c) == (a * b) * c
  {}

  lemma QuotientBelow(n: nat, bound: nat, u: nat)
    requires u > 0 && n < bound * u
    ensures n / u < bound
  {
    if n / u >= bound {
      Multiples(bound, n / u, u);
    }
  }

  /** Infinity begins half a unit below the power of two that would come after the largest double. */
  lemma InfinityBegins(n: nat)
    ensures Number(n) == Infinite <==> n >= Pow2(1024) - Pow2(970)
  {
    hide *;
    LastUnit();
    if n < Pow2(1023) {
      NearestMonotone(n, Pow2(1023));
    } else if n < Pow2(1024) {
      UnitsNear(n, Pow2(971));
      RoundsToTop(n, 2 * Pow2(970), Pow2(970));
    } else {
      HugeIsInfinite(n);
    }
    NumberSays(n);
  }

  lemma NumberSays(n: nat)
    ensures Number(n) == (if Nearest(n) < Pow2(1024) then Finite(Nearest(n)) else Infinite)
    ensures Nearest(n) == RoundTo(n, Unit(n))
  {
    hide Pow2, RoundTo, Unit;
  }

  lemma LastUnit()
    ensures Pow2(1024) == 2 * Pow2(1023) == TWO53 * Pow2(971) && Pow2(971) == 2 * Pow2(970)
    ensures Unit(Pow2(1023)) == Pow2(971) && Nearest(Pow2(1023)) == Pow2(1023) && Pow2(970) <= Pow2(1023)
  {
    hide *;
    var half := TWO53 / 2;
    UnitOfPower(1023);
    PowersDivide(971, 1023);
    Pow2Of53();
    Doubled(52);
    Doubled(1023);
    Doubled(970);
    var u, w := Unit(Pow2(1023)), Pow2(971);
    SameFactor(half, u, w);
    RoundsExactly(half, u);
    NumberSays(Pow2(1023));
  }

  lemma Doubled(k: nat)
    ensures Pow2(k + 1) == 2 * Pow2(k)
  {}

  lemma SameFactor(c: nat, u: nat, w: nat)
    requires c > 0 && c * u == c * w
    ensures u == w
  {
    if u < w {
      MultiplesApart(w, u, c);
    } else if w < u {
      MultiplesApart(u, w, c);
    }
  }

  lemma UnitsNear(n: nat, w: nat)
    requires Pow2(1023) <= n < TWO53 * w && Unit(Pow2(1023)) == w
    ensures Unit(n) == w
  {
    UnitMonotone(Pow2(1023), n);
    var u := Unit(n);
    assert u > 1 ==> TWO53 * u <= 2 * n;
    hide *;
  }

  /** Below the top, only the last half unit rounds to it. */
  lemma RoundsToTop(n: nat, u: nat, h: nat)
    requires u == 2 * h > 0 && n < TWO53 * u
    ensures RoundTo(n, u) >= TWO53 * u <==> n >= TWO53 * u - h
  {
    var q, r := RoundToBy(n, u);
    QuotientBelow(n, TWO53, u);
    hide *;
    MultiplesApart(q + 1, TWO53, u);
    MultiplesApart(q, q + 1, u);
    if q + 1 < TWO53 {
      MultiplesApart(TWO53, q + 1, u);
    }
  }
}
