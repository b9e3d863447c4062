/**
  The part of the arbitrary-precision decimal library the conversion uses:
  a value is an integer coefficient times a power of ten, multiplication is
  exact, and rounding to a number of places goes to the nearest value with
  halves rounded away from zero.
*/
module Decimal {
  import opened Numerals

  /** The number coef * 10^exp. */
  datatype Dec = Dec(coef: int, exp: int)

  function Abs(x: int): nat { if x < 0 then -x else x }

  /**
    The value of d counted in units of 10^e (exact for any e at or below
    d's exponent): d stands for CoefAt(d, e) * 10^e.
  */
  ghost function CoefAt(d: Dec, e: int): int
    requires e <= d.exp
  {
    d.coef * Pow10(d.exp - e)
  }

  /** Two decimals denote the same number (however many trailing zeros they carry). */
  ghost predicate SameValue(a: Dec, b: Dec)
  {
    var e := if a.exp <= b.exp then a.exp else b.exp;
    CoefAt(a, e) == CoefAt(b, e)
  }

  /** The product of decimals, coefficients multiplied and exponents added. */
  function Mul(a: Dec, b: Dec): (r: Dec)
    ensures r.exp == a.exp + b.exp
  {
    Dec(a.coef * b.coef, a.exp + b.exp)
  }

  /** Multiplication never loses precision: in any units, the product's count is the product of the counts. */
  lemma MulExact(a: Dec, b: Dec, ea: int, eb: int)
    requires ea <= a.exp && eb <= b.exp
    ensures CoefAt(Mul(a, b), ea + eb) == CoefAt(a, ea) * CoefAt(b, eb)
  {
    var m, n := a.exp - ea, b.exp - eb;
    Pow10Add(m, n);
    var p, q := Pow10(m), Pow10(n);
    assert CoefAt(Mul(a, b), ea + eb) == (a.coef * b.coef) * (p * q);
    assert (a.coef * b.coef) * (p * q) == (a.coef * p) * (b.coef * q);
  }

  /**
    `r * q` is a multiple of q nearest to c: no further than half a step,
    and a value exactly half-way lies further from zero than c.
  */
  ghost predicate NearestHalfAway(c: int, r: int, q: nat)
  {
    && 2 * Abs(r * q - c) <= q
    && (2 * Abs(r * q - c) == q ==> (c >= 0 ==> r * q > c) && (c < 0 ==> r * q < c))
  }

  lemma MulAtLeast(k: int, q: nat)
    requires k >= 1
    ensures k * q >= q
  {
  }

  lemma Distrib(a: int, k: int, q: int)
    ensures (a + k) * q == a * q + k * q
  {
  }

  /** Euclidean division is the only quotient that brackets its dividend. */
  lemma DivUnique(x: int, q: nat, r: int)
    requires q > 0 && r * q <= x < r * q + q
    ensures r == x / q
  {
    var t, m := x / q, x % q;
    assert x == t * q + m && 0 <= m < q;
    if r < t {
      Distrib(r, t - r, q);
      MulAtLeast(t - r, q);
    } else if t < r {
      Distrib(t, r - t, q);
      MulAtLeast(r - t, q);
    }
  }

  /** The multiple nearest to c, ties away from zero, written out. */
  lemma NearestHalfAwayCharacterised(c: int, r: int, q: nat)
    requires q > 0 && q % 2 == 0
    requires NearestHalfAway(c, r, q)
    ensures c >= 0 ==> r == (c + q / 2) / q
    ensures c < 0 ==> r == -((-c + q / 2) / q)
  {
    var h := q / 2;
    if c >= 0 {
      DivUnique(c + h, q, r);
    } else {
      assert (-r) * q == -(r * q);
      DivUnique(-c + h, q, -r);
    }
  }

  /** Only one multiple is nearest under that tie rule. */
  lemma NearestHalfAwayUnique(c: int, r1: int, r2: int, q: nat)
    requires q > 0 && q % 2 == 0
    requires NearestHalfAway(c, r1, q) && NearestHalfAway(c, r2, q)
    ensures r1 == r2
  {
    NearestHalfAwayCharacterised(c, r1, q);
    NearestHalfAwayCharacterised(c, r2, q);
  }

  /** Rounds c >= 0 to a multiple of q (q a positive even number), halves upward. */
  function RoundMagnitude(c: nat, q: nat): (r: nat)
    requires q > 0 && q % 2 == 0
    ensures NearestHalfAway(c, r, q)
  {
    var r := (c + q / 2) / q;
    var rem := (c + q / 2) % q;
    assert c + q / 2 == r * q + rem;
    r
  }

  /**
    d rounded to `places` decimal places, halves away from zero; the result
    always has exponent -places, and a shorter decimal is padded exactly.
  */
  function Round(d: Dec, places: nat): (r: Dec)
    ensures r.exp == -(places as int)
    ensures d.exp == -(places as int) ==> r == d
    ensures d.exp >= -(places as int) ==> SameValue(r, d)
    ensures d.exp < -(places as int) ==> NearestHalfAway(d.coef, r.coef, Pow10(-(places as int) - d.exp))
  {
    var e: int := -(places as int);
    if d.exp >= e then
      Dec(d.coef * Pow10(d.exp - e), e)
    else
      var q := Pow10(e - d.exp);
      assert q % 2 == 0;
      if d.coef >= 0 then Dec(RoundMagnitude(d.coef, q), e)
      else
        var m := RoundMagnitude(-d.coef, q);
        assert (-(m as int)) * q == -(m * q);
        Dec(-(m as int), e)
  }

  /** Rounding is determined by its contract: the nearest step, ties away from zero. */
  lemma RoundIsNearest(d: Dec, places: nat, r: Dec)
    requires d.exp < -(places as int)
    requires r.exp == -(places as int) && NearestHalfAway(d.coef, r.coef, Pow10(-(places as int) - d.exp))
    ensures r == Round(d, places)
  {
    var q := Pow10(-(places as int) - d.exp);
    assert q % 2 == 0;
    NearestHalfAwayUnique(d.coef, r.coef, Round(d, places).coef, q);
  }

  lemma MulMonotone(x: int, y: int, m: nat)
    requires m > 0 && x <= y
    ensures x * m <= y * m
  {
  }

  lemma MulCancel(x: int, y: int, m: nat)
    requires m > 0 && x * m == y * m
    ensures x == y
  {
    if x < y {
      MulMonotone(x + 1, y, m);
      Distrib(x, 1, m);
    } else if y < x {
      MulMonotone(y + 1, x, m);
      Distrib(y, 1, m);
    }
  }

  lemma SignScaled(x: int, m: nat)
    requires m > 0
    ensures x > 0 ==> x * m > 0
    ensures x < 0 ==> x * m < 0
    ensures x >= 0 ==> x * m >= 0
    ensures Abs(x * m) == Abs(x) * m
  {
    if x < 0 {
      assert x * m == -((-x) * m);
    }
  }

  lemma ScaledBound(d: int, q: nat, m: nat)
    requires m > 0 && 2 * Abs(d) <= q
    ensures 2 * Abs(d * m) <= q * m
    ensures 2 * Abs(d * m) == q * m ==> 2 * Abs(d) == q
  {
    SignScaled(d, m);
    assert 2 * Abs(d * m) == (2 * Abs(d)) * m;
    MulMonotone(2 * Abs(d), q, m);
    if 2 * Abs(d * m) == q * m {
      MulCancel(2 * Abs(d), q, m);
    }
  }

  lemma DiffScaled(r: int, q: int, c: int, m: int)
    ensures r * (q * m) - c * m == (r * q - c) * m
  {
  }

  /** Counting in units m times finer keeps the nearest multiple. */
  lemma NearestHalfAwayScaled(c: int, r: int, q: nat, m: nat)
    requires m > 0
    requires NearestHalfAway(c, r, q)
    ensures NearestHalfAway(c * m, r, q * m)
  {
    var d := r * q - c;
    DiffScaled(r, q, c, m);
    ScaledBound(d, q, m);
    SignScaled(d, m);
    SignScaled(c, m);
  }

  /** Rounding depends only on the number a decimal denotes, not on how many trailing zeros it carries. */
  lemma RoundSameValue(a: Dec, b: Dec, places: nat)
    requires SameValue(a, b)
    ensures Round(a, places) == Round(b, places)
  {
    if b.exp <= a.exp {
      RoundFinerUnits(a, b, places);
    } else {
      RoundFinerUnits(b, a, places);
    }
  }

  lemma RoundFinerUnits(a: Dec, b: Dec, places: nat)
    requires b.exp <= a.exp && b.coef == CoefAt(a, b.exp)
    ensures Round(a, places) == Round(b, places)
  {
    var e: int := -(places as int);
    if b.exp >= e {
      RoundFinerExact(a, b, e);
    } else if a.exp >= e {
      RoundFinerMixed(a, b, places);
    } else {
      RoundFinerBoth(a, b, places);
    }
  }

  lemma RoundFinerExact(a: Dec, b: Dec, e: int)
    requires e <= b.exp <= a.exp && b.coef == CoefAt(a, b.exp)
    ensures CoefAt(a, e) == CoefAt(b, e)
  {
    var n: nat, k: nat := a.exp - b.exp, b.exp - e;
    Pow10Add(n, k);
    var m, p := Pow10(n), Pow10(k);
    assert CoefAt(a, e) == a.coef * (m * p);
    assert CoefAt(b, e) == (a.coef * m) * p;
  }

  lemma RoundFinerMixed(a: Dec, b: Dec, places: nat)
    requires b.exp < -(places as int) <= a.exp && b.coef == CoefAt(a, b.exp)
    ensures Round(a, places) == Round(b, places)
  {
    var e: int := -(places as int);
    var ra := CoefAt(a, e);
    var q := Pow10(e - b.exp);
    var k: nat, j: nat := a.exp - e, e - b.exp;
    Pow10Add(k, j);
    assert b.coef == a.coef * (Pow10(k) * q);
    assert b.coef == ra * q;
    assert NearestHalfAway(b.coef, ra, q);
    RoundIsNearest(b, places, Dec(ra, e));
  }

  lemma RoundFinerBoth(a: Dec, b: Dec, places: nat)
    requires b.exp <= a.exp < -(places as int) && b.coef == CoefAt(a, b.exp)
    ensures Round(a, places) == Round(b, places)
  {
    var e: int := -(places as int);
    var n: nat := a.exp - b.exp;
    var m, qa := Pow10(n), Pow10(e - a.exp);
    Pow10Add(e - a.exp, n);
    assert Pow10(e - b.exp) == qa * m;
    var ra := Round(a, places).coef;
    NearestHalfAwayScaled(a.coef, ra, qa, m);
    RoundIsNearest(b, places, Dec(ra, e));
  }
}
