/**
 Python's Decimal at its default context: results carry 28 significant
 digits, rounded half-even, and quantize is a second, separate rounding.
 Only non-negative values occur where this module is used.
 */
module Decimals {
  import opened Arithmetic
  import opened Wrappers

  const TEN27: nat := 1_000_000_000_000_000_000_000_000_000
  const TEN28: nat := 10_000_000_000_000_000_000_000_000_000

  datatype DecimalError = InvalidOperation

  /** The value digits * 10^exp. */
  datatype Dec = Dec(digits: nat, exp: int)

  function Pow10(n: nat): (p: nat)
    ensures p >= 1
  {
    if n == 0 then 1 else 10 * Pow10(n - 1)
  }

  lemma {:induction false} Pow10Add(m: nat, n: nat)
    ensures Pow10(m + n) == Pow10(m) * Pow10(n)
  {
    if m > 0 {
      Pow10Add(m - 1, n);
      assert Pow10(m + n) == 10 * (Pow10(m - 1) * Pow10(n));
      assert 10 * (Pow10(m - 1) * Pow10(n)) == (10 * Pow10(m - 1)) * Pow10(n);
    }
  }

  lemma PowersOfTen()
    ensures Pow10(4) == 10_000 && Pow10(5) == 100_000 && Pow10(6) == 1_000_000 && Pow10(10) == 10_000_000_000
    ensures Pow10(11) == 100_000_000_000 && Pow10(17) == 100_000_000_000_000_000
  {
    assert Pow10(1) == 10;
    assert Pow10(2) == 100;
    assert Pow10(3) == 1_000;
    Pow10Add(2, 2);
    Pow10Add(2, 3);
    Pow10Add(3, 3);
    Pow10Add(5, 5);
    Pow10Add(5, 6);
    Pow10Add(11, 6);
  }

  function RoundHalfEven(n: nat, d: nat): (r: nat)
    requires d > 0
    ensures 2 * n - d <= 2 * (r * d) <= 2 * n + d
  {
    var q := n / d;
    var rest := n - q * d;
    DivisionBounds(n, d);
    assert (q + 1) * d == q * d + d;
    if 2 * rest < d || (2 * rest == d && q % 2 == 0) then q else q + 1
  }

  function RoundHalfUp(n: nat, d: nat): (r: nat)
    requires d > 0
    ensures 2 * n - d < 2 * (r * d) <= 2 * n + d
  {
    var r := (2 * n + d) / (2 * d);
    DivisionBounds(2 * n + d, 2 * d);
    assert r * (2 * d) == 2 * (r * d);
    r
  }

  /** The least exponent that brings num/den up to 28 digits. */
  function ScaleUp(num: nat, den: nat, k: nat): (j: nat)
    requires num > 0 && num * Pow10(k) < TEN28 * den
    ensures TEN27 * den <= num * Pow10(j) < TEN28 * den
    decreases TEN27 * den - num * Pow10(k)
  {
    if TEN27 * den <= num * Pow10(k) then k
    else
      assert num * Pow10(k + 1) == 10 * (num * Pow10(k));
      ScaleUp(num, den, k + 1)
  }

  /** The least exponent that brings num/den down to 28 digits. */
  function ScaleDown(num: nat, den: nat, k: nat): (j: nat)
    requires den > 0
    ensures num < TEN28 * (den * Pow10(j))
    ensures j > k ==> num >= TEN28 * (den * Pow10(j - 1))
    decreases num - TEN28 * (den * Pow10(k))
  {
    if num < TEN28 * (den * Pow10(k)) then k
    else
      assert den * Pow10(k + 1) == 10 * (den * Pow10(k));
      ScaleDown(num, den, k + 1)
  }

  /** num / den, rounded half-even to 28 significant digits. */
  function Divide(num: nat, den: nat): Dec
    requires den > 0
  {
    if num == 0 then Dec(0, 0)
    else if num < TEN28 * den then
      var k: int := ScaleUp(num, den, 0);
      Dec(RoundHalfEven(num * Pow10(k), den), -k)
    else
      var k := ScaleDown(num, den, 0);
      Dec(RoundHalfEven(num, den * Pow10(k)), k)
  }

  /** units + d, rounded to 28 significant digits. */
  function Plus(units: nat, d: Dec): Dec {
    if d.exp >= 0 then Divide(units + d.digits * Pow10(d.exp), 1)
    else Divide(units * Pow10(-d.exp) + d.digits, Pow10(-d.exp))
  }

  /** Units of 10^shift in d, with the fraction dropped. */
  function ShiftDown(digits: nat, shift: int): nat {
    if shift >= 0 then digits * Pow10(shift) else NatQuotient(digits, Pow10(-shift))
  }

  function ShiftHalfUp(digits: nat, shift: int): nat {
    if shift >= 0 then digits * Pow10(shift) else RoundHalfUp(digits, Pow10(-shift))
  }

  function NatQuotient(n: nat, d: nat): (q: nat)
    requires d > 0
    ensures q * d <= n < q * d + d
  {
    DivisionBounds(n, d);
    n / d
  }

  /** quantize at 10^-places, ROUND_DOWN; the result counts units of 10^-places. */
  function QuantizeDown(d: Dec, places: nat): Result<nat, DecimalError> {
    var units := ShiftDown(d.digits, d.exp + places);
    if units >= TEN28 then Err(InvalidOperation) else Ok(units)
  }

  /** quantize at 10^-places, ROUND_HALF_UP. */
  function QuantizeHalfUp(d: Dec, places: nat): Result<nat, DecimalError> {
    var units := ShiftHalfUp(d.digits, d.exp + places);
    if units >= TEN28 then Err(InvalidOperation) else Ok(units)
  }

  // -- what 28 digits keep ---------------------------------------------------

  /** A tie goes to the even neighbour. */
  lemma TiesGoToEven(n: nat, d: nat)
    requires d > 0
    ensures var r := RoundHalfEven(n, d);
            2 * (r * d) == 2 * n - d || 2 * (r * d) == 2 * n + d ==> r % 2 == 0
  {
    var q := n / d;
    DivisionBounds(n, d);
    Distribute(q, 1, d);
  }

  /** A quotient is the nearest number of 28 significant digits. */
  lemma DivideKeeps28Digits(num: nat, den: nat)
    requires num > 0 && den > 0
    ensures
      var q := Divide(num, den);
      && TEN27 <= q.digits <= TEN28
      && (if q.exp <= 0 then
            var scaled := num * Pow10(-q.exp);
            q.digits == RoundHalfEven(scaled, den) && 2 * scaled - den <= 2 * (q.digits * den) <= 2 * scaled + den
          else
            var unit := den * Pow10(q.exp);
            q.digits == RoundHalfEven(num, unit) && 2 * num - unit <= 2 * (q.digits * unit) <= 2 * num + unit)
  {
    if num < TEN28 * den {
      var k := ScaleUp(num, den, 0);
      RoundedKeepsBounds(num * Pow10(k), den);
    } else {
      var k := ScaleDown(num, den, 0);
      assert den * Pow10(0) == den;
      assert den * Pow10(k) == 10 * (den * Pow10(k - 1));
      RoundedKeepsBounds(num, den * Pow10(k));
    }
  }

  /** Between two multiples a rounding stays between them. */
  lemma RoundedKeepsBounds(n: nat, d: nat)
    requires d > 0 && TEN27 * d <= n <= TEN28 * d
    ensures TEN27 <= RoundHalfEven(n, d) <= TEN28
  {
    var r := RoundHalfEven(n, d);
    hide RoundHalfEven;
    MulMono(r + 1, TEN27, d);
    MulMono(TEN28 + 1, r, d);
    Distribute(r, 1, d);
    Distribute(TEN28, 1, d);
  }

  // -- when the two roundings agree with one ------------------------------

  /**
   Rounding m/r to a grid of 1/w cannot reach the next integer while the
   grid is finer than half the distance a fraction over r can keep from it.
   */
  lemma FloorSurvivesRounding(m: nat, r: nat, w: nat, d: nat)
    requires r > 0 && w > 0 && r < 2 * w
    requires 2 * (m * w) - r <= 2 * (d * r) <= 2 * (m * w) + r
    ensures d / w == m / r
  {
    var f := m / r;
    DivisionBounds(m, r);
    Distribute(f, 1, r);
    ScaledBounds(m, r, w, f);
    NotBelow(m * w, r, f * w, d);
    NotAbove(m * w, r, w, (f + 1) * w, d);
    Distribute(f, 1, w);
    QuotientIsUnique(d, w, f);
  }

  lemma ScaledBounds(m: nat, r: nat, w: nat, f: nat)
    requires f * r <= m < (f + 1) * r
    ensures (f * w) * r <= m * w && m * w + w <= ((f + 1) * w) * r
  {
    Rotate(f, w, r);
    Rotate(f + 1, w, r);
    MulMono(f * r, m, w);
    MulMono(m + 1, (f + 1) * r, w);
    Distribute(m, 1, w);
  }

  lemma NotBelow(x: nat, r: nat, low: nat, d: nat)
    requires r > 0 && low * r <= x && 2 * x - r <= 2 * (d * r)
    ensures low <= d
  {
    MulMono(d + 1, low, r);
    Distribute(d, 1, r);
  }

  lemma NotAbove(x: nat, r: nat, w: nat, high: nat, d: nat)
    requires r < 2 * w && x + w <= high * r && 2 * (d * r) <= 2 * x + r
    ensures d < high
  {
    MulMono(high, d, r);
  }

  /**
   Double rounding is harmless: for a numerator below 2 * 10^21, rounding
   num/den to 28 digits and then down to six places is the exact floor.
   */
  lemma DivideThenQuantizeDownIsExact(num: nat, den: nat)
    requires den > 0 && num < 2_000_000_000_000_000_000_000
    ensures QuantizeDown(Divide(num, den), 6) == Ok(num * 1_000_000 / den)
  {
    if num == 0 {
      QuotientIsUnique(0, den, 0);
    } else {
      var k: int := ScaleUp(num, den, 0);
      SixPlacesRemain(num, den, k);
      var w := Pow10(k - 6);
      var d := RoundHalfEven(num * Pow10(k), den);
      Pow10Add(6, k - 6);
      PowersOfTen();
      Rotate(num, 1_000_000, w);
      GridFloor(num, den, w, d);
      QuotientIsUnique(d, w, ShiftDown(d, 6 - k));
      QuotientNoLarger(num * 1_000_000, den);
    }
  }

  /**
   Rounding half up after rounding to 28 digits is rounding half up once,
   for a numerator below 10^21: the first rounding cannot reach a half.
   */
  lemma DivideThenQuantizeHalfUpIsExact(num: nat, den: nat)
    requires den > 0 && 0 < num < 1_000_000_000_000_000_000_000
    ensures
      QuantizeHalfUp(Divide(num, den), 6).Ok? ==>
        var r := QuantizeHalfUp(Divide(num, den), 6).value;
        2 * (num * 1_000_000) - den < 2 * (r * den) <= 2 * (num * 1_000_000) + den
  {
    var k: int := ScaleUp(num, den, 0);
    SevenPlacesRemain(num, den, k);
    PowersOfTen();
    Pow10Add(6, k - 6);
    var w := Pow10(k - 6);
    Rotate(num, 1_000_000, w);
    GridIsFine(num, den, w);
    var d := RoundHalfEven(num * Pow10(k), den);
    NearestSurvivesRounding(num * 1_000_000, den, w, d, ShiftHalfUp(d, 6 - k));
  }

  lemma SevenPlacesRemain(num: nat, den: nat, k: nat)
    requires den > 0 && num < 1_000_000_000_000_000_000_000
    requires TEN27 * den <= num * Pow10(k)
    ensures k >= 7 && Pow10(k - 6) % 2 == 0
  {
    PowersOfTen();
    Pow10Monotone(k, 6);
    MulMono(Pow10(k), 1_000_000, num);
    assert Pow10(k - 6) == 10 * Pow10(k - 7);
  }

  lemma GridIsFine(num: nat, den: nat, w: nat)
    requires w > 0 && num < 1_000_000_000_000_000_000_000 && TEN27 * den <= (num * 1_000_000) * w
    ensures den < w
  {
    MulMono(num * 1_000_000, 1_000_000_000_000_000_000_000 * 1_000_000 - 1_000_000, w);
  }

  /** x/den rounded to a grid finer than 1/den, and then to the nearest integer. */
  lemma NearestSurvivesRounding(x: nat, den: nat, w: nat, d: nat, r: nat)
    requires 0 < den < w && w % 2 == 0
    requires 2 * (x * w) - den <= 2 * (d * den) <= 2 * (x * w) + den
    requires 2 * d - w < 2 * (r * w) <= 2 * d + w
    ensures 2 * x - den < 2 * (r * den) <= 2 * x + den
  {
    assert 2 * d - w + 2 <= 2 * (r * w);
    NotTooLarge(x, den, w, d, r);
    NotTooSmall(x, den, w, d, r);
  }

  lemma NotTooLarge(x: nat, den: nat, w: nat, d: nat, r: nat)
    requires 0 < den < w && 2 * (d * den) <= 2 * (x * w) + den && 2 * (r * w) <= 2 * d + w
    ensures 2 * (r * den) <= 2 * x + den
  {
    MulMono(2 * (r * w), 2 * d + w, den);
    Swap(r, w, d, den);
    MulMono(2 * x + den + 1, 2 * (r * den), w);
    Distribute(2 * x + den, 1, w);
    Distribute(2 * x, den, w);
  }

  lemma NotTooSmall(x: nat, den: nat, w: nat, d: nat, r: nat)
    requires 0 < den < w && 2 * (x * w) - den <= 2 * (d * den) && 2 * d - w + 2 <= 2 * (r * w)
    ensures 2 * x - den < 2 * (r * den)
  {
    MulMono(2 * d - w + 2, 2 * (r * w), den);
    Swap(r, w, d, den);
    MulMono(2 * (r * den), 2 * x - den, w);
    Distribute(2 * x - den, den, w);
    Distribute(x, x, w);
  }

  lemma Swap(r: nat, w: nat, d: nat, den: nat)
    ensures (2 * (r * w)) * den == (2 * (r * den)) * w
    ensures (2 * d + w) * den == 2 * (d * den) + den * w
    ensures (2 * d - w + 2) * den == 2 * (d * den) - den * w + 2 * den
  {
    Rotate(r, w, den);
  }

  lemma GridFloor(num: nat, den: nat, w: nat, d: nat)
    requires den > 0 && w > 0 && num < 2_000_000_000_000_000_000_000
    requires TEN27 * den <= (num * 1_000_000) * w
    requires 2 * ((num * 1_000_000) * w) - den <= 2 * (d * den) <= 2 * ((num * 1_000_000) * w) + den
    ensures d / w == num * 1_000_000 / den
  {
    MulMono(num * 1_000_000, 2_000_000_000_000_000_000_000 * 1_000_000 - 1_000_000, w);
    assert den < 2 * w;
    FloorSurvivesRounding(num * 1_000_000, den, w, d);
  }

  lemma SixPlacesRemain(num: nat, den: nat, k: nat)
    requires den > 0 && num < 2_000_000_000_000_000_000_000
    requires TEN27 * den <= num * Pow10(k)
    ensures k >= 6
  {
    PowersOfTen();
    Pow10Monotone(k, 5);
    MulMono(Pow10(k), 100_000, num);
  }

  lemma {:induction false} Pow10Monotone(m: nat, n: nat)
    ensures m <= n ==> Pow10(m) <= Pow10(n)
  {
    if m <= n {
      Pow10Add(m, n - m);
      MulMono(1, Pow10(n - m), Pow10(m));
    }
  }

  lemma QuotientNoLarger(m: nat, den: nat)
    requires den > 0
    ensures 0 <= m / den <= m
  {
    DivisionBounds(m, den);
    MulMono(1, den, m / den);
    MulMono(m / den + 1, 0, den);
    Distribute(m / den, 1, den);
  }

  // -- rounding half up ---------------------------------------------------------

  lemma HalfUpIsUnique(n: nat, d: nat, r: nat)
    requires d > 0 && 2 * n - d < 2 * (r * d) <= 2 * n + d
    ensures RoundHalfUp(n, d) == r
  {
    assert r * (2 * d) == 2 * (r * d);
    QuotientIsUnique(2 * n + d, 2 * d, r);
  }

  /** Rounding does not see a common factor. */
  lemma HalfUpScales(n: nat, d: nat, c: nat)
    requires d > 0 && c > 0
    ensures d * c > 0 && RoundHalfUp(n * c, d * c) == RoundHalfUp(n, d)
  {
    var r := RoundHalfUp(n, d);
    hide RoundHalfUp;
    MulMono(1, c, d);
    Scaled(n, d, r, c);
    HalfUpIsUnique(n * c, d * c, r);
  }

  lemma Scaled(n: nat, d: nat, r: nat, c: nat)
    requires d > 0 && c > 0 && 2 * n - d < 2 * (r * d) <= 2 * n + d
    ensures 2 * (n * c) - d * c < 2 * (r * (d * c)) <= 2 * (n * c) + d * c
  {
    var low, mid, high := 2 * n - d + 1, 2 * (r * d), 2 * n + d;
    MulMono(low, mid, c);
    MulMono(mid, high, c);
    ScaledParts(n, d, r, c);
  }

  lemma ScaledParts(n: nat, d: nat, r: nat, c: nat)
    ensures (2 * n - d + 1) * c == 2 * (n * c) - d * c + c
    ensures (2 * n + d) * c == 2 * (n * c) + d * c
    ensures (2 * (r * d)) * c == 2 * (r * (d * c))
  {
    Rotate(r, d, c);
  }
}
