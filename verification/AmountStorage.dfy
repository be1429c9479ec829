/**
 Amounts go to the database as binary64 floats and come back from a Numeric(12,2) column.
 `float` rounds to nearest (IEEE 754-2019, section 4.3.1); the driver writes a decimal
 that reads back as that float; the column rounds it to cents. All amounts the column can hold
 come back as they went.
 */
module AmountStorage {

  /** The precision of Numeric(12,2): amounts below 10^10. */
  const COLUMN_LIMIT: real := 10_000_000_000.0

  function PowerOfTwo(n: nat): int { if n == 0 then 1 else 2 * PowerOfTwo(n - 1) }

  /** m times 2^e, or m divided by 2^e. */
  ghost predicate HasForm(x: real, m: int, e: nat) {
    || (e <= 971 && x == (m * PowerOfTwo(e)) as real)
    || (e <= 1074 && x * PowerOfTwo(e) as real == m as real)
  }

  /** Finite binary64 values: a significand below 2^53 and an exponent in range. */
  ghost predicate IsBinary64(x: real) {
    exists m: int, e: nat :: -PowerOfTwo(53) < m < PowerOfTwo(53) && HasForm(x, m, e)
  }

  function Distance(x: real, y: real): real { if x < y then y - x else x - y }

  /** f is a nearest binary64 to x; ties may go either way. */
  ghost predicate Rounds(x: real, f: real) {
    IsBinary64(f) && forall g: real :: IsBinary64(g) ==> Distance(x, f) <= Distance(x, g)
  }

  /** n is a whole number of cents nearest to d. */
  predicate StoredAs(d: real, n: int) {
    Distance(100.0 * d, n as real) <= 0.5
  }

  lemma {:induction false} PowerOfTwoValues()
    ensures PowerOfTwo(19) == 524_288 && PowerOfTwo(53) == 9_007_199_254_740_992
  {
    assert PowerOfTwo(10) == 1024;
    assert PowerOfTwo(19) == 512 * PowerOfTwo(10);
    assert PowerOfTwo(28) == 512 * PowerOfTwo(19);
    assert PowerOfTwo(37) == 512 * PowerOfTwo(28);
    assert PowerOfTwo(46) == 512 * PowerOfTwo(37);
    assert PowerOfTwo(53) == 128 * PowerOfTwo(46);
  }

  const STEP: real := 1.0 / 524_288.0

  lemma Scaled(m: int) returns (g: real)
    requires -PowerOfTwo(53) < m < PowerOfTwo(53)
    ensures g == m as real * STEP && IsBinary64(g)
  {
    PowerOfTwoValues();
    g := m as real * STEP;
    assert g * PowerOfTwo(19) as real == m as real;
    assert HasForm(g, m, 19);
  }

  /** Within the range some binary64 lies within 2^-19: x cut off after 19 binary digits. */
  lemma NearbyBinary64(x: real) returns (g: real)
    requires -1.0 <= x < COLUMN_LIMIT
    ensures IsBinary64(g) && Distance(x, g) <= STEP
  {
    PowerOfTwoValues();
    var m := (x * 524_288.0).Floor;
    assert m as real <= x * 524_288.0 < m as real + 1.0;
    g := Scaled(m);
  }

  /** Rounding to binary64 moves an amount by at most 2^-19, far less than half a cent. */
  lemma RoundingError(x: real, f: real)
    requires -1.0 <= x < COLUMN_LIMIT && Rounds(x, f)
    ensures Distance(x, f) <= STEP
  {
    var g := NearbyBinary64(x);
  }

  /** A decimal that reads back as a float inside the range is inside it too, for both ends are floats themselves. */
  lemma ReadBackInRange(d: real, f: real)
    requires -1.0 < f < COLUMN_LIMIT && Rounds(d, f)
    ensures -1.0 <= d < COLUMN_LIMIT
  {
    PowerOfTwoValues();
    var low := Scaled(-524_288);
    var high := Scaled(10_000_000_000 * 524_288);
    assert low == -1.0 && high == COLUMN_LIMIT;
  }

  /** Save then load: whichever float the amount is rounded to, whichever decimal d that reads back as that float
      is written, and however the column breaks ties, the same number of cents comes back. */
  lemma AmountsSurviveStorage(cents: nat, f: real, d: real, loaded: int)
    requires cents as real / 100.0 < COLUMN_LIMIT
    requires Rounds(cents as real / 100.0, f) && Rounds(d, f)
    requires StoredAs(d, loaded)
    ensures loaded == cents
  {
    var x := cents as real / 100.0;
    assert cents < 1_000_000_000_000;
    assert x <= COLUMN_LIMIT - 0.01;
    RoundingError(x, f);
    ReadBackInRange(d, f);
    RoundingError(d, f);
    assert Distance(100.0 * d, cents as real) <= 200.0 * STEP;
  }
}
