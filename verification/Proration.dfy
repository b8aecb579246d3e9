/** Proration of a plan change, over fixed-point numbers with twelve decimals. */
module Proration {
  import opened Base

  /** One, in the fixed-point representation. */
  const ONE: int := 1_000_000_000_000

  const U256_LIMIT: int := U128_MAX_PLUS_ONE * U128_MAX_PLUS_ONE
  const U128_MAX_PLUS_ONE: int := U128_MAX + 1
  const I128_MAX: int := 0x7FFF_FFFF_FFFF_FFFF_FFFF_FFFF_FFFF_FFFF

  /** A precise number: `value / ONE`, held in 256 bits. */
  datatype Precise = Precise(value: nat)

  /** The library's division is not part of this model: any quotient within one unit of the last
      decimal will do, so an exactly representable quotient is exact. */
  ghost predicate Divides(div: (nat, nat) -> nat) {
    forall x: nat, y: nat {:trigger div(x, y)} | y >= ONE :: x * ONE - y < div(x, y) * y < x * ONE + y
  }

  function RoundHalfUp(x: nat, y: nat): nat {
    if y == 0 then 0 else (x * ONE + ONE / 2) / y
  }

  /** Rounding half up before an integer division is such a division. */
  lemma RoundingDivides()
    ensures Divides(RoundHalfUp)
  {
    hide RoundHalfUp;
    forall x: nat, y: nat | y >= ONE
      ensures x * ONE - y < RoundHalfUp(x, y) * y < x * ONE + y
    {
      RoundedQuotient(x, y);
    }
  }

  lemma RoundedQuotient(x: nat, y: nat)
    requires y >= ONE
    ensures x * ONE - y < RoundHalfUp(x, y) * y < x * ONE + y
  {
    var a := x * ONE + ONE / 2;
    assert a == a / y * y + a % y;
  }

  function New(value: nat): Result<Precise> {
    if value * ONE < U256_LIMIT then Ok(Precise(value * ONE)) else Err(MathOverflow)
  }

  /** A product of integers is exact; the raw product carries a rounding half before it is rescaled. */
  function Mul(x: Precise, y: Precise): Result<Precise> {
    if x.value * y.value + ONE / 2 < U256_LIMIT then Ok(Precise((x.value * y.value + ONE / 2) / ONE))
    else Err(MathOverflow)
  }

  function Div(x: Precise, y: Precise, div: (nat, nat) -> nat): Result<Precise> {
    if y.value == 0 || x.value * ONE + ONE / 2 >= U256_LIMIT then Err(MathOverflow)
    else Ok(Precise(div(x.value, y.value)))
  }

  function Sub(x: Precise, y: Precise): Result<Precise> {
    if x.value >= y.value then Ok(Precise(x.value - y.value)) else Err(MathUnderflow)
  }

  function FloorToU128(x: Precise): Result<int> {
    if x.value / ONE <= U128_MAX then Ok(x.value / ONE) else Err(MathOverflow)
  }

  /** Signed change due when `elapsed` of `total` seconds have been used: positive charges, negative credits. */
  function ComputeProration(prior: u64, next: u64, elapsed: u64, total: u64, div: (nat, nat) -> nat): Result<int> {
    var _ :- Need(total > 0, MathDivByZero);
    var _ :- Need(elapsed <= total, InvalidElapsed);
    var oldAmount :- New(prior);
    var newAmount :- New(next);
    var used :- New(elapsed);
    var period :- New(total);
    var remaining :- Sub(period, used);
    var oldElapsed :- Mul(oldAmount, used);
    var usedOld :- Div(oldElapsed, period, div);
    var unusedOld :- Sub(oldAmount, usedOld);
    var newRemaining :- Mul(newAmount, remaining);
    var newForRemaining :- Div(newRemaining, period, div);
    var isCharge := newForRemaining.value >= unusedOld.value;
    var delta :- if isCharge then Sub(newForRemaining, unusedOld) else Sub(unusedOld, newForRemaining);
    var raw :- FloorToU128(delta);
    var _ :- Need(raw <= I128_MAX, MathOverflow);
    Ok(if isCharge then raw else -raw)
  }

  // ---------------------------------------------------------------- the exact value

  /** Truncation toward zero of x / y. */
  function Trunc(x: int, y: int): int
    requires y > 0
  {
    if x >= 0 then x / y else -((-x) / y)
  }

  /** Numerator, over the period, of the exact prorated difference. */
  function ExactNumerator(prior: u64, next: u64, elapsed: u64, total: u64): int {
    (next - prior) * (total - elapsed)
  }

  // ---------------------------------------------------------------- products of integers are exact

  lemma MulExact(x: nat, y: nat)
    requires x <= U64_MAX && y <= U64_MAX
    ensures Mul(Precise(x * ONE), Precise(y * ONE)) == Ok(Precise(x * y * ONE))
    ensures x * y * ONE * ONE + ONE / 2 < U256_LIMIT
  {
    hide Mul;
    ProductBound(x, y);
    ScaledFits(x * y);
    Rescale(x, y);
    MulRaw(x * ONE, y * ONE, x * y * ONE);
  }

  lemma ProductBound(x: nat, y: nat)
    requires x <= U64_MAX && y <= U64_MAX
    ensures x * y <= U64_MAX * U64_MAX
  {
    assert x * y <= U64_MAX * y;
    assert U64_MAX * y <= U64_MAX * U64_MAX;
  }

  lemma Rescale(x: nat, y: nat)
    ensures (x * ONE) * (y * ONE) == (x * y * ONE) * ONE
  {
  }

  lemma MulRaw(a: nat, b: nat, product: nat)
    requires a * b == product * ONE && product * ONE + ONE / 2 < U256_LIMIT
    ensures Mul(Precise(a), Precise(b)) == Ok(Precise(product))
  {
    DivisionUnique(a * b + ONE / 2, ONE, product, ONE / 2);
  }

  lemma ScaledFits(p: nat)
    requires p <= U64_MAX * U64_MAX
    ensures p * ONE * ONE + ONE / 2 < U256_LIMIT
  {
    assert U64_MAX * U64_MAX == 0xFFFF_FFFF_FFFF_FFFE_0000_0000_0000_0001;
    assert ONE * ONE == 1_000_000_000_000_000_000_000_000;
    assert p * ONE * ONE == p * 1_000_000_000_000_000_000_000_000;
  }

  /** The only way to fail after the two guards would be arithmetic, and none of it can:
      the computation succeeds exactly when the guards pass, and then has this value. */
  lemma ProrationSucceeds(prior: u64, next: u64, elapsed: u64, total: u64, div: (nat, nat) -> nat)
    requires Divides(div) && total > 0 && elapsed <= total
    ensures var q1 := div(prior * elapsed * ONE, total * ONE);
            var q2 := div(next * (total - elapsed) * ONE, total * ONE);
            && q1 <= prior * ONE && q2 <= next * ONE
            && ComputeProration(prior, next, elapsed, total, div)
               == Ok(Trunc(q2 - (prior * ONE - q1), ONE))
  {
    hide Divides, Mul, ComputeProration, Trunc;
    MulExact(prior, elapsed);
    MulExact(next, total - elapsed);
    QuotientBound(prior, elapsed, total, div);
    QuotientBound(next, total - elapsed, total, div);
    ProrationOfProducts(prior, next, elapsed, total, div, prior * elapsed * ONE, next * (total - elapsed) * ONE);
  }

  /** The same over the products, which are opaque here. */
  lemma ProrationOfProducts(prior: u64, next: u64, elapsed: u64, total: u64, div: (nat, nat) -> nat, x: nat, y: nat)
    requires total > 0 && elapsed <= total
    requires Mul(Precise(prior * ONE), Precise(elapsed * ONE)) == Ok(Precise(x))
    requires Mul(Precise(next * ONE), Precise((total - elapsed) * ONE)) == Ok(Precise(y))
    requires x * ONE + ONE / 2 < U256_LIMIT && y * ONE + ONE / 2 < U256_LIMIT
    requires div(x, total * ONE) <= prior * ONE && div(y, total * ONE) <= next * ONE
    ensures ComputeProration(prior, next, elapsed, total, div)
         == Ok(Trunc(div(y, total * ONE) - (prior * ONE - div(x, total * ONE)), ONE))
  {
    hide Mul;
  }

  /** Every failing branch behind the two guards is unreachable. */
  lemma FailsOnlyOnGuards(prior: u64, next: u64, elapsed: u64, total: u64, div: (nat, nat) -> nat)
    requires Divides(div)
    ensures ComputeProration(prior, next, elapsed, total, div).Ok? <==> total > 0 && elapsed <= total
  {
    hide Divides, Trunc;
    if total > 0 && elapsed <= total {
      ProrationSucceeds(prior, next, elapsed, total, div);
    }
  }

  /** A share of an amount never exceeds the amount, whatever the rounding. */
  lemma QuotientBound(amount: u64, share: u64, total: u64, div: (nat, nat) -> nat)
    requires Divides(div) && total > 0 && share <= total
    ensures var q := div(amount * share * ONE, total * ONE);
            q <= amount * ONE && amount * share * ONE - total < q * total < amount * share * ONE + total
  {
    var a := amount * share;
    var q := div(a * ONE, total * ONE);
    assert q * (total * ONE) == (q * total) * ONE;
    CancelOne(a * ONE - total, q * total);
    CancelOne(q * total, a * ONE + total);
    assert a <= amount * total;
    CancelTotal(q, amount * ONE, total);
  }

  lemma CancelOne(x: int, y: int)
    requires x * ONE < y * ONE
    ensures x < y
  {
  }

  lemma CancelTotal(q: int, bound: int, total: int)
    requires total > 0 && q * total < bound * total + total
    ensures q <= bound
  {
    assert q > bound ==> q * total >= (bound + 1) * total;
    assert (bound + 1) * total == bound * total + total;
  }

  // ---------------------------------------------------------------- distance from the exact value

  /** Truncating a numerator that is off by less than two units of the last decimal. */
  lemma TruncNear(d: int, n: int, total: int)
    requires 0 < total && n >= 0
    requires n * ONE - 2 * total < d * total < n * ONE + 2 * total
    ensures n / total - 1 <= Trunc(d, ONE) <= n / total + 1
    ensures 2 * total <= ONE ==> Trunc(d, ONE) <= n / total && (n % total != 0 ==> Trunc(d, ONE) == n / total)
    ensures Trunc(d, ONE) >= 0
  {
    var k, m := n / total, n % total;
    SplitNumerator(n, k, m, total);
    NearMultiple(d, n * ONE, k, m, total);
    TruncBetween(d, k);
  }

  lemma SplitNumerator(n: int, k: int, m: int, total: int)
    requires 0 < total && n >= 0 && k == n / total && m == n % total
    ensures n * ONE == (k * ONE) * total + m * ONE && 0 <= m <= total - 1 && k >= 0
  {
    assert n == k * total + m;
  }

  lemma NearMultiple(d: int, scaled: int, k: int, m: int, total: int)
    requires 0 < total && 0 <= m <= total - 1 && scaled == (k * ONE) * total + m * ONE
    requires scaled - 2 * total < d * total < scaled + 2 * total
    ensures k * ONE - 2 < d < (k + 1) * ONE + 2
    ensures 2 * total <= ONE ==> d < (k + 1) * ONE && (m != 0 ==> k * ONE < d)
  {
    var j := k * ONE;
    assert scaled == j * total + m * ONE;
    assert (j - 2) * total == j * total - 2 * total;
    assert (j + ONE) * total == j * total + ONE * total;
    assert (j + ONE + 2) * total == (j + ONE) * total + 2 * total;
    assert m * ONE <= ONE * total - ONE;
    CancelTotalStrict(j - 2, d, total);
    CancelTotalStrict(d, j + ONE + 2, total);
    CancelTotalStrict(d, j + ONE, total);
    CancelTotalStrict(j, d, total);
  }

  lemma CancelTotalStrict(x: int, y: int, total: int)
    requires total > 0
    ensures x * total < y * total ==> x < y
  {
  }

  /** Truncation next to a multiple of one. */
  lemma TruncBetween(d: int, k: int)
    requires k >= 0
    ensures k * ONE - 2 < d ==> Trunc(d, ONE) >= k - 1 && Trunc(d, ONE) >= 0
    ensures k * ONE <= d ==> Trunc(d, ONE) >= k
    ensures d < (k + 1) * ONE + 2 ==> Trunc(d, ONE) <= k + 1
    ensures d < (k + 1) * ONE ==> Trunc(d, ONE) <= k
  {
  }

  lemma TruncWithin(d: int, prior: nat, next: nat)
    requires 0 <= d + prior * ONE && d <= next * ONE
    ensures 0 <= Trunc(d, ONE) + prior && Trunc(d, ONE) <= next
  {
  }

  /** The two rounding errors add up to less than two units. */
  lemma DeltaDistance(prior: u64, next: u64, elapsed: u64, total: u64, q1: int, q2: int)
    requires elapsed <= total && total > 0
    requires prior * elapsed * ONE - total < q1 * total < prior * elapsed * ONE + total
    requires next * (total - elapsed) * ONE - total < q2 * total < next * (total - elapsed) * ONE + total
    ensures var d, n := q2 - (prior * ONE - q1), ExactNumerator(prior, next, elapsed, total);
            n * ONE - 2 * total < d * total < n * ONE + 2 * total
  {
    var d := q2 - (prior * ONE - q1);
    var p: int, q: int, r: int := prior * elapsed, prior * total, next * (total - elapsed);
    assert d * total == q2 * total - (prior * ONE) * total + q1 * total;
    assert (prior * ONE) * total == q * ONE;
    assert ExactNumerator(prior, next, elapsed, total) == r - (q - p);
  }

  lemma TruncOdd(x: int, y: int)
    requires y > 0
    ensures Trunc(-x, y) == -Trunc(x, y) && ((-x) % y != 0 <==> x % y != 0)
  {
    var k, m := x / y, x % y;
    assert x == k * y + m;
    if m == 0 {
      assert -x == (-k) * y;
      DivisionUnique(-x, y, -k, 0);
    } else {
      assert -x == (-k - 1) * y + (y - m);
      DivisionUnique(-x, y, -k - 1, y - m);
    }
  }

  lemma DivisionUnique(x: int, y: int, k: int, m: int)
    requires y > 0 && 0 <= m < y && x == k * y + m
    ensures x / y == k && x % y == m
  {
    var c := x / y - k;
    assert x == (x / y) * y + x % y;
    assert c * y == m - x % y;
    assert c >= 1 ==> c * y >= y;
    assert c <= -1 ==> c * y <= -y;
  }

  /** What a prorated difference has to satisfy, whatever the rounding of the divisions. */
  predicate Prorated(prior: u64, next: u64, elapsed: u64, total: u64, result: int)
    requires total > 0
  {
    var n := ExactNumerator(prior, next, elapsed, total);
    && 0 <= result + prior && result <= next
    && (next >= prior ==> 0 <= result) && (next <= prior ==> result <= 0)
    && Trunc(n, total) - 1 <= result <= Trunc(n, total) + 1
    && (total <= 500_000_000_000 ==>
          && (next >= prior ==> result <= Trunc(n, total))
          && (next <= prior ==> Trunc(n, total) <= result)
          && (n % total != 0 ==> result == Trunc(n, total)))
  }

  /** Main proration theorem, for every old and new amount and every point of the period. The result is
      within one of the exact difference truncated toward zero, has its sign, and is never above the new amount
      as a charge nor above the old one as a credit; for periods up to 5 * 10^11 seconds it never exceeds the exact
      difference in size, and equals its truncation whenever the exact difference is not a whole number. */
  lemma ProrationBound(prior: u64, next: u64, elapsed: u64, total: u64, div: (nat, nat) -> nat)
    requires Divides(div) && total > 0 && elapsed <= total
    ensures ComputeProration(prior, next, elapsed, total, div).Ok?
    ensures Prorated(prior, next, elapsed, total, ComputeProration(prior, next, elapsed, total, div).value)
  {
    hide ComputeProration, Divides, Prorated, Trunc, ExactNumerator;
    ProrationSucceeds(prior, next, elapsed, total, div);
    QuotientBound(prior, elapsed, total, div);
    QuotientBound(next, total - elapsed, total, div);
    var q1 := div(prior * elapsed * ONE, total * ONE);
    var q2 := div(next * (total - elapsed) * ONE, total * ONE);
    NearEnough(prior, next, elapsed, total, q1, q2);
  }

  lemma NearEnough(prior: u64, next: u64, elapsed: u64, total: u64, q1: nat, q2: nat)
    requires elapsed <= total && total > 0 && q1 <= prior * ONE && q2 <= next * ONE
    requires prior * elapsed * ONE - total < q1 * total < prior * elapsed * ONE + total
    requires next * (total - elapsed) * ONE - total < q2 * total < next * (total - elapsed) * ONE + total
    ensures Prorated(prior, next, elapsed, total, Trunc(q2 - (prior * ONE - q1), ONE))
  {
    var d := q2 - (prior * ONE - q1);
    var n := ExactNumerator(prior, next, elapsed, total);
    DeltaDistance(prior, next, elapsed, total, q1, q2);
    TruncWithin(d, prior, next);
    NumeratorSign(prior, next, elapsed, total);
    hide ExactNumerator, Trunc;
    TruncNearSigned(d, n, total);
    TruncOfNat(0, total);
  }

  /** Truncations of near quotients, whatever their sign. */
  lemma TruncNearSigned(d: int, n: int, total: int)
    requires 0 < total && n * ONE - 2 * total < d * total < n * ONE + 2 * total
    ensures Trunc(n, total) - 1 <= Trunc(d, ONE) <= Trunc(n, total) + 1
    ensures n >= 0 ==> Trunc(d, ONE) >= 0
    ensures n <= 0 ==> Trunc(d, ONE) <= 0
    ensures 2 * total <= ONE ==>
              && (n >= 0 ==> Trunc(d, ONE) <= Trunc(n, total))
              && (n <= 0 ==> Trunc(n, total) <= Trunc(d, ONE))
              && (n % total != 0 ==> Trunc(d, ONE) == Trunc(n, total))
  {
    hide Trunc;
    TruncOfNat(n, total);
    if n >= 0 {
      TruncNear(d, n, total);
    }
    if n <= 0 {
      NegatedDistance(d, n, total);
      TruncNear(-d, -n, total);
      TruncOfNat(-n, total);
      TruncOdd(d, ONE);
      TruncOdd(n, total);
    }
  }

  lemma NegatedDistance(d: int, n: int, total: int)
    requires n * ONE - 2 * total < d * total < n * ONE + 2 * total
    ensures (-n) * ONE - 2 * total < (-d) * total < (-n) * ONE + 2 * total
  {
    assert (-d) * total == -(d * total);
  }

  lemma NumeratorSign(prior: u64, next: u64, elapsed: u64, total: u64)
    requires elapsed <= total
    ensures var n := ExactNumerator(prior, next, elapsed, total);
            (next >= prior ==> n >= 0) && (next <= prior ==> n <= 0)
  {
  }

  lemma TruncOfNat(x: int, y: int)
    requires y > 0
    ensures x >= 0 ==> Trunc(x, y) == x / y
    ensures x == 0 ==> Trunc(x, y) == 0
  {
  }
}
