/** Integer models of the rounding the KPI cards use: `Math.round(a / b * 100)` and
    `parseFloat((a / b * 100).toFixed(1))`, computed exactly on whole numbers
    (the binary floating-point detail of the browser is not modelled). */
module Ratios {

  /** `Math.floor(a / b)` for a non-zero whole divisor. */
  function FloorDiv(a: int, b: int): (q: int)
    requires b != 0
    ensures b > 0 ==> q * b <= a < q * b + b
    ensures b < 0 ==> q * b >= a > q * b + b
  {
    if b > 0 then a / b else (-a) / (-b)
  }

  /** `Math.round(num / den)`: the nearest whole number, a half going up. */
  function RoundDiv(num: int, den: int): (r: int)
    requires den != 0
    ensures den > 0 ==> (2 * r - 1) * den <= 2 * num < (2 * r + 1) * den
    ensures den < 0 ==> (2 * r - 1) * den >= 2 * num > (2 * r + 1) * den
  {
    FloorDiv(2 * num + den, 2 * den)
  }

  lemma MulLeCancel(x: int, y: int, t: int)
    requires t > 0 && x * t <= y * t
    ensures x <= y
  {
  }

  lemma MulLtCancel(x: int, y: int, t: int)
    requires t > 0 && x * t < y * t
    ensures x < y
  {
  }

  /** The half-up bracket pins the rounded value down: two values in it are equal. */
  lemma {:induction false} RoundingBracketUnique(r1: int, r2: int, num: int, den: int)
    requires den > 0
    requires (2 * r1 - 1) * den <= 2 * num < (2 * r1 + 1) * den
    requires (2 * r2 - 1) * den <= 2 * num < (2 * r2 + 1) * den
    ensures r1 == r2
  {
    MulLtCancel(2 * r1 - 1, 2 * r2 + 1, den);
    MulLtCancel(2 * r2 - 1, 2 * r1 + 1, den);
  }

  /** A share of a positive whole, rounded to `scale` parts, stays within 0..scale. */
  lemma {:induction false} RoundedShareInRange(part: int, whole: int, scale: nat)
    requires 0 <= part <= whole && whole > 0
    ensures 0 <= RoundDiv(scale * part, whole) <= scale
  {
    var r := RoundDiv(scale * part, whole);
    assert (2 * r - 1) * whole <= 2 * (scale * part) < (2 * r + 1) * whole;
    assert scale * part <= scale * whole by {
      assert scale * (whole - part) >= 0;
    }
    assert 0 <= scale * part;
    MulLtCancel(-1, 2 * r + 1, whole);
    MulLtCancel(2 * r - 1, 2 * scale + 1, whole) by {
      assert (2 * scale + 1) * whole == 2 * (scale * whole) + whole;
    }
  }

  /** Rounding is monotone in the numerator for a positive denominator. */
  lemma {:induction false} RoundDivMonotone(a: int, b: int, den: int)
    requires den > 0 && a <= b
    ensures RoundDiv(a, den) <= RoundDiv(b, den)
  {
    var ra, rb := RoundDiv(a, den), RoundDiv(b, den);
    assert (2 * ra - 1) * den <= 2 * a <= 2 * b < (2 * rb + 1) * den;
    MulLtCancel(2 * ra - 1, 2 * rb + 1, den);
  }

  /** The same share rounded to tenths of a percent and to whole percent differ by at
      most half a percent: `toFixed(1)` on one screen and `Math.round` on another can
      show 66.7 and 67 for the same counts. */
  lemma {:induction false} TenthsAgreeWithWhole(part: int, whole: int)
    requires whole > 0
    ensures -5 <= RoundDiv(1000 * part, whole) - 10 * RoundDiv(100 * part, whole) <= 5
  {
    var a, b := RoundDiv(1000 * part, whole), RoundDiv(100 * part, whole);
    assert (2 * a - 1) * whole <= 2000 * part < (2 * a + 1) * whole;
    assert (2 * b - 1) * whole <= 200 * part < (2 * b + 1) * whole;
    assert (20 * b - 10) * whole <= 2000 * part < (20 * b + 10) * whole by {
      assert (20 * b - 10) * whole == 10 * ((2 * b - 1) * whole);
      assert (20 * b + 10) * whole == 10 * ((2 * b + 1) * whole);
    }
    MulLtCancel(2 * a - 1, 20 * b + 10, whole);
    MulLtCancel(20 * b - 10, 2 * a + 1, whole);
  }

  /** `part / whole` as a rounded number of `scale`-ths, and the full `scale` when
      there is nothing to divide by. */
  function ShareOrFull(part: nat, whole: nat, scale: nat): (r: int)
    requires part <= whole
    ensures 0 <= r <= scale
    ensures whole == 0 || part == whole ==> r == scale
    ensures whole > 0 && part == 0 ==> r == 0
  {
    if whole == 0 then scale
    else
      RoundedShareInRange(part, whole, scale);
      RoundWhole(whole, scale);
      RoundDiv(scale * part, whole)
  }

  /** `r` is `scale * part / whole` rounded to the nearest whole number, a half going
      up. */
  predicate RoundedShare(r: int, part: int, whole: int, scale: int)
  {
    (2 * r - 1) * whole <= 2 * (scale * part) < (2 * r + 1) * whole
  }

  lemma ShareOrFullRounds(part: nat, whole: nat, scale: nat, r: int)
    requires part <= whole && whole > 0 && r == ShareOrFull(part, whole, scale)
    ensures RoundedShare(r, part, whole, scale)
  {
    assert r == RoundDiv(scale * part, whole);
  }

  /** The whole, as a share of itself, rounds to the full scale. */
  lemma RoundWhole(whole: nat, scale: nat)
    requires whole > 0
    ensures RoundDiv(scale * whole, whole) == scale
  {
    var r := RoundDiv(scale * whole, whole);
    assert (2 * r - 1) * whole <= 2 * scale * whole < (2 * r + 1) * whole;
    MulLeCancel(2 * r - 1, 2 * scale, whole);
    MulLtCancel(2 * scale, 2 * r + 1, whole);
  }

  lemma MulLeMono(x: int, y: int, t: int)
    requires x <= y && t >= 0
    ensures x * t <= y * t
  {
  }

  lemma MulLtMono(x: int, y: int, t: int)
    requires x < y && t > 0
    ensures x * t < y * t
  {
  }

  /** Cross-multiplied, `fa / (fa + oa) <= fb / (fb + ob)` when the successes grow and
      the failures shrink. */
  lemma CrossShares(fa: nat, oa: nat, fb: nat, ob: nat, scale: nat)
    requires fa <= fb && ob <= oa
    ensures 2 * (scale * fa) * (fb + ob) <= 2 * (scale * fb) * (fa + oa)
  {
    assert fa * (fb + ob) <= fb * (fa + oa) by {
      assert fa * (fb + ob) == fa * fb + fa * ob;
      assert fb * (fa + oa) == fa * fb + fb * oa;
      MulLeMono(fa, fb, ob);
      MulLeMono(ob, oa, fb);
    }
    MulLeMono(fa * (fb + ob), fb * (fa + oa), 2 * scale);
    assert 2 * (scale * fa) * (fb + ob) == fa * (fb + ob) * (2 * scale);
    assert 2 * (scale * fb) * (fa + oa) == fb * (fa + oa) * (2 * scale);
  }

  /** Two roundings from below and above, compared through a cross-multiplied bound. */
  lemma RoundedOrder(ra: int, rb: int, wa: int, wb: int, p: int, q: int)
    requires wa > 0 && wb > 0
    requires (2 * ra - 1) * wa <= p && q < (2 * rb + 1) * wb
    requires p * wb <= q * wa
    ensures ra <= rb
  {
    MulLeMono((2 * ra - 1) * wa, p, wb);
    MulLtMono(q, (2 * rb + 1) * wb, wa);
    assert (2 * ra - 1) * wa * wb == (2 * ra - 1) * (wa * wb);
    assert (2 * rb + 1) * wb * wa == (2 * rb + 1) * (wa * wb);
    MulLtCancel(2 * ra - 1, 2 * rb + 1, wa * wb);
  }

  /** More successes and no more failures never lower the share. */
  lemma ShareMonotone(fa: nat, oa: nat, fb: nat, ob: nat, scale: nat)
    requires fa <= fb && ob <= oa
    ensures ShareOrFull(fa, fa + oa, scale) <= ShareOrFull(fb, fb + ob, scale)
  {
    if fa + oa > 0 && fb + ob > 0 {
      assert ShareOrFull(fa, fa + oa, scale) == RoundDiv(scale * fa, fa + oa);
      assert ShareOrFull(fb, fb + ob, scale) == RoundDiv(scale * fb, fb + ob);
      CrossShares(fa, oa, fb, ob, scale);
      RoundedOrder(RoundDiv(scale * fa, fa + oa), RoundDiv(scale * fb, fb + ob), fa + oa, fb + ob,
                   2 * (scale * fa), 2 * (scale * fb));
    }
  }
}
