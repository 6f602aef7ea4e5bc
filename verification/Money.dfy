/**
  Money arithmetic. A stored amount is an integer number of quanta, one quantum being one
  unit of the last place of the Numeric(28, 8) columns. An exact decimal that has not been
  rounded yet is a fraction of quanta. A currency with `decimals` fractional digits has the
  grid step 10^(8 - decimals).
 */
module Money {

  const SCALE := 8

  /** An exact value of num / den quanta. */
  datatype Raw' = Raw(num: int, den: int)
  type Raw = r: Raw' | r.den > 0 witness Raw(0, 1)

  function Pow10(n: nat): (p: nat)
    ensures p > 0
  {
    if n == 0 then 1 else 10 * Pow10(n - 1)
  }

  function GridStep(decimals: nat): (step: nat)
    requires decimals <= SCALE
    ensures step > 0
  {
    Pow10(SCALE - decimals)
  }

  /** The integer nearest to num / den; a tie goes to the even neighbour. */
  function HalfEven(num: int, den: int): (q: int)
    requires den > 0
    ensures IsHalfEven(num, den, q)
  {
    var q, r := num / den, num % den;
    assert num == q * den + r;
    if 2 * r < den || (2 * r == den && q % 2 == 0) then
      q
    else
      assert (q + 1) * den == q * den + den;
      q + 1
  }

  /** What rounding half to even means, without saying how it is computed. */
  ghost predicate IsHalfEven(num: int, den: int, q: int)
  {
    && -den <= 2 * (q * den - num) <= den
    && (2 * (q * den - num) == den || 2 * (q * den - num) == -den ==> q % 2 == 0)
  }

  function Quantize(value: Raw, step: nat): (r: int)
    requires step > 0
  {
    assert value.den * step > 0;
    step * HalfEven(value.num, value.den * step)
  }

  /** Quantising an amount that is already a whole number of quanta. */
  function Q(amount: int, step: nat): (r: int)
    requires step > 0
  {
    Quantize(Raw(amount, 1), step)
  }

  predicate OnGrid(amount: int, step: nat)
    requires step > 0
  {
    amount % step == 0
  }

  /** Commission at `rate` hundredths of a percent. */
  function Commission(amount: int, rate: int, step: nat): (c: int)
    requires step > 0
  {
    Quantize(Raw(amount * rate, 10000), step)
  }

  function Max(a: int, b: int): int { if a < b then b else a }
  function Min(a: int, b: int): int { if a < b then a else b }

  // ---------------------------------------------------------------- rounding

  lemma TimesMonotone(a: int, b: int, k: int)
    requires a <= b && k >= 0
    ensures a * k <= b * k && k * a <= k * b
  {
    assert (b - a) * k >= 0;
  }

  /** Two candidates for the same or growing values cannot be out of order. */
  lemma {:induction false} HalfEvenOrdered(n1: int, n2: int, den: int, q1: int, q2: int)
    requires den > 0 && n1 <= n2
    requires IsHalfEven(n1, den, q1) && IsHalfEven(n2, den, q2)
    ensures q1 <= q2
  {
    if q1 > q2 {
      var p1, p2 := q1 * den, q2 * den;
      assert p1 >= p2 + den && (q1 >= q2 + 2 ==> p1 >= p2 + 2 * den) by {
        TimesMonotone(q2 + 1, q1, den);
        if q1 >= q2 + 2 { TimesMonotone(q2 + 2, q1, den); }
      }
      // The two roundings leave room for exactly one step, taken by a tie
      // on either side, and a tie never leaves an odd integer.
      assert false;
    }
  }

  /** IsHalfEven has exactly one solution, so it is a complete definition of HalfEven. */
  lemma {:induction false} HalfEvenUnique(num: int, den: int, q: int)
    requires den > 0
    ensures IsHalfEven(num, den, q) <==> q == HalfEven(num, den)
  {
    if IsHalfEven(num, den, q) {
      HalfEvenOrdered(num, num, den, q, HalfEven(num, den));
      HalfEvenOrdered(num, num, den, HalfEven(num, den), q);
    }
  }

  /** Scaling keeps a number within its bounds, and on them only if it was. */
  lemma ScaledWithin(a: int, bound: int, k: int)
    requires k > 0 && -bound <= a <= bound
    ensures -(k * bound) <= k * a <= k * bound
    ensures (k * a == k * bound ==> a == bound) && (k * a == -(k * bound) ==> a == -bound)
  {
    TimesMonotone(a, bound, k);
    TimesMonotone(-bound, a, k);
    if a < bound { TimesMonotone(a + 1, bound, k); }
    if -bound < a { TimesMonotone(-bound, a - 1, k); }
  }

  lemma ScaledDistance(q: int, num: int, den: int, k: int)
    ensures 2 * (q * (k * den) - k * num) == k * (2 * (q * den - num))
  {
    Rearrange(q, k, den);
    assert k * (q * den) - k * num == k * (q * den - num);
  }

  lemma {:induction false} HalfEvenScales(num: int, den: int, k: int)
    requires den > 0 && k > 0
    ensures k * den > 0 && HalfEven(k * num, k * den) == HalfEven(num, den)
  {
    var q := HalfEven(num, den);
    TimesMonotone(1, den, k);
    ScaledWithin(2 * (q * den - num), den, k);
    ScaledDistance(q, num, den, k);
    HalfEvenUnique(k * num, k * den, q);
  }

  lemma {:induction false} MultipleIsExact(q: int, step: nat)
    requires step > 0
    ensures HalfEven(q * step, step) == q
  {
    HalfEvenUnique(q * step, step, q);
  }

  /** Quantising lands on the grid, and leaves a value that is on the grid alone. */
  lemma {:induction false} QuantizeIdempotent(value: Raw, amount: int, step: nat)
    requires step > 0
    ensures OnGrid(Quantize(value, step), step)
    ensures OnGrid(amount, step) <==> Q(amount, step) == amount
    ensures Q(Quantize(value, step), step) == Quantize(value, step)
  {
    MultipleOnGrid(HalfEven(value.num, value.den * step), step);
    MultipleOnGrid(HalfEven(amount, step), step);
    if OnGrid(amount, step) {
      assert amount == (amount / step) * step;
      MultipleIsExact(amount / step, step);
    }
    MultipleIsExact(HalfEven(value.num, value.den * step), step);
  }

  lemma MultipleOnGrid(q: int, step: nat)
    requires step > 0
    ensures OnGrid(step * q, step)
  {
    var x := step * q;
    var d, m := x / step, x % step;
    assert x == step * d + m;
    assert m == step * q - step * d;
    if q > d {
      TimesMonotone(d + 1, q, step);
      assert false;
    }
    if q < d {
      TimesMonotone(q + 1, d, step);
      assert false;
    }
  }

  lemma {:induction false} GridClosed(a: int, b: int, step: nat)
    requires step > 0 && OnGrid(a, step) && OnGrid(b, step)
    ensures OnGrid(a + b, step) && OnGrid(a - b, step)
    ensures a < b ==> a + step <= b
  {
    var p, q := a / step, b / step;
    assert a == step * p && b == step * q;
    assert a + b == step * (p + q) && a - b == step * (p - q);
    MultipleOnGrid(p + q, step);
    MultipleOnGrid(p - q, step);
    if a < b {
      if q <= p {
        TimesMonotone(q, p, step);
        assert false;
      }
      TimesMonotone(p + 1, q, step);
    }
  }

  /** Quantising moves a value by at most half a grid step and never reorders two values. */
  lemma {:induction false} QuantizeNearAndMonotone(v: Raw, w: Raw, step: nat)
    requires step > 0
    ensures -(v.den * step) <= 2 * (Quantize(v, step) * v.den - v.num) <= v.den * step
    ensures v.num * w.den <= w.num * v.den ==> Quantize(v, step) <= Quantize(w, step)
  {
    var p, q := HalfEven(v.num, v.den * step), HalfEven(w.num, w.den * step);
    assert Quantize(v, step) * v.den == p * (v.den * step) by { Rearrange(step, p, v.den); }
    if v.num * w.den <= w.num * v.den {
      HalfEvenScales(v.num, v.den * step, w.den);
      HalfEvenScales(w.num, w.den * step, v.den);
      Rearrange(w.den, v.den, step);
      HalfEvenOrdered(w.den * v.num, v.den * w.num, w.den * (v.den * step), p, q);
      TimesMonotone(p, q, step);
    }
  }

  lemma Rearrange(a: int, b: int, c: int)
    ensures a * (b * c) == b * (a * c)
    ensures a * b * c == b * (c * a)
  {
  }

  /** The multiple of `step` nearest to num / den quanta; of two equally near, the even one. */
  ghost predicate IsNearest(num: int, den: int, step: nat, r: int)
    requires step > 0
  {
    OnGrid(r, step) && IsHalfEven(num, den * step, r / step)
  }

  /** Quantising finds it, and nothing else is it. */
  lemma {:induction false} QuantizeIsNearest(v: Raw, step: nat, r: int)
    requires step > 0
    ensures IsNearest(v.num, v.den, step, r) <==> r == Quantize(v, step)
  {
    var q := HalfEven(v.num, v.den * step);
    MultipleOnGrid(q, step);
    MultipleOf(q, step);
    if IsNearest(v.num, v.den, step, r) {
      HalfEvenUnique(v.num, v.den * step, r / step);
    }
  }

  lemma MultipleOf(q: int, step: nat)
    requires step > 0
    ensures step * q / step == q
  {
    MultipleOnGrid(q, step);
    var d := step * q / step;
    assert step * q == step * d;
    if q > d { TimesMonotone(d + 1, q, step); }
    if q < d { TimesMonotone(q + 1, d, step); }
  }

  lemma Powers(m: nat, n: nat)
    ensures Pow10(m + n) == Pow10(m) * Pow10(n)
  {
    if m > 0 { Powers(m - 1, n); }
  }

  /** One unit of a currency is 10^8 quanta, and 10^decimals grid steps. */
  lemma {:induction false} UnitInSteps(decimals: nat)
    requires decimals <= 8
    ensures Pow10(decimals) * GridStep(decimals) == 100_000_000
  {
    Powers(decimals, 8 - decimals);
    assert Pow10(1) == 10 && Pow10(2) == 100 && Pow10(3) == 1000 && Pow10(4) == 10000;
    Powers(4, 4);
  }

  lemma QuantizeNonNegative(v: Raw, step: nat)
    requires step > 0 && v.num >= 0
    ensures Quantize(v, step) >= 0
  {
    QuantizeNearAndMonotone(Raw(0, 1), v, step);
    MultipleIsExact(0, step);
  }

  // -------------------------------------------------------------- commission

  /**
    The fee is `rate` parts in ten thousand of the amount, to the nearest multiple of the grid
    step, and to the even one of two equally near.
   */
  lemma {:induction false} CommissionIsPercentage(amount: int, rate: int, step: nat)
    requires step > 0
    ensures var fee := Commission(amount, rate, step);
            OnGrid(fee, step) && IsHalfEven(amount * rate, 10000 * step, fee / step)
  {
    QuantizeIsNearest(Raw(amount * rate, 10000), step, Commission(amount, rate, step));
  }

  /** Rates of 0 to 100 percent take between nothing and the whole amount. */
  lemma {:induction false} CommissionBounds(amount: int, rate: int, step: nat)
    requires step > 0 && amount >= 0 && OnGrid(amount, step) && rate >= 0
    ensures Commission(amount, rate, step) >= 0
    ensures rate <= 10000 ==> Commission(amount, rate, step) <= amount
    ensures rate == 0 ==> Commission(amount, rate, step) == 0
    ensures rate == 10000 ==> Commission(amount, rate, step) == amount
  {
    assert amount * rate >= 0;
    QuantizeNonNegative(Raw(amount * rate, 10000), step);
    if rate <= 10000 {
      assert amount * rate <= amount * 10000 by { assert amount * (10000 - rate) >= 0; }
      QuantizeNearAndMonotone(Raw(amount * rate, 10000), Raw(amount, 1), step);
      QuantizeIdempotent(Raw(0, 1), amount, step);
    }
    CommissionEnds(amount, step);
  }

  lemma CommissionEnds(amount: int, step: nat)
    requires step > 0 && OnGrid(amount, step)
    ensures Commission(amount, 0, step) == 0 && Commission(amount, 10000, step) == amount
  {
    HalfEvenUnique(0, 10000 * step, 0);
    var q := amount / step;
    assert amount == step * q;
    assert q * (10000 * step) == amount * 10000;
    HalfEvenUnique(amount * 10000, 10000 * step, q);
  }

  lemma {:induction false} CommissionMonotone(a1: int, a2: int, r1: int, r2: int, step: nat)
    requires step > 0 && 0 <= a1 <= a2 && 0 <= r1 <= r2
    ensures Commission(a1, r1, step) <= Commission(a2, r2, step)
  {
    assert a1 * r1 <= a2 * r2 by {
      assert a1 * (r2 - r1) >= 0;
      assert (a2 - a1) * r2 >= 0;
      assert a2 * r2 - a1 * r1 == (a2 - a1) * r2 + a1 * (r2 - r1);
    }
    QuantizeNearAndMonotone(Raw(a1 * r1, 10000), Raw(a2 * r2, 10000), step);
  }

  /** The amount a balance must hold to pay principal and commission is their exact sum. */
  lemma {:induction false} NeededIsExact(amount: int, rate: int, step: nat)
    requires step > 0 && OnGrid(amount, step)
    ensures Q(amount + Commission(amount, rate, step), step) == amount + Commission(amount, rate, step)
  {
    QuantizeIdempotent(Raw(amount * rate, 10000), amount, step);
    GridClosed(amount, Commission(amount, rate, step), step);
    QuantizeIdempotent(Raw(0, 1), amount + Commission(amount, rate, step), step);
  }
}
