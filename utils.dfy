// The two easing helpers the transition animation uses: the quintic
// ease-in-out curve and the per-star staggered progress.
module Easing {
  import opened Vectors

  function Pow5(x: real): real {
    x * x * x * x * x
  }

  lemma Pow5NonNegative(x: real)
    requires 0.0 <= x
    ensures 0.0 <= Pow5(x)
  {
    assert 0.0 <= x * x;
    assert 0.0 <= x * x * x;
    assert 0.0 <= x * x * x * x;
  }

  lemma Pow5Monotonic(a: real, b: real)
    requires 0.0 <= a <= b
    ensures Pow5(a) <= Pow5(b)
  {
    calc {
      Pow5(a);
      == a * a * a * a * a;
      <= { assert a * a <= b * b; assert a * a * a <= b * b * b; assert a * a * a * a <= b * b * b * b; }
         b * b * b * b * b;
    }
  }

  lemma Pow5AtMostOne(x: real)
    requires 0.0 <= x <= 1.0
    ensures Pow5(x) <= 1.0
  {
    Pow5Monotonic(x, 1.0);
  }

  /**
   * easeInOutQuint: 16 t^5 on the first half, 1 - (2 - 2t)^5 / 2 on the
   * second. The two halves meet at t = 0.5, where both give 0.5.
   */
  function EaseInOutQuint(t: real): real {
    if t < 0.5 then 16.0 * Pow5(t) else 1.0 - Pow5(-2.0 * t + 2.0) / 2.0
  }

  /** The curve starts at 0, passes through 0.5 at the midpoint and ends at 1. */
  lemma EaseFixedPoints()
    ensures EaseInOutQuint(0.0) == 0.0
    ensures EaseInOutQuint(0.5) == 0.5
    ensures EaseInOutQuint(1.0) == 1.0
  {
    assert Pow5(1.0) == 1.0;
    assert Pow5(0.0) == 0.0;
  }

  /** On [0, 1] the curve stays within [0, 1]. */
  lemma EaseInRange(t: real)
    requires 0.0 <= t <= 1.0
    ensures 0.0 <= EaseInOutQuint(t) <= 1.0
  {
    if t < 0.5 {
      Pow5NonNegative(t);
      Pow5Monotonic(t, 0.5);
      assert Pow5(0.5) == 0.03125;
    } else {
      Pow5NonNegative(-2.0 * t + 2.0);
      Pow5AtMostOne(-2.0 * t + 2.0);
    }
  }

  /** On [0, 1] the curve never decreases. */
  lemma EaseMonotonic(a: real, b: real)
    requires 0.0 <= a <= b <= 1.0
    ensures EaseInOutQuint(a) <= EaseInOutQuint(b)
  {
    assert Pow5(0.5) == 0.03125;
    if b < 0.5 {
      Pow5Monotonic(a, b);
    } else if 0.5 <= a {
      Pow5Monotonic(-2.0 * b + 2.0, -2.0 * a + 2.0);
    } else {
      Pow5Monotonic(a, 0.5);
      Pow5AtMostOne(-2.0 * b + 2.0);
    }
  }

  lemma Pow5Double(x: real)
    ensures Pow5(2.0 * x) == 32.0 * Pow5(x)
  {
    var y := 2.0 * x;
    assert y * y == 4.0 * (x * x);
    assert y * y * y == 8.0 * (x * x * x);
    assert y * y * y * y == 16.0 * (x * x * x * x);
  }

  /** The curve is point-symmetric about (0.5, 0.5). */
  lemma EaseSymmetric(t: real)
    ensures EaseInOutQuint(1.0 - t) == 1.0 - EaseInOutQuint(t)
  {
    if t < 0.5 {
      assert -2.0 * (1.0 - t) + 2.0 == 2.0 * t;
      Pow5Double(t);
    } else if t > 0.5 {
      assert -2.0 * t + 2.0 == 2.0 * (1.0 - t);
      Pow5Double(1.0 - t);
    } else {
      assert Pow5(1.0) == 1.0;
    }
  }

  /** How late item `itemIndex` of `totalItems` starts: its share of the order times the delay. */
  function StarDelay(itemIndex: real, totalItems: real, staggerDelay: real): real
    requires totalItems != 0.0
  {
    (itemIndex / totalItems) * staggerDelay
  }

  /**
   * calculateStaggeredProgress: item `itemIndex` of `totalItems` starts
   * `StarDelay` late and runs over the remaining `1 - staggerDelay` of the
   * overall progress; the result is clamped to [0, 1].
   */
  function StaggeredProgress(progress: real, itemIndex: real, totalItems: real, staggerDelay: real): (r: real)
    requires totalItems != 0.0 && staggerDelay != 1.0
    ensures 0.0 <= r <= 1.0
  {
    Clamp01((progress - StarDelay(itemIndex, totalItems, staggerDelay)) / (1.0 - staggerDelay))
  }

  /** A later overall progress never gives an item less progress. */
  lemma StaggeredMonotonicInProgress(p1: real, p2: real, itemIndex: real, totalItems: real, staggerDelay: real)
    requires totalItems != 0.0 && staggerDelay < 1.0
    requires p1 <= p2
    ensures StaggeredProgress(p1, itemIndex, totalItems, staggerDelay)
         <= StaggeredProgress(p2, itemIndex, totalItems, staggerDelay)
  {
    var starDelay := StarDelay(itemIndex, totalItems, staggerDelay);
    ClampedQuotientMonotonic(p1 - starDelay, p2 - starDelay, 1.0 - staggerDelay);
  }

  /** An item further down the order is never ahead of an earlier one. */
  lemma StaggeredAntitoneInIndex(progress: real, i1: real, i2: real, totalItems: real, staggerDelay: real)
    requires 0.0 < totalItems && 0.0 <= staggerDelay < 1.0
    requires i1 <= i2
    ensures StaggeredProgress(progress, i2, totalItems, staggerDelay)
         <= StaggeredProgress(progress, i1, totalItems, staggerDelay)
  {
    DelayMonotonic(i1, i2, totalItems, staggerDelay);
    var d1, d2 := StarDelay(i1, totalItems, staggerDelay), StarDelay(i2, totalItems, staggerDelay);
    ClampedQuotientMonotonic(progress - d2, progress - d1, 1.0 - staggerDelay);
  }

  lemma ClampedQuotientMonotonic(a: real, b: real, d: real)
    requires a <= b && 0.0 < d
    ensures Clamp01(a / d) <= Clamp01(b / d)
  {
    DivideMonotonic(a, b, d);
    ClampMonotonic(a / d, b / d);
  }

  lemma DelayMonotonic(i1: real, i2: real, totalItems: real, staggerDelay: real)
    requires 0.0 < totalItems && 0.0 <= staggerDelay
    requires i1 <= i2
    ensures StarDelay(i1, totalItems, staggerDelay) <= StarDelay(i2, totalItems, staggerDelay)
  {
    DivideMonotonic(i1, i2, totalItems);
    MulNonNegative(i2 / totalItems - i1 / totalItems, staggerDelay);
  }

  lemma DivideMonotonic(a: real, b: real, d: real)
    requires a <= b && 0.0 < d
    ensures a / d <= b / d
  {
    assert b / d - a / d == (b - a) / d;
  }

  /**
   * Every item whose index is within [0, totalItems] is at 0 when the
   * overall progress is 0, and at 1 when it is 1.
   */
  lemma StaggeredEndpoints(itemIndex: real, totalItems: real, staggerDelay: real)
    requires 0.0 < totalItems && 0.0 <= staggerDelay < 1.0
    requires 0.0 <= itemIndex <= totalItems
    ensures StaggeredProgress(0.0, itemIndex, totalItems, staggerDelay) == 0.0
    ensures StaggeredProgress(1.0, itemIndex, totalItems, staggerDelay) == 1.0
  {
    var f := itemIndex / totalItems;
    assert 0.0 <= f <= 1.0 by {
      DivideMonotonic(0.0, itemIndex, totalItems);
      DivideMonotonic(itemIndex, totalItems, totalItems);
    }
    var starDelay := f * staggerDelay;
    assert 0.0 <= starDelay <= staggerDelay by {
      MulNonNegative(1.0 - f, staggerDelay);
      MulNonNegative(f, staggerDelay);
    }
    DivideMonotonic(0.0 - starDelay, 0.0, 1.0 - staggerDelay);
    assert (1.0 - staggerDelay) / (1.0 - staggerDelay) == 1.0;
    DivideMonotonic(1.0 - staggerDelay, 1.0 - starDelay, 1.0 - staggerDelay);
  }
}
