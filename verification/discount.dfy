/** The blended discount: children of staff pay half fees, every other child
    gets the same percentage off, and the school-wide effect is the
    headcount-weighted average of the two, as a percentage of gross fees. */
module Discount {

  /** Discount given to each child of a member of staff, in percent. */
  const StaffChildDiscount: real := 50.0

  function Max(a: real, b: real): real { if a >= b then a else b }

  function Min(a: real, b: real): real { if a <= b then a else b }

  /** Children who are not children of staff; never negative, even when the
      staff-children count is larger than the roll. */
  function OtherChildren(numChildren: real, numStaffChildren: real): (r: real)
    ensures r >= 0.0
    ensures numStaffChildren <= numChildren ==> r == numChildren - numStaffChildren
    ensures numStaffChildren >= numChildren ==> r == 0.0
  {
    Max(0.0, numChildren - numStaffChildren)
  }

  /** The discount effect in percent; zero, rather than a division by zero,
      when there are no children. */
  function DiscountEffect(numChildren: real, numStaffChildren: real, otherChildrenDiscount: real): (pct: real)
    ensures numChildren <= 0.0 ==> pct == 0.0
  {
    var staffChildrenDiscount := numStaffChildren * 0.5;
    var otherChildrenDiscountAmount := OtherChildren(numChildren, numStaffChildren) * (otherChildrenDiscount / 100.0);
    if numChildren > 0.0 then
      ((staffChildrenDiscount + otherChildrenDiscountAmount) / numChildren) * 100.0
    else
      0.0
  }

  /** The staff-children field accepts a value only after forcing it into
      [0, numChildren]; with a negative roll the field is forced to 0. */
  function ClampStaffChildren(value: real, numChildren: real): (r: real)
    ensures numChildren >= 0.0 ==> 0.0 <= r <= numChildren
    ensures numChildren < 0.0 ==> r == 0.0
    ensures 0.0 <= value <= numChildren ==> r == value
    ensures value < 0.0 ==> r == 0.0
    ensures value > numChildren && numChildren >= 0.0 ==> r == numChildren
  {
    Max(0.0, Min(value, numChildren))
  }

  /** Clamping an already clamped count changes nothing. */
  lemma ClampIdempotent(value: real, numChildren: real)
    ensures ClampStaffChildren(ClampStaffChildren(value, numChildren), numChildren)
         == ClampStaffChildren(value, numChildren)
  {
  }

  /** For any positive roll, the effect times the roll is 50 per staff
      child plus the other-children rate per remaining child:
      effect * roll == 50 * staff + other * max(0, roll - staff). With a
      consistent staff count this makes the effect the weighted average of
      50% over the staff children and the other-children rate over the rest. */
  lemma DiscountIsWeightedAverage(numChildren: real, numStaffChildren: real, otherChildrenDiscount: real)
    requires numChildren > 0.0
    ensures DiscountEffect(numChildren, numStaffChildren, otherChildrenDiscount) * numChildren
         == StaffChildDiscount * numStaffChildren
            + otherChildrenDiscount * OtherChildren(numChildren, numStaffChildren)
    ensures numStaffChildren <= numChildren ==>
              (DiscountEffect(numChildren, numStaffChildren, otherChildrenDiscount) * numChildren
               == StaffChildDiscount * numStaffChildren + otherChildrenDiscount * (numChildren - numStaffChildren))
  {
    var n, s, o := numChildren, numStaffChildren, otherChildrenDiscount;
    var others := OtherChildren(n, s);
    var total := s * 0.5 + others * (o / 100.0);
    assert DiscountEffect(n, s, o) == (total / n) * 100.0;
    calc {
      (total / n) * 100.0 * n;
      == { assert (total / n) * n == total; }
      total * 100.0;
      ==
      StaffChildDiscount * s + o * others;
    }
  }

  /** A weighted average lies between the two rates it averages, so with
      both rates in [0, 100] so is the effect. */
  lemma DiscountBetweenRates(numChildren: real, numStaffChildren: real, otherChildrenDiscount: real)
    requires numChildren > 0.0
    requires 0.0 <= numStaffChildren <= numChildren
    ensures Min(StaffChildDiscount, otherChildrenDiscount)
         <= DiscountEffect(numChildren, numStaffChildren, otherChildrenDiscount)
         <= Max(StaffChildDiscount, otherChildrenDiscount)
    ensures 0.0 <= otherChildrenDiscount <= 100.0 ==>
              0.0 <= DiscountEffect(numChildren, numStaffChildren, otherChildrenDiscount) <= 100.0
  {
    var n, s, o := numChildren, numStaffChildren, otherChildrenDiscount;
    DiscountIsWeightedAverage(n, s, o);
    AverageBetween(DiscountEffect(n, s, o), n, s, o);
  }

  /** A rate that, times the roll, is 50 per staff child plus the other rate
      per remaining child lies between 50 and the other rate. */
  lemma AverageBetween(pct: real, n: real, s: real, o: real)
    requires n > 0.0 && 0.0 <= s <= n
    requires pct * n == StaffChildDiscount * s + o * (n - s)
    ensures Min(StaffChildDiscount, o) <= pct <= Max(StaffChildDiscount, o)
  {
    var lo, hi := Min(StaffChildDiscount, o), Max(StaffChildDiscount, o);
    var total := StaffChildDiscount * s + o * (n - s);
    AverageAbove(s, n - s, StaffChildDiscount, o, lo, total);
    AverageBelow(s, n - s, StaffChildDiscount, o, hi, total);
    assert s + (n - s) == n;
    CancelPositive(lo, pct, n);
    CancelPositive(pct, hi, n);
  }

  /** A sum of two non-negatively weighted rates is at least the weight
      total times any bound below both rates, and at most the weight total
      times any bound above both. */
  lemma AverageAbove(w1: real, w2: real, a: real, b: real, lo: real, total: real)
    requires w1 >= 0.0 && w2 >= 0.0 && lo <= a && lo <= b
    requires total == a * w1 + b * w2
    ensures lo * (w1 + w2) <= total
  {
    ScaleMonotone(lo, a, w1);
    ScaleMonotone(lo, b, w2);
  }

  lemma AverageBelow(w1: real, w2: real, a: real, b: real, hi: real, total: real)
    requires w1 >= 0.0 && w2 >= 0.0 && a <= hi && b <= hi
    requires total == a * w1 + b * w2
    ensures total <= hi * (w1 + w2)
  {
    ScaleMonotone(a, hi, w1);
    ScaleMonotone(b, hi, w2);
  }

  lemma ScaleMonotone(x: real, y: real, c: real)
    requires x <= y && c >= 0.0
    ensures x * c <= y * c
  {
  }

  lemma CancelPositive(x: real, y: real, n: real)
    requires n > 0.0 && x * n <= y * n
    ensures x <= y
  {
  }

  /** Without staff children the effect is exactly the other-children rate. */
  lemma DiscountWithoutStaffChildren(numChildren: real, otherChildrenDiscount: real)
    requires numChildren > 0.0
    ensures DiscountEffect(numChildren, 0.0, otherChildrenDiscount) == otherChildrenDiscount
  {
    DiscountIsWeightedAverage(numChildren, 0.0, otherChildrenDiscount);
  }

  /** When every child is a child of staff the effect is exactly 50%. */
  lemma DiscountAllStaffChildren(numChildren: real, otherChildrenDiscount: real)
    requires numChildren > 0.0
    ensures DiscountEffect(numChildren, numChildren, otherChildrenDiscount) == StaffChildDiscount
  {
    DiscountIsWeightedAverage(numChildren, numChildren, otherChildrenDiscount);
  }

  /** The effect itself does not clamp: a staff count above the roll (left
      behind when the roll is lowered after the staff count was entered)
      gives 50% of a ratio above one, so more than 50% and, past twice the
      roll, more than 100%. */
  lemma StaleStaffCountOvershoots(numChildren: real, numStaffChildren: real, otherChildrenDiscount: real)
    requires numChildren > 0.0
    requires numStaffChildren > numChildren
    ensures DiscountEffect(numChildren, numStaffChildren, otherChildrenDiscount)
         == StaffChildDiscount * numStaffChildren / numChildren
    ensures DiscountEffect(numChildren, numStaffChildren, otherChildrenDiscount) > StaffChildDiscount
    ensures numStaffChildren > 2.0 * numChildren ==>
              DiscountEffect(numChildren, numStaffChildren, otherChildrenDiscount) > 100.0
  {
    var n, s, o := numChildren, numStaffChildren, otherChildrenDiscount;
    DiscountIsWeightedAverage(n, s, o);
    StaleBound(DiscountEffect(n, s, o), n, s);
  }

  /** A rate that, times the roll, is 50 per staff child, with more staff
      children than the roll, is 50 x staff / roll: above 50, and above 100
      past twice the roll. */
  lemma StaleBound(pct: real, n: real, s: real)
    requires n > 0.0 && s > n
    requires pct * n == StaffChildDiscount * s
    ensures pct == StaffChildDiscount * s / n
    ensures pct > StaffChildDiscount
    ensures s > 2.0 * n ==> pct > 100.0
  {
    assert pct == StaffChildDiscount * s / n;
    assert pct * n > StaffChildDiscount * n;
    if s > 2.0 * n {
      assert pct * n > 100.0 * n;
    }
  }

  /** Whatever is typed into the staff-children field, once it has been
      clamped against a positive roll the effect stays between the two
      rates. */
  lemma ClampedDiscountBounded(value: real, numChildren: real, otherChildrenDiscount: real)
    requires numChildren > 0.0
    requires 0.0 <= otherChildrenDiscount <= 100.0
    ensures 0.0 <= DiscountEffect(numChildren, ClampStaffChildren(value, numChildren), otherChildrenDiscount) <= 100.0
  {
    DiscountBetweenRates(numChildren, ClampStaffChildren(value, numChildren), otherChildrenDiscount);
  }
}
