/** The two-thirds test as the program computes it: fixed-point numbers with 18 decimals,
    whose division truncates, compared with a truncated two thirds. */
module Threshold {
  import opened Sums

  const SCALE: nat := 1_000_000_000_000_000_000

  /** `precise_consensus()`: 2 / 3 in fixed point. */
  const TARGET: nat := 2 * SCALE / 3

  predicate Passes(weight: nat, total: nat)
    requires total > 0
  {
    weight * SCALE / total >= TARGET
  }

  /** Truncating division against a bound is an exact comparison of products. */
  lemma QuotientAtLeast(a: nat, m: nat, bound: nat)
    requires m > 0
    ensures a / m >= bound <==> a >= bound * m
  {
    assert a == (a / m) * m + a % m;
    if a / m >= bound {
      ProductMonotone(m, bound, a / m);
    } else {
      ProductMonotone(m, a / m + 1, bound);
    }
  }

  /** The test in closed form: a ballot passes exactly when its shortfall from two thirds,
      scaled up, does not exceed twice the total. */
  lemma PassesExactly(weight: nat, total: nat)
    requires total > 0
    ensures Passes(weight, total) <==> (2 * total - 3 * weight) * SCALE <= 2 * total
  {
    QuotientAtLeast(weight * SCALE, total, TARGET);
    assert Passes(weight, total) <==> weight * SCALE >= TARGET * total;
    assert 3 * TARGET == 2 * SCALE - 2;
  }

  /** Two thirds always passes; whatever passes is a strict majority. */
  lemma TwoThirdsPassAndMajorityFollows(weight: nat, total: nat)
    requires total > 0
    ensures 3 * weight >= 2 * total ==> Passes(weight, total)
    ensures Passes(weight, total) ==> 2 * weight > total
  {
    PassesExactly(weight, total);
  }

  lemma HeavierPassesToo(weight: nat, heavier: nat, total: nat)
    requires total > 0 && weight <= heavier && Passes(weight, total)
    ensures Passes(heavier, total)
  {
    PassesExactly(weight, total);
    PassesExactly(heavier, total);
  }

  /** The smallest positive shortfall 2 * total - 3 * weight that any weight can have. */
  function SmallestShortfall(total: nat): nat {
    if total % 3 == 0 then 3 else if total % 3 == 1 then 2 else 1
  }

  /** For a given total, the fixed-point test decides two thirds correctly for every weight
      if and only if the smallest shortfall, scaled up, exceeds twice the total. */
  lemma ThresholdIsExactWhen(total: nat)
    requires total > 0
    ensures (forall weight: nat :: Passes(weight, total) <==> 3 * weight >= 2 * total)
       <==> SmallestShortfall(total) * SCALE > 2 * total
  {
    if SmallestShortfall(total) * SCALE > 2 * total {
      forall weight: nat
        ensures Passes(weight, total) <==> 3 * weight >= 2 * total
      {
        PassesExactly(weight, total);
        if 3 * weight < 2 * total {
          ShortfallAtLeast(weight, total);
        }
      }
    } else {
      var weight: nat := (2 * total - SmallestShortfall(total)) / 3;
      assert 2 * total - 3 * weight == SmallestShortfall(total) by { ShortfallReached(total); }
      PassesExactly(weight, total);
      assert Passes(weight, total) && 3 * weight < 2 * total;
    }
  }

  lemma ShortfallAtLeast(weight: nat, total: nat)
    requires 3 * weight < 2 * total
    ensures 2 * total - 3 * weight >= SmallestShortfall(total)
  {
    var t := total / 3;
    assert total == 3 * t + total % 3;
  }

  lemma ShortfallReached(total: nat)
    requires total > 0
    ensures 2 * total >= SmallestShortfall(total)
    ensures 3 * ((2 * total - SmallestShortfall(total)) / 3) == 2 * total - SmallestShortfall(total)
  {
    var t := total / 3;
    assert total == 3 * t + total % 3;
  }

  /** Every total below half the scale is decided exactly; half the scale is the first total
      that is not: there one unit less than two thirds already passes. */
  lemma HalfTheScale(total: nat, weight: nat)
    requires 0 < total
    ensures 2 * total < SCALE ==> (Passes(weight, total) <==> 3 * weight >= 2 * total)
    ensures Passes(333_333_333_333_333_333, SCALE / 2) && 3 * 333_333_333_333_333_333 < 2 * (SCALE / 2)
  {
    ThresholdIsExactWhen(total);
    PassesExactly(weight, total);
    PassesExactly(333_333_333_333_333_333, SCALE / 2);
  }
}
