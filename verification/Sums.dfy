/** Sums over account lists, and the arithmetic of floored proportional shares. */
module Sums {

  /** The sum of `f` over the list. */
  function SumBy<T>(s: seq<T>, f: T -> nat): nat {
    if |s| == 0 then 0 else SumBy(s[..|s| - 1], f) + f(s[|s| - 1])
  }

  lemma SumByAppend<T>(s: seq<T>, x: T, f: T -> nat)
    ensures SumBy(s + [x], f) == SumBy(s, f) + f(x)
  {
    assert (s + [x])[..|s|] == s;
  }

  lemma {:induction false} SumByUpdate<T>(s: seq<T>, i: nat, x: T, f: T -> nat)
    requires i < |s|
    ensures SumBy(s[i := x], f) + f(s[i]) == SumBy(s, f) + f(x)
  {
    var n := |s| - 1;
    if i == n {
      assert s[i := x][..n] == s[..n];
    } else {
      assert s[i := x][..n] == s[..n][i := x];
      SumByUpdate(s[..n], i, x, f);
    }
  }

  /** Splitting a sum at position `i`. */
  lemma {:induction false} SumBySplit<T>(s: seq<T>, i: nat, f: T -> nat)
    requires i <= |s|
    ensures SumBy(s, f) == SumBy(s[..i], f) + SumBy(s[i..], f)
  {
    if i == |s| {
      assert s[..i] == s;
    } else {
      var n := |s| - 1;
      SumBySplit(s[..n], i, f);
      assert s[..n][..i] == s[..i];
      assert s[..n][i..] == s[i..][..n - i];
    }
  }

  lemma {:induction false} SumByAtLeast<T>(s: seq<T>, i: nat, f: T -> nat)
    requires i < |s|
    ensures f(s[i]) <= SumBy(s, f)
  {
    if i < |s| - 1 {
      SumByAtLeast(s[..|s| - 1], i, f);
    }
  }

  lemma {:induction false} SumByTwo<T>(s: seq<T>, i: nat, j: nat, f: T -> nat)
    requires i < j < |s|
    ensures f(s[i]) + f(s[j]) <= SumBy(s, f)
  {
    var n := |s| - 1;
    if j == n {
      SumByAtLeast(s[..n], i, f);
    } else {
      SumByTwo(s[..n], i, j, f);
    }
  }

  /** Lists that agree position by position have the same sum. */
  lemma {:induction false} SumByAligned<A, B>(a: seq<A>, b: seq<B>, f: A -> nat, g: B -> nat)
    requires |a| == |b|
    requires forall i :: 0 <= i < |a| ==> f(a[i]) == g(b[i])
    ensures SumBy(a, f) == SumBy(b, g)
  {
    if |a| > 0 {
      SumByAligned(a[..|a| - 1], b[..|a| - 1], f, g);
    }
  }

  lemma {:induction false} SumByZero<T>(s: seq<T>, f: T -> nat)
    requires forall i :: 0 <= i < |s| ==> f(s[i]) == 0
    ensures SumBy(s, f) == 0
  {
    if |s| > 0 {
      SumByZero(s[..|s| - 1], f);
    }
  }

  /** Two summands that differ at one position only. */
  lemma {:induction false} SumByDiffersAt<T>(s: seq<T>, i: nat, f: T -> nat, g: T -> nat)
    requires i < |s|
    requires forall j :: 0 <= j < |s| && j != i ==> f(s[j]) == g(s[j])
    ensures SumBy(s, f) + g(s[i]) == SumBy(s, g) + f(s[i])
  {
    var n := |s| - 1;
    if i == n {
      SumByAligned(s[..n], s[..n], f, g);
    } else {
      SumByDiffersAt(s[..n], i, f, g);
    }
  }

  /** One party's floored proportional part of `rewards`. */
  function Share(rewards: nat, weight: nat, total: nat): nat
    requires total > 0
  {
    rewards * weight / total
  }

  /** The share function over parties that carry a weight. */
  function ShareBy<T>(rewards: nat, weightOf: T -> nat, total: nat): T -> nat
    requires total > 0
  {
    (x: T) => Share(rewards, weightOf(x), total)
  }

  /** One for a party of nonzero weight. */
  function PresenceBy<T>(weightOf: T -> nat): T -> nat {
    (x: T) => if weightOf(x) > 0 then 1 else 0
  }

  lemma ShareBounds(rewards: nat, weight: nat, total: nat)
    requires total > 0
    ensures Share(rewards, weight, total) * total <= rewards * weight
    ensures weight == 0 ==> Share(rewards, weight, total) == 0
    ensures rewards * weight <= Share(rewards, weight, total) * total + (if weight > 0 then total - 1 else 0)
    ensures weight <= total ==> Share(rewards, weight, total) <= rewards
  {
    var p := rewards * weight;
    assert p == (p / total) * total + p % total;
    if weight == 0 {
      assert p == 0;
    }
    if weight <= total {
      ProductMonotone(rewards, weight, total);
      if p / total > rewards {
        ProductMonotone(total, rewards + 1, p / total);
        assert false;
      }
    }
  }

  lemma ProductMonotone(a: nat, b: nat, c: nat)
    requires b <= c
    ensures a * b <= a * c
  {
    assert a * c == a * b + a * (c - b);
  }

  lemma Distribute(a: nat, b: nat, c: nat)
    ensures (a + b) * c == a * c + b * c
  {
  }

  lemma QuotientUnique(a: nat, m: nat, q: nat, r: nat)
    requires a == q * m + r && r < m
    ensures a / m == q && a % m == r
  {
    var q' := a / m;
    if q' < q {
      ProductMonotone(m, q' + 1, q);
    } else if q < q' {
      ProductMonotone(m, q + 1, q');
    }
  }

  /** The two-sided bound on a whole list of floored shares. */
  lemma {:induction false} ShareSumBounds<T>(s: seq<T>, rewards: nat, weightOf: T -> nat, total: nat)
    requires total > 0
    ensures SumBy(s, ShareBy(rewards, weightOf, total)) * total <= SumBy(s, weightOf) * rewards
    ensures SumBy(s, weightOf) * rewards
         <= SumBy(s, ShareBy(rewards, weightOf, total)) * total + SumBy(s, PresenceBy(weightOf)) * (total - 1)
  {
    if |s| == 0 {
    } else {
      var front, last := s[..|s| - 1], s[|s| - 1];
      ShareSumBounds(front, rewards, weightOf, total);
      BoundsStep(SumBy(front, ShareBy(rewards, weightOf, total)), SumBy(front, weightOf), SumBy(front, PresenceBy(weightOf)),
                 rewards, weightOf(last), total);
    }
  }

  lemma BoundsStep(paid: nat, weights: nat, parties: nat, rewards: nat, weight: nat, total: nat)
    requires total > 0
    requires paid * total <= weights * rewards <= paid * total + parties * (total - 1)
    ensures (paid + Share(rewards, weight, total)) * total <= (weights + weight) * rewards
    ensures (weights + weight) * rewards
         <= (paid + Share(rewards, weight, total)) * total + (parties + if weight > 0 then 1 else 0) * (total - 1)
  {
    ShareBounds(rewards, weight, total);
    var share, present := Share(rewards, weight, total), if weight > 0 then 1 else 0;
    Distribute(paid, share, total);
    Distribute(weights, weight, rewards);
    Distribute(parties, present, total - 1);
  }

  /** Floored shares over parties whose weights make up the whole never exceed the amount
      shared, and what is left over is smaller than the number of parties with weight. */
  lemma SharesFit<T>(s: seq<T>, rewards: nat, weightOf: T -> nat, total: nat)
    requires total > 0 && SumBy(s, weightOf) == total
    ensures SumBy(s, ShareBy(rewards, weightOf, total)) <= rewards
    ensures rewards - SumBy(s, ShareBy(rewards, weightOf, total)) < SumBy(s, PresenceBy(weightOf))
  {
    ShareSumBounds(s, rewards, weightOf, total);
    SomePresence(s, weightOf);
    FitArithmetic(SumBy(s, ShareBy(rewards, weightOf, total)), SumBy(s, PresenceBy(weightOf)), rewards, total);
  }

  lemma FitArithmetic(paid: nat, parties: nat, rewards: nat, total: nat)
    requires total > 0 && parties > 0
    requires paid * total <= total * rewards <= paid * total + parties * (total - 1)
    ensures paid <= rewards < paid + parties
  {
    Distribute(paid, parties, total);
    assert parties * total == parties * (total - 1) + parties;
    if paid > rewards {
      ProductMonotone(total, rewards + 1, paid);
      assert false;
    }
    if rewards >= paid + parties {
      ProductMonotone(total, paid + parties, rewards);
      assert false;
    }
  }

  lemma {:induction false} SomePresence<T>(s: seq<T>, weightOf: T -> nat)
    requires SumBy(s, weightOf) > 0
    ensures SumBy(s, PresenceBy(weightOf)) > 0
  {
    if weightOf(s[|s| - 1]) == 0 {
      SomePresence(s[..|s| - 1], weightOf);
    }
  }
}
