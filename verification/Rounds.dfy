/** Interruptible distribution passes.  Both reward routers walk a list of parties, pay each
    its share out of a pool, and stop after a bounded number of parties, saving where they
    stopped.  This module is the common core: a pass over a plan of allotments, and the fact
    that stopping and resuming changes nothing. */
module Rounds {
  import opened Base
  import opened Sums
  import opened RouteLists

  /** Sentinels: no routing round is in progress. */
  const NO_INDEX: nat := U16_MAX
  const NO_REWARDS: nat := U64_MAX

  /** One routing transaction: the receiver's balance at that moment and the caller's limit. */
  datatype RouteCall = RouteCall(balance: nat, maxIterations: nat)

  /** A limit that no walk exceeds. */
  const UNBOUNDED: nat := U16_MAX

  /** What both routers do first: whatever the receiver holds beyond rent and the rewards in
      transit is new.  The result is the new lifetime total and pool. */
  function Intake(total: nat, pool: nat, processed: nat, rent: nat, balance: nat): Result<(nat, nat)> {
    var transit :- CheckedAdd(pool, processed, U64_MAX);
    var incoming :- CheckedSub(balance, transit);
    var rewards :- CheckedSub(incoming, rent);
    if rewards == 0 then Ok((total, pool)) else
    var total' :- CheckedAdd(total, rewards, U64_MAX);
    var pool' :- CheckedAdd(pool, rewards, U64_MAX);
    Ok((total', pool'))
  }

  /** A receiver that covers rent and transit never makes the intake underflow; it takes
      exactly the surplus, and fails only when the lifetime total would overflow. */
  lemma IntakeExact(total: nat, pool: nat, processed: nat, rent: nat, balance: nat)
    requires total <= U64_MAX && rent + pool + processed <= balance <= U64_MAX
    ensures var arrived := balance - rent - pool - processed;
            Intake(total, pool, processed, rent, balance)
              == if total + arrived <= U64_MAX then Ok((total + arrived, pool + arrived)) else Err(ArithmeticOverflow)
  {
  }

  /** A fee in basis points, floored. */
  function Fee(bps: nat, rewards: nat): nat {
    Share(rewards, bps, MAX_FEE_BPS)
  }

  function FeeSplit(bps: nat, rewards: nat): Result<nat> {
    if bps == 0 || rewards == 0 then Ok(0)
    else if Fee(bps, rewards) > U64_MAX then Err(CastToU64)
    else Ok(Fee(bps, rewards))
  }

  /** The fee is the largest whole number of lamports that does not exceed the exact one. */
  lemma FeeIsFloored(bps: nat, rewards: nat)
    ensures Fee(bps, rewards) * MAX_FEE_BPS <= rewards * bps < (Fee(bps, rewards) + 1) * MAX_FEE_BPS
  {
    ShareBounds(rewards, bps, MAX_FEE_BPS);
  }

  /** Fees that total at most all of it are the floored parts, and never exceed what they are
      taken from. */
  lemma FeesFit(bps1: nat, bps2: nat, rewards: nat)
    requires bps1 + bps2 <= MAX_FEE_BPS && rewards <= U64_MAX
    ensures FeeSplit(bps1, rewards) == Ok(rewards * bps1 / MAX_FEE_BPS)
    ensures FeeSplit(bps2, rewards) == Ok(rewards * bps2 / MAX_FEE_BPS)
    ensures rewards * bps1 / MAX_FEE_BPS + rewards * bps2 / MAX_FEE_BPS <= rewards
  {
    ShareBounds(rewards, bps1, MAX_FEE_BPS);
    ShareBounds(rewards, bps2, MAX_FEE_BPS);
    ProductMonotone(rewards, bps1 + bps2, MAX_FEE_BPS);
    assert rewards * (bps1 + bps2) == rewards * bps1 + rewards * bps2;
  }

  /** One party of a pass: who is paid, how much (or how the computation fails), and whether
      visiting it uses up one of the call's iterations. */
  datatype Allotment = Allotment(key: Pubkey, share: Result<nat>, counted: bool)

  /** The fields a pass works on: the pool it pays from, the processed-rewards counter, and
      the route list it pays into. */
  datatype Purse = Purse(pool: nat, processed: nat, routes: seq<Route>)

  /** `capacity` is the size of the slot array.  `bumpsProcessed` says whether leaving the
      pool counts as processing: true in the operator tier, false in the NCN tier, whose pool
      has already been counted. */
  datatype Rules = Rules(capacity: nat, bumpsProcessed: bool)

  datatype Outcome = Paused(purse: Purse, index: nat) | Finished(purse: Purse)

  function Pay(rules: Rules, p: Purse, a: Allotment): Result<Purse> {
    var amount :- a.share;
    if amount == 0 then Ok(p) else
    var pool :- CheckedSub(p.pool, amount);
    var processed :- if rules.bumpsProcessed then CheckedAdd(p.processed, amount, U64_MAX) else Ok(p.processed);
    var routes :- Credit(p.routes, rules.capacity, a.key, amount);
    Ok(Purse(pool, processed, routes))
  }

  /** The walk from position `i`, with `used` of `budget` iterations already spent. */
  function Pass(rules: Rules, p: Purse, plan: seq<Allotment>, i: nat, used: nat, budget: nat): Result<Outcome>
    decreases |plan| - i
  {
    if i >= |plan| then Ok(Finished(p))
    else if !plan[i].counted then Pass(rules, p, plan, i + 1, used, budget)
    else if used + 1 > budget then Ok(Paused(p, i))
    else
      var q :- Pay(rules, p, plan[i]);
      Pass(rules, q, plan, i + 1, used + 1, budget)
  }

  /** Paying the parties `i` up to `j`, without interruption. */
  function PayRange(rules: Rules, p: Purse, plan: seq<Allotment>, i: nat, j: nat): Result<Purse>
    requires i <= j <= |plan|
    decreases j - i
  {
    if i == j then Ok(p)
    else
      var q :- Pay(rules, p, plan[i]);
      PayRange(rules, q, plan, i + 1, j)
  }

  /** How many of the parties `i` up to `j` use an iteration. */
  function Counted(plan: seq<Allotment>, i: nat, j: nat): (n: nat)
    requires i <= j <= |plan|
    ensures n <= j - i
    decreases j - i
  {
    if i == j then 0 else (if plan[i].counted then 1 else 0) + Counted(plan, i + 1, j)
  }

  /** Parties that use no iteration receive nothing. */
  ghost predicate WellPlanned(plan: seq<Allotment>) {
    forall i :: 0 <= i < |plan| && !plan[i].counted ==> plan[i].share == Ok(0)
  }

  /** A pass either runs to the end, paying everyone exactly as the uninterrupted walk does,
      or stops at a party it has not paid, having spent its whole budget, with everyone before
      that party paid. */
  lemma {:induction false} PassIsPrefix(rules: Rules, p: Purse, plan: seq<Allotment>, i: nat, used: nat, budget: nat)
    requires WellPlanned(plan) && i <= |plan| && used <= budget
    ensures match Pass(rules, p, plan, i, used, budget)
            case Err(e) => PayRange(rules, p, plan, i, |plan|) == Err(e)
            case Ok(Finished(q)) =>
              PayRange(rules, p, plan, i, |plan|) == Ok(q) && used + Counted(plan, i, |plan|) <= budget
            case Ok(Paused(q, j)) =>
              && i <= j < |plan| && plan[j].counted
              && PayRange(rules, p, plan, i, j) == Ok(q)
              && used + Counted(plan, i, j) == budget
    decreases |plan| - i
  {
    if i < |plan| {
      if !plan[i].counted {
        assert Pay(rules, p, plan[i]) == Ok(p);
        PassIsPrefix(rules, p, plan, i + 1, used, budget);
      } else if used + 1 <= budget && Pay(rules, p, plan[i]).Ok? {
        PassIsPrefix(rules, Pay(rules, p, plan[i]).value, plan, i + 1, used + 1, budget);
      }
    }
  }

  lemma {:induction false} PayRangeSplit(rules: Rules, p: Purse, plan: seq<Allotment>, i: nat, j: nat, k: nat)
    requires i <= j <= k <= |plan|
    ensures PayRange(rules, p, plan, i, k)
         == match PayRange(rules, p, plan, i, j)
            case Err(e) => Err(e)
            case Ok(q) => PayRange(rules, q, plan, j, k)
    decreases j - i
  {
    if i < j && Pay(rules, p, plan[i]).Ok? {
      PayRangeSplit(rules, Pay(rules, p, plan[i]).value, plan, i + 1, j, k);
    }
  }

  lemma {:induction false} CountedSplit(plan: seq<Allotment>, i: nat, j: nat, k: nat)
    requires i <= j <= k <= |plan|
    ensures Counted(plan, i, k) == Counted(plan, i, j) + Counted(plan, j, k)
    decreases j - i
  {
    if i < j {
      CountedSplit(plan, i + 1, j, k);
    }
  }

  // ---------------------------------------------------------------- what a walk pays

  function Amount(a: Allotment): nat {
    if a.share.Ok? then a.share.value else 0
  }

  function AmountFor(key: Pubkey): Allotment -> nat {
    (a: Allotment) => if a.key == key then Amount(a) else 0
  }

  lemma {:induction false} OneAllotmentPerKey(plan: seq<Allotment>, i: nat)
    requires i < |plan|
    requires forall j :: 0 <= j < |plan| && j != i ==> plan[j].key != plan[i].key
    ensures SumBy(plan, AmountFor(plan[i].key)) == Amount(plan[i])
  {
    var n := |plan| - 1;
    if i == n {
      NoAllotment(plan[..n], plan[i].key);
    } else {
      OneAllotmentPerKey(plan[..n], i);
    }
  }

  lemma {:induction false} NoAllotment(plan: seq<Allotment>, key: Pubkey)
    requires forall j :: 0 <= j < |plan| ==> plan[j].key != key || Amount(plan[j]) == 0
    ensures SumBy(plan, AmountFor(key)) == 0
  {
    if |plan| > 0 {
      NoAllotment(plan[..|plan| - 1], key);
    }
  }

  lemma {:induction false} AtMostAll(plan: seq<Allotment>, key: Pubkey)
    ensures SumBy(plan, AmountFor(key)) <= SumBy(plan, Amount)
  {
    if |plan| > 0 {
      AtMostAll(plan[..|plan| - 1], key);
    }
  }

  /** The plan's shares are all computable, and every party that receives something is a
      proper account of the universe. */
  ghost predicate Payable(plan: seq<Allotment>, universe: set<Pubkey>) {
    forall i :: 0 <= i < |plan| ==>
      plan[i].share.Ok? && (plan[i].share.value > 0 ==> plan[i].key in universe && plan[i].key != DEFAULT_KEY)
  }

  /** The purse can take `amount` more without overflow, and its list has room. */
  ghost predicate CanTake(rules: Rules, p: Purse, amount: nat, universe: set<Pubkey>) {
    && WellFormed(p.routes) && KeysWithin(p.routes, universe) && |universe| <= rules.capacity
    && Allocated(p.routes) + amount <= U64_MAX
    && (rules.bumpsProcessed ==> p.processed + amount <= U64_MAX)
  }

  /** `q` is `p` after paying the allotments of `part`. */
  ghost predicate PaidOut(rules: Rules, p: Purse, q: Purse, part: seq<Allotment>) {
    var paid := SumBy(part, Amount);
    && q.pool + paid == p.pool
    && q.processed == p.processed + (if rules.bumpsProcessed then paid else 0)
    && Allocated(q.routes) == Allocated(p.routes) + paid
    && (forall k :: RewardFor(q.routes, k) == RewardFor(p.routes, k) + SumBy(part, AmountFor(k)))
  }

  lemma SumByPrepend<T>(s: seq<T>, i: nat, j: nat, f: T -> nat)
    requires i < j <= |s|
    ensures SumBy(s[i..j], f) == f(s[i]) + SumBy(s[i + 1..j], f)
  {
    SumBySplit(s[i..j], 1, f);
    assert s[i..j][..1] == [s[i]];
    assert s[i..j][1..] == s[i + 1..j];
    assert SumBy([s[i]], f) == f(s[i]) by { SumByAppend([], s[i], f); assert [] + [s[i]] == [s[i]]; }
  }

  /** An uninterrupted walk succeeds exactly when the pool covers the shares still to be
      paid, and then every party has received its share and nothing else has moved. */
  lemma {:induction false} PayRangeExact(rules: Rules, p: Purse, plan: seq<Allotment>, i: nat, j: nat, universe: set<Pubkey>)
    requires i <= j <= |plan| && Payable(plan, universe)
    requires CanTake(rules, p, SumBy(plan[i..j], Amount), universe)
    ensures PayRange(rules, p, plan, i, j).Ok? <==> SumBy(plan[i..j], Amount) <= p.pool
    ensures PayRange(rules, p, plan, i, j).Ok? ==>
              var q := PayRange(rules, p, plan, i, j).value;
              PaidOut(rules, p, q, plan[i..j]) && WellFormed(q.routes) && KeysWithin(q.routes, universe)
    decreases j - i
  {
    if i == j {
      assert plan[i..j] == [];
    } else {
      SumByPrepend(plan, i, j, Amount);
      var amount := plan[i].share.value;
      PayOne(rules, p, plan[i], universe);
      if amount <= p.pool {
        var q := Pay(rules, p, plan[i]).value;
        PayRangeExact(rules, q, plan, i + 1, j, universe);
        forall k
          ensures SumBy(plan[i..j], AmountFor(k)) == AmountFor(k)(plan[i]) + SumBy(plan[i + 1..j], AmountFor(k))
        {
          SumByPrepend(plan, i, j, AmountFor(k));
        }
      }
    }
  }

  /** Paying one party. */
  lemma PayOne(rules: Rules, p: Purse, a: Allotment, universe: set<Pubkey>)
    requires a.share.Ok? && (a.share.value > 0 ==> a.key in universe && a.key != DEFAULT_KEY)
    requires CanTake(rules, p, a.share.value, universe)
    ensures Pay(rules, p, a).Ok? <==> a.share.value <= p.pool
    ensures a.share.value <= p.pool ==>
              var q := Pay(rules, p, a).value;
              && q.pool + a.share.value == p.pool && q.processed == p.processed + (if rules.bumpsProcessed then a.share.value else 0)
              && Allocated(q.routes) == Allocated(p.routes) + a.share.value
              && (forall k :: RewardFor(q.routes, k) == RewardFor(p.routes, k) + AmountFor(k)(a))
              && WellFormed(q.routes) && KeysWithin(q.routes, universe)
  {
    if 0 < a.share.value <= p.pool {
      CreditSound(p.routes, rules.capacity, a.key, a.share.value, universe);
    }
  }

  /** A walk that succeeds has taken its shares out of the pool. */
  lemma {:induction false} PayRangeTakesFromPool(rules: Rules, p: Purse, plan: seq<Allotment>, i: nat, j: nat)
    requires i <= j <= |plan| && PayRange(rules, p, plan, i, j).Ok?
    ensures PayRange(rules, p, plan, i, j).value.pool + SumBy(plan[i..j], Amount) == p.pool
    decreases j - i
  {
    if i == j {
      assert plan[i..j] == [];
    } else {
      SumByPrepend(plan, i, j, Amount);
      PayRangeTakesFromPool(rules, Pay(rules, p, plan[i]).value, plan, i + 1, j);
    }
  }

  /** Whatever the plan, an accepted walk moves lamports from the pool to the routes, and none
      get lost on the way. */
  ghost predicate Moved(rules: Rules, p: Purse, q: Purse) {
    && q.pool <= p.pool
    && q.pool + Allocated(q.routes) == p.pool + Allocated(p.routes)
    && q.processed == p.processed + (if rules.bumpsProcessed then p.pool - q.pool else 0)
  }

  lemma {:induction false} PassConserves(rules: Rules, p: Purse, plan: seq<Allotment>, i: nat, used: nat, budget: nat)
    ensures var r := Pass(rules, p, plan, i, used, budget);
            r.Ok? ==> Moved(rules, p, r.value.purse)
    decreases |plan| - i
  {
    if i < |plan| {
      if !plan[i].counted {
        PassConserves(rules, p, plan, i + 1, used, budget);
      } else if used + 1 <= budget && Pay(rules, p, plan[i]).Ok? {
        var q := Pay(rules, p, plan[i]).value;
        TotalsMove(p.routes, rules.capacity, plan[i].key, plan[i].share.value);
        PassConserves(rules, q, plan, i + 1, used + 1, budget);
      }
    }
  }

  // ---------------------------------------------------------------- a round on track

  /** `rewards` are being shared out by the plan, everyone before position `i` has been paid,
      and what is left in the pool can be credited without overflow. */
  ghost predicate OnTrack(rules: Rules, p: Purse, plan: seq<Allotment>, rewards: nat, i: nat, universe: set<Pubkey>) {
    && WellPlanned(plan) && Payable(plan, universe) && i <= |plan|
    && CanTake(rules, p, p.pool, universe)
    && SumBy(plan, Amount) <= rewards
    && p.pool + SumBy(plan[..i], Amount) == rewards
  }

  lemma SumOfSlices(plan: seq<Allotment>, i: nat, j: nat)
    requires i <= j <= |plan|
    ensures SumBy(plan[..j], Amount) == SumBy(plan[..i], Amount) + SumBy(plan[i..j], Amount)
    ensures SumBy(plan, Amount) == SumBy(plan[..j], Amount) + SumBy(plan[j..], Amount)
  {
    SumBySplit(plan[..j], i, Amount);
    assert plan[..j][..i] == plan[..i] && plan[..j][i..] == plan[i..j];
    SumBySplit(plan, j, Amount);
  }

  /** Paying any stretch of the plan from a round on track succeeds and stays on track. */
  lemma StretchOnTrack(rules: Rules, p: Purse, plan: seq<Allotment>, rewards: nat, i: nat, j: nat, universe: set<Pubkey>)
    requires OnTrack(rules, p, plan, rewards, i, universe) && i <= j <= |plan|
    ensures PayRange(rules, p, plan, i, j).Ok?
    ensures var q := PayRange(rules, p, plan, i, j).value;
            OnTrack(rules, q, plan, rewards, j, universe) && PaidOut(rules, p, q, plan[i..j])
  {
    SumOfSlices(plan, i, j);
    PayRangeExact(rules, p, plan, i, j, universe);
  }

  /** A call from a round on track never fails.  Either it ends the round with everyone paid
      as the uninterrupted walk would have paid them, or it pauses, still on track, with
      exactly `budget` fewer parties to go and the same end in store. */
  lemma PassOnTrack(rules: Rules, p: Purse, plan: seq<Allotment>, rewards: nat, i: nat, budget: nat, universe: set<Pubkey>)
    requires OnTrack(rules, p, plan, rewards, i, universe)
    ensures Pass(rules, p, plan, i, 0, budget).Ok?
    ensures match Pass(rules, p, plan, i, 0, budget).value
            case Finished(q) =>
              && PayRange(rules, p, plan, i, |plan|) == Ok(q)
              && Counted(plan, i, |plan|) <= budget
            case Paused(q, j) =>
              && i <= j < |plan| && OnTrack(rules, q, plan, rewards, j, universe) && PaidOut(rules, p, q, plan[i..j])
              && PayRange(rules, q, plan, j, |plan|) == PayRange(rules, p, plan, i, |plan|)
              && Counted(plan, i, |plan|) == budget + Counted(plan, j, |plan|) && Counted(plan, j, |plan|) > 0
  {
    PassIsPrefix(rules, p, plan, i, 0, budget);
    StretchOnTrack(rules, p, plan, rewards, i, |plan|, universe);
    match Pass(rules, p, plan, i, 0, budget)
    case Err(_) =>
    case Ok(Finished(_)) =>
    case Ok(Paused(_, j)) =>
      StretchOnTrack(rules, p, plan, rewards, i, j, universe);
      PayRangeSplit(rules, p, plan, i, j, |plan|);
      CountedSplit(plan, i, j, |plan|);
  }

  /** The number of calls of budget `m` that a walk over `n` counted parties takes. */
  function CallsNeeded(n: nat, m: nat): nat
    requires m > 0
  {
    if n <= m then 1 else 1 + CallsNeeded(n - m, m)
  }

  /** That is max(1, ceil(n / m)). */
  lemma {:induction false} CallsNeededIsCeiling(n: nat, m: nat)
    requires m > 0
    ensures CallsNeeded(n, m) == Max(1, (n + m - 1) / m)
  {
    if n > m {
      var k := n - m;
      CallsNeededIsCeiling(k, m);
      assert (n + m - 1) / m == (k + m - 1) / m + 1 by { DivPlus(k + m - 1, m); }
      assert (k + m - 1) / m >= 1 by { DivPlus(k - 1, m); }
    } else if n > 0 {
      DivPlus(n - 1, m);
      DivSmall(n - 1, m);
    } else {
      DivSmall(m - 1, m);
    }
  }

  lemma DivPlus(a: nat, m: nat)
    requires m > 0
    ensures (a + m) / m == a / m + 1
  {
    Distribute(a / m, 1, m);
    QuotientUnique(a + m, m, a / m + 1, a % m);
  }

  lemma DivSmall(a: nat, m: nat)
    requires a < m
    ensures a / m == 0
  {
  }
}
