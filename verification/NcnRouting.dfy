/** The first reward tier.  The NCN reward router splits a pool of lamports into protocol,
    NCN and operator parts, and hands the operator part to the winning voters in proportion to
    their stake, over as many calls as it takes. */
module NcnRouting {
  import opened Base
  import opened Sums
  import opened RouteLists
  import opened Rounds
  import opened Voting
  import opened FeeSchedule

  const RULES := Rules(MAX_OPERATORS, false)

  datatype Router = Router(
    totalRewards: nat,
    rewardPool: nat,
    rewardsProcessed: nat,
    lastVoteIndex: nat,
    lastRewards: nat,
    protocolRewards: nat,
    ncnRewards: nat,
    operatorVaultRewards: nat,
    routes: seq<Route>)

  predicate StillRouting(r: Router) {
    r.lastVoteIndex != NO_INDEX || r.lastRewards != NO_REWARDS
  }

  /** What the router knows it is responsible for. */
  function InTransit(r: Router): nat { r.rewardPool + r.rewardsProcessed }

  /** Recognises whatever the receiver holds beyond rent and the rewards in transit. */
  function RouteIncoming(r: Router, rent: nat, balance: nat): Result<Router> {
    var (total, pool) :- Intake(r.totalRewards, r.rewardPool, r.rewardsProcessed, rent, balance);
    Ok(r.(totalRewards := total, rewardPool := pool))
  }

  /** Out of the pool and into the processed counter. */
  function FromPool(r: Router, rewards: nat): Result<Router> {
    var pool :- CheckedSub(r.rewardPool, rewards);
    var processed :- CheckedAdd(r.rewardsProcessed, rewards, U64_MAX);
    Ok(r.(rewardPool := pool, rewardsProcessed := processed))
  }

  function RouteRewardPool(r: Router, fees: Fees): Result<Router> {
    var rewards := r.rewardPool;
    var protocolFee :- FeeSplit(fees.protocolBps, rewards);
    var r1 :- FromPool(r, protocolFee);
    var protocol :- CheckedAdd(r1.protocolRewards, protocolFee, U64_MAX);
    var ncnFee :- FeeSplit(fees.ncnBps, rewards);
    var r2 :- FromPool(r1.(protocolRewards := protocol), ncnFee);
    var ncn :- CheckedAdd(r2.ncnRewards, ncnFee, U64_MAX);
    var rest := r2.rewardPool;
    var r3 :- FromPool(r2.(ncnRewards := ncn), rest);
    var operatorVault :- CheckedAdd(r3.operatorVaultRewards, rest, U64_MAX);
    Ok(r3.(operatorVaultRewards := operatorVault))
  }

  /** One winning voter's reward. */
  function VoterShare(weight: nat, winningWeight: nat, rewards: nat): Result<nat> {
    if weight == 0 || rewards == 0 then Ok(0)
    else if winningWeight == 0 then Err(ArithmeticOverflow)
    else
      var share := Share(rewards, weight, winningWeight);
      if share > U64_MAX then Err(CastToU64) else Ok(share)
  }

  /** Voters for the winning ballot are paid and use an iteration; others are skipped. */
  function VoterAllotment(v: Vote, winner: Tally, rewards: nat): Allotment {
    if v.ballotIndex == winner.index then Allotment(v.operator, VoterShare(v.weight, winner.weight, rewards), true)
    else Allotment(v.operator, Ok(0), false)
  }

  function Plan(votes: seq<Vote>, winner: Tally, rewards: nat): seq<Allotment> {
    seq(|votes|, i requires 0 <= i < |votes| => VoterAllotment(votes[i], winner, rewards))
  }

  /** Where a call starts: at the saved position with the saved amount, or afresh. */
  function ResumeIndex(r: Router): nat { if StillRouting(r) then r.lastVoteIndex else 0 }

  function ResumeRewards(r: Router): nat {
    if StillRouting(r) && r.lastRewards > 0 then r.lastRewards else r.operatorVaultRewards
  }

  function AsPurse(r: Router): Purse {
    Purse(r.operatorVaultRewards, r.rewardsProcessed, r.routes)
  }

  function Save(r: Router, p: Purse, index: nat, rewards: nat): Router {
    r.(operatorVaultRewards := p.pool, routes := p.routes, lastVoteIndex := index % (U16_MAX + 1), lastRewards := rewards)
  }

  /** The end of a round: the remainder goes to the NCN and the saved state is reset. */
  function Settle(r: Router, p: Purse): Result<Router> {
    var ncn :- CheckedAdd(r.ncnRewards, p.pool, U64_MAX);
    Ok(r.(operatorVaultRewards := 0, routes := p.routes, ncnRewards := ncn,
          lastVoteIndex := NO_INDEX, lastRewards := NO_REWARDS))
  }

  function RouteOperatorVaultRewards(r: Router, b: Box, maxIterations: nat): Result<Router> {
    var winner :- GetWinningTally(b);
    var rewards := ResumeRewards(r);
    if rewards == 0 then Ok(r)
    else
      var plan := Plan(b.votes, winner, rewards);
      var outcome :- Pass(RULES, AsPurse(r), plan, ResumeIndex(r), 0, Max(maxIterations, 1));
      match outcome
      case Paused(p, j) => Ok(Save(r, p, j, rewards))
      case Finished(p) => Settle(r, p)
  }

  /** The start of a round: new rewards are recognised and split. */
  function StartRound(r: Router, rent: nat, balance: nat, fees: Fees): Result<Router> {
    var r1 :- RouteIncoming(r, rent, balance);
    RouteRewardPool(r1, fees)
  }

  /** The routing instruction after its guards: a round starts only when none is in progress. */
  function RouteRewards(r: Router, rent: nat, balance: nat, fees: Fees, b: Box, maxIterations: nat): Result<Router> {
    var r1 :- if StillRouting(r) then Ok(r) else StartRound(r, rent, balance, fees);
    RouteOperatorVaultRewards(r1, b, maxIterations)
  }

  /** The routing instruction: refused while votes can still be cast. */
  function RouteInstruction(r: Router, rent: nat, balance: nat, fees: Fees, b: Box, slot: nat, validSlots: nat, maxIterations: nat)
    : Result<Router>
  {
    var open :- IsVotingValid(b, slot, validSlots);
    if open then Err(VotingIsNotOver) else RouteRewards(r, rent, balance, fees, b, maxIterations)
  }

  /** The three payouts, each refused during a round. */
  function DistributeProtocol(r: Router): Result<(Router, nat)> {
    if StillRouting(r) then Err(RouterStillRouting)
    else
      var processed :- CheckedSub(r.rewardsProcessed, r.protocolRewards);
      Ok((r.(protocolRewards := 0, rewardsProcessed := processed), r.protocolRewards))
  }

  function DistributeNcn(r: Router): Result<(Router, nat)> {
    if StillRouting(r) then Err(RouterStillRouting)
    else
      var processed :- CheckedSub(r.rewardsProcessed, r.ncnRewards);
      Ok((r.(ncnRewards := 0, rewardsProcessed := processed), r.ncnRewards))
  }

  function DistributeRoute(r: Router, operator: Pubkey): Result<(Router, nat)> {
    if StillRouting(r) then Err(RouterStillRouting)
    else
      var routes :- Drain(r.routes, operator);
      var processed :- CheckedSub(r.rewardsProcessed, RewardFor(r.routes, operator));
      Ok((r.(routes := routes, rewardsProcessed := processed), RewardFor(r.routes, operator)))
  }

  // ---------------------------------------------------------------- invariant

  /** The operators that voted for the winning ballot. */
  function Winners(b: Box): set<Pubkey> {
    var winner := GetWinningTally(b);
    if winner.Err? then {}
    else set i | 0 <= i < |b.votes| && b.votes[i].ballotIndex == winner.value.index :: b.votes[i].operator
  }

  /** Everything processed sits in exactly one bucket. */
  ghost predicate Balanced(r: Router) {
    && r.rewardsProcessed == r.protocolRewards + r.ncnRewards + r.operatorVaultRewards + Allocated(r.routes)
    && r.rewardPool + r.rewardsProcessed <= U64_MAX
    && r.totalRewards <= U64_MAX
  }

  ghost predicate ListedWinners(r: Router, b: Box) {
    WellFormed(r.routes) && KeysWithin(r.routes, Winners(b))
  }

  /** The plan the next call follows. */
  function PlanOf(r: Router, b: Box): seq<Allotment>
    requires GetWinningTally(b).Ok?
  {
    Plan(b.votes, GetWinningTally(b).value, ResumeRewards(r))
  }

  /** Rewards are waiting to be shared out, and the round doing it is on track. */
  ghost predicate Ready(r: Router, b: Box) {
    && Balanced(r) && r.rewardPool == 0
    && GetWinningTally(b).Ok? && |b.votes| <= MAX_OPERATORS
    && 0 < ResumeRewards(r) <= U64_MAX
    && OnTrack(RULES, AsPurse(r), PlanOf(r, b), ResumeRewards(r), ResumeIndex(r), Winners(b))
    && (StillRouting(r) ==> r.lastRewards > 0 && r.lastVoteIndex < |b.votes|)
  }

  /** Between calls: the pool is empty; buckets balance; routes belong to winning voters; and
      either nothing waits to be shared or a round is on track from the saved position. */
  ghost predicate Sound(r: Router, b: Box) {
    && Balanced(r) && ListedWinners(r, b) && r.rewardPool == 0
    && (if StillRouting(r) then Ready(r, b) else r.operatorVaultRewards == 0)
  }

  /** A router as it is initialized. */
  predicate IsNew(r: Router) {
    && r.totalRewards == 0 && InTransit(r) == 0 && !StillRouting(r)
    && r.protocolRewards == 0 && r.ncnRewards == 0 && r.operatorVaultRewards == 0 && r.routes == []
  }

  lemma NewRouterSound(r: Router, b: Box)
    requires IsNew(r)
    ensures Sound(r, b)
  {
  }

  // ---------------------------------------------------------------- the plan

  lemma {:induction false} WinnersAreFew(votes: seq<Vote>, t: nat)
    ensures |set i | 0 <= i < |votes| && votes[i].ballotIndex == t :: votes[i].operator| <= |votes|
  {
    if |votes| > 0 {
      var n := |votes| - 1;
      WinnersAreFew(votes[..n], t);
      var before := set i | 0 <= i < n && votes[..n][i].ballotIndex == t :: votes[..n][i].operator;
      var all := set i | 0 <= i < |votes| && votes[i].ballotIndex == t :: votes[i].operator;
      forall k | k in all
        ensures k in before + {votes[n].operator}
      {
        var i :| 0 <= i < |votes| && votes[i].ballotIndex == t && votes[i].operator == k;
        if i < n {
          assert votes[..n][i] == votes[i];
        }
      }
      SubsetSize(all, before + {votes[n].operator});
    }
  }

  lemma {:induction false} SubsetSize<T>(a: set<T>, b: set<T>)
    requires a <= b
    ensures |a| <= |b|
  {
    if a != {} {
      var x :| x in a;
      SubsetSize(a - {x}, b - {x});
    }
  }

  /** The winning tally weighs what its voters weigh, so its voters' floored shares are all
      computable, add up to at most the amount shared, and leave less than one lamport per
      voter with stake. */
  lemma PlanFits(b: Box, rewards: nat)
    requires Consistent(b) && GetWinningTally(b).Ok? && rewards <= U64_MAX
    ensures var winner := GetWinningTally(b).value;
            var plan := Plan(b.votes, winner, rewards);
            && WellPlanned(plan) && Payable(plan, Winners(b)) && |Winners(b)| <= MAX_OPERATORS
            && SumBy(plan, Amount) <= rewards
            && (winner.weight > 0 ==> rewards - SumBy(plan, Amount) < SumBy(b.votes, PresenceBy(WeightAt(winner.index))))
  {
    var winner := GetWinningTally(b).value;
    var plan := Plan(b.votes, winner, rewards);
    var t := winner.index;
    assert Recounted(b.votes, winner, t);
    WinnersAreFew(b.votes, t);
    forall i | 0 <= i < |plan|
      ensures plan[i].share.Ok? && (!plan[i].counted ==> plan[i].share == Ok(0))
      ensures plan[i].counted ==> plan[i].key in Winners(b)
      ensures winner.weight > 0 ==> Amount(plan[i]) == ShareBy(rewards, WeightAt(t), winner.weight)(b.votes[i])
      ensures winner.weight == 0 ==> Amount(plan[i]) == WeightAt(t)(b.votes[i])
    {
      SumByAtLeast(b.votes, i, WeightAt(t));
      VoterShareIs(b.votes[i], winner, rewards);
    }
    if winner.weight > 0 {
      SumByAligned(plan, b.votes, Amount, ShareBy(rewards, WeightAt(t), winner.weight));
      SharesFit(b.votes, rewards, WeightAt(t), winner.weight);
    } else {
      SumByAligned(plan, b.votes, Amount, WeightAt(t));
    }
  }

  lemma VoterShareIs(v: Vote, winner: Tally, rewards: nat)
    requires rewards <= U64_MAX && WeightAt(winner.index)(v) <= winner.weight
    ensures var a := VoterAllotment(v, winner, rewards);
            a.share == Ok(if winner.weight > 0 then Share(rewards, WeightAt(winner.index)(v), winner.weight) else 0)
  {
    if winner.weight > 0 {
      ShareBounds(rewards, WeightAt(winner.index)(v), winner.weight);
    }
  }

  // ---------------------------------------------------------------- one call

  /** The router after paying everyone still unpaid and settling, in one go. */
  ghost function Completed(r: Router, b: Box): Result<Router>
    requires Ready(r, b)
  {
    var p :- PayRange(RULES, AsPurse(r), PlanOf(r, b), ResumeIndex(r), |b.votes|);
    Settle(r, p)
  }

  /** How many winning voters are still unpaid. */
  ghost function Unpaid(r: Router, b: Box): nat
    requires Ready(r, b)
  {
    Counted(PlanOf(r, b), ResumeIndex(r), |b.votes|)
  }

  /** Completing a round always succeeds: each key receives its shares, the NCN receives the
      rounding remainder, and nothing is processed or lost. */
  lemma CompletedExact(r: Router, b: Box)
    requires Ready(r, b)
    ensures Completed(r, b).Ok?
    ensures var plan := PlanOf(r, b);
            var r' := Completed(r, b).value;
            && Sound(r', b) && !StillRouting(r')
            && r' == r.(operatorVaultRewards := 0, lastVoteIndex := NO_INDEX, lastRewards := NO_REWARDS,
                        ncnRewards := r'.ncnRewards, routes := r'.routes)
            && r'.ncnRewards + SumBy(plan, Amount) == r.ncnRewards + ResumeRewards(r)
            && (forall k :: RewardFor(r'.routes, k) == RewardFor(r.routes, k) + SumBy(plan[ResumeIndex(r)..], AmountFor(k)))
  {
    var plan, i := PlanOf(r, b), ResumeIndex(r);
    StretchOnTrack(RULES, AsPurse(r), plan, ResumeRewards(r), i, |plan|, Winners(b));
    assert plan[i..|plan|] == plan[i..] && plan[..|plan|] == plan;
  }

  /** One call from a ready state never fails.  It finishes, with the completed round, exactly
      when its iterations cover the unpaid voters; otherwise it pays exactly that many voters
      and leaves a sound state whose completion is unchanged. */
  lemma CallAdvances(r: Router, b: Box, maxIterations: nat)
    requires Ready(r, b)
    ensures RouteOperatorVaultRewards(r, b, maxIterations).Ok?
    ensures var r' := RouteOperatorVaultRewards(r, b, maxIterations).value;
            var m := Max(maxIterations, 1);
            && Sound(r', b)
            && (Unpaid(r, b) <= m ==> !StillRouting(r') && Completed(r, b) == Ok(r'))
            && (Unpaid(r, b) > m ==>
                  && StillRouting(r')
                  && Completed(r', b) == Completed(r, b) && Unpaid(r', b) == Unpaid(r, b) - m)
  {
    CompletedExact(r, b);
    PassOnTrack(RULES, AsPurse(r), PlanOf(r, b), ResumeRewards(r), ResumeIndex(r), Max(maxIterations, 1), Winners(b));
    match Pass(RULES, AsPurse(r), PlanOf(r, b), ResumeIndex(r), 0, Max(maxIterations, 1)).value
    case Finished(_) =>
    case Paused(p, j) =>
      SavedIsReady(r, b, p, j);
  }

  /** Saving a purse that is on track at position `j` makes a ready state with the same amount
      in play. */
  lemma SavedIsReady(r: Router, b: Box, p: Purse, j: nat)
    requires Ready(r, b) && j < |b.votes| && p.processed == r.rewardsProcessed
    requires OnTrack(RULES, p, PlanOf(r, b), ResumeRewards(r), j, Winners(b))
    requires p.pool + Allocated(p.routes) == r.operatorVaultRewards + Allocated(r.routes)
    ensures var r' := Save(r, p, j, ResumeRewards(r));
            && Sound(r', b) && Ready(r', b) && StillRouting(r') && AsPurse(r') == p
            && ResumeIndex(r') == j && PlanOf(r', b) == PlanOf(r, b)
  {
    var r' := Save(r, p, j, ResumeRewards(r));
    assert j % (U16_MAX + 1) == j;
    assert StillRouting(r') && AsPurse(r') == p && ResumeRewards(r') == ResumeRewards(r) && ResumeIndex(r') == j;
    assert Balanced(r');
  }

  /** Rewards waiting in an idle router make it ready. */
  lemma IdleIsReady(r: Router, b: Box)
    requires Consistent(b) && GetWinningTally(b).Ok?
    requires Balanced(r) && ListedWinners(r, b) && r.rewardPool == 0 && !StillRouting(r) && r.operatorVaultRewards > 0
    ensures Ready(r, b) && Unpaid(r, b) == GetWinningTally(b).value.count
  {
    var winner := GetWinningTally(b).value;
    PlanFits(b, r.operatorVaultRewards);
    assert PlanOf(r, b)[..0] == [];
    CountedIsRecount(b.votes, winner, r.operatorVaultRewards, 0);
    assert b.votes[0..] == b.votes;
    assert Recounted(b.votes, winner, winner.index);
  }

  // ---------------------------------------------------------------- the whole instruction

  /** Recognising and splitting new rewards from an idle, sound router: it can fail only by
      overflow of the lifetime counter, and leaves everything not taken as a fee waiting for
      the operators. */
  lemma SplitExact(r: Router, rent: nat, balance: nat, fees: Fees)
    requires Balanced(r) && r.rewardPool == 0 && r.operatorVaultRewards == 0 && SlotOkay(fees)
    requires rent + InTransit(r) <= balance <= U64_MAX
    ensures var arrived := balance - rent - InTransit(r);
            var protocolFee, ncnFee := arrived * fees.protocolBps / MAX_FEE_BPS, arrived * fees.ncnBps / MAX_FEE_BPS;
            && protocolFee + ncnFee <= arrived
            && StartRound(r, rent, balance, fees) == SplitInto(r, arrived, protocolFee, ncnFee)
  {
    var arrived := balance - rent - InTransit(r);
    FeesFit(fees.protocolBps, fees.ncnBps, arrived);
    StartWith(r, rent, balance, fees, arrived * fees.protocolBps / MAX_FEE_BPS, arrived * fees.ncnBps / MAX_FEE_BPS);
  }

  lemma StartWith(r: Router, rent: nat, balance: nat, fees: Fees, protocolFee: nat, ncnFee: nat)
    requires Balanced(r) && r.rewardPool == 0 && r.operatorVaultRewards == 0 && rent + InTransit(r) <= balance <= U64_MAX
    requires var arrived := balance - rent - InTransit(r);
             && protocolFee + ncnFee <= arrived
             && FeeSplit(fees.protocolBps, arrived) == Ok(protocolFee) && FeeSplit(fees.ncnBps, arrived) == Ok(ncnFee)
    ensures StartRound(r, rent, balance, fees) == SplitInto(r, balance - rent - InTransit(r), protocolFee, ncnFee)
  {
    IntakeExact(r.totalRewards, r.rewardPool, r.rewardsProcessed, rent, balance);
    var arrived := balance - rent - InTransit(r);
    if r.totalRewards + arrived <= U64_MAX {
      PoolSplitWith(r.(totalRewards := r.totalRewards + arrived, rewardPool := arrived), fees, protocolFee, ncnFee);
    }
  }

  lemma PoolSplitWith(r: Router, fees: Fees, protocolFee: nat, ncnFee: nat)
    requires Balanced(r) && r.operatorVaultRewards == 0 && protocolFee + ncnFee <= r.rewardPool
    requires FeeSplit(fees.protocolBps, r.rewardPool) == Ok(protocolFee) && FeeSplit(fees.ncnBps, r.rewardPool) == Ok(ncnFee)
    ensures RouteRewardPool(r, fees) ==
            Ok(r.(rewardPool := 0, rewardsProcessed := r.rewardsProcessed + r.rewardPool,
                  protocolRewards := r.protocolRewards + protocolFee, ncnRewards := r.ncnRewards + ncnFee,
                  operatorVaultRewards := r.rewardPool - protocolFee - ncnFee))
  {
  }

  /** The router with `arrived` new lamports, of which two parts are fees. */
  function SplitInto(r: Router, arrived: nat, protocolFee: nat, ncnFee: nat): Result<Router>
    requires protocolFee + ncnFee <= arrived
  {
    if r.totalRewards + arrived > U64_MAX then Err(ArithmeticOverflow)
    else Ok(r.(totalRewards := r.totalRewards + arrived, rewardsProcessed := r.rewardsProcessed + arrived,
               protocolRewards := r.protocolRewards + protocolFee, ncnRewards := r.ncnRewards + ncnFee,
               operatorVaultRewards := arrived - protocolFee - ncnFee))
  }

  lemma PoolSplit(r: Router, fees: Fees)
    requires Balanced(r) && r.operatorVaultRewards == 0 && SlotOkay(fees)
    ensures var protocolFee, ncnFee := r.rewardPool * fees.protocolBps / MAX_FEE_BPS, r.rewardPool * fees.ncnBps / MAX_FEE_BPS;
            && protocolFee + ncnFee <= r.rewardPool
            && RouteRewardPool(r, fees) ==
               Ok(r.(rewardPool := 0, rewardsProcessed := r.rewardsProcessed + r.rewardPool,
                     protocolRewards := r.protocolRewards + protocolFee, ncnRewards := r.ncnRewards + ncnFee,
                     operatorVaultRewards := r.rewardPool - protocolFee - ncnFee))
  {
    FeesFit(fees.protocolBps, fees.ncnBps, r.rewardPool);
    PoolSplitWith(r, fees, r.rewardPool * fees.protocolBps / MAX_FEE_BPS, r.rewardPool * fees.ncnBps / MAX_FEE_BPS);
  }

  /** A started round with something to share is ready, with every winning voter unpaid. */
  lemma StartIsReady(r: Router, b: Box, rent: nat, balance: nat, fees: Fees)
    requires Consistent(b) && GetWinningTally(b).Ok? && Sound(r, b) && !StillRouting(r) && SlotOkay(fees)
    requires rent + InTransit(r) <= balance <= U64_MAX
    requires StartRound(r, rent, balance, fees).Ok? && StartRound(r, rent, balance, fees).value.operatorVaultRewards > 0
    ensures var start := StartRound(r, rent, balance, fees).value;
            && Ready(start, b) && !StillRouting(start) && Unpaid(start, b) == GetWinningTally(b).value.count
  {
    SplitExact(r, rent, balance, fees);
    IdleIsReady(StartRound(r, rent, balance, fees).value, b);
  }

  /** The first call of a round with something to share. */
  lemma FirstCall(r: Router, b: Box, rent: nat, fees: Fees, call: RouteCall)
    requires Consistent(b) && GetWinningTally(b).Ok? && Sound(r, b) && !StillRouting(r) && SlotOkay(fees)
    requires rent + InTransit(r) <= call.balance <= U64_MAX
    requires StartRound(r, rent, call.balance, fees).Ok?
    requires StartRound(r, rent, call.balance, fees).value.operatorVaultRewards > 0
    ensures RouteRewards(r, rent, call.balance, fees, b, call.maxIterations).Ok?
    ensures var r' := RouteRewards(r, rent, call.balance, fees, b, call.maxIterations).value;
            var n, m := GetWinningTally(b).value.count, Max(call.maxIterations, 1);
            && Sound(r', b)
            && (StillRouting(r') <==> n > m)
            && (StillRouting(r') ==> Unpaid(r', b) == n - m)
  {
    StartIsReady(r, b, rent, call.balance, fees);
    CallAdvances(StartRound(r, rent, call.balance, fees).value, b, call.maxIterations);
  }

  /** A call of the instruction on a sound router never gets stuck: while a round is in
      progress it always succeeds, and otherwise it fails only if the lifetime counter would
      overflow.  Either way it keeps the router sound, and recognises exactly the new part of
      the balance, once per round. */
  lemma RouteRewardsSound(r: Router, b: Box, rent: nat, balance: nat, fees: Fees, maxIterations: nat)
    requires Consistent(b) && GetWinningTally(b).Ok? && Sound(r, b) && SlotOkay(fees)
    requires rent + InTransit(r) <= balance <= U64_MAX
    ensures var res := RouteRewards(r, rent, balance, fees, b, maxIterations);
            var arrived := if StillRouting(r) then 0 else balance - rent - InTransit(r);
            && (res.Ok? <==> r.totalRewards + arrived <= U64_MAX) && (res.Err? ==> res.error == ArithmeticOverflow)
            && (res.Ok? ==>
                  && Sound(res.value, b)
                  && res.value.totalRewards == r.totalRewards + arrived
                  && InTransit(res.value) == InTransit(r) + arrived)
  {
    if StillRouting(r) {
      CallAdvances(r, b, maxIterations);
      ProcessedUntouched(r, b, maxIterations);
    } else {
      SplitExact(r, rent, balance, fees);
      var start := StartRound(r, rent, balance, fees);
      if start.Ok? {
        if start.value.operatorVaultRewards > 0 {
          StartIsReady(r, b, rent, balance, fees);
          CallAdvances(start.value, b, maxIterations);
        }
        ProcessedUntouched(start.value, b, maxIterations);
      }
    }
  }

  /** Sharing out rewards moves them between buckets only. */
  lemma ProcessedUntouched(r: Router, b: Box, maxIterations: nat)
    requires RouteOperatorVaultRewards(r, b, maxIterations).Ok?
    ensures var r' := RouteOperatorVaultRewards(r, b, maxIterations).value;
            r'.rewardsProcessed == r.rewardsProcessed && r'.totalRewards == r.totalRewards && r'.rewardPool == r.rewardPool
  {
  }

  /** On an idle, sound router every payout of a listed reward succeeds: it takes the amount
      out of transit, empties that one bucket, and keeps the router sound. */
  lemma PayoutsSound(r: Router, b: Box, operator: Pubkey)
    requires Sound(r, b)
    ensures DistributeProtocol(r).Ok? <==> !StillRouting(r)
    ensures DistributeNcn(r).Ok? <==> !StillRouting(r)
    ensures DistributeRoute(r, operator).Ok? <==> !StillRouting(r) && exists i :: 0 <= i < |r.routes| && r.routes[i].key == operator
    ensures !StillRouting(r) ==>
              var (r', paid) := DistributeProtocol(r).value;
              && Sound(r', b) && InTransit(r') + paid == InTransit(r) && paid == r.protocolRewards
              && r' == r.(protocolRewards := 0, rewardsProcessed := r'.rewardsProcessed)
    ensures !StillRouting(r) ==>
              var (r', paid) := DistributeNcn(r).value;
              && Sound(r', b) && InTransit(r') + paid == InTransit(r) && paid == r.ncnRewards
              && r' == r.(ncnRewards := 0, rewardsProcessed := r'.rewardsProcessed)
    ensures DistributeRoute(r, operator).Ok? ==>
              var (r', paid) := DistributeRoute(r, operator).value;
              && Sound(r', b) && InTransit(r') + paid == InTransit(r)
              && paid == RewardFor(r.routes, operator)
              && r' == r.(routes := r'.routes, rewardsProcessed := r'.rewardsProcessed)
              && (forall k :: RewardFor(r'.routes, k) == if k == operator then 0 else RewardFor(r.routes, k))
  {
    DrainSound(r.routes, operator, Winners(b));
    var i := IndexOf(r.routes, operator);
    if i < |r.routes| {
      SumByAtLeast(r.routes, i, RewardsIn);
    }
  }

  // ---------------------------------------------------------------- conservation, whatever is read

  /** What an accepted call may do to the totals: everything processed stays in a bucket, and
      either nothing new is recognised or everything the receiver holds is accounted for. */
  ghost predicate Accounts(r: Router, r': Router, rent: nat, balance: nat) {
    && Balanced(r')
    && r'.totalRewards + InTransit(r) == r.totalRewards + InTransit(r')
    && (InTransit(r') == InTransit(r) || rent + InTransit(r') == balance)
  }

  lemma PoolSplitConserves(r: Router, fees: Fees)
    requires Balanced(r) && RouteRewardPool(r, fees).Ok?
    ensures var r' := RouteRewardPool(r, fees).value;
            Balanced(r') && InTransit(r') == InTransit(r) && r'.totalRewards == r.totalRewards
  {
  }

  lemma SharingConserves(r: Router, b: Box, maxIterations: nat)
    requires Balanced(r) && RouteOperatorVaultRewards(r, b, maxIterations).Ok?
    ensures var r' := RouteOperatorVaultRewards(r, b, maxIterations).value;
            Balanced(r') && InTransit(r') == InTransit(r) && r'.totalRewards == r.totalRewards
  {
    if ResumeRewards(r) != 0 {
      PassConserves(RULES, AsPurse(r), PlanOf(r, b), ResumeIndex(r), 0, Max(maxIterations, 1));
    }
  }

  /** Whatever ballot box and fees a call reads, and however often they change between calls, an
      accepted call creates and loses nothing. */
  lemma RoutingConserves(r: Router, rent: nat, balance: nat, fees: Fees, b: Box, maxIterations: nat)
    requires Balanced(r) && balance <= U64_MAX && RouteRewards(r, rent, balance, fees, b, maxIterations).Ok?
    ensures Accounts(r, RouteRewards(r, rent, balance, fees, b, maxIterations).value, rent, balance)
  {
    if StillRouting(r) {
      SharingConserves(r, b, maxIterations);
    } else {
      var r1 := RouteIncoming(r, rent, balance).value;
      PoolSplitConserves(r1, fees);
      SharingConserves(StartRound(r, rent, balance, fees).value, b, maxIterations);
    }
  }

  /** And so for payouts. */
  lemma PayoutsConserve(r: Router, operator: Pubkey)
    requires Balanced(r)
    ensures forall d :: d in {DistributeProtocol(r), DistributeNcn(r), DistributeRoute(r, operator)} && d.Ok? ==>
              Balanced(d.value.0) && InTransit(d.value.0) + d.value.1 == InTransit(r) && d.value.0.totalRewards == r.totalRewards
  {
    TotalsMove(r.routes, 0, operator, 0);
  }

  // ---------------------------------------------------------------- whole rounds

  /** Calling until the round is over, or the calls run out. */
  function RunRound(r: Router, rent: nat, fees: Fees, b: Box, calls: seq<RouteCall>): Result<Router>
    requires |calls| > 0
    decreases |calls|
  {
    var r' :- RouteRewards(r, rent, calls[0].balance, fees, b, calls[0].maxIterations);
    if |calls| == 1 || !StillRouting(r') then Ok(r') else RunRound(r', rent, fees, b, calls[1..])
  }

  /** Continuing a round in progress: whatever the limits and whatever arrives at the receiver
      in the meantime, it can only end in the one completed round. */
  lemma {:induction false} ContinuedRound(r: Router, rent: nat, fees: Fees, b: Box, calls: seq<RouteCall>)
    requires Ready(r, b) && StillRouting(r) && |calls| > 0
    ensures var res := RunRound(r, rent, fees, b, calls);
            && res.Ok? && Sound(res.value, b)
            && (!StillRouting(res.value) ==> Completed(r, b) == res)
    decreases |calls|
  {
    CallAdvances(r, b, calls[0].maxIterations);
    var r' := RouteRewards(r, rent, calls[0].balance, fees, b, calls[0].maxIterations).value;
    if |calls| > 1 && StillRouting(r') {
      ContinuedRound(r', rent, fees, b, calls[1..]);
    }
  }

  /** Interrupted routing refines one pass: a round that is run to its end by any number of
      calls, with any limits and any deposits arriving between them, leaves exactly the router
      that one unlimited call would have left. */
  lemma InterruptedEqualsOnePass(r: Router, rent: nat, fees: Fees, b: Box, calls: seq<RouteCall>)
    requires Consistent(b) && GetWinningTally(b).Ok? && Sound(r, b) && !StillRouting(r) && SlotOkay(fees)
    requires |calls| > 0 && rent + InTransit(r) <= calls[0].balance <= U64_MAX
    requires RunRound(r, rent, fees, b, calls).Ok? && !StillRouting(RunRound(r, rent, fees, b, calls).value)
    ensures RunRound(r, rent, fees, b, calls) == RouteRewards(r, rent, calls[0].balance, fees, b, UNBOUNDED)
  {
    SplitExact(r, rent, calls[0].balance, fees);
    var start := StartRound(r, rent, calls[0].balance, fees).value;
    if start.operatorVaultRewards > 0 {
      StartIsReady(r, b, rent, calls[0].balance, fees);
      CallAdvances(start, b, calls[0].maxIterations);
      CallAdvances(start, b, UNBOUNDED);
      var r' := RouteRewards(r, rent, calls[0].balance, fees, b, calls[0].maxIterations).value;
      if |calls| > 1 && StillRouting(r') {
        ContinuedRound(r', rent, fees, b, calls[1..]);
      }
    }
  }

  lemma {:induction false} CountedIsRecount(votes: seq<Vote>, winner: Tally, rewards: nat, i: nat)
    requires i <= |votes|
    ensures Counted(Plan(votes, winner, rewards), i, |votes|) == SumBy(votes[i..], CountAt(winner.index))
    decreases |votes| - i
  {
    if i < |votes| {
      CountedIsRecount(votes, winner, rewards, i + 1);
      SumByPrepend(votes, i, |votes|, CountAt(winner.index));
      assert votes[i..|votes|] == votes[i..] && votes[i + 1..|votes|] == votes[i + 1..];
    }
  }

  /** With a fixed limit, a round in progress ends after exactly as many more calls as its
      unpaid voters need: not before, and not later. */
  lemma {:induction false} RemainingCalls(r: Router, rent: nat, fees: Fees, b: Box, maxIterations: nat, calls: seq<RouteCall>)
    requires Ready(r, b) && StillRouting(r) && |calls| > 0
    requires forall i :: 0 <= i < |calls| ==> calls[i].maxIterations == maxIterations
    ensures RunRound(r, rent, fees, b, calls).Ok?
    ensures !StillRouting(RunRound(r, rent, fees, b, calls).value)
       <==> |calls| >= CallsNeeded(Unpaid(r, b), Max(maxIterations, 1))
    decreases |calls|
  {
    CallAdvances(r, b, maxIterations);
    var r' := RouteRewards(r, rent, calls[0].balance, fees, b, maxIterations).value;
    if |calls| > 1 && StillRouting(r') {
      RemainingCalls(r', rent, fees, b, maxIterations, calls[1..]);
    }
  }

  /** A new round with something to share ends after exactly max(1, ceil(n / m)) calls, where
      `n` is the winning tally's vote count and `m` the limit, taken as at least one. */
  lemma RoundLength(r: Router, rent: nat, fees: Fees, b: Box, maxIterations: nat, calls: seq<RouteCall>)
    requires Consistent(b) && GetWinningTally(b).Ok? && Sound(r, b) && !StillRouting(r) && SlotOkay(fees)
    requires |calls| > 0 && rent + InTransit(r) <= calls[0].balance <= U64_MAX
    requires forall i :: 0 <= i < |calls| ==> calls[i].maxIterations == maxIterations
    requires StartRound(r, rent, calls[0].balance, fees).Ok?
    requires StartRound(r, rent, calls[0].balance, fees).value.operatorVaultRewards > 0
    ensures RunRound(r, rent, fees, b, calls).Ok?
    ensures !StillRouting(RunRound(r, rent, fees, b, calls).value)
       <==> |calls| >= CallsNeeded(GetWinningTally(b).value.count, Max(maxIterations, 1))
  {
    FirstCall(r, b, rent, fees, calls[0]);
    var r' := RouteRewards(r, rent, calls[0].balance, fees, b, maxIterations).value;
    AfterFirstCall(r, r', rent, fees, b, maxIterations, calls, GetWinningTally(b).value.count);
  }

  lemma AfterFirstCall(r: Router, r': Router, rent: nat, fees: Fees, b: Box, maxIterations: nat, calls: seq<RouteCall>, n: nat)
    requires |calls| > 0 && forall i :: 0 <= i < |calls| ==> calls[i].maxIterations == maxIterations
    requires RouteRewards(r, rent, calls[0].balance, fees, b, maxIterations) == Ok(r')
    requires StillRouting(r') <==> n > Max(maxIterations, 1)
    requires StillRouting(r') ==> Ready(r', b) && Unpaid(r', b) == n - Max(maxIterations, 1)
    ensures RunRound(r, rent, fees, b, calls).Ok?
    ensures !StillRouting(RunRound(r, rent, fees, b, calls).value) <==> |calls| >= CallsNeeded(n, Max(maxIterations, 1))
  {
    if |calls| > 1 && StillRouting(r') {
      RemainingCalls(r', rent, fees, b, maxIterations, calls[1..]);
    }
  }

  // ---------------------------------------------------------------- what a round pays

  /** The outcome of a whole round that shares `rewards`: each winning voter's route grows by
      its floored proportional share, no other route changes, and the NCN receives the rest,
      which is less than one lamport per winning voter with stake. */
  lemma RoundPaysShares(r: Router, b: Box)
    requires Consistent(b) && Ready(r, b) && !StillRouting(r) && GetWinningTally(b).value.weight > 0
    ensures Completed(r, b).Ok?
    ensures var winner, rewards, r' := GetWinningTally(b).value, r.operatorVaultRewards, Completed(r, b).value;
            && (forall i :: 0 <= i < |b.votes| && b.votes[i].ballotIndex == winner.index ==>
                  RewardFor(r'.routes, b.votes[i].operator)
                    == RewardFor(r.routes, b.votes[i].operator) + Share(rewards, b.votes[i].weight, winner.weight))
            && (forall k :: k !in Winners(b) ==> RewardFor(r'.routes, k) == RewardFor(r.routes, k))
            && r.ncnRewards <= r'.ncnRewards
            && r'.ncnRewards - r.ncnRewards < SumBy(b.votes, PresenceBy(WeightAt(winner.index)))
  {
    var winner, rewards := GetWinningTally(b).value, r.operatorVaultRewards;
    var plan := PlanOf(r, b);
    CompletedExact(r, b);
    PlanFits(b, rewards);
    assert plan[0..] == plan;
    forall i | 0 <= i < |b.votes| && b.votes[i].ballotIndex == winner.index
      ensures SumBy(plan, AmountFor(b.votes[i].operator)) == Share(rewards, b.votes[i].weight, winner.weight)
    {
      assert Recounted(b.votes, winner, winner.index);
      SumByAtLeast(b.votes, i, WeightAt(winner.index));
      VoterShareIs(b.votes[i], winner, rewards);
      OneAllotmentPerKey(plan, i);
    }
    forall k | k !in Winners(b)
      ensures SumBy(plan, AmountFor(k)) == 0
    {
      NoAllotment(plan, k);
    }
  }

  // ---------------------------------------------------------------- what the instruction pays

  /** A vote's part of `pool`, if it is for the winner: floored, in proportion to its stake. */
  ghost function VoteShare(pool: nat, winner: Tally): Vote -> nat {
    (v: Vote) => if v.ballotIndex == winner.index && winner.weight > 0 then pool * v.weight / winner.weight else 0
  }

  ghost function VoteShareFor(pool: nat, winner: Tally, key: Pubkey): Vote -> nat {
    (v: Vote) => if v.operator == key && v.ballotIndex == winner.index && winner.weight > 0 then pool * v.weight / winner.weight else 0
  }

  /** The plan's amounts, spelled out. */
  lemma PlanPays(b: Box, rewards: nat)
    requires Consistent(b) && GetWinningTally(b).Ok? && rewards <= U64_MAX
    ensures var winner := GetWinningTally(b).value;
            var plan := Plan(b.votes, winner, rewards);
            && SumBy(plan, Amount) == SumBy(b.votes, VoteShare(rewards, winner)) <= rewards
            && forall k :: SumBy(plan, AmountFor(k)) == SumBy(b.votes, VoteShareFor(rewards, winner, k))
  {
    var winner := GetWinningTally(b).value;
    var plan := Plan(b.votes, winner, rewards);
    PlanFits(b, rewards);
    forall i | 0 <= i < |plan|
      ensures Amount(plan[i]) == VoteShare(rewards, winner)(b.votes[i])
    {
      assert Recounted(b.votes, winner, winner.index);
      SumByAtLeast(b.votes, i, WeightAt(winner.index));
      VoterShareIs(b.votes[i], winner, rewards);
    }
    SumByAligned(plan, b.votes, Amount, VoteShare(rewards, winner));
    forall k
      ensures SumBy(plan, AmountFor(k)) == SumBy(b.votes, VoteShareFor(rewards, winner, k))
    {
      SumByAligned(plan, b.votes, AmountFor(k), VoteShareFor(rewards, winner, k));
    }
  }

  /** The end of a round that shares `pool`: each key has received its votes' parts, and the NCN
      the rest. */
  ghost predicate SharedOut(r: Router, done: Router, b: Box, pool: nat)
    requires GetWinningTally(b).Ok?
  {
    var winner := GetWinningTally(b).value;
    && !StillRouting(done) && done.operatorVaultRewards == 0
    && done.ncnRewards + SumBy(b.votes, VoteShare(pool, winner)) == r.ncnRewards + pool
    && (forall k :: RewardFor(done.routes, k) == RewardFor(r.routes, k) + SumBy(b.votes, VoteShareFor(pool, winner, k)))
  }

  /** What an accepted call outside a round does: the new lamports are split into the protocol's
      floored fee, the NCN's floored fee, and the winners' pool.  The call pays as many winners as
      its limit allows, at least one; the round is then over or paused, and its end has the whole
      pool shared out. */
  ghost predicate RoundStarted(r: Router, r': Router, rent: nat, balance: nat, fees: Fees, b: Box, maxIterations: nat)
    requires Consistent(b) && GetWinningTally(b).Ok? && rent + InTransit(r) <= balance
  {
    var arrived := balance - rent - InTransit(r);
    var protocolFee, ncnFee := arrived * fees.protocolBps / 10_000, arrived * fees.ncnBps / 10_000;
    protocolFee + ncnFee <= arrived && SplitAndShared(r, r', arrived, protocolFee, ncnFee, b, maxIterations)
  }

  ghost predicate SplitAndShared(r: Router, r': Router, arrived: nat, protocolFee: nat, ncnFee: nat, b: Box, maxIterations: nat)
    requires Consistent(b) && GetWinningTally(b).Ok? && protocolFee + ncnFee <= arrived
  {
    var pool, r1 := arrived - protocolFee - ncnFee, r.(ncnRewards := r.ncnRewards + ncnFee);
    var n, m := GetWinningTally(b).value.count, Max(maxIterations, 1);
    && r'.totalRewards == r.totalRewards + arrived && r'.rewardPool == 0
    && r'.rewardsProcessed == r.rewardsProcessed + arrived
    && r'.protocolRewards == r.protocolRewards + protocolFee
    && (StillRouting(r') <==> pool > 0 && n > m)
    && (if StillRouting(r') then
          && r'.ncnRewards == r.ncnRewards + ncnFee && r'.lastRewards == pool
          && Ready(r', b) && Unpaid(r', b) == n - m
          && Completed(r', b).Ok? && SharedOut(r1, Completed(r', b).value, b, pool)
        else SharedOut(r1, r', b, pool))
  }

  /** What an accepted call does in a round: nothing is recognised; it pays as many further
      winners as its limit allows, on the way to the same end. */
  ghost predicate RoundResumed(r: Router, r': Router, b: Box, maxIterations: nat)
    requires Ready(r, b)
  {
    var m := Max(maxIterations, 1);
    && r'.totalRewards == r.totalRewards && r'.rewardPool == r.rewardPool && r'.rewardsProcessed == r.rewardsProcessed
    && r'.protocolRewards == r.protocolRewards
    && (StillRouting(r') <==> Unpaid(r, b) > m)
    && (if StillRouting(r') then
          && r'.ncnRewards == r.ncnRewards && r'.lastRewards == r.lastRewards
          && Ready(r', b) && Unpaid(r', b) == Unpaid(r, b) - m && Completed(r', b) == Completed(r, b)
        else Completed(r, b) == Ok(r'))
  }

  /** Sharing out what is ready, told by its amounts. */
  lemma CompletedPays(r: Router, b: Box)
    requires Consistent(b) && Ready(r, b) && !StillRouting(r)
    ensures Completed(r, b).Ok? && SharedOut(r, Completed(r, b).value, b, r.operatorVaultRewards)
    ensures Completed(r, b).value.protocolRewards == r.protocolRewards
  {
    CompletedExact(r, b);
    PlanPays(b, r.operatorVaultRewards);
    var plan := PlanOf(r, b);
    assert plan[0..] == plan;
  }

  /** Other fields during a call. */
  lemma SharingLeaves(r: Router, b: Box, maxIterations: nat)
    requires RouteOperatorVaultRewards(r, b, maxIterations).Ok?
    ensures var r' := RouteOperatorVaultRewards(r, b, maxIterations).value;
            && r'.protocolRewards == r.protocolRewards
            && (StillRouting(r') && ResumeRewards(r) > 0 ==> r'.ncnRewards == r.ncnRewards && r'.lastRewards == ResumeRewards(r))
  {
  }

  lemma NothingToShare(r: Router, b: Box)
    requires Consistent(b) && GetWinningTally(b).Ok? && !StillRouting(r) && r.operatorVaultRewards == 0
    ensures SharedOut(r, r, b, 0)
  {
    var winner := GetWinningTally(b).value;
    PlanPays(b, 0);
    var plan := Plan(b.votes, winner, 0);
    forall k
      ensures SumBy(plan, AmountFor(k)) == 0
    {
      AtMostAll(plan, k);
    }
  }

  /** The sharing part of a call, from a pool that waits in an idle router. */
  ghost predicate PoolShared(r: Router, r': Router, b: Box, maxIterations: nat)
    requires Consistent(b) && GetWinningTally(b).Ok?
  {
    var pool, n, m := r.operatorVaultRewards, GetWinningTally(b).value.count, Max(maxIterations, 1);
    && r'.totalRewards == r.totalRewards && r'.rewardPool == r.rewardPool && r'.rewardsProcessed == r.rewardsProcessed
    && r'.protocolRewards == r.protocolRewards
    && (StillRouting(r') <==> pool > 0 && n > m)
    && (if StillRouting(r') then
          && r'.ncnRewards == r.ncnRewards && r'.lastRewards == pool
          && Ready(r', b) && Unpaid(r', b) == n - m
          && Completed(r', b).Ok? && SharedOut(r, Completed(r', b).value, b, pool)
        else SharedOut(r, r', b, pool))
  }

  lemma SharingPays(r: Router, b: Box, maxIterations: nat)
    requires Consistent(b) && GetWinningTally(b).Ok? && !StillRouting(r)
    requires Balanced(r) && ListedWinners(r, b) && r.rewardPool == 0 && r.operatorVaultRewards <= U64_MAX
    ensures RouteOperatorVaultRewards(r, b, maxIterations).Ok?
    ensures PoolShared(r, RouteOperatorVaultRewards(r, b, maxIterations).value, b, maxIterations)
  {
    if r.operatorVaultRewards > 0 {
      IdleIsReady(r, b);
      CallAdvances(r, b, maxIterations);
      CompletedPays(r, b);
      SharingLeaves(r, b, maxIterations);
      ProcessedUntouched(r, b, maxIterations);
    } else {
      NothingToShare(r, b);
    }
  }

  lemma SplitThenShared(r: Router, start: Router, arrived: nat, protocolFee: nat, ncnFee: nat, b: Box, maxIterations: nat)
    requires Consistent(b) && GetWinningTally(b).Ok? && Sound(r, b) && !StillRouting(r) && protocolFee + ncnFee <= arrived <= U64_MAX
    requires InTransit(r) + arrived <= U64_MAX && SplitInto(r, arrived, protocolFee, ncnFee) == Ok(start)
    ensures RouteOperatorVaultRewards(start, b, maxIterations).Ok?
    ensures SplitAndShared(r, RouteOperatorVaultRewards(start, b, maxIterations).value, arrived, protocolFee, ncnFee, b, maxIterations)
  {
    SharingPays(start, b, maxIterations);
  }

  /** An accepted call of an idle router. */
  lemma RouteInstructionStarts(r: Router, rent: nat, balance: nat, fees: Fees, b: Box, slot: nat, validSlots: nat, maxIterations: nat)
    requires Consistent(b) && GetWinningTally(b).Ok? && Sound(r, b) && !StillRouting(r) && SlotOkay(fees)
    requires rent + InTransit(r) <= balance <= U64_MAX
    requires RouteInstruction(r, rent, balance, fees, b, slot, validSlots, maxIterations).Ok?
    ensures RoundStarted(r, RouteInstruction(r, rent, balance, fees, b, slot, validSlots, maxIterations).value,
                         rent, balance, fees, b, maxIterations)
  {
    var arrived := balance - rent - InTransit(r);
    SplitExact(r, rent, balance, fees);
    SplitThenShared(r, StartRound(r, rent, balance, fees).value, arrived, arrived * fees.protocolBps / MAX_FEE_BPS,
                    arrived * fees.ncnBps / MAX_FEE_BPS, b, maxIterations);
  }

  /** An accepted call in a round. */
  lemma RouteInstructionResumes(r: Router, rent: nat, balance: nat, fees: Fees, b: Box, slot: nat, validSlots: nat, maxIterations: nat)
    requires Ready(r, b) && StillRouting(r)
    requires RouteInstruction(r, rent, balance, fees, b, slot, validSlots, maxIterations).Ok?
    ensures RoundResumed(r, RouteInstruction(r, rent, balance, fees, b, slot, validSlots, maxIterations).value, b, maxIterations)
  {
    ProcessedUntouched(r, b, maxIterations);
    SharingLeaves(r, b, maxIterations);
    CallAdvances(r, b, maxIterations);
  }
}
