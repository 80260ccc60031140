/** The second reward tier.  An operator's reward router takes the operator's fee and hands
    the rest to the operator's vaults in proportion to their stake, over as many calls as it
    takes. */
module OperatorRouting {
  import opened Base
  import opened Sums
  import opened RouteLists
  import opened Rounds
  import opened Snapshots

  const RULES := Rules(MAX_VAULTS, true)

  datatype Router = Router(
    totalRewards: nat,
    rewardPool: nat,
    rewardsProcessed: nat,
    operatorRewards: nat,
    lastRewards: nat,
    lastIndex: nat,
    routes: seq<Route>)

  predicate StillRouting(r: Router) {
    r.lastRewards != NO_REWARDS || r.lastIndex != NO_INDEX
  }

  function InTransit(r: Router): nat { r.rewardPool + r.rewardsProcessed }

  function RouteIncoming(r: Router, rent: nat, balance: nat): Result<Router> {
    var (total, pool) :- Intake(r.totalRewards, r.rewardPool, r.rewardsProcessed, rent, balance);
    Ok(r.(totalRewards := total, rewardPool := pool))
  }

  /** Out of the pool, into the processed counter and the operator's own bucket. */
  function ToOperator(r: Router, rewards: nat): Result<Router> {
    var pool :- CheckedSub(r.rewardPool, rewards);
    var processed :- CheckedAdd(r.rewardsProcessed, rewards, U64_MAX);
    var own :- CheckedAdd(r.operatorRewards, rewards, U64_MAX);
    Ok(r.(rewardPool := pool, rewardsProcessed := processed, operatorRewards := own))
  }

  function RouteOperatorFee(r: Router, feeBps: nat): Result<Router> {
    var fee :- FeeSplit(feeBps, r.rewardPool);
    ToOperator(r, fee)
  }

  /** One vault's reward; an operator without stake shares nothing. */
  function VaultShare(weight: nat, stake: nat, rewards: nat): Result<nat> {
    if stake == 0 || rewards == 0 then Ok(0)
    else
      var share := Share(rewards, weight, stake);
      if share > U64_MAX then Err(CastToU64) else Ok(share)
  }

  /** All 64 slots of the snapshot; the walk visits the empty ones too. */
  function Slots(s: OperatorSnapshot): seq<Entry> {
    seq(MAX_VAULTS, i requires 0 <= i < MAX_VAULTS => if i < |s.entries| then s.entries[i] else EMPTY_ENTRY)
  }

  function Plan(s: OperatorSnapshot, rewards: nat): seq<Allotment> {
    seq(MAX_VAULTS, i requires 0 <= i < MAX_VAULTS =>
      Allotment(Slots(s)[i].vault, VaultShare(Slots(s)[i].weight, s.stake, rewards), true))
  }

  function ResumeIndex(r: Router): nat { if StillRouting(r) then r.lastIndex else 0 }

  function ResumeRewards(r: Router): nat { if StillRouting(r) then r.lastRewards else r.rewardPool }

  function AsPurse(r: Router): Purse { Purse(r.rewardPool, r.rewardsProcessed, r.routes) }

  function Save(r: Router, p: Purse, index: nat, rewards: nat): Router {
    r.(rewardPool := p.pool, rewardsProcessed := p.processed, routes := p.routes,
       lastRewards := rewards, lastIndex := index % (U16_MAX + 1))
  }

  /** The end of a round: the saved state is reset and the remainder goes to the operator. */
  function Settle(r: Router, p: Purse): Result<Router> {
    ToOperator(r.(rewardPool := p.pool, rewardsProcessed := p.processed, routes := p.routes,
                  lastRewards := NO_REWARDS, lastIndex := NO_INDEX), p.pool)
  }

  function RouteRewardPool(r: Router, s: OperatorSnapshot, maxIterations: nat): Result<Router> {
    var rewards := ResumeRewards(r);
    if rewards == 0 then Ok(r)
    else
      var outcome :- Pass(RULES, AsPurse(r), Plan(s, rewards), ResumeIndex(r), 0, Max(maxIterations, 1));
      match outcome
      case Paused(p, j) => Ok(Save(r, p, j, rewards))
      case Finished(p) => Settle(r, p)
  }

  /** The start of a round: new rewards are recognised and the operator's fee is taken. */
  function StartRound(r: Router, rent: nat, balance: nat, s: OperatorSnapshot): Result<Router> {
    var r1 :- RouteIncoming(r, rent, balance);
    RouteOperatorFee(r1, s.feeBps)
  }

  /** The routing instruction: a round starts only when none is in progress. */
  function RouteRewards(r: Router, rent: nat, balance: nat, s: OperatorSnapshot, maxIterations: nat): Result<Router> {
    var r1 :- if StillRouting(r) then Ok(r) else StartRound(r, rent, balance, s);
    RouteRewardPool(r1, s, maxIterations)
  }

  /** The two payouts, each refused during a round. */
  function DistributeOperator(r: Router): Result<(Router, nat)> {
    if StillRouting(r) then Err(RouterStillRouting)
    else
      var processed :- CheckedSub(r.rewardsProcessed, r.operatorRewards);
      Ok((r.(operatorRewards := 0, rewardsProcessed := processed), r.operatorRewards))
  }

  function DistributeVault(r: Router, vault: Pubkey): Result<(Router, nat)> {
    if StillRouting(r) then Err(RouterStillRouting)
    else
      var routes :- Drain(r.routes, vault);
      var processed :- CheckedSub(r.rewardsProcessed, RewardFor(r.routes, vault));
      Ok((r.(routes := routes, rewardsProcessed := processed), RewardFor(r.routes, vault)))
  }

  // ---------------------------------------------------------------- invariant

  function Vaults(s: OperatorSnapshot): set<Pubkey> {
    set i | 0 <= i < |s.entries| :: s.entries[i].vault
  }

  /** What the snapshot must provide: its stake is the sum of its entries, its vaults are
      proper accounts, and the operator's fee is at most everything. */
  ghost predicate Backed(s: OperatorSnapshot) {
    && |s.entries| <= MAX_VAULTS && s.feeBps <= MAX_FEE_BPS
    && s.stake == SumBy(s.entries, EntryWeight)
    && (forall i :: 0 <= i < |s.entries| ==> s.entries[i].vault != DEFAULT_KEY)
  }

  /** Everything processed sits in exactly one bucket. */
  ghost predicate Balanced(r: Router) {
    && r.rewardsProcessed == r.operatorRewards + Allocated(r.routes)
    && r.rewardPool + r.rewardsProcessed <= U64_MAX
    && r.totalRewards <= U64_MAX
  }

  ghost predicate ListedVaults(r: Router, s: OperatorSnapshot) {
    WellFormed(r.routes) && KeysWithin(r.routes, Vaults(s))
  }

  /** Rewards are waiting to be shared out, and the round doing it is on track. */
  ghost predicate Ready(r: Router, s: OperatorSnapshot) {
    && Balanced(r)
    && 0 < ResumeRewards(r) <= U64_MAX
    && OnTrack(RULES, AsPurse(r), Plan(s, ResumeRewards(r)), ResumeRewards(r), ResumeIndex(r), Vaults(s))
    && (StillRouting(r) ==> r.lastIndex < MAX_VAULTS)
  }

  /** Between calls: buckets balance; routes belong to the snapshot's vaults; and either the
      pool is empty or a round is on track from the saved position. */
  ghost predicate Sound(r: Router, s: OperatorSnapshot) {
    && Balanced(r) && ListedVaults(r, s)
    && (if StillRouting(r) then Ready(r, s) else r.rewardPool == 0)
  }

  /** A router as it is created. */
  predicate IsNew(r: Router) {
    r.totalRewards == 0 && InTransit(r) == 0 && !StillRouting(r) && r.operatorRewards == 0 && r.routes == []
  }

  lemma NewRouterSound(r: Router, s: OperatorSnapshot)
    requires IsNew(r)
    ensures Sound(r, s)
  {
  }

  // ---------------------------------------------------------------- the plan

  lemma {:induction false} VaultsAreFew(entries: seq<Entry>)
    ensures |set i | 0 <= i < |entries| :: entries[i].vault| <= |entries|
  {
    if |entries| > 0 {
      var n := |entries| - 1;
      VaultsAreFew(entries[..n]);
      var before := set i | 0 <= i < n :: entries[..n][i].vault;
      var all := set i | 0 <= i < |entries| :: entries[i].vault;
      assert all == before + {entries[n].vault} by {
        forall i | 0 <= i < n
          ensures entries[i].vault in before
        {
          assert entries[..n][i].vault in before;
        }
      }
    }
  }

  /** The stake is the weight of all 64 slots, empty ones included. */
  lemma SlotsWeigh(s: OperatorSnapshot)
    requires |s.entries| <= MAX_VAULTS
    ensures SumBy(Slots(s), EntryWeight) == SumBy(s.entries, EntryWeight)
  {
    var n := |s.entries|;
    SumBySplit(Slots(s), n, EntryWeight);
    assert Slots(s)[..n] == s.entries;
    SumByZero(Slots(s)[n..], EntryWeight);
  }

  lemma VaultShareIs(weight: nat, stake: nat, rewards: nat)
    requires rewards <= U64_MAX && weight <= stake
    ensures VaultShare(weight, stake, rewards) == Ok(if stake > 0 then Share(rewards, weight, stake) else 0)
    ensures weight == 0 ==> VaultShare(weight, stake, rewards) == Ok(0)
  {
    if stake > 0 {
      ShareBounds(rewards, weight, stake);
      ShareBounds(0, weight, stake);
    }
  }

  /** The stake is the sum of the vaults' weights, so the vaults' floored shares are all
      computable, add up to at most the amount shared, and leave less than one lamport per
      vault with stake. */
  lemma PlanFits(s: OperatorSnapshot, rewards: nat)
    requires Backed(s) && rewards <= U64_MAX
    ensures var plan := Plan(s, rewards);
            && WellPlanned(plan) && Payable(plan, Vaults(s)) && |Vaults(s)| <= MAX_VAULTS
            && SumBy(plan, Amount) <= rewards
            && (s.stake > 0 ==> rewards - SumBy(plan, Amount) < SumBy(Slots(s), PresenceBy(EntryWeight)))
  {
    var plan, slots := Plan(s, rewards), Slots(s);
    SlotsWeigh(s);
    VaultsAreFew(s.entries);
    forall i | 0 <= i < |plan|
      ensures plan[i].share.Ok?
      ensures Amount(plan[i]) > 0 ==> plan[i].key in Vaults(s) && plan[i].key != DEFAULT_KEY
      ensures s.stake > 0 ==> Amount(plan[i]) == ShareBy(rewards, EntryWeight, s.stake)(slots[i])
      ensures s.stake == 0 ==> Amount(plan[i]) == EntryWeight(slots[i])
    {
      SumByAtLeast(slots, i, EntryWeight);
      VaultShareIs(slots[i].weight, s.stake, rewards);
      if i < |s.entries| {
        assert s.entries[i].vault in Vaults(s);
      }
    }
    if s.stake > 0 {
      SumByAligned(plan, slots, Amount, ShareBy(rewards, EntryWeight, s.stake));
      SharesFit(slots, rewards, EntryWeight, s.stake);
    } else {
      SumByAligned(plan, slots, Amount, EntryWeight);
    }
  }

  // ---------------------------------------------------------------- one call

  /** The router after paying every vault still unpaid and settling, in one go. */
  ghost function Completed(r: Router, s: OperatorSnapshot): Result<Router>
    requires Ready(r, s)
  {
    var p :- PayRange(RULES, AsPurse(r), Plan(s, ResumeRewards(r)), ResumeIndex(r), MAX_VAULTS);
    Settle(r, p)
  }

  lemma {:induction false} EverySlotCounts(s: OperatorSnapshot, rewards: nat, i: nat)
    requires i <= MAX_VAULTS
    ensures Counted(Plan(s, rewards), i, MAX_VAULTS) == MAX_VAULTS - i
    decreases MAX_VAULTS - i
  {
    if i < MAX_VAULTS {
      EverySlotCounts(s, rewards, i + 1);
    }
  }

  /** Completing a round always succeeds: each vault receives its shares and the operator the
      rounding remainder. */
  lemma CompletedExact(r: Router, s: OperatorSnapshot)
    requires Ready(r, s)
    ensures Completed(r, s).Ok?
    ensures var plan := Plan(s, ResumeRewards(r));
            var r' := Completed(r, s).value;
            && Sound(r', s) && !StillRouting(r')
            && r'.totalRewards == r.totalRewards && r'.rewardPool == 0 && InTransit(r') == InTransit(r)
            && r'.operatorRewards + SumBy(plan, Amount) == r.operatorRewards + ResumeRewards(r)
            && (forall k :: RewardFor(r'.routes, k) == RewardFor(r.routes, k) + SumBy(plan[ResumeIndex(r)..], AmountFor(k)))
  {
    var plan, i := Plan(s, ResumeRewards(r)), ResumeIndex(r);
    StretchOnTrack(RULES, AsPurse(r), plan, ResumeRewards(r), i, |plan|, Vaults(s));
    assert plan[i..|plan|] == plan[i..] && plan[..|plan|] == plan;
  }

  lemma SavedResumes(r: Router, p: Purse, j: nat, rewards: nat)
    requires j < MAX_VAULTS && p.pool + p.processed == r.rewardPool + r.rewardsProcessed
    ensures var r' := Save(r, p, j, rewards);
            && StillRouting(r') && ResumeRewards(r') == rewards && ResumeIndex(r') == j && r'.lastIndex == j
            && AsPurse(r') == p && InTransit(r') == InTransit(r) && r'.totalRewards == r.totalRewards
            && r'.operatorRewards == r.operatorRewards
  {
  }

  lemma SavedIsReady(r: Router, s: OperatorSnapshot, p: Purse, j: nat)
    requires Ready(r, s) && j < MAX_VAULTS
    requires OnTrack(RULES, p, Plan(s, ResumeRewards(r)), ResumeRewards(r), j, Vaults(s))
    requires p.pool + Allocated(p.routes) == r.rewardPool + Allocated(r.routes)
    requires p.pool + p.processed == r.rewardPool + r.rewardsProcessed
    ensures var r' := Save(r, p, j, ResumeRewards(r));
            && Sound(r', s) && Ready(r', s) && StillRouting(r') && AsPurse(r') == p && InTransit(r') == InTransit(r)
            && ResumeIndex(r') == j && ResumeRewards(r') == ResumeRewards(r)
  {
    SavedResumes(r, p, j, ResumeRewards(r));
  }

  /** One call from a ready state never fails.  It finishes, with the completed round, exactly
      when its iterations cover the slots still to visit; otherwise it visits exactly that many
      and leaves a sound state whose completion is unchanged. */
  lemma CallAdvances(r: Router, s: OperatorSnapshot, maxIterations: nat)
    requires Ready(r, s)
    ensures RouteRewardPool(r, s, maxIterations).Ok?
    ensures var r' := RouteRewardPool(r, s, maxIterations).value;
            var m := Max(maxIterations, 1);
            && Sound(r', s) && InTransit(r') == InTransit(r) && r'.totalRewards == r.totalRewards
            && (MAX_VAULTS - ResumeIndex(r) <= m ==> !StillRouting(r') && Completed(r, s) == Ok(r'))
            && (MAX_VAULTS - ResumeIndex(r) > m ==>
                  && StillRouting(r')
                  && Completed(r', s) == Completed(r, s) && ResumeIndex(r') == ResumeIndex(r) + m)
  {
    var plan, i, m := Plan(s, ResumeRewards(r)), ResumeIndex(r), Max(maxIterations, 1);
    CompletedExact(r, s);
    EverySlotCounts(s, ResumeRewards(r), i);
    PassOnTrack(RULES, AsPurse(r), plan, ResumeRewards(r), i, m, Vaults(s));
    match Pass(RULES, AsPurse(r), plan, i, 0, m).value
    case Finished(_) =>
    case Paused(p, j) =>
      EverySlotCounts(s, ResumeRewards(r), j);
      SavedIsReady(r, s, p, j);
  }

  // ---------------------------------------------------------------- the whole instruction

  /** Starting a round from an idle, sound router fails only by overflow of the lifetime
      counter; the operator gets its floored fee and the rest waits in the pool. */
  lemma StartExact(r: Router, rent: nat, balance: nat, s: OperatorSnapshot)
    requires Balanced(r) && r.rewardPool == 0 && s.feeBps <= MAX_FEE_BPS
    requires rent + InTransit(r) <= balance <= U64_MAX
    ensures var arrived := balance - rent - InTransit(r);
            var fee := arrived * s.feeBps / MAX_FEE_BPS;
            var res := StartRound(r, rent, balance, s);
            && fee <= arrived
            && res == if r.totalRewards + arrived > U64_MAX then Err(ArithmeticOverflow)
                      else Ok(r.(totalRewards := r.totalRewards + arrived, rewardPool := arrived - fee,
                                 rewardsProcessed := r.rewardsProcessed + fee, operatorRewards := r.operatorRewards + fee))
  {
    IntakeExact(r.totalRewards, r.rewardPool, r.rewardsProcessed, rent, balance);
    FeesFit(s.feeBps, 0, balance - rent - InTransit(r));
  }

  lemma StartIsReady(r: Router, rent: nat, balance: nat, s: OperatorSnapshot)
    requires Backed(s) && Sound(r, s) && !StillRouting(r)
    requires rent + InTransit(r) <= balance <= U64_MAX
    requires StartRound(r, rent, balance, s).Ok? && StartRound(r, rent, balance, s).value.rewardPool > 0
    ensures var start := StartRound(r, rent, balance, s).value;
            Ready(start, s) && !StillRouting(start) && InTransit(start) + rent == balance
  {
    StartExact(r, rent, balance, s);
    var start := StartRound(r, rent, balance, s).value;
    PlanFits(s, start.rewardPool);
    assert Plan(s, start.rewardPool)[..0] == [];
  }

  /** A call of the instruction on a sound router never gets stuck: while a round is in
      progress it always succeeds, and otherwise it fails only if the lifetime counter would
      overflow.  It keeps the router sound and recognises exactly the new part of the balance,
      once per round. */
  lemma RouteRewardsSound(r: Router, rent: nat, balance: nat, s: OperatorSnapshot, maxIterations: nat)
    requires Backed(s) && Sound(r, s) && rent + InTransit(r) <= balance <= U64_MAX
    ensures var res := RouteRewards(r, rent, balance, s, maxIterations);
            var arrived := if StillRouting(r) then 0 else balance - rent - InTransit(r);
            && (res.Ok? <==> r.totalRewards + arrived <= U64_MAX) && (res.Err? ==> res.error == ArithmeticOverflow)
            && (res.Ok? ==>
                  && Sound(res.value, s)
                  && res.value.totalRewards == r.totalRewards + arrived
                  && InTransit(res.value) == InTransit(r) + arrived)
  {
    if StillRouting(r) {
      CallAdvances(r, s, maxIterations);
    } else {
      StartExact(r, rent, balance, s);
      var start := StartRound(r, rent, balance, s);
      if start.Ok? && start.value.rewardPool > 0 {
        StartIsReady(r, rent, balance, s);
        CallAdvances(start.value, s, maxIterations);
      }
    }
  }

  /** On an idle, sound router every payout of a listed reward succeeds and takes exactly that
      amount out of transit. */
  lemma PayoutsSound(r: Router, s: OperatorSnapshot, vault: Pubkey)
    requires Sound(r, s)
    ensures DistributeOperator(r).Ok? <==> !StillRouting(r)
    ensures DistributeVault(r, vault).Ok? <==> !StillRouting(r) && exists i :: 0 <= i < |r.routes| && r.routes[i].key == vault
    ensures !StillRouting(r) ==>
              var (r', paid) := DistributeOperator(r).value;
              && Sound(r', s) && InTransit(r') + paid == InTransit(r) && paid == r.operatorRewards
              && r' == r.(operatorRewards := 0, rewardsProcessed := r'.rewardsProcessed)
    ensures DistributeVault(r, vault).Ok? ==>
              var (r', paid) := DistributeVault(r, vault).value;
              && Sound(r', s) && InTransit(r') + paid == InTransit(r)
              && paid == RewardFor(r.routes, vault)
              && r' == r.(routes := r'.routes, rewardsProcessed := r'.rewardsProcessed)
              && (forall k :: RewardFor(r'.routes, k) == if k == vault then 0 else RewardFor(r.routes, k))
  {
    DrainSound(r.routes, vault, Vaults(s));
    var i := IndexOf(r.routes, vault);
    if i < |r.routes| {
      SumByAtLeast(r.routes, i, RewardsIn);
    }
  }

  // ---------------------------------------------------------------- conservation, whatever is read

  /** What an accepted call may do to the totals. */
  ghost predicate Accounts(r: Router, r': Router, rent: nat, balance: nat) {
    && Balanced(r')
    && r'.totalRewards + InTransit(r) == r.totalRewards + InTransit(r')
    && (InTransit(r') == InTransit(r) || rent + InTransit(r') == balance)
  }

  lemma SharingConserves(r: Router, s: OperatorSnapshot, maxIterations: nat)
    requires Balanced(r) && RouteRewardPool(r, s, maxIterations).Ok?
    ensures var r' := RouteRewardPool(r, s, maxIterations).value;
            Balanced(r') && InTransit(r') == InTransit(r) && r'.totalRewards == r.totalRewards
  {
    if ResumeRewards(r) != 0 {
      PassConserves(RULES, AsPurse(r), Plan(s, ResumeRewards(r)), ResumeIndex(r), 0, Max(maxIterations, 1));
    }
  }

  /** Whatever snapshot a call reads, finished or not, and however it changes between calls, an
      accepted call creates and loses nothing. */
  lemma RoutingConserves(r: Router, rent: nat, balance: nat, s: OperatorSnapshot, maxIterations: nat)
    requires Balanced(r) && balance <= U64_MAX && RouteRewards(r, rent, balance, s, maxIterations).Ok?
    ensures Accounts(r, RouteRewards(r, rent, balance, s, maxIterations).value, rent, balance)
  {
    if StillRouting(r) {
      SharingConserves(r, s, maxIterations);
    } else {
      SharingConserves(StartRound(r, rent, balance, s).value, s, maxIterations);
    }
  }

  lemma PayoutsConserve(r: Router, vault: Pubkey)
    requires Balanced(r)
    ensures forall d :: d in {DistributeOperator(r), DistributeVault(r, vault)} && d.Ok? ==>
              Balanced(d.value.0) && InTransit(d.value.0) + d.value.1 == InTransit(r) && d.value.0.totalRewards == r.totalRewards
  {
    TotalsMove(r.routes, 0, vault, 0);
  }

  // ---------------------------------------------------------------- whole rounds

  function RunRound(r: Router, rent: nat, s: OperatorSnapshot, calls: seq<RouteCall>): Result<Router>
    requires |calls| > 0
    decreases |calls|
  {
    var r' :- RouteRewards(r, rent, calls[0].balance, s, calls[0].maxIterations);
    if |calls| == 1 || !StillRouting(r') then Ok(r') else RunRound(r', rent, s, calls[1..])
  }

  /** A round in progress can only end in its one completion, and with a fixed limit it does
      so after exactly as many more calls as the remaining slots need. */
  lemma {:induction false} ContinuedRound(r: Router, rent: nat, s: OperatorSnapshot, calls: seq<RouteCall>)
    requires Ready(r, s) && StillRouting(r) && |calls| > 0
    ensures var res := RunRound(r, rent, s, calls);
            && res.Ok? && Sound(res.value, s)
            && (!StillRouting(res.value) ==> Completed(r, s) == res)
            && ((forall i :: 0 <= i < |calls| ==> calls[i].maxIterations == calls[0].maxIterations) ==>
                  (!StillRouting(res.value) <==>
                     |calls| >= CallsNeeded(MAX_VAULTS - ResumeIndex(r), Max(calls[0].maxIterations, 1))))
    decreases |calls|
  {
    CallAdvances(r, s, calls[0].maxIterations);
    var r' := RouteRewards(r, rent, calls[0].balance, s, calls[0].maxIterations).value;
    if |calls| > 1 && StillRouting(r') {
      ContinuedRound(r', rent, s, calls[1..]);
    }
  }

  /** Interrupted routing refines one pass, for a fixed snapshot: any calls that run a round to
      its end leave exactly the router that one unlimited call would have left. */
  lemma InterruptedEqualsOnePass(r: Router, rent: nat, s: OperatorSnapshot, calls: seq<RouteCall>)
    requires Backed(s) && Sound(r, s) && !StillRouting(r)
    requires |calls| > 0 && rent + InTransit(r) <= calls[0].balance <= U64_MAX
    requires RunRound(r, rent, s, calls).Ok? && !StillRouting(RunRound(r, rent, s, calls).value)
    ensures RunRound(r, rent, s, calls) == RouteRewards(r, rent, calls[0].balance, s, UNBOUNDED)
  {
    StartExact(r, rent, calls[0].balance, s);
    var start := StartRound(r, rent, calls[0].balance, s).value;
    if start.rewardPool > 0 {
      StartIsReady(r, rent, calls[0].balance, s);
      CallAdvances(start, s, calls[0].maxIterations);
      CallAdvances(start, s, UNBOUNDED);
      var r' := RouteRewards(r, rent, calls[0].balance, s, calls[0].maxIterations).value;
      if |calls| > 1 && StillRouting(r') {
        ContinuedRound(r', rent, s, calls[1..]);
      }
    }
  }

  /** The first call of a round with something to share. */
  lemma FirstCall(r: Router, rent: nat, s: OperatorSnapshot, call: RouteCall)
    requires Backed(s) && Sound(r, s) && !StillRouting(r)
    requires rent + InTransit(r) <= call.balance <= U64_MAX
    requires StartRound(r, rent, call.balance, s).Ok? && StartRound(r, rent, call.balance, s).value.rewardPool > 0
    ensures RouteRewards(r, rent, call.balance, s, call.maxIterations).Ok?
    ensures var r' := RouteRewards(r, rent, call.balance, s, call.maxIterations).value;
            && Sound(r', s)
            && (StillRouting(r') <==> MAX_VAULTS > Max(call.maxIterations, 1))
            && (StillRouting(r') ==> ResumeIndex(r') == Max(call.maxIterations, 1))
  {
    StartIsReady(r, rent, call.balance, s);
    CallAdvances(StartRound(r, rent, call.balance, s).value, s, call.maxIterations);
  }

  /** A new round with something to share takes exactly max(1, ceil(64 / m)) calls. */
  lemma RoundLength(r: Router, rent: nat, s: OperatorSnapshot, maxIterations: nat, calls: seq<RouteCall>)
    requires Backed(s) && Sound(r, s) && !StillRouting(r)
    requires |calls| > 0 && rent + InTransit(r) <= calls[0].balance <= U64_MAX
    requires forall i :: 0 <= i < |calls| ==> calls[i].maxIterations == maxIterations
    requires StartRound(r, rent, calls[0].balance, s).Ok? && StartRound(r, rent, calls[0].balance, s).value.rewardPool > 0
    ensures RunRound(r, rent, s, calls).Ok?
    ensures !StillRouting(RunRound(r, rent, s, calls).value)
       <==> |calls| >= CallsNeeded(MAX_VAULTS, Max(maxIterations, 1))
  {
    FirstCall(r, rent, s, calls[0]);
    AfterFirstCall(r, RouteRewards(r, rent, calls[0].balance, s, maxIterations).value, rent, s, maxIterations, calls, MAX_VAULTS);
  }

  lemma AfterFirstCall(r: Router, r': Router, rent: nat, s: OperatorSnapshot, maxIterations: nat, calls: seq<RouteCall>, n: nat)
    requires |calls| > 0 && n == MAX_VAULTS && forall i :: 0 <= i < |calls| ==> calls[i].maxIterations == maxIterations
    requires RouteRewards(r, rent, calls[0].balance, s, maxIterations) == Ok(r')
    requires StillRouting(r') <==> n > Max(maxIterations, 1)
    requires StillRouting(r') ==> Ready(r', s) && ResumeIndex(r') == Max(maxIterations, 1)
    ensures RunRound(r, rent, s, calls).Ok?
    ensures !StillRouting(RunRound(r, rent, s, calls).value) <==> |calls| >= CallsNeeded(n, Max(maxIterations, 1))
  {
    if |calls| > 1 && StillRouting(r') {
      ContinuedRound(r', rent, s, calls[1..]);
      assert calls[1].maxIterations == maxIterations;
    }
  }

  // ---------------------------------------------------------------- a snapshot that changes

  /** Resuming against whatever the snapshot is now: running to the end succeeds if and only
      if the shares of the slots not yet visited, at today's stakes, fit in the pool. */
  lemma ResumeSucceedsExactlyWhen(r: Router, s: OperatorSnapshot)
    requires StillRouting(r) && 0 < r.lastRewards <= U64_MAX && r.lastIndex < MAX_VAULTS
    requires Balanced(r) && ListedVaults(r, s) && Backed(s)
    ensures var rest := SumBy(Plan(s, r.lastRewards)[r.lastIndex..], Amount);
            RouteRewardPool(r, s, UNBOUNDED).Ok? <==> rest <= r.rewardPool
  {
    var plan, i := Plan(s, r.lastRewards), r.lastIndex;
    PlanFits(s, r.lastRewards);
    var rest := SumBy(plan[i..], Amount);
    assert plan[i..|plan|] == plan[i..];
    EverySlotCounts(s, r.lastRewards, i);
    PassIsPrefix(RULES, AsPurse(r), plan, i, 0, UNBOUNDED);
    if rest <= r.rewardPool {
      PayRangeExact(RULES, AsPurse(r), plan, i, |plan|, Vaults(s));
    } else if PayRange(RULES, AsPurse(r), plan, i, |plan|).Ok? {
      PayRangeTakesFromPool(RULES, AsPurse(r), plan, i, |plan|);
    }
  }

  /** The example below: a snapshot with one vault of stake 10 out of two expected. */
  predicate HalfDone(s: OperatorSnapshot) {
    && s.feeBps == 0 && s.delegationCount == 2 && s.registered == 1 && s.validDelegations == 1 && s.stake == 10
    && s.entries == [Entry(7, 0, 10)]
  }

  /** A router after one call with 100 lamports and a limit of one: the only vault so far has
      been paid everything, and the round is saved at the second slot. */
  predicate PaidOnce(r: Router) {
    && r.totalRewards == 100 && r.rewardPool == 0 && r.rewardsProcessed == 100 && r.operatorRewards == 0
    && r.lastRewards == 100 && r.lastIndex == 1 && r.routes == [Route(7, 100)]
  }

  lemma OneCallPaysTheFirstVault(r: Router, s: OperatorSnapshot, rent: nat)
    requires IsNew(r) && HalfDone(s) && rent + 100 <= U64_MAX
    ensures var c := RouteRewards(r, rent, rent + 100, s, 1);
            c.Ok? && PaidOnce(c.value)
  {
    var start := r.(totalRewards := 100, rewardPool := 100);
    NewRouterStarts(r, s, rent, 100);
    StartThenRoute(r, rent, rent + 100, s, 1, start);
    FirstSlotTakesAll(start, s);
  }

  lemma NewRouterStarts(r: Router, s: OperatorSnapshot, rent: nat, arrived: nat)
    requires IsNew(r) && s.feeBps == 0 && 0 < arrived && rent + arrived <= U64_MAX
    ensures StartRound(r, rent, rent + arrived, s) == Ok(r.(totalRewards := arrived, rewardPool := arrived))
  {
    var r1 := r.(totalRewards := arrived, rewardPool := arrived);
    assert RouteIncoming(r, rent, rent + arrived) == Ok(r1);
    assert RouteOperatorFee(r1, 0) == Ok(r1);
  }

  lemma StartThenRoute(r: Router, rent: nat, balance: nat, s: OperatorSnapshot, maxIterations: nat, start: Router)
    requires !StillRouting(r) && StartRound(r, rent, balance, s) == Ok(start)
    ensures RouteRewards(r, rent, balance, s, maxIterations) == RouteRewardPool(start, s, maxIterations)
  {
  }

  lemma FirstSlotTakesAll(r: Router, s: OperatorSnapshot)
    requires HalfDone(s) && !StillRouting(r)
    requires r.totalRewards == 100 && r.rewardPool == 100 && r.rewardsProcessed == 0 && r.operatorRewards == 0 && r.routes == []
    ensures var c := RouteRewardPool(r, s, 1);
            c.Ok? && PaidOnce(c.value)
  {
    var plan, p := Plan(s, r.rewardPool), AsPurse(r);
    var q := Purse(0, 100, [Route(7, 100)]);
    assert plan[0] == Allotment(7, Ok(100), true) && plan[1].counted;
    assert p.routes + [Route(7, 100)] == [Route(7, 100)];
    assert Pay(RULES, p, plan[0]) == Ok(q);
    assert Pass(RULES, q, plan, 1, 1, 1) == Ok(Paused(q, 1));
  }

  /** A saved round whose next slot is due more than the pool holds fails on every call,
      whatever the balance and the limit. */
  lemma DilutedRoundFails(r: Router, s: OperatorSnapshot, rent: nat, balance: nat, maxIterations: nat)
    requires StillRouting(r) && r.lastRewards > 0 && r.lastIndex < MAX_VAULTS
    requires var share := VaultShare(Slots(s)[r.lastIndex].weight, s.stake, r.lastRewards);
             share.Ok? && share.value > r.rewardPool
    ensures RouteRewards(r, rent, balance, s, maxIterations) == Err(ArithmeticUnderflow)
  {
    var plan := Plan(s, r.lastRewards);
    assert Pay(RULES, AsPurse(r), plan[r.lastIndex]) == Err(ArithmeticUnderflow);
    assert Pass(RULES, AsPurse(r), plan, r.lastIndex, 0, Max(maxIterations, 1)) == Err(ArithmeticUnderflow);
  }

  /** A second vault of equal stake finishes the snapshot and is due half of the rewards. */
  lemma SecondVaultDilutes(s: OperatorSnapshot, slot: nat)
    requires HalfDone(s)
    ensures var s' := Register(s, slot, Entry(8, 1, 10));
            && !Finalized(s) && s'.Ok? && Finalized(s'.value)
            && VaultShare(Slots(s'.value)[1].weight, s'.value.stake, 100) == Ok(50)
  {
    var s' := Register(s, slot, Entry(8, 1, 10)).value;
    assert s'.entries == [Entry(7, 0, 10), Entry(8, 1, 10)];
  }

  /** The instruction does not ask for a finished snapshot, and it should: a vault registered
      in the middle of a round dilutes shares that have already been paid.  Here the first vault
      is paid the whole pool, a second vault of equal stake is then registered, and from then on
      every call fails, whatever the balance and the limit, so no payout is possible either. */
  lemma RegistrationMidRoundStrandsTheRouter(r: Router, s: OperatorSnapshot, slot: nat, rent: nat, balance: nat, maxIterations: nat)
    requires IsNew(r) && HalfDone(s) && rent + 100 <= U64_MAX
    ensures var call, s' := RouteRewards(r, rent, rent + 100, s, 1), Register(s, slot, Entry(8, 1, 10));
            && call.Ok? && PaidOnce(call.value)
            && !Finalized(s) && s'.Ok? && Finalized(s'.value)
            && RouteRewards(call.value, rent, balance, s'.value, maxIterations) == Err(ArithmeticUnderflow)
            && DistributeVault(call.value, 7) == Err(RouterStillRouting)
  {
    OneCallPaysTheFirstVault(r, s, rent);
    SecondVaultDilutes(s, slot);
    DilutedRoundFails(RouteRewards(r, rent, rent + 100, s, 1).value, Register(s, slot, Entry(8, 1, 10)).value, rent, balance, maxIterations);
  }

  // ---------------------------------------------------------------- what a round pays

  /** The outcome of a whole round that shares `rewards` over distinct vaults: each vault's
      route grows by its floored proportional share and the operator receives the rest, which
      is less than one lamport per vault with stake. */
  lemma RoundPaysShares(r: Router, s: OperatorSnapshot)
    requires Backed(s) && Ready(r, s) && !StillRouting(r) && s.stake > 0
    requires forall i, j :: 0 <= i < j < |s.entries| ==> s.entries[i].vault != s.entries[j].vault
    ensures Completed(r, s).Ok?
    ensures var rewards, r' := r.rewardPool, Completed(r, s).value;
            && (forall i :: 0 <= i < |s.entries| ==>
                  RewardFor(r'.routes, s.entries[i].vault)
                    == RewardFor(r.routes, s.entries[i].vault) + Share(rewards, s.entries[i].weight, s.stake))
            && r.operatorRewards <= r'.operatorRewards
            && r'.operatorRewards - r.operatorRewards < SumBy(Slots(s), PresenceBy(EntryWeight))
  {
    var plan := Plan(s, r.rewardPool);
    CompletedExact(r, s);
    PlanFits(s, r.rewardPool);
    assert plan[0..] == plan;
    forall i | 0 <= i < |s.entries|
      ensures SumBy(plan, AmountFor(s.entries[i].vault)) == Share(r.rewardPool, s.entries[i].weight, s.stake)
    {
      assert Slots(s)[i] == s.entries[i];
      SumByAtLeast(s.entries, i, EntryWeight);
      VaultShareIs(s.entries[i].weight, s.stake, r.rewardPool);
      OneAllotmentPerKey(plan, i);
    }
  }

  // ---------------------------------------------------------------- what the instruction pays

  /** A vault's part of `pool`: floored, in proportion to its stake. */
  ghost function EntryShare(pool: nat, stake: nat): Entry -> nat {
    (e: Entry) => if stake > 0 then pool * e.weight / stake else 0
  }

  ghost function EntryShareFor(pool: nat, stake: nat, vault: Pubkey): Entry -> nat {
    (e: Entry) => if e.vault == vault && stake > 0 then pool * e.weight / stake else 0
  }

  lemma PlanAmountIs(s: OperatorSnapshot, rewards: nat, i: nat)
    requires Backed(s) && rewards <= U64_MAX && i < MAX_VAULTS
    ensures var a := Plan(s, rewards)[i];
            if i < |s.entries| then a.key == s.entries[i].vault && Amount(a) == EntryShare(rewards, s.stake)(s.entries[i])
            else Amount(a) == 0
  {
    SlotsWeigh(s);
    SumByAtLeast(Slots(s), i, EntryWeight);
    VaultShareIs(Slots(s)[i].weight, s.stake, rewards);
    if s.stake > 0 {
      ShareBounds(rewards, Slots(s)[i].weight, s.stake);
    }
  }

  /** The plan's amounts, spelled out: the 64 slots pay what the entries are due. */
  lemma PlanPays(s: OperatorSnapshot, rewards: nat)
    requires Backed(s) && rewards <= U64_MAX
    ensures SumBy(Plan(s, rewards), Amount) == SumBy(s.entries, EntryShare(rewards, s.stake)) <= rewards
    ensures forall k :: SumBy(Plan(s, rewards), AmountFor(k)) == SumBy(s.entries, EntryShareFor(rewards, s.stake, k))
  {
    var plan, n := Plan(s, rewards), |s.entries|;
    PlanFits(s, rewards);
    forall i | 0 <= i < MAX_VAULTS
      ensures if i < n then plan[i].key == s.entries[i].vault && Amount(plan[i]) == EntryShare(rewards, s.stake)(s.entries[i])
              else Amount(plan[i]) == 0
    {
      PlanAmountIs(s, rewards, i);
    }
    SumBySplit(plan, n, Amount);
    SumByAligned(plan[..n], s.entries, Amount, EntryShare(rewards, s.stake));
    SumByZero(plan[n..], Amount);
    forall k
      ensures SumBy(plan, AmountFor(k)) == SumBy(s.entries, EntryShareFor(rewards, s.stake, k))
    {
      SumBySplit(plan, n, AmountFor(k));
      SumByAligned(plan[..n], s.entries, AmountFor(k), EntryShareFor(rewards, s.stake, k));
      SumByZero(plan[n..], AmountFor(k));
    }
  }

  /** The end of a round that shares `pool`: each vault has received its entries' parts, and the
      operator the rest. */
  ghost predicate SharedOut(r: Router, done: Router, s: OperatorSnapshot, pool: nat) {
    && !StillRouting(done) && done.rewardPool == 0
    && done.operatorRewards + SumBy(s.entries, EntryShare(pool, s.stake)) == r.operatorRewards + pool
    && (forall k :: RewardFor(done.routes, k) == RewardFor(r.routes, k) + SumBy(s.entries, EntryShareFor(pool, s.stake, k)))
  }

  /** What an accepted call outside a round does: the operator gets its floored fee of the new
      lamports and the rest is the vaults' pool.  The call visits as many slots as its limit
      allows, at least one; the round is then over or paused, and its end has the whole pool
      shared out. */
  ghost predicate RoundStarted(r: Router, r': Router, rent: nat, balance: nat, s: OperatorSnapshot, maxIterations: nat)
    requires Backed(s) && rent + InTransit(r) <= balance
  {
    var arrived := balance - rent - InTransit(r);
    var fee, m := arrived * s.feeBps / 10_000, Max(maxIterations, 1);
    && fee <= arrived
    && var pool, r1 := arrived - fee, r.(operatorRewards := r.operatorRewards + fee);
       && r'.totalRewards == r.totalRewards + arrived && InTransit(r') == InTransit(r) + arrived
       && (StillRouting(r') <==> pool > 0 && m < 64)
       && (if StillRouting(r') then
             && r'.operatorRewards == r.operatorRewards + fee && r'.lastRewards == pool && r'.lastIndex == m
             && Ready(r', s) && Completed(r', s).Ok? && SharedOut(r1, Completed(r', s).value, s, pool)
           else SharedOut(r1, r', s, pool))
  }

  /** What an accepted call does in a round: nothing is recognised; it visits as many further
      slots as its limit allows, on the way to the same end. */
  ghost predicate RoundResumed(r: Router, r': Router, s: OperatorSnapshot, maxIterations: nat)
    requires Ready(r, s)
  {
    var m := Max(maxIterations, 1);
    && r'.totalRewards == r.totalRewards && InTransit(r') == InTransit(r)
    && (StillRouting(r') <==> r.lastIndex + m < 64)
    && (if StillRouting(r') then
          && r'.operatorRewards == r.operatorRewards && r'.lastRewards == r.lastRewards && r'.lastIndex == r.lastIndex + m
          && Ready(r', s) && Completed(r', s) == Completed(r, s)
        else Completed(r, s) == Ok(r'))
  }

  lemma SharingLeaves(r: Router, s: OperatorSnapshot, maxIterations: nat)
    requires RouteRewardPool(r, s, maxIterations).Ok?
    ensures var r' := RouteRewardPool(r, s, maxIterations).value;
            StillRouting(r') && ResumeRewards(r) > 0 ==> r'.operatorRewards == r.operatorRewards && r'.lastRewards == ResumeRewards(r)
  {
  }

  lemma CompletedPays(r: Router, s: OperatorSnapshot)
    requires Backed(s) && Ready(r, s) && !StillRouting(r)
    ensures Completed(r, s).Ok? && SharedOut(r, Completed(r, s).value, s, r.rewardPool)
  {
    CompletedExact(r, s);
    PlanPays(s, r.rewardPool);
    var plan := Plan(s, r.rewardPool);
    assert plan[0..] == plan;
  }

  lemma NothingToShare(r: Router, s: OperatorSnapshot)
    requires Backed(s) && !StillRouting(r) && r.rewardPool == 0
    ensures SharedOut(r, r, s, 0)
  {
    PlanPays(s, 0);
    forall k
      ensures SumBy(Plan(s, 0), AmountFor(k)) == 0
    {
      AtMostAll(Plan(s, 0), k);
    }
  }

  /** The sharing part of a call, from a pool that waits in an idle router. */
  ghost predicate PoolShared(r: Router, r': Router, s: OperatorSnapshot, maxIterations: nat)
    requires Backed(s)
  {
    var pool, m := r.rewardPool, Max(maxIterations, 1);
    && r'.totalRewards == r.totalRewards && InTransit(r') == InTransit(r)
    && (StillRouting(r') <==> pool > 0 && m < 64)
    && (if StillRouting(r') then
          && r'.operatorRewards == r.operatorRewards && r'.lastRewards == pool && r'.lastIndex == m
          && Ready(r', s) && Completed(r', s).Ok? && SharedOut(r, Completed(r', s).value, s, pool)
        else SharedOut(r, r', s, pool))
  }

  lemma SharingPays(r: Router, s: OperatorSnapshot, maxIterations: nat)
    requires Backed(s) && !StillRouting(r) && Balanced(r) && ListedVaults(r, s) && (r.rewardPool > 0 ==> Ready(r, s))
    ensures RouteRewardPool(r, s, maxIterations).Ok?
    ensures PoolShared(r, RouteRewardPool(r, s, maxIterations).value, s, maxIterations)
  {
    if r.rewardPool > 0 {
      CallAdvances(r, s, maxIterations);
      CompletedPays(r, s);
      SharingLeaves(r, s, maxIterations);
    } else {
      NothingToShare(r, s);
    }
  }

  lemma RouteRewardsStarts(r: Router, rent: nat, balance: nat, s: OperatorSnapshot, maxIterations: nat)
    requires Backed(s) && Sound(r, s) && !StillRouting(r) && rent + InTransit(r) <= balance <= U64_MAX
    requires RouteRewards(r, rent, balance, s, maxIterations).Ok?
    ensures RoundStarted(r, RouteRewards(r, rent, balance, s, maxIterations).value, rent, balance, s, maxIterations)
  {
    StartExact(r, rent, balance, s);
    if StartRound(r, rent, balance, s).value.rewardPool > 0 {
      StartIsReady(r, rent, balance, s);
    }
    SharingPays(StartRound(r, rent, balance, s).value, s, maxIterations);
  }

  lemma RouteRewardsResumes(r: Router, rent: nat, balance: nat, s: OperatorSnapshot, maxIterations: nat)
    requires Ready(r, s) && StillRouting(r) && RouteRewards(r, rent, balance, s, maxIterations).Ok?
    ensures RoundResumed(r, RouteRewards(r, rent, balance, s, maxIterations).value, s, maxIterations)
  {
    SharingLeaves(r, s, maxIterations);
    CallAdvances(r, s, maxIterations);
  }
}
