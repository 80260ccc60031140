/** Lamports through both tiers.  A run is any sequence of openings and closings of receivers,
    deposits, routing calls and payouts on the NCN's receiver and on every operator's receiver; a
    refused instruction changes nothing. */
module RewardFlow {
  import opened Base
  import opened Sums
  import opened RouteLists
  import opened FeeSchedule
  import Voting
  import Snapshots
  import N = NcnRouting
  import O = OperatorRouting

  /** What the reward instructions read: accounts that other instructions write. */
  datatype Env = Env(
    rent: nat,
    fees: Fees,
    box: Voting.Box,
    validSlots: nat,
    operators: seq<Pubkey>,
    snapshots: seq<Snapshots.OperatorSnapshot>)

  /** A router beside its receiver's balance, with the lamports that ever arrived at the
      receiver (beyond its rent) and that ever left it. */
  datatype NcnTier = NcnTier(router: N.Router, balance: nat, received: nat, paid: nat)

  datatype OperatorTier = OperatorTier(router: O.Router, balance: nat, received: nat, paid: nat)

  /** `outside` is every other lamport in existence. */
  datatype Flow = Flow(ncn: Option<NcnTier>, operators: seq<Option<OperatorTier>>, outside: nat)

  datatype Step =
    | OpenNcn(tier: NcnTier)
    | CloseNcn
    | OpenOperator(i: nat, newTier: OperatorTier)
    | CloseOperator(i: nat)
    | DepositNcn(amount: nat)
    | DepositOperator(i: nat, amount: nat)
    | RouteNcn(slot: nat, maxIterations: nat)
    | RouteOperator(i: nat, maxIterations: nat)
    | PayProtocol
    | PayNcn
    | PayRoute(i: nat)
    | PayOperator(i: nat)
    | PayVault(i: nat, vault: Pubkey)

  /** A tier as it is created: a new router, and a receiver holding its rent and whatever had
      been sent to its address before. */
  predicate NewNcnTier(rent: nat, t: NcnTier) {
    N.IsNew(t.router) && t.paid == 0 && t.balance == rent + t.received
  }

  predicate NewOperatorTier(rent: nat, t: OperatorTier) {
    O.IsNew(t.router) && t.paid == 0 && t.balance == rent + t.received
  }

  /** A system transfer out of a receiver must leave it empty or above rent. */
  function Withdraw(balance: nat, amount: nat, rent: nat): Result<nat> {
    if amount <= balance && (balance - amount == 0 || balance - amount >= rent) then Ok(balance - amount)
    else Err(InsufficientLamports)
  }

  /** Pays `amount` out of the NCN receiver. */
  function DebitNcn(t: NcnTier, router: N.Router, amount: nat, rent: nat): Result<NcnTier> {
    var balance :- Withdraw(t.balance, amount, rent);
    Ok(NcnTier(router, balance, t.received, t.paid + amount))
  }

  function DebitOperator(t: OperatorTier, router: O.Router, amount: nat, rent: nat): Result<OperatorTier> {
    var balance :- Withdraw(t.balance, amount, rent);
    Ok(OperatorTier(router, balance, t.received, t.paid + amount))
  }

  function CreditNcn(t: NcnTier, amount: nat): NcnTier {
    t.(balance := t.balance + amount, received := t.received + amount)
  }

  function CreditOperator(t: OperatorTier, amount: nat): OperatorTier {
    t.(balance := t.balance + amount, received := t.received + amount)
  }

  /** Closing a receiver sends what exceeds the rent to the NCN's wallet, and then the rent to the
      payer. */
  function Release(balance: nat, rent: nat): Result<nat> {
    var excess := if balance > rent then balance - rent else 0;
    var rest :- Withdraw(balance, excess, rent);
    Withdraw(rest, rent, rent)
  }

  function LoadNcn(f: Flow): Result<NcnTier> {
    if f.ncn.Some? then Ok(f.ncn.value) else Err(InvalidAccount)
  }

  function LoadOperator(f: Flow, i: nat): Result<OperatorTier> {
    if i < |f.operators| && f.operators[i].Some? then Ok(f.operators[i].value) else Err(InvalidAccount)
  }

  function SetNcn(f: Flow, t: NcnTier, outside: nat): Flow {
    f.(ncn := Some(t), outside := outside)
  }

  function SetOperator(f: Flow, i: nat, t: OperatorTier, outside: nat): Flow
    requires i < |f.operators|
  {
    f.(operators := f.operators[i := Some(t)], outside := outside)
  }

  ghost predicate Sized(env: Env, f: Flow) {
    |env.snapshots| == |env.operators| == |f.operators|
  }

  function Apply(env: Env, f: Flow, step: Step): (r: Result<Flow>)
    requires Sized(env, f)
    ensures r.Ok? ==> Sized(env, r.value)
  {
    match step
    case OpenNcn(t) =>
      if f.ncn.Some? || !NewNcnTier(env.rent, t) then Err(InvalidAccount) else
      var outside :- CheckedSub(f.outside, t.balance);
      Ok(SetNcn(f, t, outside))
    case CloseNcn =>
      var t :- LoadNcn(f);
      var rest :- Release(t.balance, env.rent);
      Ok(f.(ncn := None, outside := f.outside + t.balance - rest))
    case OpenOperator(i, t) =>
      if i >= |f.operators| || f.operators[i].Some? || !NewOperatorTier(env.rent, t) then Err(InvalidAccount) else
      var outside :- CheckedSub(f.outside, t.balance);
      Ok(SetOperator(f, i, t, outside))
    case CloseOperator(i) =>
      var t :- LoadOperator(f, i);
      var rest :- Release(t.balance, env.rent);
      Ok(f.(operators := f.operators[i := None], outside := f.outside + t.balance - rest))
    case DepositNcn(amount) =>
      var t :- LoadNcn(f);
      var outside :- CheckedSub(f.outside, amount);
      Ok(SetNcn(f, CreditNcn(t, amount), outside))
    case DepositOperator(i, amount) =>
      var t :- LoadOperator(f, i);
      var outside :- CheckedSub(f.outside, amount);
      Ok(SetOperator(f, i, CreditOperator(t, amount), outside))
    case RouteNcn(slot, maxIterations) =>
      var t :- LoadNcn(f);
      var router :- N.RouteInstruction(t.router, env.rent, t.balance, env.fees, env.box, slot, env.validSlots, maxIterations);
      Ok(SetNcn(f, t.(router := router), f.outside))
    case RouteOperator(i, maxIterations) =>
      var t :- LoadOperator(f, i);
      var router :- O.RouteRewards(t.router, env.rent, t.balance, env.snapshots[i], maxIterations);
      Ok(SetOperator(f, i, t.(router := router), f.outside))
    case PayProtocol =>
      var t :- LoadNcn(f);
      var (router, amount) :- N.DistributeProtocol(t.router);
      var t' :- DebitNcn(t, router, amount, env.rent);
      Ok(SetNcn(f, t', f.outside + amount))
    case PayNcn =>
      var t :- LoadNcn(f);
      var (router, amount) :- N.DistributeNcn(t.router);
      var t' :- DebitNcn(t, router, amount, env.rent);
      Ok(SetNcn(f, t', f.outside + amount))
    case PayRoute(i) =>
      var t :- LoadNcn(f);
      var o :- LoadOperator(f, i);
      var (router, amount) :- N.DistributeRoute(t.router, env.operators[i]);
      var t' :- DebitNcn(t, router, amount, env.rent);
      Ok(SetOperator(SetNcn(f, t', f.outside), i, CreditOperator(o, amount), f.outside))
    case PayOperator(i) =>
      var t :- LoadOperator(f, i);
      var (router, amount) :- O.DistributeOperator(t.router);
      var t' :- DebitOperator(t, router, amount, env.rent);
      Ok(SetOperator(f, i, t', f.outside + amount))
    case PayVault(i, vault) =>
      var t :- LoadOperator(f, i);
      var (router, amount) :- O.DistributeVault(t.router, vault);
      var t' :- DebitOperator(t, router, amount, env.rent);
      Ok(SetOperator(f, i, t', f.outside + amount))
  }

  // ---------------------------------------------------------------- the ledger

  function NcnBalance(t: Option<NcnTier>): nat { if t.Some? then t.value.balance else 0 }

  function Balance(t: Option<OperatorTier>): nat { if t.Some? then t.value.balance else 0 }

  /** Every lamport in existence. */
  function Supply(f: Flow): nat { f.outside + NcnBalance(f.ncn) + SumBy(f.operators, Balance) }

  /** A tier's books: everything processed is in a bucket, the receiver covers rent and everything
      in transit, what arrived is what is there plus what was paid, and what was ever recognised
      is in transit or paid. */
  ghost predicate NcnLedger(rent: nat, t: NcnTier) {
    && N.Balanced(t.router)
    && rent + N.InTransit(t.router) <= t.balance
    && t.balance + t.paid == rent + t.received
    && t.router.totalRewards == N.InTransit(t.router) + t.paid
  }

  ghost predicate OperatorLedger(rent: nat, t: OperatorTier) {
    && O.Balanced(t.router)
    && rent + O.InTransit(t.router) <= t.balance
    && t.balance + t.paid == rent + t.received
    && t.router.totalRewards == O.InTransit(t.router) + t.paid
  }

  ghost predicate OperatorLedgers(rent: nat, ts: seq<Option<OperatorTier>>) {
    forall i :: 0 <= i < |ts| && ts[i].Some? ==> OperatorLedger(rent, ts[i].value)
  }

  ghost predicate Ledger(rent: nat, f: Flow) {
    && (f.ncn.Some? ==> NcnLedger(rent, f.ncn.value))
    && OperatorLedgers(rent, f.operators)
    && Supply(f) <= U64_MAX
  }

  /** What right books mean, spelled out: each receiver covers its rent and everything in
      transit; all that was ever recognised is in transit or paid out; what arrived was recognised
      or waits to be; and the processed counter is the sum of its buckets. */
  lemma LedgerMeans(rent: nat, f: Flow, i: nat)
    requires Ledger(rent, f)
    ensures f.ncn.Some? ==>
              var t, r := f.ncn.value, f.ncn.value.router;
              && rent + r.rewardPool + r.rewardsProcessed <= t.balance
              && r.totalRewards == N.InTransit(r) + t.paid
              && t.received == r.totalRewards + (t.balance - rent - N.InTransit(r))
              && r.rewardsProcessed == r.protocolRewards + r.ncnRewards + r.operatorVaultRewards + Allocated(r.routes)
    ensures i < |f.operators| && f.operators[i].Some? ==>
              var t, r := f.operators[i].value, f.operators[i].value.router;
              && rent + r.rewardPool + r.rewardsProcessed <= t.balance
              && r.totalRewards == O.InTransit(r) + t.paid
              && t.received == r.totalRewards + (t.balance - rent - O.InTransit(r))
              && r.rewardsProcessed == r.operatorRewards + Allocated(r.routes)
  {
    if i < |f.operators| && f.operators[i].Some? {
      assert OperatorLedger(rent, f.operators[i].value);
    }
  }

  /** A step's effect on the totals. */
  ghost predicate Conserves(rent: nat, f: Flow, f': Flow) {
    Ledger(rent, f') && Supply(f') == Supply(f)
  }

  /** Replacing the NCN tier, the difference made up outside. */
  lemma NcnReplaced(rent: nat, f: Flow, t: Option<NcnTier>, outside: nat)
    requires Ledger(rent, f) && (t.Some? ==> NcnLedger(rent, t.value))
    requires NcnBalance(t) + outside == NcnBalance(f.ncn) + f.outside
    ensures Conserves(rent, f, f.(ncn := t, outside := outside))
  {
  }

  /** Replacing an operator's tier, the difference made up outside. */
  lemma OperatorReplaced(rent: nat, f: Flow, i: nat, t: Option<OperatorTier>, outside: nat)
    requires Ledger(rent, f) && i < |f.operators| && (t.Some? ==> OperatorLedger(rent, t.value))
    requires Balance(t) + outside == Balance(f.operators[i]) + f.outside
    ensures Conserves(rent, f, f.(operators := f.operators[i := t], outside := outside))
  {
    SumByUpdate(f.operators, i, t, Balance);
    assert OperatorLedgers(rent, f.operators[i := t]);
  }

  lemma BalancesWithinSupply(f: Flow, i: nat)
    requires i < |f.operators|
    ensures NcnBalance(f.ncn) + Balance(f.operators[i]) <= Supply(f)
  {
    SumByAtLeast(f.operators, i, Balance);
  }

  /** Receivers with right books can be closed to the last lamport. */
  lemma ReleaseTakesAll(balance: nat, rent: nat)
    requires rent <= balance
    ensures Release(balance, rent) == Ok(0)
  {
  }

  lemma NcnDebited(rent: nat, t: NcnTier, router: N.Router, amount: nat)
    requires NcnLedger(rent, t) && N.Balanced(router)
    requires N.InTransit(router) + amount == N.InTransit(t.router) && router.totalRewards == t.router.totalRewards
    ensures DebitNcn(t, router, amount, rent).Ok?
    ensures var t' := DebitNcn(t, router, amount, rent).value;
            NcnLedger(rent, t') && t'.balance + amount == t.balance && t'.paid == t.paid + amount
  {
  }

  lemma OperatorDebited(rent: nat, t: OperatorTier, router: O.Router, amount: nat)
    requires OperatorLedger(rent, t) && O.Balanced(router)
    requires O.InTransit(router) + amount == O.InTransit(t.router) && router.totalRewards == t.router.totalRewards
    ensures DebitOperator(t, router, amount, rent).Ok?
    ensures var t' := DebitOperator(t, router, amount, rent).value;
            OperatorLedger(rent, t') && t'.balance + amount == t.balance && t'.paid == t.paid + amount
  {
  }

  // ---------------------------------------------------------------- conservation, whatever is read

  lemma OpenCloseConserve(env: Env, f: Flow, step: Step)
    requires Sized(env, f) && Ledger(env.rent, f) && Apply(env, f, step).Ok?
    requires step.OpenNcn? || step.CloseNcn? || step.OpenOperator? || step.CloseOperator?
    ensures Conserves(env.rent, f, Apply(env, f, step).value)
  {
    match step
    case OpenNcn(t) => NcnReplaced(env.rent, f, Some(t), f.outside - t.balance);
    case CloseNcn =>
      ReleaseTakesAll(f.ncn.value.balance, env.rent);
      NcnReplaced(env.rent, f, None, f.outside + f.ncn.value.balance);
    case OpenOperator(i, t) => OperatorReplaced(env.rent, f, i, Some(t), f.outside - t.balance);
    case CloseOperator(i) =>
      ReleaseTakesAll(f.operators[i].value.balance, env.rent);
      OperatorReplaced(env.rent, f, i, None, f.outside + f.operators[i].value.balance);
  }

  lemma DepositConserves(env: Env, f: Flow, step: Step)
    requires Sized(env, f) && Ledger(env.rent, f) && Apply(env, f, step).Ok?
    requires step.DepositNcn? || step.DepositOperator?
    ensures Conserves(env.rent, f, Apply(env, f, step).value)
  {
    match step
    case DepositNcn(amount) =>
      NcnReplaced(env.rent, f, Some(CreditNcn(f.ncn.value, amount)), f.outside - amount);
    case DepositOperator(i, amount) =>
      OperatorReplaced(env.rent, f, i, Some(CreditOperator(f.operators[i].value, amount)), f.outside - amount);
  }

  lemma RouteConserves(env: Env, f: Flow, step: Step)
    requires Sized(env, f) && Ledger(env.rent, f) && Apply(env, f, step).Ok?
    requires step.RouteNcn? || step.RouteOperator?
    ensures Conserves(env.rent, f, Apply(env, f, step).value)
  {
    match step
    case RouteNcn(slot, maxIterations) =>
      var t, t' := f.ncn.value, Apply(env, f, step).value.ncn.value;
      N.RoutingConserves(t.router, env.rent, t.balance, env.fees, env.box, maxIterations);
      NcnReplaced(env.rent, f, Some(t'), f.outside);
    case RouteOperator(i, maxIterations) =>
      var t, t' := f.operators[i].value, Apply(env, f, step).value.operators[i].value;
      BalancesWithinSupply(f, i);
      O.RoutingConserves(t.router, env.rent, t.balance, env.snapshots[i], maxIterations);
      OperatorReplaced(env.rent, f, i, Some(t'), f.outside);
  }

  /** A payout from the NCN's receiver to the outside. */
  lemma NcnPayoutConserves(rent: nat, f: Flow, d: Result<(N.Router, nat)>)
    requires Ledger(rent, f) && f.ncn.Some? && d.Ok?
    requires d in {N.DistributeProtocol(f.ncn.value.router), N.DistributeNcn(f.ncn.value.router)}
    ensures DebitNcn(f.ncn.value, d.value.0, d.value.1, rent).Ok?
    ensures Conserves(rent, f, SetNcn(f, DebitNcn(f.ncn.value, d.value.0, d.value.1, rent).value, f.outside + d.value.1))
  {
    N.PayoutsConserve(f.ncn.value.router, DEFAULT_KEY);
    NcnDebited(rent, f.ncn.value, d.value.0, d.value.1);
    NcnReplaced(rent, f, Some(DebitNcn(f.ncn.value, d.value.0, d.value.1, rent).value), f.outside + d.value.1);
  }

  lemma OperatorPayoutConserves(rent: nat, f: Flow, i: nat, vault: Pubkey, d: Result<(O.Router, nat)>)
    requires Ledger(rent, f) && i < |f.operators| && f.operators[i].Some? && d.Ok?
    requires d in {O.DistributeOperator(f.operators[i].value.router), O.DistributeVault(f.operators[i].value.router, vault)}
    ensures DebitOperator(f.operators[i].value, d.value.0, d.value.1, rent).Ok?
    ensures Conserves(rent, f, SetOperator(f, i, DebitOperator(f.operators[i].value, d.value.0, d.value.1, rent).value, f.outside + d.value.1))
  {
    var t := f.operators[i].value;
    O.PayoutsConserve(t.router, vault);
    OperatorDebited(rent, t, d.value.0, d.value.1);
    OperatorReplaced(rent, f, i, Some(DebitOperator(t, d.value.0, d.value.1, rent).value), f.outside + d.value.1);
  }

  /** The step between the tiers: the operator's route leaves the NCN's books, and the same
      lamports arrive at the operator's receiver. */
  lemma HandoverConserves(env: Env, f: Flow, i: nat)
    requires Sized(env, f) && Ledger(env.rent, f) && i < |f.operators| && f.ncn.Some? && f.operators[i].Some?
    requires N.DistributeRoute(f.ncn.value.router, env.operators[i]).Ok?
    ensures Apply(env, f, PayRoute(i)).Ok?
    ensures var f', amount := Apply(env, f, PayRoute(i)).value, RewardFor(f.ncn.value.router.routes, env.operators[i]);
            && Conserves(env.rent, f, f') && f'.outside == f.outside
            && f'.ncn.Some? && f'.ncn.value.paid == f.ncn.value.paid + amount
            && f'.operators[i].Some? && f'.operators[i].value.received == f.operators[i].value.received + amount
  {
    var t, o := f.ncn.value, f.operators[i].value;
    N.PayoutsConserve(t.router, env.operators[i]);
    var (router, amount) := N.DistributeRoute(t.router, env.operators[i]).value;
    NcnDebited(env.rent, t, router, amount);
    var t' := DebitNcn(t, router, amount, env.rent).value;
    NcnReplaced(env.rent, f, Some(t'), f.outside + amount);
    OperatorReplaced(env.rent, SetNcn(f, t', f.outside + amount), i, Some(CreditOperator(o, amount)), f.outside);
  }

  /** Every accepted step conserves, whatever box, fees and snapshots it reads. */
  lemma StepConserves(env: Env, f: Flow, step: Step)
    requires Sized(env, f) && Ledger(env.rent, f) && Apply(env, f, step).Ok?
    ensures Conserves(env.rent, f, Apply(env, f, step).value)
  {
    if step.OpenNcn? || step.CloseNcn? || step.OpenOperator? || step.CloseOperator? {
      OpenCloseConserve(env, f, step);
    } else if step.DepositNcn? || step.DepositOperator? {
      DepositConserves(env, f, step);
    } else if step.RouteNcn? || step.RouteOperator? {
      RouteConserves(env, f, step);
    } else if step.PayProtocol? {
      NcnPayoutConserves(env.rent, f, N.DistributeProtocol(f.ncn.value.router));
    } else if step.PayNcn? {
      NcnPayoutConserves(env.rent, f, N.DistributeNcn(f.ncn.value.router));
    } else if step.PayRoute? {
      HandoverConserves(env, f, step.i);
    } else if step.PayOperator? {
      OperatorPayoutConserves(env.rent, f, step.i, DEFAULT_KEY, O.DistributeOperator(f.operators[step.i].value.router));
    } else {
      OperatorPayoutConserves(env.rent, f, step.i, step.vault, O.DistributeVault(f.operators[step.i].value.router, step.vault));
    }
  }

  /** A step and what it reads. */
  datatype Call = Call(env: Env, step: Step)

  ghost predicate ProperCalls(rent: nat, f: Flow, calls: seq<Call>) {
    forall k :: 0 <= k < |calls| ==> calls[k].env.rent == rent && Sized(calls[k].env, f)
  }

  ghost function Run(rent: nat, f: Flow, calls: seq<Call>): (f': Flow)
    requires ProperCalls(rent, f, calls)
    ensures |f'.operators| == |f.operators|
  {
    if |calls| == 0 then f
    else
      var f', call := Run(rent, f, calls[..|calls| - 1]), calls[|calls| - 1];
      var r := Apply(call.env, f', call.step);
      if r.Ok? then r.value else f'
  }

  /** Conservation over every run, even if every call reads another ballot box, other snapshots
      and other fees: the books of both tiers stay right and the supply of lamports is what it
      was. */
  lemma {:induction false} EveryRunConserves(rent: nat, f: Flow, calls: seq<Call>)
    requires Ledger(rent, f) && ProperCalls(rent, f, calls)
    ensures Conserves(rent, f, Run(rent, f, calls))
  {
    if |calls| > 0 {
      var front, call := calls[..|calls| - 1], calls[|calls| - 1];
      EveryRunConserves(rent, f, front);
      var m := Run(rent, f, front);
      if Apply(call.env, m, call.step).Ok? {
        StepConserves(call.env, m, call.step);
      }
    }
  }

  // ---------------------------------------------------------------- nothing gets stuck

  /** A consistent ballot box, snapshots whose stakes are the sums of their entries, and fees
      within bounds. */
  ghost predicate ProperEnv(env: Env) {
    && Voting.Consistent(env.box) && SlotOkay(env.fees)
    && |env.operators| == |env.snapshots|
    && (forall i :: 0 <= i < |env.snapshots| ==> O.Backed(env.snapshots[i]))
  }

  ghost predicate OperatorsSound(snapshots: seq<Snapshots.OperatorSnapshot>, ts: seq<Option<OperatorTier>>) {
    |ts| == |snapshots| &&
    forall i :: 0 <= i < |ts| && ts[i].Some? ==> O.Sound(ts[i].value.router, snapshots[i])
  }

  /** Every round in progress is on track for what is being read. */
  ghost predicate Sounds(env: Env, f: Flow) {
    && (f.ncn.Some? ==> N.Sound(f.ncn.value.router, env.box))
    && OperatorsSound(env.snapshots, f.operators)
  }

  ghost predicate Books(env: Env, f: Flow) {
    Sized(env, f) && Ledger(env.rent, f) && Sounds(env, f)
  }

  /** The end of the voting window lies beyond the last slot. */
  predicate WindowOverflows(b: Voting.Box, validSlots: nat) {
    Voting.IsConsensusReached(b) && !Voting.TieBreakerSet(b) && b.slotConsensusReached + validSlots > U64_MAX
  }

  /** Outside a round, recognising what the receiver holds would overflow the lifetime counter. */
  predicate NcnCounterOverflows(rent: nat, t: NcnTier) {
    !N.StillRouting(t.router) && t.router.totalRewards + (t.balance - rent - N.InTransit(t.router)) > U64_MAX
  }

  predicate OperatorCounterOverflows(rent: nat, t: OperatorTier) {
    !O.StillRouting(t.router) && t.router.totalRewards + (t.balance - rent - O.InTransit(t.router)) > U64_MAX
  }

  predicate Listed(routes: seq<Route>, key: Pubkey) { exists i :: 0 <= i < |routes| && routes[i].key == key }

  predicate NcnOpen(f: Flow) { f.ncn.Some? }

  predicate OperatorOpen(f: Flow, i: nat) { i < |f.operators| && f.operators[i].Some? }

  function RouteRefusal(env: Env, t: NcnTier, slot: nat): Option<Error> {
    if WindowOverflows(env.box, env.validSlots) then Some(ArithmeticOverflow)
    else if Voting.IsVotingValid(env.box, slot, env.validSlots) == Ok(true) then Some(VotingIsNotOver)
    else if NcnCounterOverflows(env.rent, t) then Some(ArithmeticOverflow)
    else None
  }

  /** Why a step is refused, if it is.  A tier is missing, or to be opened and there already or
      not new; the payer has not enough; votes can still be cast; a counter would overflow, which
      cannot happen during a round; a payout is asked for during a round, or for a key without a
      route. */
  function Refusal(env: Env, f: Flow, step: Step): Option<Error>
    requires Sized(env, f)
  {
    match step
    case OpenNcn(t) =>
      if NcnOpen(f) || !NewNcnTier(env.rent, t) then Some(InvalidAccount)
      else if f.outside < t.balance then Some(ArithmeticUnderflow) else None
    case CloseNcn => if !NcnOpen(f) then Some(InvalidAccount) else None
    case OpenOperator(i, t) =>
      if i >= |f.operators| || OperatorOpen(f, i) || !NewOperatorTier(env.rent, t) then Some(InvalidAccount)
      else if f.outside < t.balance then Some(ArithmeticUnderflow) else None
    case CloseOperator(i) => if !OperatorOpen(f, i) then Some(InvalidAccount) else None
    case DepositNcn(amount) =>
      if !NcnOpen(f) then Some(InvalidAccount) else if f.outside < amount then Some(ArithmeticUnderflow) else None
    case DepositOperator(i, amount) =>
      if !OperatorOpen(f, i) then Some(InvalidAccount) else if f.outside < amount then Some(ArithmeticUnderflow) else None
    case RouteNcn(slot, _) => if !NcnOpen(f) then Some(InvalidAccount) else RouteRefusal(env, f.ncn.value, slot)
    case RouteOperator(i, _) =>
      if !OperatorOpen(f, i) then Some(InvalidAccount)
      else if OperatorCounterOverflows(env.rent, f.operators[i].value) then Some(ArithmeticOverflow) else None
    case PayProtocol => if !NcnOpen(f) then Some(InvalidAccount) else if N.StillRouting(f.ncn.value.router) then Some(RouterStillRouting) else None
    case PayNcn => if !NcnOpen(f) then Some(InvalidAccount) else if N.StillRouting(f.ncn.value.router) then Some(RouterStillRouting) else None
    case PayRoute(i) =>
      if !NcnOpen(f) || !OperatorOpen(f, i) then Some(InvalidAccount)
      else if N.StillRouting(f.ncn.value.router) then Some(RouterStillRouting)
      else if !Listed(f.ncn.value.router.routes, env.operators[i]) then Some(RewardNotFound) else None
    case PayOperator(i) =>
      if !OperatorOpen(f, i) then Some(InvalidAccount)
      else if O.StillRouting(f.operators[i].value.router) then Some(RouterStillRouting) else None
    case PayVault(i, vault) =>
      if !OperatorOpen(f, i) then Some(InvalidAccount)
      else if O.StillRouting(f.operators[i].value.router) then Some(RouterStillRouting)
      else if !Listed(f.operators[i].value.router.routes, vault) then Some(RewardNotFound) else None
  }

  /** The step is refused exactly for its reason, and otherwise keeps every round on track. */
  ghost predicate Keeps(env: Env, f: Flow, step: Step)
    requires Sized(env, f)
  {
    match Refusal(env, f, step)
    case None => Apply(env, f, step).Ok? && Sounds(env, Apply(env, f, step).value)
    case Some(e) => Apply(env, f, step) == Err(e)
  }

  lemma VotingOverHasWinner(b: Voting.Box, slot: nat, validSlots: nat)
    requires Voting.Consistent(b) && Voting.IsVotingValid(b, slot, validSlots) == Ok(false)
    ensures Voting.GetWinningTally(b).Ok?
  {
  }

  lemma OperatorSoundReplaced(env: Env, f: Flow, i: nat, t: OperatorTier)
    requires Sounds(env, f) && i < |f.operators| && O.Sound(t.router, env.snapshots[i])
    ensures OperatorsSound(env.snapshots, f.operators[i := Some(t)])
  {
  }

  lemma OpenNcnKeeps(env: Env, f: Flow, t: NcnTier)
    requires ProperEnv(env) && Books(env, f)
    ensures Keeps(env, f, OpenNcn(t))
  {
    if N.IsNew(t.router) {
      N.NewRouterSound(t.router, env.box);
    }
  }

  lemma OpenOperatorKeeps(env: Env, f: Flow, i: nat, t: OperatorTier)
    requires ProperEnv(env) && Books(env, f)
    ensures Keeps(env, f, OpenOperator(i, t))
  {
    if O.IsNew(t.router) && i < |f.operators| {
      O.NewRouterSound(t.router, env.snapshots[i]);
      OperatorSoundReplaced(env, f, i, t);
    }
  }

  lemma CloseKeeps(env: Env, f: Flow, step: Step)
    requires ProperEnv(env) && Books(env, f) && (step.CloseNcn? || step.CloseOperator?)
    ensures Keeps(env, f, step)
  {
    match step
    case CloseNcn =>
      if f.ncn.Some? {
        ReleaseTakesAll(f.ncn.value.balance, env.rent);
      }
    case CloseOperator(i) =>
      if i < |f.operators| && f.operators[i].Some? {
        ReleaseTakesAll(f.operators[i].value.balance, env.rent);
      }
  }

  /** Routing is refused exactly while votes can be cast, when the end of the voting window is
      beyond the last slot, or, outside a round, when the lifetime counter would overflow. */
  lemma RouteNcnKeeps(env: Env, f: Flow, slot: nat, maxIterations: nat)
    requires ProperEnv(env) && Books(env, f)
    ensures Keeps(env, f, RouteNcn(slot, maxIterations))
  {
    if f.ncn.Some? && Voting.IsVotingValid(env.box, slot, env.validSlots) == Ok(false) {
      VotingOverHasWinner(env.box, slot, env.validSlots);
      N.RouteRewardsSound(f.ncn.value.router, env.box, env.rent, f.ncn.value.balance, env.fees, maxIterations);
    }
  }

  lemma RouteOperatorKeeps(env: Env, f: Flow, i: nat, maxIterations: nat)
    requires ProperEnv(env) && Books(env, f)
    ensures Keeps(env, f, RouteOperator(i, maxIterations))
  {
    if OperatorOpen(f, i) {
      var t := f.operators[i].value;
      BalancesWithinSupply(f, i);
      O.RouteRewardsSound(t.router, env.rent, t.balance, env.snapshots[i], maxIterations);
      var r := O.RouteRewards(t.router, env.rent, t.balance, env.snapshots[i], maxIterations);
      if r.Ok? {
        OperatorSoundReplaced(env, f, i, t.(router := r.value));
      }
    }
  }

  /** A payout is refused only during a round or for a key without a route; it is always covered,
      and pays its own bucket. */
  lemma NcnPayoutKeeps(env: Env, f: Flow)
    requires ProperEnv(env) && Books(env, f)
    ensures Keeps(env, f, PayProtocol) && Keeps(env, f, PayNcn)
    ensures var r := Apply(env, f, PayProtocol);
            r.Ok? ==> f.ncn.Some? && r.value.outside == f.outside + f.ncn.value.router.protocolRewards
    ensures var r := Apply(env, f, PayNcn);
            r.Ok? ==> f.ncn.Some? && r.value.outside == f.outside + f.ncn.value.router.ncnRewards
  {
    if f.ncn.Some? {
      N.PayoutsSound(f.ncn.value.router, env.box, DEFAULT_KEY);
      if !N.StillRouting(f.ncn.value.router) {
        NcnPayoutConserves(env.rent, f, N.DistributeProtocol(f.ncn.value.router));
        NcnPayoutConserves(env.rent, f, N.DistributeNcn(f.ncn.value.router));
      }
    }
  }

  lemma HandoverKeeps(env: Env, f: Flow, i: nat)
    requires ProperEnv(env) && Books(env, f)
    ensures Keeps(env, f, PayRoute(i))
  {
    if NcnOpen(f) && OperatorOpen(f, i) {
      N.PayoutsSound(f.ncn.value.router, env.box, env.operators[i]);
      if N.DistributeRoute(f.ncn.value.router, env.operators[i]).Ok? {
        HandoverSound(env, f, i);
      }
    }
  }

  lemma HandoverSound(env: Env, f: Flow, i: nat)
    requires ProperEnv(env) && Books(env, f) && NcnOpen(f) && OperatorOpen(f, i)
    requires N.DistributeRoute(f.ncn.value.router, env.operators[i]).Ok?
    ensures Apply(env, f, PayRoute(i)).Ok? && Sounds(env, Apply(env, f, PayRoute(i)).value)
  {
    N.PayoutsSound(f.ncn.value.router, env.box, env.operators[i]);
    HandoverConserves(env, f, i);
    var amount := N.DistributeRoute(f.ncn.value.router, env.operators[i]).value.1;
    OperatorSoundReplaced(env, f, i, CreditOperator(f.operators[i].value, amount));
  }

  lemma OperatorPayoutKeeps(env: Env, f: Flow, i: nat)
    requires ProperEnv(env) && Books(env, f)
    ensures Keeps(env, f, PayOperator(i))
    ensures var r := Apply(env, f, PayOperator(i));
            r.Ok? ==> i < |f.operators| && f.operators[i].Some? && r.value.outside == f.outside + f.operators[i].value.router.operatorRewards
  {
    if i < |f.operators| && f.operators[i].Some? {
      var t := f.operators[i].value;
      O.PayoutsSound(t.router, env.snapshots[i], DEFAULT_KEY);
      if !O.StillRouting(t.router) {
        var d := O.DistributeOperator(t.router);
        OperatorPayoutConserves(env.rent, f, i, DEFAULT_KEY, d);
        OperatorSoundReplaced(env, f, i, DebitOperator(t, d.value.0, d.value.1, env.rent).value);
      }
    }
  }

  lemma VaultPayoutKeeps(env: Env, f: Flow, i: nat, vault: Pubkey)
    requires ProperEnv(env) && Books(env, f)
    ensures Keeps(env, f, PayVault(i, vault))
    ensures var r := Apply(env, f, PayVault(i, vault));
            r.Ok? ==> i < |f.operators| && f.operators[i].Some? && r.value.outside == f.outside + RewardFor(f.operators[i].value.router.routes, vault)
  {
    if i < |f.operators| && f.operators[i].Some? {
      var t := f.operators[i].value;
      O.PayoutsSound(t.router, env.snapshots[i], vault);
      var d := O.DistributeVault(t.router, vault);
      if d.Ok? {
        OperatorPayoutConserves(env.rent, f, i, vault, d);
        OperatorSoundReplaced(env, f, i, DebitOperator(t, d.value.0, d.value.1, env.rent).value);
      }
    }
  }

  lemma DepositKeeps(env: Env, f: Flow, step: Step)
    requires ProperEnv(env) && Books(env, f) && (step.DepositNcn? || step.DepositOperator?)
    ensures Keeps(env, f, step)
  {
    if step.DepositOperator? && step.i < |f.operators| && f.operators[step.i].Some? {
      OperatorSoundReplaced(env, f, step.i, CreditOperator(f.operators[step.i].value, step.amount));
    }
  }

  /** Every step keeps the books, and is refused only for the reasons above: no step ever fails
      because a receiver cannot cover a payout, because a subtraction in a router would
      underflow, or because a route list is full. */
  lemma StepKeeps(env: Env, f: Flow, step: Step)
    requires ProperEnv(env) && Books(env, f)
    ensures Keeps(env, f, step)
    ensures Apply(env, f, step).Ok? ==> Books(env, Apply(env, f, step).value) && Supply(Apply(env, f, step).value) == Supply(f)
  {
    if Apply(env, f, step).Ok? {
      StepConserves(env, f, step);
    }
    if step.OpenNcn? {
      OpenNcnKeeps(env, f, step.tier);
    } else if step.OpenOperator? {
      OpenOperatorKeeps(env, f, step.i, step.newTier);
    } else if step.CloseNcn? || step.CloseOperator? {
      CloseKeeps(env, f, step);
    } else if step.DepositNcn? || step.DepositOperator? {
      DepositKeeps(env, f, step);
    } else if step.RouteNcn? {
      RouteNcnKeeps(env, f, step.slot, step.maxIterations);
    } else if step.RouteOperator? {
      RouteOperatorKeeps(env, f, step.i, step.maxIterations);
    } else if step.PayProtocol? || step.PayNcn? {
      NcnPayoutKeeps(env, f);
    } else if step.PayRoute? {
      HandoverKeeps(env, f, step.i);
    } else if step.PayOperator? {
      OperatorPayoutKeeps(env, f, step.i);
    } else {
      VaultPayoutKeeps(env, f, step.i, step.vault);
    }
  }

  // ---------------------------------------------------------------- what a step does

  /** `paid` lamports leave the NCN's receiver. */
  ghost predicate NcnPays(t: NcnTier, t': NcnTier, paid: nat) {
    && paid <= t.balance && t'.balance == t.balance - paid && t'.received == t.received && t'.paid == t.paid + paid
    && paid <= t.router.rewardsProcessed
  }

  ghost predicate OperatorPays(t: OperatorTier, t': OperatorTier, paid: nat) {
    && paid <= t.balance && t'.balance == t.balance - paid && t'.received == t.received && t'.paid == t.paid + paid
    && paid <= t.router.rewardsProcessed
  }

  /** Lamports move from outside to a receiver. */
  ghost predicate NcnReceives(t: NcnTier, t': NcnTier, amount: nat) {
    t' == NcnTier(t.router, t.balance + amount, t.received + amount, t.paid)
  }

  ghost predicate OperatorReceives(t: OperatorTier, t': OperatorTier, amount: nat) {
    t' == OperatorTier(t.router, t.balance + amount, t.received + amount, t.paid)
  }

  /** One key's route is emptied, and no other changes. */
  ghost predicate Emptied(before: seq<Route>, after: seq<Route>, key: Pubkey) {
    forall k :: RewardFor(after, k) == if k == key then 0 else RewardFor(before, k)
  }

  ghost predicate OnlyOperator(f: Flow, f': Flow, i: nat) {
    i < |f.operators| == |f'.operators| && f.operators[i].Some? && f'.operators[i].Some?
    && f'.operators == f.operators[i := f'.operators[i]]
  }

  ghost predicate BothOpen(f: Flow, f': Flow) { f.ncn.Some? && f'.ncn.Some? }

  /** Opening, closing and depositing. */
  lemma MovesLamports(env: Env, f: Flow, step: Step)
    requires Sized(env, f) && Ledger(env.rent, f) && Apply(env, f, step).Ok?
    requires step.OpenNcn? || step.CloseNcn? || step.OpenOperator? || step.CloseOperator? || step.DepositNcn? || step.DepositOperator?
    ensures var f' := Apply(env, f, step).value;
            match step
            case OpenNcn(t) => f.ncn.None? && f'.ncn == Some(t) && f'.operators == f.operators && f'.outside + t.balance == f.outside
            case CloseNcn => f.ncn.Some? && f'.ncn.None? && f'.operators == f.operators && f'.outside == f.outside + f.ncn.value.balance
            case OpenOperator(i, t) =>
              && i < |f.operators| && f.operators[i].None? && f'.operators == f.operators[i := Some(t)] && f'.ncn == f.ncn
              && f'.outside + t.balance == f.outside
            case CloseOperator(i) =>
              && i < |f.operators| && f.operators[i].Some? && f'.operators == f.operators[i := None] && f'.ncn == f.ncn
              && f'.outside == f.outside + f.operators[i].value.balance
            case DepositNcn(amount) =>
              && BothOpen(f, f') && NcnReceives(f.ncn.value, f'.ncn.value, amount)
              && f'.operators == f.operators && f'.outside + amount == f.outside
            case DepositOperator(i, amount) =>
              && OnlyOperator(f, f', i) && OperatorReceives(f.operators[i].value, f'.operators[i].value, amount)
              && f'.ncn == f.ncn && f'.outside + amount == f.outside
            case _ => true
  {
    if step.CloseNcn? {
      ReleaseTakesAll(f.ncn.value.balance, env.rent);
    } else if step.CloseOperator? && f.operators[step.i].Some? {
      ReleaseTakesAll(f.operators[step.i].value.balance, env.rent);
    }
  }

  /** A payout of the first tier to the outside empties one bucket of the router. */
  lemma NcnPaysOut(env: Env, f: Flow)
    requires ProperEnv(env) && Books(env, f)
    ensures var r := Apply(env, f, PayProtocol);
            r.Ok? ==>
              && BothOpen(f, r.value) && r.value.operators == f.operators
              && var t, t' := f.ncn.value, r.value.ncn.value;
                 var paid := t.router.protocolRewards;
                 && NcnPays(t, t', paid) && r.value.outside == f.outside + paid
                 && t'.router == t.router.(protocolRewards := 0, rewardsProcessed := t.router.rewardsProcessed - paid)
    ensures var r := Apply(env, f, PayNcn);
            r.Ok? ==>
              && BothOpen(f, r.value) && r.value.operators == f.operators
              && var t, t' := f.ncn.value, r.value.ncn.value;
                 var paid := t.router.ncnRewards;
                 && NcnPays(t, t', paid) && r.value.outside == f.outside + paid
                 && t'.router == t.router.(ncnRewards := 0, rewardsProcessed := t.router.rewardsProcessed - paid)
  {
    if f.ncn.Some? {
      N.PayoutsSound(f.ncn.value.router, env.box, DEFAULT_KEY);
    }
  }

  /** The handover empties the operator's route in the first tier and credits the second. */
  lemma HandoverMoves(env: Env, f: Flow, i: nat)
    requires ProperEnv(env) && Books(env, f) && Apply(env, f, PayRoute(i)).Ok?
    ensures var f' := Apply(env, f, PayRoute(i)).value;
            && BothOpen(f, f') && OnlyOperator(f, f', i) && f'.outside == f.outside
            && var t, t' := f.ncn.value, f'.ncn.value;
               var paid := RewardFor(t.router.routes, env.operators[i]);
               && NcnPays(t, t', paid) && OperatorReceives(f.operators[i].value, f'.operators[i].value, paid)
               && t'.router == t.router.(routes := t'.router.routes, rewardsProcessed := t.router.rewardsProcessed - paid)
               && Emptied(t.router.routes, t'.router.routes, env.operators[i])
  {
    N.PayoutsSound(f.ncn.value.router, env.box, env.operators[i]);
  }

  /** The payouts of the second tier. */
  lemma OperatorPaysOut(env: Env, f: Flow, i: nat)
    requires ProperEnv(env) && Books(env, f) && Apply(env, f, PayOperator(i)).Ok?
    ensures var f' := Apply(env, f, PayOperator(i)).value;
            && OnlyOperator(f, f', i) && f'.ncn == f.ncn
            && var t, t' := f.operators[i].value, f'.operators[i].value;
               var paid := t.router.operatorRewards;
               && OperatorPays(t, t', paid) && f'.outside == f.outside + paid
               && t'.router == t.router.(operatorRewards := 0, rewardsProcessed := t.router.rewardsProcessed - paid)
  {
    O.PayoutsSound(f.operators[i].value.router, env.snapshots[i], DEFAULT_KEY);
  }

  lemma VaultPaysOut(env: Env, f: Flow, i: nat, vault: Pubkey)
    requires ProperEnv(env) && Books(env, f) && Apply(env, f, PayVault(i, vault)).Ok?
    ensures var f' := Apply(env, f, PayVault(i, vault)).value;
            && OnlyOperator(f, f', i) && f'.ncn == f.ncn
            && var t, t' := f.operators[i].value, f'.operators[i].value;
               var paid := RewardFor(t.router.routes, vault);
               && OperatorPays(t, t', paid) && f'.outside == f.outside + paid
               && t'.router == t.router.(routes := t'.router.routes, rewardsProcessed := t.router.rewardsProcessed - paid)
               && Emptied(t.router.routes, t'.router.routes, vault)
  {
    O.PayoutsSound(f.operators[i].value.router, env.snapshots[i], vault);
  }

  /** A routing call moves no lamports; it changes the router as a started or resumed round does. */
  lemma NcnRoutes(env: Env, f: Flow, slot: nat, maxIterations: nat)
    requires ProperEnv(env) && Books(env, f) && Apply(env, f, RouteNcn(slot, maxIterations)).Ok?
    ensures f.ncn.Some? && Voting.GetWinningTally(env.box).Ok?
    ensures var f' := Apply(env, f, RouteNcn(slot, maxIterations)).value;
            && f'.ncn.Some? && f' == f.(ncn := Some(f.ncn.value.(router := f'.ncn.value.router)))
            && if N.StillRouting(f.ncn.value.router) then N.RoundResumed(f.ncn.value.router, f'.ncn.value.router, env.box, maxIterations)
               else N.RoundStarted(f.ncn.value.router, f'.ncn.value.router, env.rent, f.ncn.value.balance, env.fees, env.box, maxIterations)
  {
    var t := f.ncn.value;
    VotingOverHasWinner(env.box, slot, env.validSlots);
    if N.StillRouting(t.router) {
      N.RouteInstructionResumes(t.router, env.rent, t.balance, env.fees, env.box, slot, env.validSlots, maxIterations);
    } else {
      N.RouteInstructionStarts(t.router, env.rent, t.balance, env.fees, env.box, slot, env.validSlots, maxIterations);
    }
  }

  lemma OperatorRoutes(env: Env, f: Flow, i: nat, maxIterations: nat)
    requires ProperEnv(env) && Books(env, f) && Apply(env, f, RouteOperator(i, maxIterations)).Ok?
    ensures var f' := Apply(env, f, RouteOperator(i, maxIterations)).value;
            && OnlyOperator(f, f', i) && f'.ncn == f.ncn && f'.outside == f.outside
            && var t, t' := f.operators[i].value, f'.operators[i].value;
               && t' == t.(router := t'.router)
               && if O.StillRouting(t.router) then O.RoundResumed(t.router, t'.router, env.snapshots[i], maxIterations)
                  else O.RoundStarted(t.router, t'.router, env.rent, t.balance, env.snapshots[i], maxIterations)
  {
    var t := f.operators[i].value;
    BalancesWithinSupply(f, i);
    if O.StillRouting(t.router) {
      O.RouteRewardsResumes(t.router, env.rent, t.balance, env.snapshots[i], maxIterations);
    } else {
      O.RouteRewardsStarts(t.router, env.rent, t.balance, env.snapshots[i], maxIterations);
    }
  }
}
