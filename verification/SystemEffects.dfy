/** What the moves of the whole system do to lamports and routers, by the accounts as they are. */
module SystemEffects {
  import opened Base
  import opened FeeSchedule
  import opened EpochProtocol
  import opened EpochInvariant
  import opened EndToEnd
  import F = RewardFlow
  import N = NcnRouting
  import O = OperatorRouting

  /** An accepted routing call of the first tier, outside a round: the new lamports are split by the
      fees of the epoch's snapshot, and the pool goes to the winners of the epoch's ballot box.  In
      a round: it goes on. */
  lemma RouteNcnDoes(cfg: Config, p: System, maxIterations: nat)
    requires SystemInv(cfg, p) && Advance(cfg, p, Reward(F.RouteNcn(p.world.slot, maxIterations))).Ok?
    ensures p.world.box.Live? && p.world.snapshot.Some? && p.flow.ncn.Some?
    ensures var p' := Advance(cfg, p, Reward(F.RouteNcn(p.world.slot, maxIterations))).value;
            && p'.flow.ncn.Some?
            && var t, t' := p.flow.ncn.value, p'.flow.ncn.value;
               && p' == p.(flow := p.flow.(ncn := Some(t.(router := t'.router))))
               && if N.StillRouting(t.router) then N.RoundResumed(t.router, t'.router, p.world.box.value, maxIterations)
                  else N.RoundStarted(t.router, t'.router, p.read.rent, t.balance, p.world.snapshot.value.fees, p.world.box.value, maxIterations)
  {
    var step := F.RouteNcn(p.world.slot, maxIterations);
    AdvanceReward(cfg, p, step);
    CurrentMeans(cfg, p, 0);
    F.NcnRoutes(p.read, p.flow, p.world.slot, maxIterations);
  }

  /** An accepted routing call of the second tier, by the operator's snapshot as it is. */
  lemma RouteOperatorDoes(cfg: Config, p: System, i: nat, maxIterations: nat)
    requires SystemInv(cfg, p) && Advance(cfg, p, Reward(F.RouteOperator(i, maxIterations))).Ok?
    ensures i < MAX_OPERATORS && p.world.operators[i].Some? && p.flow.operators[i].Some?
    ensures var p' := Advance(cfg, p, Reward(F.RouteOperator(i, maxIterations))).value;
            && F.OnlyOperator(p.flow, p'.flow, i) && p' == p.(flow := p.flow.(operators := p'.flow.operators))
            && var t, t', s := p.flow.operators[i].value, p'.flow.operators[i].value, p.world.operators[i].value;
               && t' == t.(router := t'.router)
               && if O.StillRouting(t.router) then O.RoundResumed(t.router, t'.router, s, maxIterations)
                  else O.RoundStarted(t.router, t'.router, p.read.rent, t.balance, s, maxIterations)
  {
    AdvanceReward(cfg, p, F.RouteOperator(i, maxIterations));
    CurrentMeans(cfg, p, i);
    F.OperatorRoutes(p.read, p.flow, i, maxIterations);
  }

  /** With every account there, every reward instruction at the current slot finds what it loads;
      and without an epoch state none does but a deposit. */
  lemma GateOpensWhenAllIsThere(w: World, step: F.Step)
    requires |w.operators| == |w.operatorRouters| == MAX_OPERATORS
    requires !step.OpenNcn? && !step.CloseNcn? && !step.OpenOperator? && !step.CloseOperator?
    ensures w.state.Some? && w.snapshot.Some? && w.box.Live? && w.router.Live?
            && (forall i :: 0 <= i < MAX_OPERATORS ==> w.operators[i].Some? && w.operatorRouters[i])
            && (step.RouteNcn? ==> step.slot == w.slot)
            && (step.RouteOperator? || step.PayRoute? || step.PayOperator? || step.PayVault? ==> step.i < MAX_OPERATORS)
            ==> Gate(w, step)
    ensures Gate(w, step) && !step.DepositNcn? && !step.DepositOperator? ==> w.state.Some?
  {
  }

  /** An update of the fees takes effect in the next epoch of the clock and leaves this one alone. */
  lemma UpdateFeesDoes(cfg: Config, p: System, bps: Option<nat>, wallet: Option<Pubkey>)
    requires Fitting(cfg, p) && Advance(cfg, p, UpdateFees(bps, wallet)).Ok?
    requires InSchedule(p.config, cfg.timing.epochOf(p.world.slot))
    ensures var p', now := Advance(cfg, p, UpdateFees(bps, wallet)).value, cfg.timing.epochOf(p.world.slot);
            && p' == p.(config := p'.config)
            && CurrentFees(p'.config, now) == CurrentFees(p.config, now)
            && CurrentFees(p'.config, now + 1).ncnBps == (if bps.Some? then bps.value else CurrentFees(p.config, now + 1).ncnBps)
            && p'.config.ncnWallet == (if wallet.Some? then wallet.value else p.config.ncnWallet)
  {
    UpdateSchedules(p.config, bps, wallet, cfg.timing.epochOf(p.world.slot));
  }

  /** A new epoch snapshot carries the fees in force in its own epoch. */
  lemma SnapshotTakesFees(cfg: Config, p: System, operatorCount: nat, fees: Fees, n: F.NcnTier, o: F.OperatorTier)
    requires Fitting(cfg, p) && Advance(cfg, p, Epoch(InitializeEpochSnapshot(operatorCount, fees), n, o)).Ok?
    ensures var p' := Advance(cfg, p, Epoch(InitializeEpochSnapshot(operatorCount, fees), n, o)).value;
            && p'.world.snapshot.Some? && p'.world.snapshot.value.fees == CurrentFees(p.config, cfg.epoch)
            && p'.flow == p.flow && p'.config == p.config
  {
    FlagAndFeesChange(cfg, p.world, InitializeEpochSnapshot(operatorCount, CurrentFees(p.config, cfg.epoch)));
    SnapshotAppears(cfg, p.world, InitializeEpochSnapshot(operatorCount, CurrentFees(p.config, cfg.epoch)));
  }

  lemma SnapshotAppears(cfg: Config, w: World, ins: Instruction)
    requires ProperConfig(cfg) && Shaped(w) && ins.InitializeEpochSnapshot? && Apply(cfg, w, ins).Ok?
    ensures Apply(cfg, w, ins).value.snapshot.Some?
  {
  }

  /** Receivers open and close with their routers: the receiver that is opened is the one created,
      and a closed one leaves with all its lamports. */
  lemma ReceiversFollowRouters(cfg: Config, p: System, move: Move)
    requires Fitting(cfg, p) && F.Ledger(p.read.rent, p.flow) && move.Epoch? && Advance(cfg, p, move).Ok?
    ensures var p' := Advance(cfg, p, move).value;
            && (p'.world.router.Live? && !p.world.router.Live? ==>
                  p'.flow == p.flow.(ncn := Some(move.ncnTier), outside := p'.flow.outside) && p'.flow.outside + move.ncnTier.balance == p.flow.outside)
            && (p.world.router.Live? && !p'.world.router.Live? ==>
                  p.flow.ncn.Some? && p'.flow == p.flow.(ncn := None, outside := p.flow.outside + p.flow.ncn.value.balance))
            && (p'.world.router.Live? == p.world.router.Live? && p'.world.operatorRouters == p.world.operatorRouters ==> p'.flow == p.flow)
  {
    var ins := WithFees(cfg, p.config, move.ins);
    var w' := Apply(cfg, p.world, ins).value;
    RoutersChange(cfg, p.world, ins);
    FlagsDiffer(cfg, p.world, ins);
    CompanionMoves(cfg, p, move, w');
  }

  /** An operator's receiver, likewise. */
  lemma OperatorReceiversFollow(cfg: Config, p: System, move: Move, i: nat)
    requires Fitting(cfg, p) && F.Ledger(p.read.rent, p.flow) && move.Epoch? && Advance(cfg, p, move).Ok? && i < MAX_OPERATORS
    ensures var p' := Advance(cfg, p, move).value;
            && (p'.world.operatorRouters[i] && !p.world.operatorRouters[i] ==>
                  && p'.flow.ncn == p.flow.ncn && p'.flow.operators == p.flow.operators[i := Some(move.operatorTier)]
                  && p'.flow.outside + move.operatorTier.balance == p.flow.outside)
            && (p.world.operatorRouters[i] && !p'.world.operatorRouters[i] ==>
                  && p.flow.operators[i].Some? && p'.flow.ncn == p.flow.ncn && p'.flow.operators == p.flow.operators[i := None]
                  && p'.flow.outside == p.flow.outside + p.flow.operators[i].value.balance)
  {
    var ins := WithFees(cfg, p.config, move.ins);
    var w' := Apply(cfg, p.world, ins).value;
    RoutersChange(cfg, p.world, ins);
    CompanionMoves(cfg, p, move, w');
  }

  /** What the companion of an instruction does to the flow. */
  lemma CompanionMoves(cfg: Config, p: System, move: Move, w': World)
    requires Fitting(cfg, p) && F.Ledger(p.read.rent, p.flow) && move.Epoch? && Advance(cfg, p, move).Ok?
    requires Apply(cfg, p.world, WithFees(cfg, p.config, move.ins)) == Ok(w')
    ensures var f, f' := p.flow, Advance(cfg, p, move).value.flow;
            match Companion(p.world, w', move)
            case None => f' == f
            case Some(OpenNcn(t)) => f' == f.(ncn := Some(t), outside := f'.outside) && f'.outside + t.balance == f.outside
            case Some(CloseNcn) => f.ncn.Some? && f' == f.(ncn := None, outside := f.outside + f.ncn.value.balance)
            case Some(OpenOperator(i, t)) =>
              i < |f.operators| && f' == f.(operators := f.operators[i := Some(t)], outside := f'.outside) && f'.outside + t.balance == f.outside
            case Some(CloseOperator(i)) =>
              i < |f.operators| && f.operators[i].Some?
              && f' == f.(operators := f.operators[i := None], outside := f.outside + f.operators[i].value.balance)
            case _ => true
  {
    var step := Companion(p.world, w', move);
    if step.Some? {
      F.MovesLamports(p.read, p.flow, step.value);
    }
  }

  lemma FlagsDiffer(cfg: Config, w: World, ins: Instruction)
    requires ProperConfig(cfg) && Shaped(w) && Apply(cfg, w, ins).Ok?
    ensures ins.InitializeOperatorRouter? ==> !w.operatorRouters[ins.i] && Apply(cfg, w, ins).value.operatorRouters[ins.i]
    ensures ClosesOperatorRouter(ins) ==> w.operatorRouters[ins.target.i] && !Apply(cfg, w, ins).value.operatorRouters[ins.target.i]
  {
  }
}
