/** The whole system as one: the epoch's instructions, the fee updates, and the deposits, routing
    calls and payouts of both reward tiers, in any order.  Reward instructions read the ballot
    box, the snapshots and the fees as the epoch's instructions have left them. */
module EndToEnd {
  import opened Base
  import opened Voting
  import opened Snapshots
  import opened FeeSchedule
  import opened EpochProtocol
  import opened EpochInvariant
  import T = EpochTheorems
  import F = RewardFlow
  import N = NcnRouting
  import O = OperatorRouting

  /** `read` is what reward instructions find in the accounts they read, or last found there
      before an account was closed. */
  datatype System = System(world: World, flow: F.Flow, config: FeeConfig, read: F.Env)

  /** An instruction of the epoch comes with the tiers that it creates, if it creates any.
      `UpdateFees` is a call of the configuration's own update, which no instruction makes yet. */
  datatype Move =
    | Epoch(ins: Instruction, ncnTier: F.NcnTier, operatorTier: F.OperatorTier)
    | UpdateFees(bps: Option<nat>, wallet: Option<Pubkey>)
    | Reward(step: F.Step)

  ghost predicate Fitting(cfg: Config, p: System) {
    && ProperConfig(cfg) && Shaped(p.world)
    && |p.flow.operators| == |p.read.operators| == |p.read.snapshots| == MAX_OPERATORS
  }

  /** What is there now, and for what is gone, what was there last. */
  function Look(cfg: Config, read: F.Env, w: World): (read': F.Env)
    requires ProperConfig(cfg) && Shaped(w) && |read.snapshots| == MAX_OPERATORS
    ensures |read'.operators| == |read'.snapshots| == MAX_OPERATORS && read'.rent == read.rent
  {
    F.Env(read.rent,
          if w.snapshot.Some? then w.snapshot.value.fees else read.fees,
          if w.box.Live? then w.box.value else read.box,
          cfg.timing.validSlots, cfg.operators,
          seq(MAX_OPERATORS, i requires 0 <= i < MAX_OPERATORS =>
            if w.operators[i].Some? then w.operators[i].value else read.snapshots[i]))
  }

  /** A new epoch snapshot takes the fees of its epoch from the configuration. */
  function WithFees(cfg: Config, config: FeeConfig, ins: Instruction): Instruction {
    if ins.InitializeEpochSnapshot? then ins.(fees := CurrentFees(config, cfg.epoch)) else ins
  }

  /** The receivers that an accepted instruction opens or closes. */
  function Companion(w: World, w': World, move: Move): Option<F.Step>
    requires move.Epoch?
  {
    match move.ins
    case ReallocRouter(_) => if !w.router.Live? && w'.router.Live? then Some(F.OpenNcn(move.ncnTier)) else None
    case InitializeOperatorRouter(i) => Some(F.OpenOperator(i, move.operatorTier))
    case CloseAccount(RouterAccount) => Some(F.CloseNcn)
    case CloseAccount(OperatorRouterAccount(i)) => Some(F.CloseOperator(i))
    case _ => None
  }

  /** The accounts that a reward instruction loads. */
  predicate Gate(w: World, step: F.Step)
    requires |w.operators| == |w.operatorRouters| == MAX_OPERATORS
  {
    match step
    case OpenNcn(_) => false
    case CloseNcn => false
    case OpenOperator(_, _) => false
    case CloseOperator(_) => false
    case DepositNcn(_) => true
    case DepositOperator(_, _) => true
    case RouteNcn(slot, _) => w.state.Some? && w.snapshot.Some? && w.router.Live? && w.box.Live? && slot == w.slot
    case RouteOperator(i, _) => w.state.Some? && i < MAX_OPERATORS && w.operators[i].Some? && w.operatorRouters[i]
    case PayProtocol => w.state.Some? && w.router.Live?
    case PayNcn => w.state.Some? && w.router.Live?
    case PayRoute(i) => w.state.Some? && w.router.Live? && i < MAX_OPERATORS && w.operatorRouters[i]
    case PayOperator(i) => w.state.Some? && i < MAX_OPERATORS && w.operators[i].Some? && w.operatorRouters[i]
    case PayVault(i, _) => w.state.Some? && i < MAX_OPERATORS && w.operators[i].Some? && w.operatorRouters[i]
  }

  function Advance(cfg: Config, p: System, move: Move): (r: Result<System>)
    requires Fitting(cfg, p)
    ensures r.Ok? ==> Fitting(cfg, r.value) && r.value.read.rent == p.read.rent
  {
    match move
    case Epoch(ins, _, _) =>
      var w :- Apply(cfg, p.world, WithFees(cfg, p.config, ins));
      var step := Companion(p.world, w, move);
      var flow :- if step.Some? then F.Apply(p.read, p.flow, step.value) else Ok(p.flow);
      Ok(System(w, flow, p.config, Look(cfg, p.read, w)))
    case UpdateFees(bps, wallet) =>
      var config :- UpdateFeeConfig(p.config, bps, wallet, cfg.timing.epochOf(p.world.slot));
      Ok(p.(config := config))
    case Reward(step) =>
      if !Gate(p.world, step) then Err(InvalidAccount)
      else
        var flow :- F.Apply(p.read, p.flow, step);
        Ok(p.(flow := flow))
  }

  /** Refused instructions are rolled back. */
  ghost function Run(cfg: Config, p: System, moves: seq<Move>): (p': System)
    requires Fitting(cfg, p)
    ensures Fitting(cfg, p') && p'.read.rent == p.read.rent
  {
    if |moves| == 0 then p
    else
      var m := Run(cfg, p, moves[..|moves| - 1]);
      var r := Advance(cfg, m, moves[|moves| - 1]);
      if r.Ok? then r.value else m
  }

  // ---------------------------------------------------------------- conservation

  lemma MoveConserves(cfg: Config, p: System, move: Move)
    requires Fitting(cfg, p) && F.Ledger(p.read.rent, p.flow) && Advance(cfg, p, move).Ok?
    ensures F.Conserves(p.read.rent, p.flow, Advance(cfg, p, move).value.flow)
  {
    if move.Reward? {
      F.StepConserves(p.read, p.flow, move.step);
    } else if move.Epoch? {
      var w := Apply(cfg, p.world, WithFees(cfg, p.config, move.ins)).value;
      var step := Companion(p.world, w, move);
      if step.Some? {
        F.StepConserves(p.read, p.flow, step.value);
      }
    }
  }

  /** Over every run of the whole system, with any interleaving, any registrations in the middle
      of rounds and any closes from other epochs: the books of every open receiver are right, and
      no lamport is created or lost. */
  lemma {:induction false} EveryRunConserves(cfg: Config, p: System, moves: seq<Move>)
    requires Fitting(cfg, p) && F.Ledger(p.read.rent, p.flow)
    ensures F.Conserves(p.read.rent, p.flow, Run(cfg, p, moves).flow)
  {
    if |moves| > 0 {
      var front, move := moves[..|moves| - 1], moves[|moves| - 1];
      EveryRunConserves(cfg, p, front);
      var m := Run(cfg, p, front);
      if Advance(cfg, m, move).Ok? {
        MoveConserves(cfg, m, move);
      }
    }
  }

  // ---------------------------------------------------------------- what is read

  /** Reward instructions read the accounts as they are. */
  ghost predicate Current(cfg: Config, p: System)
    requires Fitting(cfg, p)
  {
    p.read == Look(cfg, p.read, p.world)
  }

  lemma LookTwice(cfg: Config, read: F.Env, w: World)
    requires ProperConfig(cfg) && Shaped(w) && |read.snapshots| == MAX_OPERATORS
    ensures Look(cfg, Look(cfg, read, w), w) == Look(cfg, read, w)
  {
    assert Look(cfg, Look(cfg, read, w), w).snapshots == Look(cfg, read, w).snapshots;
  }

  lemma CurrentMeans(cfg: Config, p: System, i: nat)
    requires Fitting(cfg, p) && Current(cfg, p)
    ensures p.read.validSlots == cfg.timing.validSlots && p.read.operators == cfg.operators
    ensures p.world.box.Live? ==> p.read.box == p.world.box.value
    ensures p.world.snapshot.Some? ==> p.read.fees == p.world.snapshot.value.fees
    ensures i < MAX_OPERATORS && p.world.operators[i].Some? ==> p.read.snapshots[i] == p.world.operators[i].value
  {
    if i < MAX_OPERATORS {
      assert Look(cfg, p.read, p.world).snapshots[i] ==
        if p.world.operators[i].Some? then p.world.operators[i].value else p.read.snapshots[i];
    }
  }

  lemma MoveKeepsCurrent(cfg: Config, p: System, move: Move)
    requires Fitting(cfg, p) && Current(cfg, p) && Advance(cfg, p, move).Ok?
    ensures Current(cfg, Advance(cfg, p, move).value)
  {
    if move.Epoch? {
      LookTwice(cfg, p.read, Apply(cfg, p.world, WithFees(cfg, p.config, move.ins)).value);
    }
  }

  // ---------------------------------------------------------------- the invariant

  /** A receiver is open exactly while its router exists. */
  ghost predicate Linked(w: World, f: F.Flow)
    requires |w.operatorRouters| == |f.operators| == MAX_OPERATORS
  {
    && (f.ncn.Some? <==> w.router.Live?)
    && (forall i :: 0 <= i < MAX_OPERATORS ==> (f.operators[i].Some? <==> w.operatorRouters[i]))
  }

  /** A router that has shared out nothing yet. */
  predicate Blank(r: N.Router) { !N.StillRouting(r) && r.routes == [] }

  /** Once the NCN's router has shared out anything, the ballot box it reads is fixed or gone. */
  ghost predicate BoxFixed(cfg: Config, w: World, f: F.Flow) {
    f.ncn.Some? && !Blank(f.ncn.value.router) ==>
      T.BoxGone(w) || (T.VotingOver(cfg, w) && w.result.Some?)
  }

  /** An operator's router outlives its snapshot only when the epoch is closing. */
  ghost predicate SeatsKept(w: World)
    requires |w.operators| == |w.operatorRouters| == MAX_OPERATORS
  {
    w.state.Some? && !w.state.value.isClosing ==>
      forall i :: 0 <= i < MAX_OPERATORS && w.operatorRouters[i] ==> w.operators[i].Some?
  }

  ghost predicate SlotsOkay(c: FeeConfig) { SlotOkay(c.fee1) && SlotOkay(c.fee2) }

  ghost predicate SystemInv(cfg: Config, p: System) {
    && Fitting(cfg, p) && Inv(cfg, p.world) && Current(cfg, p)
    && Linked(p.world, p.flow) && BoxFixed(cfg, p.world, p.flow) && SeatsKept(p.world) && SlotsOkay(p.config)
    && F.ProperEnv(p.read) && F.Books(p.read, p.flow)
  }

  /** Inputs that other programs guarantee. */
  ghost predicate ProperMove(move: Move) {
    move.Epoch? ==>
      && ProperInstruction(move.ins)
      && (move.ins.SnapshotDelegation? ==> move.ins.entry.vault != DEFAULT_KEY)
      && (move.ins.InitializeOperatorSnapshot? ==> move.ins.feeBps <= MAX_FEE_BPS)
  }

  /** The two moves that can break the invariant: losing the epoch state to another epoch's
      close while the epoch has accounts, and registering a delegation in the middle of its operator's routing round. */
  ghost predicate Harmless(cfg: Config, p: System, move: Move)
    requires Fitting(cfg, p)
  {
    move.Epoch? && Advance(cfg, p, move).Ok? ==>
      && (move.ins.LoseState? ==> Dormant(p.world))
      && (move.ins.SnapshotDelegation? && move.ins.i < MAX_OPERATORS && p.flow.operators[move.ins.i].Some? ==>
            !O.StillRouting(p.flow.operators[move.ins.i].value.router))
  }

  // ---------------------------------------------------------------- reward moves

  /** Payouts and deposits leave a blank router blank. */
  lemma BlankStaysBlank(env: F.Env, f: F.Flow, step: F.Step)
    requires F.Sized(env, f) && F.Apply(env, f, step).Ok? && f.ncn.Some? && Blank(f.ncn.value.router)
    requires !step.RouteNcn? && !step.OpenNcn? && !step.CloseNcn?
    ensures var f' := F.Apply(env, f, step).value;
            f'.ncn.Some? && Blank(f'.ncn.value.router)
  {
  }

  lemma RewardKeepsTiers(env: F.Env, f: F.Flow, step: F.Step)
    requires F.Sized(env, f) && F.Apply(env, f, step).Ok?
    requires !step.OpenNcn? && !step.CloseNcn? && !step.OpenOperator? && !step.CloseOperator?
    ensures var f' := F.Apply(env, f, step).value;
            && (f'.ncn.Some? <==> f.ncn.Some?)
            && forall i :: 0 <= i < |f.operators| ==> (f'.operators[i].Some? <==> f.operators[i].Some?)
  {
  }

  lemma RewardKeeps(cfg: Config, p: System, step: F.Step)
    requires SystemInv(cfg, p) && Advance(cfg, p, Reward(step)).Ok?
    ensures SystemInv(cfg, Advance(cfg, p, Reward(step)).value)
  {
    F.StepKeeps(p.read, p.flow, step);
    RewardKeepsTiers(p.read, p.flow, step);
    RewardKeepsFixed(cfg, p, step);
  }

  lemma RewardKeepsFixed(cfg: Config, p: System, step: F.Step)
    requires Fitting(cfg, p) && Current(cfg, p) && BoxFixed(cfg, p.world, p.flow) && (p.world.box.Live? ==> p.world.result.Some?)
    requires Advance(cfg, p, Reward(step)).Ok?
    ensures BoxFixed(cfg, p.world, Advance(cfg, p, Reward(step)).value.flow)
  {
    if step.RouteNcn? {
      assert T.VotingOver(cfg, p.world);
    } else if p.flow.ncn.Some? && Blank(p.flow.ncn.value.router) {
      BlankStaysBlank(p.read, p.flow, step);
    }
  }

  /** Why a reward instruction is refused, if it is: an account it loads does not exist, or the
      reason that the tiers give. */
  function RewardRefusal(w: World, read: F.Env, f: F.Flow, step: F.Step): Option<Error>
    requires |w.operators| == |w.operatorRouters| == |f.operators| == |read.operators| == |read.snapshots| == MAX_OPERATORS
  {
    if !Gate(w, step) then Some(InvalidAccount) else F.Refusal(read, f, step)
  }

  /** Nothing gets stuck: every reward instruction is accepted unless there is one of the listed
      reasons, and refused for exactly that reason. */
  lemma RewardRefusedExactlyWhen(cfg: Config, p: System, step: F.Step)
    requires Fitting(cfg, p) && F.ProperEnv(p.read) && F.Books(p.read, p.flow)
    ensures match RewardRefusal(p.world, p.read, p.flow, step)
            case None => Advance(cfg, p, Reward(step)).Ok?
            case Some(e) => Advance(cfg, p, Reward(step)) == Err(e)
  {
    AdvanceReward(cfg, p, step);
    if Gate(p.world, step) {
      F.StepKeeps(p.read, p.flow, step);
    }
  }

  lemma AdvanceReward(cfg: Config, p: System, step: F.Step)
    requires Fitting(cfg, p)
    ensures Advance(cfg, p, Reward(step)) ==
            if !Gate(p.world, step) then Err(InvalidAccount)
            else match F.Apply(p.read, p.flow, step)
                 case Ok(flow) => Ok(p.(flow := flow))
                 case Err(e) => Err(e)
  {
  }

  /** An instruction whose accounts exist finds its receivers open: with the accounts there, a
      missing receiver is not among the reasons. */
  lemma GateFindsTiers(p: System, step: F.Step)
    requires |p.world.operators| == |p.world.operatorRouters| == |p.flow.operators| == MAX_OPERATORS && Linked(p.world, p.flow)
    requires |p.read.operators| == |p.read.snapshots| == MAX_OPERATORS
    requires Gate(p.world, step) && !step.DepositNcn? && !step.DepositOperator?
    ensures F.Refusal(p.read, p.flow, step) != Some(InvalidAccount)
  {
  }

  // ---------------------------------------------------------------- fee updates

  /** An accepted update, at whatever epoch, keeps both slots within bounds. */
  lemma UpdateKeepsSlots(c: FeeConfig, bps: Option<nat>, wallet: Option<Pubkey>, epoch: nat)
    requires SlotsOkay(c) && UpdateFeeConfig(c, bps, wallet, epoch).Ok?
    ensures SlotsOkay(UpdateFeeConfig(c, bps, wallet, epoch).value)
  {
  }

  // ---------------------------------------------------------------- moves of the epoch

  predicate ClosesOperatorRouter(ins: Instruction) { ins.CloseAccount? && ins.target.OperatorRouterAccount? }

  /** What an instruction does to the routers. */
  lemma RoutersChange(cfg: Config, w: World, ins: Instruction)
    requires ProperConfig(cfg) && Shaped(w) && Apply(cfg, w, ins).Ok?
    ensures var w' := Apply(cfg, w, ins).value;
            && (ins.ReallocRouter? ==> w.router.Live? ==> w'.router.Live?)
            && (ins == CloseAccount(RouterAccount) ==> w.router.Live? && !w'.router.Live?)
            && (!ins.ReallocRouter? && ins != CloseAccount(RouterAccount) ==> w'.router.Live? == w.router.Live?)
            && (ins.InitializeOperatorRouter? ==>
                  && ins.i < MAX_OPERATORS && w.operators[ins.i].Some? && w'.operators == w.operators
                  && w'.operatorRouters == w.operatorRouters[ins.i := true])
            && (ClosesOperatorRouter(ins) ==> ins.target.i < MAX_OPERATORS && w'.operatorRouters == w.operatorRouters[ins.target.i := false])
            && (!ins.InitializeOperatorRouter? && !ClosesOperatorRouter(ins) ==> w'.operatorRouters == w.operatorRouters)
  {
  }

  /** What opening and closing do to the tiers. */
  lemma TiersChange(env: F.Env, f: F.Flow, step: F.Step)
    requires F.Sized(env, f) && F.Apply(env, f, step).Ok?
    requires step.OpenNcn? || step.CloseNcn? || step.OpenOperator? || step.CloseOperator?
    ensures var f' := F.Apply(env, f, step).value;
            match step
            case OpenNcn(t) => f.ncn.None? && f'.ncn == Some(t) && N.IsNew(t.router) && f'.operators == f.operators
            case CloseNcn => f'.ncn == None && f'.operators == f.operators
            case OpenOperator(i, t) =>
              && i < |f.operators| && f.operators[i].None? && f'.operators == f.operators[i := Some(t)]
              && O.IsNew(t.router) && f'.ncn == f.ncn
            case CloseOperator(i) => i < |f.operators| && f'.operators == f.operators[i := None] && f'.ncn == f.ncn
            case _ => true
  {
  }

  lemma EpochKeepsLinked(cfg: Config, p: System, move: Move)
    requires Fitting(cfg, p) && move.Epoch? && Linked(p.world, p.flow) && Advance(cfg, p, move).Ok?
    ensures var p' := Advance(cfg, p, move).value;
            && Linked(p'.world, p'.flow)
            && (p'.flow.ncn == p.flow.ncn || p'.flow.ncn.None? || (p.flow.ncn.None? && N.IsNew(p'.flow.ncn.value.router)))
            && forall i :: 0 <= i < MAX_OPERATORS ==>
                 || p'.flow.operators[i] == p.flow.operators[i] || p'.flow.operators[i].None?
                 || (p.flow.operators[i].None? && O.IsNew(p'.flow.operators[i].value.router))
  {
    var ins := WithFees(cfg, p.config, move.ins);
    RoutersChange(cfg, p.world, ins);
    var step := Companion(p.world, Apply(cfg, p.world, ins).value, move);
    if step.Some? {
      TiersChange(p.read, p.flow, step.value);
    }
  }

  lemma EpochKeepsSeats(cfg: Config, w: World, ins: Instruction)
    requires Inv(cfg, w) && SeatsKept(w) && Apply(cfg, w, ins).Ok?
    ensures SeatsKept(Apply(cfg, w, ins).value)
  {
    RoutersChange(cfg, w, ins);
    OperatorsChange(cfg, w, ins);
    FlagAndFeesChange(cfg, w, ins);
  }

  /** What an instruction does to the operators' snapshots. */
  lemma OperatorsChange(cfg: Config, w: World, ins: Instruction)
    requires ProperConfig(cfg) && Shaped(w) && Apply(cfg, w, ins).Ok?
    ensures var w' := Apply(cfg, w, ins).value;
            && (ins.InitializeOperatorSnapshot? ==>
                  && ins.i < MAX_OPERATORS && w.operators[ins.i].None? && w.state.Some? && !w.state.value.isClosing
                  && w'.operators[ins.i].Some? && w'.operators == w.operators[ins.i := w'.operators[ins.i]]
                  && w'.operators[ins.i].value.entries == []
                  && w'.operators[ins.i].value.feeBps == if ins.isActive then ins.feeBps else 0)
            && (ins.SnapshotDelegation? ==>
                  && ins.i < MAX_OPERATORS && w.operators[ins.i].Some?
                  && w'.operators[ins.i].Some? && w'.operators == w.operators[ins.i := w'.operators[ins.i]]
                  && w'.operators[ins.i].value.entries == w.operators[ins.i].value.entries + [ins.entry]
                  && w'.operators[ins.i].value.feeBps == w.operators[ins.i].value.feeBps)
            && (ins.CloseAccount? ==> forall i :: 0 <= i < MAX_OPERATORS ==> w'.operators[i] == w.operators[i] || w'.operators[i].None?)
            && (!ins.InitializeOperatorSnapshot? && !ins.SnapshotDelegation? && !ins.CloseAccount? ==> w'.operators == w.operators)
  {
  }

  /** What an instruction does to the closing flag and the fees. */
  lemma FlagAndFeesChange(cfg: Config, w: World, ins: Instruction)
    requires ProperConfig(cfg) && Shaped(w) && Apply(cfg, w, ins).Ok?
    ensures var w' := Apply(cfg, w, ins).value;
            && (ins.CloseAccount? && w'.state.Some? ==> w'.state.value.isClosing)
            && (!ins.InitializeEpochState? && !ins.CloseAccount? && !ins.LoseState? && w.state.Some? ==>
                  w'.state.Some? && w'.state.value.isClosing == w.state.value.isClosing)
            && (w.state.None? && !ins.InitializeEpochState? ==> w'.state.None?)
            && (w'.snapshot.Some? ==>
                  if ins.InitializeEpochSnapshot? then w'.snapshot.value.fees == ins.fees
                  else w.snapshot.Some? && w'.snapshot.value.fees == w.snapshot.value.fees)
  {
  }

  /** Once something has been shared out, the box that is read stays the same. */
  lemma EpochKeepsBox(cfg: Config, w: World, ins: Instruction)
    requires Inv(cfg, w) && Apply(cfg, w, ins).Ok?
    requires T.BoxGone(w) || (T.VotingOver(cfg, w) && w.result.Some?)
    ensures var w' := Apply(cfg, w, ins).value;
            && (T.BoxGone(w') || (T.VotingOver(cfg, w') && w'.result.Some?))
            && (w'.box.Live? ==> w'.box == w.box)
  {
    if T.BoxGone(w) {
      T.GoneStaysGone(cfg, w, ins);
    } else {
      T.BoxStep(cfg, w, ins);
    }
  }

  // ---------------------------------------------------------------- reading something else

  lemma BlankIsSound(r: N.Router, b: Box, b': Box)
    requires N.Sound(r, b) && Blank(r)
    ensures N.Sound(r, b')
  {
  }

  /** A snapshot that has grown by an entry suits every idle router that suited it before. */
  lemma IdleSuitsGrown(r: O.Router, s: OperatorSnapshot, s': OperatorSnapshot, e: Entry)
    requires O.Sound(r, s) && !O.StillRouting(r) && s'.entries == s.entries + [e]
    ensures O.Sound(r, s')
  {
    forall k | k in O.Vaults(s)
      ensures k in O.Vaults(s')
    {
      var i :| 0 <= i < |s.entries| && s.entries[i].vault == k;
      assert s'.entries[i].vault == k;
    }
  }

  /** How an instruction changes what is read of one operator. */
  ghost predicate ReadChange(f: F.Flow, ins: Instruction, i: nat, s: OperatorSnapshot, s': OperatorSnapshot)
    requires i < |f.operators|
  {
    || s' == s
    || (ins.InitializeOperatorSnapshot? && ins.i == i && f.operators[i].None?)
    || (ins.SnapshotDelegation? && ins.i == i && s'.entries == s.entries + [ins.entry])
  }

  lemma OperatorRead(cfg: Config, p: System, ins: Instruction, i: nat)
    requires SystemInv(cfg, p) && Apply(cfg, p.world, ins).Ok? && i < MAX_OPERATORS
    ensures ReadChange(p.flow, ins, i, p.read.snapshots[i], Look(cfg, p.read, Apply(cfg, p.world, ins).value).snapshots[i])
  {
    OperatorsChange(cfg, p.world, ins);
    CurrentMeans(cfg, p, i);
  }

  /** A snapshot that an instruction has made or extended has its stake as the sum of its entries. */
  lemma MadeIsBacked(cfg: Config, w: World, ins: Instruction, w': World)
    requires ProperConfig(cfg) && Shaped(w) && Apply(cfg, w, ins) == Ok(w') && Inv(cfg, w')
    requires ins.InitializeOperatorSnapshot? && ins.feeBps <= MAX_FEE_BPS
    ensures ins.i < MAX_OPERATORS && w'.operators[ins.i].Some? && O.Backed(w'.operators[ins.i].value)
  {
    OperatorsChange(cfg, w, ins);
    FlagAndFeesChange(cfg, w, ins);
    OpenSnapshotsAccounted(cfg, w', ins.i);
  }

  lemma ExtendedIsBacked(cfg: Config, w: World, ins: Instruction, w': World)
    requires Inv(cfg, w) && Apply(cfg, w, ins) == Ok(w') && Inv(cfg, w')
    requires ins.SnapshotDelegation? && ins.entry.vault != DEFAULT_KEY
    requires ins.i < MAX_OPERATORS && w.operators[ins.i].Some? ==> O.Backed(w.operators[ins.i].value)
    ensures ins.i < MAX_OPERATORS && w'.operators[ins.i].Some? && O.Backed(w'.operators[ins.i].value)
  {
    OperatorsChange(cfg, w, ins);
    DelegationMirror(cfg, w, ins.i, ins.entry);
    FlagAndFeesChange(cfg, w, ins);
    OpenSnapshotsAccounted(cfg, w', ins.i);
  }

  lemma NewReadIsBacked(cfg: Config, p: System, ins: Instruction, w': World)
    requires SystemInv(cfg, p) && Apply(cfg, p.world, ins) == Ok(w') && Inv(cfg, w')
    requires ins.InitializeOperatorSnapshot? || ins.SnapshotDelegation?
    requires ins.SnapshotDelegation? ==> ins.entry.vault != DEFAULT_KEY
    requires ins.InitializeOperatorSnapshot? ==> ins.feeBps <= MAX_FEE_BPS
    ensures ins.i < MAX_OPERATORS && w'.operators[ins.i].Some? && O.Backed(w'.operators[ins.i].value)
  {
    if ins.InitializeOperatorSnapshot? {
      MadeIsBacked(cfg, p.world, ins, w');
    } else {
      CurrentMeans(cfg, p, ins.i);
      ExtendedIsBacked(cfg, p.world, ins, w');
    }
  }

  lemma OpenSnapshotsAccounted(cfg: Config, w: World, i: nat)
    requires Inv(cfg, w) && w.state.Some? && !w.state.value.isClosing && i < MAX_OPERATORS && w.operators[i].Some?
    ensures w.weights.Live? && Accounted(w.operators[i].value, Registry(w.weights.value))
  {
  }

  lemma ReadStaysBacked(cfg: Config, p: System, ins: Instruction, w': World, i: nat)
    requires SystemInv(cfg, p) && Apply(cfg, p.world, ins) == Ok(w') && i < MAX_OPERATORS
    requires (ins.InitializeOperatorSnapshot? || ins.SnapshotDelegation?) && ins.i == i && w'.operators[i].Some? ==>
               O.Backed(w'.operators[i].value)
    ensures O.Backed(Look(cfg, p.read, w').snapshots[i])
  {
    OperatorsChange(cfg, p.world, ins);
    CurrentMeans(cfg, p, i);
    assert O.Backed(p.read.snapshots[i]);
  }

  lemma ReadsAreBacked(cfg: Config, p: System, ins: Instruction, w': World)
    requires SystemInv(cfg, p) && Apply(cfg, p.world, ins) == Ok(w') && Inv(cfg, w')
    requires ins.SnapshotDelegation? ==> ins.entry.vault != DEFAULT_KEY
    requires ins.InitializeOperatorSnapshot? ==> ins.feeBps <= MAX_FEE_BPS
    ensures forall i :: 0 <= i < MAX_OPERATORS ==> O.Backed(Look(cfg, p.read, w').snapshots[i])
  {
    if ins.InitializeOperatorSnapshot? || ins.SnapshotDelegation? {
      NewReadIsBacked(cfg, p, ins, w');
    }
    forall i | 0 <= i < MAX_OPERATORS
      ensures O.Backed(Look(cfg, p.read, w').snapshots[i])
    {
      ReadStaysBacked(cfg, p, ins, w', i);
    }
  }

  lemma ReadsAreProper(cfg: Config, p: System, ins: Instruction, w': World)
    requires SystemInv(cfg, p) && Apply(cfg, p.world, ins) == Ok(w') && Inv(cfg, w')
    requires ins.SnapshotDelegation? ==> ins.entry.vault != DEFAULT_KEY
    requires ins.InitializeOperatorSnapshot? ==> ins.feeBps <= MAX_FEE_BPS
    requires ins.InitializeEpochSnapshot? ==> ins.fees == CurrentFees(p.config, cfg.epoch)
    ensures F.ProperEnv(Look(cfg, p.read, w'))
  {
    ReadsAreBacked(cfg, p, ins, w');
    FlagAndFeesChange(cfg, p.world, ins);
    CurrentMeans(cfg, p, 0);
  }

  /** The tiers stay sound for what is read after the instruction. */
  lemma SoundForNewReads(cfg: Config, p: System, ins: Instruction, w': World, f': F.Flow)
    requires SystemInv(cfg, p) && Apply(cfg, p.world, ins) == Ok(w')
    requires |f'.operators| == MAX_OPERATORS && F.Sounds(p.read, f')
    requires f'.ncn == p.flow.ncn || f'.ncn.None? || N.IsNew(f'.ncn.value.router)
    requires forall i :: 0 <= i < MAX_OPERATORS ==>
               f'.operators[i] == p.flow.operators[i] || f'.operators[i].None? || O.IsNew(f'.operators[i].value.router)
    requires ins.SnapshotDelegation? && ins.i < MAX_OPERATORS && p.flow.operators[ins.i].Some? ==>
               !O.StillRouting(p.flow.operators[ins.i].value.router)
    requires ins.InitializeOperatorSnapshot? ==> f'.operators == p.flow.operators
    ensures F.Sounds(Look(cfg, p.read, w'), f')
  {
    var read' := Look(cfg, p.read, w');
    CurrentMeans(cfg, p, 0);
    if f'.ncn.Some? {
      if Blank(f'.ncn.value.router) {
        BlankIsSound(f'.ncn.value.router, p.read.box, read'.box);
      } else {
        EpochKeepsBox(cfg, p.world, ins);
      }
    }
    forall i | 0 <= i < MAX_OPERATORS && f'.operators[i].Some?
      ensures O.Sound(f'.operators[i].value.router, read'.snapshots[i])
    {
      OperatorRead(cfg, p, ins, i);
      if read'.snapshots[i] != p.read.snapshots[i] && ins.SnapshotDelegation? {
        IdleSuitsGrown(f'.operators[i].value.router, p.read.snapshots[i], read'.snapshots[i], ins.entry);
      }
    }
  }

  /** The flow after an instruction of the epoch. */
  lemma EpochMoveFlow(cfg: Config, p: System, move: Move)
    requires SystemInv(cfg, p) && move.Epoch? && Advance(cfg, p, move).Ok?
    ensures var p' := Advance(cfg, p, move).value;
            F.Ledger(p.read.rent, p'.flow) && F.Sounds(p.read, p'.flow)
    ensures move.ins.InitializeOperatorSnapshot? ==> Advance(cfg, p, move).value.flow == p.flow
  {
    var w := Apply(cfg, p.world, WithFees(cfg, p.config, move.ins)).value;
    var step := Companion(p.world, w, move);
    if step.Some? {
      F.StepKeeps(p.read, p.flow, step.value);
    }
  }

  lemma EpochMoveFixed(cfg: Config, p: System, p': System, ins: Instruction)
    requires SystemInv(cfg, p) && Apply(cfg, p.world, ins) == Ok(p'.world)
    requires p'.flow.ncn == p.flow.ncn || p'.flow.ncn.None? || N.IsNew(p'.flow.ncn.value.router)
    ensures BoxFixed(cfg, p'.world, p'.flow)
  {
    if p'.flow.ncn.Some? && !Blank(p'.flow.ncn.value.router) {
      EpochKeepsBox(cfg, p.world, ins);
    }
  }

  lemma EpochMoveKeeps(cfg: Config, p: System, move: Move)
    requires SystemInv(cfg, p) && move.Epoch? && Advance(cfg, p, move).Ok? && ProperMove(move) && Harmless(cfg, p, move)
    ensures SystemInv(cfg, Advance(cfg, p, move).value)
  {
    var ins, p' := WithFees(cfg, p.config, move.ins), Advance(cfg, p, move).value;
    if ins.LoseState? {
      T.LosingStateSoundExactlyWhen(cfg, p.world);
    } else {
      T.StepKeeps(cfg, p.world, ins);
    }
    MoveKeepsCurrent(cfg, p, move);
    EpochKeepsLinked(cfg, p, move);
    EpochKeepsSeats(cfg, p.world, ins);
    EpochMoveFixed(cfg, p, p', ins);
    EpochMoveFlow(cfg, p, move);
    ReadsAreProper(cfg, p, ins, p'.world);
    SoundForNewReads(cfg, p, ins, p'.world, p'.flow);
  }

  // ---------------------------------------------------------------- runs

  lemma MoveKeeps(cfg: Config, p: System, move: Move)
    requires SystemInv(cfg, p) && Advance(cfg, p, move).Ok? && ProperMove(move) && Harmless(cfg, p, move)
    ensures SystemInv(cfg, Advance(cfg, p, move).value)
  {
    match move
    case Epoch(_, _, _) => EpochMoveKeeps(cfg, p, move);
    case Reward(step) => RewardKeeps(cfg, p, step);
    case UpdateFees(bps, wallet) => UpdateKeepsSlots(p.config, bps, wallet, cfg.timing.epochOf(p.world.slot));
  }

  ghost predicate HarmlessRun(cfg: Config, p: System, moves: seq<Move>)
    requires Fitting(cfg, p)
  {
    |moves| > 0 ==>
      && HarmlessRun(cfg, p, moves[..|moves| - 1])
      && ProperMove(moves[|moves| - 1]) && Harmless(cfg, Run(cfg, p, moves[..|moves| - 1]), moves[|moves| - 1])
  }

  lemma {:induction false} RunKeeps(cfg: Config, p: System, moves: seq<Move>)
    requires SystemInv(cfg, p) && HarmlessRun(cfg, p, moves)
    ensures SystemInv(cfg, Run(cfg, p, moves))
  {
    if |moves| > 0 {
      RunKeeps(cfg, p, moves[..|moves| - 1]);
      var m := Run(cfg, p, moves[..|moves| - 1]);
      if Advance(cfg, m, moves[|moves| - 1]).Ok? {
        MoveKeeps(cfg, m, moves[|moves| - 1]);
      }
    }
  }

  /** Before anything is read. */
  function NothingRead(cfg: Config, rent: nat): F.Env {
    F.Env(rent, Fees(0, PROTOCOL_FEE_BPS, 0), EmptyBox(cfg.epoch), cfg.timing.validSlots, cfg.operators,
          seq(MAX_OPERATORS, _ => OperatorSnapshot(false, 0, 0, 0, 0, 0, 0, [])))
  }

  /** An untouched epoch, a valid fee configuration, and no receiver open. */
  ghost predicate Start(cfg: Config, p: System, rent: nat) {
    && T.Initial(cfg, p.world) && SlotsOkay(p.config) && p.read == NothingRead(cfg, rent)
    && p.flow.ncn.None? && |p.flow.operators| == MAX_OPERATORS
    && (forall i :: 0 <= i < MAX_OPERATORS ==> p.flow.operators[i].None?)
    && F.Supply(p.flow) <= U64_MAX
  }

  lemma StartIsSound(cfg: Config, p: System, rent: nat)
    requires Start(cfg, p, rent)
    ensures SystemInv(cfg, p)
  {
    assert Look(cfg, p.read, p.world).snapshots == p.read.snapshots;
    assert Consistent(p.read.box);
  }

  /** From the first instruction to the last lamport: over every run of the whole system without
      the two harmful moves, the epoch's invariant holds, every round in progress is on track for
      the ballot box and snapshots as they were last read, every reward instruction is refused
      exactly for the listed reasons, and no lamport is created or lost. */
  lemma VoteToLastLamport(cfg: Config, p: System, rent: nat, moves: seq<Move>, step: F.Step)
    requires Start(cfg, p, rent) && HarmlessRun(cfg, p, moves)
    ensures var p' := Run(cfg, p, moves);
            && Inv(cfg, p'.world) && Current(cfg, p') && F.Books(p'.read, p'.flow)
            && F.Supply(p'.flow) == F.Supply(p.flow)
            && (match RewardRefusal(p'.world, p'.read, p'.flow, step)
                case None => Advance(cfg, p', Reward(step)).Ok?
                case Some(e) => Advance(cfg, p', Reward(step)) == Err(e))
  {
    StartIsSound(cfg, p, rent);
    RunKeeps(cfg, p, moves);
    EveryRunConserves(cfg, p, moves);
    RewardRefusedExactlyWhen(cfg, Run(cfg, p, moves), step);
  }

  // ---------------------------------------------------------------- rounds among everything else

  /** The NCN's round is in progress. */
  ghost predicate NcnRouting(p: System) { p.flow.ncn.Some? && N.StillRouting(p.flow.ncn.value.router) }

  /** What becomes of a round: its receiver is closed, or it is where it was or further, with the
      same end in store, or it has reached that end. */
  ghost predicate NcnRoundHeads(r: N.Router, b: Box, t: Option<F.NcnTier>)
    requires N.Ready(r, b)
  {
    t.Some? ==>
      if N.StillRouting(t.value.router) then N.Ready(t.value.router, b) && N.Completed(t.value.router, b) == N.Completed(r, b)
      else N.Completed(r, b) == Ok(t.value.router)
  }

  /** During a round the NCN's router changes by routing calls only. */
  lemma OthersLeaveNcnRound(env: F.Env, f: F.Flow, step: F.Step)
    requires F.Sized(env, f) && F.Apply(env, f, step).Ok? && f.ncn.Some? && N.StillRouting(f.ncn.value.router)
    requires !step.RouteNcn? && !step.CloseNcn?
    ensures var f' := F.Apply(env, f, step).value;
            f'.ncn.Some? && f'.ncn.value.router == f.ncn.value.router
  {
  }

  lemma RewardHeadsNcnRound(env: F.Env, f: F.Flow, step: F.Step)
    requires F.Books(env, f) && F.Apply(env, f, step).Ok? && f.ncn.Some? && N.StillRouting(f.ncn.value.router)
    ensures NcnRoundHeads(f.ncn.value.router, env.box, F.Apply(env, f, step).value.ncn)
  {
    if step.RouteNcn? {
      N.CallAdvances(f.ncn.value.router, env.box, step.maxIterations);
    } else if !step.CloseNcn? {
      OthersLeaveNcnRound(env, f, step);
    }
  }

  lemma MoveHeadsNcnRound(cfg: Config, p: System, move: Move)
    requires SystemInv(cfg, p) && NcnRouting(p) && Advance(cfg, p, move).Ok?
    ensures var p' := Advance(cfg, p, move).value;
            p'.read.box == p.read.box && NcnRoundHeads(p.flow.ncn.value.router, p.read.box, p'.flow.ncn)
  {
    if move.Reward? {
      RewardHeadsNcnRound(p.read, p.flow, move.step);
    } else if move.Epoch? {
      EpochKeepsLinked(cfg, p, move);
      EpochKeepsBox(cfg, p.world, WithFees(cfg, p.config, move.ins));
      CurrentMeans(cfg, p, 0);
    }
  }

  /** The round is in progress before every move of the run. */
  ghost predicate NcnRoundLasts(cfg: Config, p: System, moves: seq<Move>)
    requires Fitting(cfg, p)
  {
    |moves| > 0 ==> NcnRoundLasts(cfg, p, moves[..|moves| - 1]) && NcnRouting(Run(cfg, p, moves[..|moves| - 1]))
  }

  /** A round of the first tier among everything else: whatever deposits, payouts, fee updates
      and instructions of the epoch come between its calls, it ends, if its receiver is not
      closed, exactly as one uninterrupted pass would have ended. */
  lemma {:induction false} NcnRoundEndsAsOnePass(cfg: Config, p: System, moves: seq<Move>)
    requires SystemInv(cfg, p) && NcnRouting(p) && HarmlessRun(cfg, p, moves) && NcnRoundLasts(cfg, p, moves)
    ensures N.Ready(p.flow.ncn.value.router, p.read.box)
    ensures Run(cfg, p, moves).read.box == p.read.box
    ensures NcnRoundHeads(p.flow.ncn.value.router, p.read.box, Run(cfg, p, moves).flow.ncn)
  {
    if |moves| > 0 {
      var front, move := moves[..|moves| - 1], moves[|moves| - 1];
      NcnRoundEndsAsOnePass(cfg, p, front);
      RunKeeps(cfg, p, front);
      var m := Run(cfg, p, front);
      if Advance(cfg, m, move).Ok? {
        MoveHeadsNcnRound(cfg, m, move);
      }
    }
  }

  /** The same for the round of operator `i`. */
  ghost predicate OperatorRouting(p: System, i: nat) {
    i < |p.flow.operators| && p.flow.operators[i].Some? && O.StillRouting(p.flow.operators[i].value.router)
  }

  ghost predicate OperatorRoundHeads(r: O.Router, s: OperatorSnapshot, t: Option<F.OperatorTier>)
    requires O.Ready(r, s)
  {
    t.Some? ==>
      if O.StillRouting(t.value.router) then O.Ready(t.value.router, s) && O.Completed(t.value.router, s) == O.Completed(r, s)
      else O.Completed(r, s) == Ok(t.value.router)
  }

  lemma OthersLeaveOperatorRound(env: F.Env, f: F.Flow, step: F.Step, i: nat)
    requires F.Sized(env, f) && F.Apply(env, f, step).Ok?
    requires i < |f.operators| && f.operators[i].Some? && O.StillRouting(f.operators[i].value.router)
    requires !(step.RouteOperator? && step.i == i) && !(step.CloseOperator? && step.i == i)
    ensures var f' := F.Apply(env, f, step).value;
            f'.operators[i].Some? && f'.operators[i].value.router == f.operators[i].value.router
  {
  }

  lemma RewardHeadsOperatorRound(env: F.Env, f: F.Flow, step: F.Step, i: nat)
    requires F.Books(env, f) && F.Apply(env, f, step).Ok?
    requires i < |f.operators| && f.operators[i].Some? && O.StillRouting(f.operators[i].value.router)
    ensures OperatorRoundHeads(f.operators[i].value.router, env.snapshots[i], F.Apply(env, f, step).value.operators[i])
  {
    if step.RouteOperator? && step.i == i {
      O.CallAdvances(f.operators[i].value.router, env.snapshots[i], step.maxIterations);
    } else if !(step.CloseOperator? && step.i == i) {
      OthersLeaveOperatorRound(env, f, step, i);
    }
  }

  lemma MoveHeadsOperatorRound(cfg: Config, p: System, move: Move, i: nat)
    requires SystemInv(cfg, p) && OperatorRouting(p, i) && Advance(cfg, p, move).Ok? && Harmless(cfg, p, move)
    ensures var p' := Advance(cfg, p, move).value;
            p'.read.snapshots[i] == p.read.snapshots[i]
            && OperatorRoundHeads(p.flow.operators[i].value.router, p.read.snapshots[i], p'.flow.operators[i])
  {
    if move.Reward? {
      RewardHeadsOperatorRound(p.read, p.flow, move.step, i);
    } else if move.Epoch? {
      EpochLeavesOperatorRound(cfg, p, move, i);
    }
  }

  lemma EpochLeavesOperatorRound(cfg: Config, p: System, move: Move, i: nat)
    requires SystemInv(cfg, p) && OperatorRouting(p, i) && move.Epoch? && Advance(cfg, p, move).Ok? && Harmless(cfg, p, move)
    ensures var p' := Advance(cfg, p, move).value;
            && p'.read.snapshots[i] == p.read.snapshots[i]
            && (p'.flow.operators[i] == p.flow.operators[i] || p'.flow.operators[i].None?)
  {
    EpochKeepsLinked(cfg, p, move);
    OperatorRead(cfg, p, WithFees(cfg, p.config, move.ins), i);
  }

  ghost predicate OperatorRoundLasts(cfg: Config, p: System, moves: seq<Move>, i: nat)
    requires Fitting(cfg, p)
  {
    |moves| > 0 ==>
      OperatorRoundLasts(cfg, p, moves[..|moves| - 1], i) && OperatorRouting(Run(cfg, p, moves[..|moves| - 1]), i)
  }

  /** A round of the second tier among everything else ends as one uninterrupted pass. */
  lemma {:induction false} OperatorRoundEndsAsOnePass(cfg: Config, p: System, moves: seq<Move>, i: nat)
    requires SystemInv(cfg, p) && OperatorRouting(p, i) && HarmlessRun(cfg, p, moves) && OperatorRoundLasts(cfg, p, moves, i)
    ensures O.Ready(p.flow.operators[i].value.router, p.read.snapshots[i])
    ensures Run(cfg, p, moves).read.snapshots[i] == p.read.snapshots[i]
    ensures OperatorRoundHeads(p.flow.operators[i].value.router, p.read.snapshots[i], Run(cfg, p, moves).flow.operators[i])
  {
    if |moves| > 0 {
      var front, move := moves[..|moves| - 1], moves[|moves| - 1];
      OperatorRoundEndsAsOnePass(cfg, p, front, i);
      RunKeeps(cfg, p, front);
      var m := Run(cfg, p, front);
      if Advance(cfg, m, move).Ok? {
        MoveHeadsOperatorRound(cfg, m, move, i);
      }
    }
  }

  // ---------------------------------------------------------------- whether a round goes on

  /** In a round, a routing call of the first tier is accepted if and only if the epoch state, the
      epoch snapshot and the ballot box exist, whatever its limit. */
  lemma NcnRoundGoesOnExactlyWhen(cfg: Config, p: System, maxIterations: nat)
    requires SystemInv(cfg, p) && NcnRouting(p)
    ensures Advance(cfg, p, Reward(F.RouteNcn(p.world.slot, maxIterations))).Ok?
       <==> p.world.state.Some? && p.world.snapshot.Some? && p.world.box.Live?
    ensures !p.world.box.Live? ==> NcnStranded(p)
  {
    RewardRefusedExactlyWhen(cfg, p, F.RouteNcn(p.world.slot, maxIterations));
    CurrentMeans(cfg, p, 0);
  }

  /** If it is accepted, and its limit covers all votes, it ends the round. */
  lemma NcnRoundCanEnd(cfg: Config, p: System, maxIterations: nat)
    requires Fitting(cfg, p) && F.Books(p.read, p.flow) && NcnRouting(p) && maxIterations >= MAX_OPERATORS
    requires Advance(cfg, p, Reward(F.RouteNcn(p.world.slot, maxIterations))).Ok?
    ensures var t := Advance(cfg, p, Reward(F.RouteNcn(p.world.slot, maxIterations))).value.flow.ncn;
            t.Some? && !N.StillRouting(t.value.router) && N.Completed(p.flow.ncn.value.router, p.read.box) == Ok(t.value.router)
  {
    AdvanceReward(cfg, p, F.RouteNcn(p.world.slot, maxIterations));
    N.CallAdvances(p.flow.ncn.value.router, p.read.box, maxIterations);
  }

  /** In a round, a routing call of the second tier is accepted if and only if the epoch state and
      the operator's snapshot exist. */
  lemma OperatorRoundGoesOnExactlyWhen(cfg: Config, p: System, i: nat, maxIterations: nat)
    requires SystemInv(cfg, p) && OperatorRouting(p, i)
    ensures Advance(cfg, p, Reward(F.RouteOperator(i, maxIterations))).Ok? <==> p.world.state.Some? && p.world.operators[i].Some?
  {
    RewardRefusedExactlyWhen(cfg, p, F.RouteOperator(i, maxIterations));
  }

  lemma OperatorRoundCanEnd(cfg: Config, p: System, i: nat, maxIterations: nat)
    requires Fitting(cfg, p) && F.Books(p.read, p.flow) && OperatorRouting(p, i) && maxIterations >= MAX_VAULTS
    requires Advance(cfg, p, Reward(F.RouteOperator(i, maxIterations))).Ok?
    ensures var t := Advance(cfg, p, Reward(F.RouteOperator(i, maxIterations))).value.flow.operators[i];
            && t.Some? && !O.StillRouting(t.value.router)
            && O.Completed(p.flow.operators[i].value.router, p.read.snapshots[i]) == Ok(t.value.router)
  {
    AdvanceReward(cfg, p, F.RouteOperator(i, maxIterations));
    O.CallAdvances(p.flow.operators[i].value.router, p.read.snapshots[i], maxIterations);
  }

  /** A round of the first tier without its ballot box. */
  ghost predicate NcnStranded(p: System) { NcnRouting(p) && T.BoxGone(p.world) }

  /** Closing the ballot box in the middle of a round strands it: every routing call and every
      payout of the first tier is refused. */
  lemma StrandedRefuses(cfg: Config, p: System, slot: nat, maxIterations: nat, i: nat)
    requires Fitting(cfg, p) && NcnStranded(p)
    ensures Advance(cfg, p, Reward(F.RouteNcn(slot, maxIterations))).Err?
    ensures Advance(cfg, p, Reward(F.PayProtocol)).Err? && Advance(cfg, p, Reward(F.PayNcn)).Err?
    ensures Advance(cfg, p, Reward(F.PayRoute(i))).Err?
  {
    AdvanceReward(cfg, p, F.RouteNcn(slot, maxIterations));
    AdvanceReward(cfg, p, F.PayProtocol);
    AdvanceReward(cfg, p, F.PayNcn);
    AdvanceReward(cfg, p, F.PayRoute(i));
  }

  lemma StrandedStep(cfg: Config, p: System, move: Move)
    requires Fitting(cfg, p) && Linked(p.world, p.flow) && NcnStranded(p) && Advance(cfg, p, move).Ok?
    ensures var p' := Advance(cfg, p, move).value;
            && Linked(p'.world, p'.flow) && T.BoxGone(p'.world)
            && (p'.flow.ncn.Some? ==> p'.flow.ncn.value.router == p.flow.ncn.value.router)
  {
    if move.Epoch? {
      EpochKeepsLinked(cfg, p, move);
      T.GoneStaysGone(cfg, p.world, WithFees(cfg, p.config, move.ins));
    } else if move.Reward? {
      RewardKeepsTiers(p.read, p.flow, move.step);
      OthersLeaveNcnRound(p.read, p.flow, move.step);
    }
  }

  /** The NCN's receiver is open after every move of the run. */
  ghost predicate NcnStaysOpen(cfg: Config, p: System, moves: seq<Move>)
    requires Fitting(cfg, p)
  {
    && Run(cfg, p, moves).flow.ncn.Some?
    && (|moves| > 0 ==> NcnStaysOpen(cfg, p, moves[..|moves| - 1]))
  }

  /** And so it stays along every run whatever, until its receiver is closed: the router never
      changes again. */
  lemma {:induction false} StrandedRoundStaysStranded(cfg: Config, p: System, moves: seq<Move>)
    requires Fitting(cfg, p) && Linked(p.world, p.flow) && NcnStranded(p) && NcnStaysOpen(cfg, p, moves)
    ensures var p' := Run(cfg, p, moves);
            NcnStranded(p') && Linked(p'.world, p'.flow) && p'.flow.ncn.value.router == p.flow.ncn.value.router
  {
    if |moves| > 0 {
      var front, move := moves[..|moves| - 1], moves[|moves| - 1];
      StrandedRoundStaysStranded(cfg, p, front);
      var m := Run(cfg, p, front);
      if Advance(cfg, m, move).Ok? {
        StrandedStep(cfg, m, move);
      }
    }
  }

  /** The same for an operator's round without the operator's snapshot: routing and both payouts
      are refused. */
  lemma StrandedOperatorRefuses(cfg: Config, p: System, i: nat, maxIterations: nat, vault: Pubkey)
    requires Fitting(cfg, p) && i < MAX_OPERATORS && p.world.operators[i].None?
    ensures Advance(cfg, p, Reward(F.RouteOperator(i, maxIterations))).Err?
    ensures Advance(cfg, p, Reward(F.PayOperator(i))).Err? && Advance(cfg, p, Reward(F.PayVault(i, vault))).Err?
  {
    AdvanceReward(cfg, p, F.RouteOperator(i, maxIterations));
    AdvanceReward(cfg, p, F.PayOperator(i));
    AdvanceReward(cfg, p, F.PayVault(i, vault));
  }
}
