/** Particular runs of the whole system, from its start to a round that can no longer go on. */
module SystemRuns {
  import opened Base
  import opened Sums
  import opened Voting
  import opened Snapshots
  import opened FeeSchedule
  import opened EpochProtocol
  import opened EpochInvariant
  import opened EpochRuns
  import opened EndToEnd
  import S = EndToEnd
  import T = EpochTheorems
  import E = EpochStates
  import F = RewardFlow
  import N = NcnRouting
  import R = Reopening
  import O = OperatorRouting
  import Rounds

  // ---------------------------------------------------------------- the epoch's part of a run

  function Moves(run: seq<Instruction>, n: F.NcnTier, o: F.OperatorTier): seq<Move> {
    seq(|run|, k requires 0 <= k < |run| => Epoch(run[k], n, o))
  }

  /** Instructions that open and close no receiver, and take the fees of the configuration. */
  predicate Quiet(cfg: Config, config: FeeConfig, ins: Instruction) {
    && !ins.ReallocRouter? && !ins.InitializeOperatorRouter? && !ins.CloseAccount?
    && (ins.InitializeEpochSnapshot? ==> ins.fees == CurrentFees(config, cfg.epoch))
  }

  lemma QuietMove(cfg: Config, p: System, move: Move)
    requires Fitting(cfg, p) && move.Epoch? && Quiet(cfg, p.config, move.ins)
    ensures match Advance(cfg, p, move)
            case Ok(p') => Apply(cfg, p.world, move.ins) == Ok(p'.world) && p' == System(p'.world, p.flow, p.config, Look(cfg, p.read, p'.world))
            case Err(e) => Apply(cfg, p.world, move.ins) == Err(e)
  {
  }

  lemma {:induction false} QuietRun(cfg: Config, p: System, run: seq<Instruction>, n: F.NcnTier, o: F.OperatorTier)
    requires Fitting(cfg, p) && Current(cfg, p) && forall k :: 0 <= k < |run| ==> Quiet(cfg, p.config, run[k])
    ensures var p' := S.Run(cfg, p, Moves(run, n, o));
            && p'.world == T.Run(cfg, p.world, run) && p'.flow == p.flow && p'.config == p.config && Current(cfg, p')
  {
    if |run| > 0 {
      var front := run[..|run| - 1];
      QuietRun(cfg, p, front, n, o);
      assert Moves(run, n, o)[..|run| - 1] == Moves(front, n, o);
      var m := S.Run(cfg, p, Moves(front, n, o));
      QuietMove(cfg, m, Moves(run, n, o)[|run| - 1]);
      if Advance(cfg, m, Moves(run, n, o)[|run| - 1]).Ok? {
        MoveKeepsCurrent(cfg, m, Moves(run, n, o)[|run| - 1]);
      }
    }
  }

  lemma RunOneMore(cfg: Config, p: System, moves: seq<Move>, move: Move)
    requires Fitting(cfg, p)
    ensures S.Run(cfg, p, moves + [move]) ==
            var m := S.Run(cfg, p, moves);
            if Advance(cfg, m, move).Ok? then Advance(cfg, m, move).value else m
  {
    assert (moves + [move])[..|moves + [move]| - 1] == moves;
  }

  // ---------------------------------------------------------------- an operator's round

  /** Two vaults are registered, and the one operator has its first delegation, of weight 10. */
  function HalfSeating(fees: Fees): seq<Instruction> {
    Weighing([0, 1]) + [InitializeEpochSnapshot(1, fees), InitializeOperatorSnapshot(0, true, 0), SnapshotDelegation(0, Entry(7, 0, 10))]
  }

  /** What the run of `HalfSeating` leaves. */
  ghost predicate HalfSeated(w: World) {
    && Shaped(w) && !w.marker && w.state.Some? && !w.state.value.isClosing
    && w.weights.Live? && Registry(w.weights.value) == {0, 1}
    && w.snapshot.Some? && w.snapshot.value.operatorCount == 1 && w.snapshot.value.operatorsRegistered == 0
    && w.snapshot.value.stake == 0 && w.snapshot.value.validDelegations == 0
    && w.operators[0].Some? && O.HalfDone(w.operators[0].value) && !w.operatorRouters[0]
    && w.state.value.operatorProgress[0].tally == 1 && w.state.value.snapshotProgress.tally == 0
  }

  function FirstSeat(w: World, fees: Fees): World
    requires Shaped(w) && w.state.Some?
  {
    var es := w.state.value;
    w.(snapshot := Some(EpochSnapshot(1, 2, 0, 0, 0, 0, fees)),
       operators := w.operators[0 := Some(OperatorSnapshot(true, 0, 2, 0, 0, 0, 0, []))],
       state := Some(E.OnEpochSnapshot(es, 1).(operatorSnapshots := es.operatorSnapshots[0 := E.Created],
                                               operatorProgress := es.operatorProgress[0 := E.Progress(0, es.vaultCount)])))
  }

  lemma FirstSeatRuns(cfg: Config, w: World, fees: Fees)
    requires CanOpen(cfg, w)
    ensures T.Run(cfg, Weighed(w, [0, 1]), [InitializeEpochSnapshot(1, fees), InitializeOperatorSnapshot(0, true, 0)])
         == FirstSeat(Weighed(w, [0, 1]), fees)
  {
    OneMintWeighed([0, 1], w.slot);
    var w1 := Weighed(w, [0, 1]);
    var w2 := w1.(snapshot := Some(EpochSnapshot(1, 2, 0, 0, 0, 0, fees)), state := Some(E.OnEpochSnapshot(w1.state.value, 1)));
    RunTwo(cfg, w1, InitializeEpochSnapshot(1, fees), InitializeOperatorSnapshot(0, true, 0), w2, FirstSeat(w1, fees));
  }

  lemma HalfSeatingRuns(cfg: Config, w: World, fees: Fees)
    requires CanOpen(cfg, w)
    ensures HalfSeated(T.Run(cfg, w, HalfSeating(fees)))
  {
    var pair := [InitializeEpochSnapshot(1, fees), InitializeOperatorSnapshot(0, true, 0)];
    var last := SnapshotDelegation(0, Entry(7, 0, 10));
    WeighingRuns(cfg, w, [0, 1]);
    FirstSeatRuns(cfg, w, fees);
    RunConcat(cfg, w, Weighing([0, 1]), pair);
    RunConcat(cfg, w, Weighing([0, 1]) + pair, [last]);
    assert HalfSeating(fees) == Weighing([0, 1]) + pair + [last];
    FirstDelegation(cfg, FirstSeat(Weighed(w, [0, 1]), fees));
  }

  lemma FirstDelegation(cfg: Config, w: World)
    requires ProperConfig(cfg) && Shaped(w) && !w.marker && w.state.Some? && !w.state.value.isClosing && !w.operatorRouters[0]
    requires w.weights.Live? && w.weights.value.registry == [0, 1]
    requires w.snapshot.Some? && w.snapshot.value.operatorCount == 1 && w.snapshot.value.operatorsRegistered == 0
    requires w.snapshot.value.stake == 0 && w.snapshot.value.validDelegations == 0
    requires w.operators[0] == Some(OperatorSnapshot(true, 0, 2, 0, 0, 0, 0, []))
    requires w.state.value.operatorProgress[0].tally == 0 && w.state.value.snapshotProgress.tally == 0
    ensures HalfSeated(T.Run(cfg, w, [SnapshotDelegation(0, Entry(7, 0, 10))]))
  {
    var t := w.weights.value;
    assert t.registry[0] == 0 && t.registry[1] == 1;
    assert Registry(t) == {0, 1};
    assert w.operators[0].value.entries + [Entry(7, 0, 10)] == [Entry(7, 0, 10)];
    RunLast(cfg, w, SnapshotDelegation(0, Entry(7, 0, 10)), Apply(cfg, w, SnapshotDelegation(0, Entry(7, 0, 10))).value);
  }

  /** A receiver that is opened with 100 lamports already sent to its address. */
  ghost predicate HundredWaiting(p: System, rent: nat, o: F.OperatorTier) {
    F.NewOperatorTier(rent, o) && o.received == 100 && o.balance <= p.flow.outside
  }

  /** The operator's snapshot is half done and its router, beside it, has nothing to do yet. */
  ghost predicate RouterWaits(cfg: Config, p: System, rent: nat, o: F.OperatorTier) {
    && Fitting(cfg, p) && Current(cfg, p) && p.read.rent == rent && F.NewOperatorTier(rent, o) && o.received == 100 && rent + 100 <= U64_MAX
    && HalfSeated(p.world.(operatorRouters := p.world.operatorRouters[0 := false])) && p.world.operatorRouters[0]
    && p.flow.operators[0] == Some(o)
  }

  lemma RouterOpens(cfg: Config, p: System, rent: nat, n: F.NcnTier, o: F.OperatorTier)
    requires Fitting(cfg, p) && Current(cfg, p) && p.read.rent == rent && HundredWaiting(p, rent, o) && rent + 100 <= U64_MAX
    requires HalfSeated(p.world) && p.flow.operators[0].None?
    ensures Advance(cfg, p, Epoch(InitializeOperatorRouter(0), n, o)).Ok?
    ensures RouterWaits(cfg, Advance(cfg, p, Epoch(InitializeOperatorRouter(0), n, o)).value, rent, o)
  {
    var w := p.world.(operatorRouters := p.world.operatorRouters[0 := true],
                      state := Some(p.world.state.value.(operatorRouters := p.world.state.value.operatorRouters[0 := E.CreatedWithReceiver])));
    assert Apply(cfg, p.world, InitializeOperatorRouter(0)) == Ok(w);
    MoveKeepsCurrent(cfg, p, Epoch(InitializeOperatorRouter(0), n, o));
  }

  /** The first vault gets everything, and the round pauses before the second. */
  lemma RoundPauses(cfg: Config, p: System, rent: nat, o: F.OperatorTier)
    requires RouterWaits(cfg, p, rent, o)
    ensures var r := Advance(cfg, p, Reward(F.RouteOperator(0, 1)));
            && r.Ok? && r.value.world == p.world && r.value.read == p.read
            && r.value.flow.operators[0].Some? && O.PaidOnce(r.value.flow.operators[0].value.router)
  {
    AdvanceReward(cfg, p, F.RouteOperator(0, 1));
    CurrentMeans(cfg, p, 0);
    O.OneCallPaysTheFirstVault(o.router, p.read.snapshots[0], rent);
  }

  /** Quiet instructions do no harm while no receiver is open. */
  lemma {:induction false} QuietIsHarmless(cfg: Config, p: System, run: seq<Instruction>, n: F.NcnTier, o: F.OperatorTier)
    requires Fitting(cfg, p) && Current(cfg, p) && (forall i :: 0 <= i < MAX_OPERATORS ==> p.flow.operators[i].None?)
    requires forall k :: 0 <= k < |run| ==> Quiet(cfg, p.config, run[k]) && !run[k].LoseState? && ProperMove(Epoch(run[k], n, o))
    ensures HarmlessRun(cfg, p, Moves(run, n, o))
  {
    if |run| > 0 {
      var front := run[..|run| - 1];
      QuietIsHarmless(cfg, p, front, n, o);
      QuietRun(cfg, p, front, n, o);
      assert Moves(run, n, o)[..|run| - 1] == Moves(front, n, o);
    }
  }

  lemma HarmlessAndOne(cfg: Config, p: System, moves: seq<Move>, move: Move)
    requires Fitting(cfg, p) && HarmlessRun(cfg, p, moves)
    requires move.Reward? || (move.Epoch? && move.ins.InitializeOperatorRouter?)
    ensures HarmlessRun(cfg, p, moves + [move])
  {
    assert (moves + [move])[..|moves + [move]| - 1] == moves;
  }

  const SECOND_VAULT := Entry(8, 1, 10)

  /** The registration that finishes the operator, with a round paused. */
  lemma SecondVaultRegisters(cfg: Config, p: System, n: F.NcnTier, o: F.OperatorTier)
    requires Fitting(cfg, p) && Current(cfg, p) && HalfSeated(p.world.(operatorRouters := p.world.operatorRouters[0 := false]))
    ensures var r := Advance(cfg, p, Epoch(SnapshotDelegation(0, SECOND_VAULT), n, o));
            && r.Ok? && r.value.flow == p.flow && r.value.world.state.Some? && r.value.world.operatorRouters == p.world.operatorRouters
            && r.value.world.operators[0].Some? && Current(cfg, r.value)
            && Register(p.world.operators[0].value, p.world.slot, SECOND_VAULT) == Ok(r.value.world.operators[0].value)
  {
    var move, s := Epoch(SnapshotDelegation(0, SECOND_VAULT), n, o), p.world.operators[0].value;
    O.SecondVaultDilutes(s, p.world.slot);
    SecondVaultApplies(cfg, p.world);
    QuietMove(cfg, p, move);
    MoveKeepsCurrent(cfg, p, move);
  }

  lemma SecondVaultApplies(cfg: Config, w: World)
    requires ProperConfig(cfg) && Shaped(w) && HalfSeated(w.(operatorRouters := w.operatorRouters[0 := false]))
    requires Register(w.operators[0].value, w.slot, SECOND_VAULT).Ok?
    ensures var r := Apply(cfg, w, SnapshotDelegation(0, SECOND_VAULT));
            && r.Ok? && r.value.state.Some? && r.value.operatorRouters == w.operatorRouters && r.value.operators[0].Some?
            && Register(w.operators[0].value, w.slot, SECOND_VAULT) == Ok(r.value.operators[0].value)
  {
    assert 1 in Registry(w.weights.value);
  }

  /** With the second vault registered, routing fails and nothing can be paid. */
  lemma DilutedSystemFails(cfg: Config, p: System, s: OperatorSnapshot, slot: nat, maxIterations: nat)
    requires Fitting(cfg, p) && Current(cfg, p) && p.world.state.Some? && p.world.operatorRouters[0] && p.world.operators[0].Some?
    requires O.HalfDone(s) && Register(s, slot, SECOND_VAULT) == Ok(p.world.operators[0].value)
    requires p.flow.operators[0].Some? && O.PaidOnce(p.flow.operators[0].value.router)
    ensures Advance(cfg, p, Reward(F.RouteOperator(0, maxIterations))) == Err(ArithmeticUnderflow)
    ensures Advance(cfg, p, Reward(F.PayVault(0, 7))) == Err(RouterStillRouting)
  {
    var t := p.flow.operators[0].value;
    O.SecondVaultDilutes(s, slot);
    CurrentMeans(cfg, p, 0);
    O.DilutedRoundFails(t.router, p.world.operators[0].value, p.read.rent, t.balance, maxIterations);
    AdvanceReward(cfg, p, F.RouteOperator(0, maxIterations));
    AdvanceReward(cfg, p, F.PayVault(0, 7));
  }

  /** Up to a paused round. */
  function PausedRun(fees: Fees, n: F.NcnTier, o: F.OperatorTier): seq<Move> {
    Moves(HalfSeating(fees), n, o) + [Epoch(InitializeOperatorRouter(0), n, o)] + [Reward(F.RouteOperator(0, 1))]
  }

  /** The paused round, reached without harm. */
  ghost predicate Paused(cfg: Config, p: System) {
    && Fitting(cfg, p) && Current(cfg, p) && p.world.operatorRouters[0]
    && HalfSeated(p.world.(operatorRouters := p.world.operatorRouters[0 := false]))
    && p.flow.operators[0].Some? && O.PaidOnce(p.flow.operators[0].value.router)
  }

  lemma PausedRunPauses(cfg: Config, p: System, rent: nat, n: F.NcnTier, o: F.OperatorTier)
    requires Start(cfg, p, rent) && CanOpen(cfg, p.world) && HundredWaiting(p, rent, o)
    ensures var run := PausedRun(CurrentFees(p.config, cfg.epoch), n, o);
            HarmlessRun(cfg, p, run) && Paused(cfg, S.Run(cfg, p, run))
  {
    StartIsSound(cfg, p, rent);
    var fees := CurrentFees(p.config, cfg.epoch);
    QuietRun(cfg, p, HalfSeating(fees), n, o);
    QuietIsHarmless(cfg, p, HalfSeating(fees), n, o);
    HalfSeatingRuns(cfg, p.world, fees);
    PausesAfter(cfg, p, Moves(HalfSeating(fees), n, o), rent, n, o);
  }

  lemma PausesAfter(cfg: Config, p: System, moves: seq<Move>, rent: nat, n: F.NcnTier, o: F.OperatorTier)
    requires Fitting(cfg, p) && HarmlessRun(cfg, p, moves) && p.read.rent == rent && HundredWaiting(p, rent, o) && rent + 100 <= U64_MAX
    requires var m := S.Run(cfg, p, moves);
             HalfSeated(m.world) && Current(cfg, m) && m.flow == p.flow && p.flow.operators[0].None?
    ensures var run := moves + [Epoch(InitializeOperatorRouter(0), n, o)] + [Reward(F.RouteOperator(0, 1))];
            HarmlessRun(cfg, p, run) && Paused(cfg, S.Run(cfg, p, run))
  {
    var open, route := Epoch(InitializeOperatorRouter(0), n, o), Reward(F.RouteOperator(0, 1));
    RunOneMore(cfg, p, moves, open);
    RouterOpens(cfg, S.Run(cfg, p, moves), rent, n, o);
    HarmlessAndOne(cfg, p, moves, open);
    RunOneMore(cfg, p, moves + [open], route);
    RoundPauses(cfg, S.Run(cfg, p, moves + [open]), rent, o);
    HarmlessAndOne(cfg, p, moves + [open], route);
  }

  /** From the start of the system to a paused round of an operator, without harm; and then one
      accepted registration, after which every routing call fails, whatever its limit, and the
      vault that has its share cannot be paid. */
  lemma RegistrationInMidRound(cfg: Config, p: System, rent: nat, n: F.NcnTier, o: F.OperatorTier, maxIterations: nat)
    requires Start(cfg, p, rent) && CanOpen(cfg, p.world) && HundredWaiting(p, rent, o)
    ensures var run, registration := PausedRun(CurrentFees(p.config, cfg.epoch), n, o), Epoch(SnapshotDelegation(0, SECOND_VAULT), n, o);
            var p1, p2 := S.Run(cfg, p, run), S.Run(cfg, p, run + [registration]);
            && HarmlessRun(cfg, p, run) && SystemInv(cfg, p1) && S.OperatorRouting(p1, 0)
            && Advance(cfg, p1, registration).Ok? && !Harmless(cfg, p1, registration)
            && Advance(cfg, p2, Reward(F.RouteOperator(0, maxIterations))) == Err(ArithmeticUnderflow)
            && Advance(cfg, p2, Reward(F.PayVault(0, 7))) == Err(RouterStillRouting)
  {
    var run, registration := PausedRun(CurrentFees(p.config, cfg.epoch), n, o), Epoch(SnapshotDelegation(0, SECOND_VAULT), n, o);
    PausedRunPauses(cfg, p, rent, n, o);
    StartIsSound(cfg, p, rent);
    S.RunKeeps(cfg, p, run);
    var p1 := S.Run(cfg, p, run);
    SecondVaultRegisters(cfg, p1, n, o);
    RunOneMore(cfg, p, run, registration);
    DilutedSystemFails(cfg, S.Run(cfg, p, run + [registration]), p1.world.operators[0].value, p1.world.slot, maxIterations);
  }

  // ---------------------------------------------------------------- the NCN's round

  /** The box after both operators have voted for ballot 0. */
  function TwoVotes(cfg: Config, slot: nat): Box
    requires |cfg.operators| == MAX_OPERATORS
  {
    Box(cfg.epoch, slot, 2, 1, Ballot(0, true),
        [Vote(cfg.operators[0], slot, 20, 0), Vote(cfg.operators[1], slot, 10, 0)], [Tally(0, Ballot(0, true), 30, 2)])
  }

  lemma SecondVoteCounted(cfg: Config, slot: nat)
    requires ProperConfig(cfg) && slot + cfg.timing.validSlots <= U64_MAX && slot < NO_SLOT
    ensures CastAndCount(OneVote(cfg, 0, 20, slot, true), cfg.operators[1], 0, 10, slot, cfg.timing.validSlots, 30) == Ok(TwoVotes(cfg, slot))
  {
    var b, b2 := OneVote(cfg, 0, 20, slot, true), TwoVotes(cfg, slot);
    assert TallyOf(b.tallies[..0], NewBallot(0)) == 0;
    assert b.tallies[0 := b2.tallies[0]] == b2.tallies;
    assert b.votes + [b2.votes[1]] == b2.votes;
    assert cfg.operators[0] != cfg.operators[1];
    assert CastVote(b, cfg.operators[1], NewBallot(0), 10, slot, cfg.timing.validSlots) == Ok(b2);
  }

  lemma TwoVotesWin(cfg: Config, slot: nat)
    requires |cfg.operators| == MAX_OPERATORS
    ensures GetWinningTally(TwoVotes(cfg, slot)) == Ok(Tally(0, Ballot(0, true), 30, 2))
  {
    var b := TwoVotes(cfg, slot);
    assert TallyOf(b.tallies[..0], b.winningBallot) == 0;
  }

  /** Both votes in the same slot, and a later slot. */
  lemma BothVote(cfg: Config, w: World, later: nat)
    requires Open(cfg, w) && w.slot + cfg.timing.validSlots <= U64_MAX && w.slot <= later < NO_SLOT
    ensures var w' := T.Run(cfg, w, [CastBallot(0, 0), CastBallot(1, 0), Tick(later)]);
            && w'.box == Live(TwoVotes(cfg, w.slot)) && w'.result.Some? && w'.state.Some? && w'.slot == later
            && w'.state.value.slotConsensusReached == w.slot && w'.snapshot == w.snapshot && w'.router == w.router && w'.marker == w.marker
  {
    LargerVoteDecides(cfg, w);
    SecondVoteCounted(cfg, w.slot);
    TwoVotesWin(cfg, w.slot);
    var w1 := Decided(cfg, w);
    SecondVoteApplies(cfg, w1, w.slot);
    var w2 := Apply(cfg, w1, CastBallot(1, 0)).value;
    RunFirst(cfg, w, CastBallot(0, 0), [CastBallot(1, 0), Tick(later)], w1);
    RunTwo(cfg, w1, CastBallot(1, 0), Tick(later), w2, w2.(slot := later));
    assert [CastBallot(0, 0), CastBallot(1, 0), Tick(later)] == [CastBallot(0, 0)] + [CastBallot(1, 0), Tick(later)];
  }

  lemma SecondVoteApplies(cfg: Config, w: World, slot: nat)
    requires ProperConfig(cfg) && Shaped(w) && w.slot == slot && w.state.Some? && w.box == Live(OneVote(cfg, 0, 20, slot, true))
    requires w.state.value.slotConsensusReached == slot < NO_SLOT
    requires w.result.Some? && w.operators[1].Some? && w.operators[1].value.stake == 10
    requires w.snapshot.Some? && EpochFinalized(w.snapshot.value) && w.snapshot.value.stake == 30
    requires CastAndCount(OneVote(cfg, 0, 20, slot, true), cfg.operators[1], 0, 10, slot, cfg.timing.validSlots, 30) == Ok(TwoVotes(cfg, slot))
    requires GetWinningTally(TwoVotes(cfg, slot)).Ok?
    ensures var r := Apply(cfg, w, CastBallot(1, 0));
            && r.Ok? && r.value.box == Live(TwoVotes(cfg, slot)) && r.value.result.Some? && r.value.state.Some?
            && r.value == w.(box := r.value.box, result := r.value.result, state := r.value.state)
            && r.value.state.value.slotConsensusReached == slot
  {
  }

  /** A receiver of the NCN that is opened with 10000 lamports already sent to its address. */
  ghost predicate ThousandsWaiting(p: System, rent: nat, n: F.NcnTier) {
    F.NewNcnTier(rent, n) && n.received == 10000 && n.balance <= p.flow.outside
  }

  /** The whole opening run, without its last instruction. */
  function Before(): seq<Instruction> { OPENING[..|OPENING| - 1] }

  lemma OpeningIsQuiet(cfg: Config, config: FeeConfig, n: F.NcnTier, o: F.OperatorTier)
    requires CurrentFees(config, cfg.epoch) == FEES
    ensures OPENING == Before() + [ReallocRouter(true)]
    ensures forall k :: 0 <= k < |Before()| ==> Quiet(cfg, config, Before()[k]) && !Before()[k].LoseState? && ProperMove(Epoch(Before()[k], n, o))
  {
  }

  /** The system with an open epoch and an open receiver. */
  ghost predicate OpenSystem(cfg: Config, p: System, rent: nat, n: F.NcnTier, slot: nat) {
    && Fitting(cfg, p) && Current(cfg, p) && Open(cfg, p.world) && p.world.slot == slot && p.flow.ncn == Some(n) && p.read.rent == rent
    && (forall i :: 0 <= i < MAX_OPERATORS ==> p.flow.operators[i].None?)
  }

  lemma OpeningDoesNoHarm(cfg: Config, p: System, rent: nat, n: F.NcnTier, o: F.OperatorTier)
    requires Start(cfg, p, rent) && Current(cfg, p) && CurrentFees(p.config, cfg.epoch) == FEES
    ensures HarmlessRun(cfg, p, Moves(Before(), n, o))
    ensures HarmlessRun(cfg, p, Moves(Before(), n, o) + [Epoch(ReallocRouter(true), n, o)])
  {
    OpeningIsQuiet(cfg, p.config, n, o);
    QuietIsHarmless(cfg, p, Before(), n, o);
    HarmlessAndOpening(cfg, p, Moves(Before(), n, o), n, o);
  }

  /** Before the last instruction of the opening, no receiver is open. */
  lemma NotYetOpen(cfg: Config, p: System, rent: nat, n: F.NcnTier, o: F.OperatorTier)
    requires Start(cfg, p, rent) && SystemInv(cfg, p) && CurrentFees(p.config, cfg.epoch) == FEES
    ensures var m := S.Run(cfg, p, Moves(Before(), n, o));
            Linked(m.world, m.flow) && m.flow == p.flow && m.config == p.config && Current(cfg, m) && m.world == T.Run(cfg, p.world, Before())
  {
    OpeningDoesNoHarm(cfg, p, rent, n, o);
    S.RunKeeps(cfg, p, Moves(Before(), n, o));
    OpeningIsQuiet(cfg, p.config, n, o);
    QuietRun(cfg, p, Before(), n, o);
  }

  lemma SystemOpens(cfg: Config, p: System, rent: nat, n: F.NcnTier, o: F.OperatorTier)
    requires Start(cfg, p, rent) && SystemInv(cfg, p) && CanOpen(cfg, p.world) && ThousandsWaiting(p, rent, n)
    requires CurrentFees(p.config, cfg.epoch) == FEES
    ensures var p' := S.Run(cfg, p, Moves(Before(), n, o) + [Epoch(ReallocRouter(true), n, o)]);
            OpenSystem(cfg, p', rent, n, p.world.slot) && p'.config == p.config
  {
    NotYetOpen(cfg, p, rent, n, o);
    OpenAtLast(cfg, p.world);
    OpensAfter(cfg, p, Moves(Before(), n, o), rent, n, o, p.world.slot);
  }

  lemma OpensAfter(cfg: Config, p: System, moves: seq<Move>, rent: nat, n: F.NcnTier, o: F.OperatorTier, slot: nat)
    requires Fitting(cfg, p) && ThousandsWaiting(p, rent, n) && p.read.rent == rent
    requires p.flow.ncn.None? && (forall i :: 0 <= i < MAX_OPERATORS ==> p.flow.operators[i].None?)
    requires var m := S.Run(cfg, p, moves);
             && Linked(m.world, m.flow) && m.flow == p.flow && m.config == p.config && Current(cfg, m)
             && Open(cfg, T.Run(cfg, m.world, [ReallocRouter(true)])) && T.Run(cfg, m.world, [ReallocRouter(true)]).slot == slot
    ensures var p' := S.Run(cfg, p, moves + [Epoch(ReallocRouter(true), n, o)]);
            OpenSystem(cfg, p', rent, n, slot) && p'.config == p.config
  {
    RunOneMore(cfg, p, moves, Epoch(ReallocRouter(true), n, o));
    RouterGoesLive(cfg, S.Run(cfg, p, moves).world);
    LastOpeningMove(cfg, S.Run(cfg, p, moves), rent, n, o);
  }

  lemma OpenAtLast(cfg: Config, w: World)
    requires CanOpen(cfg, w)
    ensures var m := T.Run(cfg, w, Before());
            Open(cfg, T.Run(cfg, m, [ReallocRouter(true)])) && T.Run(cfg, m, [ReallocRouter(true)]).slot == w.slot
  {
    OpeningRuns(cfg, w);
    RunConcat(cfg, w, Before(), [ReallocRouter(true)]);
    assert OPENING == Before() + [ReallocRouter(true)];
  }

  lemma HarmlessAndOpening(cfg: Config, p: System, moves: seq<Move>, n: F.NcnTier, o: F.OperatorTier)
    requires Fitting(cfg, p) && HarmlessRun(cfg, p, moves)
    ensures HarmlessRun(cfg, p, moves + [Epoch(ReallocRouter(true), n, o)])
  {
    assert (moves + [Epoch(ReallocRouter(true), n, o)])[..|moves|] == moves;
  }

  lemma LastOpeningMove(cfg: Config, p: System, rent: nat, n: F.NcnTier, o: F.OperatorTier)
    requires Fitting(cfg, p) && Current(cfg, p) && Linked(p.world, p.flow) && p.read.rent == rent && ThousandsWaiting(p, rent, n)
    requires p.flow.ncn.None? && (forall i :: 0 <= i < MAX_OPERATORS ==> p.flow.operators[i].None?)
    requires Open(cfg, T.Run(cfg, p.world, [ReallocRouter(true)]))
    ensures var r := Advance(cfg, p, Epoch(ReallocRouter(true), n, o));
            && r.Ok? && OpenSystem(cfg, r.value, rent, n, p.world.slot) && r.value.config == p.config
  {
    var w' := T.Run(cfg, p.world, [ReallocRouter(true)]);
    RouterGoesLive(cfg, p.world);
    OpeningMove(cfg, p, n, o, w');
    MoveKeepsCurrent(cfg, p, Epoch(ReallocRouter(true), n, o));
  }

  lemma RouterGoesLive(cfg: Config, w: World)
    requires ProperConfig(cfg) && Shaped(w) && !w.router.Live? && T.Run(cfg, w, [ReallocRouter(true)]).router.Live?
    ensures Apply(cfg, w, ReallocRouter(true)) == Ok(T.Run(cfg, w, [ReallocRouter(true)]))
    ensures T.Run(cfg, w, [ReallocRouter(true)]).slot == w.slot
  {
    assert [ReallocRouter(true)][..0] == [];
  }

  lemma OpeningMove(cfg: Config, p: System, n: F.NcnTier, o: F.OperatorTier, w': World)
    requires Fitting(cfg, p) && p.flow.ncn.None? && !p.world.router.Live? && w'.router.Live?
    requires F.NewNcnTier(p.read.rent, n) && n.balance <= p.flow.outside && Apply(cfg, p.world, ReallocRouter(true)) == Ok(w')
    ensures Advance(cfg, p, Epoch(ReallocRouter(true), n, o))
         == Ok(System(w', p.flow.(ncn := Some(n), outside := p.flow.outside - n.balance), p.config, Look(cfg, p.read, w')))
  {
  }

  // ---------------------------------------------------------------- the box closed in mid-round

  /** The votes and the wait, the routing call, and the closing. */
  function VotesAndWait(later: nat): seq<Instruction> { [CastBallot(0, 0), CastBallot(1, 0), Tick(later)] }

  /** Both winners wait for their shares of what has arrived. */
  ghost predicate ReadyToRoute(cfg: Config, p: System, rent: nat, n: F.NcnTier, decided: nat) {
    && Fitting(cfg, p) && Current(cfg, p) && Consistent(TwoVotes(cfg, decided)) && rent + 10000 <= U64_MAX && p.flow.ncn == Some(n) && F.NewNcnTier(rent, n) && n.received == 10000 && p.read.rent == rent
    && p.world.box == Live(TwoVotes(cfg, decided)) && p.world.state.Some? && p.world.snapshot.Some? && p.world.snapshot.value.fees == FEES
    && p.world.router.Live? && p.world.result.Some? && R.LateEnough(cfg, decided, p.world.slot)
    && p.world.state.value.slotConsensusReached == decided && !p.world.marker
  }

  /** With a limit of one, the first of the two winners is paid and the round pauses. */
  lemma NcnRoundPauses(cfg: Config, p: System, rent: nat, n: F.NcnTier, decided: nat)
    requires ReadyToRoute(cfg, p, rent, n, decided)
    ensures var r := Advance(cfg, p, Reward(F.RouteNcn(p.world.slot, 1)));
            r.Ok? && r.value.world == p.world && r.value.flow.ncn.Some? && N.StillRouting(r.value.flow.ncn.value.router)
  {
    CurrentMeans(cfg, p, 0);
    TwoVotesWin(cfg, decided);
    FirstOfTwo(n.router, p.read.box, rent, n.balance);
    AdvanceReward(cfg, p, F.RouteNcn(p.world.slot, 1));
  }

  lemma FirstOfTwo(r: N.Router, b: Box, rent: nat, balance: nat)
    requires N.IsNew(r) && Consistent(b) && GetWinningTally(b).Ok? && GetWinningTally(b).value.count == 2
    requires balance == rent + 10000 <= U64_MAX
    ensures var c := N.RouteRewards(r, rent, balance, FEES, b, 1);
            c.Ok? && N.StillRouting(c.value)
  {
    N.NewRouterSound(r, b);
    N.SplitExact(r, rent, balance, FEES);
    N.FirstCall(r, b, rent, FEES, Rounds.RouteCall(balance, 1));
  }

  /** The ballot box may be closed while the round is paused. */
  lemma BoxCloses(cfg: Config, p: System, n: F.NcnTier, o: F.OperatorTier, decided: nat)
    requires Fitting(cfg, p) && S.NcnRouting(p) && p.world.box.Live? && p.world.result.Some? && !p.world.marker && p.world.state.Some?
    requires p.world.state.value.slotConsensusReached == decided < NO_SLOT && R.LateEnough(cfg, decided, p.world.slot)
    ensures var r := Advance(cfg, p, Epoch(CloseAccount(BallotBoxAccount), n, o));
            r.Ok? && NcnStranded(r.value) && r.value.flow == p.flow
  {
  }

  lemma {:induction false} SystemRunConcat(cfg: Config, p: System, a: seq<Move>, b: seq<Move>)
    requires Fitting(cfg, p)
    ensures S.Run(cfg, p, a + b) == S.Run(cfg, S.Run(cfg, p, a), b)
    ensures HarmlessRun(cfg, p, a) && HarmlessRun(cfg, S.Run(cfg, p, a), b) ==> HarmlessRun(cfg, p, a + b)
  {
    if |b| == 0 {
      assert a + b == a;
    } else {
      SystemRunConcat(cfg, p, a, b[..|b| - 1]);
      assert (a + b)[..|a + b| - 1] == a + b[..|b| - 1];
    }
  }

  /** From the start to two votes and a paused round. */
  function TwoWinnersRun(later: nat, n: F.NcnTier, o: F.OperatorTier): seq<Move> {
    Moves(Before(), n, o) + [Epoch(ReallocRouter(true), n, o)] + Moves(VotesAndWait(later), n, o) + [Reward(F.RouteNcn(later, 1))]
  }

  lemma VotesDoNoHarm(cfg: Config, p: System, rent: nat, n: F.NcnTier, o: F.OperatorTier, decided: nat, later: nat)
    requires OpenSystem(cfg, p, rent, n, decided)
    ensures HarmlessRun(cfg, p, Moves(VotesAndWait(later), n, o))
  {
    QuietIsHarmless(cfg, p, VotesAndWait(later), n, o);
  }

  lemma BoxIsConsistent(cfg: Config, w: World, b: Box)
    requires Inv(cfg, w) && w.box == Live(b)
    ensures Consistent(b)
  {
  }

  lemma VotesMakeReady(cfg: Config, p: System, rent: nat, n: F.NcnTier, o: F.OperatorTier, decided: nat, later: nat)
    requires OpenSystem(cfg, p, rent, n, decided) && R.LateEnough(cfg, decided, later)
    requires F.NewNcnTier(rent, n) && n.received == 10000 && rent + 10000 <= U64_MAX && Consistent(TwoVotes(cfg, decided))
    ensures var p' := S.Run(cfg, p, Moves(VotesAndWait(later), n, o));
            ReadyToRoute(cfg, p', rent, n, decided) && p'.world.slot == later
  {
    QuietRun(cfg, p, VotesAndWait(later), n, o);
    BothVote(cfg, p.world, later);
  }

  /** The count of both votes is what a recount gives. */
  lemma TwoVotesConsistent(cfg: Config, p: System, rent: nat, n: F.NcnTier, o: F.OperatorTier, decided: nat, later: nat)
    requires SystemInv(cfg, p) && OpenSystem(cfg, p, rent, n, decided) && R.LateEnough(cfg, decided, later)
    ensures Consistent(TwoVotes(cfg, decided))
  {
    VotesDoNoHarm(cfg, p, rent, n, o, decided, later);
    S.RunKeeps(cfg, p, Moves(VotesAndWait(later), n, o));
    VotedBox(cfg, p, rent, n, o, decided, later);
    BoxIsConsistent(cfg, S.Run(cfg, p, Moves(VotesAndWait(later), n, o)).world, TwoVotes(cfg, decided));
  }

  lemma VotedBox(cfg: Config, p: System, rent: nat, n: F.NcnTier, o: F.OperatorTier, decided: nat, later: nat)
    requires OpenSystem(cfg, p, rent, n, decided) && R.LateEnough(cfg, decided, later)
    ensures S.Run(cfg, p, Moves(VotesAndWait(later), n, o)).world.box == Live(TwoVotes(cfg, decided))
  {
    QuietRun(cfg, p, VotesAndWait(later), n, o);
    BothVote(cfg, p.world, later);
  }

  lemma BothHaveVoted(cfg: Config, p: System, rent: nat, n: F.NcnTier, o: F.OperatorTier, opening: seq<Move>, decided: nat, later: nat)
    requires SystemInv(cfg, p) && HarmlessRun(cfg, p, opening) && OpenSystem(cfg, S.Run(cfg, p, opening), rent, n, decided)
    requires R.LateEnough(cfg, decided, later) && F.NewNcnTier(rent, n) && n.received == 10000 && rent + 10000 <= U64_MAX
    ensures var run := opening + Moves(VotesAndWait(later), n, o);
            HarmlessRun(cfg, p, run) && ReadyToRoute(cfg, S.Run(cfg, p, run), rent, n, decided) && S.Run(cfg, p, run).world.slot == later
  {
    var p1 := S.Run(cfg, p, opening);
    S.RunKeeps(cfg, p, opening);
    TwoVotesConsistent(cfg, p1, rent, n, o, decided, later);
    VotesMakeReady(cfg, p1, rent, n, o, decided, later);
    VotesDoNoHarm(cfg, p1, rent, n, o, decided, later);
    SystemRunConcat(cfg, p, opening, Moves(VotesAndWait(later), n, o));
  }

  lemma PausedAndStranded(cfg: Config, p: System, rent: nat, n: F.NcnTier, o: F.OperatorTier, run: seq<Move>, decided: nat, later: nat)
    requires Fitting(cfg, p) && HarmlessRun(cfg, p, run)
    requires ReadyToRoute(cfg, S.Run(cfg, p, run), rent, n, decided) && S.Run(cfg, p, run).world.slot == later
    ensures var routed, closing := run + [Reward(F.RouteNcn(later, 1))], Epoch(CloseAccount(BallotBoxAccount), n, o);
            && HarmlessRun(cfg, p, routed) && S.NcnRouting(S.Run(cfg, p, routed))
            && Advance(cfg, S.Run(cfg, p, routed), closing).Ok? && NcnStranded(S.Run(cfg, p, routed + [closing]))
  {
    var route, closing := Reward(F.RouteNcn(later, 1)), Epoch(CloseAccount(BallotBoxAccount), n, o);
    NcnRoundPauses(cfg, S.Run(cfg, p, run), rent, n, decided);
    RunOneMore(cfg, p, run, route);
    HarmlessAndOne(cfg, p, run, route);
    BoxCloses(cfg, S.Run(cfg, p, run + [route]), n, o, decided);
    RunOneMore(cfg, p, run + [route], closing);
  }

  /** From the start of the system to a paused round of the NCN, without harm; and then the
      ballot box is closed, which strands the round. */
  lemma BoxClosedInMidRound(cfg: Config, p: System, rent: nat, n: F.NcnTier, o: F.OperatorTier, later: nat)
    requires Start(cfg, p, rent) && CanOpen(cfg, p.world) && ThousandsWaiting(p, rent, n) && CurrentFees(p.config, cfg.epoch) == FEES
    requires R.LateEnough(cfg, p.world.slot, later)
    ensures var run, closing := TwoWinnersRun(later, n, o), Epoch(CloseAccount(BallotBoxAccount), n, o);
            && HarmlessRun(cfg, p, run) && S.NcnRouting(S.Run(cfg, p, run))
            && Advance(cfg, S.Run(cfg, p, run), closing).Ok? && NcnStranded(S.Run(cfg, p, run + [closing]))
  {
    var opening := Moves(Before(), n, o) + [Epoch(ReallocRouter(true), n, o)];
    StartIsSound(cfg, p, rent);
    OpeningDoesNoHarm(cfg, p, rent, n, o);
    SystemOpens(cfg, p, rent, n, o);
    RentFits(p, rent, n);
    BothHaveVoted(cfg, p, rent, n, o, opening, p.world.slot, later);
    PausedAndStranded(cfg, p, rent, n, o, opening + Moves(VotesAndWait(later), n, o), p.world.slot, later);
  }

  lemma RentFits(p: System, rent: nat, n: F.NcnTier)
    requires ThousandsWaiting(p, rent, n) && F.Supply(p.flow) <= U64_MAX
    ensures rent + 10000 <= U64_MAX
  {
  }

  // ---------------------------------------------------------------- an example

  lemma {:induction false} NoTiersHoldNothing(ts: seq<Option<F.OperatorTier>>)
    requires forall i :: 0 <= i < |ts| ==> ts[i].None?
    ensures SumBy(ts, F.Balance) == 0
  {
    if |ts| > 0 {
      NoTiersHoldNothing(ts[..|ts| - 1]);
    }
  }

  /** A system from which both runs above can start, whatever the rent. */
  function ExampleSystem(rent: nat, outside: nat): System {
    System(UNTOUCHED, F.Flow(None, seq(MAX_OPERATORS, _ => None), outside), FeeConfig(FEES, FEES, 1), NothingRead(EXAMPLE, rent))
  }

  lemma ExampleStarts(rent: nat, outside: nat)
    requires outside <= U64_MAX
    ensures var p := ExampleSystem(rent, outside);
            Start(EXAMPLE, p, rent) && CanOpen(EXAMPLE, p.world) && CurrentFees(p.config, EXAMPLE.epoch) == FEES && p.flow.outside == outside
  {
    ExampleOpens();
    NoTiersHoldNothing(ExampleSystem(rent, outside).flow.operators);
  }
}
