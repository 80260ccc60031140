/** Particular runs of an epoch, from an untouched world.  They hold for every configuration; an
    example configuration closes the module. */
module EpochRuns {
  import opened Base
  import opened Voting
  import opened Snapshots
  import opened WeightTables
  import opened FeeSchedule
  import opened EpochProtocol
  import opened EpochInvariant
  import T = EpochTheorems
  import E = EpochStates
  import Threshold

  // ---------------------------------------------------------------- taking runs apart

  lemma {:induction false} RunConcat(cfg: Config, w: World, a: seq<Instruction>, b: seq<Instruction>)
    requires ProperConfig(cfg) && Shaped(w)
    ensures T.Run(cfg, w, a + b) == T.Run(cfg, T.Run(cfg, w, a), b)
  {
    if |b| == 0 {
      assert a + b == a;
    } else {
      RunConcat(cfg, w, a, b[..|b| - 1]);
      assert (a + b)[..|a + b| - 1] == a + b[..|b| - 1];
    }
  }

  /** The first instruction of a run, when it is accepted, and the rest. */
  lemma RunFirst(cfg: Config, w: World, ins: Instruction, rest: seq<Instruction>, w': World)
    requires ProperConfig(cfg) && Shaped(w) && Apply(cfg, w, ins) == Ok(w')
    ensures T.Run(cfg, w, [ins] + rest) == T.Run(cfg, w', rest)
  {
    RunConcat(cfg, w, [ins], rest);
    assert [ins][..0] == [];
  }

  lemma RunLast(cfg: Config, w: World, ins: Instruction, w': World)
    requires ProperConfig(cfg) && Shaped(w) && Apply(cfg, w, ins) == Ok(w')
    ensures T.Run(cfg, w, [ins]) == w'
  {
    RunFirst(cfg, w, ins, [], w');
    assert [ins] + [] == [ins];
  }

  lemma RunTwo(cfg: Config, w: World, first: Instruction, second: Instruction, w1: World, w2: World)
    requires ProperConfig(cfg) && Shaped(w) && Apply(cfg, w, first) == Ok(w1) && Shaped(w1) && Apply(cfg, w1, second) == Ok(w2)
    ensures T.Run(cfg, w, [first, second]) == w2
  {
    RunFirst(cfg, w, first, [second], w1);
    RunLast(cfg, w1, second, w2);
    assert [first, second] == [first] + [second];
  }

  // ---------------------------------------------------------------- opening an epoch

  const FEES := Fees(0, PROTOCOL_FEE_BPS, 0)

  /** A registry of vaults and one mint. */
  function Weighing(registry: seq<nat>): seq<Instruction> {
    [InitializeEpochState, InitializeWeightTable, ReallocWeightTable(true, registry, 1), SetWeights([0])]
  }

  function Seating(i: nat, weight: nat): seq<Instruction> {
    [InitializeOperatorSnapshot(i, true, 0), SnapshotDelegation(i, Entry(1, 0, weight))]
  }

  const BALLOT := [InitializeBallotBox, ReallocBallotBox(true)]

  const ROUTER := [InitializeRouter, ReallocRouter(true)]

  /** One vault and one mint; two operators with stakes 20 and 10; and a ballot box. */
  const UNROUTED: seq<Instruction> :=
    Weighing([0]) + [InitializeEpochSnapshot(2, FEES)] + Seating(0, 20) + Seating(1, 10) + BALLOT

  /** The same with a router. */
  const OPENING: seq<Instruction> := UNROUTED + ROUTER

  /** An untouched epoch that may be opened now. */
  ghost predicate CanOpen(cfg: Config, w: World) {
    T.Initial(cfg, w) && cfg.epoch <= cfg.timing.epochOf(w.slot)
  }

  function Weighed(w: World, registry: seq<nat>): World {
    w.(state := Some(E.OnSetWeight(E.OnWeightTable(E.NewEpochState(), |registry|, 1), 1, 1)),
       weights := Live(WeightTable(registry, [w.slot])))
  }

  lemma WeighingRuns(cfg: Config, w: World, registry: seq<nat>)
    requires CanOpen(cfg, w) && |registry| > 0
    ensures T.Run(cfg, w, Weighing(registry)) == Weighed(w, registry)
  {
    var run := Weighing(registry);
    var w1 := w.(state := Some(E.NewEpochState()));
    var w2 := w1.(weights := Partial);
    var w3 := w2.(weights := Live(WeightTable(registry, seq(1, _ => 0))), state := Some(E.OnWeightTable(E.NewEpochState(), |registry|, 1)));
    RunTwo(cfg, w, run[0], run[1], w1, w2);
    OneMintWeighed(registry, w.slot);
    RunTwo(cfg, w2, run[2], run[3], w3, Weighed(w, registry));
    RunConcat(cfg, w, [run[0], run[1]], [run[2], run[3]]);
    assert run == [run[0], run[1]] + [run[2], run[3]];
  }

  lemma OneMintWeighed(registry: seq<nat>, slot: nat)
    requires slot > 0
    ensures var t, t' := WeightTable(registry, seq(1, _ => 0)), WeightTable(registry, [slot]);
            !TableFinalized(t) && TableFinalized(t') && WeightCount(t') == 1 && SetMints(t, [0], slot) == Ok(t')
  {
    var t, t' := WeightTable(registry, seq(1, _ => 0)), WeightTable(registry, [slot]);
    NoneSet(t.slotSet);
    assert [slot][..0] == [];
    assert SetMints(t, [0][..0], slot) == Ok(t);
    assert t.slotSet[0 := slot] == t'.slotSet;
  }

  /** The epoch snapshot of two operators, nobody registered yet. */
  function Snapshotted(w: World): World
    requires w.state.Some?
  {
    w.(snapshot := Some(EpochSnapshot(2, 1, 0, 0, 0, 0, FEES)), state := Some(E.OnEpochSnapshot(w.state.value, 2)))
  }

  function SeatSnapshot(weight: nat, slot: nat): OperatorSnapshot {
    OperatorSnapshot(true, 0, 1, 1, 1, weight, slot, [Entry(1, 0, weight)])
  }

  /** The world after an operator's only delegation. */
  function Seated(w: World, i: nat, weight: nat): World
    requires Shaped(w) && i < MAX_OPERATORS && w.state.Some? && w.snapshot.Some?
  {
    var s, es := w.snapshot.value, w.state.value;
    w.(operators := w.operators[i := Some(SeatSnapshot(weight, w.slot))],
       snapshot := Some(s.(operatorsRegistered := s.operatorsRegistered + 1, validDelegations := s.validDelegations + 1,
                           stake := s.stake + weight,
                           slotFinalized := if s.operatorsRegistered + 1 == s.operatorCount then w.slot else s.slotFinalized)),
       state := Some(es.(operatorSnapshots := es.operatorSnapshots[i := E.Created],
                         operatorProgress := es.operatorProgress[i := E.Progress(1, es.vaultCount)],
                         snapshotProgress := E.Progress(es.snapshotProgress.tally + 1, es.snapshotProgress.total))))
  }

  /** Ready for operator `i` of two. */
  ghost predicate SeatFree(w: World, i: nat) {
    && Shaped(w) && i < MAX_OPERATORS && w.state.Some? && !w.state.value.isClosing && !w.marker
    && w.weights.Live? && w.weights.value.registry == [0] && w.operators[i].None?
    && w.snapshot.Some?
    && (var s := w.snapshot.value;
        && i < s.operatorCount == 2 && s.vaultCount == 1 && s.operatorsRegistered < 2 && s.validDelegations < 2 && s.stake < 100
        && w.state.value.snapshotProgress.tally < 2)
  }

  /** The operator's snapshot exists and has no delegation yet. */
  function Waiting(w: World, i: nat): World
    requires Shaped(w) && i < MAX_OPERATORS && w.state.Some?
  {
    var es := w.state.value;
    w.(operators := w.operators[i := Some(OperatorSnapshot(true, 0, 1, 0, 0, 0, 0, []))],
       state := Some(es.(operatorSnapshots := es.operatorSnapshots[i := E.Created],
                         operatorProgress := es.operatorProgress[i := E.Progress(0, es.vaultCount)])))
  }

  lemma SeatingRuns(cfg: Config, w: World, i: nat, weight: nat)
    requires ProperConfig(cfg) && SeatFree(w, i) && 0 < weight < 100
    ensures T.Run(cfg, w, Seating(i, weight)) == Seated(w, i, weight)
  {
    var first, second := InitializeOperatorSnapshot(i, true, 0), SnapshotDelegation(i, Entry(1, 0, weight));
    assert Apply(cfg, w, first) == Ok(Waiting(w, i));
    RunFirst(cfg, w, first, [second], Waiting(w, i));
    SecondSeatingStep(cfg, w, i, weight);
    RunLast(cfg, Waiting(w, i), second, Seated(w, i, weight));
    assert Seating(i, weight) == [first] + [second];
  }

  lemma SecondSeatingStep(cfg: Config, w: World, i: nat, weight: nat)
    requires ProperConfig(cfg) && SeatFree(w, i) && 0 < weight < 100
    ensures Apply(cfg, Waiting(w, i), SnapshotDelegation(i, Entry(1, 0, weight))) == Ok(Seated(w, i, weight))
  {
    var w1, w' := Waiting(w, i), Seated(w, i, weight);
    assert w.weights.value.registry[0] in Registry(w.weights.value);
    OneDelegation(w1.operators[i].value, weight, w.slot);
    assert w1.operators[i := w'.operators[i]] == w'.operators;
    var p := w1.state.value.operatorProgress;
    assert p[i := E.Progress(1, p[i].total)] == w'.state.value.operatorProgress;
    DelegationApplies(cfg, w1, i, weight, w');
  }

  lemma OneDelegation(empty: OperatorSnapshot, weight: nat, slot: nat)
    requires empty == OperatorSnapshot(true, 0, 1, 0, 0, 0, 0, []) && 0 < weight < 100
    ensures Register(empty, slot, Entry(1, 0, weight)) == Ok(SeatSnapshot(weight, slot))
  {
    assert empty.entries + [Entry(1, 0, weight)] == [Entry(1, 0, weight)];
  }

  lemma DelegationApplies(cfg: Config, w: World, i: nat, weight: nat, w': World)
    requires ProperConfig(cfg) && Shaped(w) && i < MAX_OPERATORS && w.state.Some? && w.weights.Live? && w.snapshot.Some?
    requires 0 in Registry(w.weights.value) && w.operators[i].Some?
    requires Register(w.operators[i].value, w.slot, Entry(1, 0, weight)) == Ok(SeatSnapshot(weight, w.slot))
    requires var s, es := w.snapshot.value, w.state.value;
             && s.operatorsRegistered < s.operatorCount == 2 && s.validDelegations < 2 && s.stake < 100 && weight < 100
             && es.operatorProgress[i].tally == 0 && es.snapshotProgress.tally < 2
             && w' == w.(operators := w.operators[i := Some(SeatSnapshot(weight, w.slot))], snapshot := Seated(w, i, weight).snapshot,
                         state := Some(es.(operatorProgress := es.operatorProgress[i := E.Progress(1, es.operatorProgress[i].total)],
                                           snapshotProgress := E.Progress(es.snapshotProgress.tally + 1, es.snapshotProgress.total))))
    ensures Apply(cfg, w, SnapshotDelegation(i, Entry(1, 0, weight))) == Ok(w')
  {
  }

  /** Two of two operators are registered, with stakes 20 and 10, and nobody has voted. */
  ghost predicate Polling(cfg: Config, w: World) {
    && ProperConfig(cfg) && Shaped(w) && 0 < w.slot < NO_SLOT && !w.marker
    && w.state.Some? && !w.state.value.isClosing && !E.IsConsensusReached(w.state.value)
    && w.weights.Live? && TableFinalized(w.weights.value) && w.weights.value.registry == [0]
    && w.snapshot.Some? && EpochFinalized(w.snapshot.value) && w.snapshot.value.stake == 30 && w.snapshot.value.fees == FEES
    && w.operators[0].Some? && w.operators[0].value.stake == 20
    && w.operators[1].Some? && w.operators[1].value.stake == 10
    && (forall i :: 2 <= i < MAX_OPERATORS ==> w.operators[i].None?)
    && (forall i :: 0 <= i < MAX_OPERATORS ==> !w.operatorRouters[i])
    && w.box == Live(EmptyBox(cfg.epoch)) && w.result == Some(NO_RESULT)
  }

  /** And there is a router. */
  ghost predicate Open(cfg: Config, w: World) { Polling(cfg, w) && w.router.Live? }

  lemma BallotRuns(cfg: Config, w: World)
    requires ProperConfig(cfg) && Shaped(w) && w.state.Some? && !w.state.value.isClosing && !w.marker && w.box.Absent? && w.result.None?
    ensures T.Run(cfg, w, BALLOT) ==
            w.(box := Live(EmptyBox(cfg.epoch)), result := Some(NO_RESULT), state := Some(E.OnBallotBox(w.state.value)))
  {
    var w1 := w.(box := Partial, result := Some(NO_RESULT));
    RunTwo(cfg, w, InitializeBallotBox, ReallocBallotBox(true), w1,
           w1.(box := Live(EmptyBox(cfg.epoch)), state := Some(E.OnBallotBox(w.state.value))));
  }

  lemma RouterRuns(cfg: Config, w: World)
    requires ProperConfig(cfg) && Shaped(w) && w.state.Some? && !w.state.value.isClosing && !w.marker && w.router.Absent?
    ensures T.Run(cfg, w, ROUTER) == w.(router := Live(()), state := Some(w.state.value.(ncnRouter := E.CreatedWithReceiver)))
  {
    var w1 := w.(router := Partial);
    RunTwo(cfg, w, InitializeRouter, ReallocRouter(true), w1,
           w1.(router := Live(()), state := Some(w.state.value.(ncnRouter := E.CreatedWithReceiver))));
  }

  lemma SnapshottingRuns(cfg: Config, w: World)
    requires CanOpen(cfg, w)
    ensures T.Run(cfg, Weighed(w, [0]), [InitializeEpochSnapshot(2, FEES)]) == Snapshotted(Weighed(w, [0]))
  {
    OneMintWeighed([0], w.slot);
    RunLast(cfg, Weighed(w, [0]), InitializeEpochSnapshot(2, FEES), Snapshotted(Weighed(w, [0])));
  }

  /** The opening runs do what they say. */
  lemma UnroutedRuns(cfg: Config, w: World)
    requires CanOpen(cfg, w)
    ensures var w' := T.Run(cfg, w, UNROUTED);
            Polling(cfg, w') && w'.slot == w.slot && w'.router.Absent? && w'.state.value.ncnRouter == E.DNE
  {
    var r1 := Weighing([0]) + [InitializeEpochSnapshot(2, FEES)];
    RunConcat(cfg, w, Weighing([0]), [InitializeEpochSnapshot(2, FEES)]);
    WeighingRuns(cfg, w, [0]);
    SnapshottingRuns(cfg, w);
    var w1 := Snapshotted(Weighed(w, [0]));
    RunConcat(cfg, w, r1, Seating(0, 20));
    SeatingRuns(cfg, w1, 0, 20);
    var w2 := Seated(w1, 0, 20);
    RunConcat(cfg, w, r1 + Seating(0, 20), Seating(1, 10));
    SeatingRuns(cfg, w2, 1, 10);
    RunConcat(cfg, w, r1 + Seating(0, 20) + Seating(1, 10), BALLOT);
    BallotRuns(cfg, Seated(w2, 1, 10));
    OneMintWeighed([0], w.slot);
  }

  lemma OpeningRuns(cfg: Config, w: World)
    requires CanOpen(cfg, w)
    ensures Open(cfg, T.Run(cfg, w, OPENING)) && T.Run(cfg, w, OPENING).slot == w.slot
  {
    UnroutedRuns(cfg, w);
    RunConcat(cfg, w, UNROUTED, ROUTER);
    RouterRuns(cfg, T.Run(cfg, w, UNROUTED));
  }

  // ---------------------------------------------------------------- two ways to decide

  /** The box after operator `i` alone has voted for ballot 0. */
  function OneVote(cfg: Config, i: nat, weight: nat, slot: nat, decided: bool): Box
    requires i < |cfg.operators|
  {
    Box(cfg.epoch, if decided then slot else NO_SLOT, 1, 1, if decided then Ballot(0, true) else NO_BALLOT,
        [Vote(cfg.operators[i], slot, weight, 0)], [Tally(0, Ballot(0, true), weight, 1)])
  }

  lemma OneVoteCounted(cfg: Config, i: nat, weight: nat, slot: nat, validSlots: nat)
    requires i < |cfg.operators| && weight <= 30
    ensures CastAndCount(EmptyBox(cfg.epoch), cfg.operators[i], 0, weight, slot, validSlots, 30) == Ok(OneVote(cfg, i, weight, slot, weight >= 20))
  {
    var b, b1 := EmptyBox(cfg.epoch), OneVote(cfg, i, weight, slot, false);
    assert b.votes + b1.votes == b1.votes && b.tallies + b1.tallies == b1.tallies;
    assert CastVote(b, cfg.operators[i], NewBallot(0), weight, slot, validSlots) == Ok(b1);
    Threshold.HalfTheScale(30, weight);
    assert Heaviest(b1.tallies) == 0;
  }

  /** The larger operator decides alone. */
  function Decided(cfg: Config, w: World): World
    requires |cfg.operators| == MAX_OPERATORS && w.state.Some?
  {
    w.(box := Live(OneVote(cfg, 0, 20, w.slot, true)), result := Some(ConsensusResult(0, 20, 30, w.slot)),
       state := Some(E.OnCastVote(w.state.value, 1, true, w.slot)))
  }

  lemma LargerVoteDecides(cfg: Config, w: World)
    requires Polling(cfg, w)
    ensures Apply(cfg, w, CastBallot(0, 0)) == Ok(Decided(cfg, w))
  {
    OneVoteCounted(cfg, 0, 20, w.slot, cfg.timing.validSlots);
    var b := OneVote(cfg, 0, 20, w.slot, true);
    assert TallyOf(b.tallies[..0], b.winningBallot) == 0;
    assert GetWinningTally(b) == Ok(b.tallies[0]);
  }

  /** The smaller operator's vote decides nothing and publishes nothing. */
  lemma SmallerVoteDecidesNothing(cfg: Config, w: World)
    requires Open(cfg, w)
    ensures Apply(cfg, w, CastBallot(1, 0)) ==
            Ok(w.(box := Live(OneVote(cfg, 1, 10, w.slot, false)), state := Some(E.OnCastVote(w.state.value, 1, false, w.slot))))
  {
    OneVoteCounted(cfg, 1, 10, w.slot, cfg.timing.validSlots);
  }

  /** A tie break that is not published: from an untouched epoch, this run ends with a decided
      ballot box, an epoch state that knows it, and an empty consensus result; and routing is
      accepted at once. */
  lemma BrokenTieIsNotPublished(cfg: Config, w: World, later: nat)
    requires CanOpen(cfg, w) && w.slot <= later < NO_SLOT
    requires cfg.epoch + cfg.timing.epochsBeforeStall <= U64_MAX && cfg.timing.epochOf(later) >= cfg.epoch + cfg.timing.epochsBeforeStall
    ensures var w' := T.Run(cfg, w, OPENING + [CastBallot(1, 0), Tick(later), SetTieBreakerBallot(0)]);
            && w'.box.Live? && TieBreakerSet(w'.box.value) && w'.state.Some? && w'.state.value.wasTieBreakerSet
            && w'.result == Some(NO_RESULT) && Apply(cfg, w', RouteRewards).Ok?
  {
    var rest := [CastBallot(1, 0), Tick(later), SetTieBreakerBallot(0)];
    OpeningRuns(cfg, w);
    RunConcat(cfg, w, OPENING, rest);
    TieAfterOpening(cfg, T.Run(cfg, w, OPENING), later);
  }

  lemma TieAfterOpening(cfg: Config, w: World, later: nat)
    requires Open(cfg, w) && w.slot <= later < NO_SLOT
    requires cfg.epoch + cfg.timing.epochsBeforeStall <= U64_MAX && cfg.timing.epochOf(later) >= cfg.epoch + cfg.timing.epochsBeforeStall
    ensures var w' := T.Run(cfg, w, [CastBallot(1, 0), Tick(later), SetTieBreakerBallot(0)]);
            && w'.box.Live? && TieBreakerSet(w'.box.value) && w'.state.Some? && w'.state.value.wasTieBreakerSet
            && w'.result == Some(NO_RESULT) && Apply(cfg, w', RouteRewards).Ok?
  {
    SmallerVoteDecidesNothing(cfg, w);
    var w1 := Apply(cfg, w, CastBallot(1, 0)).value;
    var w2 := w1.(slot := later);
    RunFirst(cfg, w, CastBallot(1, 0), [Tick(later), SetTieBreakerBallot(0)], w1);
    TieBroken(cfg, w2, OneVote(cfg, 1, 10, w.slot, false));
    RunTwo(cfg, w1, Tick(later), SetTieBreakerBallot(0), w2, Apply(cfg, w2, SetTieBreakerBallot(0)).value);
    assert [CastBallot(1, 0), Tick(later), SetTieBreakerBallot(0)] == [CastBallot(1, 0)] + [Tick(later), SetTieBreakerBallot(0)];
  }

  lemma TieBroken(cfg: Config, w: World, b: Box)
    requires ProperConfig(cfg) && Shaped(w) && w.state.Some? && !E.IsConsensusReached(w.state.value) && w.slot < NO_SLOT
    requires w.snapshot.Some? && w.router.Live? && w.box == Live(b)
    requires b.epoch == cfg.epoch && !IsConsensusReached(b) && |b.tallies| == 1 && b.tallies[0].ballot == NewBallot(0)
    requires cfg.epoch + cfg.timing.epochsBeforeStall <= U64_MAX && cfg.timing.epochOf(w.slot) >= cfg.epoch + cfg.timing.epochsBeforeStall
    ensures Apply(cfg, w, SetTieBreakerBallot(0)).Ok?
    ensures var w' := Apply(cfg, w, SetTieBreakerBallot(0)).value;
            && w'.box.Live? && TieBreakerSet(w'.box.value) && w'.state.Some? && w'.state.value.wasTieBreakerSet
            && w'.result == w.result && Apply(cfg, w', RouteRewards).Ok?
  {
    assert SameBallot(b.tallies[0].ballot, NewBallot(0));
  }

  /** The phase is the distribution, the routing call is still refused, and one slot later it is
      accepted. */
  ghost predicate AheadOfGate(cfg: Config, w: World)
    requires ProperConfig(cfg) && Shaped(w)
  {
    && w.state.Some? && E.CurrentState(w.state.value, cfg.timing, w.slot) == Ok(E.Distribute)
    && Apply(cfg, w, RouteRewards) == Err(VotingIsNotOver)
    && Apply(cfg, w.(slot := w.slot + 1), RouteRewards).Ok?
  }

  /** Distribution without routing: this run ends in the last slot of the voting window, where
      the phase is already the distribution and the routing call is still refused; one slot
      later it is accepted. */
  lemma PhaseAheadOfGate(cfg: Config, w: World, last: nat)
    requires CanOpen(cfg, w) && last == w.slot + cfg.timing.validSlots && last + 1 < NO_SLOT
    requires cfg.timing.epochOf(last) < cfg.timing.epochOf(w.slot) + cfg.timing.epochsBeforeClose
    ensures AheadOfGate(cfg, T.Run(cfg, w, OPENING + [CastBallot(0, 0), Tick(last)]))
  {
    OpeningRuns(cfg, w);
    OpenedIsStaged(cfg, w);
    RunConcat(cfg, w, OPENING, [CastBallot(0, 0), Tick(last)]);
    PhaseAheadAfterOpening(cfg, T.Run(cfg, w, OPENING), last);
  }

  lemma PhaseAheadAfterOpening(cfg: Config, w: World, last: nat)
    requires Open(cfg, w) && last == w.slot + cfg.timing.validSlots && last + 1 < NO_SLOT
    requires cfg.timing.epochOf(last) < cfg.timing.epochOf(w.slot) + cfg.timing.epochsBeforeClose
    requires w.state.value.weightTable != E.DNE && w.state.value.setWeightProgress.IsComplete()
    requires w.state.value.epochSnapshot != E.DNE && w.state.value.snapshotProgress.IsComplete() && w.state.value.ballotBox != E.DNE
    ensures AheadOfGate(cfg, T.Run(cfg, w, [CastBallot(0, 0), Tick(last)]))
  {
    DecidedAfterOpening(cfg, w, last);
    WindowEnds(cfg, Decided(cfg, w).(slot := last), w.slot);
  }

  lemma DecidedAfterOpening(cfg: Config, w: World, later: nat)
    requires Polling(cfg, w) && w.slot <= later < NO_SLOT
    ensures T.Run(cfg, w, [CastBallot(0, 0), Tick(later)]) == Decided(cfg, w).(slot := later)
  {
    LargerVoteDecides(cfg, w);
    RunTwo(cfg, w, CastBallot(0, 0), Tick(later), Decided(cfg, w), Decided(cfg, w).(slot := later));
  }

  /** Phase and gate in the last slot of the window. */
  lemma WindowEnds(cfg: Config, w: World, decided: nat)
    requires ProperConfig(cfg) && Shaped(w) && w.box.Live? && w.snapshot.Some? && w.router.Live? && w.state.Some?
    requires w.box.value.winningBallot.isValid && w.box.value.slotConsensusReached == decided == w.state.value.slotConsensusReached
    requires w.slot == decided + cfg.timing.validSlots < U64_MAX && E.Staged(w.state.value)
    requires cfg.timing.epochOf(w.slot) < cfg.timing.epochOf(decided) + cfg.timing.epochsBeforeClose
    ensures AheadOfGate(cfg, w)
  {
  }

  /** What the phase of the opened epoch depends on, by the invariant. */
  lemma OpenedIsStaged(cfg: Config, w: World)
    requires CanOpen(cfg, w)
    ensures var es := T.Run(cfg, w, OPENING).state;
            && es.Some? && es.value.weightTable != E.DNE && es.value.setWeightProgress.IsComplete()
            && es.value.epochSnapshot != E.DNE && es.value.snapshotProgress.IsComplete() && es.value.ballotBox != E.DNE
  {
    OpeningRuns(cfg, w);
    NoLoss(cfg, w, OPENING);
    T.EveryReachableStateIsSound(cfg, w, OPENING);
    FinishedIsStaged(cfg, T.Run(cfg, w, OPENING));
  }

  lemma {:induction false} NoLoss(cfg: Config, w: World, run: seq<Instruction>)
    requires ProperConfig(cfg) && Shaped(w)
    requires forall i :: 0 <= i < |run| ==> !run[i].LoseState?
    ensures T.OwnCloses(cfg, w, run)
  {
    if |run| > 0 {
      NoLoss(cfg, w, run[..|run| - 1]);
    }
  }

  // ---------------------------------------------------------------- an example

  /** Slots in epochs of 432000, a window of 1000 slots, stalled after one epoch, closable after ten. */
  const EXAMPLE := Config(E.Timing(1000, 1, 10, (slot: nat) => slot / 432000), 0, seq(MAX_OPERATORS, (i: nat) => i + 1))

  const UNTOUCHED := World(1, false, None, Absent, None, seq(MAX_OPERATORS, _ => None), Absent, None, Absent, seq(MAX_OPERATORS, _ => false))

  lemma EpochsGrow(a: nat, b: nat)
    requires a <= b
    ensures a / 432000 <= b / 432000
  {
  }

  /** The conditions above are met: the runs exist. */
  lemma ExampleOpens()
    ensures CanOpen(EXAMPLE, UNTOUCHED)
    ensures EXAMPLE.timing.epochOf(432000) == 1 && EXAMPLE.timing.epochOf(1001) == 0 && EXAMPLE.timing.epochOf(4320000) == 10
  {
    forall a: nat, b: nat | a <= b
      ensures EXAMPLE.timing.epochOf(a) <= EXAMPLE.timing.epochOf(b)
    {
      EpochsGrow(a, b);
    }
  }
}
