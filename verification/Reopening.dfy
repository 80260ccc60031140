/** Losing an epoch's state to the closing instruction of another epoch.  The handler takes any
    account with the epoch state's discriminator, but checks the state of the epoch it was called
    for.  This module says when that is accepted, what it does to the guarantees of the epoch
    whose state is lost, and under which exact condition they survive. */
module Reopening {
  import opened Base
  import opened Sums
  import opened Voting
  import opened Snapshots
  import WeightTables
  import opened EpochProtocol
  import opened EpochInvariant
  import opened EpochRuns
  import EpochEffects
  import T = EpochTheorems
  import E = EpochStates

  // ---------------------------------------------------------------- for every epoch

  /** A close that names another epoch's state is accepted exactly when the issuing epoch has
      nothing left but its own state, and the other epoch has a state, whatever else it has.
      The issuing epoch stays sound; the other one loses its state and gets no marker. */
  lemma CloseElsewhereExactlyWhen(cfg: Config, a: World, b: World)
    requires Inv(cfg, a) && Shaped(b)
    ensures var r := CloseElsewhere(cfg, a, b);
            && (r.Ok? <==>
                  && a.state.Some? && E.CanClose(a.state.value, cfg.timing, a.slot) == Ok(true)
                  && E.AreAllClosed(a.state.value) && b.state.Some?)
            && (r.Ok? ==>
                  && Inv(cfg, r.value.0) && Dormant(a)
                  && r.value.1.state.None? && r.value.1.marker == b.marker && Ok(r.value.1) == DoLoseState(b))
  {
    if CloseElsewhere(cfg, a, b).Ok? {
      FlagKeeps(cfg, a);
      EpochStateGoes(cfg, a);
    }
  }

  /** Nothing that an epoch state keeps a status for is in use. */
  ghost predicate NothingInUse(w: World) {
    && !w.weights.Live? && w.snapshot.None? && NoOperatorsIn(w.operators) && !w.box.Live? && !w.router.Live?
    && (forall i :: 0 <= i < |w.operatorRouters| ==> !w.operatorRouters[i])
  }

  /** An epoch that has lost its state is opened again by its next initialization and starts
      over at the first phase.  The phase has then moved back unless it was the first, and the
      reopened epoch is sound if and only if nothing was in use. */
  lemma ReopeningStartsOver(cfg: Config, w: World)
    requires Inv(cfg, w) && w.state.Some? && cfg.epoch <= cfg.timing.epochOf(w.slot)
    ensures var lost := Apply(cfg, w, LoseState);
            && lost.Ok? && !lost.value.marker
            && var again := Apply(cfg, lost.value, InitializeEpochState);
               && again.Ok? && again.value == w.(state := Some(E.NewEpochState()))
               && E.CurrentState(again.value.state.value, cfg.timing, w.slot) == Ok(E.SetWeight)
               && (E.Rank(Ok(E.SetWeight)) < E.Rank(E.CurrentState(w.state.value, cfg.timing, w.slot)) <==>
                     E.CurrentState(w.state.value, cfg.timing, w.slot) != Ok(E.SetWeight))
               && (Inv(cfg, again.value) <==> NothingInUse(w))
  {
    var w' := w.(state := Some(E.NewEpochState()));
    if NothingInUse(w) {
      assert Votes(w) == [];
      assert LiveInv(cfg, w', w'.state.value);
    }
  }

  // ---------------------------------------------------------------- particular runs

  const REOPENING := [LoseState, InitializeEpochState]

  lemma ReopeningRuns(cfg: Config, w: World)
    requires ProperConfig(cfg) && Shaped(w) && w.state.Some? && !w.marker && cfg.epoch <= cfg.timing.epochOf(w.slot)
    ensures T.Run(cfg, w, REOPENING) == w.(state := Some(E.NewEpochState()))
  {
    RunTwo(cfg, w, LoseState, InitializeEpochState, w.(state := None), w.(state := Some(E.NewEpochState())));
  }

  /** The phase moves back and the mirror breaks: weighing completes the first phase, and after
      losing and initializing the state the epoch is in it again, with a live and finished weight
      table that its state does not know of. */
  lemma PhaseMovesBack(cfg: Config, w: World)
    requires CanOpen(cfg, w)
    ensures var w1, w2 := T.Run(cfg, w, Weighing([0])), T.Run(cfg, w, Weighing([0]) + REOPENING);
            && w1.state.Some? && E.CurrentState(w1.state.value, cfg.timing, w1.slot) == Ok(E.Snapshot)
            && w2.state.Some? && E.CurrentState(w2.state.value, cfg.timing, w2.slot) == Ok(E.SetWeight)
            && w2.weights.Live? && w2.state.value.weightTable == E.DNE && w2.state.value.setWeightProgress == E.Progress(0, 0)
  {
    WeighingRuns(cfg, w, [0]);
    RunConcat(cfg, w, Weighing([0]), REOPENING);
    ReopeningRuns(cfg, Weighed(w, [0]));
  }

  /** The slot is late enough to close what was decided in slot `decided`, and to route. */
  ghost predicate LateEnough(cfg: Config, decided: nat, later: nat) {
    && decided + cfg.timing.validSlots < later < NO_SLOT
    && cfg.timing.epochOf(later) >= cfg.timing.epochOf(decided) + cfg.timing.epochsBeforeClose
  }

  /** Consensus is old enough for closing. */
  ghost predicate Closable(cfg: Config, w: World) {
    && ProperConfig(cfg) && Shaped(w) && !w.marker && w.state.Some?
    && E.CanClose(w.state.value, cfg.timing, w.slot) == Ok(true)
  }

  lemma DecidedIsClosable(cfg: Config, w: World, later: nat)
    requires Open(cfg, w) && LateEnough(cfg, w.slot, later)
    ensures Closable(cfg, Decided(cfg, w).(slot := later))
    ensures Apply(cfg, Decided(cfg, w).(slot := later), RouteRewards).Ok?
  {
  }

  const SHARED := [CloseAccount(WeightTableAccount), CloseAccount(EpochSnapshotAccount), CloseAccount(BallotBoxAccount), CloseAccount(RouterAccount)]

  function SharedClosed(w: World): World
    requires w.state.Some?
  {
    w.(weights := Absent, snapshot := None, box := Absent, router := Absent,
       state := Some(w.state.value.(isClosing := true, weightTable := E.Closed, epochSnapshot := E.Closed,
                                    ballotBox := E.Closed, ncnRouter := E.Closed)))
  }

  /** The accounts that are not an operator's, closed one after the other. */
  lemma SharedCloses(cfg: Config, w: World)
    requires Closable(cfg, w) && w.weights.Live? && w.snapshot.Some? && w.box.Live? && w.router.Live?
    ensures T.Run(cfg, w, SHARED) == SharedClosed(w) && Closable(cfg, SharedClosed(w))
  {
    FirstPairCloses(cfg, w);
    var w2 := T.Run(cfg, w, SHARED[..2]);
    var w3 := w2.(box := Absent, state := Some(w2.state.value.(ballotBox := E.Closed)));
    RunTwo(cfg, w2, SHARED[2], SHARED[3], w3, SharedClosed(w));
    RunConcat(cfg, w, SHARED[..2], [SHARED[2], SHARED[3]]);
    assert SHARED == SHARED[..2] + [SHARED[2], SHARED[3]];
  }

  lemma FirstPairCloses(cfg: Config, w: World)
    requires Closable(cfg, w) && w.weights.Live? && w.snapshot.Some?
    ensures T.Run(cfg, w, SHARED[..2]) ==
            w.(weights := Absent, snapshot := None,
               state := Some(w.state.value.(isClosing := true, weightTable := E.Closed, epochSnapshot := E.Closed)))
  {
    var w1 := w.(weights := Absent, state := Some(w.state.value.(isClosing := true, weightTable := E.Closed)));
    var w2 := w1.(snapshot := None, state := Some(w1.state.value.(epochSnapshot := E.Closed)));
    RunTwo(cfg, w, SHARED[0], SHARED[1], w1, w2);
    assert SHARED[..2] == [SHARED[0], SHARED[1]];
  }

  lemma StateCloses(cfg: Config, w: World)
    requires Closable(cfg, w) && E.AreAllClosed(w.state.value)
    ensures T.Run(cfg, w, [CloseAccount(EpochStateAccount)]) == w.(state := None, marker := true)
  {
    RunLast(cfg, w, CloseAccount(EpochStateAccount), w.(state := None, marker := true));
  }

  /** A marker beside live accounts: the epoch is opened, loses its state, is initialized again,
      decides, and is closed down to its marker, while both operators' snapshots still exist. */
  lemma MarkerBesideLiveAccounts(cfg: Config, w: World, later: nat)
    requires CanOpen(cfg, w) && LateEnough(cfg, w.slot, later)
    ensures var w' := T.Run(cfg, w, OPENING + REOPENING + [CastBallot(0, 0), Tick(later)] + SHARED + [CloseAccount(EpochStateAccount)]);
            w'.marker && w'.operators[0].Some? && w'.operators[1].Some? && !Dormant(w')
  {
    OpeningRuns(cfg, w);
    var w1 := T.Run(cfg, w, OPENING);
    RunConcat(cfg, w, OPENING, REOPENING);
    ReopeningRuns(cfg, w1);
    var w2 := w1.(state := Some(E.NewEpochState()));
    RunConcat(cfg, w, OPENING + REOPENING, [CastBallot(0, 0), Tick(later)]);
    RunConcat(cfg, w, OPENING + REOPENING + [CastBallot(0, 0), Tick(later)], SHARED);
    RunConcat(cfg, w, OPENING + REOPENING + [CastBallot(0, 0), Tick(later)] + SHARED, [CloseAccount(EpochStateAccount)]);
    ClosedDown(cfg, w2, later);
  }

  lemma ClosedDown(cfg: Config, w: World, later: nat)
    requires Open(cfg, w) && LateEnough(cfg, w.slot, later) && w.state == Some(E.NewEpochState())
    ensures var w1 := T.Run(cfg, w, [CastBallot(0, 0), Tick(later)]);
            var w2 := T.Run(cfg, w1, SHARED);
            var w' := T.Run(cfg, w2, [CloseAccount(EpochStateAccount)]);
            w'.marker && w'.operators[0].Some? && w'.operators[1].Some?
  {
    DecidedAfterOpening(cfg, w, later);
    DecidedIsClosable(cfg, w, later);
    var w1 := Decided(cfg, w).(slot := later);
    SharedCloses(cfg, w1);
    StateCloses(cfg, SharedClosed(w1));
  }

  const OLD_SNAPSHOTS := [CloseAccount(EpochSnapshotAccount), CloseAccount(OperatorSnapshotAccount(0))]

  const NEW_SNAPSHOTS := [InitializeEpochSnapshot(1, FEES), InitializeOperatorSnapshot(0, true, 0)]

  /** Old votes over a new snapshot: after a decision the snapshot and an operator's snapshot are
      closed, the epoch loses its state, and new ones are made.  The tallies then outweigh the
      snapshot's total, the snapshot is not finished although there are votes, and routing is
      accepted with an unfinished operator. */
  lemma OldVotesNewSnapshot(cfg: Config, w: World, later: nat)
    requires CanOpen(cfg, w) && LateEnough(cfg, w.slot, later)
    ensures var w' := T.Run(cfg, w, OPENING + [CastBallot(0, 0), Tick(later)] + OLD_SNAPSHOTS + REOPENING + NEW_SNAPSHOTS);
            && w'.box.Live? && w'.box.value.votes != [] && w'.snapshot.Some? && !EpochFinalized(w'.snapshot.value)
            && SumBy(w'.box.value.tallies, TallyWeight) > w'.snapshot.value.stake
            && Apply(cfg, w', RouteRewards).Ok? && !AllFinished(w'.operators)
  {
    OpeningRuns(cfg, w);
    RunConcat(cfg, w, OPENING, [CastBallot(0, 0), Tick(later)]);
    RunConcat(cfg, w, OPENING + [CastBallot(0, 0), Tick(later)], OLD_SNAPSHOTS);
    RunConcat(cfg, w, OPENING + [CastBallot(0, 0), Tick(later)] + OLD_SNAPSHOTS, REOPENING);
    RunConcat(cfg, w, OPENING + [CastBallot(0, 0), Tick(later)] + OLD_SNAPSHOTS + REOPENING, NEW_SNAPSHOTS);
    assert cfg.timing.epochOf(w.slot) <= cfg.timing.epochOf(later);
    SnapshotsReplaced(cfg, T.Run(cfg, w, OPENING), later);
  }

  lemma SnapshotsReplaced(cfg: Config, w: World, later: nat)
    requires Open(cfg, w) && LateEnough(cfg, w.slot, later) && cfg.epoch <= cfg.timing.epochOf(later)
    ensures var w1 := T.Run(cfg, w, [CastBallot(0, 0), Tick(later)]);
            var w2 := T.Run(cfg, w1, OLD_SNAPSHOTS);
            var w' := T.Run(cfg, T.Run(cfg, w2, REOPENING), NEW_SNAPSHOTS);
            && w'.box.Live? && w'.box.value.votes != [] && w'.snapshot.Some? && !EpochFinalized(w'.snapshot.value)
            && SumBy(w'.box.value.tallies, TallyWeight) > w'.snapshot.value.stake
            && Apply(cfg, w', RouteRewards).Ok? && !AllFinished(w'.operators)
  {
    DecidedAfterOpening(cfg, w, later);
    DecidedIsClosable(cfg, w, later);
    var w1 := Decided(cfg, w).(slot := later);
    OldSnapshotsClose(cfg, w1);
    var w2 := T.Run(cfg, w1, OLD_SNAPSHOTS);
    ReopeningRuns(cfg, w2);
    NewSnapshotsRun(cfg, w2.(state := Some(E.NewEpochState())));
    OneTally(w1.box.value);
    GateOpen(cfg, w1, T.Run(cfg, w2.(state := Some(E.NewEpochState())), NEW_SNAPSHOTS));
  }

  /** The routing gate looks at box, slot and the mere existence of the other accounts. */
  lemma GateOpen(cfg: Config, w: World, w': World)
    requires ProperConfig(cfg) && Shaped(w) && Shaped(w') && Apply(cfg, w, RouteRewards).Ok?
    requires w'.box == w.box && w'.slot == w.slot && w'.router == w.router && w'.state.Some? && w'.snapshot.Some?
    ensures Apply(cfg, w', RouteRewards).Ok?
  {
  }

  lemma OneTally(b: Box)
    requires |b.tallies| == 1
    ensures SumBy(b.tallies, TallyWeight) == b.tallies[0].weight
  {
    assert b.tallies[..0] == [];
  }

  lemma OldSnapshotsClose(cfg: Config, w: World)
    requires Closable(cfg, w) && w.snapshot.Some? && w.operators[0].Some?
    ensures var w' := T.Run(cfg, w, OLD_SNAPSHOTS);
            w'.state.Some? && w' == w.(snapshot := None, operators := w.operators[0 := None], state := w'.state)
  {
    var w1 := w.(snapshot := None, state := Some(w.state.value.(isClosing := true, epochSnapshot := E.Closed)));
    var w2 := w1.(operators := w.operators[0 := None],
                  state := Some(w1.state.value.(operatorSnapshots := w1.state.value.operatorSnapshots[0 := E.Closed])));
    RunTwo(cfg, w, OLD_SNAPSHOTS[0], OLD_SNAPSHOTS[1], w1, w2);
  }

  lemma NewSnapshotsRun(cfg: Config, w: World)
    requires ProperConfig(cfg) && Shaped(w) && w.state == Some(E.NewEpochState()) && !w.marker
    requires w.weights.Live? && WeightsReady(w) && w.snapshot.None? && w.operators[0].None?
    ensures var w' := T.Run(cfg, w, NEW_SNAPSHOTS);
            && w'.box == w.box && w'.router == w.router && w'.slot == w.slot && w'.state.Some? && w'.snapshot.Some?
            && w'.snapshot.value.stake == 0 && !EpochFinalized(w'.snapshot.value)
            && w'.operators[0].Some? && !Finalized(w'.operators[0].value)
  {
    var w1 := w.(snapshot := Some(EpochSnapshot(1, |w.weights.value.registry|, 0, 0, 0, 0, FEES)),
                 state := Some(E.OnEpochSnapshot(w.state.value, 1)));
    RunTwo(cfg, w, NEW_SNAPSHOTS[0], NEW_SNAPSHOTS[1], w1, Apply(cfg, w1, NEW_SNAPSHOTS[1]).value);
  }

  ghost predicate WeightsReady(w: World)
    requires w.weights.Live?
  {
    WeightTables.TableFinalized(w.weights.value) && w.weights.value.registry == [0]
  }

  const SEATS := [CloseAccount(OperatorSnapshotAccount(0)), CloseAccount(OperatorSnapshotAccount(1))]

  /** The step exists: this run of own closes leaves an epoch with nothing but its state, which
      its own last close turns into a marker, and which can instead close the state of any other
      epoch. */
  lemma EmptyEpochClosesAnyState(cfg: Config, w: World, later: nat, b: World)
    requires CanOpen(cfg, w) && LateEnough(cfg, w.slot, later) && Shaped(b) && b.state.Some?
    ensures var a := T.Run(cfg, w, OPENING + [CastBallot(0, 0), Tick(later)] + SHARED + SEATS);
            && Apply(cfg, a, CloseAccount(EpochStateAccount)).Ok? && Dormant(a)
            && CloseElsewhere(cfg, a, b).Ok?
  {
    EmptyEpochReached(cfg, w, later);
    LastClose(cfg, T.Run(cfg, w, OPENING + [CastBallot(0, 0), Tick(later)] + SHARED + SEATS), b);
  }

  lemma EmptyEpochReached(cfg: Config, w: World, later: nat)
    requires CanOpen(cfg, w) && LateEnough(cfg, w.slot, later)
    ensures var a := T.Run(cfg, w, OPENING + [CastBallot(0, 0), Tick(later)] + SHARED + SEATS);
            Inv(cfg, a) && OnlyStateLeft(cfg, a) && a.slot == later
  {
    var run := OPENING + [CastBallot(0, 0), Tick(later)] + SHARED + SEATS;
    OpeningRuns(cfg, w);
    RunConcat(cfg, w, OPENING, [CastBallot(0, 0), Tick(later)]);
    RunConcat(cfg, w, OPENING + [CastBallot(0, 0), Tick(later)], SHARED);
    RunConcat(cfg, w, OPENING + [CastBallot(0, 0), Tick(later)] + SHARED, SEATS);
    AllGone(cfg, T.Run(cfg, w, OPENING), later);
    RunIsProper(later);
    NoLoss(cfg, w, run);
    T.EveryReachableStateIsSound(cfg, w, run);
  }

  lemma RunIsProper(later: nat)
    ensures var run := OPENING + [CastBallot(0, 0), Tick(later)] + SHARED + SEATS;
            T.ProperRun(run) && forall i :: 0 <= i < |run| ==> !run[i].LoseState?
  {
  }

  lemma LastClose(cfg: Config, a: World, b: World)
    requires Inv(cfg, a) && OnlyStateLeft(cfg, a) && Shaped(b) && b.state.Some?
    ensures Apply(cfg, a, CloseAccount(EpochStateAccount)).Ok? && CloseElsewhere(cfg, a, b).Ok?
  {
    EmptyIsClosed(cfg, a);
    CloseElsewhereExactlyWhen(cfg, a, b);
  }

  /** Everything but the state is gone. */
  ghost predicate OnlyStateLeft(cfg: Config, w: World) {
    && Closable(cfg, w) && Dormant(w)
    && w.state.value.weightTable == E.Closed && w.state.value.epochSnapshot == E.Closed
    && w.state.value.ballotBox == E.Closed && w.state.value.ncnRouter == E.Closed
  }

  lemma AllGone(cfg: Config, w: World, later: nat)
    requires Open(cfg, w) && LateEnough(cfg, w.slot, later)
    ensures var a := T.Run(cfg, T.Run(cfg, T.Run(cfg, w, [CastBallot(0, 0), Tick(later)]), SHARED), SEATS);
            OnlyStateLeft(cfg, a) && a.slot == later
  {
    DecidedAfterOpening(cfg, w, later);
    DecidedIsClosable(cfg, w, later);
    var w1 := Decided(cfg, w).(slot := later);
    SharedCloses(cfg, w1);
    SeatsClose(cfg, SharedClosed(w1));
  }

  lemma SeatsClose(cfg: Config, w: World)
    requires Closable(cfg, w) && w.state.value.isClosing && w.operators[0].Some? && w.operators[1].Some?
    ensures var w' := T.Run(cfg, w, SEATS);
            && w'.state.Some? && w' == w.(operators := w.operators[0 := None][1 := None], state := w'.state)
            && w'.state.value == w.state.value.(operatorSnapshots := w'.state.value.operatorSnapshots)
  {
    var es := w.state.value;
    var w1 := w.(operators := w.operators[0 := None], state := Some(es.(operatorSnapshots := es.operatorSnapshots[0 := E.Closed])));
    var w2 := w1.(operators := w1.operators[1 := None],
                  state := Some(es.(operatorSnapshots := w1.state.value.operatorSnapshots[1 := E.Closed])));
    RunTwo(cfg, w, SEATS[0], SEATS[1], w1, w2);
  }

  /** By the invariant, an epoch with only its state left has every status closed or never used. */
  lemma EmptyIsClosed(cfg: Config, w: World)
    requires Inv(cfg, w) && OnlyStateLeft(cfg, w)
    ensures E.AreAllClosed(w.state.value)
  {
    forall i | 0 <= i < MAX_OPERATORS
      ensures w.state.value.operatorSnapshots[i] in {E.DNE, E.Closed} && w.state.value.operatorRouters[i] in {E.DNE, E.Closed}
    {
      assert Tracks(w.state.value.operatorSnapshots[i], E.Created, w.operators[i].Some?, w.operators[i].None?, w.state.value.isClosing);
    }
  }

  /** Soundness does not save the phase: an epoch that is closed down to its state, loses it and
      is initialized again stays sound throughout, and its phase goes from the last to the first. */
  lemma SoundYetPhaseMovesBack(cfg: Config, w: World, later: nat)
    requires CanOpen(cfg, w) && LateEnough(cfg, w.slot, later)
    ensures var closing := OPENING + [CastBallot(0, 0), Tick(later)] + SHARED + SEATS;
            var w1, w2 := T.Run(cfg, w, closing), T.Run(cfg, w, closing + REOPENING);
            && T.LosesNothing(cfg, w, closing + REOPENING) && T.ReopensLate(cfg, w, closing + REOPENING)
            && w1.state.Some? && E.CurrentState(w1.state.value, cfg.timing, w1.slot) == Ok(E.Close)
            && w2.state.Some? && E.CurrentState(w2.state.value, cfg.timing, w2.slot) == Ok(E.SetWeight)
  {
    var closing := OPENING + [CastBallot(0, 0), Tick(later)] + SHARED + SEATS;
    EmptyEpochReached(cfg, w, later);
    assert cfg.timing.epochOf(w.slot) <= cfg.timing.epochOf(later);
    RunIsProper(later);
    NoLoss(cfg, w, closing);
    T.OwnClosesLoseNothing(cfg, w, closing);
    LossAfter(cfg, w, closing);
  }

  /** Losing the state of an emptied epoch after a run, and initializing it again. */
  lemma LossAfter(cfg: Config, w: World, run: seq<Instruction>)
    requires ProperConfig(cfg) && Shaped(w) && T.LosesNothing(cfg, w, run) && OnlyStateLeft(cfg, T.Run(cfg, w, run))
    requires cfg.epoch <= cfg.timing.epochOf(T.Run(cfg, w, run).slot)
    ensures T.LosesNothing(cfg, w, run + REOPENING) && T.ReopensLate(cfg, w, run + REOPENING)
    ensures var w' := T.Run(cfg, w, run + REOPENING);
            w'.state.Some? && E.CurrentState(w'.state.value, cfg.timing, w'.slot) == Ok(E.SetWeight)
  {
    LossItself(cfg, w, run, T.Run(cfg, w, run));
    var lost, m := run + [LoseState], T.Run(cfg, w, run).(state := None);
    assert (run + REOPENING)[..|run + REOPENING| - 1] == lost;
    assert Apply(cfg, m, InitializeEpochState) == Ok(m.(state := Some(E.NewEpochState())));
  }

  lemma LossItself(cfg: Config, w: World, run: seq<Instruction>, m: World)
    requires ProperConfig(cfg) && Shaped(w) && T.LosesNothing(cfg, w, run) && m == T.Run(cfg, w, run)
    requires m.state.Some? && Dormant(m) && E.CurrentState(m.state.value, cfg.timing, m.slot) != Ok(E.SetWeight)
    ensures T.LosesNothing(cfg, w, run + [LoseState]) && T.LostLate(cfg, w, run + [LoseState])
    ensures T.Run(cfg, w, run + [LoseState]) == m.(state := None)
  {
    var lost := run + [LoseState];
    assert lost[..|lost| - 1] == run;
    assert Apply(cfg, m, LoseState) == Ok(m.(state := None));
  }

  /** The conditions of the runs above are met. */
  lemma ExampleIsLateEnough()
    ensures CanOpen(EXAMPLE, UNTOUCHED) && LateEnough(EXAMPLE, UNTOUCHED.slot, 4320000)
  {
    ExampleOpens();
  }

  // ---------------------------------------------------------------- closing too early

  /** An epoch that can never be closed: decided without a router, and closing has begun. */
  lemma ClosedBeforeRouter(cfg: Config, w: World, later: nat)
    requires CanOpen(cfg, w) && LateEnough(cfg, w.slot, later)
    ensures EpochEffects.NeverRouted(T.Run(cfg, w, UNROUTED + [CastBallot(0, 0), Tick(later)] + [CloseAccount(WeightTableAccount)]))
  {
    UnroutedRuns(cfg, w);
    var w1 := T.Run(cfg, w, UNROUTED);
    RunConcat(cfg, w, UNROUTED, [CastBallot(0, 0), Tick(later)]);
    RunConcat(cfg, w, UNROUTED + [CastBallot(0, 0), Tick(later)], [CloseAccount(WeightTableAccount)]);
    DecidedAfterOpening(cfg, w1, later);
    FirstClose(cfg, Decided(cfg, w1).(slot := later));
  }

  lemma FirstClose(cfg: Config, w: World)
    requires ProperConfig(cfg) && Shaped(w) && !w.marker && w.state.Some? && E.CanClose(w.state.value, cfg.timing, w.slot) == Ok(true)
    requires w.weights.Live? && w.router.Absent? && w.state.value.ncnRouter == E.DNE
    ensures EpochEffects.NeverRouted(T.Run(cfg, w, [CloseAccount(WeightTableAccount)]))
  {
    RunLast(cfg, w, CloseAccount(WeightTableAccount), Apply(cfg, w, CloseAccount(WeightTableAccount)).value);
  }
}
