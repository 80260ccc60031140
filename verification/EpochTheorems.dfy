/** The guarantees of the epoch protocol, over every run of instructions and clock ticks. */
module EpochTheorems {
  import opened Base
  import opened Sums
  import opened Voting
  import opened Snapshots
  import opened WeightTables
  import opened EpochProtocol
  import opened EpochInvariant
  import E = EpochStates
  import Threshold

  // ---------------------------------------------------------------- runs

  /** Instructions up to the snapshots. */
  lemma SetupStepKeeps(cfg: Config, w: World, ins: Instruction)
    requires Inv(cfg, w) && ProperInstruction(ins) && Apply(cfg, w, ins).Ok?
    requires ins.InitializeEpochState? || ins.InitializeWeightTable? || ins.ReallocWeightTable? || ins.SetWeights?
          || ins.InitializeEpochSnapshot? || ins.InitializeOperatorSnapshot? || ins.SnapshotDelegation?
    ensures Keeps(cfg, w, Apply(cfg, w, ins).value)
  {
    if ins.InitializeEpochState? {
      InitializeEpochStateKeeps(cfg, w);
    } else if ins.InitializeWeightTable? {
      InitializeWeightTableKeeps(cfg, w);
    } else if ins.ReallocWeightTable? {
      ReallocWeightTableKeeps(cfg, w, ins.full, ins.registry, ins.mintCount);
    } else if ins.SetWeights? {
      SetWeightsKeeps(cfg, w, ins.mints);
    } else if ins.InitializeEpochSnapshot? {
      InitializeEpochSnapshotKeeps(cfg, w, ins.operatorCount, ins.fees);
    } else if ins.InitializeOperatorSnapshot? {
      InitializeOperatorSnapshotKeeps(cfg, w, ins.i, ins.isActive, ins.feeBps);
    } else {
      SnapshotDelegationKeeps(cfg, w, ins.i, ins.entry);
    }
  }

  /** Instructions of the vote, the routers and the closing, and clock ticks. */
  lemma LaterStepKeeps(cfg: Config, w: World, ins: Instruction)
    requires Inv(cfg, w) && Apply(cfg, w, ins).Ok?
    requires ins.Tick? || ins.InitializeBallotBox? || ins.ReallocBallotBox? || ins.CastBallot? || ins.SetTieBreakerBallot?
          || ins.InitializeRouter? || ins.ReallocRouter? || ins.InitializeOperatorRouter? || ins.RouteRewards? || ins.CloseAccount?
    ensures Keeps(cfg, w, Apply(cfg, w, ins).value)
  {
    if ins.Tick? {
      TickKeeps(cfg, w, ins.slot);
    } else if ins.InitializeBallotBox? {
      InitializeBallotBoxKeeps(cfg, w);
    } else if ins.ReallocBallotBox? {
      ReallocBallotBoxKeeps(cfg, w, ins.full);
    } else if ins.CastBallot? {
      CastBallotKeeps(cfg, w, ins.i, ins.weatherStatus);
    } else if ins.SetTieBreakerBallot? {
      BreakTieKeeps(cfg, w, ins.weatherStatus);
    } else if ins.InitializeRouter? {
      InitializeRouterKeeps(cfg, w);
    } else if ins.ReallocRouter? {
      ReallocRouterKeeps(cfg, w, ins.full);
    } else if ins.InitializeOperatorRouter? {
      InitializeOperatorRouterKeeps(cfg, w, ins.i);
    } else if ins.CloseAccount? {
      CloseKeeps(cfg, w, ins.target);
    } else {
      assert Apply(cfg, w, ins).value == w;
    }
  }

  /** Every instruction of the epoch itself keeps the invariant, the marker, and the order of
      phases. */
  lemma StepKeeps(cfg: Config, w: World, ins: Instruction)
    requires Inv(cfg, w) && ProperInstruction(ins) && Apply(cfg, w, ins).Ok? && !ins.LoseState?
    ensures Keeps(cfg, w, Apply(cfg, w, ins).value)
  {
    if ins.InitializeEpochState? || ins.InitializeWeightTable? || ins.ReallocWeightTable? || ins.SetWeights?
       || ins.InitializeEpochSnapshot? || ins.InitializeOperatorSnapshot? || ins.SnapshotDelegation? {
      SetupStepKeeps(cfg, w, ins);
    } else {
      LaterStepKeeps(cfg, w, ins);
    }
  }

  ghost predicate ProperRun(run: seq<Instruction>) {
    forall i :: 0 <= i < |run| ==> ProperInstruction(run[i])
  }

  /** Refused instructions are rolled back. */
  function Attempt(cfg: Config, w: World, ins: Instruction): (w': World)
    requires ProperConfig(cfg) && Shaped(w)
    ensures Shaped(w')
  {
    var r := Apply(cfg, w, ins);
    if r.Ok? then r.value else w
  }

  ghost function Run(cfg: Config, w: World, run: seq<Instruction>): (w': World)
    requires ProperConfig(cfg) && Shaped(w)
    ensures Shaped(w')
  {
    if |run| == 0 then w else Attempt(cfg, Run(cfg, w, run[..|run| - 1]), run[|run| - 1])
  }

  /** Every accepted close of an epoch state along the run names the state of the epoch that
      the instruction was issued for. */
  ghost predicate OwnCloses(cfg: Config, w: World, run: seq<Instruction>)
    requires ProperConfig(cfg) && Shaped(w)
  {
    |run| > 0 ==>
      && OwnCloses(cfg, w, run[..|run| - 1])
      && (run[|run| - 1].LoseState? ==> Apply(cfg, Run(cfg, w, run[..|run| - 1]), LoseState).Err?)
  }

  /** An epoch nobody has touched. */
  ghost predicate Initial(cfg: Config, w: World) {
    && ProperConfig(cfg) && Shaped(w) && 0 < w.slot < NO_SLOT
    && !w.marker && w.state.None? && Dormant(w) && w.result.None?
  }

  lemma {:induction false} RunKeeps(cfg: Config, w: World, run: seq<Instruction>)
    requires Inv(cfg, w) && ProperRun(run) && OwnCloses(cfg, w, run)
    ensures Inv(cfg, Run(cfg, w, run))
  {
    if |run| > 0 {
      var front, ins := run[..|run| - 1], run[|run| - 1];
      RunKeeps(cfg, w, front);
      var m := Run(cfg, w, front);
      if Apply(cfg, m, ins).Ok? {
        StepKeeps(cfg, m, ins);
      }
    }
  }

  /** The invariant holds in every state that a run of own closes reaches. */
  lemma EveryReachableStateIsSound(cfg: Config, w: World, run: seq<Instruction>)
    requires Initial(cfg, w) && ProperRun(run) && OwnCloses(cfg, w, run)
    ensures Inv(cfg, w) && Inv(cfg, Run(cfg, w, run))
  {
    RunKeeps(cfg, w, run);
  }

  /** The invariant holds after every step of the run. */
  ghost predicate SoundThroughout(cfg: Config, w: World, run: seq<Instruction>)
    requires ProperConfig(cfg) && Shaped(w)
  {
    && Inv(cfg, Run(cfg, w, run))
    && (|run| > 0 ==> SoundThroughout(cfg, w, run[..|run| - 1]))
  }

  /** Wherever the run loses the epoch state to another epoch's close, no account of this epoch
      exists. */
  ghost predicate LosesNothing(cfg: Config, w: World, run: seq<Instruction>)
    requires ProperConfig(cfg) && Shaped(w)
  {
    |run| > 0 ==>
      var m := Run(cfg, w, run[..|run| - 1]);
      && LosesNothing(cfg, w, run[..|run| - 1])
      && (run[|run| - 1].LoseState? && Apply(cfg, m, LoseState).Ok? ==> Dormant(m))
  }

  lemma {:induction false} OwnClosesLoseNothing(cfg: Config, w: World, run: seq<Instruction>)
    requires ProperConfig(cfg) && Shaped(w) && OwnCloses(cfg, w, run)
    ensures LosesNothing(cfg, w, run)
  {
    if |run| > 0 {
      OwnClosesLoseNothing(cfg, w, run[..|run| - 1]);
    }
  }

  /** Losing the epoch state is sound exactly when there is nothing it has to vouch for. */
  lemma LosingStateSoundExactlyWhen(cfg: Config, w: World)
    requires Inv(cfg, w) && Apply(cfg, w, LoseState).Ok?
    ensures Inv(cfg, Apply(cfg, w, LoseState).value) <==> Dormant(w)
  {
  }

  /** Over all runs whatever: every state along the run is sound if and only if each close from
      another epoch that it contains finds the epoch empty. */
  lemma {:induction false} SoundThroughoutExactlyWhen(cfg: Config, w: World, run: seq<Instruction>)
    requires Inv(cfg, w) && ProperRun(run)
    ensures SoundThroughout(cfg, w, run) <==> LosesNothing(cfg, w, run)
  {
    if |run| > 0 {
      var front, ins := run[..|run| - 1], run[|run| - 1];
      SoundThroughoutExactlyWhen(cfg, w, front);
      var m := Run(cfg, w, front);
      if Inv(cfg, m) && Apply(cfg, m, ins).Ok? {
        if ins.LoseState? {
          LosingStateSoundExactlyWhen(cfg, m);
        } else {
          StepKeeps(cfg, m, ins);
        }
      }
    }
  }

  /** In particular the state at the end of such a run is sound. */
  lemma SoundAtEnd(cfg: Config, w: World, run: seq<Instruction>)
    requires Initial(cfg, w) && ProperRun(run) && LosesNothing(cfg, w, run)
    ensures Inv(cfg, Run(cfg, w, run))
  {
    SoundThroughoutExactlyWhen(cfg, w, run);
  }

  // ---------------------------------------------------------------- agreement

  /** Agreement: votes exist only over a finished snapshot, the tallies together weigh at most
      its total, and so no two ballots can pass the test. */
  lemma Agreement(cfg: Config, w: World, t: nat, u: nat)
    requires Inv(cfg, w) && w.state.Some? && w.box.Live? && w.snapshot.Some?
    ensures var b, total := w.box.value, w.snapshot.value.stake;
            && (b.votes != [] ==> EpochFinalized(w.snapshot.value))
            && SumBy(b.tallies, TallyWeight) <= total
            && (t < |b.tallies| && u < |b.tallies| && t != u && total > 0 ==>
                  !(Threshold.Passes(b.tallies[t].weight, total) && Threshold.Passes(b.tallies[u].weight, total)))
  {
    var b, total := w.box.value, w.snapshot.value.stake;
    assert CastWeight(b.votes) <= total;
    if t < |b.tallies| && u < |b.tallies| && t != u && total > 0 {
      AtMostOnePasses(b, total, t, u);
    }
  }

  /** A ballot that won by votes can be looked up, holds a strict majority of the snapshot's
      total for as long as that account exists, and outweighs every other tally in every later
      state, after all later votes. */
  lemma WinnerStaysHeaviest(cfg: Config, w: World, u: nat)
    requires Inv(cfg, w) && w.state.Some? && w.box.Live? && DecidedByVotes(w.box.value)
    ensures GetWinningTally(w.box.value).Ok?
    ensures w.snapshot.Some? ==> 2 * GetWinningTally(w.box.value).value.weight > w.snapshot.value.stake
    ensures u < |w.box.value.tallies| && !SameBallot(w.box.value.tallies[u].ballot, w.box.value.winningBallot) ==>
              w.box.value.tallies[u].weight < GetWinningTally(w.box.value).value.weight
  {
    var b := w.box.value;
    var t := TallyOf(b.tallies, b.winningBallot);
    if u < |b.tallies| && !SameBallot(b.tallies[u].ballot, b.winningBallot) {
      assert Recounted(b.votes, b.tallies[t], t) && Recounted(b.votes, b.tallies[u], u);
      TalliesDisjoint(b.votes, t, u);
    }
  }

  // ---------------------------------------------------------------- decisions are final

  /** Routing is open: the voting window has passed or a tie was broken. */
  ghost predicate VotingOver(cfg: Config, w: World) {
    w.box.Live? && IsVotingValid(w.box.value, w.slot, cfg.timing.validSlots) == Ok(false)
  }

  /** Without its ballot box, but with its result account, which nothing ever closes, an epoch
      gets no other box. */
  ghost predicate BoxGone(w: World) {
    w.box.Absent? && w.result.Some?
  }

  /** What a step may do to a live ballot box: unless it is being closed it keeps its winner,
      its decision slot and its votes; and once voting is over it does not change at all. */
  ghost predicate BoxKept(cfg: Config, w: World, w': World)
    requires w.box.Live?
  {
    && (w'.box.Live? ==>
          && (w.box.value.winningBallot.isValid ==>
                && w'.box.value.winningBallot == w.box.value.winningBallot
                && w'.box.value.slotConsensusReached == w.box.value.slotConsensusReached)
          && w.box.value.votes <= w'.box.value.votes
          && (VotingOver(cfg, w) ==> w'.box == w.box && VotingOver(cfg, w')))
    && (!w'.box.Live? ==> BoxGone(w'))
  }

  /** What the box needs to keep its promises, whatever becomes of the other accounts. */
  ghost predicate BoxSafe(w: World) {
    && 0 < w.slot < NO_SLOT
    && (w.box.Live? ==> Consistent(w.box.value) && w.result.Some?)
  }

  /** Instructions that do not touch the ballot box. */
  lemma OthersKeepBox(cfg: Config, w: World, ins: Instruction)
    requires ProperConfig(cfg) && Shaped(w) && Apply(cfg, w, ins).Ok? && w.box.Live?
    requires !ins.CastBallot? && !ins.SetTieBreakerBallot? && !ins.CloseAccount?
    ensures var w' := Apply(cfg, w, ins).value;
            w'.box == w.box && w.slot <= w'.slot && (w.slot < NO_SLOT ==> w'.slot < NO_SLOT) && w'.result == w.result
  {
  }

  lemma CastKeepsBox(cfg: Config, w: World, i: nat, weatherStatus: nat)
    requires ProperConfig(cfg) && Shaped(w) && BoxSafe(w) && Apply(cfg, w, CastBallot(i, weatherStatus)).Ok?
    ensures var w' := Apply(cfg, w, CastBallot(i, weatherStatus)).value;
            w.box.Live? && BoxKept(cfg, w, w') && BoxSafe(w')
  {
    CastBallotShape(cfg, w, i, weatherStatus);
    var b, s, stake := w.box.value, w.snapshot.value, w.operators[i].value.stake;
    VoteAppended(b, cfg.operators[i], weatherStatus, stake, w.slot, cfg.timing.validSlots, s.stake);
    CastVoteSound(b, cfg.operators[i], weatherStatus, stake, w.slot, cfg.timing.validSlots);
    TallyVotesSound(CastVote(b, cfg.operators[i], NewBallot(weatherStatus), stake, w.slot, cfg.timing.validSlots).value, s.stake, w.slot);
    assert !VotingOver(cfg, w);
  }

  lemma TieBreakKeepsBox(cfg: Config, w: World, weatherStatus: nat)
    requires ProperConfig(cfg) && Shaped(w) && BoxSafe(w) && w.box.Live? && Apply(cfg, w, SetTieBreakerBallot(weatherStatus)).Ok?
    ensures var w' := Apply(cfg, w, SetTieBreakerBallot(weatherStatus)).value;
            BoxKept(cfg, w, w') && BoxSafe(w')
  {
    TieBreakerSound(w.box.value, weatherStatus, cfg.timing.epochOf(w.slot), cfg.timing.epochsBeforeStall);
  }

  lemma CloseKeepsBox(cfg: Config, w: World, target: Target)
    requires ProperConfig(cfg) && Shaped(w) && BoxSafe(w) && w.box.Live? && Apply(cfg, w, CloseAccount(target)).Ok?
    ensures var w' := Apply(cfg, w, CloseAccount(target)).value;
            BoxKept(cfg, w, w') && BoxSafe(w')
  {
  }

  lemma BoxStep(cfg: Config, w: World, ins: Instruction)
    requires ProperConfig(cfg) && Shaped(w) && BoxSafe(w) && w.box.Live? && Apply(cfg, w, ins).Ok?
    ensures var w' := Apply(cfg, w, ins).value;
            BoxKept(cfg, w, w') && BoxSafe(w')
  {
    if ins.CastBallot? {
      CastKeepsBox(cfg, w, ins.i, ins.weatherStatus);
    } else if ins.SetTieBreakerBallot? {
      TieBreakKeepsBox(cfg, w, ins.weatherStatus);
    } else if ins.CloseAccount? {
      CloseKeepsBox(cfg, w, ins.target);
    } else {
      OthersKeepBox(cfg, w, ins);
    }
  }

  lemma GoneStaysGone(cfg: Config, w: World, ins: Instruction)
    requires ProperConfig(cfg) && Shaped(w) && Apply(cfg, w, ins).Ok? && BoxGone(w)
    ensures BoxGone(Apply(cfg, w, ins).value)
  {
  }

  lemma BoxKeptTwice(cfg: Config, w: World, m: World, w': World)
    requires w.box.Live? && m.box.Live? && BoxKept(cfg, w, m) && BoxKept(cfg, m, w')
    ensures BoxKept(cfg, w, w')
  {
  }

  /** A decision is final: along any run whatever, closes from other epochs included, as long as
      the ballot box exists, the winner, the slot of the decision and the votes already cast
      stay, and after voting nothing in it changes; a closed box never comes back. */
  lemma {:induction false} DecisionsAreFinal(cfg: Config, w: World, run: seq<Instruction>)
    requires ProperConfig(cfg) && Shaped(w) && BoxSafe(w) && w.box.Live?
    ensures var w' := Run(cfg, w, run);
            if w'.box.Live? then BoxKept(cfg, w, w') && BoxSafe(w') else BoxGone(w')
  {
    if |run| > 0 {
      var front, ins := run[..|run| - 1], run[|run| - 1];
      DecisionsAreFinal(cfg, w, front);
      var m := Run(cfg, w, front);
      if Apply(cfg, m, ins).Ok? {
        if m.box.Live? {
          BoxStep(cfg, m, ins);
          BoxKeptTwice(cfg, w, m, Apply(cfg, m, ins).value);
        } else {
          GoneStaysGone(cfg, m, ins);
        }
      }
    }
  }

  /** After voting, and without a box, votes and tie breaks are refused. */
  lemma FrozenRefuses(cfg: Config, w: World, i: nat, weatherStatus: nat)
    requires ProperConfig(cfg) && Shaped(w)
    requires w.box.Live? ==> VotingOver(cfg, w) && IsConsensusReached(w.box.value)
    ensures Apply(cfg, w, CastBallot(i, weatherStatus)).Err?
    ensures Apply(cfg, w, SetTieBreakerBallot(weatherStatus)).Err?
  {
    if Apply(cfg, w, CastBallot(i, weatherStatus)).Ok? {
      CastBallotShape(cfg, w, i, weatherStatus);
    }
  }

  /** Once a routing call has been accepted, no vote is ever accepted again and no tie is ever
      broken, along any run whatever: every resumed call reads the same votes, tallies and
      winner. */
  lemma RoutingFreezesTheVote(cfg: Config, w: World, run: seq<Instruction>, i: nat, weatherStatus: nat)
    requires ProperConfig(cfg) && Shaped(w) && BoxSafe(w) && Apply(cfg, w, RouteRewards).Ok?
    ensures var w' := Run(cfg, w, run);
            && (w'.box.Live? ==> w'.box == w.box)
            && Apply(cfg, w', CastBallot(i, weatherStatus)).Err?
            && Apply(cfg, w', SetTieBreakerBallot(weatherStatus)).Err?
  {
    assert VotingOver(cfg, w);
    DecisionsAreFinal(cfg, w, run);
    FrozenRefuses(cfg, Run(cfg, w, run), i, weatherStatus);
  }

  /** When routing is accepted in an epoch that is not closing, what the reward tiers rely on is
      in place: a consistent box with a winner, and only finished snapshots whose stakes are the
      sums of their entries. */
  lemma RoutingFindsItsFootings(cfg: Config, w: World)
    requires Inv(cfg, w) && Apply(cfg, w, RouteRewards).Ok?
    ensures Consistent(w.box.value) && GetWinningTally(w.box.value).Ok?
    ensures AllFinished(w.operators)
    ensures !w.state.value.isClosing ==>
              forall i :: 0 <= i < |w.operators| && w.operators[i].Some? ==>
                w.operators[i].value.stake == SumBy(w.operators[i].value.entries, EntryWeight)
  {
    ReadyToClose(cfg, w);
  }

  // ---------------------------------------------------------------- snapshots

  /** In every sound state of an open epoch, a finished active operator has each registry
      vault exactly once, and a finished epoch snapshot sums over every one of its operators. */
  lemma SnapshotsAreComplete(cfg: Config, w: World, i: nat, vaultIndex: nat)
    requires Inv(cfg, w) && w.state.Some? && !w.state.value.isClosing && w.snapshot.Some?
    ensures i < MAX_OPERATORS && w.operators[i].Some? && w.operators[i].value.isActive && Finalized(w.operators[i].value) ==>
              && (vaultIndex in w.weights.value.registry <==>
                    exists j :: 0 <= j < |w.operators[i].value.entries| && w.operators[i].value.entries[j].vaultIndex == vaultIndex)
              && w.operators[i].value.stake == SumBy(w.operators[i].value.entries, EntryWeight)
    ensures EpochFinalized(w.snapshot.value) ==>
              && w.snapshot.value.stake == SumBy(w.operators, FinishedStake)
              && (i < MAX_OPERATORS ==> (w.operators[i].Some? <==> i < w.snapshot.value.operatorCount))
              && (i < MAX_OPERATORS && w.operators[i].Some? ==> Finalized(w.operators[i].value))
  {
    var registry := Registry(w.weights.value);
    if i < MAX_OPERATORS && w.operators[i].Some? && w.operators[i].value.isActive && Finalized(w.operators[i].value) {
      FinishedCoversRegistry(w.operators[i].value, registry);
      assert vaultIndex in w.weights.value.registry <==> vaultIndex in registry;
    }
    if EpochFinalized(w.snapshot.value) {
      FinishedEpochCountsEveryone(w.snapshot.value, w.operators, registry);
    }
  }

  // ---------------------------------------------------------------- phases

  /** Along any run of own closes the phase never moves back. */
  lemma {:induction false} PhaseNeverMovesBack(cfg: Config, w: World, run: seq<Instruction>)
    requires Inv(cfg, w) && ProperRun(run) && OwnCloses(cfg, w, run) && w.state.Some?
    ensures var w' := Run(cfg, w, run);
            && w.slot <= w'.slot && (w'.state.None? ==> w'.marker)
            && (w'.state.Some? ==>
                  E.Rank(E.CurrentState(w.state.value, cfg.timing, w.slot)) <= E.Rank(E.CurrentState(w'.state.value, cfg.timing, w'.slot)))
  {
    if |run| > 0 {
      var front, ins := run[..|run| - 1], run[|run| - 1];
      PhaseNeverMovesBack(cfg, w, front);
      RunKeeps(cfg, w, front);
      var m := Run(cfg, w, front);
      if Apply(cfg, m, ins).Ok? {
        StepKeeps(cfg, m, ins);
        var w' := Apply(cfg, m, ins).value;
        if m.state.Some? && w'.state.Some? {
          E.PhaseAdvances(m.state.value, w'.state.value, cfg.timing, m.slot, w'.slot);
        }
      }
    }
  }

  /** The phase as a number; an epoch without a state has not begun. */
  function PhaseRank(cfg: Config, w: World): nat {
    if w.state.Some? then E.Rank(E.CurrentState(w.state.value, cfg.timing, w.slot)) else 0
  }

  /** The furthest phase that the run has shown so far. */
  ghost function Peak(cfg: Config, w: World, run: seq<Instruction>): nat
    requires ProperConfig(cfg) && Shaped(w)
  {
    var here := PhaseRank(cfg, Run(cfg, w, run));
    if |run| == 0 then here else Max(Peak(cfg, w, run[..|run| - 1]), here)
  }

  /** No state along the run shows an earlier phase than a state before it. */
  ghost predicate NeverBack(cfg: Config, w: World, run: seq<Instruction>)
    requires ProperConfig(cfg) && Shaped(w)
  {
    |run| > 0 ==>
      && NeverBack(cfg, w, run[..|run| - 1])
      && (Run(cfg, w, run).state.Some? ==> Peak(cfg, w, run[..|run| - 1]) <= PhaseRank(cfg, Run(cfg, w, run)))
  }

  /** The run has lost the epoch state at a phase other than the first. */
  ghost predicate LostLate(cfg: Config, w: World, run: seq<Instruction>)
    requires ProperConfig(cfg) && Shaped(w)
  {
    |run| > 0 &&
      var m := Run(cfg, w, run[..|run| - 1]);
      || LostLate(cfg, w, run[..|run| - 1])
      || (run[|run| - 1].LoseState? && m.state.Some? && E.CurrentState(m.state.value, cfg.timing, m.slot) != Ok(E.SetWeight))
  }

  /** After such a loss the run has initialized the epoch state again. */
  ghost predicate ReopensLate(cfg: Config, w: World, run: seq<Instruction>)
    requires ProperConfig(cfg) && Shaped(w)
  {
    |run| > 0 &&
      var m := Run(cfg, w, run[..|run| - 1]);
      || ReopensLate(cfg, w, run[..|run| - 1])
      || (run[|run| - 1].InitializeEpochState? && Apply(cfg, m, InitializeEpochState).Ok? && LostLate(cfg, w, run[..|run| - 1]))
  }

  /** What one more instruction does to the phase of a sound epoch. */
  ghost predicate PhaseSteps(cfg: Config, m: World, ins: Instruction, w': World) {
    && (m.state.Some? && w'.state.Some? ==> PhaseRank(cfg, m) <= PhaseRank(cfg, w') && !ins.InitializeEpochState?)
    && (m.state.Some? && w'.state.None? ==> ins.LoseState? || w'.marker)
    && (m.state.None? && w'.state.Some? ==> ins.InitializeEpochState? && !m.marker && PhaseRank(cfg, w') == 0)
    && (m.state.None? && w'.state.None? ==> w'.marker == m.marker && !ins.InitializeEpochState?)
    && (ins.LoseState? ==> m.state.Some? && w'.state.None? && w'.marker == m.marker)
  }

  lemma PhaseStep(cfg: Config, m: World, ins: Instruction)
    requires Inv(cfg, m) && ProperInstruction(ins) && Apply(cfg, m, ins).Ok?
    ensures PhaseSteps(cfg, m, ins, Apply(cfg, m, ins).value)
  {
    if !ins.LoseState? {
      StepKeeps(cfg, m, ins);
      var w' := Apply(cfg, m, ins).value;
      if m.state.Some? && w'.state.Some? {
        E.PhaseAdvances(m.state.value, w'.state.value, cfg.timing, m.slot, w'.slot);
      }
    }
  }

  /** Where the phase stands after a run that keeps the epoch sound. */
  ghost predicate PhaseTracked(cfg: Config, w: World, run: seq<Instruction>)
    requires ProperConfig(cfg) && Shaped(w)
  {
    var w' := Run(cfg, w, run);
    && (LostLate(cfg, w, run) ==> Peak(cfg, w, run) > 0)
    && (NeverBack(cfg, w, run) && w'.state.Some? ==> PhaseRank(cfg, w') == Peak(cfg, w, run))
    && (NeverBack(cfg, w, run) && w'.state.None? && !w'.marker && Peak(cfg, w, run) > 0 ==> LostLate(cfg, w, run))
    && (NeverBack(cfg, w, run) <==> !ReopensLate(cfg, w, run))
  }

  lemma TrackStep(cfg: Config, w: World, run: seq<Instruction>, m: World)
    requires ProperConfig(cfg) && Shaped(w) && |run| > 0
    requires m == Run(cfg, w, run[..|run| - 1]) && PhaseTracked(cfg, w, run[..|run| - 1])
    requires Apply(cfg, m, run[|run| - 1]).Ok? ==> PhaseSteps(cfg, m, run[|run| - 1], Apply(cfg, m, run[|run| - 1]).value)
    requires run[|run| - 1].LoseState? && Apply(cfg, m, LoseState).Err? ==> m.state.None?
    ensures PhaseTracked(cfg, w, run)
  {
  }

  lemma {:induction false} PhaseIsTracked(cfg: Config, w: World, run: seq<Instruction>)
    requires Inv(cfg, w) && ProperRun(run) && LosesNothing(cfg, w, run)
    ensures PhaseTracked(cfg, w, run)
  {
    if |run| > 0 {
      var front, ins := run[..|run| - 1], run[|run| - 1];
      PhaseIsTracked(cfg, w, front);
      SoundThroughoutExactlyWhen(cfg, w, front);
      var m := Run(cfg, w, front);
      if Apply(cfg, m, ins).Ok? {
        PhaseStep(cfg, m, ins);
      }
      TrackStep(cfg, w, run, m);
    }
  }

  /** Over every run that keeps the epoch sound: the phase never moves back if and only if the
      run does not lose the epoch state at a phase other than the first and then initialize it
      again.  Soundness alone does not save the phase. */
  lemma PhaseNeverMovesBackExactlyWhen(cfg: Config, w: World, run: seq<Instruction>)
    requires Inv(cfg, w) && ProperRun(run) && LosesNothing(cfg, w, run)
    ensures NeverBack(cfg, w, run) <==> !ReopensLate(cfg, w, run)
  {
    PhaseIsTracked(cfg, w, run);
  }

  /** The patched phase, given the weight table's mint count, is the phase. */
  lemma PatchedPhaseAgrees(cfg: Config, w: World)
    requires Inv(cfg, w) && w.state.Some?
    ensures var mintCount := if w.weights.Live? then |w.weights.value.slotSet| else 0;
            E.CurrentStatePatched(w.state.value, cfg.timing, mintCount, w.slot) == E.CurrentState(w.state.value, cfg.timing, w.slot)
  {
    if w.weights.Live? {
      CountWithin(w.weights.value.slotSet);
    }
  }

  /** Phase and gate disagree at the edges.  With the box decided by votes, the distribution
      phase begins in the last slot in which votes are still taken, where routing is refused;
      routing is accepted exactly from the next slot on.  After a tie break routing is accepted
      at once, whatever the phase. */
  lemma GateAgainstPhase(cfg: Config, w: World)
    requires Inv(cfg, w) && w.state.Some? && w.box.Live? && w.snapshot.Some? && w.router.Live?
    requires IsConsensusReached(w.box.value)
    ensures var b, validSlots := w.box.value, cfg.timing.validSlots;
            && (TieBreakerSet(b) ==> Apply(cfg, w, RouteRewards).Ok?)
            && (DecidedByVotes(b) && b.slotConsensusReached + validSlots <= U64_MAX ==>
                  && (Apply(cfg, w, RouteRewards).Ok? <==> w.slot > b.slotConsensusReached + validSlots)
                  && ((E.CanStartRouting(w.state.value, cfg.timing, w.slot) == Ok(true)) <==>
                        w.slot >= b.slotConsensusReached + validSlots))
  {
  }

  // ---------------------------------------------------------------- mirrors

  /** After every run from an untouched epoch that loses nothing, the epoch state mirrors its
      sources: weighting and snapshot progress, each operator's progress, votes counted,
      consensus flag and slot, and the tie breaker. */
  lemma EpochStateMirrors(cfg: Config, initial: World, run: seq<Instruction>, i: nat)
    requires Initial(cfg, initial) && ProperRun(run) && LosesNothing(cfg, initial, run)
    ensures var w := Run(cfg, initial, run);
            w.state.Some? ==>
              var es := w.state.value;
              && (w.weights.Live? ==> es.setWeightProgress == E.Progress(WeightCount(w.weights.value), |w.weights.value.slotSet|))
              && (w.snapshot.Some? ==>
                    es.snapshotProgress == E.Progress(w.snapshot.value.operatorsRegistered, w.snapshot.value.operatorCount))
              && (i < MAX_OPERATORS && w.operators[i].Some? && w.operators[i].value.isActive ==>
                    es.operatorProgress[i] == E.Progress(w.operators[i].value.registered, es.vaultCount))
              && (w.box.Live? ==>
                    && es.votingProgress.tally == |w.box.value.votes|
                    && (E.IsConsensusReached(es) <==> IsConsensusReached(w.box.value))
                    && (es.wasTieBreakerSet <==> TieBreakerSet(w.box.value))
                    && (DecidedByVotes(w.box.value) ==> es.slotConsensusReached == w.box.value.slotConsensusReached))
  {
    SoundAtEnd(cfg, initial, run);
  }

  /** The consensus result account reports a consensus exactly when the box was decided by votes;
      then it names the winner and the decision slot, and its weight is the winner's weight
      exactly when that fits in 64 bits.  A tie break is never published. */
  ghost predicate PublishedTruly(c: ConsensusResult, b: Box) {
    && (c.consensusSlot != 0 <==> DecidedByVotes(b))
    && (TieBreakerSet(b) ==> c == NO_RESULT)
    && (DecidedByVotes(b) ==>
          && GetWinningTally(b).Ok?
          && c.weatherStatus == b.winningBallot.weatherStatus && c.consensusSlot == b.slotConsensusReached
          && (c.voteWeight == GetWinningTally(b).value.weight <==> GetWinningTally(b).value.weight <= U64_MAX))
  }

  lemma SoundResult(cfg: Config, w: World)
    requires Inv(cfg, w) && w.box.Live?
    ensures w.result.Some? && PublishedTruly(w.result.value, w.box.value)
  {
  }

  /** After every such run the published result is the outcome of the vote, as far as it can be. */
  lemma PublishedResultIsTrueWhen(cfg: Config, initial: World, run: seq<Instruction>)
    requires Initial(cfg, initial) && ProperRun(run) && LosesNothing(cfg, initial, run)
    ensures var w := Run(cfg, initial, run);
            w.box.Live? ==> w.result.Some? && PublishedTruly(w.result.value, w.box.value)
  {
    SoundAtEnd(cfg, initial, run);
    if Run(cfg, initial, run).box.Live? {
      SoundResult(cfg, Run(cfg, initial, run));
    }
  }

  // ---------------------------------------------------------------- closing

  /** A closed epoch stays closed: a state with the marker and none of the epoch's tracked
      accounts stays one, along any run whatever. */
  lemma {:induction false} ClosedStaysClosed(cfg: Config, w: World, run: seq<Instruction>)
    requires ProperConfig(cfg) && Shaped(w) && w.marker && w.state.None? && Dormant(w)
    ensures var w' := Run(cfg, w, run);
            w'.marker && w'.state.None? && Dormant(w')
  {
    if |run| > 0 {
      var front, ins := run[..|run| - 1], run[|run| - 1];
      ClosedStaysClosed(cfg, w, front);
      ClosedStep(cfg, Run(cfg, w, front), ins);
    }
  }

  lemma ClosedStep(cfg: Config, w: World, ins: Instruction)
    requires ProperConfig(cfg) && Shaped(w) && w.marker && w.state.None? && Dormant(w)
    ensures Attempt(cfg, w, ins) == w.(slot := Attempt(cfg, w, ins).slot)
  {
  }

  /** The marker is created by closing the epoch state only, and only in a state in which no
      tracked account is left. */
  lemma MarkerNeedsEverythingClosed(cfg: Config, w: World, ins: Instruction)
    requires Inv(cfg, w) && Apply(cfg, w, ins).Ok? && !w.marker && Apply(cfg, w, ins).value.marker
    ensures ins == CloseAccount(EpochStateAccount) && Dormant(w)
  {
    EpochStateLast(cfg, w, ins);
    assert forall i :: 0 <= i < MAX_OPERATORS ==>
      Tracks(w.state.value.operatorSnapshots[i], E.Created, w.operators[i].Some?, w.operators[i].None?, w.state.value.isClosing);
  }

  lemma EpochStateLast(cfg: Config, w: World, ins: Instruction)
    requires ProperConfig(cfg) && Shaped(w) && Apply(cfg, w, ins).Ok? && !w.marker && Apply(cfg, w, ins).value.marker
    ensures ins == CloseAccount(EpochStateAccount) && w.state.Some? && E.AreAllClosed(w.state.value)
  {
  }
}
