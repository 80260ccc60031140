/** What the epoch's instructions do, and exactly when they are accepted, told by the accounts. */
module EpochEffects {
  import opened Base
  import opened Sums
  import opened Voting
  import opened Snapshots
  import opened WeightTables
  import FeeSchedule
  import opened EpochProtocol
  import opened EpochInvariant
  import T = EpochTheorems
  import E = EpochStates
  import Threshold

  // ---------------------------------------------------------------- casting a vote

  /** Some ballot's tally passes the test. */
  ghost predicate SomePasses(tallies: seq<Tally>, total: nat) {
    total > 0 && exists t :: 0 <= t < |tallies| && Threshold.Passes(tallies[t].weight, total)
  }

  /** A vote that is cast and counted is recorded; and after it the box is decided if and only if
      it was before or now some ballot passes the test.  A decision made by this vote is for a
      ballot that no other outweighs, and carries the vote's slot. */
  ghost predicate VoteCounted(b: Box, b': Box, key: Pubkey, weatherStatus: nat, weight: nat, slot: nat, total: nat) {
    && |b'.votes| == |b.votes| + 1 && b'.votes[..|b.votes|] == b.votes
    && (var v := b'.votes[|b.votes|];
        && v.operator == key && v.weight == weight && v.slotVoted == slot && v.ballotIndex < |b'.tallies|
        && b'.tallies[v.ballotIndex].ballot == Ballot(weatherStatus, true))
    && b'.epoch == b.epoch && TalliesGrow(b.tallies, b'.tallies)
    && (IsConsensusReached(b') <==> IsConsensusReached(b) || SomePasses(b'.tallies, total))
    && (IsConsensusReached(b) ==> b'.winningBallot == b.winningBallot && b'.slotConsensusReached == b.slotConsensusReached)
    && (!IsConsensusReached(b) && IsConsensusReached(b') ==>
          && b'.slotConsensusReached == slot && GetWinningTally(b').Ok?
          && forall t :: 0 <= t < |b'.tallies| ==> b'.tallies[t].weight <= GetWinningTally(b').value.weight)
    && (!IsConsensusReached(b') ==> b'.slotConsensusReached == NO_SLOT && b'.winningBallot == b.winningBallot)
  }

  lemma CastAndCountExactly(b: Box, key: Pubkey, weatherStatus: nat, weight: nat, slot: nat, validSlots: nat, total: nat)
    requires Consistent(b) && key != DEFAULT_KEY && slot != NO_SLOT && total > 0
    ensures var r := CastAndCount(b, key, weatherStatus, weight, slot, validSlots, total);
            && (r.Ok? <==> Acceptable(b, key, weatherStatus, weight, slot, validSlots))
            && (r.Ok? ==> Consistent(r.value) && VoteCounted(b, r.value, key, weatherStatus, weight, slot, total))
  {
    CastVoteSound(b, key, weatherStatus, weight, slot, validSlots);
    var c := CastVote(b, key, NewBallot(weatherStatus), weight, slot, validSlots);
    if c.Ok? {
      TallyVotesSound(c.value, total, slot);
      DecidedExactlyWhen(c.value, total, slot);
    }
  }

  /** When `cast_vote` is accepted, told by the accounts. */
  ghost predicate CanCast(cfg: Config, w: World, i: nat, weatherStatus: nat)
    requires Shaped(w) && |cfg.operators| == MAX_OPERATORS
  {
    && w.state.Some? && w.box.Live? && w.snapshot.Some? && EpochFinalized(w.snapshot.value)
    && i < MAX_OPERATORS && w.operators[i].Some? && w.operators[i].value.stake > 0
    && Acceptable(w.box.value, cfg.operators[i], weatherStatus, w.operators[i].value.stake, w.slot, cfg.timing.validSlots)
  }

  /** A voter who has not voted has stake under the total. */
  lemma VoterHasTotal(cfg: Config, w: World, i: nat)
    requires Inv(cfg, w) && w.state.Some? && w.box.Live? && w.snapshot.Some? && EpochFinalized(w.snapshot.value)
    requires i < MAX_OPERATORS && w.operators[i].Some? && w.operators[i].value.stake > 0 && !VotedIn(w.box.value.votes, cfg.operators[i])
    ensures w.snapshot.value.stake > 0
  {
    VoteFits(cfg, w, i, Vote(cfg.operators[i], w.slot, w.operators[i].value.stake, 0), w.state.value.isClosing);
  }

  /** The epoch state after a vote: the vote count, and the slot of a decision made by this vote. */
  ghost predicate StateAfterVote(es: E.EpochState, es': E.EpochState, b: Box, b': Box, slot: nat) {
    es' == es.(votingProgress := E.Progress(|b'.votes|, es.votingProgress.total),
               slotConsensusReached := if !IsConsensusReached(b) && IsConsensusReached(b') then slot else es.slotConsensusReached)
  }

  /** A vote is accepted exactly when it can be cast; it then changes the box, the published
      result and the epoch state, and nothing else. */
  lemma CastBallotExactly(cfg: Config, w: World, i: nat, weatherStatus: nat)
    requires Inv(cfg, w)
    ensures var r := Apply(cfg, w, CastBallot(i, weatherStatus));
            && (r.Ok? <==> CanCast(cfg, w, i, weatherStatus))
            && (r.Ok? ==>
                  && r.value == w.(box := r.value.box, result := r.value.result, state := r.value.state)
                  && r.value.box.Live? && r.value.state.Some?
                  && VoteCounted(w.box.value, r.value.box.value, cfg.operators[i], weatherStatus, w.operators[i].value.stake, w.slot, w.snapshot.value.stake)
                  && StateAfterVote(w.state.value, r.value.state.value, w.box.value, r.value.box.value, w.slot))
  {
    var r := Apply(cfg, w, CastBallot(i, weatherStatus));
    if r.Ok? {
      CastBallotShape(cfg, w, i, weatherStatus);
      VoteAppended(w.box.value, cfg.operators[i], weatherStatus, w.operators[i].value.stake, w.slot, cfg.timing.validSlots, w.snapshot.value.stake);
      StakedVote(cfg, w, i, weatherStatus);
      CastEffect(cfg, w, r.value, i, weatherStatus);
    } else if CanCast(cfg, w, i, weatherStatus) {
      VoteIsAccepted(cfg, w, i, weatherStatus);
      assert false;
    }
  }

  lemma StakedVote(cfg: Config, w: World, i: nat, weatherStatus: nat)
    requires ProperConfig(cfg) && Shaped(w) && Apply(cfg, w, CastBallot(i, weatherStatus)).Ok?
    ensures i < MAX_OPERATORS && w.operators[i].Some? && w.operators[i].value.stake > 0
  {
  }

  lemma CastEffect(cfg: Config, w: World, w': World, i: nat, weatherStatus: nat)
    requires Inv(cfg, w) && w.state.Some? && w.box.Live? && w.snapshot.Some? && EpochFinalized(w.snapshot.value) && i < MAX_OPERATORS
    requires w.operators[i].Some? && w.operators[i].value.stake > 0 && !VotedIn(w.box.value.votes, cfg.operators[i])
    requires w'.box.Live? && w'.state.Some?
    requires CastAndCount(w.box.value, cfg.operators[i], weatherStatus, w.operators[i].value.stake, w.slot, cfg.timing.validSlots,
                          w.snapshot.value.stake) == Ok(w'.box.value)
    requires w'.state.value == E.OnCastVote(w.state.value, w'.box.value.operatorsVoted, IsConsensusReached(w'.box.value), w.slot)
    ensures CanCast(cfg, w, i, weatherStatus)
    ensures VoteCounted(w.box.value, w'.box.value, cfg.operators[i], weatherStatus, w.operators[i].value.stake, w.slot, w.snapshot.value.stake)
    ensures StateAfterVote(w.state.value, w'.state.value, w.box.value, w'.box.value, w.slot)
  {
    VoterHasTotal(cfg, w, i);
    CastAndCountExactly(w.box.value, cfg.operators[i], weatherStatus, w.operators[i].value.stake, w.slot, cfg.timing.validSlots,
                        w.snapshot.value.stake);
  }

  lemma VoteIsAccepted(cfg: Config, w: World, i: nat, weatherStatus: nat)
    requires Inv(cfg, w) && CanCast(cfg, w, i, weatherStatus)
    ensures Apply(cfg, w, CastBallot(i, weatherStatus)).Ok?
  {
    VoterHasTotal(cfg, w, i);
    CastAndCountExactly(w.box.value, cfg.operators[i], weatherStatus, w.operators[i].value.stake, w.slot, cfg.timing.validSlots,
                        w.snapshot.value.stake);
    var b' := CastAndCount(w.box.value, cfg.operators[i], weatherStatus, w.operators[i].value.stake, w.slot, cfg.timing.validSlots,
                           w.snapshot.value.stake).value;
    PublishWorks(w.result.value, b', w.snapshot.value.stake, w.slot);
    CountedIsApplied(cfg, w, i, weatherStatus, b');
  }

  lemma PublishWorks(c: ConsensusResult, b: Box, total: nat, slot: nat)
    requires Consistent(b)
    ensures Publish(c, b, total, slot).Ok?
  {
  }

  lemma CountedIsApplied(cfg: Config, w: World, i: nat, weatherStatus: nat, b': Box)
    requires ProperConfig(cfg) && Shaped(w) && w.result.Some? && CanCast(cfg, w, i, weatherStatus)
    requires CastAndCount(w.box.value, cfg.operators[i], weatherStatus, w.operators[i].value.stake, w.slot, cfg.timing.validSlots,
                          w.snapshot.value.stake) == Ok(b')
    requires Publish(w.result.value, b', w.snapshot.value.stake, w.slot).Ok?
    ensures Apply(cfg, w, CastBallot(i, weatherStatus)).Ok?
  {
  }

  // ---------------------------------------------------------------- breaking a tie

  /** A tie break is accepted exactly for a ballot that was voted for, when nothing is decided and
      the vote has stalled; it then sets the winner, records the current slot in the epoch state,
      and changes nothing else. */
  lemma BreakTieExactly(cfg: Config, w: World, weatherStatus: nat)
    requires Inv(cfg, w)
    ensures var r := Apply(cfg, w, SetTieBreakerBallot(weatherStatus));
            && (r.Ok? <==>
                  && w.state.Some? && w.box.Live? && !IsConsensusReached(w.box.value)
                  && var stalled := w.box.value.epoch + cfg.timing.epochsBeforeStall;
                     stalled <= U64_MAX && cfg.timing.epochOf(w.slot) >= stalled && VotedFor(w.box.value, NewBallot(weatherStatus)))
            && (r.Ok? ==>
                  r.value == w.(box := Live(w.box.value.(winningBallot := Ballot(weatherStatus, true))),
                                state := Some(w.state.value.(slotConsensusReached := w.slot, wasTieBreakerSet := true))))
  {
    if w.box.Live? {
      TieBreakerSound(w.box.value, weatherStatus, cfg.timing.epochOf(w.slot), cfg.timing.epochsBeforeStall);
    }
  }

  // ---------------------------------------------------------------- decided exactly when some ballot passes

  /** The box belongs to its epoch, and it is decided by votes exactly when some tally passes the
      test against the snapshot. */
  ghost predicate VoteRight(cfg: Config, w: World) {
    w.box.Live? ==>
      && w.box.value.epoch == cfg.epoch
      && (w.snapshot.Some? ==> (DecidedByVotes(w.box.value) <==> SomePasses(w.box.value.tallies, w.snapshot.value.stake)))
  }

  lemma NoVotesNoTallies(b: Box)
    requires Consistent(b) && b.votes == []
    ensures b.tallies == []
  {
  }

  lemma StillPasses(before: seq<Tally>, after: seq<Tally>, total: nat)
    requires TalliesGrow(before, after) && SomePasses(before, total)
    ensures SomePasses(after, total)
  {
    var t :| 0 <= t < |before| && Threshold.Passes(before[t].weight, total);
    Threshold.HeavierPassesToo(before[t].weight, after[t].weight, total);
  }

  lemma VoteKeepsRight(cfg: Config, w: World, i: nat, weatherStatus: nat)
    requires Inv(cfg, w) && VoteRight(cfg, w) && Apply(cfg, w, CastBallot(i, weatherStatus)).Ok?
    ensures VoteRight(cfg, Apply(cfg, w, CastBallot(i, weatherStatus)).value)
  {
    CastBallotExactly(cfg, w, i, weatherStatus);
    var b, b', total := w.box.value, Apply(cfg, w, CastBallot(i, weatherStatus)).value.box.value, w.snapshot.value.stake;
    if SomePasses(b.tallies, total) {
      StillPasses(b.tallies, b'.tallies, total);
    }
  }

  lemma TieKeepsRight(cfg: Config, w: World, weatherStatus: nat)
    requires Inv(cfg, w) && VoteRight(cfg, w) && Apply(cfg, w, SetTieBreakerBallot(weatherStatus)).Ok?
    ensures VoteRight(cfg, Apply(cfg, w, SetTieBreakerBallot(weatherStatus)).value)
  {
    BreakTieExactly(cfg, w, weatherStatus);
  }

  /** The snapshot's total changes only while nobody has voted. */
  lemma SnapshotKeepsRight(cfg: Config, w: World, ins: Instruction)
    requires Inv(cfg, w) && VoteRight(cfg, w) && Apply(cfg, w, ins).Ok?
    requires ins.InitializeEpochSnapshot? || ins.InitializeOperatorSnapshot? || ins.SnapshotDelegation?
    ensures VoteRight(cfg, Apply(cfg, w, ins).value)
  {
    if w.box.Live? {
      NobodyVoted(cfg, w, ins);
      NoVotesNoTallies(w.box.value);
    }
    BoxUntouched(cfg, w, ins);
  }

  lemma NobodyVoted(cfg: Config, w: World, ins: Instruction)
    requires Inv(cfg, w) && Apply(cfg, w, ins).Ok? && w.box.Live?
    requires ins.InitializeEpochSnapshot? || ins.InitializeOperatorSnapshot? || ins.SnapshotDelegation?
    ensures w.box.value.votes == [] && !DecidedByVotes(w.box.value)
  {
    if ins.InitializeOperatorSnapshot? {
      RegistrySize(w.weights.value.registry);
      AddOperatorSound(w.snapshot.value, w.operators, Registry(w.weights.value), ins.i, ins.isActive, ins.feeBps, w.slot);
    } else if ins.SnapshotDelegation? {
      DelegationMirror(cfg, w, ins.i, ins.entry);
      AddDelegationSound(w.snapshot.value, w.operators, Registry(w.weights.value), ins.i, ins.entry, w.slot);
    }
    assert Votes(w) == [];
    if w.box.value.winningBallot.isValid {
      NoVotesNoTallies(w.box.value);
    }
  }

  lemma BoxUntouched(cfg: Config, w: World, ins: Instruction)
    requires ProperConfig(cfg) && Shaped(w) && Apply(cfg, w, ins).Ok?
    requires !ins.CastBallot? && !ins.SetTieBreakerBallot? && !ins.CloseAccount? && !ins.ReallocBallotBox? && !ins.InitializeBallotBox?
    ensures var w' := Apply(cfg, w, ins).value;
            && w'.box == w.box
            && (!ins.InitializeEpochSnapshot? && !ins.InitializeOperatorSnapshot? && !ins.SnapshotDelegation? ==> w'.snapshot == w.snapshot)
  {
  }

  lemma BoxMadeOrClosed(cfg: Config, w: World, ins: Instruction)
    requires ProperConfig(cfg) && Shaped(w) && Apply(cfg, w, ins).Ok?
    requires ins.CloseAccount? || ins.ReallocBallotBox? || ins.InitializeBallotBox?
    ensures var w' := Apply(cfg, w, ins).value;
            && (w'.box == w.box || !w'.box.Live? || w'.box == Live(EmptyBox(cfg.epoch)))
            && (w'.snapshot == w.snapshot || w'.snapshot.None?)
  {
  }

  lemma StepKeepsRight(cfg: Config, w: World, ins: Instruction)
    requires Inv(cfg, w) && VoteRight(cfg, w) && Apply(cfg, w, ins).Ok?
    ensures VoteRight(cfg, Apply(cfg, w, ins).value)
  {
    if ins.CastBallot? {
      VoteKeepsRight(cfg, w, ins.i, ins.weatherStatus);
    } else if ins.SetTieBreakerBallot? {
      TieKeepsRight(cfg, w, ins.weatherStatus);
    } else if ins.InitializeEpochSnapshot? || ins.InitializeOperatorSnapshot? || ins.SnapshotDelegation? {
      SnapshotKeepsRight(cfg, w, ins);
    } else if ins.CloseAccount? || ins.ReallocBallotBox? || ins.InitializeBallotBox? {
      BoxMadeOrClosed(cfg, w, ins);
    } else {
      BoxUntouched(cfg, w, ins);
    }
  }

  /** After every run from an untouched epoch that loses nothing: the box is decided by votes if
      and only if some ballot passes the test, no vote having been left uncounted. */
  lemma {:induction false} DecidedExactlyWhenSomePasses(cfg: Config, initial: World, run: seq<Instruction>)
    requires T.Initial(cfg, initial) && T.ProperRun(run) && T.LosesNothing(cfg, initial, run)
    ensures VoteRight(cfg, T.Run(cfg, initial, run))
  {
    if |run| > 0 {
      var front := run[..|run| - 1];
      DecidedExactlyWhenSomePasses(cfg, initial, front);
      T.SoundAtEnd(cfg, initial, front);
      var m := T.Run(cfg, initial, front);
      if Apply(cfg, m, run[|run| - 1]).Ok? {
        StepKeepsRight(cfg, m, run[|run| - 1]);
      }
    }
  }

  // ---------------------------------------------------------------- when the decision was made

  /** The slot of the instruction along the run that reached consensus, by votes or by a tie break. */
  ghost function DecisionSlot(cfg: Config, w: World, run: seq<Instruction>): Option<nat>
    requires ProperConfig(cfg) && Shaped(w)
  {
    if |run| == 0 then None
    else
      var before, m, w' := DecisionSlot(cfg, w, run[..|run| - 1]), T.Run(cfg, w, run[..|run| - 1]), T.Run(cfg, w, run);
      if m.box.Live? && !IsConsensusReached(m.box.value) && w'.box.Live? && IsConsensusReached(w'.box.value) then Some(m.slot)
      else before
  }

  /** The epoch state records that slot, and the box tells whether there is one. */
  ghost predicate DecisionRecorded(w: World, decided: Option<nat>) {
    && (w.state.Some? && E.IsConsensusReached(w.state.value) ==> decided == Some(w.state.value.slotConsensusReached))
    && (decided.Some? ==> T.BoxGone(w) || (w.box.Live? && IsConsensusReached(w.box.value)))
    && (decided.None? && w.box.Live? ==> !IsConsensusReached(w.box.value))
  }

  /** The slot after one more instruction. */
  ghost function DecidedNow(m: World, w': World, before: Option<nat>): Option<nat> {
    if m.box.Live? && !IsConsensusReached(m.box.value) && w'.box.Live? && IsConsensusReached(w'.box.value) then Some(m.slot)
    else before
  }

  /** Instructions that record no decision. */
  lemma SlotUntouched(cfg: Config, w: World, ins: Instruction)
    requires ProperConfig(cfg) && Shaped(w) && Apply(cfg, w, ins).Ok? && !ins.CastBallot? && !ins.SetTieBreakerBallot?
    ensures var w' := Apply(cfg, w, ins).value;
            && (w'.state.Some? && E.IsConsensusReached(w'.state.value) ==>
                  w.state.Some? && w'.state.value.slotConsensusReached == w.state.value.slotConsensusReached)
            && (w'.box == w.box || !w'.box.Live? || w'.box == Live(EmptyBox(cfg.epoch)))
  {
  }

  lemma StepRecords(cfg: Config, m: World, ins: Instruction, before: Option<nat>)
    requires Inv(cfg, m) && Apply(cfg, m, ins).Ok? && DecisionRecorded(m, before)
    ensures var w' := Apply(cfg, m, ins).value;
            DecisionRecorded(w', DecidedNow(m, w', before))
  {
    if ins.CastBallot? {
      CastBallotExactly(cfg, m, ins.i, ins.weatherStatus);
    } else if ins.SetTieBreakerBallot? {
      BreakTieExactly(cfg, m, ins.weatherStatus);
    } else {
      SlotUntouched(cfg, m, ins);
      if m.box.Live? {
        T.BoxStep(cfg, m, ins);
      } else if T.BoxGone(m) {
        T.GoneStaysGone(cfg, m, ins);
      }
    }
  }

  lemma {:induction false} DecisionIsRecorded(cfg: Config, initial: World, run: seq<Instruction>)
    requires T.Initial(cfg, initial) && T.ProperRun(run) && T.LosesNothing(cfg, initial, run)
    ensures DecisionRecorded(T.Run(cfg, initial, run), DecisionSlot(cfg, initial, run))
  {
    if |run| > 0 {
      var front := run[..|run| - 1];
      DecisionIsRecorded(cfg, initial, front);
      T.SoundAtEnd(cfg, initial, front);
      var m := T.Run(cfg, initial, front);
      if Apply(cfg, m, run[|run| - 1]).Ok? {
        StepRecords(cfg, m, run[|run| - 1], DecisionSlot(cfg, initial, front));
      }
    }
  }

  /** The configured number of epochs has passed since slot `decided`. */
  ghost predicate LongSince(cfg: Config, decided: nat, slot: nat) {
    cfg.timing.epochOf(slot) >= cfg.timing.epochOf(decided) + cfg.timing.epochsBeforeClose
  }

  /** After every run from an untouched epoch that loses nothing: the epoch is closing only the
      configured number of epochs after the instruction that reached consensus, a vote or a tie
      break; and while the ballot box exists, accounts can be closed exactly from then on. */
  lemma ClosingWaits(cfg: Config, initial: World, run: seq<Instruction>)
    requires T.Initial(cfg, initial) && T.ProperRun(run) && T.LosesNothing(cfg, initial, run)
    ensures var w, decided := T.Run(cfg, initial, run), DecisionSlot(cfg, initial, run);
            && (w.state.Some? && w.state.value.isClosing ==> decided.Some? && LongSince(cfg, decided.value, w.slot))
            && (w.state.Some? && w.box.Live? ==>
                  (E.CanClose(w.state.value, cfg.timing, w.slot) == Ok(true) <==> decided.Some? && LongSince(cfg, decided.value, w.slot)))
  {
    T.SoundAtEnd(cfg, initial, run);
    DecisionIsRecorded(cfg, initial, run);
    CloseTimes(cfg, T.Run(cfg, initial, run));
  }

  lemma CloseTimes(cfg: Config, w: World)
    requires Inv(cfg, w)
    ensures w.state.Some? && w.state.value.isClosing ==> E.CanClose(w.state.value, cfg.timing, w.slot) == Ok(true)
    ensures w.state.Some? ==>
              (E.CanClose(w.state.value, cfg.timing, w.slot) == Ok(true) <==>
                 E.IsConsensusReached(w.state.value) && LongSince(cfg, w.state.value.slotConsensusReached, w.slot))
    ensures w.state.Some? && w.box.Live? ==> (E.IsConsensusReached(w.state.value) <==> IsConsensusReached(w.box.value))
  {
    if w.state.Some? && E.IsConsensusReached(w.state.value) {
      assert cfg.timing.epochOf(w.state.value.slotConsensusReached) <= cfg.timing.epochOf(w.slot);
    }
  }

  // ---------------------------------------------------------------- the phase, by the accounts

  /** The phase as the accounts tell it.  `decided` is the slot of the decision, if there is one. */
  ghost function PhaseByAccounts(cfg: Config, w: World, decided: Option<nat>): Result<E.Phase> {
    if decided.Some? && LongSince(cfg, decided.value, w.slot) then Ok(E.Close)
    else if !w.weights.Live? || exists j :: 0 <= j < |w.weights.value.slotSet| && w.weights.value.slotSet[j] == 0 then Ok(E.SetWeight)
    else if w.snapshot.None? || w.snapshot.value.operatorsRegistered < w.snapshot.value.operatorCount || !w.box.Live? then Ok(E.Snapshot)
    else if !IsConsensusReached(w.box.value) then Ok(E.Vote)
    else if decided.Some? && decided.value + cfg.timing.validSlots > U64_MAX then Err(ArithmeticOverflow)
    else if decided.Some? && w.slot < decided.value + cfg.timing.validSlots then Ok(E.PostVoteCooldown)
    else Ok(E.Distribute)
  }

  /** The slot recorded in the epoch state. */
  function Recorded(w: World): Option<nat> {
    if w.state.Some? && E.IsConsensusReached(w.state.value) then Some(w.state.value.slotConsensusReached) else None
  }

  lemma {:induction false} AllSetExactly(slotSet: seq<nat>)
    ensures SumBy(slotSet, IsSet) == |slotSet| <==> forall j :: 0 <= j < |slotSet| ==> slotSet[j] != 0
  {
    CountWithin(slotSet);
    if |slotSet| > 0 {
      var n := |slotSet| - 1;
      AllSetExactly(slotSet[..n]);
      CountWithin(slotSet[..n]);
      assert slotSet == slotSet[..n] + [slotSet[n]];
    }
  }

  /** While the epoch is open, progress is complete exactly when its accounts are finished. */
  lemma ProgressTells(cfg: Config, w: World)
    requires Inv(cfg, w) && w.state.Some? && !w.state.value.isClosing
    ensures var es := w.state.value;
            && (es.weightTable != E.DNE <==> w.weights.Live?) && (es.epochSnapshot != E.DNE <==> w.snapshot.Some?)
            && (es.ballotBox != E.DNE <==> w.box.Live?)
            && (w.weights.Live? ==>
                  && (es.setWeightProgress.IsComplete() <==> forall j :: 0 <= j < |w.weights.value.slotSet| ==> w.weights.value.slotSet[j] != 0)
                  && es.setWeightProgress.tally <= es.setWeightProgress.total == |w.weights.value.slotSet| <= MAX_ST_MINTS)
            && (w.snapshot.Some? ==>
                  (es.snapshotProgress.IsComplete() <==> w.snapshot.value.operatorsRegistered == w.snapshot.value.operatorCount))
            && (w.snapshot.Some? ==> w.snapshot.value.operatorsRegistered <= w.snapshot.value.operatorCount)
  {
    if w.weights.Live? {
      AllSetExactly(w.weights.value.slotSet);
      CountWithin(w.weights.value.slotSet);
    }
    if w.snapshot.Some? && EpochFinalized(w.snapshot.value) {
      FinishedEpochCountsEveryone(w.snapshot.value, w.operators, Registry(w.weights.value));
    }
  }

  /** In every sound state the phase is what the accounts tell: each phase if and only if its
      condition on table, snapshot, ballot box, decision and slot holds. */
  lemma PhaseIsByAccounts(cfg: Config, w: World)
    requires Inv(cfg, w) && w.state.Some?
    ensures E.CurrentState(w.state.value, cfg.timing, w.slot) == PhaseByAccounts(cfg, w, Recorded(w))
  {
    CloseTimes(cfg, w);
    if !w.state.value.isClosing {
      ProgressTells(cfg, w);
    }
  }

  /** And so is the patched phase, given the weight table's mint count. */
  lemma PatchedPhaseIsByAccounts(cfg: Config, w: World)
    requires Inv(cfg, w) && w.state.Some?
    ensures var mintCount := if w.weights.Live? then |w.weights.value.slotSet| else 0;
            E.CurrentStatePatched(w.state.value, cfg.timing, mintCount, w.slot) == PhaseByAccounts(cfg, w, Recorded(w))
  {
    CloseTimes(cfg, w);
    if !w.state.value.isClosing {
      ProgressTells(cfg, w);
    }
  }

  // ---------------------------------------------------------------- setting an epoch up

  /** The epoch is open: it has a state, which is not closing. */
  ghost predicate IsOpen(w: World) { w.state.Some? && !w.state.value.isClosing && !w.marker }

  /** A state that has seen nothing yet. */
  ghost predicate FreshState(es: E.EpochState) {
    && !es.isClosing && !es.wasTieBreakerSet && es.slotConsensusReached == NO_SLOT && es.operatorCount == 0 && es.vaultCount == 0
    && es.weightTable == es.epochSnapshot == es.ballotBox == es.ncnRouter == E.DNE
    && es.setWeightProgress == es.snapshotProgress == es.votingProgress == E.Progress(0, 0)
    && |es.operatorSnapshots| == |es.operatorRouters| == |es.operatorProgress| == MAX_OPERATORS
    && forall i :: 0 <= i < MAX_OPERATORS ==>
         es.operatorSnapshots[i] == es.operatorRouters[i] == E.DNE && es.operatorProgress[i] == E.Progress(0, 0)
  }

  /** The state is created once, not for a future epoch and not for a closed one. */
  lemma InitializeEpochStateExactly(cfg: Config, w: World)
    requires ProperConfig(cfg) && Shaped(w)
    ensures var r := Apply(cfg, w, InitializeEpochState);
            && (r.Ok? <==> cfg.epoch <= cfg.timing.epochOf(w.slot) && w.state.None? && !w.marker)
            && (r.Ok? ==> r.value.state.Some? && FreshState(r.value.state.value) && r.value == w.(state := r.value.state))
  {
  }

  /** Accounts that are allocated first and grown later: allocation asks for an open epoch and an
      empty address, and the ballot box also for an address without a result. */
  lemma AllocationsExactly(cfg: Config, w: World)
    requires ProperConfig(cfg) && Shaped(w)
    ensures var r := Apply(cfg, w, InitializeWeightTable);
            && (r.Ok? <==> IsOpen(w) && w.weights.Absent?) && (r.Ok? ==> r.value == w.(weights := Partial))
    ensures var r := Apply(cfg, w, InitializeBallotBox);
            && (r.Ok? <==> IsOpen(w) && w.box.Absent? && w.result.None?)
            && (r.Ok? ==> r.value == w.(box := Partial, result := Some(ConsensusResult(0, 0, 0, 0))))
    ensures var r := Apply(cfg, w, InitializeRouter);
            && (r.Ok? <==> IsOpen(w) && w.router.Absent?) && (r.Ok? ==> r.value == w.(router := Partial))
  {
  }

  /** Growing an account initializes it once it is large enough, and only then; the weight table
      takes over the registry, and nothing is weighted. */
  lemma ReallocWeightTableExactly(cfg: Config, w: World, full: bool, registry: seq<nat>, mintCount: nat)
    requires ProperConfig(cfg) && Shaped(w)
    ensures var r := Apply(cfg, w, ReallocWeightTable(full, registry, mintCount));
            && (r.Ok? <==> w.state.Some? && !w.weights.Absent? && (full && w.weights.Partial? ==> |registry| > 0 && mintCount > 0))
            && (r.Ok? && (w.weights.Live? || !full) ==> r.value == w)
            && (r.Ok? && w.weights.Partial? && full ==>
                  && r.value.weights.Live? && r.value.weights.value.registry == registry && |r.value.weights.value.slotSet| == mintCount
                  && (forall j :: 0 <= j < mintCount ==> r.value.weights.value.slotSet[j] == 0)
                  && r.value == w.(weights := r.value.weights,
                                   state := Some(w.state.value.(weightTable := E.Created, vaultCount := |registry|,
                                                                setWeightProgress := E.Progress(0, mintCount)))))
  {
  }

  lemma ReallocBoxAndRouterExactly(cfg: Config, w: World, full: bool)
    requires ProperConfig(cfg) && Shaped(w)
    ensures var r := Apply(cfg, w, ReallocBallotBox(full));
            && (r.Ok? <==> w.state.Some? && !w.box.Absent?)
            && (r.Ok? ==>
                  r.value == if w.box.Live? || !full then w
                             else w.(box := Live(Box(cfg.epoch, NO_SLOT, 0, 0, Ballot(0, false), [], [])),
                                     state := Some(w.state.value.(ballotBox := E.Created,
                                                                  votingProgress := E.Progress(0, w.state.value.operatorCount)))))
    ensures var r := Apply(cfg, w, ReallocRouter(full));
            && (r.Ok? <==> w.state.Some? && !w.router.Absent?)
            && (r.Ok? ==>
                  r.value == if w.router.Live? || !full then w
                             else w.(router := Live(()), state := Some(w.state.value.(ncnRouter := E.CreatedWithReceiver))))
  {
  }

  /** Weights are set while some mint is without one; the epoch state counts the mints that have one. */
  lemma SetWeightsExactly(cfg: Config, w: World, mints: seq<nat>)
    requires Inv(cfg, w)
    ensures var r := Apply(cfg, w, SetWeights(mints));
            && (r.Ok? <==>
                  && w.state.Some? && w.weights.Live?
                  && (exists j :: 0 <= j < |w.weights.value.slotSet| && w.weights.value.slotSet[j] == 0)
                  && (forall k :: 0 <= k < |mints| ==> mints[k] < |w.weights.value.slotSet|))
            && (r.Ok? ==>
                  && r.value.weights.Live? && r.value.state.Some?
                  && var t, t' := w.weights.value, r.value.weights.value;
                     && t'.registry == t.registry && |t'.slotSet| == |t.slotSet|
                     && (forall j :: 0 <= j < |t.slotSet| ==>
                           t'.slotSet[j] == if t.slotSet[j] == 0 && j in mints then w.slot else t.slotSet[j])
                     && r.value == w.(weights := Live(t'),
                                      state := Some(w.state.value.(setWeightProgress := E.Progress(SumBy(t'.slotSet, IsSet), |t.slotSet|)))))
  {
    if w.weights.Live? {
      SetMintsExactly(w.weights.value, mints, w.slot);
      AllSetExactly(w.weights.value.slotSet);
    }
  }

  /** The epoch snapshot is taken of a finished weight table, for at least one operator. */
  lemma InitializeEpochSnapshotExactly(cfg: Config, w: World, operatorCount: nat, fees: FeeSchedule.Fees)
    requires Inv(cfg, w)
    ensures var r := Apply(cfg, w, InitializeEpochSnapshot(operatorCount, fees));
            && (r.Ok? <==>
                  && IsOpen(w) && w.weights.Live? && w.snapshot.None? && operatorCount > 0
                  && forall j :: 0 <= j < |w.weights.value.slotSet| ==> w.weights.value.slotSet[j] != 0)
            && (r.Ok? ==>
                  r.value == w.(snapshot := Some(EpochSnapshot(operatorCount, |w.weights.value.registry|, 0, 0, 0, 0, fees)),
                                state := Some(w.state.value.(epochSnapshot := E.Created, operatorCount := operatorCount,
                                                             snapshotProgress := E.Progress(0, operatorCount)))))
  {
    if w.weights.Live? {
      AllSetExactly(w.weights.value.slotSet);
    }
  }

  /** An operator's router is created beside the operator's snapshot. */
  lemma InitializeOperatorRouterExactly(cfg: Config, w: World, i: nat)
    requires ProperConfig(cfg) && Shaped(w)
    ensures var r := Apply(cfg, w, InitializeOperatorRouter(i));
            && (r.Ok? <==> IsOpen(w) && i < MAX_OPERATORS && w.operators[i].Some? && !w.operatorRouters[i])
            && (r.Ok? ==>
                  r.value == w.(operatorRouters := w.operatorRouters[i := true],
                                state := Some(w.state.value.(operatorRouters := w.state.value.operatorRouters[i := E.CreatedWithReceiver]))))
  {
  }

  // ---------------------------------------------------------------- closing

  /** Accounts may be closed: consensus was reached, and long enough ago. */
  ghost predicate CloseDue(cfg: Config, w: World) {
    w.state.Some? && E.IsConsensusReached(w.state.value) && LongSince(cfg, w.state.value.slotConsensusReached, w.slot)
  }

  /** The account is there to be closed.  The epoch state needs everything else to be gone, and the
      NCN's router to have existed. */
  ghost predicate CanClose(w: World, target: Target)
    requires Shaped(w)
  {
    match target
    case EpochStateAccount => Dormant(w) && w.state.Some? && w.state.value.ncnRouter == E.Closed
    case WeightTableAccount => w.weights.Live?
    case EpochSnapshotAccount => w.snapshot.Some?
    case OperatorSnapshotAccount(i) => i < MAX_OPERATORS && w.operators[i].Some?
    case BallotBoxAccount => w.box.Live?
    case RouterAccount => w.router.Live?
    case OperatorRouterAccount(i) => i < MAX_OPERATORS && w.operatorRouters[i]
  }

  /** What a close leaves. */
  ghost function Without(w: World, target: Target): World
    requires Shaped(w) && w.state.Some? && (target.OperatorSnapshotAccount? || target.OperatorRouterAccount? ==> target.i < MAX_OPERATORS)
  {
    var es := w.state.value.(isClosing := true);
    match target
    case EpochStateAccount => w.(state := None, marker := true)
    case WeightTableAccount => w.(weights := Absent, state := Some(es.(weightTable := E.Closed)))
    case EpochSnapshotAccount => w.(snapshot := None, state := Some(es.(epochSnapshot := E.Closed)))
    case OperatorSnapshotAccount(i) => w.(operators := w.operators[i := None], state := Some(es.(operatorSnapshots := es.operatorSnapshots[i := E.Closed])))
    case BallotBoxAccount => w.(box := Absent, state := Some(es.(ballotBox := E.Closed)))
    case RouterAccount => w.(router := Absent, state := Some(es.(ncnRouter := E.Closed)))
    case OperatorRouterAccount(i) =>
      w.(operatorRouters := w.operatorRouters[i := false], state := Some(es.(operatorRouters := es.operatorRouters[i := E.Closed])))
  }

  /** In a sound state, everything but the epoch state is gone exactly when no status is open and
      the four single accounts are closed, provided that consensus was reached and the NCN's
      router existed. */
  lemma AllClosedExactly(cfg: Config, w: World)
    requires Inv(cfg, w) && w.state.Some? && E.IsConsensusReached(w.state.value)
    ensures E.AreAllClosed(w.state.value) <==> Dormant(w) && w.state.value.ncnRouter == E.Closed
  {
    var es := w.state.value;
    assert forall i :: 0 <= i < MAX_OPERATORS ==>
      && Tracks(es.operatorSnapshots[i], E.Created, w.operators[i].Some?, w.operators[i].None?, es.isClosing)
      && Tracks(es.operatorRouters[i], E.CreatedWithReceiver, w.operatorRouters[i], !w.operatorRouters[i], es.isClosing);
  }

  lemma CloseOneExactly(cfg: Config, w: World, target: Target)
    requires Inv(cfg, w) && !target.EpochStateAccount?
    ensures var r := Apply(cfg, w, CloseAccount(target));
            && (r.Ok? <==> CloseDue(cfg, w) && CanClose(w, target))
            && (r.Ok? ==> r.value == Without(w, target))
  {
    CloseTimes(cfg, w);
  }

  lemma CloseStateExactly(cfg: Config, w: World)
    requires Inv(cfg, w)
    ensures var r := Apply(cfg, w, CloseAccount(EpochStateAccount));
            && (r.Ok? <==> CloseDue(cfg, w) && CanClose(w, EpochStateAccount))
            && (r.Ok? ==> r.value == w.(state := None, marker := true))
  {
    CloseTimes(cfg, w);
    if w.state.Some? && E.IsConsensusReached(w.state.value) {
      AllClosedExactly(cfg, w);
    }
  }

  // ---------------------------------------------------------------- an epoch that cannot be closed

  /** The epoch is closing and its NCN router was never created. */
  ghost predicate NeverRouted(w: World) {
    w.state.Some? && w.state.value.isClosing && w.router.Absent? && w.state.value.ncnRouter == E.DNE && !w.marker
  }

  lemma NeverRoutedStep(cfg: Config, w: World, ins: Instruction)
    requires ProperConfig(cfg) && Shaped(w) && NeverRouted(w) && Apply(cfg, w, ins).Ok? && !ins.LoseState?
    ensures NeverRouted(Apply(cfg, w, ins).value)
  {
  }

  /** If closing begins before the NCN's router is allocated, the router can no longer be created,
      and so the epoch state can never be closed: along every run of own closes there is no marker. */
  lemma {:induction false} NeverRoutedNeverClosed(cfg: Config, w: World, run: seq<Instruction>)
    requires ProperConfig(cfg) && Shaped(w) && NeverRouted(w) && T.OwnCloses(cfg, w, run)
    ensures NeverRouted(T.Run(cfg, w, run))
  {
    if |run| > 0 {
      var front := run[..|run| - 1];
      NeverRoutedNeverClosed(cfg, w, front);
      var m := T.Run(cfg, w, front);
      if Apply(cfg, m, run[|run| - 1]).Ok? {
        NeverRoutedStep(cfg, m, run[|run| - 1]);
      }
    }
  }

  // ---------------------------------------------------------------- snapshotting and routing

  /** An operator's snapshot is created once, in an open epoch, for an operator the epoch snapshot
      has a place for. */
  lemma InitializeOperatorSnapshotExactly(cfg: Config, w: World, i: nat, isActive: bool, feeBps: nat)
    requires Inv(cfg, w)
    ensures Apply(cfg, w, InitializeOperatorSnapshot(i, isActive, feeBps)).Ok? <==>
              && IsOpen(w) && w.snapshot.Some? && i < MAX_OPERATORS && i < w.snapshot.value.operatorCount && w.operators[i].None?
              && (!isActive ==> w.snapshot.value.validDelegations <= U64_MAX && w.snapshot.value.stake <= U128_MAX)
  {
    if IsOpen(w) && w.snapshot.Some? && i < MAX_OPERATORS {
      RegistrySize(w.weights.value.registry);
      OperatorAcceptedExactlyWhen(w.snapshot.value, w.operators, Registry(w.weights.value), i, isActive, feeBps, w.slot);
      if w.operators[i].None? && EpochFinalized(w.snapshot.value) {
        FinishedAtMost(w.operators, w.snapshot.value.operatorCount);
      }
    }
  }

  /** A delegation can be registered: the vault is in the registry and new to an unfinished
      operator, and no sum overflows. */
  ghost predicate CanRegister(w: World, i: nat, e: Entry)
    requires Shaped(w)
  {
    && w.state.Some? && w.weights.Live? && w.snapshot.Some? && i < MAX_OPERATORS && w.operators[i].Some?
    && e.vaultIndex in w.weights.value.registry
    && var s, es := w.operators[i].value, w.snapshot.value;
       && s.registered < s.delegationCount && s.stake + e.weight <= U128_MAX
       && (forall j :: 0 <= j < |s.entries| ==> s.entries[j].vaultIndex != e.vaultIndex)
       && (s.registered + 1 == s.delegationCount ==>
             && es.stake + s.stake + e.weight <= U128_MAX
             && es.validDelegations + s.validDelegations + (if e.weight > 0 then 1 else 0) <= U64_MAX)
  }

  lemma SnapshotDelegationExactly(cfg: Config, w: World, i: nat, e: Entry)
    requires Inv(cfg, w)
    ensures Apply(cfg, w, SnapshotDelegation(i, e)).Ok? <==> CanRegister(w, i, e)
  {
    if w.state.Some? && w.weights.Live? && w.snapshot.Some? && i < MAX_OPERATORS && w.operators[i].Some? {
      var registry := Registry(w.weights.value);
      assert e.vaultIndex in w.weights.value.registry <==> e.vaultIndex in registry;
      if w.state.value.isClosing {
        assert Finalized(w.operators[i].value);
      } else {
        assert Accounted(w.operators[i].value, registry);
        DelegationAcceptedExactlyWhen(w.snapshot.value, w.operators, registry, i, e, w.slot);
        DelegationApplies(cfg, w, i, e);
      }
    }
  }

  /** What the sums accept, the mirrors accept. */
  lemma DelegationApplies(cfg: Config, w: World, i: nat, e: Entry)
    requires Inv(cfg, w) && w.state.Some? && !w.state.value.isClosing && w.weights.Live? && w.snapshot.Some?
    requires i < MAX_OPERATORS && w.operators[i].Some?
    ensures Apply(cfg, w, SnapshotDelegation(i, e)).Ok? <==>
            AddDelegation(w.snapshot.value, w.operators, Registry(w.weights.value), i, e, w.slot).Ok?
  {
    var s := w.operators[i].value;
    assert Accounted(s, Registry(w.weights.value));
    if AddDelegation(w.snapshot.value, w.operators, Registry(w.weights.value), i, e, w.slot).Ok? {
      AddDelegationSound(w.snapshot.value, w.operators, Registry(w.weights.value), i, e, w.slot);
    }
  }

  /** The routing gate opens after a tie break at once, and after a decision by votes in the first
      slot beyond the voting window. */
  lemma RouteRewardsExactly(cfg: Config, w: World)
    requires Inv(cfg, w)
    ensures var r := Apply(cfg, w, RouteRewards);
            && (r.Ok? <==>
                  && w.state.Some? && w.box.Live? && w.snapshot.Some? && w.router.Live?
                  && var b := w.box.value;
                     || (b.slotConsensusReached == NO_SLOT && b.winningBallot.isValid)
                     || (&& b.slotConsensusReached != NO_SLOT
                         && b.slotConsensusReached + cfg.timing.validSlots <= U64_MAX
                         && b.slotConsensusReached + cfg.timing.validSlots < w.slot))
            && (r.Ok? ==> r.value == w)
  {
  }

  /** The clock does not run back, and stays below the sentinel. */
  lemma TickExactly(cfg: Config, w: World, slot: nat)
    requires ProperConfig(cfg) && Shaped(w)
    ensures var r := Apply(cfg, w, Tick(slot));
            (r.Ok? <==> w.slot <= slot < 0xFFFF_FFFF_FFFF_FFFF) && (r.Ok? ==> r.value == w.(slot := slot))
  {
  }
}
