/** What every state of an epoch satisfies that its own instructions reach: the snapshots add
    up, the votes are backed by snapshotted stake, the published result and the epoch state
    mirror the accounts they describe, and account statuses tell which accounts exist. */
module EpochInvariant {
  import opened Base
  import opened Sums
  import opened Voting
  import opened Snapshots
  import opened WeightTables
  import opened FeeSchedule
  import opened EpochProtocol
  import E = EpochStates

  // ---------------------------------------------------------------- stake and votes

  function Votes(w: World): seq<Vote> { if w.box.Live? then w.box.value.votes else [] }

  /** An operator's key beside its snapshot. */
  datatype Seat = Seat(key: Pubkey, snapshot: Option<OperatorSnapshot>)

  function Seats(keys: seq<Pubkey>, operators: seq<Option<OperatorSnapshot>>): seq<Seat>
    requires |keys| == |operators|
  {
    seq(|operators|, i requires 0 <= i < |operators| => Seat(keys[i], operators[i]))
  }

  /** The stake a seat can still bring to the vote. */
  function Unvoted(votes: seq<Vote>): Seat -> nat {
    (s: Seat) => if s.snapshot.Some? && !VotedIn(votes, s.key) then s.snapshot.value.stake else 0
  }

  function UnvotedStake(keys: seq<Pubkey>, operators: seq<Option<OperatorSnapshot>>, votes: seq<Vote>): nat
    requires |keys| == |operators|
  {
    SumBy(Seats(keys, operators), Unvoted(votes))
  }

  function CastWeight(votes: seq<Vote>): nat { SumBy(votes, VoteWeight) }

  ghost predicate AllFinished(operators: seq<Option<OperatorSnapshot>>) {
    forall i :: 0 <= i < |operators| && operators[i].Some? ==> Finalized(operators[i].value)
  }

  /** Before anyone votes, the unvoted stake is what the finished snapshots add up to. */
  lemma NobodyVotedYet(keys: seq<Pubkey>, operators: seq<Option<OperatorSnapshot>>)
    requires |keys| == |operators| && AllFinished(operators)
    ensures UnvotedStake(keys, operators, []) == SumBy(operators, FinishedStake)
  {
    SumByAligned(Seats(keys, operators), operators, Unvoted([]), FinishedStake);
  }

  /** A vote turns the voter's unvoted stake into cast weight. */
  lemma VoteMovesStake(keys: seq<Pubkey>, operators: seq<Option<OperatorSnapshot>>, votes: seq<Vote>, v: Vote, i: nat)
    requires |keys| == |operators| && i < |operators| && operators[i].Some?
    requires forall j, k :: 0 <= j < k < |keys| ==> keys[j] != keys[k]
    requires v.operator == keys[i] && v.weight == operators[i].value.stake && !VotedIn(votes, keys[i])
    ensures CastWeight(votes + [v]) + UnvotedStake(keys, operators, votes + [v]) == CastWeight(votes) + UnvotedStake(keys, operators, votes)
  {
    var seats := Seats(keys, operators);
    var before, after := Unvoted(votes), Unvoted(votes + [v]);
    assert (votes + [v])[|votes|].operator == keys[i];
    assert VotedIn(votes + [v], keys[i]);
    forall j | 0 <= j < |seats| && j != i
      ensures after(seats[j]) == before(seats[j])
    {
      OtherVoters(votes, v, keys[j]);
    }
    SumByDiffersAt(seats, i, after, before);
    SumByAppend(votes, v, VoteWeight);
  }

  lemma OtherVoters(votes: seq<Vote>, v: Vote, key: Pubkey)
    requires v.operator != key
    ensures VotedIn(votes + [v], key) <==> VotedIn(votes, key)
  {
    if VotedIn(votes, key) {
      var i :| 0 <= i < |votes| && votes[i].operator == key;
      assert (votes + [v])[i].operator == key;
    }
  }

  /** Closing an operator's snapshot can only lower the unvoted stake. */
  lemma ClosingLowersUnvoted(keys: seq<Pubkey>, operators: seq<Option<OperatorSnapshot>>, votes: seq<Vote>, i: nat)
    requires |keys| == |operators| && i < |operators|
    ensures UnvotedStake(keys, operators[i := None], votes) <= UnvotedStake(keys, operators, votes)
  {
    assert Seats(keys, operators[i := None]) == Seats(keys, operators)[i := Seat(keys[i], None)];
    SumByUpdate(Seats(keys, operators), i, Seat(keys[i], None), Unvoted(votes));
  }

  // ---------------------------------------------------------------- the invariant, part by part

  ghost predicate NoOperatorsIn(operators: seq<Option<OperatorSnapshot>>) {
    forall i :: 0 <= i < |operators| ==> operators[i].None?
  }

  /** No account of the epoch exists. */
  ghost predicate Dormant(w: World) {
    && w.weights.Absent? && w.snapshot.None? && NoOperatorsIn(w.operators) && w.box.Absent? && w.router.Absent?
    && (forall i :: 0 <= i < |w.operatorRouters| ==> !w.operatorRouters[i])
  }

  ghost predicate TableOk(t: WeightTable) {
    && Distinct(t.registry) && 0 < |t.registry| <= MAX_VAULTS && NO_VAULT_INDEX !in t.registry
    && 0 < |t.slotSet| <= MAX_ST_MINTS
  }

  /** Until closing begins, the epoch snapshot agrees with the operators' snapshots and these
      with the registry; closing begins only when all of them are finished. */
  ghost predicate StakesOk(w: World, closing: bool) {
    && (w.weights.Live? ==> TableOk(w.weights.value))
    && (!closing ==>
          if w.snapshot.None? then NoOperatorsIn(w.operators)
          else && w.weights.Live? && TableFinalized(w.weights.value)
               && EpochAccounted(w.snapshot.value, w.operators, Registry(w.weights.value)))
    && (closing ==> AllFinished(w.operators) && (w.snapshot.Some? ==> EpochFinalized(w.snapshot.value)))
  }

  predicate DecidedByVotes(b: Box) { b.slotConsensusReached != NO_SLOT }

  /** The winner outweighs half of everything cast, and of the snapshot's total while that
      account exists. */
  ghost predicate Majority(b: Box, snapshot: Option<EpochSnapshot>) {
    GetWinningTally(b).Ok? &&
    var weight := GetWinningTally(b).value.weight;
    2 * weight > CastWeight(b.votes) && (snapshot.Some? ==> 2 * weight > snapshot.value.stake)
  }

  /** Votes come only after the snapshot is finished, and what was cast plus what can still be
      cast never exceeds the snapshot's total. */
  ghost predicate PollOk(cfg: Config, w: World, closing: bool)
    requires |cfg.operators| == |w.operators|
  {
    && (w.box.Live? ==> Consistent(w.box.value))
    && (Votes(w) != [] && !closing ==> w.snapshot.Some?)
    && (w.snapshot.Some? && (w.box.Live? || !closing) ==>
          if EpochFinalized(w.snapshot.value) then
            CastWeight(Votes(w)) + UnvotedStake(cfg.operators, w.operators, Votes(w)) <= w.snapshot.value.stake
          else Votes(w) == [])
    && (w.box.Live? && DecidedByVotes(w.box.value) ==> Majority(w.box.value, w.snapshot))
  }

  /** The published result is the vote's current outcome.  A tie break is not published. */
  ghost predicate ResultOk(w: World) {
    && (w.box.Partial? ==> w.result == Some(NO_RESULT))
    && (w.box.Live? ==>
          && w.result.Some?
          && (if DecidedByVotes(w.box.value) then Published(w.result.value, w.box.value, w.snapshot)
              else w.result.value == NO_RESULT))
  }

  ghost predicate Published(c: ConsensusResult, b: Box, snapshot: Option<EpochSnapshot>) {
    && GetWinningTally(b).Ok?
    && c.weatherStatus == b.winningBallot.weatherStatus
    && c.voteWeight == AsU64(GetWinningTally(b).value.weight)
    && (snapshot.Some? ==> c.totalVoteWeight == AsU64(snapshot.value.stake))
    && c.consensusSlot == b.slotConsensusReached && c.consensusSlot > 0
  }

  ghost predicate MirrorsBox(es: E.EpochState, box: Account<Box>) {
    && (box.Live? ==>
          && es.votingProgress.tally == box.value.operatorsVoted
          && (E.IsConsensusReached(es) <==> IsConsensusReached(box.value))
          && (es.wasTieBreakerSet <==> TieBreakerSet(box.value))
          && (DecidedByVotes(box.value) ==> es.slotConsensusReached == box.value.slotConsensusReached))
    && (es.ballotBox == E.DNE ==> !E.IsConsensusReached(es) && !es.wasTieBreakerSet)
  }

  ghost predicate MirrorsStakes(es: E.EpochState, w: World)
    requires Shaped(w) && w.state == Some(es)
  {
    && (w.weights.Live? ==>
          && es.setWeightProgress == E.Progress(WeightCount(w.weights.value), |w.weights.value.slotSet|)
          && es.vaultCount == |w.weights.value.registry|)
    && (w.snapshot.Some? ==>
          && es.snapshotProgress == E.Progress(w.snapshot.value.operatorsRegistered, w.snapshot.value.operatorCount)
          && es.operatorCount == w.snapshot.value.operatorCount)
    && (forall i :: 0 <= i < MAX_OPERATORS && w.operators[i].Some? ==>
          es.operatorProgress[i] == if w.operators[i].value.isActive
                                    then E.Progress(w.operators[i].value.registered, es.vaultCount) else E.Progress(1, 1))
  }

  /** A status tells exactly whether its account is in use, and never forgets a closing. */
  ghost predicate Tracks(status: E.AccountStatus, created: E.AccountStatus, live: bool, absent: bool, closing: bool) {
    && (status == E.DNE || status == created || status == E.Closed)
    && (status == created <==> live)
    && (status == E.Closed ==> absent && closing)
  }

  ghost predicate StatusOk(w: World, es: E.EpochState)
    requires Shaped(w) && w.state == Some(es)
  {
    && Tracks(es.weightTable, E.Created, w.weights.Live?, w.weights.Absent?, es.isClosing)
    && Tracks(es.epochSnapshot, E.Created, w.snapshot.Some?, w.snapshot.None?, es.isClosing)
    && Tracks(es.ballotBox, E.Created, w.box.Live?, w.box.Absent?, es.isClosing)
    && Tracks(es.ncnRouter, E.CreatedWithReceiver, w.router.Live?, w.router.Absent?, es.isClosing)
    && (forall i :: 0 <= i < MAX_OPERATORS ==>
          Tracks(es.operatorSnapshots[i], E.Created, w.operators[i].Some?, w.operators[i].None?, es.isClosing))
    && (forall i :: 0 <= i < MAX_OPERATORS ==>
          Tracks(es.operatorRouters[i], E.CreatedWithReceiver, w.operatorRouters[i], !w.operatorRouters[i], es.isClosing))
  }

  ghost predicate TimesOk(cfg: Config, w: World, es: E.EpochState) {
    && (E.IsConsensusReached(es) ==> es.slotConsensusReached <= w.slot)
    && (es.isClosing ==> E.CanClose(es, cfg.timing, w.slot) == Ok(true))
    && E.Staged(es)
  }

  ghost predicate LiveInv(cfg: Config, w: World, es: E.EpochState)
    requires Shaped(w) && w.state == Some(es) && |cfg.operators| == MAX_OPERATORS
  {
    && StakesOk(w, es.isClosing) && PollOk(cfg, w, es.isClosing) && ResultOk(w)
    && MirrorsBox(es, w.box) && MirrorsStakes(es, w) && StatusOk(w, es) && TimesOk(cfg, w, es)
  }

  /** The whole invariant: before the epoch starts and after its marker nothing exists. */
  ghost predicate Inv(cfg: Config, w: World) {
    && ProperConfig(cfg) && Shaped(w) && 0 < w.slot < NO_SLOT
    && (w.marker ==> w.state.None?)
    && (w.state.None? ==> Dormant(w))
    && (w.state.Some? ==> LiveInv(cfg, w, w.state.value))
  }

  /** What the surrounding programs guarantee about an instruction's inputs: the copied registry
      has distinct vault indices, and counts are machine words. */
  ghost predicate ProperInstruction(ins: Instruction) {
    && (ins.ReallocWeightTable? ==>
          && Distinct(ins.registry) && |ins.registry| <= MAX_VAULTS && NO_VAULT_INDEX !in ins.registry
          && ins.mintCount <= MAX_ST_MINTS)
    && (ins.InitializeEpochSnapshot? ==> ins.operatorCount <= U64_MAX)
  }

  /** What a step keeps. */
  ghost predicate Keeps(cfg: Config, w: World, w': World) {
    && Inv(cfg, w') && w.slot <= w'.slot
    && (w.marker ==> w'.marker)
    && (w.state.Some? && w'.state.Some? ==> E.Forward(w.state.value, w'.state.value))
    && (w.state.Some? && w'.state.None? ==> w'.marker)
  }

  // ---------------------------------------------------------------- starting up

  lemma {:induction false} RegistrySize(registry: seq<nat>)
    requires Distinct(registry)
    ensures |set i | 0 <= i < |registry| :: registry[i]| == |registry|
  {
    if |registry| > 0 {
      var n := |registry| - 1;
      RegistrySize(registry[..n]);
      var before, all := set i | 0 <= i < n :: registry[..n][i], set i | 0 <= i < |registry| :: registry[i];
      assert all == before + {registry[n]} by {
        forall i | 0 <= i < n
          ensures registry[i] in before
        {
          assert registry[..n][i] in before;
        }
      }
      assert registry[n] !in before;
    }
  }

  lemma TickKeeps(cfg: Config, w: World, slot: nat)
    requires Inv(cfg, w) && Apply(cfg, w, Tick(slot)).Ok?
    ensures Keeps(cfg, w, Apply(cfg, w, Tick(slot)).value)
  {
    var w' := Apply(cfg, w, Tick(slot)).value;
    if w.state.Some? {
      assert cfg.timing.epochOf(w.slot) <= cfg.timing.epochOf(slot);
      assert LiveInv(cfg, w', w'.state.value);
    }
  }

  lemma InitializeEpochStateKeeps(cfg: Config, w: World)
    requires Inv(cfg, w) && Apply(cfg, w, InitializeEpochState).Ok?
    ensures Keeps(cfg, w, Apply(cfg, w, InitializeEpochState).value)
  {
  }

  lemma InitializeWeightTableKeeps(cfg: Config, w: World)
    requires Inv(cfg, w) && Apply(cfg, w, InitializeWeightTable).Ok?
    ensures Keeps(cfg, w, Apply(cfg, w, InitializeWeightTable).value)
  {
    var w' := Apply(cfg, w, InitializeWeightTable).value;
    assert LiveInv(cfg, w', w'.state.value);
  }

  lemma ReallocWeightTableKeeps(cfg: Config, w: World, full: bool, registry: seq<nat>, mintCount: nat)
    requires Inv(cfg, w) && ProperInstruction(ReallocWeightTable(full, registry, mintCount))
    requires Apply(cfg, w, ReallocWeightTable(full, registry, mintCount)).Ok?
    ensures Keeps(cfg, w, Apply(cfg, w, ReallocWeightTable(full, registry, mintCount)).value)
  {
    var w' := Apply(cfg, w, ReallocWeightTable(full, registry, mintCount)).value;
    if w' != w {
      NoneSet(w'.weights.value.slotSet);
      assert LiveInv(cfg, w', w'.state.value);
    }
  }

  lemma SetWeightsKeeps(cfg: Config, w: World, mints: seq<nat>)
    requires Inv(cfg, w) && Apply(cfg, w, SetWeights(mints)).Ok?
    ensures Keeps(cfg, w, Apply(cfg, w, SetWeights(mints)).value)
  {
    var w' := Apply(cfg, w, SetWeights(mints)).value;
    SetMintsGrows(w.weights.value, mints, w.slot);
    assert LiveInv(cfg, w', w'.state.value);
  }

  // ---------------------------------------------------------------- snapshotting

  lemma {:induction false} NoOperatorsSums(operators: seq<Option<OperatorSnapshot>>)
    requires NoOperatorsIn(operators)
    ensures SumBy(operators, FinishedCount) == 0
    ensures SumBy(operators, FinishedStake) == 0
    ensures SumBy(operators, FinishedDelegations) == 0
  {
    if |operators| > 0 {
      NoOperatorsSums(operators[..|operators| - 1]);
    }
  }

  lemma InitializeEpochSnapshotKeeps(cfg: Config, w: World, operatorCount: nat, fees: Fees)
    requires Inv(cfg, w) && ProperInstruction(InitializeEpochSnapshot(operatorCount, fees))
    requires Apply(cfg, w, InitializeEpochSnapshot(operatorCount, fees)).Ok?
    ensures Keeps(cfg, w, Apply(cfg, w, InitializeEpochSnapshot(operatorCount, fees)).value)
  {
    var w' := Apply(cfg, w, InitializeEpochSnapshot(operatorCount, fees)).value;
    NoOperatorsSums(w.operators);
    RegistrySize(w.weights.value.registry);
    assert LiveInv(cfg, w', w'.state.value);
  }

  /** When the last operator finishes, the unvoted stake is the whole total. */
  lemma FinishingOpensTheVote(cfg: Config, w: World)
    requires ProperConfig(cfg) && |w.operators| == MAX_OPERATORS && Votes(w) == []
    requires w.weights.Live? && w.snapshot.Some? && EpochFinalized(w.snapshot.value)
    requires EpochAccounted(w.snapshot.value, w.operators, Registry(w.weights.value))
    ensures CastWeight(Votes(w)) + UnvotedStake(cfg.operators, w.operators, Votes(w)) <= w.snapshot.value.stake
  {
    FinishedEpochCountsEveryone(w.snapshot.value, w.operators, Registry(w.weights.value));
    NobodyVotedYet(cfg.operators, w.operators);
  }

  /** A snapshot step that leaves the other accounts alone keeps their parts. */
  lemma SnapshotStepPoll(cfg: Config, w: World, w': World)
    requires ProperConfig(cfg) && |w.operators| == |w'.operators| == MAX_OPERATORS
    requires PollOk(cfg, w, false) && ResultOk(w) && w.snapshot.Some? && !EpochFinalized(w.snapshot.value)
    requires w'.box == w.box && w'.result == w.result && w'.weights.Live? && w'.snapshot.Some?
    requires EpochAccounted(w'.snapshot.value, w'.operators, Registry(w'.weights.value))
    ensures PollOk(cfg, w', false) && ResultOk(w')
  {
    if EpochFinalized(w'.snapshot.value) {
      FinishingOpensTheVote(cfg, w');
    }
  }

  lemma AddOperatorMirror(cfg: Config, w: World, i: nat, isActive: bool, feeBps: nat)
    requires ProperConfig(cfg) && Shaped(w) && w.state.Some? && Apply(cfg, w, InitializeOperatorSnapshot(i, isActive, feeBps)).Ok?
    requires var es := w.state.value; MirrorsStakes(es, w) && StatusOk(w, es) && MirrorsBox(es, w.box)
    ensures var w' := Apply(cfg, w, InitializeOperatorSnapshot(i, isActive, feeBps)).value;
            var es' := w'.state.value;
            MirrorsStakes(es', w') && StatusOk(w', es') && MirrorsBox(es', w'.box)
  {
  }

  lemma AddOperatorForward(cfg: Config, w: World, i: nat, isActive: bool, feeBps: nat)
    requires Inv(cfg, w) && Apply(cfg, w, InitializeOperatorSnapshot(i, isActive, feeBps)).Ok?
    requires !EpochFinalized(w.snapshot.value)
    ensures var w' := Apply(cfg, w, InitializeOperatorSnapshot(i, isActive, feeBps)).value;
            TimesOk(cfg, w', w'.state.value) && E.Forward(w.state.value, w'.state.value)
  {
  }

  lemma InitializeOperatorSnapshotKeeps(cfg: Config, w: World, i: nat, isActive: bool, feeBps: nat)
    requires Inv(cfg, w) && Apply(cfg, w, InitializeOperatorSnapshot(i, isActive, feeBps)).Ok?
    ensures Keeps(cfg, w, Apply(cfg, w, InitializeOperatorSnapshot(i, isActive, feeBps)).value)
  {
    var w' := Apply(cfg, w, InitializeOperatorSnapshot(i, isActive, feeBps)).value;
    RegistrySize(w.weights.value.registry);
    AddOperatorSound(w.snapshot.value, w.operators, Registry(w.weights.value), i, isActive, feeBps, w.slot);
    SnapshotStepPoll(cfg, w, w');
    AddOperatorMirror(cfg, w, i, isActive, feeBps);
    AddOperatorForward(cfg, w, i, isActive, feeBps);
  }

  lemma DelegationMirror(cfg: Config, w: World, i: nat, entry: Entry)
    requires Inv(cfg, w) && Apply(cfg, w, SnapshotDelegation(i, entry)).Ok?
    ensures var w' := Apply(cfg, w, SnapshotDelegation(i, entry)).value;
            var es' := w'.state.value;
            && !es'.isClosing && MirrorsStakes(es', w') && StatusOk(w', es') && MirrorsBox(es', w'.box)
            && (!EpochFinalized(w.snapshot.value) ==> TimesOk(cfg, w', es') && E.Forward(w.state.value, es'))
  {
  }

  lemma SnapshotDelegationKeeps(cfg: Config, w: World, i: nat, entry: Entry)
    requires Inv(cfg, w) && Apply(cfg, w, SnapshotDelegation(i, entry)).Ok?
    ensures Keeps(cfg, w, Apply(cfg, w, SnapshotDelegation(i, entry)).value)
  {
    var w' := Apply(cfg, w, SnapshotDelegation(i, entry)).value;
    DelegationMirror(cfg, w, i, entry);
    AddDelegationSound(w.snapshot.value, w.operators, Registry(w.weights.value), i, entry, w.slot);
    SnapshotStepPoll(cfg, w, w');
  }

  // ---------------------------------------------------------------- voting

  lemma InitializeBallotBoxKeeps(cfg: Config, w: World)
    requires Inv(cfg, w) && Apply(cfg, w, InitializeBallotBox).Ok?
    ensures Keeps(cfg, w, Apply(cfg, w, InitializeBallotBox).value)
  {
    var w' := Apply(cfg, w, InitializeBallotBox).value;
    assert LiveInv(cfg, w', w'.state.value);
  }

  lemma ReallocBallotBoxKeeps(cfg: Config, w: World, full: bool)
    requires Inv(cfg, w) && Apply(cfg, w, ReallocBallotBox(full)).Ok?
    ensures Keeps(cfg, w, Apply(cfg, w, ReallocBallotBox(full)).value)
  {
    var w' := Apply(cfg, w, ReallocBallotBox(full)).value;
    if w' != w {
      assert LiveInv(cfg, w', w'.state.value);
    }
  }

  /** A vote and the count that follows it, on the box alone: the box stays consistent, a
      decision is never taken back, and the winner keeps its strict majority of the total. */
  lemma BallotStep(b: Box, key: Pubkey, weatherStatus: nat, weight: nat, slot: nat, validSlots: nat, total: nat)
    requires Consistent(b) && key != DEFAULT_KEY && slot != NO_SLOT && CastWeight(b.votes) + weight <= total
    requires DecidedByVotes(b) ==> 2 * GetWinningTally(b).value.weight > total
    requires CastAndCount(b, key, weatherStatus, weight, slot, validSlots, total).Ok?
    ensures var b' := CastAndCount(b, key, weatherStatus, weight, slot, validSlots, total).value;
            && Consistent(b') && !TieBreakerSet(b) && !TieBreakerSet(b')
            && (DecidedByVotes(b) ==> b'.slotConsensusReached == b.slotConsensusReached && b'.winningBallot == b.winningBallot)
            && (!DecidedByVotes(b) && DecidedByVotes(b') ==> b'.slotConsensusReached == slot)
            && (DecidedByVotes(b') ==> GetWinningTally(b').Ok? && 2 * GetWinningTally(b').value.weight > total)
  {
    CastVoteSound(b, key, weatherStatus, weight, slot, validSlots);
    var b1 := CastVote(b, key, NewBallot(weatherStatus), weight, slot, validSlots).value;
    TallyVotesSound(b1, total, slot);
    if DecidedByVotes(b) {
      TallyOfStable(b.tallies, b1.tallies, b.winningBallot);
    }
  }

  /** Once the snapshot is finished, the epoch state shows weights and snapshot complete. */
  lemma FinishedIsStaged(cfg: Config, w: World)
    requires Inv(cfg, w) && w.state.Some? && !w.state.value.isClosing
    requires w.snapshot.Some? && EpochFinalized(w.snapshot.value)
    ensures var es := w.state.value;
            && es.weightTable != E.DNE && es.setWeightProgress.IsComplete()
            && es.epochSnapshot != E.DNE && es.snapshotProgress.IsComplete()
  {
    FinishedEpochCountsEveryone(w.snapshot.value, w.operators, Registry(w.weights.value));
  }

  /** The vote of operator `i` fits under the total, and its cast moves stake from unvoted to
      cast. */
  lemma VoteFits(cfg: Config, w: World, i: nat, v: Vote, closing: bool)
    requires ProperConfig(cfg) && |w.operators| == MAX_OPERATORS && i < MAX_OPERATORS
    requires w.box.Live? && w.operators[i].Some? && !VotedIn(w.box.value.votes, cfg.operators[i])
    requires v.operator == cfg.operators[i] && v.weight == w.operators[i].value.stake
    requires w.snapshot.Some? && EpochFinalized(w.snapshot.value) && PollOk(cfg, w, closing)
    ensures CastWeight(w.box.value.votes) + v.weight <= w.snapshot.value.stake
    ensures var votes := w.box.value.votes + [v];
            CastWeight(votes) + UnvotedStake(cfg.operators, w.operators, votes) <= w.snapshot.value.stake
  {
    var votes := w.box.value.votes;
    VoteMovesStake(cfg.operators, w.operators, votes, v, i);
    assert Unvoted(votes)(Seats(cfg.operators, w.operators)[i]) == v.weight;
    SumByAtLeast(Seats(cfg.operators, w.operators), i, Unvoted(votes));
  }

  /** What an accepted vote does, account by account. */
  ghost predicate BallotCast(cfg: Config, w: World, w': World, i: nat, v: Vote)
    requires Shaped(w) && i < MAX_OPERATORS && |cfg.operators| == MAX_OPERATORS
  {
    && w.state.Some? && w.box.Live? && w.snapshot.Some? && w.result.Some? && w.operators[i].Some?
    && EpochFinalized(w.snapshot.value)
    && v.operator == cfg.operators[i] && v.weight == w.operators[i].value.stake
    && w'.box.Live? && w'.result.Some? && w'.state.Some?
    && w' == w.(box := w'.box, result := w'.result, state := w'.state)
    && w'.box.value.votes == w.box.value.votes + [v]
    && w'.state.value == E.OnCastVote(w.state.value, w'.box.value.operatorsVoted, IsConsensusReached(w'.box.value), w.slot)
    && Publish(w.result.value, w'.box.value, w.snapshot.value.stake, w.slot) == Ok(w'.result.value)
    && Consistent(w'.box.value) && !TieBreakerSet(w.box.value) && !TieBreakerSet(w'.box.value)
    && (DecidedByVotes(w.box.value) ==>
          && w'.box.value.slotConsensusReached == w.box.value.slotConsensusReached
          && w'.box.value.winningBallot == w.box.value.winningBallot)
    && (!DecidedByVotes(w.box.value) && DecidedByVotes(w'.box.value) ==> w'.box.value.slotConsensusReached == w.slot)
    && (DecidedByVotes(w'.box.value) ==>
          GetWinningTally(w'.box.value).Ok? && 2 * GetWinningTally(w'.box.value).value.weight > w.snapshot.value.stake)
    && CastWeight(w'.box.value.votes) + UnvotedStake(cfg.operators, w.operators, w'.box.value.votes) <= w.snapshot.value.stake
  }

  /** Which accounts an accepted vote needs and which it changes. */
  lemma CastBallotShape(cfg: Config, w: World, i: nat, weatherStatus: nat)
    requires ProperConfig(cfg) && Shaped(w) && Apply(cfg, w, CastBallot(i, weatherStatus)).Ok?
    ensures i < MAX_OPERATORS && w.state.Some? && w.box.Live? && w.snapshot.Some? && w.result.Some? && w.operators[i].Some?
    ensures EpochFinalized(w.snapshot.value)
    ensures var w' := Apply(cfg, w, CastBallot(i, weatherStatus)).value;
            && w'.box.Live? && w'.result.Some? && w'.state.Some?
            && CastAndCount(w.box.value, cfg.operators[i], weatherStatus, w.operators[i].value.stake, w.slot, cfg.timing.validSlots,
                       w.snapshot.value.stake) == Ok(w'.box.value)
            && w' == w.(box := w'.box, result := w'.result, state := w'.state)
            && w'.state.value == E.OnCastVote(w.state.value, w'.box.value.operatorsVoted, IsConsensusReached(w'.box.value), w.slot)
            && Publish(w.result.value, w'.box.value, w.snapshot.value.stake, w.slot) == Ok(w'.result.value)
  {
  }

  lemma VoteAppended(b: Box, key: Pubkey, weatherStatus: nat, weight: nat, slot: nat, validSlots: nat, total: nat)
    requires Consistent(b) && CastAndCount(b, key, weatherStatus, weight, slot, validSlots, total).Ok?
    ensures !VotedIn(b.votes, key)
    ensures CastAndCount(b, key, weatherStatus, weight, slot, validSlots, total).value.votes
         == b.votes + [Vote(key, slot, weight, TallyOf(b.tallies, NewBallot(weatherStatus)))]
  {
  }

  lemma CastBallotEffect(cfg: Config, w: World, i: nat, weatherStatus: nat) returns (v: Vote)
    requires Inv(cfg, w) && Apply(cfg, w, CastBallot(i, weatherStatus)).Ok?
    ensures i < MAX_OPERATORS && BallotCast(cfg, w, Apply(cfg, w, CastBallot(i, weatherStatus)).value, i, v)
  {
    CastBallotShape(cfg, w, i, weatherStatus);
    var b, s, stake := w.box.value, w.snapshot.value, w.operators[i].value.stake;
    var key := cfg.operators[i];
    VoteAppended(b, key, weatherStatus, stake, w.slot, cfg.timing.validSlots, s.stake);
    v := Vote(key, w.slot, stake, TallyOf(b.tallies, NewBallot(weatherStatus)));
    VoteFits(cfg, w, i, v, w.state.value.isClosing);
    BallotStep(b, key, weatherStatus, stake, w.slot, cfg.timing.validSlots, s.stake);
  }

  lemma CastKeepsPoll(cfg: Config, w: World, w': World, i: nat, v: Vote, closing: bool)
    requires Shaped(w) && |cfg.operators| == MAX_OPERATORS && i < MAX_OPERATORS && 0 < w.slot < NO_SLOT
    requires PollOk(cfg, w, closing) && ResultOk(w) && BallotCast(cfg, w, w', i, v)
    ensures PollOk(cfg, w', closing) && ResultOk(w')
  {
  }

  lemma CastKeepsMirror(cfg: Config, w: World, w': World, i: nat, v: Vote)
    requires Inv(cfg, w) && i < MAX_OPERATORS && BallotCast(cfg, w, w', i, v)
    ensures var es' := w'.state.value;
            MirrorsBox(es', w'.box) && MirrorsStakes(es', w') && StatusOk(w', es') && TimesOk(cfg, w', es')
            && StakesOk(w', es'.isClosing) && E.Forward(w.state.value, es')
  {
    if !w.state.value.isClosing {
      FinishedIsStaged(cfg, w);
    }
  }

  lemma CastBallotKeeps(cfg: Config, w: World, i: nat, weatherStatus: nat)
    requires Inv(cfg, w) && Apply(cfg, w, CastBallot(i, weatherStatus)).Ok?
    ensures Keeps(cfg, w, Apply(cfg, w, CastBallot(i, weatherStatus)).value)
  {
    var w' := Apply(cfg, w, CastBallot(i, weatherStatus)).value;
    var v := CastBallotEffect(cfg, w, i, weatherStatus);
    CastKeepsPoll(cfg, w, w', i, v, w.state.value.isClosing);
    CastKeepsMirror(cfg, w, w', i, v);
  }

  /** Only a ballot that was voted for can be set, so the snapshot is finished by then. */
  lemma BreakTieKeeps(cfg: Config, w: World, weatherStatus: nat)
    requires Inv(cfg, w) && Apply(cfg, w, SetTieBreakerBallot(weatherStatus)).Ok?
    ensures Keeps(cfg, w, Apply(cfg, w, SetTieBreakerBallot(weatherStatus)).value)
  {
    var w' := Apply(cfg, w, SetTieBreakerBallot(weatherStatus)).value;
    var b := w.box.value;
    TieBreakerSound(b, weatherStatus, cfg.timing.epochOf(w.slot), cfg.timing.epochsBeforeStall);
    assert b.votes != [];
    assert !w.state.value.isClosing;
    FinishedIsStaged(cfg, w);
    assert LiveInv(cfg, w', w'.state.value);
  }

  // ---------------------------------------------------------------- routers and closing

  lemma InitializeRouterKeeps(cfg: Config, w: World)
    requires Inv(cfg, w) && Apply(cfg, w, InitializeRouter).Ok?
    ensures Keeps(cfg, w, Apply(cfg, w, InitializeRouter).value)
  {
    var w' := Apply(cfg, w, InitializeRouter).value;
    assert LiveInv(cfg, w', w'.state.value);
  }

  lemma ReallocRouterKeeps(cfg: Config, w: World, full: bool)
    requires Inv(cfg, w) && Apply(cfg, w, ReallocRouter(full)).Ok?
    ensures Keeps(cfg, w, Apply(cfg, w, ReallocRouter(full)).value)
  {
    var w' := Apply(cfg, w, ReallocRouter(full)).value;
    if w' != w {
      assert LiveInv(cfg, w', w'.state.value);
    }
  }

  lemma InitializeOperatorRouterKeeps(cfg: Config, w: World, i: nat)
    requires Inv(cfg, w) && Apply(cfg, w, InitializeOperatorRouter(i)).Ok?
    ensures Keeps(cfg, w, Apply(cfg, w, InitializeOperatorRouter(i)).value)
  {
    var w' := Apply(cfg, w, InitializeOperatorRouter(i)).value;
    assert LiveInv(cfg, w', w'.state.value);
  }

  /** Closing can begin only after consensus, and by then every snapshot is finished. */
  lemma ReadyToClose(cfg: Config, w: World)
    requires Inv(cfg, w) && w.state.Some? && E.IsConsensusReached(w.state.value)
    ensures AllFinished(w.operators)
    ensures w.snapshot.Some? ==> EpochFinalized(w.snapshot.value)
  {
    var es := w.state.value;
    if !es.isClosing {
      assert w.snapshot.Some? && es.snapshotProgress.IsComplete();
      FinishedEpochCountsEveryone(w.snapshot.value, w.operators, Registry(w.weights.value));
    }
  }

  /** Raising the closing flag alone. */
  lemma FlagKeeps(cfg: Config, w: World)
    requires Inv(cfg, w) && w.state.Some? && E.CanClose(w.state.value, cfg.timing, w.slot) == Ok(true)
    ensures Inv(cfg, w.(state := Some(w.state.value.(isClosing := true))))
  {
    ReadyToClose(cfg, w);
    var w' := w.(state := Some(w.state.value.(isClosing := true)));
    assert LiveInv(cfg, w', w'.state.value);
  }

  /** With the flag raised, one account goes and its status says so. */
  lemma WeightTableGoes(cfg: Config, w: World)
    requires Inv(cfg, w) && w.state.Some? && w.state.value.isClosing && w.weights.Live?
    ensures Inv(cfg, w.(weights := Absent, state := Some(w.state.value.(weightTable := E.Closed))))
  {
    var w' := w.(weights := Absent, state := Some(w.state.value.(weightTable := E.Closed)));
    assert LiveInv(cfg, w', w'.state.value);
  }

  lemma EpochSnapshotGoes(cfg: Config, w: World)
    requires Inv(cfg, w) && w.state.Some? && w.state.value.isClosing && w.snapshot.Some?
    ensures Inv(cfg, w.(snapshot := None, state := Some(w.state.value.(epochSnapshot := E.Closed))))
  {
    var w' := w.(snapshot := None, state := Some(w.state.value.(epochSnapshot := E.Closed)));
    assert LiveInv(cfg, w', w'.state.value);
  }

  lemma OperatorSnapshotGoes(cfg: Config, w: World, i: nat)
    requires Inv(cfg, w) && w.state.Some? && w.state.value.isClosing && i < MAX_OPERATORS && w.operators[i].Some?
    ensures Inv(cfg, w.(operators := w.operators[i := None],
                        state := Some(w.state.value.(operatorSnapshots := w.state.value.operatorSnapshots[i := E.Closed]))))
  {
    var w' := w.(operators := w.operators[i := None],
                 state := Some(w.state.value.(operatorSnapshots := w.state.value.operatorSnapshots[i := E.Closed])));
    ClosingLowersUnvoted(cfg.operators, w.operators, Votes(w), i);
    assert LiveInv(cfg, w', w'.state.value);
  }

  lemma BallotBoxGoes(cfg: Config, w: World)
    requires Inv(cfg, w) && w.state.Some? && w.state.value.isClosing && w.box.Live?
    ensures Inv(cfg, w.(box := Absent, state := Some(w.state.value.(ballotBox := E.Closed))))
  {
    var w' := w.(box := Absent, state := Some(w.state.value.(ballotBox := E.Closed)));
    assert LiveInv(cfg, w', w'.state.value);
  }

  lemma RouterGoes(cfg: Config, w: World)
    requires Inv(cfg, w) && w.state.Some? && w.state.value.isClosing && w.router.Live?
    ensures Inv(cfg, w.(router := Absent, state := Some(w.state.value.(ncnRouter := E.Closed))))
  {
    var w' := w.(router := Absent, state := Some(w.state.value.(ncnRouter := E.Closed)));
    assert LiveInv(cfg, w', w'.state.value);
  }

  lemma OperatorRouterGoes(cfg: Config, w: World, i: nat)
    requires Inv(cfg, w) && w.state.Some? && w.state.value.isClosing && i < MAX_OPERATORS && w.operatorRouters[i]
    ensures Inv(cfg, w.(operatorRouters := w.operatorRouters[i := false],
                        state := Some(w.state.value.(operatorRouters := w.state.value.operatorRouters[i := E.Closed]))))
  {
    var w' := w.(operatorRouters := w.operatorRouters[i := false],
                 state := Some(w.state.value.(operatorRouters := w.state.value.operatorRouters[i := E.Closed])));
    assert LiveInv(cfg, w', w'.state.value);
  }

  /** The epoch state goes last: its statuses vouch that nothing else is left. */
  lemma EpochStateGoes(cfg: Config, w: World)
    requires Inv(cfg, w) && w.state.Some? && E.AreAllClosed(w.state.value)
    ensures Inv(cfg, w.(state := None, marker := true))
  {
    assert Dormant(w);
  }

  /** Closing an account is raising the flag and letting that account go. */
  lemma CloseKeepsInv(cfg: Config, w: World, target: Target)
    requires Inv(cfg, w) && Apply(cfg, w, CloseAccount(target)).Ok?
    requires !target.OperatorSnapshotAccount? && !target.OperatorRouterAccount?
    ensures Inv(cfg, Apply(cfg, w, CloseAccount(target)).value)
  {
    FlagKeeps(cfg, w);
    var flagged := w.(state := Some(w.state.value.(isClosing := true)));
    if target.EpochStateAccount? {
      EpochStateGoes(cfg, flagged);
    } else if target.WeightTableAccount? {
      WeightTableGoes(cfg, flagged);
    } else if target.EpochSnapshotAccount? {
      EpochSnapshotGoes(cfg, flagged);
    } else if target.BallotBoxAccount? {
      BallotBoxGoes(cfg, flagged);
    } else {
      RouterGoes(cfg, flagged);
    }
  }

  /** The same for an operator's accounts. */
  lemma CloseOperatorKeepsInv(cfg: Config, w: World, target: Target)
    requires Inv(cfg, w) && Apply(cfg, w, CloseAccount(target)).Ok?
    requires target.OperatorSnapshotAccount? || target.OperatorRouterAccount?
    ensures Inv(cfg, Apply(cfg, w, CloseAccount(target)).value)
  {
    FlagKeeps(cfg, w);
    var flagged := w.(state := Some(w.state.value.(isClosing := true)));
    if target.OperatorSnapshotAccount? {
      OperatorSnapshotGoes(cfg, flagged, target.i);
    } else {
      OperatorRouterGoes(cfg, flagged, target.i);
    }
  }

  lemma CloseIsForward(cfg: Config, w: World, target: Target)
    requires ProperConfig(cfg) && Shaped(w) && Apply(cfg, w, CloseAccount(target)).Ok?
    ensures var w' := Apply(cfg, w, CloseAccount(target)).value;
            && w'.slot == w.slot && !w.marker && w.state.Some?
            && (w'.state.Some? ==> E.Forward(w.state.value, w'.state.value))
            && (w'.state.None? ==> w'.marker)
  {
  }

  lemma CloseKeeps(cfg: Config, w: World, target: Target)
    requires Inv(cfg, w) && Apply(cfg, w, CloseAccount(target)).Ok?
    ensures Keeps(cfg, w, Apply(cfg, w, CloseAccount(target)).value)
  {
    if target.OperatorSnapshotAccount? || target.OperatorRouterAccount? {
      CloseOperatorKeepsInv(cfg, w, target);
    } else {
      CloseKeepsInv(cfg, w, target);
    }
    CloseIsForward(cfg, w, target);
  }
}
