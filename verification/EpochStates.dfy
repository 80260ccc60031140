/** The epoch state account: status of the epoch's other accounts, progress mirrors, the
    consensus slot, and the phase derived from them. */
module EpochStates {
  import opened Base

  datatype AccountStatus = DNE | Created | CreatedWithReceiver | Closed

  datatype Progress = Progress(tally: nat, total: nat) {
    predicate IsComplete() {
      tally != U64_MAX && total != U64_MAX && tally >= total
    }
  }

  const NO_PROGRESS := Progress(0, 0)

  datatype EpochState = EpochState(
    wasTieBreakerSet: bool,
    slotConsensusReached: nat,
    operatorCount: nat,
    vaultCount: nat,
    weightTable: AccountStatus,
    epochSnapshot: AccountStatus,
    ballotBox: AccountStatus,
    ncnRouter: AccountStatus,
    operatorSnapshots: seq<AccountStatus>,
    operatorRouters: seq<AccountStatus>,
    setWeightProgress: Progress,
    snapshotProgress: Progress,
    operatorProgress: seq<Progress>,
    votingProgress: Progress,
    isClosing: bool)

  /** Account data starts zeroed, and initialization sets the consensus slot. */
  function NewEpochState(): EpochState {
    EpochState(false, NO_SLOT, 0, 0, DNE, DNE, DNE, DNE,
               seq(MAX_OPERATORS, _ => DNE), seq(MAX_OPERATORS, _ => DNE),
               NO_PROGRESS, NO_PROGRESS, seq(MAX_OPERATORS, _ => NO_PROGRESS), NO_PROGRESS, false)
  }

  predicate IsConsensusReached(es: EpochState) { es.slotConsensusReached != NO_SLOT }

  // ---------------------------------------------------------------- updates

  function OnWeightTable(es: EpochState, vaultCount: nat, mintCount: nat): EpochState {
    es.(weightTable := Created, vaultCount := vaultCount, setWeightProgress := Progress(0, mintCount))
  }

  function OnSetWeight(es: EpochState, weightsSet: nat, mintCount: nat): EpochState {
    es.(setWeightProgress := Progress(weightsSet, mintCount))
  }

  function OnEpochSnapshot(es: EpochState, operatorCount: nat): EpochState {
    es.(epochSnapshot := Created, operatorCount := operatorCount, snapshotProgress := Progress(0, operatorCount))
  }

  function Increment(p: Progress): Result<Progress> {
    var tally :- CheckedAdd(p.tally, 1, U64_MAX);
    Ok(p.(tally := tally))
  }

  /** An inactive operator is complete from the start. */
  function OnOperatorSnapshot(es: EpochState, i: nat, isActive: bool): Result<EpochState>
    requires i < |es.operatorSnapshots| && i < |es.operatorProgress|
  {
    var es1 := es.(operatorSnapshots := es.operatorSnapshots[i := Created]);
    if isActive then Ok(es1.(operatorProgress := es.operatorProgress[i := Progress(0, es.vaultCount)]))
    else
      var p :- Increment(es.snapshotProgress);
      Ok(es1.(operatorProgress := es.operatorProgress[i := Progress(1, 1)], snapshotProgress := p))
  }

  function OnDelegation(es: EpochState, i: nat, finalized: bool): Result<EpochState>
    requires i < |es.operatorProgress|
  {
    var p :- Increment(es.operatorProgress[i]);
    var q :- if finalized then Increment(es.snapshotProgress) else Ok(es.snapshotProgress);
    Ok(es.(operatorProgress := es.operatorProgress[i := p], snapshotProgress := q))
  }

  function OnBallotBox(es: EpochState): EpochState {
    es.(ballotBox := Created, votingProgress := Progress(0, es.operatorCount))
  }

  function OnCastVote(es: EpochState, operatorsVoted: nat, consensusReached: bool, slot: nat): EpochState {
    es.(slotConsensusReached := if consensusReached && !IsConsensusReached(es) then slot else es.slotConsensusReached,
        votingProgress := es.votingProgress.(tally := operatorsVoted))
  }

  function OnTieBreaker(es: EpochState, consensusReached: bool, slot: nat): EpochState {
    if consensusReached && !IsConsensusReached(es) then es.(slotConsensusReached := slot, wasTieBreakerSet := true) else es
  }

  /** Nothing tracked is left open. */
  predicate AreAllClosed(es: EpochState) {
    && es.weightTable == Closed && es.epochSnapshot == Closed && es.ballotBox == Closed && es.ncnRouter == Closed
    && (forall i :: 0 <= i < |es.operatorSnapshots| ==> es.operatorSnapshots[i] == DNE || es.operatorSnapshots[i] == Closed)
    && (forall i :: 0 <= i < |es.operatorRouters| ==> es.operatorRouters[i] == DNE || es.operatorRouters[i] == Closed)
  }

  // ---------------------------------------------------------------- phases

  /** The timing parameters in force and the cluster's slot-to-epoch schedule. */
  datatype Timing = Timing(validSlots: nat, epochsBeforeStall: nat, epochsBeforeClose: nat, epochOf: nat -> nat)

  ghost predicate Monotone(t: Timing) {
    forall a, b :: a <= b ==> t.epochOf(a) <= t.epochOf(b)
  }

  datatype Phase = SetWeight | Snapshot | Vote | PostVoteCooldown | Distribute | Close

  function CanStartRouting(es: EpochState, t: Timing, slot: nat): Result<bool> {
    if !IsConsensusReached(es) then Ok(false)
    else
      var first :- CheckedAdd(es.slotConsensusReached, t.validSlots, U64_MAX);
      Ok(slot >= first)
  }

  function CanClose(es: EpochState, t: Timing, slot: nat): Result<bool> {
    if !IsConsensusReached(es) then Err(ConsensusNotReached)
    else
      var reached, now := t.epochOf(es.slotConsensusReached), t.epochOf(slot);
      Ok((if now >= reached then now - reached else 0) >= t.epochsBeforeClose)
  }

  function CurrentState(es: EpochState, t: Timing, slot: nat): Result<Phase> {
    if CanClose(es, t, slot) == Ok(true) then Ok(Close)
    else if es.weightTable == DNE || !es.setWeightProgress.IsComplete() then Ok(SetWeight)
    else if es.epochSnapshot == DNE || !es.snapshotProgress.IsComplete() || es.ballotBox == DNE then Ok(Snapshot)
    else if !IsConsensusReached(es) then Ok(Vote)
    else
      var start :- CanStartRouting(es, t, slot);
      if !start then Ok(PostVoteCooldown) else Ok(Distribute)
  }

  /** The same with the weight table's mint count in place of the recorded total. */
  function CurrentStatePatched(es: EpochState, t: Timing, mintCount: nat, slot: nat): Result<Phase> {
    if CanClose(es, t, slot) == Ok(true) then Ok(Close)
    else if es.weightTable == DNE || es.setWeightProgress.tally < mintCount then Ok(SetWeight)
    else if es.epochSnapshot == DNE || !es.snapshotProgress.IsComplete() || es.ballotBox == DNE then Ok(Snapshot)
    else if !IsConsensusReached(es) then Ok(Vote)
    else
      var start :- CanStartRouting(es, t, slot);
      if !start then Ok(PostVoteCooldown) else Ok(Distribute)
  }

  /** Phases in order.  The one error, a routing start beyond the last slot, takes the place of
      the two phases between voting and closing. */
  function Rank(p: Result<Phase>): nat {
    match p
    case Ok(SetWeight) => 0
    case Ok(Snapshot) => 1
    case Ok(Vote) => 2
    case Ok(PostVoteCooldown) => 3
    case Ok(Distribute) => 4
    case Err(_) => 4
    case Ok(Close) => 5
  }

  /** What every step does to the part of the state that phases depend on: statuses leave DNE
      for good, completed progress stays complete, and the consensus slot is written once, with
      a slot that has passed. */
  ghost predicate Forward(es: EpochState, es': EpochState) {
    && (es.weightTable != DNE ==> es'.weightTable != DNE)
    && (es.epochSnapshot != DNE ==> es'.epochSnapshot != DNE)
    && (es.ballotBox != DNE ==> es'.ballotBox != DNE)
    && (es.weightTable != DNE && es.setWeightProgress.IsComplete() ==> es'.setWeightProgress.IsComplete())
    && (es.epochSnapshot != DNE && es.snapshotProgress.IsComplete() ==> es'.snapshotProgress.IsComplete())
    && (IsConsensusReached(es) ==> es'.slotConsensusReached == es.slotConsensusReached)
  }

  /** Consensus comes after weights, snapshot and ballot box are in place. */
  ghost predicate Staged(es: EpochState) {
    IsConsensusReached(es) ==>
      && es.weightTable != DNE && es.setWeightProgress.IsComplete()
      && es.epochSnapshot != DNE && es.snapshotProgress.IsComplete() && es.ballotBox != DNE
  }

  /** Under forward changes and a clock that does not run back, the phase does not move back. */
  lemma PhaseAdvances(es: EpochState, es': EpochState, t: Timing, slot: nat, slot': nat)
    requires Forward(es, es') && Staged(es) && Staged(es') && Monotone(t) && slot <= slot'
    ensures Rank(CurrentState(es, t, slot)) <= Rank(CurrentState(es', t, slot'))
  {
    assert t.epochOf(slot) <= t.epochOf(slot');
  }
}
