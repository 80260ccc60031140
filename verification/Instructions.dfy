/** Instructions that update several accounts in sequence, as imperative steps over the account
    objects.  Each is proved to do what the step system says. */
module Instructions {
  import opened Base
  import opened Voting
  import opened Snapshots
  import opened BallotBoxAccount
  import opened SnapshotAccounts
  import opened EpochStateAccount
  import opened EpochProtocol
  import E = EpochStates

  method CastAndTally(box: BallotBox, operator: Pubkey, weatherStatus: nat, weight: nat, slot: nat, validSlots: nat, total: nat)
    returns (r: Result<()>)
    requires box.Valid() && operator != DEFAULT_KEY
    modifies box, box.votes, box.tallies
    ensures r.Ok? ==> box.Valid() && CastAndCount(old(box.View()), operator, weatherStatus, weight, slot, validSlots, total) == Ok(box.View())
    ensures r.Err? ==> CastAndCount(old(box.View()), operator, weatherStatus, weight, slot, validSlots, total) == Err(r.error)
  {
    var _ :- box.Cast(operator, NewBallot(weatherStatus), weight, slot, validSlots);
    r := box.Count(total, slot);
  }

  /** Writes the result account once consensus is reached, and its weight on every later vote. */
  method PublishResult(box: BallotBox, result: ConsensusResultStore, total: nat, slot: nat) returns (r: Result<()>)
    requires box.Valid()
    modifies result
    ensures r.Ok? ==> Publish(old(result.View()), box.View(), total, slot) == Ok(result.View())
    ensures r.Err? ==> Publish(old(result.View()), box.View(), total, slot) == Err(r.error)
  {
    if box.slotConsensusReached != NO_SLOT || box.winningBallot.isValid {
      var winner :- box.WinningTally();
      result.Record(winner.ballot.weatherStatus, AsU64(winner.weight), AsU64(total), slot);
    }
    return Ok(());
  }

  /** `cast_vote`: check the snapshot and the stake, cast, count, publish, mirror. */
  method ProcessCastVote(
      box: BallotBox, snapshot: EpochSnapshotAccount, operatorSnapshot: OperatorSnapshotAccount,
      result: ConsensusResultStore, state: EpochStateStore,
      operator: Pubkey, weatherStatus: nat, slot: nat, validSlots: nat)
    returns (r: Result<()>)
    requires box.Valid() && operator != DEFAULT_KEY
    modifies box, box.votes, box.tallies, result, state`slotConsensusReached, state`votingProgress
    ensures r.Ok? ==>
              && EpochFinalized(snapshot.View()) && operatorSnapshot.stake > 0 && box.Valid()
              && CastAndCount(old(box.View()), operator, weatherStatus, operatorSnapshot.stake, slot, validSlots, snapshot.stake) == Ok(box.View())
              && Publish(old(result.View()), box.View(), snapshot.stake, slot) == Ok(result.View())
              && state.View() == E.OnCastVote(old(state.View()), box.View().operatorsVoted, IsConsensusReached(box.View()), slot)
    ensures r.Err? ==>
              || (r.error == NotFinalized && !EpochFinalized(snapshot.View()))
              || (r.error == CannotVoteWithZeroStake && operatorSnapshot.stake == 0)
              || (var b := CastAndCount(old(box.View()), operator, weatherStatus, operatorSnapshot.stake, slot, validSlots, snapshot.stake);
                  b == Err(r.error) || (b.Ok? && Publish(old(result.View()), b.value, snapshot.stake, slot) == Err(r.error)))
  {
    if snapshot.operatorsRegistered != snapshot.operatorCount {
      return Err(NotFinalized);
    }
    if operatorSnapshot.stake == 0 {
      return Err(CannotVoteWithZeroStake);
    }
    var _ :- CastAndTally(box, operator, weatherStatus, operatorSnapshot.stake, slot, validSlots, snapshot.stake);
    var _ :- PublishResult(box, result, snapshot.stake, slot);
    state.UpdateCastVote(box.operatorsVoted, box.slotConsensusReached != NO_SLOT || box.winningBallot.isValid, slot);
    return Ok(());
  }

  /** `admin_set_tie_breaker`: set the winner, then mirror it.  Nothing is published. */
  method ProcessSetTieBreaker(box: BallotBox, state: EpochStateStore, weatherStatus: nat, currentEpoch: nat, epochsBeforeStall: nat, slot: nat)
    returns (r: Result<()>)
    requires box.Valid()
    modifies box, state`slotConsensusReached, state`wasTieBreakerSet
    ensures r.Ok? ==>
              && box.Valid()
              && SetTieBreaker(old(box.View()), weatherStatus, currentEpoch, epochsBeforeStall) == Ok(box.View())
              && state.View() == E.OnTieBreaker(old(state.View()), IsConsensusReached(box.View()), slot)
    ensures r.Err? ==> SetTieBreaker(old(box.View()), weatherStatus, currentEpoch, epochsBeforeStall) == Err(r.error)
  {
    var _ :- box.BreakTie(weatherStatus, currentEpoch, epochsBeforeStall);
    state.UpdateSetTieBreaker(box.slotConsensusReached != NO_SLOT || box.winningBallot.isValid, slot);
    return Ok(());
  }

  /** `snapshot_vault_operator_delegation`: register the delegation; if it finishes the operator,
      add the operator to the epoch snapshot; mirror both. */
  method ProcessSnapshotDelegation(
      registry: seq<nat>, operatorSnapshot: OperatorSnapshotAccount, snapshot: EpochSnapshotAccount, state: EpochStateStore,
      i: nat, entry: Entry, slot: nat)
    returns (r: Result<()>)
    requires operatorSnapshot.Valid() && state.Valid() && i < MAX_OPERATORS
    modifies operatorSnapshot, operatorSnapshot.entries, snapshot, state`snapshotProgress, state.operatorProgress
    ensures r.Ok? ==>
              && entry.vaultIndex != NO_VAULT_INDEX && entry.vaultIndex in registry && operatorSnapshot.Valid()
              && Register(old(operatorSnapshot.View()), slot, entry) == Ok(operatorSnapshot.View())
              && var s, es := operatorSnapshot.View(), old(snapshot.View());
                 && (if Finalized(s) then RegisterOperator(es, slot, s.validDelegations, s.stake) else Ok(es)) == Ok(snapshot.View())
                 && E.OnDelegation(old(state.View()), i, Finalized(s)) == Ok(state.View())
    ensures entry.vaultIndex == NO_VAULT_INDEX || entry.vaultIndex !in registry ==> r == Err(VaultNotInRegistry)
    ensures r.Err? && entry.vaultIndex != NO_VAULT_INDEX && entry.vaultIndex in registry ==>
              var s, es := Register(old(operatorSnapshot.View()), slot, entry), old(snapshot.View());
              || s == Err(r.error)
              || (s.Ok? && Finalized(s.value) && RegisterOperator(es, slot, s.value.validDelegations, s.value.stake) == Err(r.error))
              || (s.Ok? && E.OnDelegation(old(state.View()), i, Finalized(s.value)) == Err(r.error))
  {
    if entry.vaultIndex == NO_VAULT_INDEX || entry.vaultIndex !in registry {
      return Err(VaultNotInRegistry);
    }
    var _ :- operatorSnapshot.RegisterDelegation(slot, entry);
    var finalized := operatorSnapshot.registered == operatorSnapshot.delegationCount;
    if finalized {
      var _ :- snapshot.Increment(slot, operatorSnapshot.validDelegations, operatorSnapshot.stake);
    }
    r := state.UpdateSnapshotDelegation(i, finalized);
  }
}
