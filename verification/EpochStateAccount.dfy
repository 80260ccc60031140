/** The epoch state, weight table and consensus result accounts, updated in place.  Every method
    is proved against the value functions of `EpochStates`, `WeightTables` and `EpochProtocol`. */
module EpochStateAccount {
  import opened Base
  import opened Sums
  import opened EpochStates
  import opened WeightTables
  import EpochProtocol

  class EpochStateStore {
    var wasTieBreakerSet: bool
    var slotConsensusReached: nat
    var operatorCount: nat
    var vaultCount: nat
    var weightTable: AccountStatus
    var epochSnapshot: AccountStatus
    var ballotBox: AccountStatus
    var ncnRouter: AccountStatus
    const operatorSnapshots: array<AccountStatus>
    const operatorRouters: array<AccountStatus>
    var setWeightProgress: Progress
    var snapshotProgress: Progress
    const operatorProgress: array<Progress>
    var votingProgress: Progress
    var isClosing: bool

    ghost predicate Valid()
      reads this
    {
      && operatorSnapshots.Length == MAX_OPERATORS && operatorRouters.Length == MAX_OPERATORS
      && operatorProgress.Length == MAX_OPERATORS && operatorSnapshots != operatorRouters
    }

    ghost function View(): EpochState
      reads this, operatorSnapshots, operatorRouters, operatorProgress
    {
      EpochState(wasTieBreakerSet, slotConsensusReached, operatorCount, vaultCount,
                 weightTable, epochSnapshot, ballotBox, ncnRouter, operatorSnapshots[..], operatorRouters[..],
                 setWeightProgress, snapshotProgress, operatorProgress[..], votingProgress, isClosing)
    }

    constructor ()
      ensures Valid() && fresh(operatorSnapshots) && fresh(operatorRouters) && fresh(operatorProgress)
      ensures View() == NewEpochState()
    {
      wasTieBreakerSet, isClosing, slotConsensusReached, operatorCount, vaultCount := false, false, NO_SLOT, 0, 0;
      weightTable, epochSnapshot, ballotBox, ncnRouter := DNE, DNE, DNE, DNE;
      setWeightProgress, snapshotProgress, votingProgress := NO_PROGRESS, NO_PROGRESS, NO_PROGRESS;
      operatorSnapshots := new AccountStatus[MAX_OPERATORS](_ => DNE);
      operatorRouters := new AccountStatus[MAX_OPERATORS](_ => DNE);
      operatorProgress := new Progress[MAX_OPERATORS](_ => NO_PROGRESS);
    }

    method UpdateReallocOperatorSnapshot(i: nat, isActive: bool) returns (r: Result<()>)
      requires Valid() && i < MAX_OPERATORS
      modifies this`snapshotProgress, operatorSnapshots, operatorProgress
      ensures r.Ok? ==> OnOperatorSnapshot(old(View()), i, isActive) == Ok(View())
      ensures r.Err? ==> OnOperatorSnapshot(old(View()), i, isActive) == Err(r.error)
    {
      operatorSnapshots[i] := Created;
      if isActive {
        operatorProgress[i] := Progress(0, vaultCount);
        assert operatorProgress[..] == old(operatorProgress[..])[i := Progress(0, vaultCount)];
      } else {
        operatorProgress[i] := Progress(1, 1);
        assert operatorProgress[..] == old(operatorProgress[..])[i := Progress(1, 1)];
        snapshotProgress :- Increment(snapshotProgress);
      }
      assert operatorSnapshots[..] == old(operatorSnapshots[..])[i := Created];
      return Ok(());
    }

    method UpdateSnapshotDelegation(i: nat, finalized: bool) returns (r: Result<()>)
      requires Valid() && i < MAX_OPERATORS
      modifies this`snapshotProgress, operatorProgress
      ensures r.Ok? ==> OnDelegation(old(View()), i, finalized) == Ok(View())
      ensures r.Err? ==> OnDelegation(old(View()), i, finalized) == Err(r.error)
    {
      operatorProgress[i] :- Increment(operatorProgress[i]);
      if finalized {
        snapshotProgress :- Increment(snapshotProgress);
      }
      return Ok(());
    }

    method UpdateCastVote(operatorsVoted: nat, consensusReached: bool, slot: nat)
      modifies this`slotConsensusReached, this`votingProgress
      ensures View() == OnCastVote(old(View()), operatorsVoted, consensusReached, slot)
    {
      if consensusReached && slotConsensusReached == NO_SLOT {
        slotConsensusReached := slot;
      }
      votingProgress := votingProgress.(tally := operatorsVoted);
    }

    method UpdateSetTieBreaker(consensusReached: bool, slot: nat)
      modifies this`slotConsensusReached, this`wasTieBreakerSet
      ensures View() == OnTieBreaker(old(View()), consensusReached, slot)
    {
      if consensusReached && slotConsensusReached == NO_SLOT {
        slotConsensusReached := slot;
        wasTieBreakerSet := true;
      }
    }

    /** The closing check scans both status arrays. */
    method AllClosed() returns (closed: bool)
      requires Valid()
      ensures closed <==> AreAllClosed(View())
    {
      if weightTable != Closed || epochSnapshot != Closed {
        return false;
      }
      var i := 0;
      while i < operatorSnapshots.Length
        invariant i <= operatorSnapshots.Length
        invariant forall j :: 0 <= j < i ==> operatorSnapshots[j] == DNE || operatorSnapshots[j] == Closed
      {
        if operatorSnapshots[i] != DNE && operatorSnapshots[i] != Closed {
          assert View().operatorSnapshots[i] == operatorSnapshots[i];
          return false;
        }
        i := i + 1;
      }
      if ballotBox != Closed || ncnRouter != Closed {
        return false;
      }
      i := 0;
      while i < operatorRouters.Length
        invariant i <= operatorRouters.Length
        invariant forall j :: 0 <= j < i ==> operatorRouters[j] == DNE || operatorRouters[j] == Closed
      {
        if operatorRouters[i] != DNE && operatorRouters[i] != Closed {
          assert View().operatorRouters[i] == operatorRouters[i];
          return false;
        }
        i := i + 1;
      }
      return true;
    }
  }

  class ConsensusResultStore {
    var weatherStatus: nat
    var voteWeight: nat
    var totalVoteWeight: nat
    var consensusSlot: nat

    ghost function View(): EpochProtocol.ConsensusResult
      reads this
    {
      EpochProtocol.ConsensusResult(weatherStatus, voteWeight, totalVoteWeight, consensusSlot)
    }

    constructor ()
      ensures View() == EpochProtocol.NO_RESULT
    {
      weatherStatus, voteWeight, totalVoteWeight, consensusSlot := 0, 0, 0, 0;
    }

    method Record(status: nat, weight: nat, total: nat, slot: nat)
      modifies this
      ensures View() == EpochProtocol.RecordConsensus(old(View()), status, weight, total, slot)
    {
      if consensusSlot != 0 {
        voteWeight := weight;
      } else {
        weatherStatus := status;
        voteWeight := weight;
        totalVoteWeight := total;
        consensusSlot := slot;
      }
    }
  }

  /** The table as the account stores it: the mint of each entry beside its weighting slot. */
  class WeightTableStore {
    const registry: seq<nat>
    const mints: seq<Pubkey>
    const slotSet: array<nat>

    ghost predicate Valid()
      reads this, slotSet
    {
      slotSet.Length == |mints| && Distinct(mints)
    }

    ghost function View(): WeightTable
      reads this, slotSet
    {
      WeightTable(registry, slotSet[..])
    }

    constructor (registry: seq<nat>, mints: seq<Pubkey>)
      requires Distinct(mints)
      ensures Valid() && fresh(slotSet) && this.mints == mints && View() == WeightTable(registry, seq(|mints|, _ => 0))
    {
      this.registry, this.mints := registry, mints;
      slotSet := new nat[|mints|](_ => 0);
    }

    /** Sets the weight of a mint; only the slot of the first weighting is kept. */
    method SetWeight(mint: Pubkey, slot: nat) returns (r: Result<()>)
      requires Valid()
      modifies slotSet
      ensures mint in mints ==> r.Ok? && exists j :: 0 <= j < |mints| && mints[j] == mint && SetMint(old(View()), j, slot) == Ok(View())
      ensures mint !in mints ==> r == Err(InvalidMint) && View() == old(View())
    {
      var j := 0;
      while j < slotSet.Length
        invariant j <= slotSet.Length && slotSet[..] == old(slotSet[..])
        invariant forall k :: 0 <= k < j ==> mints[k] != mint
      {
        if mints[j] == mint {
          if slotSet[j] == 0 {
            slotSet[j] := slot;
          }
          assert slotSet[..] == old(slotSet[..])[j := slotSet[j]];
          assert SetMint(old(View()), j, slot) == Ok(View());
          return Ok(());
        }
        j := j + 1;
      }
      return Err(InvalidMint);
    }

    /** The number of weighted mints, by a scan. */
    method CountWeights() returns (n: nat)
      requires Valid()
      ensures n == WeightCount(View())
    {
      n := 0;
      var j := 0;
      while j < slotSet.Length
        invariant j <= slotSet.Length
        invariant n == SumBy(slotSet[..j], IsSet)
      {
        SumByAppend(slotSet[..j], slotSet[j], IsSet);
        assert slotSet[..j + 1] == slotSet[..j] + [slotSet[j]];
        if slotSet[j] > 0 {
          n := n + 1;
        }
        j := j + 1;
      }
      assert slotSet[..] == slotSet[..slotSet.Length];
    }
  }
}
