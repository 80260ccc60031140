/** The ballot box account: fixed arrays of 256 votes and 256 tallies, updated in place by
    linear scans.  Every method is proved against the box functions of `Voting`. */
module BallotBoxAccount {
  import opened Base
  import opened Voting
  import Threshold

  const EMPTY_VOTE := Vote(DEFAULT_KEY, 0, 0, U16_MAX)
  const EMPTY_TALLY := Tally(U16_MAX, NO_BALLOT, 0, 0)

  class BallotBox {
    const epoch: nat
    var slotConsensusReached: nat
    var operatorsVoted: nat
    var uniqueBallots: nat
    var winningBallot: Ballot
    const votes: array<Vote>
    const tallies: array<Tally>

    /** Used slots come first in both arrays, and the two counters say how many there are. */
    ghost predicate Valid()
      reads this, votes, tallies
    {
      && votes.Length == MAX_OPERATORS && tallies.Length == MAX_OPERATORS
      && operatorsVoted <= MAX_OPERATORS && uniqueBallots <= MAX_OPERATORS
      && (forall i :: 0 <= i < operatorsVoted ==> votes[i].ballotIndex < U16_MAX)
      && (forall i :: operatorsVoted <= i < MAX_OPERATORS ==> votes[i] == EMPTY_VOTE)
      && (forall i :: 0 <= i < uniqueBallots ==> tallies[i].ballot.isValid)
      && (forall i :: uniqueBallots <= i < MAX_OPERATORS ==> tallies[i] == EMPTY_TALLY)
    }

    ghost function View(): Box
      requires Valid()
      reads this, votes, tallies
    {
      Box(epoch, slotConsensusReached, operatorsVoted, uniqueBallots, winningBallot,
          votes[..operatorsVoted], tallies[..uniqueBallots])
    }

    constructor (epoch: nat)
      ensures Valid() && fresh(votes) && fresh(tallies) && View() == EmptyBox(epoch)
    {
      this.epoch := epoch;
      slotConsensusReached := NO_SLOT;
      operatorsVoted, uniqueBallots := 0, 0;
      winningBallot := NO_BALLOT;
      votes := new Vote[MAX_OPERATORS](_ => EMPTY_VOTE);
      tallies := new Tally[MAX_OPERATORS](_ => EMPTY_TALLY);
    }

    method VotingValid(slot: nat, validSlots: nat) returns (r: Result<bool>)
      requires Valid()
      ensures r == IsVotingValid(View(), slot, validSlots)
    {
      if slotConsensusReached == NO_SLOT && winningBallot.isValid {
        return Ok(false);
      }
      if slotConsensusReached != NO_SLOT || winningBallot.isValid {
        var lastSlot :- CheckedAdd(slotConsensusReached, validSlots, U64_MAX);
        return Ok(slot <= lastSlot);
      }
      return Ok(true);
    }

    /** The position of the first tally for the ballot, or 256. */
    method FindTally(ballot: Ballot) returns (t: nat)
      requires Valid()
      ensures t == MAX_OPERATORS || t < uniqueBallots
      ensures t < uniqueBallots ==> t == TallyOf(View().tallies, ballot)
      ensures t == MAX_OPERATORS ==> TallyOf(View().tallies, ballot) == uniqueBallots
    {
      t := 0;
      while t < tallies.Length
        invariant t <= MAX_OPERATORS
        invariant forall u :: 0 <= u < t ==> !SameBallot(tallies[u].ballot, ballot)
      {
        if SameBallot(tallies[t].ballot, ballot) {
          return;
        }
        t := t + 1;
      }
    }

    method IncrementTally(ballot: Ballot, weight: nat) returns (r: Result<nat>)
      requires Valid() && ballot.isValid
      modifies this`uniqueBallots, tallies
      ensures r.Ok? ==> Valid() && IncrementOrCreateTally(old(View()), ballot, weight) == Ok((View(), r.value))
      ensures r.Err? ==> IncrementOrCreateTally(old(View()), ballot, weight) == Err(r.error)
    {
      var t := FindTally(ballot);
      if t < tallies.Length {
        var w :- CheckedAdd(tallies[t].weight, weight, U128_MAX);
        var n :- CheckedAdd(tallies[t].count, 1, U64_MAX);
        tallies[t] := tallies[t].(weight := w, count := n);
        return Ok(t);
      }
      t := 0;
      while t < tallies.Length
        invariant t <= uniqueBallots
      {
        if !tallies[t].ballot.isValid {
          tallies[t] := Tally(t, ballot, weight, 1);
          uniqueBallots := uniqueBallots + 1;
          assert tallies[..uniqueBallots] == old(tallies[..uniqueBallots]) + [Tally(t, ballot, weight, 1)];
          return Ok(t);
        }
        t := t + 1;
      }
      return Err(BallotTallyFull);
    }

    method DidVote(operator: Pubkey) returns (voted: bool)
      requires Valid() && operator != DEFAULT_KEY
      ensures voted <==> VotedIn(View().votes, operator)
    {
      var i := 0;
      while i < votes.Length
        invariant i <= MAX_OPERATORS
        invariant forall j :: 0 <= j < i ==> votes[j].operator != operator
      {
        if votes[i].operator == operator {
          assert View().votes[i].operator == operator;
          return true;
        }
        i := i + 1;
      }
      return false;
    }

    method Cast(operator: Pubkey, ballot: Ballot, weight: nat, slot: nat, validSlots: nat) returns (r: Result<()>)
      requires Valid() && operator != DEFAULT_KEY
      modifies this, votes, tallies
      ensures r.Ok? ==> Valid() && CastVote(old(View()), operator, ballot, weight, slot, validSlots) == Ok(View())
      ensures r.Err? ==> CastVote(old(View()), operator, ballot, weight, slot, validSlots) == Err(r.error)
    {
      var open :- VotingValid(slot, validSlots);
      if !open {
        return Err(VotingNotValid);
      }
      if !ballot.isValid {
        return Err(BadBallot);
      }
      var voted := DidVote(operator);
      if voted {
        return Err(OperatorAlreadyVoted);
      }
      var t :- IncrementTally(ballot, weight);
      var i := 0;
      while i < votes.Length
        invariant i <= operatorsVoted
      {
        if votes[i].ballotIndex == U16_MAX {
          votes[i] := Vote(operator, slot, weight, t);
          operatorsVoted := operatorsVoted + 1;
          assert votes[..operatorsVoted] == old(votes[..operatorsVoted]) + [Vote(operator, slot, weight, t)];
          return Ok(());
        }
        i := i + 1;
      }
      return Err(OperatorVotesFull);
    }

    /** The last heaviest of all 256 tallies.  Free slots weigh nothing, so a heaviest tally
        with weight is the heaviest used one. */
    method HeaviestSlot() returns (best: nat)
      requires Valid()
      ensures best < MAX_OPERATORS
      ensures tallies[best].weight > 0 ==> best < uniqueBallots && best == Heaviest(View().tallies)
      ensures uniqueBallots > 0 ==> tallies[best].weight == View().tallies[Heaviest(View().tallies)].weight
    {
      best := 0;
      var i := 1;
      while i < tallies.Length
        invariant 1 <= i <= MAX_OPERATORS && best < i
        invariant forall u :: 0 <= u < i ==> tallies[u].weight <= tallies[best].weight
        invariant forall u :: best < u < i ==> tallies[u].weight < tallies[best].weight
      {
        if tallies[best].weight <= tallies[i].weight {
          best := i;
        }
        i := i + 1;
      }
    }

    method Count(total: nat, slot: nat) returns (r: Result<()>)
      requires Valid()
      modifies this`slotConsensusReached, this`winningBallot
      ensures r.Ok? ==> Valid() && TallyVotes(old(View()), total, slot) == Ok(View())
      ensures r.Err? ==> TallyVotes(old(View()), total, slot) == Err(r.error)
    {
      if slotConsensusReached != NO_SLOT {
        return Ok(());
      }
      var best := HeaviestSlot();
      if total == 0 {
        return Err(DenominatorIsZero);
      }
      Threshold.TwoThirdsPassAndMajorityFollows(0, total);
      if Threshold.Passes(tallies[best].weight, total) && !winningBallot.isValid {
        slotConsensusReached := slot;
        winningBallot := tallies[best].ballot;
      }
      return Ok(());
    }

    method BreakTie(weatherStatus: nat, currentEpoch: nat, epochsBeforeStall: nat) returns (r: Result<()>)
      requires Valid()
      modifies this`winningBallot
      ensures r.Ok? ==> Valid() && SetTieBreaker(old(View()), weatherStatus, currentEpoch, epochsBeforeStall) == Ok(View())
      ensures r.Err? ==> SetTieBreaker(old(View()), weatherStatus, currentEpoch, epochsBeforeStall) == Err(r.error)
    {
      if slotConsensusReached != NO_SLOT || winningBallot.isValid {
        return Err(ConsensusAlreadyReached);
      }
      var stallEpoch :- CheckedAdd(epoch, epochsBeforeStall, U64_MAX);
      if currentEpoch < stallEpoch {
        return Err(VotingNotFinalized);
      }
      if weatherStatus > RAINY {
        return Err(BadBallot);
      }
      var t := FindTally(NewBallot(weatherStatus));
      if t == tallies.Length {
        return Err(TieBreakerNotInPriorVotes);
      }
      winningBallot := NewBallot(weatherStatus);
      return Ok(());
    }

    method WinningTally() returns (r: Result<Tally>)
      requires Valid()
      ensures r == GetWinningTally(View())
    {
      if !winningBallot.isValid {
        return Err(ConsensusNotReached);
      }
      var t := FindTally(winningBallot);
      if t == tallies.Length {
        return Err(BallotTallyNotFound);
      }
      return Ok(tallies[t]);
    }
  }
}
