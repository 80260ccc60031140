/** The ballot box: raw operator votes beside incremental tallies, the consensus test, the
    tie breaker and the post-consensus voting window.  Operations are functions from a box to
    a box; the invariant compares the tallies with a recount of the raw votes. */
module Voting {
  import opened Base
  import opened Sums
  import Threshold

  const RAINY: nat := 2

  datatype Ballot = Ballot(weatherStatus: nat, isValid: bool)

  const NO_BALLOT := Ballot(0, false)

  datatype Tally = Tally(index: nat, ballot: Ballot, weight: nat, count: nat)

  datatype Vote = Vote(operator: Pubkey, slotVoted: nat, weight: nat, ballotIndex: nat)

  /** `votes` and `tallies` are the used parts of the account's two arrays. */
  datatype Box = Box(
    epoch: nat,
    slotConsensusReached: nat,
    operatorsVoted: nat,
    uniqueBallots: nat,
    winningBallot: Ballot,
    votes: seq<Vote>,
    tallies: seq<Tally>)

  function EmptyBox(epoch: nat): Box {
    Box(epoch, NO_SLOT, 0, 0, NO_BALLOT, [], [])
  }

  function NewBallot(weatherStatus: nat): Ballot {
    Ballot(weatherStatus, weatherStatus <= RAINY)
  }

  /** Ballot equality: an invalid ballot equals nothing, not even itself. */
  predicate SameBallot(a: Ballot, b: Ballot) {
    a.isValid && b.isValid && a.weatherStatus == b.weatherStatus
  }

  predicate IsConsensusReached(b: Box) {
    b.slotConsensusReached != NO_SLOT || b.winningBallot.isValid
  }

  predicate TieBreakerSet(b: Box) {
    b.slotConsensusReached == NO_SLOT && b.winningBallot.isValid
  }

  predicate VotedIn(votes: seq<Vote>, operator: Pubkey) {
    exists i :: 0 <= i < |votes| && votes[i].operator == operator
  }

  /** The first tally for the ballot, or the number of tallies when there is none. */
  function TallyOf(tallies: seq<Tally>, ballot: Ballot): (t: nat)
    ensures t <= |tallies|
    ensures forall u :: 0 <= u < t ==> !SameBallot(tallies[u].ballot, ballot)
    ensures t < |tallies| ==> SameBallot(tallies[t].ballot, ballot)
  {
    if |tallies| == 0 then 0
    else var t := TallyOf(tallies[..|tallies| - 1], ballot);
      if t < |tallies| - 1 || SameBallot(tallies[t].ballot, ballot) then t else |tallies|
  }

  function GetWinningTally(b: Box): Result<Tally> {
    if !b.winningBallot.isValid then Err(ConsensusNotReached)
    else
      var t := TallyOf(b.tallies, b.winningBallot);
      if t < |b.tallies| then Ok(b.tallies[t]) else Err(BallotTallyNotFound)
  }

  function IsVotingValid(b: Box, slot: nat, validSlots: nat): Result<bool> {
    if TieBreakerSet(b) then Ok(false)
    else if IsConsensusReached(b) then
      var lastSlot :- CheckedAdd(b.slotConsensusReached, validSlots, U64_MAX);
      Ok(slot <= lastSlot)
    else Ok(true)
  }

  /** Adds one vote to its tally, opening the tally on the first vote for the ballot. */
  function AddToTally(tallies: seq<Tally>, ballot: Ballot, weight: nat): Result<seq<Tally>> {
    var t := TallyOf(tallies, ballot);
    if t < |tallies| then
      var w :- CheckedAdd(tallies[t].weight, weight, U128_MAX);
      var n :- CheckedAdd(tallies[t].count, 1, U64_MAX);
      Ok(tallies[t := tallies[t].(weight := w, count := n)])
    else if |tallies| < MAX_OPERATORS then Ok(tallies + [Tally(t, ballot, weight, 1)])
    else Err(BallotTallyFull)
  }

  /** The tally update together with the unique-ballot counter and the tally's position. */
  function IncrementOrCreateTally(b: Box, ballot: Ballot, weight: nat): Result<(Box, nat)> {
    var t := TallyOf(b.tallies, ballot);
    var tallies :- AddToTally(b.tallies, ballot, weight);
    var unique :- if t < |b.tallies| then Ok(b.uniqueBallots) else CheckedAdd(b.uniqueBallots, 1, U64_MAX);
    Ok((b.(tallies := tallies, uniqueBallots := unique), t))
  }

  function CastVote(b: Box, operator: Pubkey, ballot: Ballot, weight: nat, slot: nat, validSlots: nat): Result<Box> {
    var open :- IsVotingValid(b, slot, validSlots);
    if !open then Err(VotingNotValid)
    else if !ballot.isValid then Err(BadBallot)
    else if VotedIn(b.votes, operator) then Err(OperatorAlreadyVoted)
    else
      var (b1, t) :- IncrementOrCreateTally(b, ballot, weight);
      if |b1.votes| >= MAX_OPERATORS then Err(OperatorVotesFull)
      else
        var voted :- CheckedAdd(b1.operatorsVoted, 1, U64_MAX);
        Ok(b1.(votes := b1.votes + [Vote(operator, slot, weight, t)], operatorsVoted := voted))
  }

  /** The last of the heaviest tallies, as an iterator's `max_by_key` returns it. */
  function Heaviest(tallies: seq<Tally>): (h: nat)
    requires |tallies| > 0
    ensures h < |tallies|
    ensures forall u :: 0 <= u < |tallies| ==> tallies[u].weight <= tallies[h].weight
    ensures forall u :: h < u < |tallies| ==> tallies[u].weight < tallies[h].weight
  {
    var n := |tallies| - 1;
    if n == 0 then 0
    else var h := Heaviest(tallies[..n]);
      if tallies[h].weight <= tallies[n].weight then n else h
  }

  function TallyVotes(b: Box, total: nat, slot: nat): Result<Box> {
    if b.slotConsensusReached != NO_SLOT then Ok(b)
    else if total == 0 then Err(DenominatorIsZero)
    else if |b.tallies| == 0 then Ok(b)
    else
      var best := b.tallies[Heaviest(b.tallies)];
      if Threshold.Passes(best.weight, total) && !b.winningBallot.isValid then
        Ok(b.(slotConsensusReached := slot, winningBallot := best.ballot))
      else Ok(b)
  }

  function SetTieBreaker(b: Box, weatherStatus: nat, currentEpoch: nat, epochsBeforeStall: nat): Result<Box> {
    if IsConsensusReached(b) then Err(ConsensusAlreadyReached)
    else
      var stallEpoch :- CheckedAdd(b.epoch, epochsBeforeStall, U64_MAX);
      if currentEpoch < stallEpoch then Err(VotingNotFinalized)
      else if weatherStatus > RAINY then Err(BadBallot)
      else if TallyOf(b.tallies, NewBallot(weatherStatus)) == |b.tallies| then Err(TieBreakerNotInPriorVotes)
      else Ok(b.(winningBallot := NewBallot(weatherStatus)))
  }

  // ---------------------------------------------------------------- recount

  function VoteWeight(v: Vote): nat { v.weight }

  function TallyWeight(t: Tally): nat { t.weight }

  function WeightAt(t: nat): Vote -> nat {
    (v: Vote) => if v.ballotIndex == t then v.weight else 0
  }

  function CountAt(t: nat): Vote -> nat {
    (v: Vote) => if v.ballotIndex == t then 1 else 0
  }

  /** The recount of the raw votes that a tally at position `t` must agree with. */
  ghost predicate Recounted(votes: seq<Vote>, tally: Tally, t: nat) {
    && tally.weight == SumBy(votes, WeightAt(t))
    && tally.count == SumBy(votes, CountAt(t))
    && tally.count > 0
  }

  ghost predicate AllRecounted(votes: seq<Vote>, tallies: seq<Tally>) {
    && (forall t :: 0 <= t < |tallies| ==> Recounted(votes, tallies[t], t))
    && SumBy(tallies, TallyWeight) == SumBy(votes, VoteWeight)
  }

  /** Tallies are indexed by position and carry distinct, proper ballots. */
  ghost predicate TalliesOrdered(tallies: seq<Tally>) {
    && (forall t :: 0 <= t < |tallies| ==>
          tallies[t].index == t && tallies[t].ballot.isValid && tallies[t].ballot.weatherStatus <= RAINY)
    && (forall t, u :: 0 <= t < u < |tallies| ==> tallies[t].ballot != tallies[u].ballot)
  }

  ghost predicate VotesProper(b: Box) {
    && |b.votes| <= MAX_OPERATORS
    && (forall i :: 0 <= i < |b.votes| ==> b.votes[i].ballotIndex < |b.tallies| && b.votes[i].operator != DEFAULT_KEY)
    && (forall i, j :: 0 <= i < j < |b.votes| ==> b.votes[i].operator != b.votes[j].operator)
  }

  /** The state of the count is exactly what recounting the raw votes would give, and the
      winner, once there is one, is a ballot that was voted for. */
  ghost predicate Consistent(b: Box) {
    && b.operatorsVoted == |b.votes|
    && b.uniqueBallots == |b.tallies|
    && TalliesOrdered(b.tallies)
    && VotesProper(b)
    && AllRecounted(b.votes, b.tallies)
    && (b.winningBallot.isValid ==> TallyOf(b.tallies, b.winningBallot) < |b.tallies|)
    && (b.slotConsensusReached != NO_SLOT ==> b.winningBallot.isValid)
  }

  /** Only three ballots exist, so the tally array never fills up. */
  lemma AtMostThreeTallies(tallies: seq<Tally>)
    requires TalliesOrdered(tallies)
    ensures |tallies| <= 3
  {
    var ballots := seq(|tallies|, t requires 0 <= t < |tallies| => tallies[t].ballot);
    var universe := {Ballot(0, true), Ballot(1, true), Ballot(2, true)};
    forall t | 0 <= t < |ballots|
      ensures ballots[t] in universe
    {
      assert tallies[t].ballot.weatherStatus <= RAINY;
    }
    DistinctFits(ballots, universe);
  }

  lemma {:induction false} NoVotesFor(votes: seq<Vote>, t: nat)
    requires forall i :: 0 <= i < |votes| ==> votes[i].ballotIndex != t
    ensures SumBy(votes, WeightAt(t)) == 0 && SumBy(votes, CountAt(t)) == 0
  {
    if |votes| > 0 {
      NoVotesFor(votes[..|votes| - 1], t);
    }
  }

  /** Two different ballots never share a vote. */
  lemma {:induction false} TalliesDisjoint(votes: seq<Vote>, t: nat, u: nat)
    requires t != u
    ensures SumBy(votes, WeightAt(t)) + SumBy(votes, WeightAt(u)) <= SumBy(votes, VoteWeight)
  {
    if |votes| > 0 {
      TalliesDisjoint(votes[..|votes| - 1], t, u);
    }
  }

  lemma {:induction false} TallyWithinVotes(votes: seq<Vote>, t: nat)
    ensures SumBy(votes, WeightAt(t)) <= SumBy(votes, VoteWeight)
    ensures SumBy(votes, CountAt(t)) <= |votes|
  {
    if |votes| > 0 {
      TallyWithinVotes(votes[..|votes| - 1], t);
    }
  }

  /** Appending a vote for ballot `t` changes the recount of `t` alone. */
  lemma RecountAfterVote(votes: seq<Vote>, v: Vote, u: nat)
    ensures SumBy(votes + [v], WeightAt(u)) == SumBy(votes, WeightAt(u)) + if v.ballotIndex == u then v.weight else 0
    ensures SumBy(votes + [v], CountAt(u)) == SumBy(votes, CountAt(u)) + if v.ballotIndex == u then 1 else 0
    ensures SumBy(votes + [v], VoteWeight) == SumBy(votes, VoteWeight) + v.weight
  {
    SumByAppend(votes, v, WeightAt(u));
    SumByAppend(votes, v, CountAt(u));
    SumByAppend(votes, v, VoteWeight);
  }

  /** Later tallies keep the earlier ballots in place and never lose weight. */
  ghost predicate TalliesGrow(before: seq<Tally>, after: seq<Tally>) {
    && |before| <= |after|
    && (forall t :: 0 <= t < |before| ==> after[t].ballot == before[t].ballot && after[t].weight >= before[t].weight)
  }

  /** `b'` is `b` with one more vote, and nothing decided in between. */
  ghost predicate Extends(b: Box, b': Box, operator: Pubkey, weight: nat) {
    && b'.epoch == b.epoch && b'.slotConsensusReached == b.slotConsensusReached && b'.winningBallot == b.winningBallot
    && |b'.votes| == |b.votes| + 1 && b'.votes[..|b.votes|] == b.votes
    && b'.votes[|b.votes|].operator == operator && b'.votes[|b.votes|].weight == weight
    && TalliesGrow(b.tallies, b'.tallies)
  }

  lemma TallyOfStable(before: seq<Tally>, after: seq<Tally>, ballot: Ballot)
    requires TalliesGrow(before, after)
    requires TallyOf(before, ballot) < |before|
    ensures TallyOf(after, ballot) == TallyOf(before, ballot)
  {
    assert SameBallot(after[TallyOf(before, ballot)].ballot, ballot);
  }

  /** The incremental update keeps the tallies ordered and growing. */
  lemma AddKeepsOrder(tallies: seq<Tally>, ballot: Ballot, weight: nat)
    requires TalliesOrdered(tallies) && ballot.isValid && ballot.weatherStatus <= RAINY
    requires AddToTally(tallies, ballot, weight).Ok?
    ensures var after := AddToTally(tallies, ballot, weight).value;
            && TalliesOrdered(after) && TalliesGrow(tallies, after)
            && TallyOf(tallies, ballot) < |after| && |after| == Max(|tallies|, TallyOf(tallies, ballot) + 1)
  {
    var t := TallyOf(tallies, ballot);
    if t == |tallies| {
      forall u | 0 <= u < t
        ensures tallies[u].ballot != ballot
      {
        assert !SameBallot(tallies[u].ballot, ballot);
      }
    }
  }

  /** The tallies' total grows by the vote's weight. */
  lemma AddKeepsTotal(tallies: seq<Tally>, ballot: Ballot, weight: nat)
    requires AddToTally(tallies, ballot, weight).Ok?
    ensures SumBy(AddToTally(tallies, ballot, weight).value, TallyWeight) == SumBy(tallies, TallyWeight) + weight
  {
    var t, after := TallyOf(tallies, ballot), AddToTally(tallies, ballot, weight).value;
    if t < |tallies| {
      SumByUpdate(tallies, t, after[t], TallyWeight);
    } else {
      SumByAppend(tallies, Tally(t, ballot, weight, 1), TallyWeight);
    }
  }

  /** The incremental update keeps every tally equal to its recount. */
  lemma AddKeepsRecount(votes: seq<Vote>, tallies: seq<Tally>, ballot: Ballot, v: Vote)
    requires AllRecounted(votes, tallies)
    requires forall i :: 0 <= i < |votes| ==> votes[i].ballotIndex < |tallies|
    requires v.ballotIndex == TallyOf(tallies, ballot) && AddToTally(tallies, ballot, v.weight).Ok?
    ensures AllRecounted(votes + [v], AddToTally(tallies, ballot, v.weight).value)
  {
    var after := AddToTally(tallies, ballot, v.weight).value;
    AddKeepsTotal(tallies, ballot, v.weight);
    SumByAppend(votes, v, VoteWeight);
    forall u | 0 <= u < |after|
      ensures Recounted(votes + [v], after[u], u)
    {
      RecountAfterVote(votes, v, u);
      if u < |tallies| {
        assert Recounted(votes, tallies[u], u);
      } else {
        NoVotesFor(votes, u);
      }
    }
  }

  /** When a vote is accepted, leaving aside what it does. */
  ghost predicate Acceptable(b: Box, operator: Pubkey, weatherStatus: nat, weight: nat, slot: nat, validSlots: nat) {
    && IsVotingValid(b, slot, validSlots) == Ok(true)
    && weatherStatus <= RAINY
    && !VotedIn(b.votes, operator)
    && |b.votes| < MAX_OPERATORS
    && (var t := TallyOf(b.tallies, NewBallot(weatherStatus));
        t < |b.tallies| ==> b.tallies[t].weight + weight <= U128_MAX)
  }

  lemma AcceptedExactlyWhen(b: Box, operator: Pubkey, weatherStatus: nat, weight: nat, slot: nat, validSlots: nat)
    requires Consistent(b)
    ensures var r := CastVote(b, operator, NewBallot(weatherStatus), weight, slot, validSlots);
            && (r.Ok? <==> Acceptable(b, operator, weatherStatus, weight, slot, validSlots))
            && r != Err(BallotTallyFull)
  {
    AtMostThreeTallies(b.tallies);
    var t := TallyOf(b.tallies, NewBallot(weatherStatus));
    if t < |b.tallies| {
      TallyWithinVotes(b.votes, t);
      assert Recounted(b.votes, b.tallies[t], t);
    }
  }

  /** A vote is accepted exactly when the window is open, the ballot is proper, the operator
      has not voted, a vote slot is free and the tally's weight does not overflow; the full
      tally array never is the reason for a refusal.  An accepted vote is recorded for its
      ballot, keeps the count consistent and decides nothing by itself. */
  lemma CastVoteSound(b: Box, operator: Pubkey, weatherStatus: nat, weight: nat, slot: nat, validSlots: nat)
    requires Consistent(b) && operator != DEFAULT_KEY
    ensures var r := CastVote(b, operator, NewBallot(weatherStatus), weight, slot, validSlots);
            && (r.Ok? <==> Acceptable(b, operator, weatherStatus, weight, slot, validSlots))
            && r != Err(BallotTallyFull)
            && (r.Ok? ==>
                  && Consistent(r.value) && Extends(b, r.value, operator, weight)
                  && var v := r.value.votes[|b.votes|];
                     && v.slotVoted == slot && v.ballotIndex < |r.value.tallies|
                     && SameBallot(r.value.tallies[v.ballotIndex].ballot, NewBallot(weatherStatus)))
  {
    AcceptedExactlyWhen(b, operator, weatherStatus, weight, slot, validSlots);
    var ballot := NewBallot(weatherStatus);
    if CastVote(b, operator, ballot, weight, slot, validSlots).Ok? {
      AddKeepsOrder(b.tallies, ballot, weight);
      AcceptedVoteIs(b, operator, ballot, weight, slot, validSlots);
      ConsistentAfterVote(b, ballot, Vote(operator, slot, weight, TallyOf(b.tallies, ballot)));
    }
  }

  /** The box after an accepted vote, in one piece. */
  lemma AcceptedVoteIs(b: Box, operator: Pubkey, ballot: Ballot, weight: nat, slot: nat, validSlots: nat)
    requires CastVote(b, operator, ballot, weight, slot, validSlots).Ok?
    requires b.operatorsVoted == |b.votes| && b.uniqueBallots == |b.tallies|
    ensures AddToTally(b.tallies, ballot, weight).Ok?
    ensures var v, tallies := Vote(operator, slot, weight, TallyOf(b.tallies, ballot)), AddToTally(b.tallies, ballot, weight).value;
            CastVote(b, operator, ballot, weight, slot, validSlots).value
              == b.(votes := b.votes + [v], tallies := tallies, operatorsVoted := |b.votes| + 1, uniqueBallots := |tallies|)
  {
  }

  lemma ConsistentAfterVote(b: Box, ballot: Ballot, v: Vote)
    requires Consistent(b) && ballot.isValid && ballot.weatherStatus <= RAINY
    requires v.operator != DEFAULT_KEY && !VotedIn(b.votes, v.operator) && |b.votes| < MAX_OPERATORS
    requires v.ballotIndex == TallyOf(b.tallies, ballot) && AddToTally(b.tallies, ballot, v.weight).Ok?
    ensures var tallies := AddToTally(b.tallies, ballot, v.weight).value;
            var b' := b.(votes := b.votes + [v], tallies := tallies, operatorsVoted := |b.votes| + 1, uniqueBallots := |tallies|);
            Consistent(b') && Extends(b, b', v.operator, v.weight)
  {
    AddKeepsOrder(b.tallies, ballot, v.weight);
    AddKeepsRecount(b.votes, b.tallies, ballot, v);
    if b.winningBallot.isValid {
      TallyOfStable(b.tallies, AddToTally(b.tallies, ballot, v.weight).value, b.winningBallot);
    }
  }

  /** Tallying can only turn an undecided box into one decided by votes: the winner is then
      the heaviest tally, it passed the test, and it holds a strict majority of the total. */
  lemma TallyVotesSound(b: Box, total: nat, slot: nat)
    requires Consistent(b) && slot != NO_SLOT
    ensures var r := TallyVotes(b, total, slot);
            && (r.Ok? <==> b.slotConsensusReached != NO_SLOT || total > 0)
            && (r.Ok? ==>
                  && Consistent(r.value)
                  && (r.value == b ||
                      (&& !IsConsensusReached(b)
                       && r.value == b.(slotConsensusReached := slot, winningBallot := r.value.winningBallot)
                       && GetWinningTally(r.value).Ok?
                       && Threshold.Passes(GetWinningTally(r.value).value.weight, total)
                       && 2 * GetWinningTally(r.value).value.weight > total)))
  {
    if b.slotConsensusReached == NO_SLOT && total > 0 && |b.tallies| > 0 {
      var h := Heaviest(b.tallies);
      Threshold.TwoThirdsPassAndMajorityFollows(b.tallies[h].weight, total);
      WinnerTally(b.tallies, h);
    }
  }

  /** Counting decides exactly when nothing is decided and some ballot passes the test, and it
      then decides for a ballot that no other outweighs. */
  lemma DecidedExactlyWhen(b: Box, total: nat, slot: nat)
    requires TalliesOrdered(b.tallies) && slot != NO_SLOT && total > 0
    ensures TallyVotes(b, total, slot).Ok?
    ensures var b' := TallyVotes(b, total, slot).value;
            && (b' != b <==> !IsConsensusReached(b) && exists t :: 0 <= t < |b.tallies| && Threshold.Passes(b.tallies[t].weight, total))
            && (b' != b ==>
                  && GetWinningTally(b').Ok?
                  && forall t :: 0 <= t < |b.tallies| ==> b.tallies[t].weight <= GetWinningTally(b').value.weight)
  {
    if |b.tallies| > 0 {
      var h := Heaviest(b.tallies);
      WinnerTally(b.tallies, h);
      forall t | 0 <= t < |b.tallies| && Threshold.Passes(b.tallies[t].weight, total)
        ensures Threshold.Passes(b.tallies[h].weight, total)
      {
        Threshold.HeavierPassesToo(b.tallies[t].weight, b.tallies[h].weight, total);
      }
    }
  }

  /** Some operator voted for the ballot. */
  ghost predicate VotedFor(b: Box, ballot: Ballot) {
    exists i :: 0 <= i < |b.votes| && b.votes[i].ballotIndex < |b.tallies| && SameBallot(b.tallies[b.votes[i].ballotIndex].ballot, ballot)
  }

  lemma {:induction false} SomeoneVoted(votes: seq<Vote>, t: nat)
    requires SumBy(votes, CountAt(t)) > 0
    ensures exists i :: 0 <= i < |votes| && votes[i].ballotIndex == t
  {
    var n := |votes| - 1;
    if votes[n].ballotIndex != t {
      SomeoneVoted(votes[..n], t);
      var i :| 0 <= i < n && votes[..n][i].ballotIndex == t;
      assert votes[i].ballotIndex == t;
    }
  }

  /** A ballot has a tally exactly when somebody voted for it. */
  lemma TalliedExactlyWhenVotedFor(b: Box, ballot: Ballot)
    requires Consistent(b)
    ensures VotedFor(b, ballot) <==> TallyOf(b.tallies, ballot) < |b.tallies|
  {
    var t := TallyOf(b.tallies, ballot);
    if t < |b.tallies| {
      assert Recounted(b.votes, b.tallies[t], t);
      SomeoneVoted(b.votes, t);
    }
  }

  lemma WinnerTally(tallies: seq<Tally>, h: nat)
    requires TalliesOrdered(tallies) && h < |tallies|
    ensures TallyOf(tallies, tallies[h].ballot) == h
  {
    assert SameBallot(tallies[h].ballot, tallies[h].ballot);
  }

  /** A tie is broken exactly when nothing is decided, the vote has stalled long enough, and
      the ballot is one that somebody voted for. */
  lemma TieBreakerSound(b: Box, weatherStatus: nat, currentEpoch: nat, epochsBeforeStall: nat)
    requires Consistent(b)
    ensures var r := SetTieBreaker(b, weatherStatus, currentEpoch, epochsBeforeStall);
            && (r.Ok? <==>
                  && !IsConsensusReached(b)
                  && b.epoch + epochsBeforeStall <= U64_MAX && currentEpoch >= b.epoch + epochsBeforeStall
                  && VotedFor(b, NewBallot(weatherStatus)))
            && (r.Ok? ==>
                  && Consistent(r.value) && TieBreakerSet(r.value)
                  && r.value == b.(winningBallot := NewBallot(weatherStatus)))
  {
    TalliedExactlyWhenVotedFor(b, NewBallot(weatherStatus));
  }

  // ---------------------------------------------------------------- runs of the box

  /** The three ways a box changes.  A refused call leaves it alone. */
  datatype Call =
    | Cast(operator: Pubkey, weatherStatus: nat, weight: nat, slot: nat, validSlots: nat)
    | Count(total: nat, slot: nat)
    | BreakTie(weatherStatus: nat, currentEpoch: nat, epochsBeforeStall: nat)

  function Attempt(b: Box, c: Call): Result<Box> {
    match c
    case Cast(operator, weatherStatus, weight, slot, validSlots) =>
      CastVote(b, operator, NewBallot(weatherStatus), weight, slot, validSlots)
    case Count(total, slot) => TallyVotes(b, total, slot)
    case BreakTie(weatherStatus, currentEpoch, epochsBeforeStall) =>
      SetTieBreaker(b, weatherStatus, currentEpoch, epochsBeforeStall)
  }

  function Run(b: Box, calls: seq<Call>): Box {
    if |calls| == 0 then b
    else var b' := Run(b, calls[..|calls| - 1]);
      var r := Attempt(b', calls[|calls| - 1]);
      if r.Ok? then r.value else b'
  }

  /** Operators are proper accounts and slots are below the sentinel. */
  ghost predicate ProperCalls(calls: seq<Call>) {
    forall i :: 0 <= i < |calls| ==>
      && (calls[i].Cast? ==> calls[i].operator != DEFAULT_KEY)
      && (calls[i].Count? ==> calls[i].slot != NO_SLOT)
  }

  /** Over every interleaving of votes, counts and tie breaks: the count equals the recount;
      a winner, once there, never changes and can always be looked up; and the vote list only
      ever grows. */
  lemma {:induction false} EveryRunIsConsistent(b: Box, calls: seq<Call>)
    requires Consistent(b) && ProperCalls(calls)
    ensures Consistent(Run(b, calls))
    ensures b.winningBallot.isValid ==> Run(b, calls).winningBallot == b.winningBallot
    ensures Run(b, calls).winningBallot.isValid ==>
              && GetWinningTally(Run(b, calls)).Ok?
              && SameBallot(GetWinningTally(Run(b, calls)).value.ballot, Run(b, calls).winningBallot)
              && VotedFor(Run(b, calls), Run(b, calls).winningBallot)
    ensures |b.votes| <= |Run(b, calls).votes| && Run(b, calls).votes[..|b.votes|] == b.votes
  {
    if |calls| > 0 {
      var front, last := calls[..|calls| - 1], calls[|calls| - 1];
      EveryRunIsConsistent(b, front);
      var b' := Run(b, front);
      match last
      case Cast(operator, weatherStatus, weight, slot, validSlots) =>
        CastVoteSound(b', operator, weatherStatus, weight, slot, validSlots);
      case Count(total, slot) =>
        TallyVotesSound(b', total, slot);
      case BreakTie(weatherStatus, currentEpoch, epochsBeforeStall) =>
        TieBreakerSound(b', weatherStatus, currentEpoch, epochsBeforeStall);
    }
    var final := Run(b, calls);
    if final.winningBallot.isValid {
      TalliedExactlyWhenVotedFor(final, final.winningBallot);
    }
  }

  /** Agreement: when the votes cast weigh no more than the total, at most one ballot can
      pass the test, and a ballot with a strict majority outweighs every other tally. */
  lemma AtMostOnePasses(b: Box, total: nat, t: nat, u: nat)
    requires Consistent(b) && total > 0 && SumBy(b.votes, VoteWeight) <= total
    requires t < |b.tallies| && u < |b.tallies| && t != u
    ensures Threshold.Passes(b.tallies[t].weight, total) ==> !Threshold.Passes(b.tallies[u].weight, total)
    ensures 2 * b.tallies[t].weight > total ==> b.tallies[u].weight < b.tallies[t].weight
  {
    assert Recounted(b.votes, b.tallies[t], t) && Recounted(b.votes, b.tallies[u], u);
    TalliesDisjoint(b.votes, t, u);
    Threshold.TwoThirdsPassAndMajorityFollows(b.tallies[t].weight, total);
    Threshold.TwoThirdsPassAndMajorityFollows(b.tallies[u].weight, total);
  }
}
