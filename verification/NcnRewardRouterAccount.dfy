/** The NCN reward router account: counters and a fixed array of 256 operator routes, updated
    in place.  Every method is proved against the router functions of `NcnRouting`. */
module NcnRewardRouterAccount {
  import opened Base
  import opened RouteLists
  import opened Rounds
  import opened Voting
  import opened FeeSchedule
  import opened NcnRouting
  import opened BallotBoxAccount

  /** What becomes of a router whose walk has ended this way. */
  ghost function Conclude(r: Router, outcome: Result<Outcome>, rewards: nat): Result<Router> {
    var o :- outcome;
    match o
    case Paused(p, j) => Ok(Save(r, p, j, rewards))
    case Finished(p) => Settle(r, p)
  }

  class NCNRewardRouter {
    var totalRewards: nat
    var rewardPool: nat
    var rewardsProcessed: nat
    var lastVoteIndex: nat
    var lastRewards: nat
    var protocolRewards: nat
    var ncnRewards: nat
    var operatorVaultRewards: nat
    const routes: array<Route>

    /** Counters are 64-bit words and the route array is packed. */
    ghost predicate Valid()
      reads this, routes
    {
      && totalRewards <= U64_MAX && rewardPool <= U64_MAX && rewardsProcessed <= U64_MAX
      && protocolRewards <= U64_MAX && ncnRewards <= U64_MAX && operatorVaultRewards <= U64_MAX
      && routes.Length == MAX_OPERATORS && Packed(routes[..])
    }

    ghost function View(): Router
      reads this, routes
    {
      Router(totalRewards, rewardPool, rewardsProcessed, lastVoteIndex, lastRewards,
             protocolRewards, ncnRewards, operatorVaultRewards, Used(routes[..]))
    }

    constructor ()
      ensures Valid() && fresh(routes) && IsNew(View())
    {
      totalRewards, rewardPool, rewardsProcessed := 0, 0, 0;
      protocolRewards, ncnRewards, operatorVaultRewards := 0, 0, 0;
      lastVoteIndex, lastRewards := NO_INDEX, NO_REWARDS;
      routes := new Route[MAX_OPERATORS](_ => EMPTY_ROUTE);
      new;
      assert routes[..][0].key == DEFAULT_KEY;
    }

    method RouteIncomingRewards(rent: nat, balance: nat) returns (r: Result<()>)
      requires Valid()
      modifies this`totalRewards, this`rewardPool
      ensures r.Ok? ==> Valid() && RouteIncoming(old(View()), rent, balance) == Ok(View())
      ensures r.Err? ==> RouteIncoming(old(View()), rent, balance) == Err(r.error)
    {
      var transit :- CheckedAdd(rewardPool, rewardsProcessed, U64_MAX);
      var incoming :- CheckedSub(balance, transit);
      var rewards :- CheckedSub(incoming, rent);
      if rewards == 0 {
        return Ok(());
      }
      totalRewards :- CheckedAdd(totalRewards, rewards, U64_MAX);
      rewardPool :- CheckedAdd(rewardPool, rewards, U64_MAX);
      return Ok(());
    }

    method RouteFromRewardPool(rewards: nat) returns (r: Result<()>)
      requires Valid()
      modifies this`rewardPool, this`rewardsProcessed
      ensures r.Ok? ==> Valid() && FromPool(old(View()), rewards) == Ok(View())
      ensures r.Err? ==> FromPool(old(View()), rewards) == Err(r.error)
    {
      if rewards == 0 {
        return Ok(());
      }
      rewardPool :- CheckedSub(rewardPool, rewards);
      rewardsProcessed :- CheckedAdd(rewardsProcessed, rewards, U64_MAX);
      return Ok(());
    }

    method SplitRewardPool(fees: Fees) returns (r: Result<()>)
      requires Valid()
      modifies this
      ensures r.Ok? ==> Valid() && RouteRewardPool(old(View()), fees) == Ok(View())
      ensures r.Err? ==> RouteRewardPool(old(View()), fees) == Err(r.error)
    {
      var rewards := rewardPool;
      var protocolFee :- FeeSplit(fees.protocolBps, rewards);
      var _ :- RouteFromRewardPool(protocolFee);
      protocolRewards :- CheckedAdd(protocolRewards, protocolFee, U64_MAX);
      var ncnFee :- FeeSplit(fees.ncnBps, rewards);
      var _ :- RouteFromRewardPool(ncnFee);
      ncnRewards :- CheckedAdd(ncnRewards, ncnFee, U64_MAX);
      var rest := rewardPool;
      var _ :- RouteFromRewardPool(rest);
      operatorVaultRewards :- CheckedAdd(operatorVaultRewards, rest, U64_MAX);
      return Ok(());
    }

    /** One scan finds the operator's route or the first free slot. */
    method RouteToOperator(operator: Pubkey, rewards: nat) returns (r: Result<()>)
      requires Valid() && operator != DEFAULT_KEY
      modifies routes
      ensures r.Ok? ==> Valid() && Credit(old(Used(routes[..])), MAX_OPERATORS, operator, rewards) == Ok(Used(routes[..]))
      ensures r.Err? ==> Credit(old(Used(routes[..])), MAX_OPERATORS, operator, rewards) == Err(r.error)
    {
      if rewards == 0 {
        return Ok(());
      }
      var i := 0;
      while i < routes.Length
        invariant i <= routes.Length
        invariant routes[..] == old(routes[..])
        invariant forall j :: 0 <= j < i ==> routes[j].key != operator && routes[j].key != DEFAULT_KEY
      {
        assert i <= UsedLength(routes[..]);
        if routes[i].key == operator {
          var total :- CheckedAdd(routes[i].rewards, rewards, U64_MAX);
          PackedAfterWrite(routes[..], i, Route(operator, total));
          routes[i] := Route(operator, total);
          assert routes[..] == old(routes[..])[i := Route(operator, total)];
          return Ok(());
        } else if routes[i].key == DEFAULT_KEY {
          PackedAfterWrite(routes[..], i, Route(operator, rewards));
          routes[i] := Route(operator, rewards);
          assert routes[..] == old(routes[..])[i := Route(operator, rewards)];
          return Ok(());
        }
        i := i + 1;
      }
      return Err(RewardListFull);
    }

    method PayVoter(vote: Vote, winner: Tally, rewards: nat) returns (r: Result<()>)
      requires Valid() && vote.operator != DEFAULT_KEY && vote.ballotIndex == winner.index
      modifies this`operatorVaultRewards, routes
      ensures r.Ok? ==> Valid() && Pay(RULES, old(AsPurse(View())), VoterAllotment(vote, winner, rewards)) == Ok(AsPurse(View()))
      ensures r.Err? ==> Pay(RULES, old(AsPurse(View())), VoterAllotment(vote, winner, rewards)) == Err(r.error)
    {
      var share :- VoterShare(vote.weight, winner.weight, rewards);
      if share > 0 {
        operatorVaultRewards :- CheckedSub(operatorVaultRewards, share);
      }
      r := RouteToOperator(vote.operator, share);
    }

    /** The walk over the votes: `Some(i)` when the iterations ran out before vote `i`. */
    method WalkVotes(box: BallotBox, winner: Tally, rewards: nat, start: nat, limit: nat) returns (r: Result<Option<nat>>)
      requires Valid() && box.Valid() && VotesProper(box.View()) && winner.index < U16_MAX
      modifies this`operatorVaultRewards, routes
      ensures r.Ok? ==> Valid()
      ensures Pass(RULES, old(AsPurse(View())), Plan(box.View().votes, winner, rewards), start, 0, limit)
           == match r
              case Ok(None) => Ok(Finished(AsPurse(View())))
              case Ok(Some(i)) => Ok(Paused(AsPurse(View()), i))
              case Err(e) => Err(e)
    {
      ghost var votes := box.View().votes;
      ghost var plan := Plan(votes, winner, rewards);
      var i, iterations := start, 0;
      while i < box.votes.Length
        invariant Valid() && box.Valid() && box.View().votes == votes
        invariant Pass(RULES, old(AsPurse(View())), plan, start, 0, limit) == Pass(RULES, AsPurse(View()), plan, i, iterations, limit)
      {
        var vote := box.votes[i];
        if vote.ballotIndex == winner.index {
          assert i < |votes| && votes[i] == vote;
          iterations := iterations + 1;
          if iterations > limit {
            return Ok(Some(i));
          }
          var _ :- PayVoter(vote, winner, rewards);
        }
        i := i + 1;
      }
      return Ok(None);
    }

    /** The operator part of the instruction: resume or start, pay winning voters until the
        iterations run out, and settle when everyone has been paid. */
    method RouteToWinners(box: BallotBox, maxIterations: nat) returns (r: Result<()>)
      requires Valid() && box.Valid() && VotesProper(box.View()) && TalliesOrdered(box.View().tallies)
      modifies this, routes
      ensures r.Ok? ==> Valid() && RouteOperatorVaultRewards(old(View()), box.View(), maxIterations) == Ok(View())
      ensures r.Err? ==> RouteOperatorVaultRewards(old(View()), box.View(), maxIterations) == Err(r.error)
    {
      var winner :- box.WinningTally();
      var start, saved := 0, 0;
      if lastVoteIndex != NO_INDEX || lastRewards != NO_REWARDS {
        start, saved := lastVoteIndex, lastRewards;
      }
      var rewards := if saved > 0 then saved else operatorVaultRewards;
      if rewards == 0 {
        return Ok(());
      }
      r := ShareOut(box, winner, rewards, start, Max(maxIterations, 1));
    }

    /** The walk, and then saving or settling. */
    method ShareOut(box: BallotBox, winner: Tally, rewards: nat, start: nat, limit: nat) returns (r: Result<()>)
      requires Valid() && box.Valid() && VotesProper(box.View()) && winner.index < U16_MAX
      modifies this, routes
      ensures var outcome := Pass(RULES, old(AsPurse(View())), old(Plan(box.View().votes, winner, rewards)), start, 0, limit);
              match r
              case Ok(_) => Valid() && Conclude(old(View()), outcome, rewards) == Ok(View())
              case Err(e) => Conclude(old(View()), outcome, rewards) == Err(e)
    {
      ghost var before := View();
      var paused :- WalkVotes(box, winner, rewards, start, limit);
      assert View() == before.(operatorVaultRewards := operatorVaultRewards, routes := Used(routes[..]));
      if paused.Some? {
        lastVoteIndex, lastRewards := paused.value % (U16_MAX + 1), rewards;
        return Ok(());
      }
      r := FinishRound();
    }

    /** The NCN gets the rounding remainder, and the saved state is reset. */
    method FinishRound() returns (r: Result<()>)
      requires Valid()
      modifies this`operatorVaultRewards, this`ncnRewards, this`lastVoteIndex, this`lastRewards
      ensures r.Ok? ==> Valid() && Settle(old(View()), old(AsPurse(View()))) == Ok(View())
      ensures r.Err? ==> Settle(old(View()), old(AsPurse(View()))) == Err(r.error)
    {
      var leftover := operatorVaultRewards;
      operatorVaultRewards := 0;
      ncnRewards :- CheckedAdd(ncnRewards, leftover, U64_MAX);
      lastVoteIndex, lastRewards := NO_INDEX, NO_REWARDS;
      return Ok(());
    }

    /** The routing instruction. */
    method RouteNcnRewards(rent: nat, balance: nat, fees: Fees, box: BallotBox, slot: nat, validSlots: nat, maxIterations: nat)
      returns (r: Result<()>)
      requires Valid() && box.Valid() && VotesProper(box.View()) && TalliesOrdered(box.View().tallies)
      modifies this, routes
      ensures r.Ok? ==> Valid() && RouteInstruction(old(View()), rent, balance, fees, box.View(), slot, validSlots, maxIterations) == Ok(View())
      ensures r.Err? ==> RouteInstruction(old(View()), rent, balance, fees, box.View(), slot, validSlots, maxIterations) == Err(r.error)
    {
      var open :- box.VotingValid(slot, validSlots);
      if open {
        return Err(VotingIsNotOver);
      }
      if lastVoteIndex == NO_INDEX && lastRewards == NO_REWARDS {
        var _ :- RouteIncomingRewards(rent, balance);
        var _ :- SplitRewardPool(fees);
      }
      r := RouteToWinners(box, maxIterations);
    }

    method PayProtocol() returns (r: Result<nat>)
      requires Valid()
      modifies this`protocolRewards, this`rewardsProcessed
      ensures r.Ok? ==> Valid() && DistributeProtocol(old(View())) == Ok((View(), r.value))
      ensures r.Err? ==> DistributeProtocol(old(View())) == Err(r.error)
    {
      if lastVoteIndex != NO_INDEX || lastRewards != NO_REWARDS {
        return Err(RouterStillRouting);
      }
      var rewards := protocolRewards;
      protocolRewards := 0;
      rewardsProcessed :- CheckedSub(rewardsProcessed, rewards);
      return Ok(rewards);
    }

    method PayNcn() returns (r: Result<nat>)
      requires Valid()
      modifies this`ncnRewards, this`rewardsProcessed
      ensures r.Ok? ==> Valid() && DistributeNcn(old(View())) == Ok((View(), r.value))
      ensures r.Err? ==> DistributeNcn(old(View())) == Err(r.error)
    {
      if lastVoteIndex != NO_INDEX || lastRewards != NO_REWARDS {
        return Err(RouterStillRouting);
      }
      var rewards := ncnRewards;
      ncnRewards := 0;
      rewardsProcessed :- CheckedSub(rewardsProcessed, rewards);
      return Ok(rewards);
    }

    method PayOperator(operator: Pubkey) returns (r: Result<nat>)
      requires Valid() && operator != DEFAULT_KEY
      modifies this`rewardsProcessed, routes
      ensures r.Ok? ==> Valid() && DistributeRoute(old(View()), operator) == Ok((View(), r.value))
      ensures r.Err? ==> DistributeRoute(old(View()), operator) == Err(r.error)
    {
      if lastVoteIndex != NO_INDEX || lastRewards != NO_REWARDS {
        return Err(RouterStillRouting);
      }
      var i := 0;
      while i < routes.Length
        invariant i <= routes.Length
        invariant forall j :: 0 <= j < i ==> routes[j].key != operator
      {
        if routes[i].key == operator {
          var rewards := routes[i].rewards;
          PackedAfterWrite(routes[..], i, Route(operator, 0));
          routes[i] := Route(operator, 0);
          assert routes[..] == old(routes[..])[i := Route(operator, 0)];
          rewardsProcessed :- CheckedSub(rewardsProcessed, rewards);
          return Ok(rewards);
        }
        i := i + 1;
      }
      return Err(RewardNotFound);
    }
  }
}
