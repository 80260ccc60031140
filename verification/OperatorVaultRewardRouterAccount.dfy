/** The operator vault reward router account: counters and a fixed array of 64 vault routes,
    updated in place.  Every method is proved against the router functions of
    `OperatorRouting`. */
module OperatorVaultRewardRouterAccount {
  import opened Base
  import opened RouteLists
  import opened Rounds
  import opened Snapshots
  import opened OperatorRouting
  import opened SnapshotAccounts

  class OperatorVaultRewardRouter {
    var totalRewards: nat
    var rewardPool: nat
    var rewardsProcessed: nat
    var operatorRewards: nat
    var lastRewards: nat
    var lastIndex: nat
    const routes: array<Route>

    /** Counters are 64-bit words and the route array is packed. */
    ghost predicate Valid()
      reads this, routes
    {
      && totalRewards <= U64_MAX && rewardPool <= U64_MAX && rewardsProcessed <= U64_MAX && operatorRewards <= U64_MAX
      && routes.Length == MAX_VAULTS && Packed(routes[..])
    }

    ghost function View(): Router
      reads this, routes
    {
      Router(totalRewards, rewardPool, rewardsProcessed, operatorRewards, lastRewards, lastIndex, Used(routes[..]))
    }

    constructor ()
      ensures Valid() && fresh(routes) && IsNew(View())
    {
      totalRewards, rewardPool, rewardsProcessed, operatorRewards := 0, 0, 0, 0;
      lastRewards, lastIndex := NO_REWARDS, NO_INDEX;
      routes := new Route[MAX_VAULTS](_ => EMPTY_ROUTE);
      new;
      assert routes[..][0].key == DEFAULT_KEY;
    }

    method RouteIncomingRewards(rent: nat, balance: nat) returns (r: Result<()>)
      requires Valid()
      modifies this`totalRewards, this`rewardPool
      ensures r.Ok? ==> Valid() && RouteIncoming(old(View()), rent, balance) == Ok(View())
      ensures r.Err? ==> RouteIncoming(old(View()), rent, balance) == Err(r.error)
    {
      var transit :- CheckedAdd(rewardPool, rewardsProcessed, U64_MAX);
      var incoming :- CheckedSub(balance, transit);
      var rewards :- CheckedSub(incoming, rent);
      if rewards == 0 {
        return Ok(());
      }
      totalRewards :- CheckedAdd(totalRewards, rewards, U64_MAX);
      rewardPool :- CheckedAdd(rewardPool, rewards, U64_MAX);
      return Ok(());
    }

    /** Out of the pool and into the operator's bucket. */
    method RouteToOperator(rewards: nat) returns (r: Result<()>)
      requires Valid()
      modifies this`rewardPool, this`rewardsProcessed, this`operatorRewards
      ensures r.Ok? ==> Valid() && ToOperator(old(View()), rewards) == Ok(View())
      ensures r.Err? ==> ToOperator(old(View()), rewards) == Err(r.error)
    {
      if rewards == 0 {
        return Ok(());
      }
      rewardPool :- CheckedSub(rewardPool, rewards);
      rewardsProcessed :- CheckedAdd(rewardsProcessed, rewards, U64_MAX);
      operatorRewards :- CheckedAdd(operatorRewards, rewards, U64_MAX);
      return Ok(());
    }

    method TakeFee(feeBps: nat) returns (r: Result<()>)
      requires Valid()
      modifies this`rewardPool, this`rewardsProcessed, this`operatorRewards
      ensures r.Ok? ==> Valid() && RouteOperatorFee(old(View()), feeBps) == Ok(View())
      ensures r.Err? ==> RouteOperatorFee(old(View()), feeBps) == Err(r.error)
    {
      var fee :- FeeSplit(feeBps, rewardPool);
      r := RouteToOperator(fee);
    }

    /** One scan looks for the vault's route; a second one for a free slot. */
    method RouteToVault(vault: Pubkey, rewards: nat) returns (r: Result<()>)
      requires Valid() && (rewards > 0 ==> vault != DEFAULT_KEY)
      modifies routes
      ensures r.Ok? ==> Valid() && Credit(old(Used(routes[..])), MAX_VAULTS, vault, rewards) == Ok(Used(routes[..]))
      ensures r.Err? ==> Credit(old(Used(routes[..])), MAX_VAULTS, vault, rewards) == Err(r.error)
    {
      if rewards == 0 {
        return Ok(());
      }
      var i := 0;
      while i < routes.Length
        invariant i <= routes.Length && routes[..] == old(routes[..])
        invariant forall j :: 0 <= j < i ==> routes[j].key != vault
      {
        if routes[i].key == vault {
          var total :- CheckedAdd(routes[i].rewards, rewards, U64_MAX);
          PackedAfterWrite(routes[..], i, Route(vault, total));
          routes[i] := Route(vault, total);
          assert routes[..] == old(routes[..])[i := Route(vault, total)];
          return Ok(());
        }
        i := i + 1;
      }
      assert IndexOf(Used(routes[..]), vault) == UsedLength(routes[..]);
      i := 0;
      while i < routes.Length
        invariant i <= routes.Length && routes[..] == old(routes[..])
        invariant forall j :: 0 <= j < i ==> routes[j].key != DEFAULT_KEY
      {
        if routes[i].key == DEFAULT_KEY {
          PackedAfterWrite(routes[..], i, Route(vault, rewards));
          routes[i] := Route(vault, rewards);
          assert routes[..] == old(routes[..])[i := Route(vault, rewards)];
          return Ok(());
        }
        i := i + 1;
      }
      return Err(RewardListFull);
    }

    method PayVault(e: Entry, stake: nat, rewards: nat) returns (r: Result<()>)
      requires Valid() && (e.vault != DEFAULT_KEY || e.weight == 0)
      modifies this`rewardPool, this`rewardsProcessed, routes
      ensures var a := Allotment(e.vault, VaultShare(e.weight, stake, rewards), true);
              if r.Ok? then Valid() && Pay(RULES, old(AsPurse(View())), a) == Ok(AsPurse(View()))
              else Pay(RULES, old(AsPurse(View())), a) == Err(r.error)
    {
      var share :- VaultShare(e.weight, stake, rewards);
      if share > 0 {
        rewardPool :- CheckedSub(rewardPool, share);
        rewardsProcessed :- CheckedAdd(rewardsProcessed, share, U64_MAX);
      }
      r := RouteToVault(e.vault, share);
    }

    /** The walk over the 64 slots: `Some(i)` when the iterations ran out before slot `i`. */
    method WalkSlots(snapshot: OperatorSnapshotAccount, rewards: nat, start: nat, limit: nat) returns (r: Result<Option<nat>>)
      requires Valid() && snapshot.Valid()
      requires forall i :: 0 <= i < snapshot.registered ==> snapshot.entries[i].vault != DEFAULT_KEY
      modifies this`rewardPool, this`rewardsProcessed, routes
      ensures r.Ok? ==> Valid()
      ensures Pass(RULES, old(AsPurse(View())), Plan(snapshot.View(), rewards), start, 0, limit)
           == match r
              case Ok(None) => Ok(Finished(AsPurse(View())))
              case Ok(Some(i)) => Ok(Paused(AsPurse(View()), i))
              case Err(e) => Err(e)
    {
      ghost var plan := Plan(snapshot.View(), rewards);
      var i, iterations := start, 0;
      while i < snapshot.entries.Length
        invariant Valid() && snapshot.Valid() && snapshot.View() == old(snapshot.View())
        invariant Pass(RULES, old(AsPurse(View())), plan, start, 0, limit) == Pass(RULES, AsPurse(View()), plan, i, iterations, limit)
      {
        iterations := iterations + 1;
        if iterations > limit {
          return Ok(Some(i));
        }
        assert snapshot.entries[i] == Slots(snapshot.View())[i];
        var _ :- PayVault(snapshot.entries[i], snapshot.stake, rewards);
        i := i + 1;
      }
      return Ok(None);
    }

    method RouteToVaults(snapshot: OperatorSnapshotAccount, maxIterations: nat) returns (r: Result<()>)
      requires Valid() && snapshot.Valid()
      requires forall i :: 0 <= i < snapshot.registered ==> snapshot.entries[i].vault != DEFAULT_KEY
      modifies this, routes
      ensures r.Ok? ==> Valid() && RouteRewardPool(old(View()), snapshot.View(), maxIterations) == Ok(View())
      ensures r.Err? ==> RouteRewardPool(old(View()), snapshot.View(), maxIterations) == Err(r.error)
    {
      ghost var s, before := snapshot.View(), View();
      var rewards, start := rewardPool, 0;
      if lastRewards != NO_REWARDS || lastIndex != NO_INDEX {
        rewards, start := lastRewards, lastIndex;
      }
      if rewards == 0 {
        return Ok(());
      }
      var paused :- WalkSlots(snapshot, rewards, start, Max(maxIterations, 1));
      assert snapshot.View() == s;
      assert View() == before.(rewardPool := rewardPool, rewardsProcessed := rewardsProcessed, routes := Used(routes[..]));
      if paused.Some? {
        lastRewards, lastIndex := rewards, paused.value % (U16_MAX + 1);
        return Ok(());
      }
      lastRewards, lastIndex := NO_REWARDS, NO_INDEX;
      r := RouteToOperator(rewardPool);
    }

    /** The routing instruction. */
    method RouteOperatorVaultRewards(rent: nat, balance: nat, snapshot: OperatorSnapshotAccount, maxIterations: nat)
      returns (r: Result<()>)
      requires Valid() && snapshot.Valid()
      requires forall i :: 0 <= i < snapshot.registered ==> snapshot.entries[i].vault != DEFAULT_KEY
      modifies this, routes
      ensures r.Ok? ==> Valid() && RouteRewards(old(View()), rent, balance, snapshot.View(), maxIterations) == Ok(View())
      ensures r.Err? ==> RouteRewards(old(View()), rent, balance, snapshot.View(), maxIterations) == Err(r.error)
    {
      if lastRewards == NO_REWARDS && lastIndex == NO_INDEX {
        var _ :- RouteIncomingRewards(rent, balance);
        var _ :- TakeFee(snapshot.feeBps);
      }
      r := RouteToVaults(snapshot, maxIterations);
    }

    method PayOperator() returns (r: Result<nat>)
      requires Valid()
      modifies this`operatorRewards, this`rewardsProcessed
      ensures r.Ok? ==> Valid() && DistributeOperator(old(View())) == Ok((View(), r.value))
      ensures r.Err? ==> DistributeOperator(old(View())) == Err(r.error)
    {
      if lastRewards != NO_REWARDS || lastIndex != NO_INDEX {
        return Err(RouterStillRouting);
      }
      var rewards := operatorRewards;
      operatorRewards := 0;
      rewardsProcessed :- CheckedSub(rewardsProcessed, rewards);
      return Ok(rewards);
    }

    method PayOutVault(vault: Pubkey) returns (r: Result<nat>)
      requires Valid() && vault != DEFAULT_KEY
      modifies this`rewardsProcessed, routes
      ensures r.Ok? ==> Valid() && DistributeVault(old(View()), vault) == Ok((View(), r.value))
      ensures r.Err? ==> DistributeVault(old(View()), vault) == Err(r.error)
    {
      if lastRewards != NO_REWARDS || lastIndex != NO_INDEX {
        return Err(RouterStillRouting);
      }
      var i := 0;
      while i < routes.Length
        invariant i <= routes.Length
        invariant forall j :: 0 <= j < i ==> routes[j].key != vault
      {
        if routes[i].key == vault {
          var rewards := routes[i].rewards;
          PackedAfterWrite(routes[..], i, Route(vault, 0));
          routes[i] := Route(vault, 0);
          assert routes[..] == old(routes[..])[i := Route(vault, 0)];
          rewardsProcessed :- CheckedSub(rewardsProcessed, rewards);
          return Ok(rewards);
        }
        i := i + 1;
      }
      return Err(RewardNotFound);
    }
  }
}
