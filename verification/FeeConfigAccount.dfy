/** The fee configuration as it lives inside the NCN's config account: two slots rewritten in
    place.  The update is proved against `FeeSchedule.UpdateFeeConfig`. */
module FeeConfigAccount {
  import opened Base
  import opened FeeSchedule

  class FeeConfigStore {
    var fee1: Fees
    var fee2: Fees
    var ncnWallet: Pubkey

    ghost function View(): FeeConfig
      reads this
    {
      FeeConfig(fee1, fee2, ncnWallet)
    }

    constructor (fees: Fees, wallet: Pubkey)
      ensures View() == FeeConfig(fees, fees, wallet)
    {
      fee1, fee2, ncnWallet := fees, fees, wallet;
    }

    static method Create(wallet: Pubkey, bps: nat, epoch: nat) returns (r: Result<FeeConfigStore>)
      ensures r.Ok? ==> fresh(r.value) && NewFeeConfig(wallet, bps, epoch) == Ok(r.value.View())
      ensures r.Err? ==> NewFeeConfig(wallet, bps, epoch) == Err(r.error)
    {
      if wallet == DEFAULT_KEY {
        return Err(DefaultNcnWallet);
      }
      if bps > MAX_FEE_BPS {
        return Err(FeeCapExceeded);
      }
      var store := new FeeConfigStore(Fees(epoch, PROTOCOL_FEE_BPS, bps), wallet);
      var _ :- store.Check(epoch);
      return Ok(store);
    }

    method Check(epoch: nat) returns (r: Result<()>)
      ensures r == CheckFeesOkay(View(), epoch)
    {
      var fees := if fee1.activationEpoch > epoch then fee2
                  else if fee2.activationEpoch > epoch then fee1
                  else if fee1.activationEpoch >= fee2.activationEpoch then fee1 else fee2;
      if fees.TotalBps() > MAX_FEE_BPS {
        return Err(FeeCapExceeded);
      }
      if fees.TotalBps() == 0 {
        return Err(FeesCannotBeZero);
      }
      return Ok(());
    }

    /** Which slot an update at this epoch writes to; it is asked again before every write. */
    predicate WritesFirst(epoch: nat)
      reads this
      ensures WritesFirst(epoch) == UpdatesFirst(View(), epoch)
    {
      || fee1.activationEpoch > epoch
      || (fee2.activationEpoch <= epoch && fee1.activationEpoch <= fee2.activationEpoch)
    }

    method Write(epoch: nat, fees: Fees)
      modifies this
      ensures View() == WriteUpdatable(old(View()), epoch, fees)
    {
      if WritesFirst(epoch) {
        fee1 := fees;
      } else {
        fee2 := fees;
      }
    }

    method Update(bps: Option<nat>, wallet: Option<Pubkey>, epoch: nat) returns (r: Result<()>)
      modifies this
      ensures r.Ok? ==> UpdateFeeConfig(old(View()), bps, wallet, epoch) == Ok(View())
      ensures r.Err? ==> UpdateFeeConfig(old(View()), bps, wallet, epoch) == Err(r.error)
    {
      var target := if WritesFirst(epoch) then fee1 else fee2;
      if target.activationEpoch <= epoch {
        if fee1.activationEpoch > epoch || fee2.activationEpoch > epoch {
          return Err(FeeNotActive);
        }
        var current := if fee1.activationEpoch >= fee2.activationEpoch then fee1 else fee2;
        Write(epoch, current);
      }
      if bps.Some? {
        if bps.value > MAX_FEE_BPS {
          return Err(FeeCapExceeded);
        }
        var prepared := if WritesFirst(epoch) then fee1 else fee2;
        Write(epoch, prepared.(ncnBps := bps.value));
      }
      if wallet.Some? {
        ncnWallet := wallet.value;
      }
      var next :- CheckedAdd(epoch, 1, U64_MAX);
      var scheduled := if WritesFirst(epoch) then fee1 else fee2;
      Write(epoch, scheduled.(activationEpoch := next));
      var _ :- Check(epoch);
      var _ :- Check(next);
      return Ok(());
    }
  }
}
