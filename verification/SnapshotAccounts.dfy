/** The two snapshot accounts, updated in place.  Every method is proved against the functions
    of `Snapshots`. */
module SnapshotAccounts {
  import opened Base
  import opened Snapshots
  import opened FeeSchedule

  class OperatorSnapshotAccount {
    var isActive: bool
    var feeBps: nat
    var delegationCount: nat
    var registered: nat
    var validDelegations: nat
    var stake: nat
    var slotFinalized: nat
    const entries: array<Entry>

    /** Registered entries come first; the other slots are empty. */
    ghost predicate Valid()
      reads this, entries
    {
      && entries.Length == MAX_VAULTS && registered <= MAX_VAULTS
      && (forall i :: registered <= i < MAX_VAULTS ==> entries[i] == EMPTY_ENTRY)
    }

    ghost function View(): OperatorSnapshot
      requires Valid()
      reads this, entries
    {
      OperatorSnapshot(isActive, feeBps, delegationCount, registered, validDelegations, stake, slotFinalized,
                       entries[..registered])
    }

    constructor (isActive: bool, feeBps: nat, delegationCount: nat, slotFinalized: nat)
      ensures Valid() && fresh(entries)
      ensures View() == OperatorSnapshot(isActive, feeBps, delegationCount, 0, 0, 0, slotFinalized, [])
    {
      this.isActive, this.feeBps := isActive, feeBps;
      this.delegationCount, this.slotFinalized := delegationCount, slotFinalized;
      registered, validDelegations, stake := 0, 0, 0;
      entries := new Entry[MAX_VAULTS](_ => EMPTY_ENTRY);
    }

    static method Initialize(isActive: bool, feeBps: nat, vaultCount: nat, slot: nat) returns (r: Result<OperatorSnapshotAccount>)
      ensures r.Ok? ==> fresh(r.value) && r.value.Valid() && NewOperatorSnapshot(isActive, feeBps, vaultCount, slot) == Ok(r.value.View())
      ensures r.Err? ==> NewOperatorSnapshot(isActive, feeBps, vaultCount, slot) == Err(r.error)
    {
      if vaultCount > MAX_VAULTS {
        return Err(TooManyDelegations);
      }
      var slotFinalized := if !isActive then slot else 0;
      var fee := if isActive then feeBps else 0;
      var count := if isActive then vaultCount else 0;
      var account := new OperatorSnapshotAccount(isActive, fee, count, slotFinalized);
      return Ok(account);
    }

    method HasVaultIndex(vaultIndex: nat) returns (found: bool)
      requires Valid()
      ensures found <==> ContainsVaultIndex(View(), vaultIndex)
    {
      var i := 0;
      while i < entries.Length
        invariant i <= entries.Length
        invariant forall j :: 0 <= j < i ==> entries[j].vaultIndex != vaultIndex
      {
        if entries[i].vaultIndex == vaultIndex {
          assert i < registered ==> View().entries[i].vaultIndex == vaultIndex;
          return true;
        }
        i := i + 1;
      }
      assert registered < MAX_VAULTS ==> entries[registered].vaultIndex == NO_VAULT_INDEX;
      return false;
    }

    method RegisterDelegation(slot: nat, e: Entry) returns (r: Result<()>)
      requires Valid()
      modifies this, entries
      ensures r.Ok? ==> Valid() && Register(old(View()), slot, e) == Ok(View())
      ensures r.Err? ==> Register(old(View()), slot, e) == Err(r.error)
    {
      if registered == delegationCount {
        return Err(DelegationsFinalized);
      }
      var next :- CheckedAdd(registered, 1, U64_MAX);
      if next > MAX_VAULTS {
        return Err(TooManyDelegations);
      }
      var found := HasVaultIndex(e.vaultIndex);
      if found {
        return Err(DuplicateDelegation);
      }
      entries[registered] := e;
      registered := next;
      assert entries[..registered] == old(entries[..registered]) + [e];
      if e.weight > 0 {
        validDelegations :- CheckedAdd(validDelegations, 1, U64_MAX);
      }
      stake :- CheckedAdd(stake, e.weight, U128_MAX);
      if registered == delegationCount {
        slotFinalized := slot;
      }
      return Ok(());
    }
  }

  class EpochSnapshotAccount {
    const operatorCount: nat
    const vaultCount: nat
    var operatorsRegistered: nat
    var validDelegations: nat
    var stake: nat
    var slotFinalized: nat
    const fees: Fees

    ghost function View(): EpochSnapshot
      reads this
    {
      EpochSnapshot(operatorCount, vaultCount, operatorsRegistered, validDelegations, stake, slotFinalized, fees)
    }

    constructor (operatorCount: nat, vaultCount: nat, fees: Fees)
      ensures View() == EpochSnapshot(operatorCount, vaultCount, 0, 0, 0, 0, fees)
    {
      this.operatorCount, this.vaultCount, this.fees := operatorCount, vaultCount, fees;
      operatorsRegistered, validDelegations, stake, slotFinalized := 0, 0, 0, 0;
    }

    method Increment(slot: nat, delegations: nat, weight: nat) returns (r: Result<()>)
      modifies this
      ensures r.Ok? ==> RegisterOperator(old(View()), slot, delegations, weight) == Ok(View())
      ensures r.Err? ==> RegisterOperator(old(View()), slot, delegations, weight) == Err(r.error)
    {
      if operatorsRegistered == operatorCount {
        return Err(OperatorFinalized);
      }
      operatorsRegistered :- CheckedAdd(operatorsRegistered, 1, U64_MAX);
      validDelegations :- CheckedAdd(validDelegations, delegations, U64_MAX);
      stake :- CheckedAdd(stake, weight, U128_MAX);
      if operatorsRegistered == operatorCount {
        slotFinalized := slot;
      }
      return Ok(());
    }
  }
}
