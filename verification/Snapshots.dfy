/** Stake snapshots.  An operator snapshot collects one entry per registered vault and keeps a
    running stake sum; the epoch snapshot counts finished operators and sums their stakes. */
module Snapshots {
  import opened Base
  import opened Sums
  import opened FeeSchedule

  const NO_VAULT_INDEX: nat := U64_MAX

  /** A vault's delegation to the operator, as weighed by the epoch's weight table. */
  datatype Entry = Entry(vault: Pubkey, vaultIndex: nat, weight: nat)

  const EMPTY_ENTRY := Entry(DEFAULT_KEY, NO_VAULT_INDEX, 0)

  /** `entries` is the used part of the account's 64 slots. */
  datatype OperatorSnapshot = OperatorSnapshot(
    isActive: bool,
    feeBps: nat,
    delegationCount: nat,
    registered: nat,
    validDelegations: nat,
    stake: nat,
    slotFinalized: nat,
    entries: seq<Entry>)

  /** An inactive operator starts out finished: it has no fee and nothing to register. */
  function NewOperatorSnapshot(isActive: bool, feeBps: nat, vaultCount: nat, slot: nat): Result<OperatorSnapshot> {
    if vaultCount > MAX_VAULTS then Err(TooManyDelegations)
    else if isActive then Ok(OperatorSnapshot(true, feeBps, vaultCount, 0, 0, 0, 0, []))
    else Ok(OperatorSnapshot(false, 0, 0, 0, 0, 0, slot, []))
  }

  predicate Finalized(s: OperatorSnapshot) { s.registered == s.delegationCount }

  /** All 64 slots are searched, so the empty slots' index counts as taken while any is free. */
  predicate ContainsVaultIndex(s: OperatorSnapshot, vaultIndex: nat) {
    || (exists i :: 0 <= i < |s.entries| && s.entries[i].vaultIndex == vaultIndex)
    || (vaultIndex == NO_VAULT_INDEX && |s.entries| < MAX_VAULTS)
  }

  function Register(s: OperatorSnapshot, slot: nat, e: Entry): Result<OperatorSnapshot> {
    if Finalized(s) then Err(DelegationsFinalized)
    else
      var registered :- CheckedAdd(s.registered, 1, U64_MAX);
      if registered > MAX_VAULTS then Err(TooManyDelegations)
      else if ContainsVaultIndex(s, e.vaultIndex) then Err(DuplicateDelegation)
      else
        var valid :- if e.weight > 0 then CheckedAdd(s.validDelegations, 1, U64_MAX) else Ok(s.validDelegations);
        var stake :- CheckedAdd(s.stake, e.weight, U128_MAX);
        Ok(s.(entries := s.entries + [e], registered := registered, validDelegations := valid, stake := stake,
              slotFinalized := if registered == s.delegationCount then slot else s.slotFinalized))
  }

  datatype EpochSnapshot = EpochSnapshot(
    operatorCount: nat,
    vaultCount: nat,
    operatorsRegistered: nat,
    validDelegations: nat,
    stake: nat,
    slotFinalized: nat,
    fees: Fees)

  predicate EpochFinalized(s: EpochSnapshot) { s.operatorsRegistered == s.operatorCount }

  function RegisterOperator(s: EpochSnapshot, slot: nat, validDelegations: nat, stake: nat): Result<EpochSnapshot> {
    if EpochFinalized(s) then Err(OperatorFinalized)
    else
      var registered :- CheckedAdd(s.operatorsRegistered, 1, U64_MAX);
      var valid :- CheckedAdd(s.validDelegations, validDelegations, U64_MAX);
      var total :- CheckedAdd(s.stake, stake, U128_MAX);
      Ok(s.(operatorsRegistered := registered, validDelegations := valid, stake := total,
            slotFinalized := if registered == s.operatorCount then slot else s.slotFinalized))
  }

  // ---------------------------------------------------------------- one operator

  function EntryWeight(e: Entry): nat { e.weight }

  /** The snapshot against its own entries: counters and sums agree with the list, and the
      vaults are distinct members of the registry. */
  ghost predicate Accounted(s: OperatorSnapshot, registry: set<nat>) {
    && s.registered == |s.entries| <= s.delegationCount <= MAX_VAULTS
    && s.stake == SumBy(s.entries, EntryWeight) <= U128_MAX
    && s.validDelegations == SumBy(s.entries, PresenceBy(EntryWeight)) <= |s.entries|
    && (forall i :: 0 <= i < |s.entries| ==> s.entries[i].vaultIndex in registry)
    && (forall i, j :: 0 <= i < j < |s.entries| ==> s.entries[i].vaultIndex != s.entries[j].vaultIndex)
    && (s.isActive ==> s.delegationCount == |registry|)
    && (!s.isActive ==> s.delegationCount == 0)
  }

  lemma NewIsAccounted(isActive: bool, feeBps: nat, registry: set<nat>, slot: nat)
    ensures var r := NewOperatorSnapshot(isActive, feeBps, |registry|, slot);
            && (r.Ok? <==> |registry| <= MAX_VAULTS)
            && (r.Ok? ==>
                  && Accounted(r.value, registry) && r.value.stake == 0 && r.value.entries == [] && r.value.isActive == isActive
                  && r.value.feeBps == (if isActive then feeBps else 0)
                  && r.value.slotFinalized == (if isActive then 0 else slot)
                  && (Finalized(r.value) <==> !isActive || registry == {}))
  {
  }

  /** A delegation of a registry vault is accepted exactly when the snapshot is unfinished, the
      vault is new to it and the stake sum does not overflow; it keeps the books right. */
  lemma RegisterSound(s: OperatorSnapshot, slot: nat, e: Entry, registry: set<nat>)
    requires Accounted(s, registry) && e.vaultIndex in registry && e.vaultIndex != NO_VAULT_INDEX
    ensures var r := Register(s, slot, e);
            && (r.Ok? <==>
                  && !Finalized(s)
                  && (forall i :: 0 <= i < |s.entries| ==> s.entries[i].vaultIndex != e.vaultIndex)
                  && s.stake + e.weight <= U128_MAX)
            && (r.Ok? ==>
                  && Accounted(r.value, registry) && r.value.stake == s.stake + e.weight && r.value.isActive == s.isActive
                  && r.value.slotFinalized == if |r.value.entries| == s.delegationCount then slot else s.slotFinalized)
  {
    SumByAppend(s.entries, e, EntryWeight);
    SumByAppend(s.entries, e, PresenceBy(EntryWeight));
  }

  /** A finished snapshot of an active operator covers every registry vault exactly once. */
  lemma FinishedCoversRegistry(s: OperatorSnapshot, registry: set<nat>)
    requires Accounted(s, registry) && s.isActive && Finalized(s)
    ensures forall v :: v in registry <==> exists i :: 0 <= i < |s.entries| && s.entries[i].vaultIndex == v
    ensures forall i, j :: 0 <= i < j < |s.entries| ==> s.entries[i].vaultIndex != s.entries[j].vaultIndex
    ensures s.stake == SumBy(s.entries, EntryWeight)
  {
    var indices := seq(|s.entries|, i requires 0 <= i < |s.entries| => s.entries[i].vaultIndex);
    DistinctFits(indices, registry);
    forall v | v in registry
      ensures exists i :: 0 <= i < |s.entries| && s.entries[i].vaultIndex == v
    {
      assert v in indices;
      var i :| 0 <= i < |indices| && indices[i] == v;
      assert s.entries[i].vaultIndex == v;
    }
  }

  // ---------------------------------------------------------------- all operators

  /** What a slot of the operator list adds to the epoch snapshot's counter and sum: nothing
      until its operator has finished. */
  function FinishedCount(s: Option<OperatorSnapshot>): nat {
    if s.Some? && Finalized(s.value) then 1 else 0
  }

  function FinishedStake(s: Option<OperatorSnapshot>): nat {
    if s.Some? && Finalized(s.value) then s.value.stake else 0
  }

  function FinishedDelegations(s: Option<OperatorSnapshot>): nat {
    if s.Some? && Finalized(s.value) then s.value.validDelegations else 0
  }

  /** The epoch snapshot against the operators' snapshots. */
  ghost predicate EpochAccounted(es: EpochSnapshot, operators: seq<Option<OperatorSnapshot>>, registry: set<nat>) {
    && es.vaultCount == |registry| && es.operatorsRegistered <= es.operatorCount <= U64_MAX
    && es.operatorsRegistered == SumBy(operators, FinishedCount)
    && es.stake == SumBy(operators, FinishedStake)
    && es.validDelegations == SumBy(operators, FinishedDelegations)
    && (forall i :: 0 <= i < |operators| && operators[i].Some? ==> i < es.operatorCount && Accounted(operators[i].value, registry))
  }

  lemma {:induction false} FinishedAtMost(operators: seq<Option<OperatorSnapshot>>, n: nat)
    requires forall i :: n <= i < |operators| ==> operators[i].None?
    ensures SumBy(operators, FinishedCount) <= n
    ensures SumBy(operators, FinishedCount) == n ==>
              n <= |operators| && forall i :: 0 <= i < n ==> operators[i].Some? && Finalized(operators[i].value)
  {
    var m := |operators|;
    if m > n {
      FinishedAtMost(operators[..m - 1], n);
      assert operators[m - 1].None?;
    } else if m > 0 {
      FinishedAtMost(operators[..m - 1], m - 1);
    }
  }

  /** The second pigeonhole: a finished epoch snapshot has every operator's snapshot, all of
      them finished, and its total is the sum of all their stakes. */
  lemma FinishedEpochCountsEveryone(es: EpochSnapshot, operators: seq<Option<OperatorSnapshot>>, registry: set<nat>)
    requires EpochAccounted(es, operators, registry) && EpochFinalized(es)
    ensures es.operatorCount <= |operators|
    ensures forall i :: 0 <= i < |operators| ==> (operators[i].Some? <==> i < es.operatorCount)
    ensures forall i :: 0 <= i < es.operatorCount ==> Finalized(operators[i].value)
    ensures es.stake == SumBy(operators, FinishedStake)
  {
    FinishedAtMost(operators, es.operatorCount);
  }

  /** Replacing one slot of the operator list changes the sums by that slot alone. */
  lemma SlotReplaced(operators: seq<Option<OperatorSnapshot>>, i: nat, s: Option<OperatorSnapshot>)
    requires i < |operators|
    ensures SumBy(operators[i := s], FinishedCount) + FinishedCount(operators[i]) == SumBy(operators, FinishedCount) + FinishedCount(s)
    ensures SumBy(operators[i := s], FinishedStake) + FinishedStake(operators[i]) == SumBy(operators, FinishedStake) + FinishedStake(s)
    ensures SumBy(operators[i := s], FinishedDelegations) + FinishedDelegations(operators[i])
         == SumBy(operators, FinishedDelegations) + FinishedDelegations(s)
  {
    SumByUpdate(operators, i, s, FinishedCount);
    SumByUpdate(operators, i, s, FinishedStake);
    SumByUpdate(operators, i, s, FinishedDelegations);
  }

  // ---------------------------------------------------------------- the two instructions

  /** `initialize_operator_snapshot`: an inactive operator is counted at once. */
  function AddOperator(es: EpochSnapshot, operators: seq<Option<OperatorSnapshot>>, i: nat, isActive: bool, feeBps: nat, slot: nat)
    : Result<(EpochSnapshot, seq<Option<OperatorSnapshot>>)>
  {
    if i >= es.operatorCount then Err(OperatorNotInSnapshot)
    else if i >= |operators| || operators[i].Some? then Err(InvalidAccount)
    else
      var s :- NewOperatorSnapshot(isActive, feeBps, es.vaultCount, slot);
      var es' :- if isActive then Ok(es) else RegisterOperator(es, slot, 0, 0);
      Ok((es', operators[i := Some(s)]))
  }

  /** `snapshot_vault_operator_delegation`: the delegation that finishes an operator also adds
      the operator to the epoch snapshot. */
  function AddDelegation(es: EpochSnapshot, operators: seq<Option<OperatorSnapshot>>, registry: set<nat>, i: nat, e: Entry, slot: nat)
    : Result<(EpochSnapshot, seq<Option<OperatorSnapshot>>)>
  {
    if i >= |operators| || operators[i].None? then Err(InvalidAccount)
    else if e.vaultIndex == NO_VAULT_INDEX || e.vaultIndex !in registry then Err(VaultNotInRegistry)
    else
      var s :- Register(operators[i].value, slot, e);
      var es' :- if Finalized(s) then RegisterOperator(es, slot, s.validDelegations, s.stake) else Ok(es);
      Ok((es', operators[i := Some(s)]))
  }

  lemma AddOperatorSound(es: EpochSnapshot, operators: seq<Option<OperatorSnapshot>>, registry: set<nat>,
                         i: nat, isActive: bool, feeBps: nat, slot: nat)
    requires EpochAccounted(es, operators, registry) && registry != {}
    ensures var r := AddOperator(es, operators, i, isActive, feeBps, slot);
            r.Ok? ==>
              && EpochAccounted(r.value.0, r.value.1, registry)
              && !EpochFinalized(es)
              && r.value.0.operatorCount == es.operatorCount && r.value.0.vaultCount == es.vaultCount && r.value.0.fees == es.fees
              && r.value.0.operatorsRegistered == es.operatorsRegistered + (if isActive then 0 else 1)
              && i < |operators| && operators[i].None? && r.value.1[i].Some? && r.value.1 == operators[i := r.value.1[i]]
              && r.value.1[i].value.isActive == isActive && r.value.1[i].value.entries == []
              && r.value.1[i].value.feeBps == (if isActive then feeBps else 0)
              && r.value.1[i].value.slotFinalized == (if isActive then 0 else slot)
              && r.value.0.slotFinalized == (if EpochFinalized(r.value.0) then slot else es.slotFinalized)
  {
    var r := AddOperator(es, operators, i, isActive, feeBps, slot);
    if r.Ok? {
      if EpochFinalized(es) {
        FinishedAtMost(operators, es.operatorCount);
      }
      NewIsAccounted(isActive, feeBps, registry, slot);
      SlotReplaced(operators, i, r.value.1[i]);
    }
  }

  /** An operator is added for no other reason than a free place in its own slot: the epoch
      snapshot has a place for it, nothing is there yet, and the counters take the zeros that an
      inactive operator adds. */
  lemma OperatorAcceptedExactlyWhen(es: EpochSnapshot, operators: seq<Option<OperatorSnapshot>>, registry: set<nat>,
                                    i: nat, isActive: bool, feeBps: nat, slot: nat)
    requires EpochAccounted(es, operators, registry)
    ensures AddOperator(es, operators, i, isActive, feeBps, slot).Ok? <==>
              && i < es.operatorCount && i < |operators| && operators[i].None? && |registry| <= MAX_VAULTS
              && (!isActive ==> es.validDelegations <= U64_MAX && es.stake <= U128_MAX)
  {
    if i < es.operatorCount && i < |operators| && operators[i].None? && EpochFinalized(es) {
      FinishedAtMost(operators, es.operatorCount);
    }
  }

  lemma AddDelegationSound(es: EpochSnapshot, operators: seq<Option<OperatorSnapshot>>, registry: set<nat>, i: nat, e: Entry, slot: nat)
    requires EpochAccounted(es, operators, registry)
    ensures var r := AddDelegation(es, operators, registry, i, e, slot);
            r.Ok? ==>
              && EpochAccounted(r.value.0, r.value.1, registry)
              && !EpochFinalized(es)
              && r.value.0.operatorCount == es.operatorCount && r.value.0.vaultCount == es.vaultCount && r.value.0.fees == es.fees
              && r.value.1[i].Some? && r.value.1 == operators[i := r.value.1[i]]
              && r.value.1[i].value.entries == operators[i].value.entries + [e]
              && r.value.1[i].value == operators[i].value.(
                   entries := r.value.1[i].value.entries, registered := |r.value.1[i].value.entries|,
                   stake := operators[i].value.stake + e.weight, validDelegations := r.value.1[i].value.validDelegations,
                   slotFinalized := if Finalized(r.value.1[i].value) then slot else operators[i].value.slotFinalized)
              && r.value.0.slotFinalized == (if EpochFinalized(r.value.0) then slot else es.slotFinalized)
              && r.value.0.operatorsRegistered == es.operatorsRegistered + (if Finalized(r.value.1[i].value) then 1 else 0)
  {
    var r := AddDelegation(es, operators, registry, i, e, slot);
    if r.Ok? {
      if EpochFinalized(es) {
        FinishedAtMost(operators, es.operatorCount);
      }
      RegisterSound(operators[i].value, slot, e, registry);
      SlotReplaced(operators, i, r.value.1[i]);
    }
  }

  /** A delegation is refused for no other reasons than these: no such operator, a vault outside
      the registry or already counted, a finished operator, or a sum that would overflow. */
  lemma DelegationAcceptedExactlyWhen(es: EpochSnapshot, operators: seq<Option<OperatorSnapshot>>, registry: set<nat>, i: nat, e: Entry, slot: nat)
    requires EpochAccounted(es, operators, registry) && NO_VAULT_INDEX !in registry
    ensures AddDelegation(es, operators, registry, i, e, slot).Ok? <==>
              && i < |operators| && operators[i].Some? && e.vaultIndex in registry
              && var s := operators[i].value;
                 && !Finalized(s) && s.stake + e.weight <= U128_MAX
                 && (forall j :: 0 <= j < |s.entries| ==> s.entries[j].vaultIndex != e.vaultIndex)
                 && (s.registered + 1 == s.delegationCount ==>
                       && es.stake + s.stake + e.weight <= U128_MAX
                       && es.validDelegations + s.validDelegations + (if e.weight > 0 then 1 else 0) <= U64_MAX)
  {
    if i < |operators| && operators[i].Some? && e.vaultIndex in registry {
      RegisterSound(operators[i].value, slot, e, registry);
      if EpochFinalized(es) {
        FinishedAtMost(operators, es.operatorCount);
      }
    }
  }
}
