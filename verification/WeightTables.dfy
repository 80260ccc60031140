/** The weight table: the epoch's copy of the vault registry, and one weight per mint.  A mint
    counts as weighted once the slot of its first weighting is recorded. */
module WeightTables {
  import opened Base
  import opened Sums

  /** `registry` holds the vault indices of the copied registry entries; `slotSet` the slot in
      which each mint was first weighted, or zero. */
  datatype WeightTable = WeightTable(registry: seq<nat>, slotSet: seq<nat>)

  function IsSet(slotSet: nat): nat { if slotSet > 0 then 1 else 0 }

  function WeightCount(t: WeightTable): nat { SumBy(t.slotSet, IsSet) }

  predicate TableFinalized(t: WeightTable) { |t.slotSet| > 0 && WeightCount(t) == |t.slotSet| }

  /** Copying an empty registry or an empty mint list is refused. */
  function NewTable(registry: seq<nat>, mintCount: nat): Result<WeightTable> {
    if |registry| == 0 || mintCount == 0 then Err(InvalidAccount)
    else Ok(WeightTable(registry, seq(mintCount, _ => 0)))
  }

  function SetMint(t: WeightTable, mint: nat, slot: nat): Result<WeightTable> {
    if mint >= |t.slotSet| then Err(InvalidMint)
    else Ok(t.(slotSet := t.slotSet[mint := if t.slotSet[mint] == 0 then slot else t.slotSet[mint]]))
  }

  function SetMints(t: WeightTable, mints: seq<nat>, slot: nat): Result<WeightTable> {
    if |mints| == 0 then Ok(t)
    else
      var t' :- SetMints(t, mints[..|mints| - 1], slot);
      SetMint(t', mints[|mints| - 1], slot)
  }

  lemma {:induction false} CountWithin(slotSet: seq<nat>)
    ensures SumBy(slotSet, IsSet) <= |slotSet|
  {
    if |slotSet| > 0 {
      CountWithin(slotSet[..|slotSet| - 1]);
    }
  }

  lemma {:induction false} NoneSet(slotSet: seq<nat>)
    requires forall i :: 0 <= i < |slotSet| ==> slotSet[i] == 0
    ensures SumBy(slotSet, IsSet) == 0
  {
    if |slotSet| > 0 {
      NoneSet(slotSet[..|slotSet| - 1]);
    }
  }

  /** Setting weights is accepted exactly when every mint is in the table; a mint that is named and
      had no slot yet gets the current one, and all others keep theirs. */
  lemma {:induction false} SetMintsExactly(t: WeightTable, mints: seq<nat>, slot: nat)
    ensures var r := SetMints(t, mints, slot);
            && (r.Ok? <==> forall k :: 0 <= k < |mints| ==> mints[k] < |t.slotSet|)
            && (r.Ok? ==>
                  && r.value.registry == t.registry && |r.value.slotSet| == |t.slotSet|
                  && forall j :: 0 <= j < |t.slotSet| ==>
                       r.value.slotSet[j] == if t.slotSet[j] == 0 && j in mints then slot else t.slotSet[j])
  {
    if |mints| > 0 {
      var front := mints[..|mints| - 1];
      SetMintsExactly(t, front, slot);
      assert mints == front + [mints[|mints| - 1]];
    }
  }

  /** Weighting mints never takes a weight away, nor changes what is being weighted. */
  lemma {:induction false} SetMintsGrows(t: WeightTable, mints: seq<nat>, slot: nat)
    ensures var r := SetMints(t, mints, slot);
            r.Ok? ==>
              && r.value.registry == t.registry && |r.value.slotSet| == |t.slotSet|
              && WeightCount(t) <= WeightCount(r.value) <= |t.slotSet|
  {
    CountWithin(t.slotSet);
    var r := SetMints(t, mints, slot);
    if |mints| > 0 && r.Ok? {
      SetMintsGrows(t, mints[..|mints| - 1], slot);
      var t', m := SetMints(t, mints[..|mints| - 1], slot).value, mints[|mints| - 1];
      SumByUpdate(t'.slotSet, m, r.value.slotSet[m], IsSet);
      CountWithin(r.value.slotSet);
    }
  }
}
