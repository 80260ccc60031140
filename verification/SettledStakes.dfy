/** Stakes settle for good once the epoch snapshot is finished. */
module SettledStakes {
  import opened Base
  import opened Snapshots
  import opened EpochProtocol
  import opened EpochInvariant
  import T = EpochTheorems

  /** Stakes are settled: the epoch snapshot is finished, or its epoch is closing or closed. */
  ghost predicate Settled(w: World) {
    || w.marker
    || (w.state.Some? && (w.state.value.isClosing || (w.snapshot.Some? && EpochFinalized(w.snapshot.value))))
  }

  /** An account that is either as it was or gone. */
  ghost predicate SameOrGone<T>(before: Option<T>, after: Option<T>) {
    after == before || after.None?
  }

  ghost predicate StakesKept(w: World, w': World)
    requires |w.operators| == |w'.operators| == MAX_OPERATORS
  {
    && Settled(w') && SameOrGone(w.snapshot, w'.snapshot)
    && (forall i :: 0 <= i < MAX_OPERATORS ==> SameOrGone(w.operators[i], w'.operators[i]))
  }

  /** Instructions that touch no snapshot. */
  lemma OthersKeepStakes(cfg: Config, w: World, ins: Instruction)
    requires ProperConfig(cfg) && Shaped(w) && (w.marker ==> w.state.None?) && Settled(w) && Apply(cfg, w, ins).Ok?
    requires !ins.InitializeEpochSnapshot? && !ins.InitializeOperatorSnapshot? && !ins.SnapshotDelegation? && !ins.CloseAccount? && !ins.LoseState?
    ensures var w' := Apply(cfg, w, ins).value;
            w'.snapshot == w.snapshot && w'.operators == w.operators && Settled(w')
  {
  }

  lemma CloseKeepsStakes(cfg: Config, w: World, target: Target)
    requires ProperConfig(cfg) && Shaped(w) && Settled(w) && Apply(cfg, w, CloseAccount(target)).Ok?
    ensures var w' := Apply(cfg, w, CloseAccount(target)).value;
            |w'.operators| == MAX_OPERATORS && StakesKept(w, w')
  {
  }

  /** A finished snapshot accepts no further operator and no further delegation. */
  lemma SettledRefuses(cfg: Config, w: World, ins: Instruction)
    requires Inv(cfg, w) && Settled(w)
    requires ins.InitializeEpochSnapshot? || ins.InitializeOperatorSnapshot? || ins.SnapshotDelegation?
    ensures Apply(cfg, w, ins).Err?
  {
    if Apply(cfg, w, ins).Ok? && w.snapshot.Some? && !w.state.value.isClosing {
      var registry := Registry(w.weights.value);
      RegistrySize(w.weights.value.registry);
      if ins.InitializeOperatorSnapshot? {
        AddOperatorSound(w.snapshot.value, w.operators, registry, ins.i, ins.isActive, ins.feeBps, w.slot);
      } else if ins.SnapshotDelegation? {
        AddDelegationSound(w.snapshot.value, w.operators, registry, ins.i, ins.entry, w.slot);
      }
    }
  }

  lemma StakesStep(cfg: Config, w: World, ins: Instruction)
    requires Inv(cfg, w) && Settled(w) && Apply(cfg, w, ins).Ok? && !ins.LoseState?
    ensures StakesKept(w, Apply(cfg, w, ins).value)
  {
    if ins.InitializeEpochSnapshot? || ins.InitializeOperatorSnapshot? || ins.SnapshotDelegation? {
      SettledRefuses(cfg, w, ins);
    } else if ins.CloseAccount? {
      CloseKeepsStakes(cfg, w, ins.target);
    } else {
      OthersKeepStakes(cfg, w, ins);
    }
  }

  /** Once stakes are settled they never change again: along any run of own closes every snapshot is what it
      was until it is closed. */
  lemma {:induction false} SettledStakesAreFrozen(cfg: Config, w: World, run: seq<Instruction>)
    requires Inv(cfg, w) && T.ProperRun(run) && T.OwnCloses(cfg, w, run) && Settled(w)
    ensures StakesKept(w, T.Run(cfg, w, run))
  {
    if |run| > 0 {
      var front, ins := run[..|run| - 1], run[|run| - 1];
      SettledStakesAreFrozen(cfg, w, front);
      T.RunKeeps(cfg, w, front);
      var m := T.Run(cfg, w, front);
      if Apply(cfg, m, ins).Ok? {
        StakesStep(cfg, m, ins);
      }
    }
  }
}
