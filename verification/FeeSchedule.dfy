/** The double-buffered fee configuration: two slots, one in force and one that can be
    prepared for the next epoch, against the unbounded history they stand for. */
module FeeSchedule {
  import opened Base

  const PROTOCOL_FEE_BPS: nat := 400

  datatype Fees = Fees(activationEpoch: nat, protocolBps: nat, ncnBps: nat) {
    function TotalBps(): nat { protocolBps + ncnBps }
  }

  datatype FeeConfig = FeeConfig(fee1: Fees, fee2: Fees, ncnWallet: Pubkey)

  /** The slot that applies in the given epoch. */
  function CurrentFees(c: FeeConfig, epoch: nat): Fees {
    if c.fee1.activationEpoch > epoch then c.fee2
    else if c.fee2.activationEpoch > epoch then c.fee1
    else if c.fee1.activationEpoch >= c.fee2.activationEpoch then c.fee1
    else c.fee2
  }

  /** Whether the slot to be written is the first one. */
  predicate UpdatesFirst(c: FeeConfig, epoch: nat) {
    c.fee1.activationEpoch > epoch ||
    (c.fee2.activationEpoch <= epoch && c.fee1.activationEpoch <= c.fee2.activationEpoch)
  }

  function UpdatableFees(c: FeeConfig, epoch: nat): Fees {
    if UpdatesFirst(c, epoch) then c.fee1 else c.fee2
  }

  function WriteUpdatable(c: FeeConfig, epoch: nat, fees: Fees): FeeConfig {
    if UpdatesFirst(c, epoch) then c.(fee1 := fees) else c.(fee2 := fees)
  }

  function SetFeesToCurrent(c: FeeConfig, epoch: nat): Result<FeeConfig> {
    if c.fee1.activationEpoch > epoch || c.fee2.activationEpoch > epoch then Err(FeeNotActive)
    else Ok(WriteUpdatable(c, epoch, CurrentFees(c, epoch)))
  }

  function SetNcnFee(c: FeeConfig, epoch: nat, bps: nat): Result<FeeConfig> {
    if bps > MAX_FEE_BPS then Err(FeeCapExceeded)
    else Ok(WriteUpdatable(c, epoch, UpdatableFees(c, epoch).(ncnBps := bps)))
  }

  function CheckFeesOkay(c: FeeConfig, epoch: nat): Result<()> {
    var total := CurrentFees(c, epoch).TotalBps();
    if total > MAX_FEE_BPS then Err(FeeCapExceeded)
    else if total == 0 then Err(FeesCannotBeZero)
    else Ok(())
  }

  function NewFeeConfig(wallet: Pubkey, bps: nat, epoch: nat): Result<FeeConfig> {
    if wallet == DEFAULT_KEY then Err(DefaultNcnWallet)
    else if bps > MAX_FEE_BPS then Err(FeeCapExceeded)
    else
      var fees := Fees(epoch, PROTOCOL_FEE_BPS, bps);
      var c := FeeConfig(fees, fees, wallet);
      var _ :- CheckFeesOkay(c, epoch);
      Ok(c)
  }

  /** The whole update.  Note that the writable slot is looked up three times, and that
      copying the fees in force can change the answer in between. */
  function UpdateFeeConfig(c: FeeConfig, bps: Option<nat>, wallet: Option<Pubkey>, epoch: nat): Result<FeeConfig> {
    var c1 :- if UpdatableFees(c, epoch).activationEpoch <= epoch then SetFeesToCurrent(c, epoch) else Ok(c);
    var c2 :- if bps.Some? then SetNcnFee(c1, epoch, bps.value) else Ok(c1);
    var c3 := if wallet.Some? then c2.(ncnWallet := wallet.value) else c2;
    var next :- CheckedAdd(epoch, 1, U64_MAX);
    var c4 := WriteUpdatable(c3, epoch, UpdatableFees(c3, epoch).(activationEpoch := next));
    var _ :- CheckFeesOkay(c4, epoch);
    var _ :- CheckFeesOkay(c4, next);
    Ok(c4)
  }

  // ---------------------------------------------------------------- the history

  /** Every fee ever scheduled, by the epoch it was scheduled for. */
  type History = map<nat, nat>

  /** The latest entry scheduled for `epoch` or earlier: its epoch and its value. */
  function InForce(h: History, epoch: nat): Option<(nat, nat)> {
    if epoch in h then Some((epoch, h[epoch]))
    else if epoch == 0 then None
    else InForce(h, epoch - 1)
  }

  /** An update at `epoch` schedules a value for the next epoch; without a new value it
      renews whatever the next epoch would have had. */
  function Schedule(h: History, bps: Option<nat>, epoch: nat): History {
    var renewed := InForce(h, epoch + 1);
    h[epoch + 1 := if bps.Some? then bps.value else if renewed.Some? then renewed.value.1 else 0]
  }

  lemma {:induction false} InForceIs(h: History, at: nat, epoch: nat)
    requires at in h && at <= epoch
    requires forall k :: at < k <= epoch ==> k !in h
    ensures InForce(h, epoch) == Some((at, h[at]))
  {
    if at < epoch {
      InForceIs(h, at, epoch - 1);
    }
  }

  lemma {:induction false} InForceBound(h: History, epoch: nat)
    ensures InForce(h, epoch).Some? ==> InForce(h, epoch).value.0 <= epoch
  {
    if epoch !in h && epoch > 0 {
      InForceBound(h, epoch - 1);
    }
  }

  function Entry(f: Fees): (nat, nat) { (f.activationEpoch, f.ncnBps) }

  predicate SlotOkay(f: Fees) {
    f.protocolBps == PROTOCOL_FEE_BPS && 1 <= f.TotalBps() <= MAX_FEE_BPS
  }

  /** The two slots are the two latest entries of the history as seen at `now`: the second is
      in force, and the first is it again or comes right after it, at the latest next epoch. */
  ghost predicate Refines(c: FeeConfig, h: History, now: nat) {
    && SlotOkay(c.fee1) && SlotOkay(c.fee2)
    && c.fee1.activationEpoch in h && h[c.fee1.activationEpoch] == c.fee1.ncnBps
    && c.fee2.activationEpoch in h && h[c.fee2.activationEpoch] == c.fee2.ncnBps
    && c.fee2.activationEpoch <= now && c.fee1.activationEpoch <= now + 1
    && (c.fee1 == c.fee2 || c.fee2.activationEpoch < c.fee1.activationEpoch)
    && (forall k :: k in h ==> k <= c.fee2.activationEpoch || k == c.fee1.activationEpoch)
  }

  /** The buffer answers for an epoch with the entry in force if and only if the epoch is not
      before the older slot.  In particular it is right for the present and every later epoch,
      and it is never right for an epoch the buffer has already forgotten. */
  lemma LookupRightExactlyWhen(c: FeeConfig, h: History, now: nat, epoch: nat)
    requires Refines(c, h, now)
    ensures Some(Entry(CurrentFees(c, epoch))) == InForce(h, epoch) <==> c.fee2.activationEpoch <= epoch
    ensures now <= epoch ==> Some(Entry(CurrentFees(c, epoch))) == InForce(h, epoch)
  {
    if c.fee2.activationEpoch <= epoch {
      InForceIs(h, CurrentFees(c, epoch).activationEpoch, epoch);
    } else {
      InForceBound(h, epoch);
    }
  }

  /** What an update does to the slots: the fees in force now move to (or stay in) the second
      slot, and the first slot holds what applies from the next epoch. */
  lemma UpdateExact(c: FeeConfig, h: History, now: nat, epoch: nat, bps: Option<nat>, wallet: Option<Pubkey>)
    requires Refines(c, h, now) && now <= epoch
    ensures var r := UpdateFeeConfig(c, bps, wallet, epoch);
            var next := if bps.Some? then bps.value else CurrentFees(c, epoch + 1).ncnBps;
            && (r.Ok? <==> epoch < U64_MAX && (bps.Some? ==> bps.value + PROTOCOL_FEE_BPS <= MAX_FEE_BPS))
            && (r.Ok? ==> r.value == FeeConfig(Fees(epoch + 1, PROTOCOL_FEE_BPS, next), CurrentFees(c, epoch),
                                               if wallet.Some? then wallet.value else c.ncnWallet))
  {
  }

  /** A single update: accepted exactly when there is a next epoch and the new value fits
      under the cap with the protocol fee; then it is the history's own update, the fees in
      force now stay in force now, and the new value is what applies next epoch. */
  lemma UpdateRefines(c: FeeConfig, h: History, now: nat, epoch: nat, bps: Option<nat>, wallet: Option<Pubkey>)
    requires Refines(c, h, now) && now <= epoch
    ensures var r := UpdateFeeConfig(c, bps, wallet, epoch);
            && (r.Ok? <==> epoch < U64_MAX && (bps.Some? ==> bps.value + PROTOCOL_FEE_BPS <= MAX_FEE_BPS))
            && (r.Ok? ==>
                  && Refines(r.value, Schedule(h, bps, epoch), epoch)
                  && CurrentFees(r.value, epoch) == CurrentFees(c, epoch)
                  && (bps.Some? ==> CurrentFees(r.value, epoch + 1).ncnBps == bps.value)
                  && (bps.None? ==> CurrentFees(r.value, epoch + 1).ncnBps == CurrentFees(c, epoch + 1).ncnBps))
  {
    UpdateExact(c, h, now, epoch, bps, wallet);
    LookupRightExactlyWhen(c, h, now, epoch + 1);
  }

  /** At most one slot waits, for the next epoch, and slots of the same epoch are the same. */
  predicate InSchedule(c: FeeConfig, epoch: nat) {
    && c.fee1.activationEpoch <= epoch + 1 && c.fee2.activationEpoch <= epoch + 1
    && (c.fee1.activationEpoch <= epoch || c.fee2.activationEpoch <= epoch)
    && (c.fee1.activationEpoch == c.fee2.activationEpoch ==> c.fee1 == c.fee2)
  }

  /** The same without a history: an accepted update leaves the present fees alone, schedules the
      next ones, and keeps the schedule. */
  lemma UpdateSchedules(c: FeeConfig, bps: Option<nat>, wallet: Option<Pubkey>, epoch: nat)
    requires InSchedule(c, epoch)
    requires UpdateFeeConfig(c, bps, wallet, epoch).Ok?
    ensures var c' := UpdateFeeConfig(c, bps, wallet, epoch).value;
            && CurrentFees(c', epoch) == CurrentFees(c, epoch)
            && CurrentFees(c', epoch + 1) == Fees(epoch + 1, CurrentFees(c, epoch + 1).protocolBps,
                                                  if bps.Some? then bps.value else CurrentFees(c, epoch + 1).ncnBps)
            && c'.ncnWallet == (if wallet.Some? then wallet.value else c.ncnWallet)
            && InSchedule(c', epoch)
  {
  }

  /** A new configuration is accepted exactly for a proper wallet and a fee under the cap, and has
      the given fee in force in both slots. */
  lemma NewConfigExactly(wallet: Pubkey, bps: nat, epoch: nat)
    ensures var r := NewFeeConfig(wallet, bps, epoch);
            && (r.Ok? <==> wallet != DEFAULT_KEY && bps <= 9_600)
            && (r.Ok? ==> r.value == FeeConfig(Fees(epoch, 400, bps), Fees(epoch, 400, bps), wallet))
  {
  }

  // ---------------------------------------------------------------- runs of updates

  datatype Update = Update(bps: Option<nat>, wallet: Option<Pubkey>, epoch: nat)

  /** Refused updates are rolled back. */
  function RunConfig(c: FeeConfig, us: seq<Update>): FeeConfig {
    if |us| == 0 then c
    else
      var c' := RunConfig(c, us[..|us| - 1]);
      var u := us[|us| - 1];
      var r := UpdateFeeConfig(c', u.bps, u.wallet, u.epoch);
      if r.Ok? then r.value else c'
  }

  predicate Acceptable(u: Update) {
    u.epoch < U64_MAX && (u.bps.Some? ==> u.bps.value + PROTOCOL_FEE_BPS <= MAX_FEE_BPS)
  }

  function RunHistory(h: History, us: seq<Update>): History {
    if |us| == 0 then h
    else
      var h' := RunHistory(h, us[..|us| - 1]);
      var u := us[|us| - 1];
      if Acceptable(u) then Schedule(h', u.bps, u.epoch) else h'
  }

  ghost predicate InOrder(start: nat, us: seq<Update>) {
    && (forall i :: 0 <= i < |us| ==> start <= us[i].epoch)
    && (forall i, j :: 0 <= i < j < |us| ==> us[i].epoch <= us[j].epoch)
  }

  function LastEpoch(start: nat, us: seq<Update>): nat {
    if |us| == 0 then start else us[|us| - 1].epoch
  }

  lemma RefinesLater(c: FeeConfig, h: History, now: nat, later: nat)
    requires Refines(c, h, now) && now <= later
    ensures Refines(c, h, later)
  {
  }

  /** Over every sequence of updates at nondecreasing epochs, starting from a fresh
      configuration, the two slots answer like the unbounded history for the last update's
      epoch and all later ones, and both slots stay within the fee bounds. */
  lemma {:induction false} BufferRefinesHistory(wallet: Pubkey, bps: nat, start: nat, us: seq<Update>, epoch: nat)
    requires NewFeeConfig(wallet, bps, start).Ok? && InOrder(start, us)
    ensures var c := RunConfig(NewFeeConfig(wallet, bps, start).value, us);
            var h := RunHistory(map[start := bps], us);
            && Refines(c, h, LastEpoch(start, us))
            && SlotOkay(c.fee1) && SlotOkay(c.fee2)
            && (epoch >= LastEpoch(start, us) ==> Some(Entry(CurrentFees(c, epoch))) == InForce(h, epoch))
  {
    var c := RunConfig(NewFeeConfig(wallet, bps, start).value, us);
    var h := RunHistory(map[start := bps], us);
    if |us| > 0 {
      var front, u := us[..|us| - 1], us[|us| - 1];
      BufferRefinesHistory(wallet, bps, start, front, epoch);
      var c', h' := RunConfig(NewFeeConfig(wallet, bps, start).value, front), RunHistory(map[start := bps], front);
      UpdateRefines(c', h', LastEpoch(start, front), u.epoch, u.bps, u.wallet);
      if !Acceptable(u) {
        RefinesLater(c', h', LastEpoch(start, front), u.epoch);
      }
    }
    LookupRightExactlyWhen(c, h, LastEpoch(start, us), epoch);
  }

  /** Looking up an old epoch gives the wrong fees: started with 300 at epoch 5, changed to
      500 at epoch 7 and renewed at epoch 9, the buffer answers 500 for epoch 6.  (This is about the
      configuration's own update; no instruction calls it yet.) */
  lemma LookupReadsForgottenEpoch()
    ensures var us := [Update(Some(500), None, 7), Update(None, None, 9)];
            var c := RunConfig(NewFeeConfig(1, 300, 5).value, us);
            var h := RunHistory(map[5 := 300], us);
            && NewFeeConfig(1, 300, 5).Ok? && InOrder(5, us)
            && InForce(h, 6) == Some((5, 300))
            && CurrentFees(c, 6).ncnBps == 500
  {
    var u1, u2 := Update(Some(500), None, 7), Update(None, None, 9);
    var us := [u1, u2];
    var c0, h0: History := NewFeeConfig(1, 300, 5).value, map[5 := 300];
    assert us[..1] == [u1] && [u1][..0] == [];
    assert RunConfig(c0, []) == c0 && RunHistory(h0, []) == h0;
    var h1 := Schedule(h0, Some(500), 7);
    assert RunHistory(h0, [u1]) == h1;
    var h2 := Schedule(h1, None, 9);
    assert RunHistory(h0, us) == h2;
    InForceIs(h2, 5, 6);
  }
}
