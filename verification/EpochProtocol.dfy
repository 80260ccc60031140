/** One epoch from initialization to closing, as a step system over its accounts.  A step is an
    instruction or a clock tick; a refused instruction changes nothing. */
module EpochProtocol {
  import opened Base
  import opened Voting
  import opened Snapshots
  import opened WeightTables
  import opened FeeSchedule
  import E = EpochStates

  /** The published outcome of an epoch's vote. */
  datatype ConsensusResult = ConsensusResult(weatherStatus: nat, voteWeight: nat, totalVoteWeight: nat, consensusSlot: nat)

  const NO_RESULT := ConsensusResult(0, 0, 0, 0)

  function RecordConsensus(c: ConsensusResult, weatherStatus: nat, voteWeight: nat, totalVoteWeight: nat, slot: nat): ConsensusResult {
    if c.consensusSlot != 0 then c.(voteWeight := voteWeight)
    else ConsensusResult(weatherStatus, voteWeight, totalVoteWeight, slot)
  }

  /** A 128-bit weight cast to 64 bits. */
  function AsU64(weight: nat): nat { weight % (U64_MAX + 1) }

  /** What is fixed for the run: timing, the epoch, and the operator key behind each index. */
  datatype Config = Config(timing: E.Timing, epoch: nat, operators: seq<Pubkey>)

  ghost predicate ProperConfig(cfg: Config) {
    && E.Monotone(cfg.timing)
    && |cfg.operators| == MAX_OPERATORS
    && (forall i :: 0 <= i < MAX_OPERATORS ==> cfg.operators[i] != DEFAULT_KEY)
    && (forall i, j :: 0 <= i < j < MAX_OPERATORS ==> cfg.operators[i] != cfg.operators[j])
  }

  /** Large accounts are allocated first and become usable when grown to full size. */
  datatype Account<T> = Absent | Partial | Live(value: T)

  datatype World = World(
    slot: nat,
    marker: bool,
    state: Option<E.EpochState>,
    weights: Account<WeightTable>,
    snapshot: Option<EpochSnapshot>,
    operators: seq<Option<OperatorSnapshot>>,
    box: Account<Box>,
    result: Option<ConsensusResult>,
    router: Account<()>,
    operatorRouters: seq<bool>)

  datatype Target =
    | EpochStateAccount
    | WeightTableAccount
    | EpochSnapshotAccount
    | OperatorSnapshotAccount(i: nat)
    | BallotBoxAccount
    | RouterAccount
    | OperatorRouterAccount(i: nat)

  datatype Instruction =
    | Tick(slot: nat)
    | InitializeEpochState
    | InitializeWeightTable
    | ReallocWeightTable(full: bool, registry: seq<nat>, mintCount: nat)
    | SetWeights(mints: seq<nat>)
    | InitializeEpochSnapshot(operatorCount: nat, fees: Fees)
    | InitializeOperatorSnapshot(i: nat, isActive: bool, feeBps: nat)
    | SnapshotDelegation(i: nat, entry: Entry)
    | InitializeBallotBox
    | ReallocBallotBox(full: bool)
    | CastBallot(i: nat, weatherStatus: nat)
    | SetTieBreakerBallot(weatherStatus: nat)
    | InitializeRouter
    | ReallocRouter(full: bool)
    | InitializeOperatorRouter(i: nat)
    | RouteRewards
    | CloseAccount(target: Target)
    | LoseState

  /** The per-operator arrays have their fixed length. */
  ghost predicate Shaped(w: World) {
    && |w.operators| == MAX_OPERATORS && |w.operatorRouters| == MAX_OPERATORS
    && (w.state.Some? ==>
          && |w.state.value.operatorSnapshots| == MAX_OPERATORS
          && |w.state.value.operatorRouters| == MAX_OPERATORS
          && |w.state.value.operatorProgress| == MAX_OPERATORS)
  }

  // ---------------------------------------------------------------- instructions

  /** What every initializer asks for: the epoch state exists, is not closing, and no marker. */
  function OpenState(w: World): Result<E.EpochState> {
    if w.state.None? then Err(InvalidAccount)
    else if w.state.value.isClosing then Err(EpochIsClosing)
    else if w.marker then Err(MarkerExists)
    else Ok(w.state.value)
  }

  function LoadState(w: World): Result<E.EpochState> {
    if w.state.None? then Err(InvalidAccount) else Ok(w.state.value)
  }

  function Load<T>(a: Account<T>): Result<T> {
    if a.Live? then Ok(a.value) else Err(InvalidAccount)
  }

  function LoadSome<T>(a: Option<T>): Result<T> {
    if a.Some? then Ok(a.value) else Err(InvalidAccount)
  }

  /** Allocation succeeds only where nothing is. */
  function Allocate<T>(a: Account<T>): Result<Account<T>> {
    if a.Absent? then Ok(Partial) else Err(InvalidAccount)
  }

  function DoInitializeEpochState(cfg: Config, w: World): (r: Result<World>)
    requires Shaped(w)
    ensures r.Ok? ==> Shaped(r.value)
  {
    if cfg.epoch > cfg.timing.epochOf(w.slot) || w.state.Some? then Err(InvalidAccount)
    else if w.marker then Err(MarkerExists)
    else Ok(w.(state := Some(E.NewEpochState())))
  }

  function DoReallocWeightTable(w: World, full: bool, registry: seq<nat>, mintCount: nat): (r: Result<World>)
    requires Shaped(w)
    ensures r.Ok? ==> Shaped(r.value)
  {
    var es :- LoadState(w);
    match w.weights
    case Absent => Err(InvalidAccount)
    case Live(_) => Ok(w)
    case Partial =>
      if !full then Ok(w)
      else
        var t :- NewTable(registry, mintCount);
        Ok(w.(weights := Live(t), state := Some(E.OnWeightTable(es, |registry|, mintCount))))
  }

  function DoSetWeights(w: World, mints: seq<nat>): (r: Result<World>)
    requires Shaped(w)
    ensures r.Ok? ==> Shaped(r.value)
  {
    var es :- LoadState(w);
    var t :- Load(w.weights);
    if TableFinalized(t) then Err(WeightTableFinalized)
    else
      var t' :- SetMints(t, mints, w.slot);
      Ok(w.(weights := Live(t'), state := Some(E.OnSetWeight(es, WeightCount(t'), |t'.slotSet|))))
  }

  function DoInitializeEpochSnapshot(w: World, operatorCount: nat, fees: Fees): (r: Result<World>)
    requires Shaped(w)
    ensures r.Ok? ==> Shaped(r.value)
  {
    var es :- OpenState(w);
    var t :- Load(w.weights);
    if w.snapshot.Some? then Err(InvalidAccount)
    else if !TableFinalized(t) then Err(NotFinalized)
    else if operatorCount == 0 then Err(NoOperators)
    else Ok(w.(snapshot := Some(EpochSnapshot(operatorCount, |t.registry|, 0, 0, 0, 0, fees)),
               state := Some(E.OnEpochSnapshot(es, operatorCount))))
  }

  function DoInitializeOperatorSnapshot(w: World, i: nat, isActive: bool, feeBps: nat): (r: Result<World>)
    requires Shaped(w)
    ensures r.Ok? ==> Shaped(r.value)
  {
    var es :- OpenState(w);
    var s :- LoadSome(w.snapshot);
    if i >= MAX_OPERATORS then Err(InvalidAccount)
    else
      var (s', operators) :- AddOperator(s, w.operators, i, isActive, feeBps, w.slot);
      var es' :- E.OnOperatorSnapshot(es, i, isActive);
      Ok(w.(snapshot := Some(s'), operators := operators, state := Some(es')))
  }

  function Registry(t: WeightTable): set<nat> { set i | 0 <= i < |t.registry| :: t.registry[i] }

  function DoSnapshotDelegation(w: World, i: nat, entry: Entry): (r: Result<World>)
    requires Shaped(w)
    ensures r.Ok? ==> Shaped(r.value)
  {
    var es :- LoadState(w);
    var t :- Load(w.weights);
    var s :- LoadSome(w.snapshot);
    if i >= MAX_OPERATORS then Err(InvalidAccount)
    else
      var (s', operators) :- AddDelegation(s, w.operators, Registry(t), i, entry, w.slot);
      var es' :- E.OnDelegation(es, i, operators[i].Some? && Finalized(operators[i].value));
      Ok(w.(snapshot := Some(s'), operators := operators, state := Some(es')))
  }

  function DoInitializeBallotBox(w: World): (r: Result<World>)
    requires Shaped(w)
    ensures r.Ok? ==> Shaped(r.value)
  {
    var _ :- OpenState(w);
    var box :- Allocate(w.box);
    if w.result.Some? then Err(InvalidAccount) else Ok(w.(box := box, result := Some(NO_RESULT)))
  }

  function DoReallocBallotBox(cfg: Config, w: World, full: bool): (r: Result<World>)
    requires Shaped(w)
    ensures r.Ok? ==> Shaped(r.value)
  {
    var es :- LoadState(w);
    match w.box
    case Absent => Err(InvalidAccount)
    case Live(_) => Ok(w)
    case Partial => if !full then Ok(w) else Ok(w.(box := Live(EmptyBox(cfg.epoch)), state := Some(E.OnBallotBox(es))))
  }

  /** Once consensus is reached, every further vote updates the published weight. */
  function Publish(c: ConsensusResult, b: Box, total: nat, slot: nat): Result<ConsensusResult> {
    if !IsConsensusReached(b) then Ok(c)
    else
      var winner :- GetWinningTally(b);
      Ok(RecordConsensus(c, winner.ballot.weatherStatus, AsU64(winner.weight), AsU64(total), slot))
  }

  /** The box after a vote has been cast and counted. */
  function CastAndCount(b: Box, key: Pubkey, weatherStatus: nat, weight: nat, slot: nat, validSlots: nat, total: nat): Result<Box> {
    var b1 :- CastVote(b, key, NewBallot(weatherStatus), weight, slot, validSlots);
    TallyVotes(b1, total, slot)
  }

  function DoCastBallot(cfg: Config, w: World, i: nat, weatherStatus: nat): (r: Result<World>)
    requires ProperConfig(cfg) && Shaped(w)
    ensures r.Ok? ==> Shaped(r.value)
  {
    var es :- LoadState(w);
    var b :- Load(w.box);
    var s :- LoadSome(w.snapshot);
    if i >= MAX_OPERATORS || w.operators[i].None? then Err(InvalidAccount)
    else
      var c :- LoadSome(w.result);
      if !EpochFinalized(s) then Err(NotFinalized)
      else if w.operators[i].value.stake == 0 then Err(CannotVoteWithZeroStake)
      else
        var b' :- CastAndCount(b, cfg.operators[i], weatherStatus, w.operators[i].value.stake, w.slot, cfg.timing.validSlots, s.stake);
        var c' :- Publish(c, b', s.stake, w.slot);
        Ok(w.(box := Live(b'), result := Some(c'),
              state := Some(E.OnCastVote(es, b'.operatorsVoted, IsConsensusReached(b'), w.slot))))
  }

  function DoBreakTie(cfg: Config, w: World, weatherStatus: nat): (r: Result<World>)
    requires Shaped(w)
    ensures r.Ok? ==> Shaped(r.value)
  {
    var es :- LoadState(w);
    var b :- Load(w.box);
    var b' :- SetTieBreaker(b, weatherStatus, cfg.timing.epochOf(w.slot), cfg.timing.epochsBeforeStall);
    Ok(w.(box := Live(b'), state := Some(E.OnTieBreaker(es, IsConsensusReached(b'), w.slot))))
  }

  function DoReallocRouter(w: World, full: bool): (r: Result<World>)
    requires Shaped(w)
    ensures r.Ok? ==> Shaped(r.value)
  {
    var es :- LoadState(w);
    match w.router
    case Absent => Err(InvalidAccount)
    case Live(_) => Ok(w)
    case Partial => if !full then Ok(w) else Ok(w.(router := Live(()), state := Some(es.(ncnRouter := E.CreatedWithReceiver))))
  }

  function DoInitializeOperatorRouter(w: World, i: nat): (r: Result<World>)
    requires Shaped(w)
    ensures r.Ok? ==> Shaped(r.value)
  {
    var es :- OpenState(w);
    if i >= MAX_OPERATORS || w.operators[i].None? || w.operatorRouters[i] then Err(InvalidAccount)
    else Ok(w.(operatorRouters := w.operatorRouters[i := true],
               state := Some(es.(operatorRouters := es.operatorRouters[i := E.CreatedWithReceiver]))))
  }

  /** The routing gate; the router's own books are the business of `RewardFlow`. */
  function DoRouteRewards(cfg: Config, w: World): (r: Result<World>)
    requires Shaped(w)
    ensures r.Ok? ==> Shaped(r.value)
  {
    var _ :- LoadState(w);
    var b :- Load(w.box);
    var _ :- LoadSome(w.snapshot);
    var _ :- Load(w.router);
    var open :- IsVotingValid(b, w.slot, cfg.timing.validSlots);
    if open then Err(VotingIsNotOver) else Ok(w)
  }

  /** Closing marks the epoch as closing, clears the account and records its status; closing
      the epoch state itself needs everything else closed and leaves the marker. */
  function DoClose(cfg: Config, w: World, target: Target): (r: Result<World>)
    requires Shaped(w)
    ensures r.Ok? ==> Shaped(r.value)
  {
    var es :- LoadState(w);
    if w.marker then Err(MarkerExists)
    else
      var ready :- E.CanClose(es, cfg.timing, w.slot);
      if !ready then Err(CannotClose)
      else
        var closing := es.(isClosing := true);
        match target
        case EpochStateAccount =>
          if !E.AreAllClosed(closing) then Err(CannotClose) else Ok(w.(state := None, marker := true))
        case WeightTableAccount =>
          if !w.weights.Live? then Err(InvalidAccount)
          else Ok(w.(weights := Absent, state := Some(closing.(weightTable := E.Closed))))
        case EpochSnapshotAccount =>
          if w.snapshot.None? then Err(InvalidAccount)
          else Ok(w.(snapshot := None, state := Some(closing.(epochSnapshot := E.Closed))))
        case OperatorSnapshotAccount(i) =>
          if i >= MAX_OPERATORS || w.operators[i].None? then Err(InvalidAccount)
          else Ok(w.(operators := w.operators[i := None],
                     state := Some(closing.(operatorSnapshots := closing.operatorSnapshots[i := E.Closed]))))
        case BallotBoxAccount =>
          if !w.box.Live? then Err(InvalidAccount)
          else Ok(w.(box := Absent, state := Some(closing.(ballotBox := E.Closed))))
        case RouterAccount =>
          if !w.router.Live? then Err(InvalidAccount)
          else Ok(w.(router := Absent, state := Some(closing.(ncnRouter := E.Closed))))
        case OperatorRouterAccount(i) =>
          if i >= MAX_OPERATORS || !w.operatorRouters[i] then Err(InvalidAccount)
          else Ok(w.(operatorRouters := w.operatorRouters[i := false],
                     state := Some(closing.(operatorRouters := closing.operatorRouters[i := E.Closed]))))
  }

  /** A closing instruction of another epoch that names this epoch's state as the account to
      close.  The handler checks the other epoch's state in its place, creates no marker, and
      deletes the account it was given; see `CloseElsewhere`. */
  function DoLoseState(w: World): (r: Result<World>)
    requires Shaped(w)
    ensures r.Ok? ==> Shaped(r.value)
  {
    var _ :- LoadState(w);
    Ok(w.(state := None))
  }

  /** That instruction on both epochs: issued in the epoch of `a`, naming the state of `b`. */
  function CloseElsewhere(cfg: Config, a: World, b: World): Result<(World, World)>
    requires Shaped(b)
  {
    var es :- LoadState(a);
    if a.marker then Err(MarkerExists)
    else
      var ready :- E.CanClose(es, cfg.timing, a.slot);
      if !ready then Err(CannotClose)
      else
        var closing := es.(isClosing := true);
        if !E.AreAllClosed(closing) then Err(CannotClose)
        else
          var b' :- DoLoseState(b);
          Ok((a.(state := Some(closing)), b'))
  }

  function Apply(cfg: Config, w: World, ins: Instruction): (r: Result<World>)
    requires ProperConfig(cfg) && Shaped(w)
    ensures r.Ok? ==> Shaped(r.value)
  {
    match ins
    case Tick(slot) => if w.slot <= slot < NO_SLOT then Ok(w.(slot := slot)) else Err(InvalidAccount)
    case InitializeEpochState => DoInitializeEpochState(cfg, w)
    case InitializeWeightTable =>
      var _ :- OpenState(w);
      var weights :- Allocate(w.weights);
      Ok(w.(weights := weights))
    case ReallocWeightTable(full, registry, mintCount) => DoReallocWeightTable(w, full, registry, mintCount)
    case SetWeights(mints) => DoSetWeights(w, mints)
    case InitializeEpochSnapshot(operatorCount, fees) => DoInitializeEpochSnapshot(w, operatorCount, fees)
    case InitializeOperatorSnapshot(i, isActive, feeBps) => DoInitializeOperatorSnapshot(w, i, isActive, feeBps)
    case SnapshotDelegation(i, entry) => DoSnapshotDelegation(w, i, entry)
    case InitializeBallotBox => DoInitializeBallotBox(w)
    case ReallocBallotBox(full) => DoReallocBallotBox(cfg, w, full)
    case CastBallot(i, weatherStatus) => DoCastBallot(cfg, w, i, weatherStatus)
    case SetTieBreakerBallot(weatherStatus) => DoBreakTie(cfg, w, weatherStatus)
    case InitializeRouter =>
      var _ :- OpenState(w);
      var router :- Allocate(w.router);
      Ok(w.(router := router))
    case ReallocRouter(full) => DoReallocRouter(w, full)
    case InitializeOperatorRouter(i) => DoInitializeOperatorRouter(w, i)
    case RouteRewards => DoRouteRewards(cfg, w)
    case CloseAccount(target) => DoClose(cfg, w, target)
    case LoseState => DoLoseState(w)
  }
}
