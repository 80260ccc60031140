# The NCN epoch protocol, modelled and proved

The NCN program runs one protocol per epoch. Stake is snapshotted operator by operator, operators vote on the
weather with that stake, a two-thirds majority (or a tie breaker) decides, and the rewards that arrive at the NCN's
receiver are then shared out in two tiers: to the protocol, the NCN and the winning operators, and from each operator
to itself and its vaults. Routing can stop after any number of parties and go on in a later transaction. When the
epoch is over its accounts are closed, and a marker keeps it from being opened again.

This project models those parts and proves what they promise together:

* **The reward tiers** conserve lamports over every run of the whole system, whatever they read. Every reward
  instruction is refused exactly for listed reasons, none of them an underflow in a router, a receiver's lack of lamports
  or a full list. A routing round, with anything at all between its calls, goes on as long as the accounts it reads
  exist, and if it ends, it ends in exactly the state one uninterrupted pass would have left. (The two moves that these
  results exclude are named below; conservation excludes none.)
* **The vote** keeps its incremental tallies equal to a recount, can pass at most one ballot, and never revises a
  decision; once routing has been accepted no vote is accepted any more.
* **The snapshots** count every registered vault and every operator exactly once.
* **The epoch state** mirrors the accounts it reports on for as long as no close from another epoch takes the state away
  while the epoch has accounts. Under that condition its phase never moves back exactly when the epoch does not lose its
  state at a later phase than the first and get a new one. A closed epoch stays closed.
* **The fee buffer**, two slots, answers like the unbounded history of fees, exactly as far back as its older slot.

## How it is built

Operations are functions from account values to `Result` of account values; an error means that the transaction is
rolled back. Accounts that the program updates in place are classes over fixed-size arrays
(`BallotBoxAccount`, `NcnRewardRouterAccount`, `OperatorVaultRewardRouterAccount`, `SnapshotAccounts`,
`EpochStateAccount`, `FeeConfigAccount`, `Instructions`), and each of their methods is proved to do what the function
says, errors included; a class's `View()` is the value it stands for, with slot arrays read as their used prefix.
Everything about whole runs is proved on the values.

| file | contents |
|---|---|
| `Base`, `Sums` | results, checked arithmetic, pigeonhole; sums and floored shares |
| `RouteLists`, `Rounds` | reward route lists; interruptible passes, common to both routers |
| `Threshold`, `Voting`, `BallotBoxAccount` | the two-thirds test, the ballot box |
| `FeeSchedule`, `FeeConfigAccount` | the double-buffered fees |
| `NcnRouting`, `NcnRewardRouterAccount` | first reward tier |
| `Snapshots`, `SnapshotAccounts`, `WeightTables` | stake snapshots, weight table |
| `OperatorRouting`, `OperatorVaultRewardRouterAccount` | second reward tier |
| `RewardFlow` | openings, deposits, routing calls, payouts and closings on both tiers |
| `EpochStates`, `EpochStateAccount` | epoch state, consensus result, weight table as accounts |
| `EpochProtocol`, `EpochInvariant`, `EpochTheorems` | the epoch as a step system, its invariant, its guarantees |
| `EpochEffects`, `SystemEffects` | what each instruction and each move does, and exactly when it is accepted, by the accounts |
| `EpochRuns`, `SystemRuns` | particular runs of the epoch and of the whole system |
| `Reopening` | an epoch that loses its state to another epoch's close |
| `SettledStakes` | finished snapshots never change |
| `Instructions` | instructions over several account objects |
| `EndToEnd` | epoch, fee updates and both reward tiers as one interleaved system |

## Assumptions

* Slots lie between 1 and u64::MAX - 1 and never decrease; the slot-to-epoch function is monotone; the timing
  parameters stay fixed during an epoch's run (changing them can reopen the voting window).
* Operator, vault and mint keys are not the default key; each operator of the NCN has its own index; the vault indices
  in the registry are distinct, at most 64, and none is the empty sentinel.
* An operator's fee is at most 10000 basis points, as the restaking program requires.
* All lamports together fit in 64 bits, and a system transfer must leave a receiver empty or above rent. The wallets that
  payouts and closings go to can take them: they exist, or receive at least their own rent.
* The fixed-point library is not part of this model: multiply, divide, floor is an exact integer floor, and the
  threshold is a truncating division at the library's scale of 10^18.
* Opt-in states, delegated amounts and whether a vault is up to date belong to other programs and are inputs of a step.
* An account that the program has closed cannot be reallocated.

## Where code and expectation differ

* **Closing another epoch's state.** When the account to close carries the epoch state's discriminator, the closing
  handler checks the state of the epoch it was called for and not the account it deletes, and it creates the marker
  only if the two are the same account. So an epoch with nothing left but its state can delete the state of any other
  epoch (`Reopening.CloseElsewhereExactlyWhen`, `Reopening.EmptyEpochClosesAnyState`). That other epoch can then be
  initialized again: its phase moves back and its mirrors break (`Reopening.PhaseMovesBack`), a marker can be created
  beside live accounts (`Reopening.MarkerBesideLiveAccounts`), and old votes can stand over a new snapshot
  (`Reopening.OldVotesNewSnapshot`). The invariant of an epoch survives a run if and only if every such close finds the
  epoch empty (`EpochTheorems.SoundThroughoutExactlyWhen`). Even then the phase can move back
  (`Reopening.SoundYetPhaseMovesBack`): it does if and only if the state is lost at a phase other than the first and
  initialized again (`EpochTheorems.PhaseNeverMovesBackExactlyWhen`). Results about runs that need it ask for
  `LosesNothing`, every such close finds the epoch empty, or for `OwnCloses`, there is none. The finality of
  decisions, the freezing of the vote and the closedness of an epoch whose accounts are all gone hold without it.
* **Closing before there is a router.** The closing check wants the NCN's router closed, and once closing has begun no
  router can be created. So an epoch whose closing begins before its router is allocated can never be closed
  (`EpochEffects.NeverRoutedNeverClosed`, and a run that gets there: `Reopening.ClosedBeforeRouter`); otherwise the state
  can be closed exactly when nothing else is left (`EpochEffects.CloseStateExactly`).
* **The two-thirds test.** It agrees with exact arithmetic for a given total if and only if the smallest shortfall any
  weight can have, times 10^18, exceeds twice the total (`Threshold.ThresholdIsExactWhen`). Every total below half the
  scale qualifies; half the scale is the first that does not (`Threshold.HalfTheScale`).
* **Operator routing asks for no finished snapshot.** A vault registered in the middle of a round can strand the
  router: every later call fails (`OperatorRouting.RegistrationMidRoundStrandsTheRouter`, and a run of the whole system
  that gets there: `SystemRuns.RegistrationInMidRound`). A resumed round can run to its end if and only if the shares of
  the slots not yet visited, at today's stakes, fit in the pool (`OperatorRouting.ResumeSucceedsExactlyWhen`). Conservation holds even then (`EndToEnd.EveryRunConserves`). Once NCN
  routing has been accepted every snapshot is finished (`EpochTheorems.RoutingFindsItsFootings`) and none changes any
  more (`SettledStakes.SettledStakesAreFrozen`).
* **Closing in the middle of a round.** The closing handler does not look at the routers. In a round, a routing call of
  the first tier is accepted if and only if the epoch state, the epoch snapshot and the ballot box exist, and one of the
  second tier if and only if the epoch state and the operator's snapshot exist (`EndToEnd.NcnRoundGoesOnExactlyWhen`,
  `EndToEnd.OperatorRoundGoesOnExactlyWhen`). So closing the ballot box strands a paused round: routing and every payout
  of the tier are refused along every run, until the receiver is closed (`EndToEnd.StrandedRefuses`,
  `EndToEnd.StrandedRoundStaysStranded`, and a run that gets there: `SystemRuns.BoxClosedInMidRound`).
* **Fees of past epochs.** The buffer answers correctly for an epoch if and only if it is not before the older slot's
  activation (`FeeSchedule.LookupRightExactlyWhen`), so after updates a lookup for an old epoch can give later fees
  (`FeeSchedule.LookupReadsForgottenEpoch`). This is about the library: no instruction calls the update yet, so the
  program's own configuration keeps the fees it was created with.
* **Phase and gate.** The distribution phase begins in the last slot in which votes are still taken, one slot before
  routing is accepted; after a tie break routing is accepted at once (`EpochTheorems.GateAgainstPhase`, and a run that
  gets there: `EpochRuns.PhaseAheadOfGate`).
* **The published result.** A tie break is never published, although the account is described as holding the epoch's
  consensus (`EpochRuns.BrokenTieIsNotPublished` is such a run). A published weight is right if and only if it fits in
  64 bits (`EpochTheorems.PublishedResultIsTrueWhen`).

## Model

| member | source | states |
|---|---|---|
| `Sums.SharesFit` | core/src/ncn_reward_router.rs:447-483 | floored proportional shares over parties whose weights make up the total never exceed the amount shared, and the leftover is smaller than the number of parties with weight |
| `RouteLists.CreditSound` | core/src/ncn_reward_router.rs:703-725 | with keys drawn from no more accounts than there are slots, a credit always succeeds, moves the amount onto that one key, leaves every other key alone and keeps one route per key |
| `RouteLists.RoomLeft` | core/src/ncn_reward_router.rs:713-724 | a key without a route finds a free slot, so the list never is full |
| `RouteLists.DrainSound` | core/src/ncn_reward_router.rs:729-744 | paying out succeeds exactly for listed keys and empties that route only |
| `Rounds.IntakeExact` | core/src/ncn_reward_router.rs:251-292 | when the receiver covers rent and transit, exactly the surplus is recognised, and the one possible failure is overflow of the lifetime total |
| `Rounds.FeeIsFloored` | core/src/ncn_reward_router.rs:407-443 | for every rate and amount, the fee is the largest whole number of lamports not above the exact fee |
| `Rounds.FeesFit` | core/src/ncn_reward_router.rs:407-443 | fees totalling at most 10000 bps are the floored quotients amount * bps / 10000 and never exceed the pool they are taken from |
| `Rounds.PassIsPrefix` | core/src/ncn_reward_router.rs:349-384 | a pass pays exactly the uninterrupted walk's parties up to where it stops, stops only at an unpaid party, and only when its budget is spent |
| `Rounds.PayRangeExact` | core/src/operator_vault_reward_router.rs:314-358 | an uninterrupted walk succeeds exactly when the pool covers its shares, and then each key has received its shares and nothing else moved |
| `Rounds.PassOnTrack` | core/src/ncn_reward_router.rs:326-401 | a call in a round on track never fails; it ends the round or pauses with exactly its budget fewer parties to go and the same end in store |
| `Rounds.CallsNeededIsCeiling` | core/src/ncn_reward_router.rs:334-372 | the number of calls is max(1, ceil(n / m)) |
| `Threshold.PassesExactly` | core/src/ballot_box.rs:564-587 | the fixed-point test as an exact inequality on the shortfall from two thirds |
| `Threshold.TwoThirdsPassAndMajorityFollows` | core/src/constants.rs:16-26 | two thirds always passes, and whatever passes is a strict majority |
| `Threshold.ThresholdIsExactWhen` | core/src/constants.rs:14-26 | for a given total the test decides two thirds correctly for every weight if and only if the smallest shortfall times the scale exceeds twice the total |
| `Threshold.HalfTheScale` | core/src/constants.rs:14-26 | all totals below half the scale are decided exactly, and half the scale is not: a concrete weight passes too early |
| `Voting.TallyOf` | core/src/ballot_box.rs:437-449 | the first tally for a ballot, or none when no tally carries it |
| `Voting.Heaviest` | core/src/ballot_box.rs:555-560 | the last among the heaviest tallies |
| `Voting.AtMostThreeTallies` | core/src/ballot_box.rs:463-494 | distinct proper ballots leave at most three tallies |
| `Voting.AddKeepsRecount` | core/src/ballot_box.rs:463-494 | the incremental update keeps every tally's weight and count, and the total, equal to a recount of the raw votes |
| `Voting.AcceptedExactlyWhen` | core/src/ballot_box.rs:503-542 | a vote is accepted if and only if the window is open, the ballot proper, the operator new, a vote slot free and the tally does not overflow; never refused for a full tally array |
| `Voting.CastVoteSound` | core/src/ballot_box.rs:503-542 | an accepted vote is recorded with its operator, weight, slot and ballot, keeps count equal to recount, and changes neither winner nor decision slot |
| `Voting.TallyVotesSound` | core/src/ballot_box.rs:546-590 | counting fails only for a zero total, keeps consistency, and changes the box only by a decision for a ballot that passed and holds a strict majority |
| `Voting.DecidedExactlyWhen` | core/src/ballot_box.rs:546-590 | counting decides if and only if nothing is decided and some ballot passes, and then for a ballot none outweighs |
| `Voting.TalliedExactlyWhenVotedFor` | core/src/ballot_box.rs:463-494 | a ballot has a tally if and only if some operator voted for it |
| `Voting.TieBreakerSound` | core/src/ballot_box.rs:594-629 | a tie is broken if and only if nothing is decided, the stall period is over and somebody voted for the ballot; nothing but the winner changes |
| `Voting.EveryRunIsConsistent` | core/src/ballot_box.rs:437-629 | over every interleaving of votes, counts and tie breaks: count equals recount, the winner never changes, was voted for and can be looked up, votes only grow |
| `Voting.AtMostOnePasses` | core/src/ballot_box.rs:546-590 | if the votes weigh at most the total, no two ballots pass and a majority outweighs every other tally |
| `BallotBoxAccount.BallotBox.constructor` | core/src/ballot_box.rs:332-344 | a new box is empty and undecided |
| `BallotBoxAccount.BallotBox.VotingValid` | core/src/ballot_box.rs:634-654 | whether votes are taken in a slot: never after a tie break, always before consensus, until the window ends otherwise, overflow included |
| `BallotBoxAccount.BallotBox.FindTally` | core/src/ballot_box.rs:468-477 | the array search finds the first tally of the ballot |
| `BallotBoxAccount.BallotBox.IncrementTally` | core/src/ballot_box.rs:463-494 | the in-place update is the specified one |
| `BallotBoxAccount.BallotBox.DidVote` | core/src/ballot_box.rs:656-664 | the array search answers whether the operator is among the votes |
| `BallotBoxAccount.BallotBox.Cast` | core/src/ballot_box.rs:503-542 | casting in place is `CastVote`, errors included |
| `BallotBoxAccount.BallotBox.HeaviestSlot` | core/src/ballot_box.rs:555-560 | the scan finds the last of the heaviest tallies |
| `BallotBoxAccount.BallotBox.Count` | core/src/ballot_box.rs:546-590 | counting in place is `TallyVotes` |
| `BallotBoxAccount.BallotBox.BreakTie` | core/src/ballot_box.rs:594-629 | tie breaking in place is `SetTieBreaker` |
| `BallotBoxAccount.BallotBox.WinningTally` | core/src/ballot_box.rs:437-449 | the lookup of the winner's tally |
| `FeeSchedule.LookupRightExactlyWhen` | core/src/fees.rs:71-87 | the buffer answers with the entry in force if and only if the epoch is not before the older slot; always for the present and later |
| `FeeSchedule.UpdateExact` | core/src/fees.rs:206-265 | an update is accepted exactly when there is a next epoch and the cap holds; the fees in force end up in the second slot and the scheduled ones in the first, although the writable slot can flip on the way |
| `FeeSchedule.UpdateSchedules` | core/src/fees.rs:206-265 | without a history: an accepted update leaves the present fees alone, schedules the next epoch's, and keeps the schedule |
| `FeeSchedule.NewConfigExactly` | core/src/fees.rs:39-65 | a configuration is created if and only if the wallet is proper and the fee is at most 9600 bps |
| `FeeSchedule.UpdateRefines` | core/src/fees.rs:232-265 | an update is the history's update; the fees in force stay, the new value applies from the next epoch |
| `FeeSchedule.BufferRefinesHistory` | core/src/fees.rs:71-286 | over every sequence of updates at nondecreasing epochs the two slots answer like the unbounded history from the last update on, and both total between 1 and 10000 bps |
| `FeeSchedule.LookupReadsForgottenEpoch` | core/src/fees.rs:71-87 | a concrete sequence of library updates after which the lookup gives a past epoch fees that were never in force in it |
| `FeeConfigAccount.FeeConfigStore.Create` | core/src/fees.rs:39-65 | creation and its refusals |
| `FeeConfigAccount.FeeConfigStore.Check` | core/src/fees.rs:273-289 | the bounds check on the fees of an epoch |
| `FeeConfigAccount.FeeConfigStore.Write` | core/src/fees.rs:90-105 | a write goes to the slot that is updatable at that moment and leaves the other alone |
| `FeeConfigAccount.FeeConfigStore.Update` | core/src/fees.rs:232-265 | the update through a mutable slot is `UpdateFeeConfig`, errors included |
| `NcnRouting.PlanFits` | core/src/ncn_reward_router.rs:447-483 | using that the winning tally is the sum of its votes, all shares are computable, total at most the rewards, and leave less than one lamport per voter with stake |
| `NcnRouting.CompletedExact` | core/src/ncn_reward_router.rs:326-401 | completing a round always succeeds, pays each key its shares, gives the remainder to the NCN and touches nothing else |
| `NcnRouting.CallAdvances` | core/src/ncn_reward_router.rs:326-401 | a call never fails; it completes exactly when its iterations cover the unpaid voters, and otherwise leaves a state with the same completion and exactly that many fewer to pay |
| `NcnRouting.SplitExact` | core/src/ncn_reward_router.rs:251-322 | intake and split of an idle router: protocol and NCN grow by arrived * bps / 10000, floored, and the operators' pool is the rest; only the lifetime counter can overflow |
| `NcnRouting.PoolSplit` | core/src/ncn_reward_router.rs:296-322 | the split empties the pool into the buckets without underflow |
| `NcnRouting.FirstCall` | program/src/route_ncn_rewards.rs:68-78 | the first call of a round pays min(n, m) of the n winning voters and pauses exactly when n exceeds m |
| `NcnRouting.RouteRewardsSound` | program/src/route_ncn_rewards.rs:68-78 | routing a sound router fails only if the lifetime counter would overflow, keeps processed rewards equal to the sum of the buckets, and recognises exactly the new lamports once per round |
| `NcnRouting.PayoutsSound` | core/src/ncn_reward_router.rs:642-744 | payouts of an idle router never underflow, pay exactly their bucket, empty it, and keep the books |
| `NcnRouting.ContinuedRound` | core/src/ncn_reward_router.rs:218-239 | a saved round can only end in its one completion, whatever limits and deposits follow |
| `NcnRouting.InterruptedEqualsOnePass` | core/src/ncn_reward_router.rs:326-401 | any calls that bring a round to its end leave exactly the router one unlimited call would have left |
| `NcnRouting.RemainingCalls` | core/src/ncn_reward_router.rs:334-400 | with a fixed limit a saved round ends after exactly as many calls as its unpaid voters need |
| `NcnRouting.RoundLength` | core/src/ncn_reward_router.rs:334-400 | a round over n winning votes ends after exactly max(1, ceil(n / m)) calls, m the limit but at least one |
| `NcnRouting.RoundPaysShares` | core/src/ncn_reward_router.rs:349-395 | each winning voter gets its floored share, nobody else anything, and the NCN less than one lamport per voter |
| `NcnRouting.RouteInstructionStarts` | program/src/route_ncn_rewards.rs:54-78 | an accepted call of an idle router, in arithmetic: protocol grows by arrived * protocol bps / 10000, the NCN by arrived * NCN bps / 10000, and the rest is the pool; the round is paused exactly when more winners than the limit remain, and at its end every key has received pool * weight / winning weight per vote and the NCN the remainder |
| `NcnRouting.RouteInstructionResumes` | program/src/route_ncn_rewards.rs:68-78 | an accepted call in a round recognises nothing, pays as many further winners as the limit allows, and heads for the same end |
| `NcnRewardRouterAccount.NCNRewardRouter.constructor` | core/src/ncn_reward_router.rs:109-126 | a new router is empty and idle |
| `NcnRewardRouterAccount.NCNRewardRouter.RouteIncomingRewards` | core/src/ncn_reward_router.rs:251-292 | intake in place |
| `NcnRewardRouterAccount.NCNRewardRouter.RouteFromRewardPool` | core/src/ncn_reward_router.rs:527-541 | taking from the pool counts as processing, with both checks |
| `NcnRewardRouterAccount.NCNRewardRouter.SplitRewardPool` | core/src/ncn_reward_router.rs:296-322 | the split in place |
| `NcnRewardRouterAccount.NCNRewardRouter.RouteToOperator` | core/src/ncn_reward_router.rs:703-725 | the loop over 256 slots credits the key's own slot or the first free one, and keeps the array packed |
| `NcnRewardRouterAccount.NCNRewardRouter.PayVoter` | core/src/ncn_reward_router.rs:374-383 | one winning voter's payment |
| `NcnRewardRouterAccount.NCNRewardRouter.WalkVotes` | core/src/ncn_reward_router.rs:349-385 | the resumable loop is the specified pass, with the same stopping point |
| `NcnRewardRouterAccount.NCNRewardRouter.RouteToWinners` | core/src/ncn_reward_router.rs:326-401 | resume, walk, save or settle, in place |
| `NcnRewardRouterAccount.NCNRewardRouter.FinishRound` | core/src/ncn_reward_router.rs:387-398 | the remainder goes to the NCN and the saved state is reset |
| `NcnRewardRouterAccount.NCNRewardRouter.RouteNcnRewards` | program/src/route_ncn_rewards.rs:54-78 | the guarded instruction, in place |
| `NcnRewardRouterAccount.NCNRewardRouter.PayProtocol` | core/src/ncn_reward_router.rs:661-672 | the protocol payout in place |
| `NcnRewardRouterAccount.NCNRewardRouter.PayNcn` | core/src/ncn_reward_router.rs:642-653 | the NCN payout in place |
| `NcnRewardRouterAccount.NCNRewardRouter.PayOperator` | core/src/ncn_reward_router.rs:729-744 | the loop finds the operator's route, empties it and returns what was on it |
| `OperatorRouting.PlanFits` | core/src/operator_vault_reward_router.rs:417-453 | using that the operator's stake is the sum of its entries, the vaults' shares fit in the pool and leave less than one lamport per vault with stake |
| `OperatorRouting.CompletedExact` | core/src/operator_vault_reward_router.rs:296-373 | completing a round always succeeds, pays each vault its shares and the operator the remainder, and keeps what is in transit |
| `OperatorRouting.CallAdvances` | core/src/operator_vault_reward_router.rs:296-373 | a call never fails; it completes exactly when its iterations cover the slots left, otherwise the completion is unchanged |
| `OperatorRouting.StartExact` | core/src/operator_vault_reward_router.rs:251-292 | intake and operator fee of an idle router |
| `OperatorRouting.RouteRewardsSound` | program/src/route_operator_vault_rewards.rs:58-75 | routing a sound router fails only by overflow of the lifetime counter and recognises exactly the new lamports once per round |
| `OperatorRouting.PayoutsSound` | core/src/operator_vault_reward_router.rs:578-649 | payouts never underflow, pay exactly their bucket and empty it |
| `OperatorRouting.ContinuedRound` | core/src/operator_vault_reward_router.rs:211-238 | a saved round ends in its one completion, after exactly the calls its remaining slots need |
| `OperatorRouting.InterruptedEqualsOnePass` | core/src/operator_vault_reward_router.rs:296-373 | for a fixed snapshot, interrupted routing equals one unlimited call |
| `OperatorRouting.RoundLength` | core/src/operator_vault_reward_router.rs:302-361 | a round takes exactly max(1, ceil(64 / m)) calls |
| `OperatorRouting.ResumeSucceedsExactlyWhen` | core/src/operator_vault_reward_router.rs:314-358 | against whatever the snapshot is now, running to the end succeeds if and only if the unvisited slots' shares fit in the pool |
| `OperatorRouting.DilutedRoundFails` | core/src/operator_vault_reward_router.rs:343-357 | a saved round whose next slot is due more than the pool fails on every call |
| `OperatorRouting.RegistrationMidRoundStrandsTheRouter` | program/src/route_operator_vault_rewards.rs:58-75 | a concrete registration in mid-round after which neither routing nor payout succeeds |
| `OperatorRouting.RoundPaysShares` | core/src/operator_vault_reward_router.rs:314-370 | each vault gets its floored share and the operator less than one lamport per vault beyond its fee |
| `OperatorRouting.RouteRewardsStarts` | program/src/route_operator_vault_rewards.rs:58-75 | an accepted call of an idle router, in arithmetic: the operator grows by arrived * fee bps / 10000, the rest is the pool; the round is paused exactly when the limit is under 64, and at its end every vault has received pool * weight / stake per entry and the operator the remainder |
| `OperatorRouting.RouteRewardsResumes` | program/src/route_operator_vault_rewards.rs:58-75 | an accepted call in a round recognises nothing, visits as many further slots as the limit allows, and heads for the same end |
| `OperatorVaultRewardRouterAccount.OperatorVaultRewardRouter.constructor` | core/src/operator_vault_reward_router.rs:84-109 | a new router is empty and idle |
| `OperatorVaultRewardRouterAccount.OperatorVaultRewardRouter.RouteIncomingRewards` | core/src/operator_vault_reward_router.rs:251-271 | intake in place |
| `OperatorVaultRewardRouterAccount.OperatorVaultRewardRouter.RouteToOperator` | core/src/operator_vault_reward_router.rs:505-574 | moving an amount from the pool to the operator, with all checks |
| `OperatorVaultRewardRouterAccount.OperatorVaultRewardRouter.TakeFee` | core/src/operator_vault_reward_router.rs:275-292 | the operator's fee in place |
| `OperatorVaultRewardRouterAccount.OperatorVaultRewardRouter.RouteToVault` | core/src/operator_vault_reward_router.rs:605-631 | the loop over 64 slots credits the vault's own slot or the first free one |
| `OperatorVaultRewardRouterAccount.OperatorVaultRewardRouter.PayVault` | core/src/operator_vault_reward_router.rs:343-357 | one vault's payment |
| `OperatorVaultRewardRouterAccount.OperatorVaultRewardRouter.WalkSlots` | core/src/operator_vault_reward_router.rs:314-358 | the resumable loop is the specified pass |
| `OperatorVaultRewardRouterAccount.OperatorVaultRewardRouter.RouteToVaults` | core/src/operator_vault_reward_router.rs:296-373 | resume, walk, save or settle, in place |
| `OperatorVaultRewardRouterAccount.OperatorVaultRewardRouter.RouteOperatorVaultRewards` | program/src/route_operator_vault_rewards.rs:58-75 | the instruction in place |
| `OperatorVaultRewardRouterAccount.OperatorVaultRewardRouter.PayOperator` | core/src/operator_vault_reward_router.rs:578-590 | the operator payout in place |
| `OperatorVaultRewardRouterAccount.OperatorVaultRewardRouter.PayOutVault` | core/src/operator_vault_reward_router.rs:635-649 | the vault payout in place |
| `RouteLists.TotalsMove` | core/src/ncn_reward_router.rs:703-744 | whatever the list, an accepted credit adds its amount to the total and an accepted payout takes out what it found |
| `Rounds.PassConserves` | core/src/ncn_reward_router.rs:349-384 | whatever the shares, an accepted walk moves lamports from pool to routes and loses none |
| `NcnRouting.RoutingConserves` | program/src/route_ncn_rewards.rs:68-78 | whatever box and fees a call reads, everything processed stays in a bucket, and recognised rewards are in transit |
| `NcnRouting.PayoutsConserve` | core/src/ncn_reward_router.rs:642-744 | whatever the router, a payout takes its amount out of transit and nothing else |
| `OperatorRouting.RoutingConserves` | program/src/route_operator_vault_rewards.rs:58-75 | whatever snapshot a call reads, finished or not, everything processed stays in a bucket |
| `OperatorRouting.PayoutsConserve` | core/src/operator_vault_reward_router.rs:578-649 | whatever the router, a payout takes its amount out of transit and nothing else |
| `RewardFlow.LedgerMeans` | core/src/ncn_reward_router.rs:488-496 | balance covers rent, pool and processed rewards; total rewards equal in transit plus paid; deposits equal total rewards plus unrecognised; processed equals the sum of the buckets |
| `RewardFlow.HandoverConserves` | program/src/distribute_operator_vault_reward_route.rs:55-108 | the operator's route leaves the first tier and the same lamports arrive at the second |
| `RewardFlow.StepConserves` | core/src/ncn_reward_router.rs:251-322 | every accepted step, openings and closings of receivers included, keeps the ledger and the supply, whatever it reads |
| `RewardFlow.EveryRunConserves` | program/src/distribute_operator_vault_reward_route.rs:55-108 | over every run on both tiers, even if every call reads another box, snapshot and fees, the ledger stays right and the supply is unchanged |
| `RewardFlow.RouteNcnKeeps` | program/src/route_ncn_rewards.rs:54-78 | NCN routing is refused exactly while votes are open, when the end of the voting window is beyond the last slot, or, outside a round, when the lifetime counter would overflow; it keeps every round on track |
| `RewardFlow.RouteOperatorKeeps` | program/src/route_operator_vault_rewards.rs:58-75 | operator routing is refused exactly when, outside a round, the lifetime counter would overflow |
| `RewardFlow.NcnPayoutKeeps` | program/src/distribute_protocol_rewards.rs:44-88 | both fee payouts pay exactly their bucket, are always covered, and are refused only during a round |
| `RewardFlow.HandoverKeeps` | program/src/distribute_operator_vault_reward_route.rs:55-108 | the handover is refused exactly during a round, for an operator without a route, or without the receivers |
| `RewardFlow.OperatorPayoutKeeps` | program/src/distribute_operator_rewards.rs:57-107 | the operator payout pays exactly its bucket and is refused only during a round |
| `RewardFlow.VaultPayoutKeeps` | program/src/distribute_vault_rewards.rs:59-108 | the vault payout pays exactly that vault's route and is refused only during a round or without a route |
| `RewardFlow.CloseKeeps` | core/src/ncn_reward_router.rs:947-980 | an open receiver can always be closed to the last lamport |
| `RewardFlow.StepKeeps` | core/src/operator_vault_reward_router.rs:251-373 | every step is refused exactly for the reason that `Refusal` gives, each with its condition, and otherwise keeps every round on track: no underflow in a router, lack of lamports at a receiver or full route list ever occurs |
| `RewardFlow.MovesLamports` | core/src/ncn_reward_router.rs:947-980 | openings, closings and deposits move exactly their lamports, between exactly their places |
| `RewardFlow.NcnPaysOut` | program/src/distribute_ncn_rewards.rs:44-90 | each fee payout moves its own bucket from the receiver to the outside, empties that bucket and touches no other |
| `RewardFlow.HandoverMoves` | program/src/distribute_operator_vault_reward_route.rs:55-108 | the handover moves exactly the operator's route between the receivers and empties that route alone |
| `RewardFlow.OperatorPaysOut` | program/src/distribute_operator_rewards.rs:57-107 | the operator payout moves exactly its bucket and empties it alone |
| `RewardFlow.VaultPaysOut` | program/src/distribute_vault_rewards.rs:59-108 | the vault payout moves exactly that vault's route and empties it alone |
| `Snapshots.NewIsAccounted` | core/src/epoch_snapshot.rs:268-310 | initialization is refused exactly for more than 64 vaults; an inactive operator starts out finished |
| `Snapshots.RegisterSound` | core/src/epoch_snapshot.rs:432-491 | a registry vault is accepted if and only if the snapshot is unfinished, the vault new and the sum does not overflow; counters and stake stay equal to the entries' |
| `Snapshots.FinishedCoversRegistry` | core/src/epoch_snapshot.rs:432-491 | a finished active snapshot has every registry vault exactly once (pigeonhole) and its stake is the sum of its entries |
| `Snapshots.FinishedEpochCountsEveryone` | core/src/epoch_snapshot.rs:160-189 | a finished epoch snapshot has all operators' snapshots, all finished, and its total is their sum |
| `Snapshots.AddOperatorSound` | program/src/initialize_operator_snapshot.rs:76-193 | a new operator fills an empty slot, keeps the epoch snapshot equal to the sums over operators, and is counted at once exactly when inactive |
| `Snapshots.OperatorAcceptedExactlyWhen` | program/src/initialize_operator_snapshot.rs:76-193 | the exact condition under which an operator is added |
| `Snapshots.AddDelegationSound` | program/src/snapshot_vault_operator_delegation.rs:151-199 | a delegation adds its entry to that operator alone, keeps all sums, and counts the operator exactly when it finishes it |
| `Snapshots.DelegationAcceptedExactlyWhen` | program/src/snapshot_vault_operator_delegation.rs:151-199 | the exact condition under which a delegation is accepted across both accounts |
| `SnapshotAccounts.OperatorSnapshotAccount.Initialize` | core/src/epoch_snapshot.rs:268-310 | initialization in place |
| `SnapshotAccounts.OperatorSnapshotAccount.HasVaultIndex` | core/src/epoch_snapshot.rs:416-420 | the search over all 64 slots, where empty slots carry the sentinel |
| `SnapshotAccounts.OperatorSnapshotAccount.RegisterDelegation` | core/src/epoch_snapshot.rs:432-491 | registration in place is `Register`, errors included |
| `SnapshotAccounts.EpochSnapshotAccount.constructor` | core/src/epoch_snapshot.rs:55-77 | a new epoch snapshot has counted nobody |
| `SnapshotAccounts.EpochSnapshotAccount.Increment` | core/src/epoch_snapshot.rs:160-189 | counting an operator in place |
| `WeightTables.SetMintsGrows` | core/src/weight_table.rs:141-154 | setting weights keeps the table's shape and never loses a weighted mint |
| `WeightTables.SetMintsExactly` | core/src/weight_table.rs:141-154 | accepted if and only if every mint is in the table; a named mint without a slot gets the current one, every other keeps its own |
| `EpochStateAccount.WeightTableStore.SetWeight` | core/src/weight_table.rs:141-154 | the first matching entry is set, keeping its first slot; an unknown mint is refused and changes nothing |
| `EpochStateAccount.WeightTableStore.CountWeights` | core/src/weight_table.rs:193-195 | the scan counts the weighted mints |
| `EpochStateAccount.ConsensusResultStore.Record` | core/src/consensus_result.rs:161-179 | the first record writes everything, a later one the weight only |
| `EpochStateAccount.EpochStateStore.UpdateReallocOperatorSnapshot` | core/src/epoch_state.rs:542-560 | the mirror of a new operator snapshot, in place |
| `EpochStateAccount.EpochStateStore.UpdateSnapshotDelegation` | core/src/epoch_state.rs:562-573 | the mirror of a delegation, in place |
| `EpochStateAccount.EpochStateStore.UpdateCastVote` | core/src/epoch_state.rs:580-593 | the mirror of a vote, in place |
| `EpochStateAccount.EpochStateStore.UpdateSetTieBreaker` | core/src/epoch_state.rs:595-606 | the mirror of a tie break, in place |
| `EpochStateAccount.EpochStateStore.AllClosed` | core/src/epoch_state.rs:122-162 | the scan answers whether no tracked account is left open |
| `EpochStates.PhaseAdvances` | core/src/epoch_state.rs:738-776 | under forward changes and a clock that does not run back the phase does not move back |
| `Instructions.CastAndTally` | program/src/cast_vote.rs:127-140 | cast, then count, on the box object |
| `Instructions.PublishResult` | program/src/cast_vote.rs:142-165 | the result account is written exactly when consensus is reached |
| `Instructions.ProcessCastVote` | program/src/cast_vote.rs:92-176 | box, result and epoch state after an accepted vote, and every reason for a refusal |
| `Instructions.ProcessSetTieBreaker` | program/src/admin_set_tie_breaker.rs:50-73 | box and epoch state after a tie break |
| `Instructions.ProcessSnapshotDelegation` | program/src/snapshot_vault_operator_delegation.rs:151-209 | operator snapshot, epoch snapshot and epoch state after a delegation, and every reason for a refusal |
| `EpochInvariant.VoteMovesStake` | program/src/cast_vote.rs:105-133 | a vote turns exactly the voter's unvoted stake into cast weight, so their sum is constant |
| `EpochInvariant.InitializeOperatorSnapshotKeeps` | program/src/initialize_operator_snapshot.rs:76-193 | operator initialization keeps the whole invariant and the order of phases |
| `EpochInvariant.SnapshotDelegationKeeps` | program/src/snapshot_vault_operator_delegation.rs:151-209 | a delegation keeps the whole invariant; the last one opens the vote with the full total unvoted |
| `EpochInvariant.CastBallotKeeps` | program/src/cast_vote.rs:92-176 | a vote keeps the whole invariant: backed by stake, published, mirrored |
| `EpochInvariant.BreakTieKeeps` | program/src/admin_set_tie_breaker.rs:50-73 | a tie break keeps the whole invariant |
| `EpochInvariant.ReadyToClose` | core/src/epoch_state.rs:725-736 | once consensus is reached every snapshot is finished |
| `EpochTheorems.Agreement` | program/src/cast_vote.rs:92-140 | in a sound epoch votes exist only over a finished snapshot, the tallies weigh at most its total, and no two ballots can pass |
| `EpochTheorems.WinnerStaysHeaviest` | core/src/ballot_box.rs:546-590 | in a sound epoch a winner by votes holds a strict majority of the snapshot and outweighs every other tally after all later votes |
| `EpochTheorems.RoutingFindsItsFootings` | program/src/route_ncn_rewards.rs:54-78 | when routing is accepted in a sound epoch there is a winner, counts equal recounts, all snapshots are finished and their stakes are sums |
| `EpochTheorems.SnapshotsAreComplete` | core/src/weight_table.rs:256-269 | in every sound state a finished active operator has each registry vault once, and a finished epoch snapshot sums over exactly its operators |
| `EpochTheorems.PatchedPhaseAgrees` | core/src/epoch_state.rs:778-817 | given the weight table's mint count the patched phase is the phase, in every sound state |
| `EpochEffects.CastAndCountExactly` | program/src/cast_vote.rs:127-140 | a vote is accepted exactly when it may be cast, is recorded, and after it the box is decided if and only if it was before or some ballot passes; a new decision is for a ballot none outweighs, in the slot of the vote |
| `EpochEffects.CastBallotExactly` | program/src/cast_vote.rs:92-176 | the whole vote instruction: the exact condition by the accounts, and what it does to box, vote count and consensus slot, and to nothing else |
| `EpochEffects.DecidedExactlyWhenSomePasses` | program/src/cast_vote.rs:127-140 | after every run from an untouched epoch that loses nothing, the box is decided by votes if and only if some ballot passes the test: no vote is left uncounted |
| `EpochEffects.BreakTieExactly` | program/src/admin_set_tie_breaker.rs:50-73 | the exact condition of a tie break, and its whole effect: the winner, the flag, and the current slot recorded |
| `EpochEffects.DecisionIsRecorded` | core/src/epoch_state.rs:580-606 | after every such run, a consensus slot in the epoch state is the slot of the instruction that reached consensus, vote or tie break |
| `EpochEffects.ClosingWaits` | core/src/epoch_state.rs:725-736 | after every such run, an epoch is closing only the configured number of epochs after the instruction that reached consensus, and while the box exists accounts can be closed exactly from then on |
| `EpochEffects.PhaseIsByAccounts` | core/src/epoch_state.rs:738-776 | in every sound state the phase is the one that table, snapshot, ballot box, decision and slot tell, for each of the six phases and the one error |
| `EpochEffects.PatchedPhaseIsByAccounts` | core/src/epoch_state.rs:778-817 | the same for the patched phase, given the mint count |
| `EpochEffects.InitializeEpochStateExactly` | program/src/initialize_epoch_state.rs:23-84 | the state is created if and only if the epoch is not in the future, has no state and no marker; it starts blank |
| `EpochEffects.AllocationsExactly` | program/src/initialize_ballot_box.rs:29-100 | when weight table, ballot box and router can be allocated, and what that changes |
| `EpochEffects.ReallocWeightTableExactly` | program/src/realloc_weight_table.rs:30-99 | the table is initialized exactly when it reaches full size, with the registry taken over and nothing weighted |
| `EpochEffects.ReallocBoxAndRouterExactly` | program/src/realloc_ballot_box.rs:25-76 | box and router are initialized exactly when they reach full size, and blank |
| `EpochEffects.SetWeightsExactly` | program/src/set_epoch_weights.rs:30-75 | weights are accepted if and only if some mint has none yet and all named mints are in the table; which slots are set, and the progress recorded |
| `EpochEffects.InitializeEpochSnapshotExactly` | program/src/initialize_epoch_snapshot.rs:40-132 | when the epoch snapshot can be taken, and what it holds |
| `EpochEffects.InitializeOperatorSnapshotExactly` | program/src/initialize_operator_snapshot.rs:40-193 | when an operator's snapshot can be created |
| `EpochEffects.SnapshotDelegationExactly` | program/src/snapshot_vault_operator_delegation.rs:151-209 | when a delegation is accepted, by registry, entries and sums |
| `EpochEffects.InitializeOperatorRouterExactly` | program/src/initialize_operator_vault_reward_router.rs:17-129 | when an operator's router can be created, and what that changes |
| `EpochEffects.RouteRewardsExactly` | program/src/route_ncn_rewards.rs:30-58 | the routing gate is open if and only if the accounts exist and a tie was broken or the slot is beyond the voting window |
| `EpochEffects.CloseOneExactly` | program/src/close_epoch_account.rs:56-310 | an account is closed if and only if it exists and consensus is old enough; it goes, its status says so, and nothing else changes |
| `EpochEffects.CloseStateExactly` | program/src/close_epoch_account.rs:56-310 | the epoch state is closed if and only if, besides, nothing else is left and the router existed |
| `EpochEffects.NeverRoutedNeverClosed` | core/src/epoch_state.rs:122-162 | if closing begins before a router is allocated, no run of own closes ever creates the marker |
| `EpochTheorems.GateAgainstPhase` | core/src/epoch_state.rs:708-723 | exactly from which slot routing is accepted, against the slot in which the distribution phase begins |
| `EpochTheorems.EpochStateMirrors` | core/src/epoch_state.rs:529-606 | after every run from an untouched epoch whose foreign closes find it empty, weight, snapshot, operator and voting progress, consensus flag and slot, and the tie breaker agree with their source accounts |
| `EpochTheorems.PublishedResultIsTrueWhen` | core/src/consensus_result.rs:147-179 | after every such run, a result is published exactly for a decision by votes, with the winner and its slot, and the winner's weight if and only if that fits in 64 bits |
| `EpochInvariant.CloseKeeps` | program/src/close_epoch_account.rs:56-310 | an epoch's own close of any of its accounts keeps the whole invariant, and only closing the epoch state removes it and leaves the marker |
| `EpochTheorems.StepKeeps` | program/src/lib.rs:91-291 | every instruction of the epoch itself keeps the invariant, the marker, the clock and the order of phases |
| `EpochTheorems.LosingStateSoundExactlyWhen` | program/src/close_epoch_account.rs:107-123 | losing the state to another epoch's close keeps the invariant if and only if no account of the epoch exists |
| `EpochTheorems.SoundThroughoutExactlyWhen` | program/src/close_epoch_account.rs:107-310 | over all runs, every state along the run satisfies the invariant if and only if every accepted close from another epoch finds the epoch empty |
| `EpochTheorems.EveryReachableStateIsSound` | program/src/lib.rs:91-291 | the invariant holds after every run of own closes from an untouched epoch |
| `EpochTheorems.DecisionsAreFinal` | core/src/ballot_box.rs:437-629 | along any run, closes from other epochs included, winner, decision slot and cast votes stay, after voting nothing in the box changes, and a closed box never returns |
| `EpochTheorems.RoutingFreezesTheVote` | program/src/route_ncn_rewards.rs:54-58 | after an accepted routing call, along any run whatever, no vote and no tie break is ever accepted, and the box never changes while it exists |
| `EpochTheorems.PhaseNeverMovesBack` | core/src/epoch_state.rs:738-776 | along any run of own closes the phase never moves back |
| `EpochTheorems.PhaseNeverMovesBackExactlyWhen` | program/src/close_epoch_account.rs:107-310 | along every run that keeps the epoch sound, the phase never moves back if and only if the run does not lose the state at a phase other than the first and then initialize it again |
| `EpochTheorems.ClosedStaysClosed` | program/src/close_epoch_account.rs:56-122 | a marker with none of the tracked accounts stays that way along any run whatever |
| `EpochTheorems.MarkerNeedsEverythingClosed` | program/src/close_epoch_account.rs:265-310 | in a sound epoch only closing its state creates the marker, and only when no tracked account is left |
| `SettledStakes.SettledStakesAreFrozen` | core/src/epoch_snapshot.rs:160-189 | once the epoch snapshot is finished, along any run of own closes every snapshot stays as it is until it is closed |
| `Reopening.CloseElsewhereExactlyWhen` | program/src/close_epoch_account.rs:107-123 | a close that names another epoch's state is accepted if and only if the issuing epoch is closable with everything but its state closed and the other has a state; the issuer stays sound, the other gets no marker |
| `Reopening.EmptyEpochClosesAnyState` | core/src/account_payer.rs:123-143 | a run of own closes that leaves only the state, which can close itself into the marker, or the state of any other epoch |
| `Reopening.ReopeningStartsOver` | program/src/initialize_epoch_state.rs:23-84 | any sound epoch that loses its state can be initialized again at the first phase; the phase has moved back unless it was the first, and the result is sound if and only if nothing was in use |
| `Reopening.PhaseMovesBack` | core/src/epoch_state.rs:738-776 | a run in which the phase goes from Snapshot to SetWeight and the state no longer knows a live weight table |
| `Reopening.SoundYetPhaseMovesBack` | program/src/initialize_epoch_state.rs:23-84 | a run that keeps the epoch sound throughout and takes its phase from Close to SetWeight |
| `Reopening.MarkerBesideLiveAccounts` | core/src/epoch_state.rs:122-162 | a run that ends with the marker while both operators' snapshots exist |
| `Reopening.OldVotesNewSnapshot` | program/src/cast_vote.rs:92-140 | a run after which tallies outweigh an unfinished snapshot and routing is accepted with an unfinished operator |
| `Reopening.ClosedBeforeRouter` | program/src/close_epoch_account.rs:56-128 | a run to an epoch that can never be closed |
| `EpochRuns.OpeningRuns` | program/src/lib.rs:91-291 | a run from an untouched epoch, for every configuration, to an open vote over a finished snapshot of two operators |
| `EpochRuns.BrokenTieIsNotPublished` | program/src/admin_set_tie_breaker.rs:50-73 | a run that ends with a broken tie, mirrored in the epoch state, an empty consensus result, and routing accepted at once |
| `EpochRuns.PhaseAheadOfGate` | core/src/epoch_state.rs:708-776 | a run that ends in the last slot of the voting window: phase Distribute, routing refused, accepted one slot later |
| `EpochRuns.ExampleOpens` | core/src/constants.rs:6-14 | a configuration and an untouched world for which these runs exist |
| `SystemRuns.RegistrationInMidRound` | program/src/snapshot_vault_operator_delegation.rs:151-209 | from the system's start to a paused operator round, and one accepted registration after which every routing call fails and the paid vault cannot be paid out |
| `SystemRuns.BoxClosedInMidRound` | program/src/close_epoch_account.rs:56-150 | from the system's start to a paused round of the NCN, and the accepted close of the ballot box that strands it |
| `SystemRuns.ExampleStarts` | core/src/constants.rs:6-14 | a system from which both runs can start |
| `EndToEnd.EveryRunConserves` | program/src/lib.rs:91-291 | over every interleaving of epoch instructions, fee updates, deposits, routing and payouts, closes from other epochs and registrations in mid-round included, every open receiver's ledger is right and no lamport is created or lost |
| `EndToEnd.UpdateKeepsSlots` | core/src/fees.rs:206-265 | an accepted fee update, at whatever epoch, keeps the totals of both slots between 1 and 10000 bps |
| `EndToEnd.MoveKeeps` | program/src/lib.rs:91-291 | every move keeps, unless it loses the state of an epoch with accounts or registers a delegation in the middle of its operator's round, the epoch's invariant, the tiers' link to the accounts, and every round on track for what is now read |
| `EndToEnd.RewardRefusedExactlyWhen` | program/src/route_operator_vault_rewards.rs:58-75 | a reward instruction is refused if and only if an account it loads is missing or there is one of the listed reasons, and with that reason |
| `EndToEnd.NcnRoundGoesOnExactlyWhen` | program/src/route_ncn_rewards.rs:30-78 | in a round, a routing call at the current slot is accepted if and only if epoch state, epoch snapshot and ballot box exist |
| `SystemEffects.RouteNcnDoes` | program/src/route_ncn_rewards.rs:30-78 | in the whole system, an accepted NCN routing call splits and shares by the fees of the epoch's snapshot and the votes of its box, and changes nothing but the router |
| `SystemEffects.RouteOperatorDoes` | program/src/route_operator_vault_rewards.rs:27-75 | the same for an operator, by the operator's snapshot |
| `SystemEffects.SnapshotTakesFees` | program/src/initialize_epoch_snapshot.rs:112-126 | a new epoch snapshot carries the fees in force in its own epoch |
| `SystemEffects.ReceiversFollowRouters` | program/src/close_epoch_account.rs:152-183 | the NCN's receiver opens as created and closes with all its lamports, together with its router, and no other instruction of the epoch moves lamports |
| `SystemEffects.OperatorReceiversFollow` | program/src/close_epoch_account.rs:185-262 | the same for an operator's receiver |
| `EndToEnd.NcnRoundCanEnd` | core/src/ncn_reward_router.rs:326-401 | an accepted call whose limit covers all votes ends the round as one pass |
| `EndToEnd.OperatorRoundGoesOnExactlyWhen` | program/src/route_operator_vault_rewards.rs:27-75 | in a round, a routing call is accepted if and only if epoch state and operator snapshot exist |
| `EndToEnd.OperatorRoundCanEnd` | core/src/operator_vault_reward_router.rs:296-373 | an accepted call whose limit covers all slots ends the operator's round as one pass |
| `EndToEnd.StrandedRefuses` | program/src/close_epoch_account.rs:146-150 | with a round in progress and the ballot box closed, routing and all payouts of the first tier are refused |
| `EndToEnd.StrandedRoundStaysStranded` | program/src/close_epoch_account.rs:146-150 | along every run whatever, until its receiver is closed, such a round stays as it is |
| `EndToEnd.StrandedOperatorRefuses` | program/src/close_epoch_account.rs:134-145 | without the operator's snapshot, routing and payouts of the operator are refused |
| `EndToEnd.VoteToLastLamport` | program/src/lib.rs:91-291 | over every run of the whole system from an untouched epoch without those two moves: the epoch's invariant, right books, constant supply, readings as the accounts are or last were, and every reward instruction refused exactly for the listed reasons; the fee bounds follow from the fee configuration |
| `EndToEnd.NcnRoundEndsAsOnePass` | core/src/ncn_reward_router.rs:326-401 | whatever else happens between its calls, an NCN round stays on the way to the one completion, and if it ends with its receiver open, it ends there |
| `EndToEnd.OperatorRoundEndsAsOnePass` | core/src/operator_vault_reward_router.rs:296-373 | the same for an operator's round |

## Left out

- The command line tools, generated clients, scripts and integration harness: input and output around the program.
- Account addresses, seeds, discriminators, byte layout, signer and owner checks: accounts are identified by abstract keys.
- `core/src/vault_registry.rs` and the registration instructions: how mints and vaults get into the registry is not modelled; a registry with distinct vault indices is an input of the weight table.
- The numeric weights and the delegated amounts behind a stake entry: an entry's weight is an input.
- Rent computation, the account payer and reallocation sizes: rent is a constant, and reallocation is a step that either does or does not reach full size.
- Which wallet a closed receiver's lamports go to: closing sends them outside.
- Lamports sent to a receiver's address while no router exists: they count as outside until the receiver is opened.
- The distribution progress counters of the epoch state: reporting only, and no other operation reads them.
- The status the epoch state keeps for itself: no operation reads it.
- Changing the timing parameters during an epoch's run.
- Whether an epoch is eventually closed in full: that depends on off-chain cranks.
- Weight table initialization, the plain setters of the epoch state, and the initialize and close instructions are modelled on values, not as objects updated in place; aliasing between their accounts is not captured.
- Getters, display code and error numbering.
- Instructions.ProcessCastVote: takes the vote's signer and account checks as passed.
- EpochStateAccount.WeightTableStore.SetWeight: says which entry is marked as set and when, not the stored weight value.
- EpochProtocol.DoInitializeEpochState: the configured first valid epoch is taken as passed.
- FeeSchedule.UpdateRefines: fees are the protocol and NCN basis points; the protocol wallet is constant and left out.
