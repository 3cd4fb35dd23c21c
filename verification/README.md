# OracleEscrow, verified

A Dafny 4.11 model of the OracleEscrow contract, its fee-vesting treasury, and the settlement copy its
incentive simulator uses. `dafny verify dfyconfig.toml` checks everything.

## What is modelled

The **escrow** holds one token. Payers open questions that carry money; the admin (or anyone, past a
deadline) sends that money on: to the workers who answered and the platform, or back to the payer. Workers
post bonds that warm up in tranches, unbond slowly, and can be slashed. The state is the token's balances,
the questions with their six statuses, the two side tables (pending resolutions, escalations), challenger
bonds, prepaid and owed balances, stakes, the pending index, and the leaderboard.

The model has two layers.

* `Ledger` gives every entry point as a function from a world to a world or an error, with the contract's
  branches, error order, checked additions and saturations. The theorems are about these functions, chained
  into runs by `Calls`.
* `Escrow` is the contract as it is written: a class whose storage entries are overwritten in place, loops and
  all, with each of the three settlement paths doing its own arithmetic. Every entry point is proved to return the
  same status, and to leave the same state, as its `Ledger` function. The parts it is made of are classes
  too: `Stakes.StakeCell` (the bond being edited), `PendingIndex.PendingStore`, `Leaderboard.BoardStore`,
  `Token.TokenContract`.

| module | holds |
|---|---|
| `Base`, `Token` | integer widths, errors, sums over maps, `mul_bps`, the token |
| `Stakes`, `StakeTotals`, `DepositStack`, `BondRuns`, `EffectiveStake` | the bond, what its operations keep, the stack of dated deposits it implements, alone and over contract runs, the effective stake |
| `Settlement`, `Preview`, `DryRun`, `Simulator` | slashing, the bill of a settlement, its preview as arithmetic, the read-only calls, and the simulator's copy |
| `PendingIndex`, `Leaderboard`, `BoardRuns` | the swap-remove index; the bounded ranking, alone and over contract runs |
| `Consensus` | resolution from raw answers |
| `Ledger`, `Calls`, `Escrow` | the contract as functions, as one state machine, and as a class |
| `Invariant`, `Solvency`, `Runs`, `Balances` | what every reachable state satisfies, and why; the same for a token that bounds only each balance |
| `Frames`, `Lifecycle`, `SweepTimeouts`, `TwoStep` | what one call does, question lives, batch refunds, the agreement of the settlement paths |
| `Effects`, `Rulings` | for each call, exactly when it succeeds and exactly who pays, receives, is credited and is slashed, with the contract's rates and periods as numbers |
| `Refusals`, `Pausing`, `Unbonding` | every error names a fact; what the pause stops; how long stake is held |
| `Challenges`, `Drain` | challenges without an exit, winding down |
| `Migration`, `Obligations`, `Joint` | two instances: moving questions and balances, and every joint run |
| `WideMath`, `Vesting` | 256-bit arithmetic and the vesting treasury |

Conventions. An i128 or u32 is an unbounded integer with the contract's own checks written out: a
`checked_add` is a test with `Fits` that yields `ArithmeticOverflow`, a `saturating_add` on ledger numbers is `SatAdd`.
Host aborts (a missing signature, an underfunded transfer, a panicking `+`, `-` or `unwrap`) are the error `Trap`.
A failed call changes nothing, as on the host; in `Escrow` that is an explicit roll-back. Amounts that reach a
division are never negative, so truncation and floor agree. Authorization is reduced to one fact: addresses
of contracts never sign a call, everybody else may. Admin calls are ordinary steps, open to any use.

## What is false of the code

* The comment at src/lib.rs:5515-5518 announces an override for a resolution flagged by `dispute_resolve`. There
  is none: flagging any open resolution (`Challenges.DisputeSticks`), or giving it a window that reaches the last
  ledger (`Challenges.WindowSticks`), leaves it unsettled in every run (`Challenges.StuckForever`). Both states are
  reached from deployment in three calls and in two (`Challenges.FlaggedFromDeployment`,
  `Challenges.SaturatedFromDeployment`). `Drain.DrainsExactlyWhenReachable` gives the exact condition under which
  everyone can get out without the admin.
* A disputed challenger bond is documented as returned (src/lib.rs:5397, 5546). No call returns one: a bond only
  leaves the table when its question is finalized (`Challenges.BondFrame`), and then it goes to the payout addresses
  (`Challenges.BondIsForfeited`). `Challenges.FlaggedBondNeverReturns` is the failing input, a bond whose challenge the
  admin upholds, and `Challenges.BondLeavesExactlyWhen` the exact condition: the bond ever leaves the escrow if and
  only if the resolution is neither flagged nor open to the last ledger and its winners' u32 counters have room.
* A top-up adds nothing to the effective stake at its own ledger, except at ledger `u32::MAX`, where the
  saturated warmup has already ended: `EffectiveStake.TopUpIsWorthless` states both.
* The preview is not the settlement. `Preview.PreviewPromisesMore` is an input on which it promises a worker one
  stroop more; `Preview.PreviewExactWhen` is the exact condition, on the remainders the losers' slashes leave when
  their halves are shared out, which a caller can sum from the bonds beforehand; and
  `Preview.PreviewAgainstSettlement` gives the gap itself.
* The full i128 range is called safe from intermediate overflow (src/lib.rs:1355-1357), and the preview is required
  not to panic at 10^36 stroops (src/test_dry_run_resolve.rs:73-94). It multiplies before it divides, and overflow
  checks are on (Cargo.toml:57): on a question of 10^36 it aborts where resolve() succeeds
  (`DryRun.PreviewAbortsAtTen36`, and `DryRun.PreviewAbortsFromDeployment` for every such amount).
  `DryRun.PreviewCompletesExactly` is the exact condition: the amount times 10,000 fits, and each loser's whole bond
  times 500.
* The effective stake, documented as a plain view of the bond (src/lib.rs:2515-2526), multiplies first too: a
  stake of more than half of an i128 cannot be read two ledgers after it is posted
  (`DryRun.EffectiveAbortsFromDeployment`). `DryRun.EffectiveReadExactly` is the exact condition: for each tranche
  still warming, its amount times its clamped age fits.

* Stake asked back is documented to stay slashable until the release ledger that begin_unstake returned, so that no
  worker can be out of reach before the answer is settled (src/lib.rs:2339-2347). A second request restarts the clock of
  the whole bucket, under the timeout of that day, and that can be sooner: `Unbonding.ShortenedFromDeployment` is the
  failing run, in which the admin lowers the timeout between two requests and all of the stake is paid out while an
  older question is neither settled nor refundable. `Unbonding.RestartShortensExactlyWhen` is the exact condition: the
  ledger plus the longer of three days and the timeout comes before the release already set. In every run each
  request is held for three days, and for its own timeout too unless the timeout is lowered meanwhile
  (`Unbonding.EveryRequestIsHeld`).
* The pause is documented as refusing submit, deposit, charge and reopen (docs/circuit-breaker.md:28-36). The code
  refuses stake and a challenger's bond as well (src/lib.rs:2277, 5468): `Pausing.PauseBlocks` has all six, and
  `Pausing.PauseSparesTheRest` shows that no other call depends on the switch.

## Model

| member | source | states |
|---|---|---|
| Base.MulBpsIsFloor | src/lib.rs:3564-3566 | divide-then-multiply equals floor(value * bps / 10000) for every non-negative value and rate |
| Base.MulBpsIntermediates | sim/incentive/src/math.rs:47-51 | with a rate up to 10000, every intermediate is at most the value or 10^8, whichever is larger |
| Base.FloorSuperadditive | src/lib.rs:3379-3386 | rounding two parts down never exceeds rounding their sum down and loses at most one stroop |
| Stakes.StakeCell.MatureWarming | src/lib.rs:3464-3485 | the loop moves exactly the ripe tranches into settled and keeps the others in order |
| Stakes.StakeCell.AddWarming | src/lib.rs:3486-3503 | a top-up appends one dated tranche and fails exactly when the warming total would leave i128 |
| Stakes.StakeCell.DrainNewestFirst | src/lib.rs:3506-3530 | the backward loop takes from the newest tranches first, splitting at most one |
| Stakes.StakeCell.TakeSlash | src/lib.rs:3411-3439 | takes the capped share, from warming, then settled, then unbonding, and reports exactly what it took |
| StakeTotals.MatureSound | src/lib.rs:3464-3485 | maturing keeps warming equal to the tranche sum, keeps active and slashable stake, and only raises settled |
| StakeTotals.TopUpSound | src/lib.rs:2276-2305 | a top-up adds its amount to the slashable stake and keeps the bond sound |
| StakeTotals.UnstakeSound | src/lib.rs:2348-2388 | unstaking lowers active stake by the amount and leaves all of it slashable |
| StakeTotals.ReleaseSound | src/lib.rs:2394-2418 | a release pays the whole unbonding bucket and nothing else |
| StakeTotals.SlashSound | src/lib.rs:3411-3439 | what a slash reports is what left the bond; never more than the cap or the bond |
| StakeTotals.SlashIsShare | src/lib.rs:3411-3439 | a slash takes a twentieth of settled, warming and unbonding together, rounded down, or the cap |
| DepositStack.TruncationPrefixSums | src/lib.rs:3506-3530 | keeping the oldest part of a stack makes every prefix sum the smaller of itself and what is kept |
| DepositStack.StepRefines | src/lib.rs:2276-2418 | each operation answers alike on the bond and on its stack, and they keep representing each other |
| DepositStack.MaturedIsAged | src/lib.rs:3464-3485 | the saturating ripeness test of a dated stack is an age test: deposits at least a warmup old, or everything at the last ledger |
| DepositStack.BondIsDepositStack | src/lib.rs:3411-3530 | after any time-ordered mix of top-ups, unstakes, releases and slashes, the bond has answered every call like a stack of dated deposits that only loses its newest end, and at any later ledger reads as active the whole stack and as matured the deposits at least 17,280 ledgers old (all of them at the last ledger); its tranches are positive, date-sorted and summed |
| DepositStack.MaturingIsUnobservable | src/lib.rs:3464-3485 | rolling tranches over early changes no later read |
| BondRuns.CallIsOp | src/lib.rs:2276-2418 | each successful call is, for each stored bond, one operation of the bond or none; a settlement slashes each distinct loser once |
| BondRuns.BondsAreStacks | src/lib.rs:2276-3530 | in every run of the contract each worker's stored bond is the stack its own stakes, unstakes, releases and slashes build: same answers, same reads at this and every later ledger, tranches positive, date-sorted and summed |
| BondRuns.JointBondsAreStacks | src/lib.rs:4953-5173 | the same on either side of every joint run of two instances, where stake that migrates leaves one stack and is granted, mature and oldest, to the other |
| EffectiveStake.GetEffectiveStake | src/lib.rs:2527-2544 | the loop sums settled and each tranche's floored, clamped share, or aborts at the first product or sum that leaves i128; what a sound bond reads as is settled plus each tranche on its ramp |
| EffectiveStake.EffectiveIsRampSum | src/lib.rs:2527-2544 | effective stake is settled stake plus, for each tranche, the largest whole amount not above amount times age over 17,280 ledgers, all of it from that age on and at the last ledger |
| EffectiveStake.OneTrancheRamps | src/lib.rs:2538-2542 | for a bond with one tranche in its first 17,280 ledgers, the part x above settled satisfies x * 17280 <= amount * age < (x + 1) * 17280 |
| EffectiveStake.EffectiveCompletesExactly | src/lib.rs:2538-2542 | the read of a bond whose active stake fits completes if and only if, for each tranche still warming, amount times clamped age fits |
| DryRun.EffectiveReadExactly | src/lib.rs:2527-2544 | the same for every worker in every solvent state, and what is read is settled plus each tranche on its ramp, between matured and active |
| DryRun.OneTrancheReads | src/lib.rs:2527-2544 | the one-tranche ramp, as the call reads it in every solvent state |
| DryRun.EffectiveAbortsFromDeployment | src/lib.rs:2541-2541 | a stake of more than half of an i128 cannot be read two ledgers after it is posted |
| EffectiveStake.EffectiveBetween | src/lib.rs:2505-2544 | effective stake lies between matured and active stake at every ledger |
| EffectiveStake.EffectiveGrows | src/lib.rs:2505-2544 | with no other call it never falls, across the maturing ledger included |
| EffectiveStake.TopUpIsWorthless | src/lib.rs:2276-2305 | a top-up adds nothing at its own ledger, save at the last ledger, where it adds all |
| EffectiveStake.UnstakeLowersByAtMost | src/lib.rs:2348-2388 | unstaking an amount lowers effective stake by at most that amount, despite the floor on each tranche |
| Settlement.SlashesConserved | src/lib.rs:3361-3403 | platform part plus equal winner parts is exactly what was slashed, for any losers |
| Settlement.DistributeSound | src/lib.rs:3361-3403 | the bonds lose exactly the reported total, stay sound, and no entry appears or disappears |
| Settlement.FeeSplit | src/lib.rs:2075-2087 | the fee is a fifth rounded down; fee, dust and n equal shares make up the amount with less than n of dust; the slash cap is the amount |
| Settlement.SlashesSpelledOut | src/lib.rs:3361-3403 | distinct losers lose, one by one, a twentieth of their bond or the amount, and each winner gets half of each, divided by n, floor by floor |
| Settlement.BillSpelledOut | src/lib.rs:2075-2103 | each winner's credit is floor(four fifths of the amount / n) plus those halves, and the platform takes the rest of amount and slashes |
| Settlement.BillConserves | src/lib.rs:2075-2103 | platform take plus n worker credits is the amount plus everything slashed |
| Settlement.BillFits | src/lib.rs:2095-2103 | no checked addition of a settlement overflows while amount and stakes together fit i128 |
| Settlement.CreditAllPointwise | src/lib.rs:3568-3587 | distinct winners are each credited once and nobody else's balance moves |
| Settlement.CreditAllSum | src/lib.rs:3568-3587 | crediting n winners raises the owed total by n credits |
| Settlement.DistinctListsConcat | src/lib.rs:3536-3562 | the two-list condition is the concatenation being duplicate-free |
| Settlement.ValidateWorkerLists | src/lib.rs:3536-3562 | the pairwise scan accepts exactly the duplicate-free pairs of lists |
| DryRun.PreviewForetellsResolve | src/lib.rs:4130-4202 | a preview refused by a guard is resolve()'s own refusal; where resolve() succeeds, the preview completes exactly when its products fit; and when it does, less the losers' remainders, it names each winner's credit and the platform's take to the stroop, unless a u32 counter is full |
| DryRun.PreviewCompletesExactly | src/lib.rs:4155-4202 | past the guards, the preview completes if and only if the amount times 10,000 and each loser's bond times 500 fit an i128; else it aborts |
| DryRun.PreviewAbortsFromDeployment | src/lib.rs:4156-4162 | a question of any larger amount, opened in a deployed contract, is resolved where its preview aborts |
| DryRun.PreviewAbortsAtTen36 | src/test_dry_run_resolve.rs:73-94 | in particular one of 10^36 stroops |
| Preview.PreviewConserves | src/lib.rs:4155-4182 | the previewed take and n shares are the amount and the previewed slashes |
| Preview.PreviewAgainstSettlement | src/lib.rs:4130-4202 | same fee, dust and total slashed as the settlement; the share exceeds the credit by exactly the losers' remainders over 2n, which is at most max(k-1, 0) for k slashed losers, and the platform take is lower by n times that |
| Preview.PreviewExactWhen | src/lib.rs:4159-4181 | preview and settlement agree on share and take if and only if the remainders sum to less than 2n |
| Preview.PreviewPromisesMore | src/lib.rs:4159-4181 | two losers with 20 stroops each and one winner of 100: the preview promises one stroop more than is credited |
| Simulator.SlashInPlace | sim/incentive/src/math.rs:78-98 | the in-place three-bucket slash, on one element of the array and no other |
| Simulator.ResolveInPlace | sim/incentive/src/math.rs:125-157 | the array loop slashes every loser once and returns the running totals |
| Simulator.ProjectCommutesWithSlash | src/lib.rs:3411-3439 | forgetting the tranches of a matured bond commutes with slashing it, for any tranche list |
| Simulator.SimulatorIsContract | sim/incentive/src/math.rs:102-157 | for distinct losers the simulator's worker credit, platform take, total slashed and every loser's buckets are the contract's |
| PendingIndex.AddEnumerates | src/lib.rs:3893-3901 | adding an absent id keeps the array an enumeration, and fails only when the u32 count is full |
| PendingIndex.RemoveEnumerates | src/lib.rs:3904-3928 | swap-remove never traps on a listed id and removes exactly it |
| PendingIndex.EnumeratesCount | src/lib.rs:3893-3928 | the stored count is the number of live ids |
| PendingIndex.PageHolds | src/lib.rs:3142-3162 | a page is min(limit, 100, what remains) ids long and lists its slots in order |
| PendingIndex.PagesListLiveOnce | src/lib.rs:3142-3162 | for any page size the pages of an unchanged index list every live id exactly once |
| PendingIndex.PendingStore.IndexAdd | src/lib.rs:3893-3901 | the three in-place writes are the index insertion |
| PendingIndex.PendingStore.IndexRemove | src/lib.rs:3904-3928 | the in-place swap-remove, including the last-slot case and its panics |
| PendingIndex.PendingStore.ListPending | src/lib.rs:3142-3162 | one page is the slots from start to the clamped end, never more ids than the limit, 100, or what remains |
| Leaderboard.BoardIsExactTop | src/lib.rs:4661-4707 | after any history of credits the board is sorted, at most twenty long, true in its counts, and the exact top of everyone credited by count then by who got there first |
| Leaderboard.RecordAllExtends | src/lib.rs:2245-2250 | a settlement's credits extend that history in list order |
| Leaderboard.BoardStore.UpdateLeaderboard | src/lib.rs:4668-4707 | the find, remove, insert and truncate on the stored vector re-rank one worker |
| Leaderboard.BoardStore.RecordResolvedCredit | src/lib.rs:4661-4667 | bumps the stored count and re-ranks, trapping when the u32 would wrap |
| Frames.StepFramed | src/lib.rs:1358-5658 | every successful call starts from the status, bond and resolution its guards ask for, rewrites its one question along a legal transition, leaves the resolutions and bonds its kind says, and records exactly its winners, once each in order; a batch of refunds touches none of these tables |
| BoardRuns.BoardExactInEveryRun | src/lib.rs:4661-4707 | in every run of the contract each count is the number of credits and the board is the exact top twenty of all workers ever credited |
| Consensus.UnanimousDissenter | src/lib.rs:1934-1967 | no dissenter exactly when all agree; index i exactly when at least three answered and i alone differs from a unanimous rest; an error otherwise |
| Consensus.ConsensusNames | src/lib.rs:1906-1926 | the credited are exactly those with an answer other than the lone dissenter's; the slashed is exactly the lone dissenter, if its resolved answers reach the threshold |
| Consensus.ConsensusListsValid | src/lib.rs:1881-1929 | the derived lists name at least one winner, at most one loser, and nobody twice |
| Invariant.EveryClaimBacked | src/lib.rs:3568-3587 | in a solvent state every live amount, bond, stake and balance is covered by tokens held, hence fits i128 |
| Solvency.RouteSound | src/lib.rs:2001-2059 | a covered take is always paid out in full, never more, split or not |
| Solvency.RouteReaches | src/lib.rs:2001-2059 | public goods gets the floor of its share of the take and the platform exactly the rest; one address that is both gets all of it |
| Solvency.SettledBooks | src/lib.rs:3867-3891 | closing a live question never traps, drops exactly its claim and its index entry |
| Solvency.OpenedBooks | src/lib.rs:1783-1851 | opening adds exactly one claim and one index entry |
| Solvency.RefundTimeoutSafe | src/lib.rs:4225-4241 | the permissionless refund succeeds exactly for pending questions at or past their own deadline |
| Solvency.SettleTogetherSafe | src/lib.rs:5276-5368 | a settlement of a live question overflows nowhere, can fail only on a full u32 count, and lowers the claims by what it pays the platform |
| Solvency.FinalizeSafe | src/lib.rs:5551-5658 | only an unflagged resolution past its window finalizes, and then only a full u32 count can stop it |
| Solvency.ApartIsTogether | src/lib.rs:2075-2103 | crediting everyone then recording everyone, or worker by worker, gives one resulting world |
| Runs.StepSafe | src/lib.rs:1358-5658 | every call by anyone keeps the invariant and the backing of every claim, and never reports an arithmetic overflow |
| Runs.AlwaysSolvent | src/lib.rs:1358-5658 | over every run from deployment the token balance covers live questions, prepaid, owed, every stake bucket and bonds; ArithmeticOverflow is unreachable; the pending index enumerates the live ids |
| Runs.ExactlySolvent | src/lib.rs:1358-5658 | with no unsolicited tokens and no payout to itself, the balance equals the claims to the stroop |
| Runs.BucketsFit | src/lib.rs:3419-3419 | the unchecked sums of stake buckets cannot overflow in a solvent state |
| Balances.SolventOverBalances | src/lib.rs:1358-5658 | solvency and no overflow in every run, assuming of the token only that the escrow's balance fits i128 before each call and after its funding transfer |
| Lifecycle.StepEvolves | src/lib.rs:3854-3891 | every call, batches included, leaves each question as it was or rewrites it legally |
| Lifecycle.TerminalIsForever | src/lib.rs:3854-3891 | a resolved or migrated question keeps its record in every run of one instance |
| Joint.ClosedIsForever | src/lib.rs:3207-3350 | in every joint run of two instances, where questions do migrate, a resolved or migrated record is final on either side |
| Lifecycle.RefundedOnlyReopens | src/lib.rs:3996-4053 | a refunded question changes only when its own payer reopens it |
| Lifecycle.LiveTermsFixed | src/lib.rs:2895-2920 | while a question is live no call moves its payer, amount or deadline |
| Lifecycle.EveryOpeningSettledOnce | src/lib.rs:3803-4053 | over every run of one instance the amounts opened are those in escrow plus those resolved plus those refunded |
| Joint.EveryAmountAccounted | src/lib.rs:3207-4053 | over every joint run, what the source opened is live, resolved, refunded or migrated; what the target opened or was handed is live, resolved or refunded; and what migrations reported is exactly what the source's records show |
| SweepTimeouts.SweepPaysEachOnce | src/lib.rs:4636-4642 | a batch with any duplicates refunds each eligible id once, entry i succeeds exactly at the first occurrence of an eligible id, the escrow pays the sum of the distinct amounts, nothing aborts |
| SweepTimeouts.SweepOrderIrrelevant | src/lib.rs:4636-4642 | two batches with the same ids end alike for every question, balance and store, up to index order |
| TwoStep.SettlementPays | src/lib.rs:2075-2168 | what any settlement pays: each winner the same credit once and nobody else; take plus n credits is amount plus slashes plus forfeited bond |
| Rulings.RoutesExactly | src/lib.rs:2001-2059 | after a payout every address holds what it held, plus the platform's rest, plus public goods' floored share, less the escrow's payment, whichever of these addresses coincide |
| Rulings.ResolveExactly | src/lib.rs:2172-2270 | resolve() succeeds exactly for 1 to 64 distinct workers within the quorum bounds, a pending question and counters with room; then each winner is credited the same spelled-out amount and nobody else, each loser's bond shrinks by a twentieth or the amount and no other bond changes, and the rest is paid to the platform's side |
| Rulings.EscalateResolveExactly | src/lib.rs:5252-5368 | the same for an escalated question |
| Rulings.FinalizeExactly | src/lib.rs:5551-5658 | the same for an unflagged resolution past its window, by its recorded lists, its bond added to the platform's side |
| Rulings.ConsensusExactly | src/lib.rs:1881-1929 | succeeds exactly for 1 to 64 answers of distinct workers, unanimous or with a lone dissenter, on a pending question within bounds and with room in the counters; credits exactly those who agreed, and slashes exactly a dissenter with enough resolved answers |
| TwoStep.ResolveIsSettle | src/lib.rs:2172-2270 | resolve() of a pending question is the shared settlement, for every state and list |
| TwoStep.FinalizeIsResolve | src/lib.rs:5551-5658 | finalizing an unbonded resolution leaves the whole state one resolve() with its lists would leave at that ledger; only the quorum bounds are not asked again, and outside them that resolve() is refused |
| TwoStep.EscalateResolveIsResolve | src/lib.rs:5252-5368 | settling an escalated question is one resolve() with the second quorum's lists |
| TwoStep.MarkingIsUndone | src/lib.rs:5195-5453 | the first step of either path only marks the question: taking the mark off restores the state |
| Challenges.BondGoesToPlatform | src/lib.rs:5598-5641 | a bond changes nothing but the payout: same store, no bystander affected, the escrow pays out the bond more |
| Drain.EveryoneGetsOut | src/lib.rs:2348-2418 | there is a schedule with no admin call in which every call succeeds and everyone who can sign gets everything out within one unbonding period of the last deadline; with no outside tokens and no contract earning, the escrow ends with exactly nothing |
| Drain.FinalizeFrame | src/lib.rs:5551-5658 | exactly which tables a finalization changes, and to what |
| Drain.CrowdNeedsAdmin | src/lib.rs:4661-4667 | no call of the parties makes room in a winner's counter that is too full for the resolutions still to credit it |
| Challenges.DisputeSticks | src/lib.rs:5523-5538 | flagging any recorded resolution makes it stuck |
| Challenges.WindowSticks | src/lib.rs:5409-5453 | a new resolution is stuck exactly when its window reaches the last ledger |
| Challenges.FlaggedFromDeployment | src/lib.rs:5523-5538 | from any deployment with a funded payer, three calls reach a stuck resolution by flagging |
| Challenges.SaturatedFromDeployment | src/lib.rs:5409-5453 | and two calls reach one by its window |
| Challenges.StuckForever | src/lib.rs:5523-5538 | in no run, whoever calls what, is a stuck resolution released, and its amount stays held |
| Challenges.BondFrame | src/lib.rs:5462-5513 | a call adds a bond only at a fresh id, and only the finalization of its question changes or removes one |
| Challenges.BondStays | src/lib.rs:5462-5658 | in every run a posted bond stays as it is until its question is finalized |
| Challenges.StuckBondForever | src/lib.rs:5523-5658 | a bond on a stuck resolution is never moved: it and the question's amount stay held in every run |
| Challenges.FlaggedBondNeverReturns | src/lib.rs:5462-5538 | a bond is posted and the resolution flagged; in every run from there the challenger's bond is still inside |
| Challenges.FinalizesExactlyWhen | src/lib.rs:5551-5573 | finalization succeeds if and only if the resolution is unflagged, past its window, and its winners' counters have room |
| Challenges.BondIsForfeited | src/lib.rs:5598-5641 | a finalized bond joins the take that is routed to the payout addresses, leaves the escrow's balance, and the challenger receives nothing |
| Challenges.BondLeavesExactlyWhen | src/lib.rs:5462-5658 | some run takes the bond out if and only if the resolution is neither flagged nor open to the last ledger and its winners' counters have room |
| Drain.DrainsExactlyWhenReachable | src/lib.rs:4225-5658 | in every solvent state, the parties can all get out without the admin if and only if no question is escalated, no resolution is stuck, and no winner's counter is too full |
| Drain.EmptiesExactlyWhenReachable | src/lib.rs:4225-5658 | with no outside tokens and no contract earning, exactly then can they bring the escrow to zero |
| Effects.DepositExactly | src/lib.rs:1466-1497 | succeeds exactly unpaused, signed and funded; moves the amount from payer to escrow and onto the payer's balance, and nothing else |
| Effects.WithdrawBalanceExactly | src/lib.rs:1536-1566 | succeeds exactly for a signing payer with the balance; pays that payer and debits it, and nothing else |
| Effects.WithdrawExactly | src/lib.rs:2623-2668 | succeeds exactly for a signing worker owed as much; the recipient's tokens rise and the worker's owed balance falls by the amount, and nothing else |
| Effects.StakeExactly | src/lib.rs:2276-2305 | succeeds exactly unpaused, signed and funded; the worker pays, its active stake rises by as much, no other bond or table changes |
| Effects.BeginUnstakeExactly | src/lib.rs:2348-2388 | succeeds exactly for a signing worker with the active stake; the amount becomes unbonding until min(u32::MAX, now + max(51840, timeout)); no token, other bond or table changes |
| Effects.CompleteUnstakeExactly | src/lib.rs:2394-2418 | succeeds exactly for a signing worker with something unbonding and due; pays that worker the whole bucket, and nothing else changes |
| Effects.SubmitExactly | src/lib.rs:1358-1379 | succeeds exactly unpaused, signed, funded, under an unused id and with room in the count; opens a pending question on today's ledger and timeout for the payer's tokens |
| Effects.ChargeExactly | src/lib.rs:1724-1744 | the same from the prepaid balance, moving no token |
| Effects.ReopenExactly | src/lib.rs:3996-4053 | succeeds exactly for the funded, signing payer of a refunded question; fresh clock and amount, the old timeout |
| Effects.RefundExactly | src/lib.rs:3803-3852 | succeeds exactly on a pending question; its payer gets the amount and the question is closed |
| Effects.RefundTimeoutExactly | src/lib.rs:4225-4241 | succeeds exactly on a pending question from ledger min(u32::MAX, created_at + timeout) on, with the same effect |
| Effects.EscalateExactly | src/lib.rs:5195-5243 | succeeds exactly for 1 to 64 distinct workers and a pending question; records both lists as given and the mark |
| Effects.ResolveChallengeableExactly | src/lib.rs:5409-5453 | the same within the quorum bounds; records both lists with a window to min(u32::MAX, now + window) |
| Effects.PostBondExactly | src/lib.rs:5462-5513 | succeeds exactly unpaused, signed and funded, strictly inside the window of a recorded resolution without a bond; moves the tokens in and records the challenger's bond |
| Effects.DisputeExactly | src/lib.rs:5523-5538 | succeeds exactly on a recorded resolution, and flags that one |
| Effects.SettingsExactly | src/lib.rs:2900-4470 | a timeout of 1 to 120960 ledgers, a share of at most 10000 basis points, ordered quorum bounds; nothing but the setting changes |
| Refusals.RefusalsAreTrue | src/lib.rs:423-589 | in every solvent state, whichever contract error a call returns, the fact it names holds of its arguments and the state |
| Pausing.PauseBlocks | src/lib.rs:3648-3653 | while paused, submit, deposit, charge, reopen, stake and post_challenge_bond are refused whatever their arguments |
| Pausing.PauseSparesTheRest | src/lib.rs:3029-3043 | no other call is refused as paused or depends on the switch at all |
| Unbonding.PaysExactlyWhenDue | src/lib.rs:2339-2418 | in every run complete_unstake() pays exactly when something is unbonding and both 51840 ledgers and the timeout of the latest request have passed since it, or at the last ledger; by then every question opened up to that request with a timeout no longer is refundable |
| Unbonding.EveryRequestIsHeld | src/lib.rs:2339-2418 | in every run, short of the last ledger, nothing is paid within 51840 ledgers of any earlier request, nor within that request's timeout unless the timeout is lowered meanwhile |
| Unbonding.RestartShortensExactlyWhen | src/lib.rs:2363-2370 | a further request brings the release forward exactly when the ledger plus the longer of 51840 and the timeout comes before it |
| Unbonding.ShortenedFromDeployment | src/lib.rs:2339-2372 | from any deployment with a longer timeout, a run in which all stake is released while a question opened before the first request is neither settled nor refundable |
| Migration.MigrateOneExact | src/lib.rs:3219-3281 | a question moves exactly when pending here, unknown there and the target trusts this contract, with unchanged terms |
| Migration.BatchAllOrNothing | src/lib.rs:3207-3350 | a batch succeeds exactly when its ids are distinct and all movable; then each is Migrated here and live there as it was, the total is what was paid across; otherwise nothing changes on either side |
| Migration.MigrateAddressExact | src/lib.rs:4990-5070 | one address's stake, earnings and balance move in kind with their tokens |
| Migration.BalancesConserved | src/lib.rs:4953-5173 | listed addresses, however often listed, end with nothing here and both holdings there, in kind; claims, tokens and surpluses of the pair are unchanged; nothing overflows |
| Migration.TotalsConserved | src/lib.rs:4953-5173 | no address's total over the two sides changes |
| Obligations.BothAlwaysSolvent | src/lib.rs:3191-3350 | in every joint run of two instances each side stays solvent by itself and nothing overflows |
| Joint.TokensElsewhere | src/lib.rs:1358-5658 | a call that pays nothing to another contract leaves that contract's tokens exactly as they were |
| Joint.BothExactlySolvent | src/lib.rs:3191-3350 | over clean joint runs each side holds exactly what it was deployed with and what it owes |
| Obligations.EveryObligationOnce | src/lib.rs:3191-3350 | in every joint run each obligation ever opened is live at the source, or live at the target, or was paid out, exactly one of these and once; while live it keeps the payer, amount, created_at and timeout it was opened with |
| Escrow.OracleEscrow.Submit | src/lib.rs:1358-1379 | transfer, question, index and count in place; any failure leaves no trace |
| Escrow.OracleEscrow.Deposit | src/lib.rs:1466-1497 | adds to the prepaid balance after the transfer |
| Escrow.OracleEscrow.WithdrawBalance | src/lib.rs:1536-1566 | debits the prepaid balance, then pays |
| Escrow.OracleEscrow.Charge | src/lib.rs:1724-1744 | opens a question from the prepaid balance |
| Escrow.OracleEscrow.OpenNew | src/lib.rs:1783-1851 | records a question, its index entry and the open count |
| Escrow.OracleEscrow.ReopenQuestion | src/lib.rs:3996-4053 | only the payer of a refunded question reopens it, with a fresh clock and the old timeout |
| Escrow.OracleEscrow.Refund | src/lib.rs:3803-3852 | pays the payer and closes the question |
| Escrow.OracleEscrow.TryRefundTimeout | src/lib.rs:4225-4241 | the deadline check before the refund |
| Escrow.OracleEscrow.SweepTimeouts | src/lib.rs:4636-4642 | the batch loop records contract errors and goes on |
| Escrow.OracleEscrow.SettleAs | src/lib.rs:3867-3891 | the one place a question leaves the index |
| Escrow.OracleEscrow.CreditOne | src/lib.rs:3568-3587 | the checked credit of one balance |
| Escrow.OracleEscrow.SlashOne | src/lib.rs:3411-3439 | matures, slashes and stores one bond; an absent or zero slash writes nothing |
| Escrow.OracleEscrow.DistributeSlashes | src/lib.rs:3361-3403 | the loop over losers with its checked running totals reports overflow exactly when the final totals do not fit |
| Escrow.OracleEscrow.RoutePlatformTake | src/lib.rs:2001-2059 | one or two transfers of the take |
| Escrow.OracleEscrow.AcceptLists | src/lib.rs:2180-2193 | the list checks in the contract's order |
| Escrow.OracleEscrow.SettleLeg | src/lib.rs:2063-2168 | settles one leg: slashes, credits, then the take |
| Escrow.OracleEscrow.Resolve | src/lib.rs:2172-2270 | resolve(), rolled back whole on any failure |
| Escrow.OracleEscrow.CreditAndRecordWorkers | src/lib.rs:5338-5347 | the interleaved credit-and-record loop |
| Escrow.OracleEscrow.SettleEscalated | src/lib.rs:5312-5354 | the second copy of the settlement arithmetic agrees with the first |
| Escrow.OracleEscrow.EscalateResolve | src/lib.rs:5252-5368 | escalate_resolve(), rolled back whole on any failure |
| Escrow.OracleEscrow.SettleFinalized | src/lib.rs:5575-5641 | the third copy, with a forfeited bond added to the take |
| Escrow.OracleEscrow.FinalizeResolve | src/lib.rs:5551-5658 | finalize_resolve() with its guards in order |
| Escrow.OracleEscrow.PreviewResolve | src/lib.rs:4130-4202 | resolve()'s guards in order, then checked arithmetic that aborts where a product or sum does not fit, with nothing written |
| Escrow.OracleEscrow.GetEffectiveStake | src/lib.rs:2527-2544 | the read of a stored or absent bond, with its abort |
| Escrow.OracleEscrow.ResolveByConsensus | src/lib.rs:1881-1929 | duplicate scan, classification, lists, settlement |
| Escrow.OracleEscrow.SplitAnswers | src/lib.rs:1906-1926 | the loop lists as workers exactly those who agreed, and as loser exactly a dissenter at or above the threshold |
| Escrow.OracleEscrow.Escalate | src/lib.rs:5195-5243 | stores the first verdict and marks the question Disputed |
| Escrow.OracleEscrow.ResolveChallengeable | src/lib.rs:5409-5453 | stores the lists with a saturating window and marks the question |
| Escrow.OracleEscrow.PostChallengeBond | src/lib.rs:5462-5513 | one bond, inside the window |
| Escrow.OracleEscrow.DisputeResolve | src/lib.rs:5523-5538 | flags the resolution |
| Escrow.OracleEscrow.Stake | src/lib.rs:2276-2305 | pulls the tokens and adds a warming tranche to the matured bond |
| Escrow.OracleEscrow.BeginUnstake | src/lib.rs:2348-2388 | moves stake to unbonding, newest warming first, restarts its clock, and answers the release ledger, min(u32::MAX, now + max(51840, timeout)) |
| Escrow.OracleEscrow.CompleteUnstake | src/lib.rs:2394-2418 | pays the unbonding bucket once its ledger has come |
| Escrow.OracleEscrow.Withdraw | src/lib.rs:2623-2668 | pays earnings to the chosen recipient; `Effects.WithdrawExactly` says who gains and loses what |
| Escrow.OracleEscrow.SetMigrationSource | src/lib.rs:3168-3186 | names the trusted source, never itself, or clears it |
| Escrow.OracleEscrow.ImportQuestion | src/lib.rs:3293-3350 | takes a question only from the named source, with its funds |
| Escrow.OracleEscrow.MigrateOne | src/lib.rs:3219-3281 | settles locally, then has the target import |
| Escrow.OracleEscrow.MigratePending | src/lib.rs:3207-3285 | all ids or none, on both objects |
| Escrow.OracleEscrow.ImportBalances | src/lib.rs:5093-5173 | pulls the funds and credits stake as settled, owed and prepaid |
| Escrow.OracleEscrow.MigrateAddress | src/lib.rs:4990-5070 | removes the local entries, then has the target import them |
| Escrow.OracleEscrow.MigrateBalances | src/lib.rs:4953-5073 | all addresses or none, on both objects |
| WideMath.MulWide | contracts/fee-vesting/src/lib.rs:244-263 | high and low halves are exactly the product, and no u128 operation on the way overflows |
| WideMath.DivWideByI128 | contracts/fee-vesting/src/lib.rs:267-305 | the high limb is zero exactly when the floor fits 128 bits, and the result is the exact floor exactly when that fits i128 |
| WideMath.TwoLimbs | contracts/fee-vesting/src/lib.rs:276-299 | dividing limb by limb with a carried remainder divides the whole |
| Vesting.VestedAmount | contracts/fee-vesting/src/lib.rs:145-176 | both paths give nothing before the cliff, the total from the end on, and in between the v with v * (end - start) <= total * (now - start) < (v + 1) * (end - start) |
| Vesting.VestedOnTheLine | contracts/fee-vesting/src/lib.rs:145-176 | the same of the specification, for every legal schedule and time |
| Vesting.VestedGrows | contracts/fee-vesting/src/lib.rs:145-176 | vested is monotone in time and within 0 and total |
| Vesting.NeverAheadOfSchedule | contracts/fee-vesting/src/lib.rs:77-240 | over every run what was paid is what is recorded as claimed, and never more than is vested |
| Vesting.ClaimsSumToVested | contracts/fee-vesting/src/lib.rs:192-223 | whatever the split, the claims of a run sum to what is vested at the last one, which is on or past the cliff and on that line; from the end on, to exactly the total |
| Vesting.WhoMayCall | contracts/fee-vesting/src/lib.rs:77-240 | initialization needs both signatures, a blank treasury and an ordered, positive schedule; a new beneficiary needs the admin's; a claim by name is the beneficiary's own |
| Vesting.ScheduleFixed | contracts/fee-vesting/src/lib.rs:77-124 | once initialized no call changes the schedule or the admin |
| Vesting.SplitIrrelevant | contracts/fee-vesting/src/lib.rs:192-223 | two continuations that end in a claim at the same time have paid the same |
| Vesting.FundedClaims | contracts/fee-vesting/src/lib.rs:179-223 | a treasury funded once stays funded, so a claim succeeds exactly when something is unlocked and pays exactly that to the current beneficiary |
| Vesting.FeeVesting.Initialize | contracts/fee-vesting/src/lib.rs:77-106 | configures once, with a legal schedule and both signatures |
| Vesting.FeeVesting.ChangeBeneficiary | contracts/fee-vesting/src/lib.rs:113-124 | only the admin's signature moves the beneficiary, and nothing else moves |
| Vesting.FeeVesting.ClaimableAmount | contracts/fee-vesting/src/lib.rs:134-142 | vested less claimed |
| Vesting.FeeVesting.ClaimVested | contracts/fee-vesting/src/lib.rs:192-223 | records, then pays; a failed payment undoes the record |
| Vesting.FeeVesting.ClaimVestedAs | contracts/fee-vesting/src/lib.rs:226-240 | the same claim, for the beneficiary only |

## Left out

- Assets other than the default token, and baskets: one token, one leg a question. Bonds are collected in the default token and forfeited in the question's, so money properties are stated where the two are the same.
- src/lib.rs:1996 leaves `settle_asset` without a body and src/lib.rs:2063-2168 is that body; it is modelled as such, with `question_token` read as the leg's token.
- Storage lifetimes, archival, events, getters, snapshots, reputation, category counts, participants, opened/resolved/refunded counters, the overturned flag: they feed no modelled decision.
- Signatures: which key signs is not modelled, only that contracts do not sign. Passkeys, KYC and the resolver role are host or caller checks.
- Owed locks stay at zero: one lock gates every asset and is not migrated.
- Upgrade and admin rotation: timer checks around host code. `open_question` does not clamp a timeout to a pending upgrade, whatever src/lib.rs:105-110 says, and no such claim is made.
- Configuration setters (timeout, pause, public goods, quorum bounds, established count) are steps of the state machine in `Calls`, without a method of their own in the class.
- Templates, delegates, streams, underwriters, commit-reveal and `compute_median` have no calling code.
- An absent tranche vector and an empty one are the same value here; the contract reads them alike.
- Re-entry: a token or a migration target that calls back is outside the model; both are the honest contracts described here.
- Drain.EmptiesExactlyWhenReachable: a zero balance is promised where no token came from outside, no payout address is the escrow and no contract, which cannot sign, earns or is about to; without these `Drain.DrainsExactlyWhenReachable` still says who gets out.
- The float-driven simulation and reporting of sim/incentive.
