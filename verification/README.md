# Cross-chain vault: verified model

This project models the accounting, transport, wire format and authorization parsing of a vault whose assets
live on two chains, and proves what these components promise. `dafny verify dfyconfig.toml` checks all of it.

## What is modelled

**The vault** (`Vault*.dfy`). `VaultState` is the canonical state, `VaultSpec` the 26 operations as functions
from state to state with every refusal. Deposits and redemptions follow one life cycle with assets and shares
exchanged, so both are written once, indexed by `Side`. `VaultInvariant` states over unbounded sums what the
program's own checks compute with 128-bit loops; `VaultPreservation` proves it of every run. On top of it come
payouts, order independence of recalls, settlement windows, refusals, prices, and what no run undoes.
`VaultAcceptance` gives the exact condition of every operation in plain arithmetic, with `VaultSettlement`,
`VaultRequests`, `VaultGenesis` and `VaultAuthority` for what moves and who may; `VaultReasons` says that every
refusal is true.
`Vault.dfy` is the in-place form: where the program works statement by statement on one side, in a loop or in
stages, a method follows it and is proved to make the specified step; the other operations take over the
specified outcome.
`VaultChecks` holds the executable checks themselves, each proved to pass exactly when its predicate holds.

**The remote leg's ledger** (`TransportLedger.dfy`, `Lockstep.dfy`) and its joint run with the vault: a
settlement travels from the ledger to the vault as a message while any vault operation may run.

**The transport engine** (`Sim*.dfy`). `SimSpec` gives every operation as a function on a network value,
`SimPlaces` the invariant that every event is in exactly one place, `SimProgress` and `SimRun` termination and
whole runs, `SimValue` conservation under faults, `SimLateFault` the run that shows its condition is needed.
`SimFaults`, `SimFanout`, `SimDelivery`, `SimBarriers` and `SimControl` say what faults, attempts, barriers and
control operations do, read off the plan and the network without the functions that compute it.
`Simulator.dfy` is the class with the program's own fields and loops, proved against the functions of `SimSpec`.

**The wire codec** (`Wire*.dfy`). Field tables with offsets and widths, one generic inverse for all tables,
seven bodies, the encoder that fills a buffer in place, and the decoder. `WireFields` states where every named
field is, byte by byte, and `WireRules` which messages are accepted.

**The authorization parser** (`Base64Url.dfy`, `Jwt*.dfy`). Canonical Base64URL (sections 3.5 and 5 of RFC
4648), the JSON subset (RFC 8259) as documents with their whitespace, the cursor parser, and the compact
signing input (section 5.1 of RFC 7515). `Base64Bits` and `JwtSpelling` state the literal alphabet, names and
numbers.

## Points to know

- The comment above `check_price_never_falls` (crates/accounting-model/src/invariant.rs:296-298) promises that
  the price only rises unless a loss or impairment was recorded. The code does not keep that for every run:
  `apply_remote_valuation` may lower the accepted value with no new loss. `PriceCanFallWithoutLoss` is such a
  run. `PricesRiseIff` says exactly which runs keep the promise; `BackingFallsIff` and `PricesNeverFall` say which
  operations can break it.
- A partial fault is checked against the amount its event was requested for, which a piece inherits from the event
  it was split from (crates/xchain-sim/src/simulator.rs:884-932). Accepted after the split, it can raise a piece above
  its share; `LatePartialOverDelivers` is such a run, and `CalmRunsConserve` excludes exactly such late faults beside
  duplication and over-delivery.
- `check_asset_conservation` does not count `unattributed_inbound`, so neither does `AssetsConserved`.
- Integers are mathematical, with 64- and 128-bit limits written out. Claims that need all issued assets to fit
  128 bits say so with `SupplyFits`; the invariant itself does not need it.
- 32-byte identifiers are 256-bit numbers. Keccak-256 and the message identity are unknown functions passed as
  parameters; nothing is claimed about collisions.
- A subtraction or sum the program checks but the model proves can never fail is written as plain arithmetic in
  the classes, so that its well-formedness is the proof.

## Model

| member | source | states |
|---|---|---|
| `Pricing.RoundTripNeverGains` | crates/accounting-model/src/math.rs:44-59 | converting assets to shares and back never returns more than it started with |
| `Pricing.DustBound` | crates/accounting-model/src/transition.rs:290-334 | the floor of a sum exceeds the sum of the floors by less than the number of parts, for any number of parts |
| `Pricing.SettlementNeverLowersPrice` | crates/accounting-model/src/transition.rs:271-350 | burning and minting at one price, both rounded down, pays out less than the whole backing and never lowers assets per share |
| `VaultInvariant.GenesisEstablishes` | crates/accounting-model/src/state.rs:275-347 | every accepted genesis satisfies the invariant |
| `VaultGenesis.OpensIff` | crates/accounting-model/src/state.rs:275-347 | a vault opens if and only if its configuration is usable, no account is listed twice and supply and window fit; only the listed accounts then hold anything and the first epoch is open |
| `VaultPreservation.RequestKeeps` | crates/accounting-model/src/transition.rs:104-140 | a deposit or redemption request keeps the whole invariant |
| `VaultPreservation.CancelKeeps` | crates/accounting-model/src/transition.rs:142-178 | a cancellation keeps the whole invariant |
| `VaultPreservation.ClaimKeeps` | crates/accounting-model/src/transition.rs:380-440 | a claim lowers the reserve by exactly the entitlement it consumes and keeps the invariant |
| `VaultPreservation.RefundKeeps` | crates/accounting-model/src/transition.rs:442-511 | a refund lowers escrow by exactly the request it consumes and keeps the invariant |
| `VaultPreservation.AbortKeeps` | crates/accounting-model/src/transition.rs:353-378 | an abort turns the epoch's pending amounts into refunds and keeps the invariant |
| `VaultPreservation.StepKeeps` | crates/accounting-model/src/transition.rs:13-83 | each of the 26 operations keeps conservation, explained escrow, explained reserves and dust, ordered epochs and consistent cross-chain books |
| `VaultPreservation.RunKeeps` | crates/accounting-model/src/transition.rs:13-83 | the invariant holds after every run, refused steps included |
| `VaultPreservation.ReachableStatesSatisfyInv` | crates/accounting-model/src/invariant.rs:85-96 | every state reachable from genesis satisfies the invariant, with no bound on supply |
| `VaultPayouts.ReserveCovers` | crates/accounting-model/src/invariant.rs:216-254 | the reserve of a side covers the entitlement of each of its outstanding claims |
| `VaultPayouts.PayoutSucceeds` | crates/accounting-model/src/transition.rs:380-511 | every outstanding claim or refund is accepted and pays exactly its value; the asset side needs the supply to fit 128 bits |
| `VaultPayouts.PayoutsCommute` | crates/accounting-model/src/transition.rs:380-511 | any two payouts are accepted in either order with the same result |
| `VaultPayouts.PayoutsSucceed` | crates/accounting-model/src/transition.rs:380-511 | any list of distinct outstanding payouts is accepted, credits every account with the value of its own, and consumes exactly those listed |
| `VaultPayouts.AllClaimsLeaveOnlyDust` | crates/accounting-model/src/invariant.rs:216-254 | once every claim is taken, reserve and claimable shares hold exactly the recorded dust |
| `VaultPayouts.AllRefundsLeaveOnlyPending` | crates/accounting-model/src/invariant.rs:177-213 | once every refund is taken, escrow holds exactly the current epoch's pending amount |
| `VaultPayouts.RefundsGoHome` | crates/accounting-model/src/transition.rs:442-511 | the refunds of one epoch give each account its own request back and nothing else |
| `VaultPayouts.AbortReturnsExactAmounts` | crates/accounting-model/src/transition.rs:353-378 | from every frozen state with an open epoch, abort followed by its refunds is accepted and returns every requester's exact amount |
| `VaultPayouts.AbortEmptiesEscrow` | crates/accounting-model/src/transition.rs:353-378 | after the abort, taking every refund empties both escrows |
| `VaultTransfers.ArrivalsAddUp` | crates/accounting-model/src/transition.rs:762-790 | any list of arrivals is accepted and lands as their total would in one arrival |
| `VaultTransfers.NoticeOrderDoesNotMatter` | crates/accounting-model/src/transition.rs:699-790 | wherever the recall notice comes among the arrivals, all steps are accepted and backing, transit and NAV agree; without a surplus the states are identical, with one they differ only in the bucket that books it |
| `VaultTransfers.RecallSettlesFromItsStart` | crates/accounting-model/src/transition.rs:673-740 | whatever runs between the start of a recall and its notice, accepted value, cap, recognized and cumulative loss settle from the values at the start |
| `VaultTransfers.ReportDuringRecall` | crates/accounting-model/src/transition.rs:792-823 | a report during a recall, whatever ran since its start, answers with the value at the start less every loss realized since |
| `VaultTransfers.RecallTakesItsNotice` | crates/accounting-model/src/transition.rs:673-760 | whatever runs in between, a recall takes exactly the notices that name it and account for at most what it asked for |
| `VaultTransfers.CloseSettlesExactly` | crates/accounting-model/src/transition.rs:850-891 | between the close request and its settlement no run moves the allocation's books; the settlement lowers NAV by exactly the shortfall, adds it to both impairment totals and leaves recognized loss alone |
| `VaultTransfers.CompletionAcceptedIff` | crates/accounting-model/src/transition.rs:650-671 | within the supply bound, a completion is accepted if and only if it names the active allocation or a close was requested |
| `VaultTransfers.CloseAcceptedIff` | crates/accounting-model/src/transition.rs:869-891 | the exact condition under which a close settlement is accepted; it never underflows |
| `VaultTransfers.RecoveryAcceptedIff` | crates/accounting-model/src/transition.rs:911-930 | the exact condition under which a recovery settlement is accepted |
| `VaultTransfers.NoticeAcceptedIff` | crates/accounting-model/src/transition.rs:699-760 | the exact condition under which a recall notice is accepted; it never underflows |
| `VaultRefusals.DustIsMeasurable` | crates/accounting-model/src/transition.rs:290-334 | in a reachable state the dust subtraction of a settlement never underflows |
| `VaultRefusals.FinalizeRefusals` | crates/accounting-model/src/transition.rs:271-350 | a settlement is refused only for mode, epoch, missing valuation, liquidity or width |
| `VaultRefusals.NoInternalRefusals` | crates/accounting-model/src/transition.rs:13-83 | in a reachable state no operation is refused for an underflow, a division by zero or a settled current epoch |
| `VaultReasons.RefusalIsReal` | crates/accounting-model/src/transition.rs:13-930 | in a reachable state within the supply bound, every refusal of every operation names a reason that holds of the state and the arguments, or a number that would not fit |
| `VaultAcceptance.AcceptedIff` | crates/accounting-model/src/transition.rs:13-930 | in a reachable state within the supply bound, each of the 26 operations is accepted if and only if a plain condition on the state and its arguments holds |
| `VaultAcceptance.EpochAcceptedIff` | crates/accounting-model/src/transition.rs:261-269 | the exact conditions of a cutoff, at its announced time and not before, of an abort and of a new epoch |
| `VaultAcceptance.AllocationAcceptedIff` | crates/accounting-model/src/transition.rs:619-648 | an allocation starts if and only if the administrator asks, the vault is active with an open epoch and no cycle, the id is new, and idle assets cover it |
| `VaultAcceptance.StartAcceptedIff` | crates/accounting-model/src/transition.rs:673-910 | the exact conditions of a recall, a close request and a recovery, the administrator among them |
| `VaultSettlement.FinalizeAcceptedIff` | crates/accounting-model/src/transition.rs:271-350 | a settlement is accepted if and only if the vault is active, the epoch cut off and, under exposure, locked, idle assets from before it cover the redemptions at the floored price, and the widths fit |
| `VaultSettlement.FinalizeMoves` | crates/accounting-model/src/transition.rs:271-350 | idle assets fall by the redemptions and rise by the deposits, reserves, escrows, supply and burned shares move by the same quotients, and the terms record them |
| `VaultRequests.RequestAcceptedIff` | crates/accounting-model/src/transition.rs:104-140 | a request is accepted if and only if the vault is active, the epoch open, and the amount is positive, at least the minimum and within the balance |
| `VaultRequests.CancelAcceptedIff` | crates/accounting-model/src/transition.rs:142-259 | a cancellation is accepted if and only if the vault is not frozen, the epoch is open and the holder has an active request whose cancelled total fits: also while paused |
| `VaultRequests.RequestShifts` | crates/accounting-model/src/transition.rs:104-140 | a request moves exactly its amount from the holder's balance to its own entry, the escrow and the pending amount, and touches no other holder |
| `VaultRequests.CancelShifts` | crates/accounting-model/src/transition.rs:142-259 | a cancellation moves exactly the request back |
| `VaultRequests.CancelUndoesRequest` | crates/accounting-model/src/transition.rs:104-259 | a request followed by its cancellation restores balance, escrow and pending amount, and returns an earlier request with it; only the cancelled total can refuse it |
| `VaultAuthority.OthersAreRefused` | crates/accounting-model/src/transition.rs:570-584 | in every state an operation by an actor not entitled to it is refused as unauthorized, before any other reason |
| `VaultAuthority.AuthorityIsFixed` | crates/accounting-model/src/transition.rs:541-584 | no run changes the administrator or the guardian |
| `VaultAuthority.StrangersChangeNothing` | crates/accounting-model/src/transition.rs:570-584 | every run ends exactly as the run of its entitled operations alone |
| `VaultPrice.BackingFallsIff` | crates/accounting-model/src/transition.rs:603-930 | an accepted operation other than a settlement lowers the backing if and only if a condition on its arguments and the state before it holds |
| `VaultPrice.SettlementKeepsPrices` | crates/accounting-model/src/transition.rs:271-350 | a settlement, also one priced from a locked valuation, keeps all finalized prices in order and the current one at or above them |
| `VaultPrice.RunKeepsPrices` | crates/accounting-model/src/invariant.rs:296-319 | over every run in which no other operation lowers the backing, finalized prices stay in order |
| `VaultPrice.PricesNeverFall` | crates/accounting-model/src/invariant.rs:296-319 | the same from genesis |
| `VaultPrice.ParRunsKeepPrices` | crates/accounting-model/src/invariant.rs:296-319 | in every run where accepted remote value stays at the principal cap with no loss or impairment, finalized prices never decrease |
| `VaultPrice.SettlementKeepsOrderIff` | crates/accounting-model/src/invariant.rs:296-319 | a settlement keeps finalized prices in order if and only if its basis is priced at or above every earlier one |
| `VaultPriceRuns.LatestDecides` | crates/accounting-model/src/invariant.rs:296-319 | with settled prices in order, comparing a new price with the latest one compares it with all of them |
| `VaultPriceRuns.RunKeepsOrderIff` | crates/accounting-model/src/invariant.rs:296-319 | a run keeps finalized prices in order if and only if each of its accepted settlements is priced at or above the latest one before it |
| `VaultPriceRuns.PricesRiseIff` | crates/accounting-model/src/invariant.rs:296-319 | the same from genesis: exactly when the promise that prices never fall is kept |
| `VaultHistory.OutcomesAreFinal` | crates/accounting-model/src/transition.rs:271-378 | once an epoch has an outcome no run changes it, and no later epoch gets an earlier id |
| `VaultHistory.NextEpochIsNew` | crates/accounting-model/src/transition.rs:513-539 | a new epoch has an id above every outcome, no requests yet, the configured window from now on, and starts no earlier than the last cutoff |
| `VaultHistory.FrozenForever` | crates/accounting-model/src/transition.rs:561-568 | no run undoes a freeze, and none after it settles an epoch or mints or burns a share |
| `VaultHistory.FreezeHolds` | crates/accounting-model/src/transition.rs:561-568 | the same from the freeze itself, which changes nothing else |
| `VaultHistory.PauseHolds` | crates/accounting-model/src/transition.rs:541-559 | from a pause until it is lifted or the vault is frozen, every run keeps the epochs, takes no request and leaves the supply alone; only the administrator can lift it, at any time, and lifting it at once restores the very state before the pause |
| `VaultHistory.LockedPriceHolds` | crates/accounting-model/src/transition.rs:825-841 | under remote exposure an epoch settles at the backing it was locked at, whatever ran in between |
| `VaultHistory.CutoffIsFinal` | crates/accounting-model/src/transition.rs:261-378 | after the cutoff no run changes the epoch's requests, and its outcome is for exactly what was pending |
| `VaultHistory.CutoffCloses` | crates/accounting-model/src/transition.rs:261-269 | the same from the cutoff itself, which changes only the phase |
| `VaultHistory.NoEarlyCutoff` | crates/accounting-model/src/transition.rs:261-269 | no run without a cutoff at the announced time or later cuts an epoch off or settles it |
| `VaultHistory.AllocationSettlesExactly` | crates/accounting-model/src/transition.rs:619-671 | the start of an allocation keeps the backing; whatever runs between it and the completion, the cap then rises by the amount sent and transit and accepted value become the capped report |
| `VaultHistory.ReportsAddUp` | crates/accounting-model/src/transition.rs:792-823 | a list of reports amounts to its last one with the losses added up: the last value capped by the principal, in a recall the value at its start less the losses, nothing while closing |
| `VaultHistory.ReportsDuringRecall` | crates/accounting-model/src/transition.rs:792-823 | after a recall began, any list of reports leaves the value at its start less all their losses, and never less than zero |
| `VaultHistory.IdsAreUsedOnce` | crates/accounting-model/src/transition.rs:586-594 | a transfer id starts one transfer in the whole history of the vault |
| `VaultHistory.RecoverySettlesExactly` | crates/accounting-model/src/transition.rs:893-930 | whatever runs between the start of a recovery and its settlement, exactly the credited impairment returns to principal and backing, as no gain or loss |
| `VaultPayouts.CoveringListExists` | crates/accounting-model/src/transition.rs:380-511 | every state has a list of all its outstanding payouts, each once |
| `VaultPayouts.RefundListExists` | crates/accounting-model/src/transition.rs:442-511 | every aborted epoch has a list of exactly its outstanding refunds |
| `VaultPayouts.LifecycleShowsPayouts` | crates/accounting-model/src/state.rs:486-515 | which of the seven positions a request is shown in, exactly, and that claimable and refundable are the outstanding payouts |
| `VaultPriceExample.PriceCanFallWithoutLoss` | crates/accounting-model/src/transition.rs:792-813 | a concrete run in which a finalized price falls although every loss and impairment counter is zero |
| `VaultTally.OwedBy` | crates/accounting-model/src/state.rs:455-484 | the loop over one side's requests computes the order-independent sums of all and unclaimed entitlements, or reports their overflow |
| `VaultTally.Entitlements` | crates/accounting-model/src/state.rs:455-484 | both sides of it, with the same refusals |
| `VaultTally.EntitlementsAreSums` | crates/accounting-model/src/state.rs:455-484 | for sound terms these are the sums the settlement measures dust against |
| `VaultChecks.TotalHeld` | crates/accounting-model/src/state.rs:400-414 | the balance loop computes the sum of all balances, or reports that it does not fit |
| `VaultChecks.RequestTotals` | crates/accounting-model/src/state.rs:426-453 | the request loop computes total, unclaimed total and count of an epoch's active requests |
| `VaultChecks.CheckAssetConservation` | crates/accounting-model/src/invariant.rs:98-122 | passes if and only if every issued asset is accounted for and the issue fits 128 bits |
| `VaultChecks.CheckNavComposition` | crates/accounting-model/src/invariant.rs:124-133 | passes if and only if all buckets together fit 128 bits |
| `VaultChecks.CheckShareConservation` | crates/accounting-model/src/invariant.rs:135-145 | passes if and only if every share is held, escrowed or claimable |
| `VaultChecks.CheckBurnedShares` | crates/accounting-model/src/invariant.rs:147-159 | passes if and only if burned shares are the sum over finalized epochs |
| `VaultChecks.CheckRequestLifecycle` | crates/accounting-model/src/invariant.rs:161-174 | passes if and only if every request's flags agree |
| `VaultChecks.CheckEscrowBacking` | crates/accounting-model/src/invariant.rs:176-213 | passes if and only if both escrows are explained by requests and refunds and the current epoch has no outcome |
| `VaultChecks.CheckClaimBacking` | crates/accounting-model/src/invariant.rs:215-267 | passes if and only if both reserves are entitlement plus recorded dust and the dust of every epoch is in bounds |
| `VaultChecks.CheckFinalizedTerms` | crates/accounting-model/src/invariant.rs:269-294 | passes if and only if every finalized epoch agrees with its own price and requests |
| `VaultChecks.CheckPriceNeverFalls` | crates/accounting-model/src/invariant.rs:296-319 | passes if and only if some loss was seen or every two neighbouring settled prices are in order, for any outcomes |
| `VaultChecks.NeighboursDecide` | crates/accounting-model/src/invariant.rs:296-319 | for usable prices, neighbours in order put every pair in order |
| `VaultChecks.CheckInvariants` | crates/accounting-model/src/invariant.rs:85-96 | passes if and only if the state is explained in every respect; otherwise blames the first check that fails |
| `VaultChecks.InvPassesIff` | crates/accounting-model/src/invariant.rs:85-96 | on states satisfying the invariant the checks pass if and only if the totals fit 128 bits and the prices are in order or a loss was seen |
| `VaultChecks.ReachableStatesPassIff` | crates/accounting-model/src/invariant.rs:85-96 | the checks accept the end of a run from genesis if and only if the totals fit 128 bits and every settlement rose over the one before, or a loss was seen |
| `VaultChecks.ParRunsPass` | crates/accounting-model/src/invariant.rs:85-96 | every run that stays at par and within 128 bits ends in a state that passes all checks |
| `VaultMachine.Vault.Open` | crates/accounting-model/src/state.rs:275-347 | opens a vault in the specified initial state, which satisfies the invariant, or refuses for the specified reason |
| `VaultMachine.Vault.Apply` | crates/accounting-model/src/transition.rs:13-83 | applies one operation to a copy; a refusal changes nothing; a vault in order stays in order and is never refused for an internal reason |
| `VaultMachine.Vault.Perform` | crates/accounting-model/src/transition.rs:13-83 | makes exactly the specified step of each of the 26 operations |
| `VaultMachine.Vault.RequestDeposit` | crates/accounting-model/src/transition.rs:104-140 | the statement-by-statement form makes exactly the specified step, or refuses for the specified reason |
| `VaultMachine.Vault.CancelDeposit` | crates/accounting-model/src/transition.rs:142-178 | the statement-by-statement form makes exactly the specified step, or refuses for the specified reason |
| `VaultMachine.Vault.RequestRedeem` | crates/accounting-model/src/transition.rs:180-216 | the statement-by-statement form makes exactly the specified step, or refuses for the specified reason |
| `VaultMachine.Vault.CancelRedeem` | crates/accounting-model/src/transition.rs:218-252 | the statement-by-statement form makes exactly the specified step, or refuses for the specified reason |
| `VaultMachine.Vault.FinalizeEpoch` | crates/accounting-model/src/transition.rs:271-350 | the statement-by-statement form makes exactly the specified step, or refuses for the specified reason |
| `VaultMachine.Vault.ClaimDeposit` | crates/accounting-model/src/transition.rs:380-409 | the statement-by-statement form makes exactly the specified step, or refuses for the specified reason |
| `VaultMachine.Vault.ClaimRedeem` | crates/accounting-model/src/transition.rs:411-440 | the statement-by-statement form makes exactly the specified step, or refuses for the specified reason |
| `VaultMachine.Vault.ClaimAbortedDeposit` | crates/accounting-model/src/transition.rs:442-477 | the statement-by-statement form makes exactly the specified step, or refuses for the specified reason |
| `VaultMachine.Vault.ClaimAbortedRedeem` | crates/accounting-model/src/transition.rs:479-511 | the statement-by-statement form makes exactly the specified step, or refuses for the specified reason |
| `VaultMachine.Vault.AcceptRecallSent` | crates/accounting-model/src/transition.rs:699-760 | the statement-by-statement form makes exactly the specified step, or refuses for the specified reason |
| `VaultMachine.Vault.ObserveInbound` | crates/accounting-model/src/transition.rs:762-790 | the statement-by-statement form makes exactly the specified step, or refuses for the specified reason |
| `RemoteLedger.TransportLedger.CheckBalanced` | programs/solevm-remote-leg/src/transport.rs:93-106 | passes if and only if every closed claim is credited, impaired or recovered exactly once |
| `RemoteLedger.TransportLedger.RecordClose` | programs/solevm-remote-leg/src/transport.rs:62-80 | adds one closed claim to every total it belongs to; a balanced ledger stays balanced even when it refuses, refuses only for an excess credit or a full total or counter, and is left alone unless the counter is full |
| `RemoteLedger.TransportLedger.RecordRecovery` | programs/solevm-remote-leg/src/transport.rs:82-91 | moves recovered assets out of the pool; a balanced ledger stays balanced even when it refuses, refuses only for an excess credit or a full total or counter, and is left alone unless the counter is full |
| `Lockstep.LockstepHolds` | programs/solevm-remote-leg/src/transport.rs:63-91 | over every interleaving of vault operations, closes, recoveries and deliveries, the vault's and the leg's impairment agree or differ by exactly the settlement in flight |
| `Lockstep.LockstepFromGenesis` | programs/solevm-remote-leg/src/transport.rs:63-91 | the same from every accepted genesis, with an empty ledger and nothing in flight, for every list of events |
| `Lockstep.SettlementIsAccepted` | crates/protocol-types/src/body/transport_settlement.rs:123-151 | a settlement in flight passes its own validation and, within the supply bound, is accepted by the vault, after which the two pools agree |
| `Lockstep.ImpairmentFrame` | crates/accounting-model/src/transition.rs:843-930 | only a settlement moves impairment, and only it ends a closing or recovering cycle |
| `SimPlaces.DeliverNextKeeps` | crates/xchain-sim/src/simulator.rs:561-782 | an attempt keeps every event in exactly one place and every inbox in step with it |
| `SimPlaces.ComposeEffect` | crates/xchain-sim/src/simulator.rs:786-867 | deciding faults resolves the event, changes no other event, and only a caller's event makes new ones, each queued under its own key |
| `SimPlaces.HandedInboxes` | crates/xchain-sim/src/simulator.rs:730-782 | a delivery is appended to its destination's inbox, where the event was not recorded before |
| `SimProgress.DeliverNextProgresses` | crates/xchain-sim/src/simulator.rs:561-578 | every attempt lowers (undecided caller events, undecided made events, decided events), compared in that order, although copies and pieces are added meanwhile |
| `SimRun.DeliverReady` | crates/xchain-sim/src/simulator.rs:572-578 | ends for every plan and schedule, with nothing due left |
| `SimRun.Drain` | crates/xchain-sim/src/simulator.rs:584-613 | ends for every plan and schedule, with nothing due up to the limit left, and never moves the clock past it |
| `SimRun.RunUntilIdle` | crates/xchain-sim/src/simulator.rs:584-593 | ends with an empty queue, every event still in its place |
| `SimRun.RunUntil` | crates/xchain-sim/src/simulator.rs:596-613 | is refused only for a tick in the past, and leaves nothing due at its target |
| `SimRun.DeliverNextKeepsTerminal` | crates/xchain-sim/src/simulator.rs:615-621 | no attempt changes an event at rest |
| `SimRun.ReleaseKeeps` | crates/xchain-sim/src/simulator.rs:1084-1118 | releasing held events leaves none behind whose path is clear |
| `SimRun.MoveKeeps` | crates/xchain-sim/src/simulator.rs:1163-1182 | moving an event keeps its key in step with its tick |
| `SimRun.SwapKeeps` | crates/xchain-sim/src/simulator.rs:1125-1131 | swapping two ticks keeps every event in its place, also for an event with itself |
| `SimRun.AddEndpointKeeps` | crates/xchain-sim/src/simulator.rs:209-215 | a new endpoint keeps every event in its place |
| `SimValue.AddEndpointConserves` | crates/xchain-sim/src/simulator.rs:209-215 | and every family within its request |
| `SimRun.StepKeeps` | crates/xchain-sim/src/operation.rs:72-108 | all 16 operations keep every event in exactly one place and never touch one at rest |
| `SimRun.RunKeepsPlaces` | crates/xchain-sim/src/operation.rs:110-116 | the same over every run, refused steps included |
| `SimRun.IdleMeansBlocked` | crates/xchain-sim/src/simulator.rs:664-728 | with an empty queue, every event not at rest is held behind a paused lane or a halted endpoint |
| `SimRun.DeliveredIffRecorded` | crates/xchain-sim/src/simulator.rs:730-782 | an event is in some inbox if and only if it was delivered, with what it carried |
| `SimRun.RecordedOnce` | crates/xchain-sim/src/simulator.rs:730-782 | no event is in an inbox twice or in two inboxes |
| `SimFaults.BatchAcceptedIff` | crates/xchain-sim/src/simulator.rs:859-932 | the faults that reach an event are accepted together if and only if each applies to it and no two of them clash |
| `SimFaults.FaultsTakeEffect` | crates/xchain-sim/src/simulator.rs:786-857 | accepted faults take effect as the plan says: the destination, exactly the masked byte or the amount, a drop, or a delay by its own ticks; clashing ones reject the event untouched, and a decided event has no more faults |
| `SimFanout.CopiesAreMade` | crates/xchain-sim/src/simulator.rs:1018-1039 | all copies are made unless the ids run out, each with the event's content, due its own multiple of the spacing later |
| `SimFanout.PiecesAreMade` | crates/xchain-sim/src/simulator.rs:972-1016 | all pieces are made unless the ids run out, each with its own amount, due its own multiple of the spacing later |
| `SimFanout.FaultsFanOut` | crates/xchain-sim/src/simulator.rs:786-1039 | deciding an event makes exactly the pieces and copies the plan asks for, of the event as all its faults leave it, and nothing else |
| `SimDelivery.AttemptEnds` | crates/xchain-sim/src/simulator.rs:615-712 | every attempt ends rejected, dropped, delayed to its tick, held, expired or delivered with its record, exactly as plan, clock, lane and destination say |
| `SimDelivery.EarliestFirst` | crates/xchain-sim/src/queue.rs:18-40 | earlier ticks come first, at one tick control messages before assets, and then the lower id |
| `SimDelivery.RunUntilSpares` | crates/xchain-sim/src/simulator.rs:596-613 | running up to an earlier tick never touches an event that waits for a later one |
| `SimDelivery.DelayIsKept` | crates/xchain-sim/src/simulator.rs:839-855 | a delayed event is still waiting after every run up to a tick before the one it was delayed to |
| `SimDelivery.ReadyTakes` | crates/xchain-sim/src/simulator.rs:572-578 | the delivery loop reports exactly the attempts it made, each of a due event |
| `SimBarriers.BarriersHold` | crates/xchain-sim/src/simulator.rs:1043-1082 | while an endpoint is halted or a lane paused, no run without its own resume changes an inbox behind it |
| `SimBarriers.HaltAndPauseHold` | crates/xchain-sim/src/simulator.rs:1043-1082 | halting and pausing put up such a barrier |
| `SimControl.ControlAcceptedIff` | crates/xchain-sim/src/simulator.rs:299-411 | when a message is scheduled, exactly, and as which event |
| `SimControl.AssetAcceptedIff` | crates/xchain-sim/src/simulator.rs:326-411 | when an asset movement is scheduled, exactly, and as which event |
| `SimControl.ClockAcceptedIff` | crates/xchain-sim/src/simulator.rs:533-556 | when the clock moves, exactly, and to where |
| `SimControl.FaultAcceptedIff` | crates/xchain-sim/src/simulator.rs:427-529 | a fault is registered if and only if it is new, well shaped, fits its target and its lane, and has no rival on that target |
| `SimControl.MoveBeforeIff` | crates/xchain-sim/src/simulator.rs:1133-1140 | an event moves before another if and only if both are queued; it is then due one tick earlier, but not in the past |
| `SimControl.MoveAfterIff` | crates/xchain-sim/src/simulator.rs:1142-1152 | an event moves after another if and only if both are queued and a later tick exists; it is then due one tick later |
| `SimControl.SwapIff` | crates/xchain-sim/src/simulator.rs:1122-1131 | two events swap ticks if and only if both are queued; only their ticks change |
| `SimControl.EndpointAcceptedIff` | crates/xchain-sim/src/simulator.rs:209-215 | an endpoint is added if and only if its id is new, active and with empty inboxes |
| `SimControl.FreshIs` | crates/xchain-sim/src/simulator.rs:177-207 | a fresh network has active endpoints, running lanes and nothing else |
| `SimControl.SwitchIff` | crates/xchain-sim/src/simulator.rs:1043-1069 | exactly the known endpoints can be halted and resumed, and only that endpoint's state changes |
| `SimControl.ReleaseRetimes` | crates/xchain-sim/src/simulator.rs:1084-1118 | a held event with a clear path is due at its own tick or now, and no other event changes |
| `SimControl.RefusalIsJustified` | crates/xchain-sim/src/simulator.rs:371-529 | every refused operation names a fault that is really there |
| `SimTypes.InOrderHolds` | crates/xchain-sim/src/fault.rs:286-296 | a composed batch holds exactly the reaching faults |
| `SimTypes.First` | crates/xchain-sim/src/queue.rs:66-74 | a non-empty queue has a first entry, before all others |
| `SimValue.PiecesOutOfReach` | crates/xchain-sim/src/fault.rs:83-99 | a content fault that reaches a piece also reached, and conflicted on, the event it was split from |
| `SimValue.BatchInBudget` | crates/xchain-sim/src/simulator.rs:786-867 | a batch without duplication or over-delivery leaves an event and its pieces within the requested amount |
| `SimValue.PiecesWithinSum` | crates/xchain-sim/src/simulator.rs:972-1016 | the pieces made by a split carry at most the sum of the declared pieces |
| `SimValue.StepConserves` | crates/xchain-sim/src/operation.rs:72-108 | every operation keeps every family of pieces within its request, unless it is an accepted fault that duplicates, over-delivers or cuts a piece already made |
| `SimValue.AddFaultConserves` | crates/xchain-sim/src/simulator.rs:427-453 | a fault may join the plan at any time without breaking conservation, unless it duplicates, over-delivers or cuts a piece already made |
| `SimValue.EarlyFaultsReachNoPiece` | crates/xchain-sim/src/simulator.rs:427-453 | before the first attempt no fault can reach a piece, so a plan completed by then needs no further condition |
| `SimValue.CalmRunsConserve` | crates/xchain-sim/src/simulator.rs:859-932 | over every run in which no accepted fault duplicates, over-delivers or cuts a piece already made, every family stays within its request |
| `SimValue.NothingIsOverDelivered` | crates/xchain-sim/src/simulator.rs:859-1016 | from a fresh network, such a run never delivers more for a scheduled asset event than it requested |
| `SimLateFault.LatePartialOverDelivers` | crates/xchain-sim/src/simulator.rs:884-932 | why the condition is needed: a concrete run, without duplication or over-delivery, in which a partial fault accepted after a split delivers fifteen for a request of ten |
| `SimEngine.Peek` | crates/xchain-sim/src/queue.rs:66-70 | finds the first entry |
| `SimEngine.PendingFaults` | crates/xchain-sim/src/fault.rs:286-296 | collects and sorts the faults that reach an event into composition order |
| `SimEngine.Simulator.WithConfig` | crates/xchain-sim/src/simulator.rs:177-207 | builds a network of active endpoints if and only if the list is not empty and repeats no id; otherwise names the first repeated one |
| `SimEngine.Simulator.AddEndpoint` | crates/xchain-sim/src/simulator.rs:209-215 | adds one active endpoint and keeps every event in its place, or refuses and changes nothing |
| `SimEngine.Simulator.ScheduleControl` | crates/xchain-sim/src/simulator.rs:299-324 | schedules one message under a new id, or refuses and changes nothing |
| `SimEngine.Simulator.ScheduleAsset` | crates/xchain-sim/src/simulator.rs:326-352 | schedules one asset movement under a new id, or refuses and changes nothing |
| `SimEngine.Simulator.TakeGeneratedId` | crates/xchain-sim/src/simulator.rs:413-423 | takes the next unused id, if the counter has room |
| `SimEngine.Simulator.AddFault` | crates/xchain-sim/src/simulator.rs:427-529 | registers a fault, or refuses for the specified reason and changes nothing |
| `SimEngine.Simulator.AdvanceTo` | crates/xchain-sim/src/simulator.rs:541-556 | moves the clock forward only |
| `SimEngine.Simulator.CheckFaults` | crates/xchain-sim/src/simulator.rs:869-882 | finds the first fault of a batch that repeats a group or cannot be applied |
| `SimEngine.Simulator.SplitEvent` | crates/xchain-sim/src/simulator.rs:972-1016 | the loop makes exactly the specified pieces |
| `SimEngine.Simulator.DuplicateEvent` | crates/xchain-sim/src/simulator.rs:1018-1039 | the loop makes exactly the specified copies |
| `SimEngine.Simulator.ComposeFaults` | crates/xchain-sim/src/simulator.rs:786-857 | decides an event's faults once, in composition order, as specified |
| `SimEngine.Simulator.Attempt` | crates/xchain-sim/src/simulator.rs:615-712 | one delivery attempt ends exactly as specified |
| `SimEngine.Simulator.DeliverNext` | crates/xchain-sim/src/simulator.rs:560-569 | attempts the first event exactly when one is due |
| `SimEngine.Simulator.DeliverReady` | crates/xchain-sim/src/simulator.rs:571-578 | the loop ends, in the specified network, with nothing due |
| `SimEngine.Simulator.RunUntilIdle` | crates/xchain-sim/src/simulator.rs:580-593 | the loop ends, in the specified network, with an empty queue |
| `SimEngine.Simulator.RunUntil` | crates/xchain-sim/src/simulator.rs:595-613 | the loop ends in the specified network, or the call is refused and changes nothing |
| `SimEngine.Simulator.ReleaseEvents` | crates/xchain-sim/src/simulator.rs:1083-1106 | the loop releases exactly the held events whose path is clear, and counts them |
| `SimEngine.Simulator.SwapDeliveryTicks` | crates/xchain-sim/src/simulator.rs:1122-1131 | swaps two ticks as specified, or refuses and changes nothing |
| `SimEngine.Simulator.MoveBefore` | crates/xchain-sim/src/simulator.rs:1133-1140 | moves an event ahead of another as specified, or refuses and changes nothing |
| `SimEngine.Simulator.MoveAfter` | crates/xchain-sim/src/simulator.rs:1142-1152 | moves an event behind another as specified, or refuses and changes nothing |
| `SimEngine.Simulator.Apply` | crates/xchain-sim/src/operation.rs:67-108 | makes exactly the specified step; a refused step changes nothing and every event stays in its place |
| `SimEngine.Simulator.ApplyAll` | crates/xchain-sim/src/operation.rs:110-116 | runs the accepted prefix of a list and stops at the first refusal |
| `WireNumbers.NumberRoundTrip` | crates/protocol-types/src/codec.rs:43-107 | every number that fits its width is read back |
| `WireNumbers.BytesRoundTrip` | crates/protocol-types/src/codec.rs:43-107 | every byte string is the encoding of the number it is read as |
| `WireLayout.IsContiguous` | crates/protocol-types/src/layout.rs:173-189 | true if and only if the fields start at zero, touch without gaps and fill the region |
| `WireLayout.AllDistinct` | crates/protocol-types/src/layout.rs:291-309 | true if and only if no two widths are equal |
| `WireLayout.ReadInvertsConcat` | crates/protocol-types/src/layout.rs:177-289 | for any contiguous table, reading every field and concatenating the values are inverse, both ways |
| `WireCodec.LayoutHolds` | crates/protocol-types/src/layout.rs:279-322 | every layout assertion holds: all tables contiguous and full, all body widths distinct |
| `WireCodec.HeaderFills` | crates/protocol-types/src/layout.rs:191-210 | the header table is contiguous and fills 247 bytes |
| `WireCodec.BodyFills` | crates/protocol-types/src/layout.rs:212-289 | each body table is contiguous, fills its declared length and fits the reserved buffer |
| `WireCodec.WriteBytes` | crates/protocol-types/src/codec.rs:71-87 | writes exactly the given bytes at the offset, or refuses and changes nothing |
| `WireCodec.WriteFields` | crates/protocol-types/src/body/remote_report.rs:66-113 | writing each field at its offset leaves the concatenation of the values there and every other byte alone |
| `WireCodec.EncodeInto` | crates/protocol-types/src/codec.rs:279-301 | writes the one canonical encoding at the front of the buffer and nothing else, or refuses for the first failed rule and writes nothing |
| `WireCodec.Encode` | crates/protocol-types/src/codec.rs:249-259 | succeeds if and only if the message is well formed, with its canonical encoding; otherwise reports the first failed rule, never lack of room |
| `WireCodec.BodyInverts` | crates/protocol-types/src/body/mod.rs:64-88 | for all seven kinds, a body decodes from a byte string if and only if the string is its encoding |
| `WireCodec.FrameInverts` | crates/protocol-types/src/validation.rs:22-67 | a frame passes inspection if and only if its fixed values and its exact length are those of one kind |
| `WireCodec.DecodeInvertsEncode` | crates/protocol-types/src/codec.rs:282-327 | a byte string decodes to a message if and only if the message is well formed and the string is its encoding: both round trips, and one accepted encoding per message |
| `WireCodec.LengthIsExact` | crates/protocol-types/src/validation.rs:22-67 | every strict prefix of an encoding is refused as truncated and every extension as having trailing bytes, with the exact lengths |
| `WireCodec.TypeIsBound` | crates/protocol-types/src/layout.rs:291-325 | changing only the message type of an encoding always makes it refused |
| `WireFields.BigEndianAt` | crates/protocol-types/src/codec.rs:43-107 | byte by byte, numbers are written most significant first |
| `WireFields.HeaderLayout` | crates/protocol-types/src/layout.rs:12-35 | magic number, versions, flags, chains, lane, sequence and times of an encoded message are at their literal bytes |
| `WireFields.IdentifierLayout` | crates/protocol-types/src/layout.rs:24-35 | applications, deployment, vault, previous commitment and the digest of everything behind the header are at their literal bytes |
| `WireFields.TypeLayout` | crates/protocol-types/src/message.rs:33-44 | the type byte and the whole length of each of the seven kinds, literally |
| `WireFields.AllocateLayout` | crates/protocol-types/src/layout.rs:38-47 | every field of the body at its literal bytes |
| `WireFields.RecallLayout` | crates/protocol-types/src/layout.rs:49-56 | every field of the body at its literal bytes |
| `WireFields.RemoteReportLayout` | crates/protocol-types/src/layout.rs:58-71 | every field of the body at its literal bytes, and the literal code of the probe status |
| `WireFields.RecallSentLayout` | crates/protocol-types/src/layout.rs:73-83 | every field of the body at its literal bytes |
| `WireFields.ConfigUpdateLayout` | crates/protocol-types/src/layout.rs:85-97 | every field of the body at its literal bytes |
| `WireFields.ResolveLayout` | crates/protocol-types/src/layout.rs:99-105 | every field of the body at its literal bytes, and the literal code of the action |
| `WireFields.TransportSettlementLayout` | crates/protocol-types/src/layout.rs:107-115 | every field of the body at its literal bytes, and the literal code of the kind |
| `WireRules.WellFormedIff` | crates/protocol-types/src/validation.rs:70-130 | a message is well formed if and only if both versions are one and every header and body rule holds, as one condition on the fields |
| `WireRules.FaultIsReal` | crates/protocol-types/src/codec.rs:279-301 | a message that is not encoded has the very fault it is refused for |
| `WireRules.DecodeFaultIsReal` | crates/protocol-types/src/codec.rs:303-327 | bytes that are not decoded have the very fault they are refused for |
| `Base64Url.DecodeBase64Url` | programs/authorization-verifier/src/jwt.rs:87-118 | an input is accepted as a byte string if and only if it is the encoding of that byte string |
| `Base64Url.DecodeInvertsEncode` | programs/authorization-verifier/src/jwt.rs:85-106 | decoding inverts encoding for all byte strings, and no byte string has two accepted spellings |
| `Base64Url.GroupInverts` | programs/authorization-verifier/src/jwt.rs:92-103 | four symbols decode to 24 bits if and only if they spell them |
| `Base64Bits.AlphabetIs` | programs/authorization-verifier/src/jwt.rs:108-118 | the 64 symbols, literally, and no other |
| `Base64Bits.EncodeAt` | programs/authorization-verifier/src/jwt.rs:85-106 | every symbol carries its own six bits of the input, most significant first |
| `JwtNumbers.ParseDigits` | programs/authorization-verifier/src/jwt.rs:279-293 | reads one or more digits exactly, and refuses everything else and every overflow |
| `JwtNumbers.ParseTimestamp` | programs/authorization-verifier/src/jwt.rs:231-242 | reads a positive integer without leading zero up to the end of the year 9999 |
| `JwtNumbers.ParseAmount` | programs/authorization-verifier/src/jwt.rs:244-277 | reads an amount as specified; after the digit limits no arithmetic overflows |
| `JwtNumbers.AmountIff` | programs/authorization-verifier/src/jwt.rs:244-277 | a token is an amount of so many millionths if and only if it spells an accepted decimal of that value |
| `JwtNumbers.MicrosAreExact` | programs/authorization-verifier/src/jwt.rs:244-277 | the amount is the exact decimal times one million |
| `JwtNumbers.MicrosFit` | programs/authorization-verifier/src/jwt.rs:251-276 | the digit limits alone keep every intermediate result within 64 bits |
| `JwtSpelling.TimestampIff` | programs/authorization-verifier/src/jwt.rs:231-242 | a timestamp is exactly the plain decimal of a number from one to 253402300799 |
| `JwtSpelling.AmountSpelledIff` | programs/authorization-verifier/src/jwt.rs:244-277 | an amount is exactly a plain decimal of at most thirteen integer and six fraction digits, worth that many millionths |
| `JwtSpelling.Characters` | programs/authorization-verifier/src/jwt.rs:318-401 | the literal characters of whitespace, strings, numbers and punctuation |
| `JwtSpelling.HeaderNames` | programs/authorization-verifier/src/jwt.rs:120-146 | the literal names and values of the header |
| `JwtSpelling.ClaimNames` | programs/authorization-verifier/src/jwt.rs:148-185 | the literal names of the claims |
| `JwtSpelling.RequestNames` | programs/authorization-verifier/src/jwt.rs:187-209 | the literal names of the request |
| `JwtGrammar.ReadIffHolds` | programs/authorization-verifier/src/jwt.rs:148-218 | fields are accepted if and only if each is known, readable and there exactly once, whatever their order |
| `JwtParser.AcceptedIff` | programs/authorization-verifier/src/jwt.rs:331-360 | a text is accepted with a record if and only if it is a document, in any field order and with any whitespace, that holds that record |
| `JwtParser.ClaimsIff` | programs/authorization-verifier/src/jwt.rs:148-185 | claims parse out of exactly the texts that print them |
| `JwtParser.HeaderIff` | programs/authorization-verifier/src/jwt.rs:120-146 | a key id is read out of exactly the texts that print a header holding it |
| `JwtParser.RequestIff` | programs/authorization-verifier/src/jwt.rs:187-209 | the nested request is read out of exactly the objects that hold its five fields, in any order |
| `JwtParser.DocumentRendered` | programs/authorization-verifier/src/jwt.rs:295-410 | parsing inverts printing |
| `JwtParser.DocumentScanned` | programs/authorization-verifier/src/jwt.rs:295-410 | every accepted text is the print of a well-formed document |
| `JwtParser.ScanMembers` | programs/authorization-verifier/src/jwt.rs:343-359 | every successful scan moves the cursor forward, within the text |
| `JwtCursor.Cursor.SkipWhitespace` | programs/authorization-verifier/src/jwt.rs:318-322 | stops at the first byte that is not JSON whitespace |
| `JwtCursor.Cursor.String` | programs/authorization-verifier/src/jwt.rs:362-382 | reads a string of printable ASCII without escapes, as specified |
| `JwtCursor.Cursor.NumberToken` | programs/authorization-verifier/src/jwt.rs:384-401 | reads the longest run of number characters, as specified |
| `JwtCursor.Cursor.OneField` | programs/authorization-verifier/src/jwt.rs:343-353 | reads one field, refusing a repeated or unknown key before its value |
| `JwtCursor.Cursor.Fields` | programs/authorization-verifier/src/jwt.rs:331-360 | reads an object as specified, from any position |
| `JwtCursor.ParseClaims` | programs/authorization-verifier/src/jwt.rs:148-185 | computes the claims the specification reads |
| `JwtCursor.ParseHeader` | programs/authorization-verifier/src/jwt.rs:120-146 | computes the key id the specification reads |
| `JwtCursor.DecodeSigningInput` | programs/authorization-verifier/src/jwt.rs:67-83 | accepts an input as header and payload if and only if both are non-empty and it is their canonical signing input; otherwise says whether the segments or their spelling is at fault |

## Left out

- Trace recording of the simulator: only the origin of copies and pieces is kept, as `lineage`.
- State digests, snapshots, seeded plans and display text of the simulator: printing, cloning and hashing.
- `crates/evm-differential`, devnet drivers and the FFI binary: test generation and I/O.
- Solana account plumbing, custody, strategy and instruction handlers of the remote leg: foreign calls. The joint
  run assumes that the leg closes the allocation the vault asked to close, for its authorized amount.
- Keccak, SHA-256 and P-256: unknown functions or absent.
- `outstanding_*` sums of the vault state and `deployment.rs` messages: the same loops and the same fixed-width
  shape again.
- The vault class keeps its state as one value in one field, so updates of single fields are updates of that value;
  operations that only check guards and write fields once have no statement-by-statement form.
- `encode_into` of the seven bodies is one loop over the body's field table instead of one statement per field.
- The closures of the object parser are a table from key to kind of value; the options they fill are one map.
- VaultChecks.CheckInvariants: says which check a refused state fails first, not which of that check's own violations
  is reported, which depends on the order of the records.
- RemoteLedger.TransportLedger.RecordClose: with a full counter it refuses after adding the claim; the program then
  drops the ledger, and the model says only that it still balances.
- RemoteLedger.TransportLedger.RecordRecovery: with a full counter it refuses after moving the credit, likewise.
- JwtParser.AcceptedIff: covers acceptance; which error a malformed text gets is fixed by the parser functions only.
