# A verified model of the FET token bridge

The bridge moves FET between Ethereum and the Fetch chain with one contract on each side: `Bridge.sol`, and a
CosmWasm contract in Rust. A swap locks tokens in one contract and raises its `supply`; a relayer then either
finishes it on the other chain with a reverse swap, which lowers the `supply` there and pays out, or refunds it
at its origin. This project models both contracts with their chains, and the two together, and proves what holds
over whole runs.

Run `dafny verify dfyconfig.toml` to verify it.

## How it is organised

| file | content |
|---|---|
| `Types.dfy`, `Ledgers.dfy` | machine integers, results; a single-asset ledger whose balances sum to its total |
| `Keys.dfy` | the byte keys of the CosmWasm store |
| `FetchSpec.dfy` | every CosmWasm message as a function on (record, refunded ids, roles), and the chain around it |
| `FetchContract.dfy` | the CosmWasm handlers as methods on a flat byte store, proved against `FetchSpec` |
| `FetchSolvency.dfy`, `FetchRuns.dfy` | properties of whole runs of the CosmWasm contract |
| `FetchAcceptance.dfy`, `FetchReplay.dfy`, `FetchInstantiation.dfy` | when it accepts and why it rejects, what its events tell, what its instantiation means |
| `EthSpec.dfy` | every `Bridge.sol` method as a function on the contract's state and the token |
| `EthBridge.dfy` | `Bridge.sol` as a class over a token object, proved against `EthSpec` |
| `EthRuns.dfy` | properties of whole runs of `Bridge.sol` |
| `EthAcceptance.dfy`, `EthReplay.dfy`, `EthLifecycle.dfy` | when it accepts and why it rejects, what its logs tell, deployment and deletion |
| `Simulation.dfy` | `Bridge.sol` is simulated by the CosmWasm contract |
| `TwoChains.dfy` | both contracts and a relayer |

A *run* is a sequence of arbitrary actions: calls by anyone with any arguments, and token movements outside the
contract. A call that fails is part of the run and leaves everything but the block height as it was. `Run`,
`Events` and `Logs` are recursive functions on such sequences, and the main lemmas are inductions over them.

Rollback is explicit. On Fetch an error, a panic or a failed bank message discards the whole transaction; handlers
may have written before they fail (`TryWithdraw` does). The record is loaded once per message and handed to the
handler as a snapshot, while updates reload it; `FetchContract` keeps both readings and shows that they agree. On
Ethereum a failed `require` leaves partial assignments that `Transact` takes back.

In the table below "as specified" means that the method answers like the function of the same purpose in the
specification module and, on success, leaves the state that function gives. What that function is, is fixed for each
contract by four independent statements over all messages: when it succeeds, concern by concern; which of several unmet
concerns a rejection names; what the events or logs announce; and that these alone determine the new state.

## Assumptions about the environment

- Attached funds are credited to the contract before its handler runs, and the sender owns them.
- Only the contract's own messages debit its account; a contract never sends a transaction to itself.
- The token reverts on failure instead of returning false, and never moves tokens from or to the zero address.
- Minting with an empty recipient gives the tokens to the contract; nobody else mints to `Bridge.sol`.
- Block heights never decrease.
- Two inputs of a step are arbitrary: what resolving the address named in a message gives, and whether the chain or
  the token refuses an emitted payment for a reason of its own (`resolved`, `bankAccepts`, `tokenAccepts`).

## What the documentation says and the code does

- `Bridge.sol` says that a refund of amount zero has no effect. It is accepted and logs an event, does not mark the id
  as refunded, and is accepted again: `ZeroRefundIsAcceptedAgain`. When an id is open: `RefundOpenExactlyWhen`.
- `Bridge.sol` says that the subtraction in `getFeesAccrued` never fails. That is so in every reachable state that is
  not deleted: `FeesWithdrawalLeavesSupply`.
- `Bridge.sol` says that the eon cannot overflow after its first increment. It counts modulo 2^64: `EonCounts`.
- The CosmWasm contract does not check refunds and reverse swaps against `upper_swap_limit`; `Bridge.sol` does
  (`LimitBindsOnEthereumOnly`, `LimitExample`). The other guards that only `Bridge.sol` has are the ERC-20 allowance for
  what it pulls in, and that there are fees to withdraw: `AcceptsTheSame` shows that there are no more.
- `Bridge.sol` takes limits with the fee equal to the minimum, the CosmWasm contract does not: `EqualFeeOnEthereumOnly`.
- Nothing in either contract makes a reverse swap final; that it settles a swap once is left to the relayer:
  `RepeatedReverseSwapAccepted`, `SecondSettlementOnEth`, `SecondSettlementOnFetch`.

## Model

| member | source | states |
|---|---|---|
| Keys.BigEndianRoundTrip | fetch/cosmwasm_contract/src/state.rs:38-42 | a number that fits the width is recovered from its big-endian bytes |
| Keys.RefundsKeyInjective | fetch/cosmwasm_contract/src/state.rs:38-42 | two refunded ids never share a key |
| Keys.RoleKeyInjective | fetch/cosmwasm_contract/src/access_control.rs:61-67 | two (address, role) pairs never share a key, whatever bytes the addresses hold |
| Keys.KeysDisjoint | fetch/cosmwasm_contract/src/state.rs:9-12 | the record, a refund and a role never share a key |
| Keys.RoleNameRoundTrip | fetch/cosmwasm_contract/src/access_control.rs:22-59 | a string parses to a role exactly when it is that role's printed name |
| FetchContract.RepresentsUnique | fetch/cosmwasm_contract/src/state.rs:9-52 | a flat byte store stands for at most one record, refund set and role table |
| FetchContract.RefundsAdd | fetch/cosmwasm_contract/src/state.rs:44-47 | writing the marker bytes adds this id and changes nothing else that the store represents |
| FetchContract.RefundsHave | fetch/cosmwasm_contract/src/state.rs:49-52 | looking up the key decides membership of the id |
| FetchContract.ConfigUpdate | fetch/cosmwasm_contract/src/contract.rs:225-232 | reload, apply the closure, store: the record becomes the closure's result, refunds and roles stay; a failing closure writes nothing |
| FetchContract.AcStorageKey | fetch/cosmwasm_contract/src/access_control.rs:61-67 | the key has two length prefixes; an address beyond 65535 bytes panics |
| FetchContract.AcHaveRole | fetch/cosmwasm_contract/src/access_control.rs:69-72 | the stored byte decides whether the role is held |
| FetchContract.AcAddRole | fetch/cosmwasm_contract/src/access_control.rs:74-82 | adds exactly this pair, or fails because it is held already |
| FetchContract.AcRevokeRole | fetch/cosmwasm_contract/src/access_control.rs:84-96 | removes exactly this pair, or fails because it is not held |
| FetchContract.AmountFromFunds | fetch/cosmwasm_contract/src/contract.rs:781-788 | the loop with early return finds the first coin of the denomination |
| FetchContract.OnlyRole | fetch/cosmwasm_contract/src/contract.rs:888-906 | passes exactly for holders, with the role's own error |
| FetchContract.CanPause | fetch/cosmwasm_contract/src/contract.rs:908-921 | unpausing needs an admin, pausing a monitor or an admin |
| FetchContract.VerifyRefundSwapId | fetch/cosmwasm_contract/src/contract.rs:856-866 | passes exactly for an issued id that is not refunded |
| FetchContract.Instantiate | fetch/cosmwasm_contract/src/contract.rs:28-76 | the fresh store represents the initial record and the deployer as the only admin |
| FetchContract.TrySwap | fetch/cosmwasm_contract/src/contract.rs:157-188 | on bytes as specified: supply and swap counter rise together, nothing else changes, and every rejection keeps its own error |
| FetchContract.TryReverseSwap | fetch/cosmwasm_contract/src/contract.rs:190-272 | on bytes as specified in both fee branches; the checked subtractions in the closure cannot fail |
| FetchContract.TryRefundWithFee | fetch/cosmwasm_contract/src/contract.rs:282-357 | on bytes as specified in both fee branches and for both kinds of refund; the supply taken from the snapshot agrees with the reloaded record, and the id is marked |
| FetchContract.TryPausePublicApi | fetch/cosmwasm_contract/src/contract.rs:407-431 | on bytes as specified: only the public pause block changes, never to a block already past |
| FetchContract.TryPauseRelayerApi | fetch/cosmwasm_contract/src/contract.rs:433-457 | on bytes as specified: only the relayer pause block changes, never to a block already past |
| FetchContract.TryNewRelayEon | fetch/cosmwasm_contract/src/contract.rs:459-480 | on bytes as specified: the eon rises by one, and panics at the end of its range |
| FetchContract.TryDeposit | fetch/cosmwasm_contract/src/contract.rs:482-506 | on bytes as specified: the counted coins enter the supply within the cap |
| FetchContract.TryWithdraw | fetch/cosmwasm_contract/src/contract.rs:508-538 | on bytes as specified, although the supply is already written when the address can still fail |
| FetchContract.TryWithdrawFees | fetch/cosmwasm_contract/src/contract.rs:540-571 | on bytes as specified: fees leave the record and are paid out, within what was accrued |
| FetchContract.TryMint | fetch/cosmwasm_contract/src/contract.rs:573-596 | on bytes as specified: supply and mint message agree, within the cap |
| FetchContract.TryBurn | fetch/cosmwasm_contract/src/contract.rs:598-621 | on bytes as specified: supply and burn message agree, within the supply |
| FetchContract.TrySetCap | fetch/cosmwasm_contract/src/contract.rs:623-634 | on bytes as specified: only the cap changes, for admins only |
| FetchContract.TrySetAllowance | fetch/cosmwasm_contract/src/contract.rs:636-661 | on bytes as specified, with both role checks evaluated eagerly: admins any value, approvers up to their cap |
| FetchContract.TrySetApproverCap | fetch/cosmwasm_contract/src/contract.rs:663-681 | on bytes as specified: only the approver cap changes, for admins only |
| FetchContract.TrySetLimits | fetch/cosmwasm_contract/src/contract.rs:683-710 | on bytes as specified: fee < min <= max or nothing changes |
| FetchContract.TryGrantRole | fetch/cosmwasm_contract/src/contract.rs:712-733 | on bytes as specified: one role entry appears, for admins only |
| FetchContract.TryRevokeRole | fetch/cosmwasm_contract/src/contract.rs:735-756 | on bytes as specified: one role entry disappears, for admins only |
| FetchContract.TryRenounceRole | fetch/cosmwasm_contract/src/contract.rs:758-775 | on bytes as specified: the sender's own entry disappears |
| FetchContract.Execute | fetch/cosmwasm_contract/src/contract.rs:82-155 | every message on the byte store matches the same step on the abstract storage |
| FetchContract.Transact | fetch/cosmwasm_contract/src/contract.rs:82-155 | one transaction on the bytes is one step of the abstract world; a rejected one leaves every byte as it was |
| FetchContract.Play | fetch/cosmwasm_contract/src/contract.rs:82-155 | any history on the bytes is the run of the abstract world, and the emitted events alone rebuild what the bytes stand for |
| FetchSolvency.AmountFromFundsBounded | fetch/cosmwasm_contract/src/contract.rs:781-788 | the amount counted is at most what is attached, and it fails exactly when the denomination is absent |
| FetchSolvency.AmountFromFundsExact | fetch/cosmwasm_contract/src/contract.rs:781-788 | with distinct denominations all of it is counted |
| FetchSolvency.HandlerBooksBalance | fetch/cosmwasm_contract/src/contract.rs:157-621 | supply + fees move by exactly what the handler counts in and pays out; at most one message, in the right denomination and within the books |
| FetchSolvency.EmittedMessagesArePayable | fetch/cosmwasm_contract/src/contract.rs:790-807 | from every reachable world the emitted message can be paid from the contract's account |
| FetchSolvency.DeliveryFollowsHandler | fetch/cosmwasm_contract/src/contract.rs:82-155 | a transaction goes through if and only if funds exist, the handler succeeds and the chain has no objection of its own |
| FetchSolvency.Solvency | fetch/cosmwasm_contract/src/contract.rs:157-621 | over every run balance = supply + fees + excess, and the excess is the initial one plus gifts and self-payments, so it never shrinks |
| FetchSolvency.InstantiateEstablishesInv | fetch/cosmwasm_contract/src/contract.rs:53-73 | deployment establishes solvency and the limits, what the account held before is excess, the deployer is the only admin, and a past pause block pauses both APIs from now |
| FetchSolvency.NoOverflowFromConservation | fetch/cosmwasm_contract/src/contract.rs:167-258 | while the denomination fits in 128 bits no addition to supply or fees overflows, except the one in Mint |
| FetchSolvency.OverflowPanicsExactly | fetch/cosmwasm_contract/src/contract.rs:157-596 | the remaining overflow panics occur exactly for an oversized Mint or a 64-bit counter at its end |
| FetchInstantiation.InstantiatesExactlyWhen | fetch/cosmwasm_contract/src/contract.rs:28-76 | when an instantiation succeeds, and which error it gives otherwise |
| FetchInstantiation.FirstCoinIsSupply | fetch/cosmwasm_contract/src/contract.rs:49-58 | the first attached coin of the denomination ("afet" by default) is the supply, without one it is zero; no fees |
| FetchInstantiation.AttachedFundsAreSupply | fetch/cosmwasm_contract/src/contract.rs:53-56 | with distinct denominations all that is attached is supply, and exactly what the account held before is excess |
| FetchInstantiation.InstantiatedPauses | fetch/cosmwasm_contract/src/contract.rs:37-41 | both APIs are closed exactly from the given block on, and without one from the last block |
| FetchInstantiation.FirstSwap | fetch/cosmwasm_contract/src/contract.rs:55-73 | the first swap is accepted exactly within the parameters of the instantiation, under its first id |
| FetchInstantiation.FirstApproval | fetch/cosmwasm_contract/src/contract.rs:55-73 | an approver appointed by the deployer sets allowances exactly up to the approver cap |
| FetchInstantiation.FirstReverseSwap | fetch/cosmwasm_contract/src/contract.rs:55-73 | the first reverse swap is accepted exactly up to supply and allowance, in eon zero, and charges the fee of the instantiation |
| FetchAcceptance.RejectionExplained | fetch/cosmwasm_contract/src/contract.rs:82-921 | every error names a concern that is not met |
| FetchAcceptance.RejectionNamesFirstReason | fetch/cosmwasm_contract/src/contract.rs:82-921 | every unmet concern leads to a rejection, and of several the error names the one looked at first |
| FetchAcceptance.DeliveredExactlyWhen | fetch/cosmwasm_contract/src/contract.rs:82-921 | from reachable worlds a transaction goes through if and only if the funds exist, authorisation, timing, amounts, ids, roles and address are in order, and the chain accepts the payment: solvency never stands in the way |
| FetchReplay.HandlerReported | fetch/cosmwasm_contract/src/contract.rs:157-775 | every response's attributes name whose call it was and what it asked for, and determine the emitted payments: reported amount, own denomination, resolved recipient |
| FetchReplay.HandlerReplays | fetch/cosmwasm_contract/src/contract.rs:179-774 | the response attributes determine the handler's whole effect on storage, with consumed amounts as amount + fee |
| FetchReplay.RunReplays | fetch/cosmwasm_contract/src/contract.rs:179-774 | folding the events of any run over the initial storage gives the final record, refund set and role table |
| FetchReplay.HistoryReplays | fetch/cosmwasm_contract/src/contract.rs:28-76 | the same from the instantiate inputs |
| FetchRuns.AllowanceAccounting | fetch/cosmwasm_contract/src/contract.rs:206-258 | total settled = initial allowance + sum of resets (new - replaced) - final allowance, over any run |
| FetchRuns.AllowanceBound | fetch/cosmwasm_contract/src/contract.rs:636-661 | without admin-sent calls n resets release at most initial allowance + n * approver cap |
| FetchRuns.RefundAtMostOnce | fetch/cosmwasm_contract/src/contract.rs:282-357 | accepted refund ids of any run are distinct, fresh, below next_swap_id, and exactly what the refund set gained |
| FetchRuns.SwapIdsCountUp | fetch/cosmwasm_contract/src/contract.rs:171-182 | the announced swap ids count up from the first, without gaps |
| FetchRuns.RepeatedReverseSwapAccepted | fetch/cosmwasm_contract/src/contract.rs:190-272 | an accepted reverse swap is accepted once more if and only if funds, allowance and supply cover it again |
| FetchRuns.EonCounts | fetch/cosmwasm_contract/src/contract.rs:459-480 | the eon is the initial one plus the number of accepted NewRelayEon |
| FetchRuns.TagCountsEons | fetch/cosmwasm_contract/src/contract.rs:813-819 | an accepted relayer transaction's tag is the number of eons started before it |
| FetchRuns.EonIsolation | fetch/cosmwasm_contract/src/contract.rs:813-819 | the tags of two accepted relayer transactions differ by exactly the eons started between them |
| FetchRuns.PauseAbsorbs | fetch/cosmwasm_contract/src/contract.rs:407-457 | a paused API stays paused while no admin acts, whatever monitors do |
| FetchRuns.PauseFreezesAccounts | fetch/cosmwasm_contract/src/contract.rs:821-835 | with both APIs paused and no admin acting, supply, fees, ids, eon and refunds are constant |
| FetchRuns.CapBound | fetch/cosmwasm_contract/src/contract.rs:623-634 | the supply never passes the larger of its initial value and every cap so far in force |
| FetchRuns.NextRespectsCap | fetch/cosmwasm_contract/src/contract.rs:167-170 | no step raises the supply beyond the cap in force, so none raises it while it exceeds the cap |
| FetchRuns.RoleProvenance | fetch/cosmwasm_contract/src/contract.rs:712-775 | every role held was held at the start or granted by an account that was an admin then |
| FetchRuns.NoAdminAbsorbs | fetch/cosmwasm_contract/src/contract.rs:872-906 | once there is no admin there never is one: roles shrink, parameters are frozen, fees only grow |
| FetchRuns.RefundPaysAmountLessFee | fetch/cosmwasm_contract/src/contract.rs:359-381 | a fee-charging refund of a swap's amount pays amount - fee > 0 if the limits were not reset meanwhile |
| FetchRuns.FreshSwapIsRefundable | fetch/cosmwasm_contract/src/contract.rs:383-405 | a swap just made can be refunded in full if and only if the relayer's own conditions hold |
| FetchRuns.SwapThenFullRefundRestores | fetch/cosmwasm_contract/src/contract.rs:383-405 | swap and full refund restore supply, fees and every balance |
| EthBridge.Bridge.constructor | ethereum/contracts/Bridge.sol:172-203 | the new object holds the deployment parameters, no swaps, and the largest eon |
| EthBridge.Deploy | ethereum/contracts/Bridge.sol:172-203 | inconsistent limits or an overflowing protection period deploy nothing |
| EthBridge.Bridge.Swap | ethereum/contracts/Bridge.sol:235-250 | on the object as specified: a revert after the supply was raised is reported, a success transfers, logs and counts |
| EthBridge.Bridge.GetFeesAccrued | ethereum/contracts/Bridge.sol:252-263 | on a valid live object it never fails, and fees and supply make up the balance |
| EthBridge.Bridge.NewRelayEon | ethereum/contracts/Bridge.sol:295-309 | on the object as specified: the eon wraps |
| EthBridge.Bridge.Refund | ethereum/contracts/Bridge.sol:326-364 | on the object as specified in both fee branches; the mapping records the full amount |
| EthBridge.Bridge.RefundInFull | ethereum/contracts/Bridge.sol:387-416 | on the object as specified: the whole amount is paid and recorded |
| EthBridge.Bridge.ReverseSwap | ethereum/contracts/Bridge.sol:444-474 | on the object as specified in both fee branches |
| EthBridge.Bridge.PausePublicApiSince | ethereum/contracts/Bridge.sol:488-494 | on the object as specified: never to a block already past |
| EthBridge.Bridge.PauseRelayerApiSince | ethereum/contracts/Bridge.sol:504-510 | on the object as specified: never to a block already past |
| EthBridge.Bridge.Mint | ethereum/contracts/Bridge.sol:522-531 | on the object as specified: supply and token rise together within the cap |
| EthBridge.Bridge.Burn | ethereum/contracts/Bridge.sol:538-546 | on the object as specified: supply and token fall together |
| EthBridge.Bridge.SetCap | ethereum/contracts/Bridge.sol:556-562 | on the object as specified: only the cap changes, for admins only |
| EthBridge.Bridge.SetAllowance | ethereum/contracts/Bridge.sol:572-578 | on the object as specified: admins any value, approvers up to their cap |
| EthBridge.Bridge.SetApproverCap | ethereum/contracts/Bridge.sol:586-592 | on the object as specified: only the approver cap changes, for admins only |
| EthBridge.Bridge.SetLimits | ethereum/contracts/Bridge.sol:602-612 | on the object as specified: fee <= min <= max or a revert |
| EthBridge.Bridge.Withdraw | ethereum/contracts/Bridge.sol:621-632 | on the object as specified: supply and balance fall together |
| EthBridge.Bridge.Deposit | ethereum/contracts/Bridge.sol:644-653 | on the object as specified: supply and balance rise together within the cap |
| EthBridge.Bridge.WithdrawFees | ethereum/contracts/Bridge.sol:666-675 | on the object as specified: exactly the derived fees are paid, if there are any |
| EthBridge.Bridge.DeleteContract | ethereum/contracts/Bridge.sol:684-695 | on the object as specified: the whole balance is paid out and the contract is gone |
| EthBridge.Bridge.ReleaseAmount | ethereum/contracts/Bridge.sol:768-770 | allowance and supply fall by the amount, or the call reverts |
| EthBridge.Bridge.Transact | ethereum/contracts/Bridge.sol:235-695 | one transaction on the object is one step of the specified world; a revert restores every field and balance, and a valid object stays valid |
| EthBridge.Bridge.Play | ethereum/contracts/Bridge.sol:235-695 | any history on the object is the run of the specified world; a valid object stays valid, and its supply, its balance and its refunds mapping can be read off the log |
| EthRuns.Reconciliation | ethereum/contracts/Bridge.sol:47-51 | in every reachable state balance >= supply; folding the logs gives the supply exactly, and balance - supply as fees charged + excess received - fees withdrawn |
| EthRuns.DeployEstablishesInv | ethereum/contracts/Bridge.sol:172-203 | a fresh deployment satisfies the invariant |
| EthRuns.FeesWithdrawalLeavesSupply | ethereum/contracts/Bridge.sol:260-263 | getFeesAccrued never reverts; withdrawFees to another account leaves the balance equal to the supply |
| EthRuns.RefundsMappingSums | ethereum/contracts/Bridge.sol:326-416 | the sum of the refunds mapping is the total of accepted refunds |
| EthRuns.RefundAtMostOnce | ethereum/contracts/Bridge.sol:143-147 | over any run a swap is refunded a positive amount at most once |
| EthRuns.RefundOpenExactlyWhen | ethereum/contracts/Bridge.sol:143-147 | after any run an id is open for a refund if and only if it is issued, was not refunded before, and all its refunds in the run were for zero |
| EthRuns.ZeroRefundIsAcceptedAgain | ethereum/contracts/Bridge.sol:312-364 | exactly when a refund of zero is accepted; it is logged, leaves every account as it was, and is accepted again |
| EthRuns.RepeatedReverseSwapAccepted | ethereum/contracts/Bridge.sol:444-474 | an accepted reverse swap is accepted once more if and only if allowance and supply cover it again |
| EthRuns.RefundReopensExactlyForZero | ethereum/contracts/Bridge.sol:358-363 | after an accepted refund the id is open again if and only if the amount was zero |
| EthRuns.EonCounts | ethereum/contracts/Bridge.sol:295-309 | the eon counts accepted calls modulo 2^64 |
| EthRuns.EonAfterDeployment | ethereum/contracts/Bridge.sol:193-195 | after k calls the eon is k - 1 modulo 2^64 |
| EthRuns.StaleTagRejected | ethereum/contracts/Bridge.sol:90-93 | a tag is current again if and only if a multiple of 2^64 eons has been started, and rejected otherwise |
| EthRuns.AllowanceAccounting | ethereum/contracts/Bridge.sol:768-770 | total settled = initial allowance + sum of resets - final allowance |
| EthRuns.AllowanceBound | ethereum/contracts/Bridge.sol:107-117 | without admin-sent calls n resets release at most initial allowance + n * approver cap |
| EthRuns.PauseAbsorbs | ethereum/contracts/Bridge.sol:711-727 | a paused API stays paused while no admin acts; with both paused supply, ids, eon and refunds are constant |
| EthRuns.CapBound | ethereum/contracts/Bridge.sol:244-245 | the supply never passes the larger of its initial value and every cap so far in force |
| EthRuns.StepKeepsDeleted | ethereum/contracts/Bridge.sol:684-695 | after deletion no action changes the contract |
| EthAcceptance.AcceptedExactlyWhen | ethereum/contracts/Bridge.sol:80-695 | from reachable worlds a call is accepted if and only if authorisation, timing, amounts, ids and the token are in order, for all 256-bit arguments |
| EthAcceptance.RejectionExplained | ethereum/contracts/Bridge.sol:80-770 | every revert names a concern that is not met |
| EthAcceptance.RejectionNamesFirstReason | ethereum/contracts/Bridge.sol:80-770 | every unmet concern leads to a revert, and of several it names the one looked at first |
| EthReplay.CallReported | ethereum/contracts/Bridge.sol:235-770 | the exact log of every accepted call: who, what, which id before it is incremented, payment and fee |
| EthReplay.StepReplays | ethereum/contracts/Bridge.sol:235-770 | the log of a step determines the new state and the new ledger |
| EthReplay.RunReplays | ethereum/contracts/Bridge.sol:235-770 | folding the logs of any run over the initial state gives the final state and ledger |
| EthReplay.SwapIdsCountUp | ethereum/contracts/Bridge.sol:247-249 | the announced swap ids count up from the first, modulo 2^64 |
| EthLifecycle.DeploysExactlyWhen | ethereum/contracts/Bridge.sol:172-203 | a deployment succeeds exactly when the protection period fits and the limits are ordered |
| EthLifecycle.DeployedPauses | ethereum/contracts/Bridge.sol:201-202 | each API is closed exactly from its own block on |
| EthLifecycle.FirstSwap | ethereum/contracts/Bridge.sol:197-202 | the first swap is accepted exactly within limits, cap and public pause of the deployment |
| EthLifecycle.FirstCallsAreTheDeployers | ethereum/contracts/Bridge.sol:184-203 | at first only the deployer can call what needs a role, and only what needs an admin |
| EthLifecycle.FirstApproval | ethereum/contracts/Bridge.sol:197-199 | an approver appointed by the deployer sets allowances exactly up to the approver cap |
| EthLifecycle.FirstReverseSwap | ethereum/contracts/Bridge.sol:195-202 | the first reverse swap is accepted exactly within supply, limit, allowance and relayer pause of the deployment, under the largest eon, and charges its fee |
| EthLifecycle.HistoryReplays | ethereum/contracts/Bridge.sol:172-203 | the deployment and the logs rebuild contract and token; the swap ids count from zero |
| EthLifecycle.ProtectedFromDeletion | ethereum/contracts/Bridge.sol:186-186 | no run deletes the contract before the protection period is over |
| EthLifecycle.DeletesExactlyWhen | ethereum/contracts/Bridge.sol:684-695 | when a deletion is accepted; it pays the whole balance to the target and touches no other account |
| Simulation.Simulates | ethereum/contracts/Bridge.sol:235-675 | an accepted Bridge.sol step is followed by the CosmWasm contract, which accepts its translation and ends in the related state, if and only if the designs agree on it: no zero refund, no counter at its end, no fee equal to the minimum, no fee withdrawal that includes excess, nothing that only the wider allowance covers |
| Simulation.AcceptsTheSame | ethereum/contracts/Bridge.sol:85-147 | from related states both contracts accept the same calls, except that only Bridge.sol checks the upper limit on settlements, the ERC-20 consent, and that there are fees |
| Simulation.LimitBindsOnEthereumOnly | ethereum/contracts/Bridge.sol:138-141 | a settlement above the limit is rejected by Bridge.sol, and accepted by the CosmWasm contract exactly when Bridge.sol would accept it with the limit raised |
| Simulation.LimitExample | ethereum/contracts/Bridge.sol:138-141 | related states and a reverse swap above the limit that only the CosmWasm contract accepts |
| Simulation.EqualFeeOnEthereumOnly | ethereum/contracts/Bridge.sol:730-744 | limits with the fee equal to the minimum are taken by Bridge.sol from any admin, and never by the CosmWasm contract |
| Simulation.EqualFeeExample | ethereum/contracts/Bridge.sol:730-744 | related states and such limits, accepted on one side and refused on the other |
| Simulation.SimulatesRun | ethereum/contracts/Bridge.sol:235-675 | whole runs of calls and token movements, gifts included, stay related; the derived fees are the stored fees plus the excess at the start and its gains since; equal allowances stay equal |
| Simulation.DeploymentsRelated | ethereum/contracts/Bridge.sol:172-203 | a deployment and the corresponding instantiation, followed by its two pauses, are related; the instantiation fails exactly when the fee equals the minimum |
| TwoChains.Conservation | fetch/cosmwasm_contract/src/contract.rs:157-357 | if each recorded swap is settled at most once for its amount, supply_E + supply_F = initial + net admin changes + pending swaps in every reachable joint state |
| TwoChains.SettledRunsBalance | ethereum/contracts/Bridge.sol:444-474 | when all swaps are settled the supplies are back to the initial ones up to admin changes |
| TwoChains.JointRunProjects | ethereum/contracts/Bridge.sol:235-695 | a joint run is a run of each chain, so each contract's theorems hold within the pair |
| TwoChains.RecordedIdsCountUp | ethereum/contracts/Bridge.sol:247-249 | what the relayer has on record are the announced swaps, whose ids count up on both chains |
| TwoChains.SecondSettlementOnEth | ethereum/contracts/Bridge.sol:444-474 | at the end of any honest run a swap just settled is settled again if and only if allowance and supply cover it, and then the books miss its amount |
| TwoChains.SecondSettlementOnFetch | fetch/cosmwasm_contract/src/contract.rs:190-272 | the same on Fetch |
| TwoChains.SwapSettledTwice | ethereum/contracts/Bridge.sol:444-474 | one swap, settled honestly, is settled again if and only if the initial allowance and supply cover twice its amount |
| TwoChains.SecondSettlementExample | ethereum/contracts/Bridge.sol:444-474 | concrete worlds in which it happens |

## Left out

- The relayer service is not in the repository; it appears as the guard `TwoChains.Honest` on steps.
- The record's JSON form, decimal strings in events, bech32 text and address canonicalisation: opaque values, with the
  result of resolving an address as an input of the step.
- The protobuf form of the mint and burn messages: they are effects on the ledger.
- Other denominations on Fetch: the bank is modelled for the contract's own denomination, and a message in any other
  would not be payable.
- Queries and plain getters, the migration entry point and its version key, which do not change the bridge's state.
- The deployment scripts, the event watcher, gas, ether balances and reentrancy.
- The sources of OpenZeppelin's access control and ERC-20: a role set in which granting a held role and revoking a
  missing one change nothing, and a checked 256-bit ledger.
- Role provenance and the loss of the last admin on Ethereum, where the role methods are inherited: the CosmWasm
  versions are proved.
- EthRuns.RefundAtMostOnce: positive amounts only, because it is false for zero; the exact condition is
  `EthRuns.RefundOpenExactlyWhen`.
- Simulation.SimulatesRun: actions that take effect must have a counterpart (`Simulation.Translatable`: amounts within
  128 bits and blocks within 64, no deletion; caps, the upper limit and pause blocks may be any) and be ones on which the
  designs agree; `Simulation.Simulates` shows that a step on which they do not agree is not followed.
- TwoChains.Conservation: the supply of a deleted `Bridge.sol` is its last one.
