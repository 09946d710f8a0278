# Fixed-rate swap pallet, modelled in Dafny

This project models the fixed-rate swap pallet (`pallets/fixed-swap/src/lib.rs`).
In that pallet a creator escrows `total0` of one token against `total1` of another.
Buyers pay in the second token and receive the first at the rate `total0 / total1`.
When the pool's end block comes, the end-of-block hook gives the unsold escrow back to the creator.

The model follows the code as written, not the behaviour its tests or its design describe.

Files:

- `bounded.dfy` (module `Bounded`): the integer widths of the test runtime and the saturating arithmetic.
  - Balance is u128, BlockNumber is u64 and PoolId is u32.
  - The arithmetic is `saturating_add`, `saturating_sub` and `saturating_mul`.
- `dispatch.dfy` (module `Dispatch`): errors and call results.
- `currency.dfy` (module `Currency`): the multi-currency the pallet escrows through.
  - Every (token, account) pair has a free and a reserved balance.
  - `Reserve`, `Unreserve` and `Transfer` are modelled with the behaviour the pallet relies on.
  - Only what the pallet relies on is modelled. The currency's own implementation is taken as an assumed contract.
- `fixed_swap.dfy` (module `FixedSwap`): the pallet.
  - Its storage (`NextPoolId`, `Pool`, `Swap`, `PoolEndAt`) and the currency state are the fields of class `Pallet`.
  - `create`, `swap` and `on_finalize` are methods of that class.
  - The count `on_initialize` takes is a function.
  - Pure functions specify the pricing, the ledger legs of a swap and settlement, with lemmas about them.
  - The current block number is a parameter of every transition.
- `scenarios.dfy` (module `Scenarios`): the unit-test scenarios of `pallets/fixed-swap/src/tests.rs`, replayed on the model. Each method's postcondition states what the code as written yields.

### Where the code differs from its tests and its evident design

The model follows the code in each of these points:

- **Inverted time guard.** `swap` proceeds only when `start_at + duration < now` (lib.rs:155). A swap is therefore accepted only after the pool's end block, and rejected with `PoolExpired` while the pool is open.
  - `Scenarios.SwapBeforeEndIsRejected` shows the test's swap at block 0 being rejected.
  - `Scenarios.SwapAfterEnd` shows a swap at block 51 going through.
- **Payment leg uses `amount0`.** The buyer pays `amount0` of token1, not `amount1` (lib.rs:163). In `Scenarios.SwapAfterEnd` the buyer pays 10, not 20.
- **The per-buyer record multiplies.** The record is `saturating_mul`'d by the amounts rather than added to them (lib.rs:166-167). A record starting at (0, 0) therefore stays (0, 0): see `FixedSwap.RecordSwap`.
- **Missing pool.** A pool id that does not exist reads as the all-zero default pool (lib.rs:153).
  - Its end block is 0, so the guard admits any `now > 0`.
  - Its `total1` is 0, so the price divides by zero.
  - The model returns `DivisionByZero` where the source panics.
- **Partial rollback.** When a transfer fails, the pool write-back of `try_mutate` is discarded. The unreserve and any earlier transfer stay applied (lib.rs:161-163).
- **No over-swap guard.** Nothing checks `swapped0 + amount0 <= total0`. A swap larger than the remaining escrow unreserves what it can and then transfers out of the creator's free balance.
- **Saturated counter.** Once `NextPoolId` reaches the PoolId maximum, every later `create` reuses that id and overwrites the stored pool (lib.rs:140). `Pallet.Valid` allows for that one id.
- **Undeclared getters.** The tests call `FixedSwap::pools` and `FixedSwap::swaps`, which `decl_storage` does not declare. The scenarios read the storage maps directly.

## Model

| member | source | states |
|---|---|---|
| Bounded.SatAdd | pallets/fixed-swap/src/lib.rs:123 | saturating add on a width with maximum `max`: the result is at least each operand and at most `max`; it is the exact sum when that fits and `max` otherwise |
| Bounded.SatSub | pallets/fixed-swap/src/lib.rs:190 | saturating subtraction: never more than `a`; exact when `b <= a`, zero otherwise |
| Bounded.SatMul | pallets/fixed-swap/src/lib.rs:157 | saturating multiplication: at most `max` and at most the true product; exact when the product fits, `max` otherwise |
| Currency.Reserve | pallets/fixed-swap/src/lib.rs:125 | succeeds iff the free balance covers the amount, otherwise fails with InsufficientBalance; moves the amount from free to reserved, keeps the pair's holding, and leaves every other pair unchanged |
| Currency.Unreserve | pallets/fixed-swap/src/lib.rs:161 | never fails; moves min(reserved, amount) back to free (exact when covered, to zero otherwise), keeps the holding, leaves other pairs unchanged |
| Currency.Transfer | pallets/fixed-swap/src/lib.rs:162-163 | succeeds iff the sender's free balance covers the amount; debits the sender and credits the receiver (a no-op on free balances when they are the same account); no reserved balance and no other pair changes |
| Currency.UnreserveCommute | pallets/fixed-swap/src/lib.rs:188-193 | two unreserves give the same ledger in either order, whether for the same pair or for different pairs |
| FixedSwap.EndAt | pallets/fixed-swap/src/lib.rs:122-123 | a pool's end block is `start_at + duration` when that fits in u64 and the u64 maximum otherwise, never below either operand |
| FixedSwap.DueAt | pallets/fixed-swap/src/lib.rs:188 | the pool ids drained at block `now` are exactly those with an index entry under `now` |
| FixedSwap.PriceIsFloor | pallets/fixed-swap/src/lib.rs:157 | the price `amount0` is the floor of the saturated product `amount1 * total0` over `total1`, and `amount0 * total1` never exceeds the exact `amount1 * total0` |
| FixedSwap.PriceWithinEscrow | pallets/fixed-swap/src/lib.rs:157 | paying at most the pool's `total1` never prices out more than its `total0` |
| FixedSwap.Bought | pallets/fixed-swap/src/lib.rs:158-159 | a swap changes only the pool's two cumulative totals; each is non-decreasing, grows by exactly the swapped amount when that fits in u128 and becomes the u128 maximum otherwise, and the end block is unchanged |
| FixedSwap.RecordSwap | pallets/fixed-swap/src/lib.rs:165-169 | the buyer's record is multiplied, so a (0, 0) record stays (0, 0) and a zero `amount0` zeroes its first half |
| FixedSwap.SwapLegs | pallets/fixed-swap/src/lib.rs:161-163 | the only failure of the ledger legs is InsufficientBalance, and the creator's token0 reserve is lowered by `amount0` (down to zero) whether or not the transfers succeed |
| FixedSwap.SwapLegsSucceed | pallets/fixed-swap/src/lib.rs:161-163 | in a pool whose two tokens differ (the buyer may be the creator), the legs succeed if and only if the creator's token0 holding (free plus the reserve the unreserve releases) and the buyer's free token1 each cover `amount0` |
| FixedSwap.SwapLegsPaymentFails | pallets/fixed-swap/src/lib.rs:161-163 | between distinct parties in a pool whose two tokens differ: when the creator's token0 holding covers `amount0` but the buyer's free token1 does not, the legs fail with InsufficientBalance after the buyer has received `amount0` of token0 out of the creator's holding, and neither token1 balance moves |
| FixedSwap.SwapLegsMoveFunds | pallets/fixed-swap/src/lib.rs:161-163 | between distinct parties in a pool whose two tokens differ, a complete swap lowers the creator's token0 holding by `amount0` and raises the buyer's free token0 by it; the buyer pays `amount0` of token1 to the creator |
| FixedSwap.SwapLegsElsewhere | pallets/fixed-swap/src/lib.rs:161-163 | a swap, complete or not, changes no balance other than the creator's and the buyer's balances of the pool's two tokens |
| FixedSwap.Release | pallets/fixed-swap/src/lib.rs:189-193 | settling one pool lowers the creator's token0 reserve by the unsold `total0 - swapped0` (both saturating), keeps the holding, and touches no other pair |
| FixedSwap.ReleaseCommute | pallets/fixed-swap/src/lib.rs:188-193 | two pools can be settled in either order with the same ledger as result |
| FixedSwap.SettleAnyFirst | pallets/fixed-swap/src/lib.rs:188-195 | settling a set of pools may start with any of them: the drain order of the index does not change the result |
| FixedSwap.SettleKeepsHoldings | pallets/fixed-swap/src/lib.rs:188-195 | settlement keeps every holding (free + reserved) and never raises a reserved balance |
| FixedSwap.SettleUntouched | pallets/fixed-swap/src/lib.rs:188-195 | a balance that no drained pool escrows is left alone by settlement |
| FixedSwap.SettleReturnsUnsold | pallets/fixed-swap/src/lib.rs:188-193 | settlement lowers each reserved balance by the summed unsold amount (`total0 - swapped0`, saturating) of all drained pools escrowing it, down to zero; this covers several pools of one creator and token ending in the same block |
| FixedSwap.Pallet.constructor | pallets/fixed-swap/src/lib.rs:64-81 | genesis storage: the counter is 0 and every map is empty; the invariant holds |
| FixedSwap.Pallet.Create | pallets/fixed-swap/src/lib.rs:109-143 | a zero duration fails with InvalidDuration and a failed reserve fails with its error, both with all state unchanged; otherwise the pool is stored under the old counter with zero totals, indexed under `now + duration` (saturating), the counter moves up by one (saturating), the escrow is reserved; the id is fresh while the counter is below its maximum; the invariant is kept |
| FixedSwap.Pallet.Swap | pallets/fixed-swap/src/lib.rs:146-174 | rejected with PoolExpired unless the end block is below `now`, with DivisionByZero for a zero `total1`, both with no state change; otherwise the ledger is exactly the swap legs' result; on success the pool exists and gets the new totals and the buyer's record is updated; on a failed leg pools and records are unchanged while the earlier legs stay applied; the counter, index and pool ids never change; the invariant is kept, including that every buyer record stays (0, 0) because records are only multiplied |
| FixedSwap.Pallet.SwapInPool | pallets/fixed-swap/src/lib.rs:153-169 | the `try_mutate` closure on a copy of the pool: the guard, the price, the ledger legs and the buyer's record, returning the updated copy exactly when all legs pass |
| FixedSwap.Pallet.OnInitializeCount | pallets/fixed-swap/src/lib.rs:176-178 | the count of index entries under `now`, truncated to u32: exact when it fits, zero for an empty block |
| FixedSwap.Pallet.OnFinalize | pallets/fixed-swap/src/lib.rs:187-196 | removes exactly the index entries under `now`; the ledger becomes the settlement of the drained pools, in any order; pools, records and the counter are unchanged; no drained pool id keeps an entry and no entry is left under `now`, so a second call at the same block settles nothing; the invariant is kept |
| Scenarios.NewTestPool | pallets/fixed-swap/src/tests.rs:8-19 | the tests' pool at block 0: id 0, indexed under block 50, counter 1, creator's free token0 99900 and reserved 100 |
| Scenarios.CreateWorks | pallets/fixed-swap/src/tests.rs:21-48 | the first pool gets id 0, is indexed under block 50, moves the counter to 1 and reserves 100 |
| Scenarios.SwapBeforeEndIsRejected | pallets/fixed-swap/src/tests.rs:50-70 | as the code is written, the test's swap at block 0 fails with PoolExpired; the totals stay (0, 0) and the reserve stays 100 |
| Scenarios.SettledTestPool | pallets/fixed-swap/src/tests.rs:93-96 | settling the unswapped test pool at block 50 returns the whole reserve: reserved 0, free 100000, the index empty |
| Scenarios.AutoPayout | pallets/fixed-swap/src/tests.rs:72-101 | as the code is written, the swap is rejected, settlement at block 50 leaves reserve 0 and holding 100000, and settling block 50 again changes nothing |
| Scenarios.SwapAfterEnd | pallets/fixed-swap/src/lib.rs:153-169 | a swap of 20 at block 51 passes the guard: totals (10, 20), the buyer receives 10 of token0, the creator receives 10 (not 20) of token1, and the buyer's record stays (0, 0) |

## Left out

- Origin checks (`ensure_signed`): the caller's account is a parameter. An unsigned origin's `BadOrigin` is not modelled.
- Events (`PoolCreated`, `PoolSwapped`, `PoolClosed`) are not modelled: they carry no state the pallet reads.
- Weights: `on_initialize` is modelled only as the count it takes. The weight function it feeds is not part of this model.
- Storage hashers, SCALE encoding and the storage iteration order are not modelled. Index entries are a set, and settlement is shown to be independent of order.
- The currency's implementation is not modelled. Its operations are an assumed contract. That leaves out:
  - existential deposits and dust removal;
  - total issuance;
  - the currency's own error names (all of its failures are `InsufficientBalance` here);
  - overflow of a receiver's balance (ledger balances are unbounded naturals).
- Currency.Unreserve: the amount `unreserve` fails to release is returned by the currency and ignored by the pallet. The model does not return it.
- The current block number, which the source reads from the system pallet, is a parameter of each transition.
- FixedSwap.Pallet.Swap: a division by zero panics in the source. The model returns `DivisionByZero` with no state change instead, which is what a panicking extrinsic amounts to.
- FixedSwap.Pallet.OnFinalize: the source removes each index entry as it drains it. The model removes all of them before the loop. The loop never reads the index, so the resulting state is the same.
- FixedSwap.Price: no contract of its own. What it computes is stated by `PriceIsFloor` and `PriceWithinEscrow`.
- FixedSwap.SwapLegsMoveFunds: states the balance movements only for a buyer who is not the creator and a pool whose two tokens differ. In the other cases, the same transfers cancel in ways the lemma does not spell out.
- Scenarios.AutoPayout and Scenarios.SwapBeforeEndIsRejected: the tests' expected balances after a swap at block 0 do not hold for the code as written. The scenarios state what the code yields.
