# Omnipool subpools and the XCM rate limiter, in Dafny

This project models two HydraDX pallets.

- **The subpools pallet** (`pallets/omnipool-subpools`) connects the Omnipool to Stableswap pools. An Omnipool is one hub pool, where every asset trades against the hub asset. A Stableswap subpool holds several stable assets, and its share token is listed in the hub pool.
  - The pallet keeps two registries. `MigratedAssets` maps each stable asset to its subpool and to its migration details. `Subpools` lists the share assets of the subpools.
  - `create_subpool` and `migrate_asset_to_subpool` move hub-pool assets into a subpool.
  - `add_liquidity`, `add_liquidity_stable` and `remove_liquidity` call into the two pools, and convert a position once its asset has been migrated.
  - `sell` and `buy` choose one of five routes. Three of those routes are carried out by the pallet's own `resolve_*` functions.
- **The XCM rate limiter** (`pallets/xcm-rate-limiter`) is a deferral filter for incoming XCM messages. It reads the first instruction of a message. For the first deposited asset that has a rate limit, it adds the amount to a decaying accumulator and answers by how many relay-chain blocks to defer the message.

How the model is built:

- **Inputs.** The numeric kernels of `hydra_dx_math` are parameters of a `HydraMath.Maths` record. The larger calls into the Omnipool and Stableswap pallets are parameters of a `Runtime.Foreign` record. Each of these answers `None` or `Err` where the Rust code can fail.
- **Ledger.** Token balances are a `Tokens.Ledger` holding free balances and total issuance.
- **Smaller foreign operations.** The simple storage operations of the surrounding pallets are written out in `Omnipool` and `Stableswap`. Examples are `load_asset_state`, `add_asset`, `get_pool`, `find_asset` and `move_liquidity_to_pool`.
- **Resolvers.** Each `resolve_*` is split in two.
  - A pure *quote* in `SubpoolTrades` runs every check, load and kernel up to the first write. It returns a `Plan`: the balance operations in the order the Rust code makes them, the hub-pool state update, and what the trader pays and receives.
  - `OmnipoolSubpools.Pallet.Commit` carries out the plan one operation at a time. On any failure it restores the state it started from. In the Rust code that rollback comes from the storage layer every dispatchable call runs in. `#[require_transactional]` on the resolvers only asserts that they are called inside such a layer.
- **The pallet.** `OmnipoolSubpools.Pallet` holds the two registries and the chain state. Its methods are the dispatchable calls and the resolvers, proved against the pure `*Outcome` functions and quotes. They model the code as written, including the slippage check listed under Findings; `OmnipoolSubpools.BuyOutcomeCorrected` is `buy` with that check corrected.
- **The rate limiter.** `XcmRateLimiter.RateLimiter.DeferredBy` is the loop of `deferred_by`, proved against the pure `XcmRateLimiter.DeferralOutcome`.

## Model

| member | source | states |
|---|---|---|
| SubpoolTrades.Classify | pallets/omnipool-subpools/src/lib.rs:496-546 | each of the five routes is taken exactly when its pattern of registry lookups holds (both absent, same pool, different pools, only the sold asset migrated, only the bought asset migrated), and each route carries the pools that were looked up |
| SubpoolTrades.QuoteSellBetweenSubpools | pallets/omnipool-subpools/src/lib.rs:789-901 | a failed gate or load is returned as is; then `Math` exactly when a kernel or the fee subtraction fails, `LimitNotReached` exactly when the net payout is below `min_limit`, and otherwise success receiving that payout; on success the SELL/BUY flags held, the amounts are those the kernels computed, and a trader account pays `asset_in` and receives `asset_out` first; the writes are `Pallet.ResolveSellBetweenSubpools` |
| SubpoolTrades.QuoteBuyBetweenSubpools | pallets/omnipool-subpools/src/lib.rs:674-786 | a failed gate or load is returned as is; then `Math` exactly when a kernel fails, `LimitExceeded` exactly when the amount to add for the shares needed exceeds `max_limit`, and otherwise success paying that amount; on success the flags held and the plan is priced by the kernels; the writes are `Pallet.ResolveBuyBetweenSubpools` |
| SubpoolTrades.QuoteIsoOutGivenStableIn | pallets/omnipool-subpools/src/lib.rs:904-989 | buying the hub asset fails with the Omnipool's `NotAllowed`; load errors are passed through; then `Math` exactly when a kernel fails, `LimitNotReached` exactly when the hub-pool asset paid out is below `min_limit`, otherwise success receiving it; on success the flags held and the plan is priced by the kernels; the writes are `Pallet.ResolveIsoOutGivenStableIn` |
| SubpoolTrades.QuoteStableOutGivenAssetIn | pallets/omnipool-subpools/src/lib.rs:992-1089 | selling the hub asset is the hub-asset quote; otherwise load errors are passed through, then `Math` exactly when a kernel or the fee subtraction fails, `LimitNotReached` exactly when the net withdrawal is below `min_limit`, otherwise success receiving it; the writes are `Pallet.ResolveStableOutGivenAssetIn` |
| SubpoolTrades.QuoteStableOutGivenHubAssetIn | pallets/omnipool-subpools/src/lib.rs:1092-1184 | selling anything other than the hub asset fails with the Omnipool's `NotAllowed`; load and gate errors are passed through; then `Math` exactly when a kernel or the fee subtraction fails, `LimitNotReached` exactly when the net withdrawal is below `min_limit`, otherwise success receiving it; on success the stable asset may be bought and the hub asset sold; the writes are `Pallet.ResolveStableOutGivenHubAssetIn` |
| SubpoolTrades.QuoteStableInGivenAssetOut | pallets/omnipool-subpools/src/lib.rs:1187-1275 | buying the hub asset fails with `NotAllowed`; load errors are passed through; then `Math` exactly when a kernel fails, `LimitExceeded` exactly when the stable amount to add exceeds `max_limit`, otherwise success paying it; the writes are `Pallet.ResolveStableInGivenAssetOut` |
| SubpoolTrades.QuoteIsoInGivenStableOut | pallets/omnipool-subpools/src/lib.rs:1278-1371 | corrected: paying with the hub asset is the corrected hub-asset quote; otherwise load errors are passed through, then `Math` exactly when a kernel fails, `LimitExceeded` exactly when the hub-pool asset required exceeds `max_limit`, otherwise success paying it; the flags held and the plan is priced by the kernels |
| SubpoolTrades.QuoteHubAssetInGivenStableOut | pallets/omnipool-subpools/src/lib.rs:1374-1461 | corrected: a non-hub `asset_in` fails with `NotAllowed`; load errors are passed through; then `Math` exactly when a kernel fails, `LimitExceeded` exactly when the hub asset charged exceeds `max_limit`, otherwise success paying it |
| SubpoolTrades.QuoteHubAssetInGivenStableOutAsWritten | pallets/omnipool-subpools/src/lib.rs:1374-1461 | as written: a non-hub `asset_in` fails with `NotAllowed`; load errors are passed through; then `Math` exactly when a kernel fails, `LimitExceeded` exactly when the share amount burned exceeds `max_limit`, otherwise success charging the hub reserve whatever its size; the writes are `Pallet.ResolveHubAssetInGivenStableOut` |
| SubpoolTrades.QuoteIsoInGivenStableOutAsWritten | pallets/omnipool-subpools/src/lib.rs:1278-1371 | as written: a hub-asset `asset_in` is the as-written hub-asset quote, any other is `QuoteIsoInGivenStableOut`; on success the trader receives exactly `amount_out`, and a trader account pays and receives first; the writes are `Pallet.ResolveIsoInGivenStableOut` |
| SubpoolTrades.HubAssetInGivenStableOutPlan | pallets/omnipool-subpools/src/lib.rs:1438-1458 | the trader pays `delta_hub_reserve` of the hub asset and receives exactly `amount_out` |
| Runtime.Settlement | pallets/omnipool-subpools/src/lib.rs:752-763 | when a trade's first two transfers are the trader's payment and payout: the trader could afford the payment, `asset_in` falls by exactly what was paid and `asset_out` rises by exactly what was received |
| Tokens.ApplyOpsAppend | pallets/omnipool-subpools/src/lib.rs:752-785 | applying two runs of operations is applying the first and then the second, stopping at the first error |
| Tokens.ApplyOpsFrame | pallets/omnipool-subpools/src/lib.rs:752-785 | operations that do not touch a balance leave it unchanged |
| OmnipoolSubpools.ToStableswapTradable | pallets/omnipool-subpools/src/lib.rs:1463-1465 | each of SELL, BUY, ADD_LIQUIDITY and REMOVE_LIQUIDITY is set in the result exactly when it is set in the Omnipool state; no unknown bit survives |
| OmnipoolSubpools.PositionForRemoval | pallets/omnipool-subpools/src/lib.rs:431-440 | a load error is returned; a migrated position is converted to its subpool by `convert_position` (lines 649-671, `Math` when the kernel fails) and stored back; any other position is used unchanged |
| OmnipoolSubpools.RemoveLiquidityOutcome | pallets/omnipool-subpools/src/lib.rs:423-460 | position errors come first, then the Omnipool removal's; after it a subpool position without a withdraw asset fails with `WithdrawAssetNotSpecified`, one with a withdraw asset is Stableswap's `remove_liquidity_one_asset` of every share `who` then holds, and any other position ends with the removal |
| OmnipoolSubpools.MigratedPositionWithdrawsFromSubpool | pallets/omnipool-subpools/src/lib.rs:431-459 | with a consistent registry a migrated position always reaches the subpool branch: without a withdraw asset the removal fails with `WithdrawAssetNotSpecified`, with one the shares are withdrawn through Stableswap |
| OmnipoolSubpools.SellOutcome | pallets/omnipool-subpools/src/lib.rs:487-546 | `sell` on each route; a route the pallet resolves itself never changes a Stableswap table |
| OmnipoolSubpools.SellSlippage | pallets/omnipool-subpools/src/lib.rs:487-546 | a successful cross-pool `sell` gives a trader at least `min_buy_amount` of `asset_out` and never more `asset_in`; between subpools and from a subpool into the hub pool it takes exactly `amount` of `asset_in` |
| OmnipoolSubpools.BuySlippage | pallets/omnipool-subpools/src/lib.rs:574-634 | a successful cross-pool `buy` paid for with anything but the hub asset costs a trader at most `max_sell_amount` of `asset_in` and never less `asset_out`; except on the subpool-to-hub-pool route it credits exactly `amount` of `asset_out` |
| OmnipoolSubpools.BuyOutcome | pallets/omnipool-subpools/src/lib.rs:574-634 | as written, `buy` differs from `BuyOutcomeCorrected` only on a purchase of a stable asset with the hub asset |
| OmnipoolSubpools.BuyOutcomeCorrected | pallets/omnipool-subpools/src/lib.rs:574-634 | `buy` with the corrected hub-asset check; a route the pallet resolves itself never changes a Stableswap table |
| OmnipoolSubpools.BuySlippageCorrected | pallets/omnipool-subpools/src/lib.rs:574-634 | a successful cross-pool `buy` with the corrected hub-asset check costs a trader at most `max_sell_amount` of `asset_in` and never less `asset_out`; except on the subpool-to-hub-pool route it credits exactly `amount` of `asset_out` |
| OmnipoolSubpools.HubAssetNeverBought | pallets/omnipool-subpools/src/lib.rs:910-916 | buying the hub asset with a stable asset by `sell` or `buy` fails with the Omnipool's `NotAllowed`; its precondition that the hub asset is not migrated holds because `create_subpool` and `migrate_asset_to_subpool` only migrate assets listed in the Omnipool's asset table, and the Omnipool pallet keeps the hub asset's state apart from that table (a fact about the Omnipool, which is not part of this model) |
| OmnipoolSubpools.CreatePoolWithFlags | pallets/omnipool-subpools/src/lib.rs:167-184 | an existing pool id fails with `PoolExists`; otherwise exactly one pool is added, holding the two assets in order, and each asset gets the flags given for it (the second's when the two are the same asset) |
| OmnipoolSubpools.RegisterSubpool | pallets/omnipool-subpools/src/lib.rs:242-244 | both assets are recorded under the new pool, the pool joins `Subpools`, every other entry is kept, and a consistent registry stays consistent |
| OmnipoolSubpools.CreateSubpoolOutcome | pallets/omnipool-subpools/src/lib.rs:150-252 | a missing asset fails with `AssetNotFound`; on success both assets are recorded under the new pool, the pool is registered, other entries are kept, the registry stays consistent, both assets leave the hub pool while the share asset joins it, and the new pool holds the two assets with their flags; the ledger side is stated by `CreateSubpoolMovesReserves` |
| OmnipoolSubpools.MigrateAssetOutcome | pallets/omnipool-subpools/src/lib.rs:267-321 | an unregistered pool fails with `SubpoolNotFound`; on success the asset is recorded under the pool, other entries and `Subpools` are kept, the registry stays consistent, and the pool's asset list gains the asset with its flags; the ledger and Omnipool side is stated by `MigrateAssetMovesReserve` |
| OmnipoolSubpools.CreateSubpoolLedger | pallets/omnipool-subpools/src/lib.rs:186-211 | on success both loads succeeded, the share asset differs from both pool assets, and the new ledger is the transfer of both protocol-account reserves to the pool account followed by the deposit of the subpool's reserve as shares |
| OmnipoolSubpools.CreateSubpoolMovesReserves | pallets/omnipool-subpools/src/lib.rs:186-211 | on success, for two distinct assets and a pool account other than the protocol account, the protocol account's whole reserve of each asset moves to the pool account and its balance drops to zero; the shares `create_new_subpool` reports as the reserve are minted to the protocol account, raising the share issuance by the same amount |
| OmnipoolSubpools.MigrateAssetMovesReserve | pallets/omnipool-subpools/src/lib.rs:284-314 | on success, for an asset other than the pool's share asset and a pool account other than the protocol account, the protocol account's whole reserve of the asset moves to the pool account; every share minted goes to the protocol account; the final Omnipool table is what `update_asset_state` returns for the table with the asset removed |
| Stableswap.TransferAllMoves | pallets/omnipool-subpools/src/lib.rs:189-202 | `move_liquidity_to_pool` moves the whole listed amount of an asset listed once from the sender to the pool account |
| Stableswap.TransferAllFrame | pallets/omnipool-subpools/src/lib.rs:189-202 | `move_liquidity_to_pool` leaves every balance of an unlisted asset, and every issuance, unchanged |
| Stableswap.SeedPair | pallets/omnipool-subpools/src/lib.rs:189-211 | seeding a pool with two distinct assets moves both amounts and leaves the share asset changed only by the shares minted to the sender |
| OmnipoolSubpools.Pallet.Commit | pallets/omnipool-subpools/src/lib.rs:674-786 | succeeds exactly when the plan applies; leaves the applied state on success and the starting state on failure |
| OmnipoolSubpools.Pallet.ResolveSellBetweenSubpools | pallets/omnipool-subpools/src/lib.rs:789-901 | the pallet's state is the plan of `QuoteSellBetweenSubpools` applied, or unchanged with the quote's or the write's error; the registries are unchanged |
| OmnipoolSubpools.Pallet.ResolveBuyBetweenSubpools | pallets/omnipool-subpools/src/lib.rs:674-786 | the same for `QuoteBuyBetweenSubpools` |
| OmnipoolSubpools.Pallet.ResolveIsoOutGivenStableIn | pallets/omnipool-subpools/src/lib.rs:904-989 | the same for `QuoteIsoOutGivenStableIn` |
| OmnipoolSubpools.Pallet.ResolveStableOutGivenAssetIn | pallets/omnipool-subpools/src/lib.rs:992-1089 | the same for `QuoteStableOutGivenAssetIn`, handing a sale of the hub asset to `ResolveStableOutGivenHubAssetIn` |
| OmnipoolSubpools.Pallet.ResolveStableOutGivenHubAssetIn | pallets/omnipool-subpools/src/lib.rs:1092-1184 | the same for `QuoteStableOutGivenHubAssetIn` |
| OmnipoolSubpools.Pallet.ResolveStableInGivenAssetOut | pallets/omnipool-subpools/src/lib.rs:1187-1275 | the same for `QuoteStableInGivenAssetOut` |
| OmnipoolSubpools.Pallet.ResolveIsoInGivenStableOut | pallets/omnipool-subpools/src/lib.rs:1278-1371 | the same for the as-written `QuoteIsoInGivenStableOutAsWritten`, handing a purchase with the hub asset to `ResolveHubAssetInGivenStableOut` |
| OmnipoolSubpools.Pallet.ResolveHubAssetInGivenStableOut | pallets/omnipool-subpools/src/lib.rs:1374-1461 | the same for `QuoteHubAssetInGivenStableOutAsWritten`, the code as written |
| OmnipoolSubpools.Pallet.Sell | pallets/omnipool-subpools/src/lib.rs:487-547 | the pallet's state is the outcome of the route `Classify` picks, all-or-nothing; the registries are unchanged |
| OmnipoolSubpools.Pallet.Buy | pallets/omnipool-subpools/src/lib.rs:574-635 | the pallet's state is `BuyOutcome` of the route `Classify` picks, all-or-nothing, with the as-written hub-asset check; the registries are unchanged |
| OmnipoolSubpools.Pallet.AddLiquidity | pallets/omnipool-subpools/src/lib.rs:344-362 | a migrated asset is added to its subpool and the minted shares to the hub pool; any other asset goes to the hub pool; all-or-nothing |
| OmnipoolSubpools.Pallet.AddLiquidityStable | pallets/omnipool-subpools/src/lib.rs:377-403 | an asset that is not migrated fails with `NotStableAsset` and changes nothing; otherwise the shares go to the hub pool only when `mint_nft` is set |
| OmnipoolSubpools.Pallet.RemoveLiquidity | pallets/omnipool-subpools/src/lib.rs:423-460 | the state is `RemoveLiquidityOutcome`, all-or-nothing |
| OmnipoolSubpools.Pallet.CreateSubpool | pallets/omnipool-subpools/src/lib.rs:150-252 | the state is `CreateSubpoolOutcome` or unchanged on error, and registry consistency is kept |
| OmnipoolSubpools.Pallet.MigrateAssetToSubpool | pallets/omnipool-subpools/src/lib.rs:267-321 | the state is `MigrateAssetOutcome` or unchanged on error, and registry consistency is kept |
| Stableswap.IndexOf | pallets/omnipool-subpools/src/lib.rs:697-700 | Stableswap's `find_asset`, reached from these lines: the index found is that of the first occurrence, and none is found exactly when the asset is absent |
| XcmRateLimiter.LocatedAmounts | pallets/xcm-rate-limiter/src/lib.rs:143-144 | there are never more located amounts than assets; their order is fixed by `LocatedAmountsSingle` and `LocatedAmountsAppend` |
| XcmRateLimiter.LocatedAmountsSound | pallets/xcm-rate-limiter/src/lib.rs:129-144 | every located amount comes from a concrete, fungible asset of the list |
| XcmRateLimiter.LocatedAmountsComplete | pallets/xcm-rate-limiter/src/lib.rs:129-144 | every concrete, fungible asset of the list contributes its location and amount |
| XcmRateLimiter.LocatedAmountsSingle | pallets/xcm-rate-limiter/src/lib.rs:129-144 | one asset contributes its location and amount exactly when it is concrete and fungible, and nothing otherwise |
| XcmRateLimiter.LocatedAmountsAppend | pallets/xcm-rate-limiter/src/lib.rs:143-144 | the located amounts of two lists joined are those of the first followed by those of the second, so the pairs keep the order and multiplicity of the assets |
| XcmRateLimiter.FirstLimited | pallets/xcm-rate-limiter/src/lib.rs:164-169 | the index found is the first location with a local asset id and a rate limit; none is found exactly when no location has both |
| XcmRateLimiter.ClampDeferral | pallets/xcm-rate-limiter/src/lib.rs:196-200 | a zero deferral answers `None`; otherwise the answer is the deferral capped at `MaxDeferDuration`, and it is positive whenever that maximum is |
| XcmRateLimiter.Processed | pallets/xcm-rate-limiter/src/lib.rs:161-169 | an empty message has nothing to limit; the pair found is limited and comes from the first instruction; when none is found no pair of that instruction is limited |
| XcmRateLimiter.DeferralOutcome | pallets/xcm-rate-limiter/src/lib.rs:153-204 | an unconvertible message is deferred by `MaxDeferDuration` and writes nothing; an empty message, or one whose first instruction has nothing limited, is not deferred and writes nothing; every answer is at most `MaxDeferDuration`, and a deferral of a readable message is positive whenever that maximum is |
| XcmRateLimiter.DeferralAt | pallets/xcm-rate-limiter/src/lib.rs:164-200 | when the `i`-th pair of the first instruction is the first limited one, its entry becomes the new accumulated amount stamped with the current block, and the answer is `calculate_deferred_duration` of it, clamped |
| XcmRateLimiter.NothingProcessed | pallets/xcm-rate-limiter/src/lib.rs:164-169 | when no pair of the first instruction has a local asset id and a rate limit, the message is limited on nothing |
| XcmRateLimiter.OnlyProcessedLocationWritten | pallets/xcm-rate-limiter/src/lib.rs:164-194 | no entry of `AccumulatedAmounts` is removed; the only entry that can change is that of the limited location the message is processed on, and it is stamped with the current block, so a location without a local asset id or a rate limit is never written |
| XcmRateLimiter.OnlyFirstInstructionCounts | pallets/xcm-rate-limiter/src/lib.rs:163 | the instructions after the first never change the outcome |
| XcmRateLimiter.OnlyDepositsDefer | pallets/xcm-rate-limiter/src/lib.rs:140-149 | a message whose first instruction is neither `ReserveAssetDeposited` nor `ReceiveTeleportedAsset` is not deferred and writes nothing |
| XcmRateLimiter.RateLimiter.DeferredBy | pallets/xcm-rate-limiter/src/lib.rs:153-204 | the answer and the new `AccumulatedAmounts` are `DeferralOutcome` of the old storage |
| HubBuyLimitCounterexample.HubBuyLimitChecksShareAmount | pallets/omnipool-subpools/src/lib.rs:1436-1443 | concrete state in which the as-written hub-asset buy with `max_limit` 10 succeeds and charges the trader 100 of the hub asset |
| HubBuyLimitCounterexample.HubBuyOverspends | pallets/omnipool-subpools/src/lib.rs:574-634 | on the same state, a `buy` of 5 of the stable asset for at most 10 hub units succeeds as written and takes 100 hub units from the trader, while the corrected `buy` fails with `LimitExceeded` |
| HubBuyLimitCounterexample.HubBuyLimitCorrected | pallets/omnipool-subpools/src/lib.rs:1436-1443 | on the same state the corrected quote fails with `LimitExceeded` |

## Left out

- The `hydra_dx_math` kernels are inputs. They are not defined in the files modelled, so no pricing formula or monotonicity of the curves is proved.
- The internals of the Omnipool and Stableswap pallets' calls are inputs because those pallets are not part of this model. These are sell, buy, add and remove liquidity, `remove_liquidity_one_asset`, `update_omnipool_state_given_*` and `update_asset_state`. The model therefore does not capture their checks, their hub-asset minting and burning, or their imbalance bookkeeping.
- Stableswap `do_create_pool`: only the duplicate-pool error is modelled. Pool validation (amplification range, asset count, duplicate assets) is not part of this model.
- The Omnipool's `remove_asset` and `set_position` are modelled as infallible storage writes.
- The Tradability bit layout (SELL=1, BUY=2, ADD_LIQUIDITY=4, REMOVE_LIQUIDITY=8) and the Stableswap default of all four flags are taken from the pallets that define them, which are not part of this model.
- Balances are unbounded naturals. `u128` overflow is not modelled, except `checked_sub`, which is modelled as an explicit `Math` error.
- The existential deposit and account reaping of `orml_tokens` are not modelled: a transfer fails only on an insufficient free balance.
- Origins (`ensure_signed`, `AuthorityOrigin`), events, weights and benchmarks are left out because they record or gate calls but do not change the state modelled.
- Every dispatchable call is modelled as all-or-nothing, as FRAME's transactional storage layer makes it.
- The `debug_assert!`s and the hooks are left out because they have no effect on the state.
- The rate limiter's `calculate_new_accumulated_amount` and `calculate_deferred_duration`, the asset-registry conversion and the rate-limit lookup are inputs, because they live in other crates.
- XCM version conversion is an input: the model takes either the message as version 3 or nothing. Every other XCM instruction is one `OtherInstruction` case.
- The relay-chain block number is a parameter of `DeferredBy`.
- The `u128` and `u32` widths and the `saturated_into` conversions of the rate limiter are not modelled; values are unbounded naturals.
- QuoteIsoInGivenStableOut, QuoteHubAssetInGivenStableOut, BuyOutcomeCorrected and BuySlippageCorrected describe the code with the hub-asset slippage check corrected. `Pallet.Buy`, `Pallet.ResolveIsoInGivenStableOut` and `Pallet.ResolveHubAssetInGivenStableOut` follow the code as written, for which no bound on the hub asset charged holds (see Findings).
- MigrateAssetMovesReserve: the asset's removal from the Omnipool's table is stated only of the table passed to `update_asset_state`. That call is an input and may rewrite the table, so the final table is not promised to lack the asset.
- CreateSubpoolMovesReserves and MigrateAssetMovesReserve: the reserve move is stated for a pool account that differs from the protocol account. The model does not assume the two accounts differ, and when they coincide a transfer to oneself changes nothing.
- BuySlippage: covers only purchases paid for with an asset other than the hub asset, because with the hub asset the code as written can charge more than `max_sell_amount`.
- The add-liquidity invariant test and the DCA, referrals and Stableswap invariant tests belong to other pallets' behaviour and are not modelled.

## Findings

| source | as written | input that shows it | evidently intended | confidence | as-written member | corrected member |
|---|---|---|---|---|---|---|
| pallets/omnipool-subpools/src/lib.rs:1436 | `resolve_mixed_trade_hub_asset_in_given_stable_out` compares `max_limit` with `delta_reserve`, the share amount burned from the subpool, but then charges the trader `delta_hub_reserve` of the hub asset (line 1443) | buy 5 of a stable asset with `max_limit` 10, where the kernel burns 1 share worth 100 of the hub asset: the limit check passes and the trader pays 100 | bound what the trader pays, `delta_hub_reserve`, by `max_limit` as every other buy path does (lines 750, 1245, 1343) | not executed | HubBuyLimitCounterexample.HubBuyOverspends | OmnipoolSubpools.BuyOutcomeCorrected |
