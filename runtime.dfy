/**
 * The state the subpools pallet works on but does not own (the ledger, the
 * Omnipool tables, the Stableswap tables), the collaborators it calls, and the
 * staged writes of one trade together with their all-or-nothing application.
 */
module Runtime {
  import opened Wrappers
  import opened Errors
  import opened Tokens
  import O = Omnipool
  import S = Stableswap
  import opened HydraMath

  datatype Chain = Chain(ledger: Ledger, omnipool: O.OmnipoolState, stableswap: S.StableswapState)

  /**
   * Pallet calls whose bodies are not part of this model, each as a transformer
   * of the tables it may change. Each answers either the new state or an error.
   */
  datatype Foreign = Foreign(
    /** Omnipool `sell(who, asset_in, asset_out, amount, min_buy_amount)` */
    omnipoolSell: (Chain, AccountId, AssetId, AssetId, nat, nat) -> Result<Chain, Error>,
    /** Omnipool `buy(who, asset_out, asset_in, amount, max_sell_amount)` */
    omnipoolBuy: (Chain, AccountId, AssetId, AssetId, nat, nat) -> Result<Chain, Error>,
    /** Stableswap `sell(who, pool_id, asset_in, asset_out, amount, min_buy_amount)` */
    stableswapSell: (Chain, AccountId, AssetId, AssetId, AssetId, nat, nat) -> Result<Chain, Error>,
    /** Stableswap `buy(who, pool_id, asset_out, asset_in, amount, max_sell_amount)` */
    stableswapBuy: (Chain, AccountId, AssetId, AssetId, AssetId, nat, nat) -> Result<Chain, Error>,
    /** Stableswap `do_add_liquidity(who, pool_id, [(asset, amount)])`, answering the shares minted */
    stableswapAddLiquidity: (Chain, AccountId, AssetId, AssetId, nat) -> Result<(Chain, nat), Error>,
    /** Omnipool `add_liquidity(who, asset, amount)` */
    omnipoolAddLiquidity: (Chain, AccountId, AssetId, nat) -> Result<Chain, Error>,
    /** Omnipool `remove_liquidity(who, position_id, amount)` */
    omnipoolRemoveLiquidity: (Chain, AccountId, O.PositionId, nat) -> Result<Chain, Error>,
    /** Stableswap `remove_liquidity_one_asset(who, pool_id, asset, shares)` */
    stableswapRemoveLiquidityOneAsset: (Chain, AccountId, AssetId, AssetId, nat) -> Result<Chain, Error>,
    /** Omnipool `update_omnipool_state_given_trade_result(asset_in, asset_out, changes)` */
    updateOmnipoolStateGivenTradeResult: (O.OmnipoolState, AssetId, AssetId, TradeStateChange) -> Result<O.OmnipoolState, Error>,
    /** Omnipool `update_omnipool_state_given_hub_asset_trade(asset, changes)` */
    updateOmnipoolStateGivenHubAssetTrade: (O.OmnipoolState, AssetId, HubTradeStateChange) -> Result<O.OmnipoolState, Error>,
    /** Omnipool `update_asset_state(asset, change)` */
    updateAssetState: (O.OmnipoolState, AssetId, AssetStateChange) -> Result<O.OmnipoolState, Error>)

  /** The runtime configuration the pallet reads, and its collaborators. */
  datatype Config = Config(
    hubAssetId: AssetId,
    /** the Omnipool's protocol account, which holds every hub-pool reserve */
    protocolAccount: AccountId,
    assetFee: nat,
    protocolFee: nat,
    /** the account Stableswap derives for a pool */
    poolAccount: (AssetId, S.Pool) -> AccountId,
    maths: Maths,
    foreign: Foreign)

  /** The hub-pool state update that closes a trade. */
  datatype HubUpdate =
    | TradeResult(assetIn: AssetId, assetOut: AssetId, changes: TradeStateChange)
    | HubAssetTrade(asset: AssetId, hubChanges: HubTradeStateChange)

  /**
   * The writes of one trade, staged before any of them runs: the ledger
   * operations in the order the pallet performs them, the closing hub-pool
   * update, and what the trader pays and receives.
   */
  datatype Plan = Plan(ops: seq<LedgerOp>, update: HubUpdate, paid: nat, received: nat)

  function ApplyUpdate(cfg: Config, o: O.OmnipoolState, u: HubUpdate): Result<O.OmnipoolState, Error>
  {
    match u
    case TradeResult(i, j, ch) => cfg.foreign.updateOmnipoolStateGivenTradeResult(o, i, j, ch)
    case HubAssetTrade(a, ch) => cfg.foreign.updateOmnipoolStateGivenHubAssetTrade(o, a, ch)
  }

  /** All of the plan's writes, or none of them. */
  function ApplyPlan(cfg: Config, c: Chain, p: Plan): (r: Result<Chain, Error>)
    ensures r.Ok? ==> r.value.stableswap == c.stableswap
    ensures r.Ok? ==> ApplyOps(c.ledger, p.ops) == Ok(r.value.ledger)
    ensures ApplyOps(c.ledger, p.ops).Err? ==> r == Err(ApplyOps(c.ledger, p.ops).error)
  {
    var l :- ApplyOps(c.ledger, p.ops);
    var o :- ApplyUpdate(cfg, c.omnipool, p.update);
    Ok(c.(ledger := l, omnipool := o))
  }

  /**
   * A call's answer `r` and final state `after` are those of `expected`
   * applied to `before`; a failed call leaves `before` as it was.
   */
  predicate Outcome(r: Result<(), Error>, before: Chain, after: Chain, expected: Result<Chain, Error>)
  {
    && (r.Ok? <==> expected.Ok?)
    && (expected.Ok? ==> after == expected.value)
    && (expected.Err? ==> r == Err(expected.error) && after == before)
  }

  /** A quoted trade carried out: the quote's error, or the plan applied. */
  function Settle(cfg: Config, c: Chain, q: Result<Plan, Error>): (r: Result<Chain, Error>)
    ensures q.Err? ==> r == Err(q.error)
  {
    var p :- q;
    ApplyPlan(cfg, c, p)
  }

  /** An account that is neither the hub pool's protocol account nor any pool's account. */
  ghost predicate IsTrader(cfg: Config, who: AccountId)
  {
    who != cfg.protocolAccount && forall id: AssetId, p: S.Pool :: cfg.poolAccount(id, p) != who
  }

  /**
   * The trader's side of a plan: it first moves `paid` of `assetIn` from
   * `who` to another account, then moves `received` of `assetOut` from
   * another account to `who`, and no later write touches `who`'s balance of
   * either asset.
   */
  predicate TradeShaped(p: Plan, who: AccountId, assetIn: AssetId, assetOut: AssetId)
  {
    && |p.ops| >= 2
    && p.ops[0].TransferOp? && p.ops[0].asset == assetIn && p.ops[0].from == who && p.ops[0].to != who
    && p.ops[0].amount == p.paid
    && p.ops[1].TransferOp? && p.ops[1].asset == assetOut && p.ops[1].to == who && p.ops[1].from != who
    && p.ops[1].amount == p.received
    && forall k :: 2 <= k < |p.ops| ==> !Touches(p.ops[k], assetIn, who) && !Touches(p.ops[k], assetOut, who)
  }

  /** A trade-shaped plan that goes through debits exactly `paid` and credits exactly `received`. */
  lemma {:induction false} Settlement(l: Ledger, p: Plan, who: AccountId, assetIn: AssetId, assetOut: AssetId)
    requires TradeShaped(p, who, assetIn, assetOut)
    requires assetIn != assetOut
    requires ApplyOps(l, p.ops).Ok?
    ensures p.paid <= FreeBalance(l, assetIn, who)
    ensures FreeBalance(ApplyOps(l, p.ops).value, assetIn, who) == FreeBalance(l, assetIn, who) - p.paid
    ensures FreeBalance(ApplyOps(l, p.ops).value, assetOut, who) == FreeBalance(l, assetOut, who) + p.received
  {
    var ops := p.ops;
    assert ops == [ops[0]] + ([ops[1]] + ops[2..]);
    ApplyOpsAppend(l, [ops[0]], [ops[1]] + ops[2..]);
    assert ApplyOps(l, [ops[0]]) == ApplyOp(l, ops[0]);
    var l1 := ApplyOp(l, ops[0]).value;
    ApplyOpsAppend(l1, [ops[1]], ops[2..]);
    assert ApplyOps(l1, [ops[1]]) == ApplyOp(l1, ops[1]);
    var l2 := ApplyOp(l1, ops[1]).value;
    assert forall k :: 0 <= k < |ops[2..]| ==> ops[2..][k] == ops[k + 2];
    ApplyOpsFrame(l2, ops[2..], assetIn, who);
    ApplyOpsFrame(l2, ops[2..], assetOut, who);
  }
}
