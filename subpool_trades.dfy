/**
 * The read phase of the subpools pallet's cross-pool trades. Each quote
 * performs, in the pallet's own order, the tradability gate, the loads, the
 * numeric kernels (an unanswered kernel is the pallet's `Math` error) and the
 * slippage check, and answers the staged writes of the trade. Nothing is
 * written here: `OmnipoolSubpools.Pallet` applies a quote's plan.
 */
module SubpoolTrades {
  import opened Wrappers
  import opened Errors
  import opened Tokens
  import O = Omnipool
  import S = Stableswap
  import opened HydraMath
  import opened Runtime

  /** The `MigratedAssets` registry: migrated asset |-> (pool id, migration details). */
  type MigratedAssets = map<AssetId, (AssetId, MigrationDetails)>

  /** The pool an asset migrated to, if any. */
  function PoolOf(migrated: MigratedAssets, asset: AssetId): (r: Option<AssetId>)
    ensures r.Some? <==> asset in migrated
    ensures r.Some? ==> r.value == migrated[asset].0
  {
    if asset in migrated then Some(migrated[asset].0) else None
  }

  /** The five paths a `sell` or `buy` can take. */
  datatype Route =
    | HubPoolTrade
    | SameSubpool(pool: AssetId)
    | BetweenSubpools(poolIn: AssetId, poolOut: AssetId)
    | StableToHubPool(poolIn: AssetId)
    | HubPoolToStable(poolOut: AssetId)

  /** The dispatch on the registry lookups of the sold and the bought asset. */
  function Classify(poolOfIn: Option<AssetId>, poolOfOut: Option<AssetId>): (r: Route)
    ensures r.HubPoolTrade? <==> poolOfIn.None? && poolOfOut.None?
    ensures r.SameSubpool? <==> poolOfIn.Some? && poolOfOut.Some? && poolOfIn.value == poolOfOut.value
    ensures r.BetweenSubpools? <==> poolOfIn.Some? && poolOfOut.Some? && poolOfIn.value != poolOfOut.value
    ensures r.StableToHubPool? <==> poolOfIn.Some? && poolOfOut.None?
    ensures r.HubPoolToStable? <==> poolOfIn.None? && poolOfOut.Some?
    ensures r.SameSubpool? ==> r.pool == poolOfIn.value
    ensures r.BetweenSubpools? ==> r.poolIn == poolOfIn.value && r.poolOut == poolOfOut.value
    ensures r.StableToHubPool? ==> r.poolIn == poolOfIn.value
    ensures r.HubPoolToStable? ==> r.poolOut == poolOfOut.value
  {
    match (poolOfIn, poolOfOut)
    case (None, None) => HubPoolTrade
    case (Some(pin), Some(pout)) => if pin == pout then SameSubpool(pin) else BetweenSubpools(pin, pout)
    case (Some(pin), None) => StableToHubPool(pin)
    case (None, Some(pout)) => HubPoolToStable(pout)
  }

  //
  // What a quote reads
  //

  /** Everything a trade between two subpools reads before its kernels run. */
  datatype BetweenCtx = BetweenCtx(
    subpoolIn: S.Pool, subpoolOut: S.Pool,
    accountIn: AccountId, accountOut: AccountId,
    idxIn: nat, idxOut: nat,
    shareStateIn: O.AssetReserveState, shareStateOut: O.AssetReserveState,
    shareIssuanceIn: nat, shareIssuanceOut: nat,
    balancesIn: seq<nat>, balancesOut: seq<nat>,
    imbalance: nat)

  /** What a trade between a subpool and a hub-pool asset reads. */
  datatype MixedCtx = MixedCtx(
    assetState: O.AssetReserveState, shareState: O.AssetReserveState,
    subpool: S.Pool, account: AccountId, idx: nat,
    shareIssuance: nat, balances: seq<nat>, imbalance: nat)

  /** What a trade from the hub asset into a subpool reads. */
  datatype HubCtx = HubCtx(
    shareState: O.AssetReserveState,
    subpool: S.Pool, account: AccountId, idx: nat,
    shareIssuance: nat, balances: seq<nat>, imbalance: nat, hubLiquidity: nat)

  /** `ctx` holds the live values of pool `poolId`, stable asset `stable` and the share asset. */
  predicate SubpoolRead(cfg: Config, c: Chain, poolId: AssetId, stable: AssetId,
                        subpool: S.Pool, account: AccountId, idx: nat, shareState: O.AssetReserveState,
                        issuance: nat, balances: seq<nat>)
  {
    && poolId in c.stableswap.pools && subpool == c.stableswap.pools[poolId]
    && S.FindAsset(subpool, stable) == Some(idx)
    && account == cfg.poolAccount(poolId, subpool)
    && balances == S.Balances(c.ledger, subpool, account)
    && O.LoadAssetState(c.omnipool, c.ledger, cfg.protocolAccount, poolId) == Ok(shareState)
    && issuance == TotalIssuance(c.ledger, poolId)
  }

  predicate BetweenAllowed(s: S.StableswapState, assetIn: AssetId, assetOut: AssetId, poolIn: AssetId, poolOut: AssetId)
  {
    S.IsAssetAllowed(s, poolIn, assetIn, S.SELL) && S.IsAssetAllowed(s, poolOut, assetOut, S.BUY)
  }

  /** The gate and the loads of a trade between two subpools. */
  function LoadBetween(cfg: Config, c: Chain, assetIn: AssetId, assetOut: AssetId, poolIn: AssetId, poolOut: AssetId)
    : (r: Result<BetweenCtx, Error>)
    ensures !BetweenAllowed(c.stableswap, assetIn, assetOut, poolIn, poolOut) ==> r == Err(Subpools(SubpoolsError.NotAllowed))
    ensures r.Ok? ==> BetweenAllowed(c.stableswap, assetIn, assetOut, poolIn, poolOut)
    ensures r.Ok? ==>
      && SubpoolRead(cfg, c, poolIn, assetIn, r.value.subpoolIn, r.value.accountIn, r.value.idxIn, r.value.shareStateIn,
                     r.value.shareIssuanceIn, r.value.balancesIn)
      && SubpoolRead(cfg, c, poolOut, assetOut, r.value.subpoolOut, r.value.accountOut, r.value.idxOut, r.value.shareStateOut,
                     r.value.shareIssuanceOut, r.value.balancesOut)
      && r.value.imbalance == c.omnipool.imbalance.value
  {
    if !BetweenAllowed(c.stableswap, assetIn, assetOut, poolIn, poolOut) then Err(Subpools(SubpoolsError.NotAllowed))
    else
      var subpoolIn :- S.GetPool(c.stableswap, poolIn);
      var subpoolOut :- S.GetPool(c.stableswap, poolOut);
      var idxIn :- OkOr(S.FindAsset(subpoolIn, assetIn), Stableswap(AssetNotInPool));
      var idxOut :- OkOr(S.FindAsset(subpoolOut, assetOut), Stableswap(AssetNotInPool));
      var shareStateIn :- O.LoadAssetState(c.omnipool, c.ledger, cfg.protocolAccount, poolIn);
      var shareStateOut :- O.LoadAssetState(c.omnipool, c.ledger, cfg.protocolAccount, poolOut);
      var accountIn := cfg.poolAccount(poolIn, subpoolIn);
      var accountOut := cfg.poolAccount(poolOut, subpoolOut);
      Ok(BetweenCtx(subpoolIn, subpoolOut, accountIn, accountOut, idxIn, idxOut, shareStateIn, shareStateOut,
                    TotalIssuance(c.ledger, poolIn), TotalIssuance(c.ledger, poolOut),
                    S.Balances(c.ledger, subpoolIn, accountIn), S.Balances(c.ledger, subpoolOut, accountOut),
                    c.omnipool.imbalance.value))
  }

  /**
   * The hub-asset check, the gate and the loads of a trade that sells stable
   * asset `assetIn` of pool `poolIn` for hub-pool asset `assetOut`.
   */
  function LoadStableIn(cfg: Config, c: Chain, assetIn: AssetId, assetOut: AssetId, poolIn: AssetId): (r: Result<MixedCtx, Error>)
    ensures assetOut == cfg.hubAssetId ==> r == Err(Omnipool(OmnipoolError.NotAllowed))
    ensures assetOut != cfg.hubAssetId && assetOut in c.omnipool.assets && poolIn in c.omnipool.assets
            && !(S.IsAssetAllowed(c.stableswap, poolIn, assetIn, S.SELL) && O.Contains(c.omnipool.assets[assetOut].tradable, O.BUY))
            ==> r == Err(Subpools(SubpoolsError.NotAllowed))
    ensures r.Ok? ==>
      && assetOut != cfg.hubAssetId
      && S.IsAssetAllowed(c.stableswap, poolIn, assetIn, S.SELL)
      && O.LoadAssetState(c.omnipool, c.ledger, cfg.protocolAccount, assetOut) == Ok(r.value.assetState)
      && O.Contains(r.value.assetState.tradable, O.BUY)
      && SubpoolRead(cfg, c, poolIn, assetIn, r.value.subpool, r.value.account, r.value.idx, r.value.shareState,
                     r.value.shareIssuance, r.value.balances)
      && r.value.imbalance == c.omnipool.imbalance.value
  {
    if assetOut == cfg.hubAssetId then Err(Omnipool(OmnipoolError.NotAllowed))
    else
      var assetState :- O.LoadAssetState(c.omnipool, c.ledger, cfg.protocolAccount, assetOut);
      var shareState :- O.LoadAssetState(c.omnipool, c.ledger, cfg.protocolAccount, poolIn);
      if !(S.IsAssetAllowed(c.stableswap, poolIn, assetIn, S.SELL) && O.Contains(assetState.tradable, O.BUY)) then
        Err(Subpools(SubpoolsError.NotAllowed))
      else
        var subpool :- S.GetPool(c.stableswap, poolIn);
        var idx :- OkOr(S.FindAsset(subpool, assetIn), Stableswap(AssetNotInPool));
        var account := cfg.poolAccount(poolIn, subpool);
        Ok(MixedCtx(assetState, shareState, subpool, account, idx, TotalIssuance(c.ledger, poolIn),
                    S.Balances(c.ledger, subpool, account), c.omnipool.imbalance.value))
  }

  /**
   * The gate and the loads of a trade that sells hub-pool asset `assetIn`
   * (not the hub asset) for stable asset `assetOut` of pool `poolOut`.
   */
  function LoadStableOut(cfg: Config, c: Chain, assetIn: AssetId, assetOut: AssetId, poolOut: AssetId): (r: Result<MixedCtx, Error>)
    ensures assetIn in c.omnipool.assets && poolOut in c.omnipool.assets
            && !(S.IsAssetAllowed(c.stableswap, poolOut, assetOut, S.BUY) && O.Contains(c.omnipool.assets[assetIn].tradable, O.SELL))
            ==> r == Err(Subpools(SubpoolsError.NotAllowed))
    ensures r.Ok? ==>
      && S.IsAssetAllowed(c.stableswap, poolOut, assetOut, S.BUY)
      && O.LoadAssetState(c.omnipool, c.ledger, cfg.protocolAccount, assetIn) == Ok(r.value.assetState)
      && O.Contains(r.value.assetState.tradable, O.SELL)
      && SubpoolRead(cfg, c, poolOut, assetOut, r.value.subpool, r.value.account, r.value.idx, r.value.shareState,
                     r.value.shareIssuance, r.value.balances)
      && r.value.imbalance == c.omnipool.imbalance.value
  {
    var assetState :- O.LoadAssetState(c.omnipool, c.ledger, cfg.protocolAccount, assetIn);
    var shareState :- O.LoadAssetState(c.omnipool, c.ledger, cfg.protocolAccount, poolOut);
    if !(S.IsAssetAllowed(c.stableswap, poolOut, assetOut, S.BUY) && O.Contains(assetState.tradable, O.SELL)) then
      Err(Subpools(SubpoolsError.NotAllowed))
    else
      var subpool :- S.GetPool(c.stableswap, poolOut);
      var idx :- OkOr(S.FindAsset(subpool, assetOut), Stableswap(AssetNotInPool));
      var account := cfg.poolAccount(poolOut, subpool);
      Ok(MixedCtx(assetState, shareState, subpool, account, idx, TotalIssuance(c.ledger, poolOut),
                  S.Balances(c.ledger, subpool, account), c.omnipool.imbalance.value))
  }

  /** The hub-asset check, the loads and the gate of a trade from the hub asset into pool `poolOut`. */
  function LoadHubIn(cfg: Config, c: Chain, assetIn: AssetId, assetOut: AssetId, poolOut: AssetId): (r: Result<HubCtx, Error>)
    ensures assetIn != cfg.hubAssetId ==> r == Err(Omnipool(OmnipoolError.NotAllowed))
    ensures assetIn == cfg.hubAssetId && poolOut in c.omnipool.assets && poolOut in c.stableswap.pools
            && !(S.IsAssetAllowed(c.stableswap, poolOut, assetOut, S.BUY) && O.IsHubAssetAllowed(c.omnipool, O.SELL))
            ==> r == Err(Subpools(SubpoolsError.NotAllowed))
    ensures r.Ok? ==>
      && assetIn == cfg.hubAssetId
      && S.IsAssetAllowed(c.stableswap, poolOut, assetOut, S.BUY) && O.IsHubAssetAllowed(c.omnipool, O.SELL)
      && SubpoolRead(cfg, c, poolOut, assetOut, r.value.subpool, r.value.account, r.value.idx, r.value.shareState,
                     r.value.shareIssuance, r.value.balances)
      && r.value.imbalance == c.omnipool.imbalance.value
      && r.value.hubLiquidity == FreeBalance(c.ledger, cfg.hubAssetId, cfg.protocolAccount)
  {
    if assetIn != cfg.hubAssetId then Err(Omnipool(OmnipoolError.NotAllowed))
    else
      var shareState :- O.LoadAssetState(c.omnipool, c.ledger, cfg.protocolAccount, poolOut);
      var subpool :- S.GetPool(c.stableswap, poolOut);
      if !(S.IsAssetAllowed(c.stableswap, poolOut, assetOut, S.BUY) && O.IsHubAssetAllowed(c.omnipool, O.SELL)) then
        Err(Subpools(SubpoolsError.NotAllowed))
      else
        var idx :- OkOr(S.FindAsset(subpool, assetOut), Stableswap(AssetNotInPool));
        var account := cfg.poolAccount(poolOut, subpool);
        Ok(HubCtx(shareState, subpool, account, idx, TotalIssuance(c.ledger, poolOut),
                  S.Balances(c.ledger, subpool, account), c.omnipool.imbalance.value,
                  FreeBalance(c.ledger, cfg.hubAssetId, cfg.protocolAccount)))
  }

  //
  // How each quote prices its trade
  //

  /**
   * Sell between subpools: the sold amount mints `u` shares of the first pool,
   * the hub pool trades them for shares of the second pool, and the trader
   * receives what withdrawing those shares yields, net of the withdrawal fee.
   */
  predicate SellBetweenPriced(cfg: Config, ctx: BetweenCtx, poolIn: AssetId, poolOut: AssetId, amountIn: nat, p: Plan)
  {
    && p.update.TradeResult? && p.update.assetIn == poolIn && p.update.assetOut == poolOut
    && var ch := p.update.changes;
    && var u := cfg.maths.calculateSharesForAmount(ctx.balancesIn, ctx.idxIn, amountIn, ctx.subpoolIn.amplification, ctx.shareIssuanceIn);
    && u.Some?
    && cfg.maths.calculateSellStateChanges(ctx.shareStateIn.ToMath(), ctx.shareStateOut.ToMath(), u.value,
                                          cfg.assetFee, cfg.protocolFee, ctx.imbalance) == Some(ch)
    && var w := cfg.maths.calculateWithdrawOneAsset(ctx.balancesOut, ch.assetOut.deltaReserve.amount, ctx.idxOut,
                                                    ctx.shareIssuanceOut, ctx.subpoolOut.amplification, ctx.subpoolOut.withdrawFee);
    && w.Some? && p.received + w.value.1 == w.value.0
    && p.paid == amountIn
  }

  /**
   * Buy between subpools: `u` shares of the second pool cover the amount
   * bought, the hub pool prices them in shares of the first pool, and the
   * trader pays what adding that many shares to the first pool takes.
   */
  predicate BuyBetweenPriced(cfg: Config, ctx: BetweenCtx, poolIn: AssetId, poolOut: AssetId, amountOut: nat, p: Plan)
  {
    && p.update.TradeResult? && p.update.assetIn == poolIn && p.update.assetOut == poolOut
    && var ch := p.update.changes;
    && var u := cfg.maths.calculateSharesRemoved(ctx.balancesOut, ctx.idxOut, amountOut, ctx.subpoolOut.amplification,
                                                 ctx.shareIssuanceOut, ctx.subpoolOut.withdrawFee);
    && u.Some?
    && cfg.maths.calculateBuyStateChanges(ctx.shareStateIn.ToMath(), ctx.shareStateOut.ToMath(), u.value,
                                         cfg.assetFee, cfg.protocolFee, ctx.imbalance) == Some(ch)
    && cfg.maths.calculateAmountToAddForShares(ctx.balancesIn, ctx.idxIn, ch.assetIn.deltaReserve.amount,
                                               ctx.subpoolIn.amplification, ctx.shareIssuanceIn) == Some(p.paid)
    && p.received == amountOut
  }

  /** Stable asset sold for a hub-pool asset: the minted shares are sold in the hub pool. */
  predicate IsoOutGivenStableInPriced(cfg: Config, ctx: MixedCtx, poolIn: AssetId, assetOut: AssetId, amountIn: nat, p: Plan)
  {
    && p.update.TradeResult? && p.update.assetIn == poolIn && p.update.assetOut == assetOut
    && var u := cfg.maths.calculateSharesForAmount(ctx.balances, ctx.idx, amountIn, ctx.subpool.amplification, ctx.shareIssuance);
    && u.Some?
    && cfg.maths.calculateSellStateChanges(ctx.shareState.ToMath(), ctx.assetState.ToMath(), u.value,
                                          cfg.assetFee, cfg.protocolFee, ctx.imbalance) == Some(p.update.changes)
    && p.received == p.update.changes.assetOut.deltaReserve.amount
    && p.paid == amountIn
  }

  /** Hub-pool asset sold for a stable asset: the bought shares are withdrawn as the stable asset. */
  predicate StableOutGivenAssetInPriced(cfg: Config, ctx: MixedCtx, assetIn: AssetId, poolOut: AssetId, amountIn: nat, p: Plan)
  {
    && p.update.TradeResult? && p.update.assetIn == assetIn && p.update.assetOut == poolOut
    && var ch := p.update.changes;
    && cfg.maths.calculateSellStateChanges(ctx.assetState.ToMath(), ctx.shareState.ToMath(), amountIn,
                                          cfg.assetFee, cfg.protocolFee, ctx.imbalance) == Some(ch)
    && var w := cfg.maths.calculateWithdrawOneAsset(ctx.balances, ch.assetOut.deltaReserve.amount, ctx.idx,
                                                    ctx.shareIssuance, ctx.subpool.amplification, ctx.subpool.withdrawFee);
    && w.Some? && p.received + w.value.1 == w.value.0
    && p.paid == ch.assetIn.deltaReserve.amount
  }

  /** Hub asset sold for a stable asset: the bought shares are withdrawn as the stable asset. */
  predicate StableOutGivenHubAssetInPriced(cfg: Config, ctx: HubCtx, poolOut: AssetId, amountIn: nat, p: Plan)
  {
    && p.update.HubAssetTrade? && p.update.asset == poolOut
    && var ch := p.update.hubChanges;
    && cfg.maths.calculateSellHubStateChanges(ctx.shareState.ToMath(), amountIn, cfg.assetFee,
                                             I129(ctx.imbalance, true), ctx.hubLiquidity) == Some(ch)
    && var w := cfg.maths.calculateWithdrawOneAsset(ctx.balances, ch.asset.deltaReserve.amount, ctx.idx,
                                                    ctx.shareIssuance, ctx.subpool.amplification, ctx.subpool.withdrawFee);
    && w.Some? && p.received + w.value.1 == w.value.0
    && p.paid == ch.asset.deltaHubReserve.amount
  }

  /** Hub-pool asset bought with a stable asset: the trader pays what minting the shares sold takes. */
  predicate StableInGivenAssetOutPriced(cfg: Config, ctx: MixedCtx, poolIn: AssetId, assetOut: AssetId, amountOut: nat, p: Plan)
  {
    && p.update.TradeResult? && p.update.assetIn == poolIn && p.update.assetOut == assetOut
    && var ch := p.update.changes;
    && cfg.maths.calculateBuyStateChanges(ctx.shareState.ToMath(), ctx.assetState.ToMath(), amountOut,
                                         cfg.assetFee, cfg.protocolFee, ctx.imbalance) == Some(ch)
    && cfg.maths.calculateAmountToAddForShares(ctx.balances, ctx.idx, ch.assetIn.deltaReserve.amount,
                                               ctx.subpool.amplification, ctx.shareIssuance) == Some(p.paid)
    && p.received == ch.assetOut.deltaReserve.amount
  }

  /** Stable asset bought with a hub-pool asset: the trader pays the hub pool's price of the shares burned. */
  predicate IsoInGivenStableOutPriced(cfg: Config, ctx: MixedCtx, assetIn: AssetId, poolOut: AssetId, amountOut: nat, p: Plan)
  {
    && p.update.TradeResult? && p.update.assetIn == assetIn && p.update.assetOut == poolOut
    && var u := cfg.maths.calculateSharesRemoved(ctx.balances, ctx.idx, amountOut, ctx.subpool.amplification,
                                                 ctx.shareIssuance, ctx.subpool.withdrawFee);
    && u.Some?
    && cfg.maths.calculateBuyStateChanges(ctx.assetState.ToMath(), ctx.shareState.ToMath(), u.value,
                                         cfg.assetFee, cfg.protocolFee, ctx.imbalance) == Some(p.update.changes)
    && p.paid == p.update.changes.assetIn.deltaReserve.amount
    && p.received == amountOut
  }

  /** Stable asset bought with the hub asset: the trader pays the hub reserve the burned shares are worth. */
  predicate HubAssetInGivenStableOutPriced(cfg: Config, ctx: HubCtx, poolOut: AssetId, amountOut: nat, p: Plan)
  {
    && p.update.HubAssetTrade? && p.update.asset == poolOut
    && var u := cfg.maths.calculateSharesRemoved(ctx.balances, ctx.idx, amountOut, ctx.subpool.amplification,
                                                 ctx.shareIssuance, ctx.subpool.withdrawFee);
    && u.Some?
    && cfg.maths.calculateBuyForHubAssetStateChanges(ctx.shareState.ToMath(), u.value, cfg.assetFee,
                                                    I129(ctx.imbalance, true), ctx.hubLiquidity) == Some(p.update.hubChanges)
    && p.paid == p.update.hubChanges.asset.deltaHubReserve.amount
    && p.received == amountOut
  }

  //
  // The kernels of each quote, in the order the resolver calls them; `None`
  // when any of them fails, which the resolver reports as `Math`
  //

  /** Sell between subpools: the payout net of the withdrawal fee (the amount checked against `min_limit`) and the hub trade. */
  function SellBetweenPrice(cfg: Config, ctx: BetweenCtx, amountIn: nat): Option<(nat, TradeStateChange)>
  {
    var m := cfg.maths;
    var u :- m.calculateSharesForAmount(ctx.balancesIn, ctx.idxIn, amountIn, ctx.subpoolIn.amplification, ctx.shareIssuanceIn);
    var ch :- m.calculateSellStateChanges(ctx.shareStateIn.ToMath(), ctx.shareStateOut.ToMath(), u,
                                          cfg.assetFee, cfg.protocolFee, ctx.imbalance);
    var withdrawn :- m.calculateWithdrawOneAsset(ctx.balancesOut, ch.assetOut.deltaReserve.amount, ctx.idxOut,
                                                 ctx.shareIssuanceOut, ctx.subpoolOut.amplification, ctx.subpoolOut.withdrawFee);
    var payout :- CheckedSub(withdrawn.0, withdrawn.1);
    Some((payout, ch))
  }

  /** Buy between subpools: the amount of `asset_in` required (checked against `max_limit`) and the hub trade. */
  function BuyBetweenPrice(cfg: Config, ctx: BetweenCtx, amountOut: nat): Option<(nat, TradeStateChange)>
  {
    var m := cfg.maths;
    var u :- m.calculateSharesRemoved(ctx.balancesOut, ctx.idxOut, amountOut, ctx.subpoolOut.amplification,
                                      ctx.shareIssuanceOut, ctx.subpoolOut.withdrawFee);
    var ch :- m.calculateBuyStateChanges(ctx.shareStateIn.ToMath(), ctx.shareStateOut.ToMath(), u,
                                         cfg.assetFee, cfg.protocolFee, ctx.imbalance);
    var required :- m.calculateAmountToAddForShares(ctx.balancesIn, ctx.idxIn, ch.assetIn.deltaReserve.amount,
                                                    ctx.subpoolIn.amplification, ctx.shareIssuanceIn);
    Some((required, ch))
  }

  /** Stable asset sold for a hub-pool asset: the hub-pool asset paid out and the hub trade. */
  function IsoOutGivenStableInPrice(cfg: Config, ctx: MixedCtx, amountIn: nat): Option<(nat, TradeStateChange)>
  {
    var m := cfg.maths;
    var u :- m.calculateSharesForAmount(ctx.balances, ctx.idx, amountIn, ctx.subpool.amplification, ctx.shareIssuance);
    var ch :- m.calculateSellStateChanges(ctx.shareState.ToMath(), ctx.assetState.ToMath(), u,
                                          cfg.assetFee, cfg.protocolFee, ctx.imbalance);
    Some((ch.assetOut.deltaReserve.amount, ch))
  }

  /** Hub-pool asset sold for a stable asset: the payout net of the withdrawal fee and the hub trade. */
  function StableOutGivenAssetInPrice(cfg: Config, ctx: MixedCtx, amountIn: nat): Option<(nat, TradeStateChange)>
  {
    var m := cfg.maths;
    var ch :- m.calculateSellStateChanges(ctx.assetState.ToMath(), ctx.shareState.ToMath(), amountIn,
                                          cfg.assetFee, cfg.protocolFee, ctx.imbalance);
    var withdrawn :- m.calculateWithdrawOneAsset(ctx.balances, ch.assetOut.deltaReserve.amount, ctx.idx,
                                                 ctx.shareIssuance, ctx.subpool.amplification, ctx.subpool.withdrawFee);
    var payout :- CheckedSub(withdrawn.0, withdrawn.1);
    Some((payout, ch))
  }

  /** Hub asset sold for a stable asset: the payout net of the withdrawal fee and the hub-asset trade. */
  function StableOutGivenHubAssetInPrice(cfg: Config, ctx: HubCtx, amountIn: nat): Option<(nat, HubTradeStateChange)>
  {
    var m := cfg.maths;
    var ch :- m.calculateSellHubStateChanges(ctx.shareState.ToMath(), amountIn, cfg.assetFee,
                                             I129(ctx.imbalance, true), ctx.hubLiquidity);
    var withdrawn :- m.calculateWithdrawOneAsset(ctx.balances, ch.asset.deltaReserve.amount, ctx.idx,
                                                 ctx.shareIssuance, ctx.subpool.amplification, ctx.subpool.withdrawFee);
    var payout :- CheckedSub(withdrawn.0, withdrawn.1);
    Some((payout, ch))
  }

  /** Hub-pool asset bought with a stable asset: the stable amount required and the hub trade. */
  function StableInGivenAssetOutPrice(cfg: Config, ctx: MixedCtx, amountOut: nat): Option<(nat, TradeStateChange)>
  {
    var m := cfg.maths;
    var ch :- m.calculateBuyStateChanges(ctx.shareState.ToMath(), ctx.assetState.ToMath(), amountOut,
                                         cfg.assetFee, cfg.protocolFee, ctx.imbalance);
    var required :- m.calculateAmountToAddForShares(ctx.balances, ctx.idx, ch.assetIn.deltaReserve.amount,
                                                    ctx.subpool.amplification, ctx.shareIssuance);
    Some((required, ch))
  }

  /** Stable asset bought with a hub-pool asset: the hub-pool asset required and the hub trade. */
  function IsoInGivenStableOutPrice(cfg: Config, ctx: MixedCtx, amountOut: nat): Option<(nat, TradeStateChange)>
  {
    var m := cfg.maths;
    var u :- m.calculateSharesRemoved(ctx.balances, ctx.idx, amountOut, ctx.subpool.amplification,
                                      ctx.shareIssuance, ctx.subpool.withdrawFee);
    var ch :- m.calculateBuyStateChanges(ctx.assetState.ToMath(), ctx.shareState.ToMath(), u,
                                         cfg.assetFee, cfg.protocolFee, ctx.imbalance);
    Some((ch.assetIn.deltaReserve.amount, ch))
  }

  /** Stable asset bought with the hub asset: the hub-asset trade, whose `delta_hub_reserve` the trader pays. */
  function HubAssetInGivenStableOutPrice(cfg: Config, ctx: HubCtx, amountOut: nat): Option<HubTradeStateChange>
  {
    var m := cfg.maths;
    var u :- m.calculateSharesRemoved(ctx.balances, ctx.idx, amountOut, ctx.subpool.amplification,
                                      ctx.shareIssuance, ctx.subpool.withdrawFee);
    m.calculateBuyForHubAssetStateChanges(ctx.shareState.ToMath(), u, cfg.assetFee, I129(ctx.imbalance, true), ctx.hubLiquidity)
  }

  //
  // The quotes, one per `resolve_*`; the writing half is the matching `Pallet.Resolve*`
  //

  /** `resolve_sell_between_subpools` up to its first write. */
  function QuoteSellBetweenSubpools(cfg: Config, c: Chain, who: AccountId, assetIn: AssetId, assetOut: AssetId,
                                    poolIn: AssetId, poolOut: AssetId, amountIn: nat, minLimit: nat): (r: Result<Plan, Error>)
    ensures LoadBetween(cfg, c, assetIn, assetOut, poolIn, poolOut).Err? ==>
              r == Err(LoadBetween(cfg, c, assetIn, assetOut, poolIn, poolOut).error)
    ensures LoadBetween(cfg, c, assetIn, assetOut, poolIn, poolOut).Ok? ==>
              var price := SellBetweenPrice(cfg, LoadBetween(cfg, c, assetIn, assetOut, poolIn, poolOut).value, amountIn);
              && (price.None? ==> r == Err(Subpools(Math)))
              && (price.Some? && price.value.0 < minLimit ==> r == Err(Subpools(LimitNotReached)))
              && (price.Some? && minLimit <= price.value.0 ==> r.Ok? && r.value.received == price.value.0)
    ensures r.Ok? ==> BetweenAllowed(c.stableswap, assetIn, assetOut, poolIn, poolOut)
    ensures r.Ok? ==> r.value.received >= minLimit
    ensures r.Ok? ==> SellBetweenPriced(cfg, LoadBetween(cfg, c, assetIn, assetOut, poolIn, poolOut).value, poolIn, poolOut, amountIn, r.value)
    ensures r.Ok? && IsTrader(cfg, who) ==> TradeShaped(r.value, who, assetIn, assetOut)
  {
    var ctx :- LoadBetween(cfg, c, assetIn, assetOut, poolIn, poolOut);
    var price :- OkOr(SellBetweenPrice(cfg, ctx, amountIn), Subpools(Math));
    var (payout, ch) := price;
    if payout < minLimit then Err(Subpools(LimitNotReached))
    else
      Ok(Plan([TransferOp(assetIn, who, ctx.accountIn, amountIn),
               TransferOp(assetOut, ctx.accountOut, who, payout),
               WithdrawOp(poolOut, cfg.protocolAccount, ch.assetOut.deltaReserve.amount),
               DepositOp(poolIn, cfg.protocolAccount, ch.assetIn.deltaReserve.amount)],
              TradeResult(poolIn, poolOut, ch), amountIn, payout))
  }

  /** `resolve_buy_between_subpools` up to its first write. */
  function QuoteBuyBetweenSubpools(cfg: Config, c: Chain, who: AccountId, assetIn: AssetId, assetOut: AssetId,
                                   poolIn: AssetId, poolOut: AssetId, amountOut: nat, maxLimit: nat): (r: Result<Plan, Error>)
    ensures LoadBetween(cfg, c, assetIn, assetOut, poolIn, poolOut).Err? ==>
              r == Err(LoadBetween(cfg, c, assetIn, assetOut, poolIn, poolOut).error)
    ensures LoadBetween(cfg, c, assetIn, assetOut, poolIn, poolOut).Ok? ==>
              var price := BuyBetweenPrice(cfg, LoadBetween(cfg, c, assetIn, assetOut, poolIn, poolOut).value, amountOut);
              && (price.None? ==> r == Err(Subpools(Math)))
              && (price.Some? && price.value.0 > maxLimit ==> r == Err(Subpools(LimitExceeded)))
              && (price.Some? && price.value.0 <= maxLimit ==> r.Ok? && r.value.paid == price.value.0)
    ensures r.Ok? ==> BetweenAllowed(c.stableswap, assetIn, assetOut, poolIn, poolOut)
    ensures r.Ok? ==> r.value.paid <= maxLimit
    ensures r.Ok? ==> BuyBetweenPriced(cfg, LoadBetween(cfg, c, assetIn, assetOut, poolIn, poolOut).value, poolIn, poolOut, amountOut, r.value)
    ensures r.Ok? && IsTrader(cfg, who) ==> TradeShaped(r.value, who, assetIn, assetOut)
  {
    var ctx :- LoadBetween(cfg, c, assetIn, assetOut, poolIn, poolOut);
    var price :- OkOr(BuyBetweenPrice(cfg, ctx, amountOut), Subpools(Math));
    var (required, ch) := price;
    if required > maxLimit then Err(Subpools(LimitExceeded))
    else
      Ok(Plan([TransferOp(assetIn, who, ctx.accountIn, required),
               TransferOp(assetOut, ctx.accountOut, who, amountOut),
               WithdrawOp(poolOut, cfg.protocolAccount, ch.assetOut.deltaReserve.amount),
               DepositOp(poolIn, cfg.protocolAccount, ch.assetIn.deltaReserve.amount)],
              TradeResult(poolIn, poolOut, ch), required, amountOut))
  }

  /** `resolve_mixed_trade_iso_out_given_stable_in` up to its first write. */
  function QuoteIsoOutGivenStableIn(cfg: Config, c: Chain, who: AccountId, assetIn: AssetId, assetOut: AssetId,
                                    poolIn: AssetId, amountIn: nat, minLimit: nat): (r: Result<Plan, Error>)
    ensures assetOut == cfg.hubAssetId ==> r == Err(Omnipool(OmnipoolError.NotAllowed))
    ensures LoadStableIn(cfg, c, assetIn, assetOut, poolIn).Err? ==> r == Err(LoadStableIn(cfg, c, assetIn, assetOut, poolIn).error)
    ensures LoadStableIn(cfg, c, assetIn, assetOut, poolIn).Ok? ==>
              var price := IsoOutGivenStableInPrice(cfg, LoadStableIn(cfg, c, assetIn, assetOut, poolIn).value, amountIn);
              && (price.None? ==> r == Err(Subpools(Math)))
              && (price.Some? && price.value.0 < minLimit ==> r == Err(Subpools(LimitNotReached)))
              && (price.Some? && minLimit <= price.value.0 ==> r.Ok? && r.value.received == price.value.0)
    ensures r.Ok? ==> S.IsAssetAllowed(c.stableswap, poolIn, assetIn, S.SELL) && O.Contains(c.omnipool.assets[assetOut].tradable, O.BUY)
    ensures r.Ok? ==> r.value.received >= minLimit
    ensures r.Ok? ==> IsoOutGivenStableInPriced(cfg, LoadStableIn(cfg, c, assetIn, assetOut, poolIn).value, poolIn, assetOut, amountIn, r.value)
    ensures r.Ok? && IsTrader(cfg, who) ==> TradeShaped(r.value, who, assetIn, assetOut)
  {
    var ctx :- LoadStableIn(cfg, c, assetIn, assetOut, poolIn);
    var price :- OkOr(IsoOutGivenStableInPrice(cfg, ctx, amountIn), Subpools(Math));
    var (payout, ch) := price;
    if payout < minLimit then Err(Subpools(LimitNotReached))
    else
      Ok(Plan([TransferOp(assetIn, who, ctx.account, amountIn),
               TransferOp(assetOut, cfg.protocolAccount, who, payout),
               DepositOp(poolIn, cfg.protocolAccount, ch.assetIn.deltaReserve.amount)],
              TradeResult(poolIn, assetOut, ch), amountIn, payout))
  }

  /** `resolve_mixed_trade_stable_out_given_hub_asset_in` up to its first write. */
  function QuoteStableOutGivenHubAssetIn(cfg: Config, c: Chain, who: AccountId, assetIn: AssetId, assetOut: AssetId,
                                         poolOut: AssetId, amountIn: nat, minLimit: nat): (r: Result<Plan, Error>)
    ensures assetIn != cfg.hubAssetId ==> r == Err(Omnipool(OmnipoolError.NotAllowed))
    ensures LoadHubIn(cfg, c, assetIn, assetOut, poolOut).Err? ==> r == Err(LoadHubIn(cfg, c, assetIn, assetOut, poolOut).error)
    ensures LoadHubIn(cfg, c, assetIn, assetOut, poolOut).Ok? ==>
              var price := StableOutGivenHubAssetInPrice(cfg, LoadHubIn(cfg, c, assetIn, assetOut, poolOut).value, amountIn);
              && (price.None? ==> r == Err(Subpools(Math)))
              && (price.Some? && price.value.0 < minLimit ==> r == Err(Subpools(LimitNotReached)))
              && (price.Some? && minLimit <= price.value.0 ==> r.Ok? && r.value.received == price.value.0)
    ensures r.Ok? ==> S.IsAssetAllowed(c.stableswap, poolOut, assetOut, S.BUY) && O.IsHubAssetAllowed(c.omnipool, O.SELL)
    ensures r.Ok? ==> r.value.received >= minLimit
    ensures r.Ok? ==> StableOutGivenHubAssetInPriced(cfg, LoadHubIn(cfg, c, assetIn, assetOut, poolOut).value, poolOut, amountIn, r.value)
    ensures r.Ok? && IsTrader(cfg, who) ==> TradeShaped(r.value, who, assetIn, assetOut)
  {
    var ctx :- LoadHubIn(cfg, c, assetIn, assetOut, poolOut);
    var price :- OkOr(StableOutGivenHubAssetInPrice(cfg, ctx, amountIn), Subpools(Math));
    var (payout, ch) := price;
    if payout < minLimit then Err(Subpools(LimitNotReached))
    else
      Ok(Plan([TransferOp(assetIn, who, cfg.protocolAccount, ch.asset.deltaHubReserve.amount),
               TransferOp(assetOut, ctx.account, who, payout),
               WithdrawOp(poolOut, cfg.protocolAccount, ch.asset.deltaReserve.amount)],
              HubAssetTrade(poolOut, ch), ch.asset.deltaHubReserve.amount, payout))
  }

  /**
   * `resolve_mixed_trade_stable_out_given_asset_in` up to its first write; a
   * sale of the hub asset is the hub-asset resolver's.
   */
  function QuoteStableOutGivenAssetIn(cfg: Config, c: Chain, who: AccountId, assetIn: AssetId, assetOut: AssetId,
                                      poolOut: AssetId, amountIn: nat, minLimit: nat): (r: Result<Plan, Error>)
    ensures assetIn == cfg.hubAssetId ==> r == QuoteStableOutGivenHubAssetIn(cfg, c, who, assetIn, assetOut, poolOut, amountIn, minLimit)
    ensures assetIn != cfg.hubAssetId && LoadStableOut(cfg, c, assetIn, assetOut, poolOut).Err? ==>
              r == Err(LoadStableOut(cfg, c, assetIn, assetOut, poolOut).error)
    ensures assetIn != cfg.hubAssetId && LoadStableOut(cfg, c, assetIn, assetOut, poolOut).Ok? ==>
              var price := StableOutGivenAssetInPrice(cfg, LoadStableOut(cfg, c, assetIn, assetOut, poolOut).value, amountIn);
              && (price.None? ==> r == Err(Subpools(Math)))
              && (price.Some? && price.value.0 < minLimit ==> r == Err(Subpools(LimitNotReached)))
              && (price.Some? && minLimit <= price.value.0 ==> r.Ok? && r.value.received == price.value.0)
    ensures r.Ok? ==> r.value.received >= minLimit
    ensures r.Ok? && assetIn != cfg.hubAssetId ==>
              && S.IsAssetAllowed(c.stableswap, poolOut, assetOut, S.BUY) && O.Contains(c.omnipool.assets[assetIn].tradable, O.SELL)
              && StableOutGivenAssetInPriced(cfg, LoadStableOut(cfg, c, assetIn, assetOut, poolOut).value, assetIn, poolOut, amountIn, r.value)
    ensures r.Ok? && IsTrader(cfg, who) ==> TradeShaped(r.value, who, assetIn, assetOut)
  {
    if assetIn == cfg.hubAssetId then QuoteStableOutGivenHubAssetIn(cfg, c, who, assetIn, assetOut, poolOut, amountIn, minLimit)
    else
      var ctx :- LoadStableOut(cfg, c, assetIn, assetOut, poolOut);
      var price :- OkOr(StableOutGivenAssetInPrice(cfg, ctx, amountIn), Subpools(Math));
      var (payout, ch) := price;
      if payout < minLimit then Err(Subpools(LimitNotReached))
      else
        Ok(Plan([TransferOp(assetIn, who, cfg.protocolAccount, ch.assetIn.deltaReserve.amount),
                 TransferOp(assetOut, ctx.account, who, payout),
                 WithdrawOp(poolOut, cfg.protocolAccount, ch.assetOut.deltaReserve.amount)],
                TradeResult(assetIn, poolOut, ch), ch.assetIn.deltaReserve.amount, payout))
  }

  /** `resolve_mixed_trade_stable_in_given_asset_out` up to its first write. */
  function QuoteStableInGivenAssetOut(cfg: Config, c: Chain, who: AccountId, assetIn: AssetId, assetOut: AssetId,
                                      poolIn: AssetId, amountOut: nat, maxLimit: nat): (r: Result<Plan, Error>)
    ensures assetOut == cfg.hubAssetId ==> r == Err(Omnipool(OmnipoolError.NotAllowed))
    ensures LoadStableIn(cfg, c, assetIn, assetOut, poolIn).Err? ==> r == Err(LoadStableIn(cfg, c, assetIn, assetOut, poolIn).error)
    ensures LoadStableIn(cfg, c, assetIn, assetOut, poolIn).Ok? ==>
              var price := StableInGivenAssetOutPrice(cfg, LoadStableIn(cfg, c, assetIn, assetOut, poolIn).value, amountOut);
              && (price.None? ==> r == Err(Subpools(Math)))
              && (price.Some? && price.value.0 > maxLimit ==> r == Err(Subpools(LimitExceeded)))
              && (price.Some? && price.value.0 <= maxLimit ==> r.Ok? && r.value.paid == price.value.0)
    ensures r.Ok? ==> S.IsAssetAllowed(c.stableswap, poolIn, assetIn, S.SELL) && O.Contains(c.omnipool.assets[assetOut].tradable, O.BUY)
    ensures r.Ok? ==> r.value.paid <= maxLimit
    ensures r.Ok? ==> StableInGivenAssetOutPriced(cfg, LoadStableIn(cfg, c, assetIn, assetOut, poolIn).value, poolIn, assetOut, amountOut, r.value)
    ensures r.Ok? && IsTrader(cfg, who) ==> TradeShaped(r.value, who, assetIn, assetOut)
  {
    var ctx :- LoadStableIn(cfg, c, assetIn, assetOut, poolIn);
    var price :- OkOr(StableInGivenAssetOutPrice(cfg, ctx, amountOut), Subpools(Math));
    var (required, ch) := price;
    if required > maxLimit then Err(Subpools(LimitExceeded))
    else
      Ok(Plan([TransferOp(assetIn, who, ctx.account, required),
               TransferOp(assetOut, cfg.protocolAccount, who, ch.assetOut.deltaReserve.amount),
               DepositOp(poolIn, cfg.protocolAccount, ch.assetIn.deltaReserve.amount)],
              TradeResult(poolIn, assetOut, ch), required, ch.assetOut.deltaReserve.amount))
  }

  /**
   * `resolve_mixed_trade_hub_asset_in_given_stable_out` up to its first
   * write, with the slippage limit applied to what the trader pays: the hub
   * reserve the burned shares are worth.
   */
  function QuoteHubAssetInGivenStableOut(cfg: Config, c: Chain, who: AccountId, assetIn: AssetId, assetOut: AssetId,
                                         poolOut: AssetId, amountOut: nat, maxLimit: nat): (r: Result<Plan, Error>)
    ensures assetIn != cfg.hubAssetId ==> r == Err(Omnipool(OmnipoolError.NotAllowed))
    ensures LoadHubIn(cfg, c, assetIn, assetOut, poolOut).Err? ==> r == Err(LoadHubIn(cfg, c, assetIn, assetOut, poolOut).error)
    ensures LoadHubIn(cfg, c, assetIn, assetOut, poolOut).Ok? ==>
              var ch := HubAssetInGivenStableOutPrice(cfg, LoadHubIn(cfg, c, assetIn, assetOut, poolOut).value, amountOut);
              && (ch.None? ==> r == Err(Subpools(Math)))
              && (ch.Some? && ch.value.asset.deltaHubReserve.amount > maxLimit ==> r == Err(Subpools(LimitExceeded)))
              && (ch.Some? && ch.value.asset.deltaHubReserve.amount <= maxLimit ==>
                    r.Ok? && r.value.paid == ch.value.asset.deltaHubReserve.amount)
    ensures r.Ok? ==> S.IsAssetAllowed(c.stableswap, poolOut, assetOut, S.BUY) && O.IsHubAssetAllowed(c.omnipool, O.SELL)
    ensures r.Ok? ==> r.value.paid <= maxLimit
    ensures r.Ok? ==> HubAssetInGivenStableOutPriced(cfg, LoadHubIn(cfg, c, assetIn, assetOut, poolOut).value, poolOut, amountOut, r.value)
    ensures r.Ok? && IsTrader(cfg, who) ==> TradeShaped(r.value, who, assetIn, assetOut)
  {
    var ctx :- LoadHubIn(cfg, c, assetIn, assetOut, poolOut);
    var ch :- OkOr(HubAssetInGivenStableOutPrice(cfg, ctx, amountOut), Subpools(Math));
    if ch.asset.deltaHubReserve.amount > maxLimit then Err(Subpools(LimitExceeded))
    else HubAssetInGivenStableOutPlan(cfg, who, assetIn, assetOut, poolOut, amountOut, ctx, ch)
  }

  /** The writes of a buy of a stable asset with the hub asset. */
  function HubAssetInGivenStableOutPlan(cfg: Config, who: AccountId, assetIn: AssetId, assetOut: AssetId, poolOut: AssetId,
                                        amountOut: nat, ctx: HubCtx, ch: HubTradeStateChange): (r: Result<Plan, Error>)
    requires ctx.account == cfg.poolAccount(poolOut, ctx.subpool)
    ensures r.Ok? && r.value.paid == ch.asset.deltaHubReserve.amount && r.value.received == amountOut
    ensures IsTrader(cfg, who) ==> TradeShaped(r.value, who, assetIn, assetOut)
  {
    Ok(Plan([TransferOp(assetIn, who, cfg.protocolAccount, ch.asset.deltaHubReserve.amount),
             TransferOp(assetOut, ctx.account, who, amountOut),
             WithdrawOp(poolOut, cfg.protocolAccount, ch.asset.deltaReserve.amount)],
            HubAssetTrade(poolOut, ch), ch.asset.deltaHubReserve.amount, amountOut))
  }

  /**
   * `resolve_mixed_trade_hub_asset_in_given_stable_out` as written: the
   * limit is compared with the share amount burned while the trader is
   * charged the hub reserve, whatever its size.
   */
  function QuoteHubAssetInGivenStableOutAsWritten(cfg: Config, c: Chain, who: AccountId, assetIn: AssetId, assetOut: AssetId,
                                                  poolOut: AssetId, amountOut: nat, maxLimit: nat): (r: Result<Plan, Error>)
    ensures assetIn != cfg.hubAssetId ==> r == Err(Omnipool(OmnipoolError.NotAllowed))
    ensures LoadHubIn(cfg, c, assetIn, assetOut, poolOut).Err? ==> r == Err(LoadHubIn(cfg, c, assetIn, assetOut, poolOut).error)
    ensures LoadHubIn(cfg, c, assetIn, assetOut, poolOut).Ok? ==>
              var ch := HubAssetInGivenStableOutPrice(cfg, LoadHubIn(cfg, c, assetIn, assetOut, poolOut).value, amountOut);
              && (ch.None? ==> r == Err(Subpools(Math)))
              && (ch.Some? && ch.value.asset.deltaReserve.amount > maxLimit ==> r == Err(Subpools(LimitExceeded)))
              && (ch.Some? && ch.value.asset.deltaReserve.amount <= maxLimit ==>
                    r.Ok? && r.value.paid == ch.value.asset.deltaHubReserve.amount)
    ensures r.Ok? ==> r.value.update.HubAssetTrade? && r.value.update.hubChanges.asset.deltaReserve.amount <= maxLimit
    ensures r.Ok? ==> HubAssetInGivenStableOutPriced(cfg, LoadHubIn(cfg, c, assetIn, assetOut, poolOut).value, poolOut, amountOut, r.value)
    ensures r.Ok? && IsTrader(cfg, who) ==> TradeShaped(r.value, who, assetIn, assetOut)
  {
    var ctx :- LoadHubIn(cfg, c, assetIn, assetOut, poolOut);
    var ch :- OkOr(HubAssetInGivenStableOutPrice(cfg, ctx, amountOut), Subpools(Math));
    if ch.asset.deltaReserve.amount > maxLimit then Err(Subpools(LimitExceeded))
    else HubAssetInGivenStableOutPlan(cfg, who, assetIn, assetOut, poolOut, amountOut, ctx, ch)
  }

  /** `resolve_mixed_trade_iso_in_given_stable_out` up to its first write, with the corrected hub-asset path. */
  function QuoteIsoInGivenStableOut(cfg: Config, c: Chain, who: AccountId, assetIn: AssetId, assetOut: AssetId,
                                    poolOut: AssetId, amountOut: nat, maxLimit: nat): (r: Result<Plan, Error>)
    ensures assetIn == cfg.hubAssetId ==> r == QuoteHubAssetInGivenStableOut(cfg, c, who, assetIn, assetOut, poolOut, amountOut, maxLimit)
    ensures assetIn != cfg.hubAssetId && LoadStableOut(cfg, c, assetIn, assetOut, poolOut).Err? ==>
              r == Err(LoadStableOut(cfg, c, assetIn, assetOut, poolOut).error)
    ensures assetIn != cfg.hubAssetId && LoadStableOut(cfg, c, assetIn, assetOut, poolOut).Ok? ==>
              var price := IsoInGivenStableOutPrice(cfg, LoadStableOut(cfg, c, assetIn, assetOut, poolOut).value, amountOut);
              && (price.None? ==> r == Err(Subpools(Math)))
              && (price.Some? && price.value.0 > maxLimit ==> r == Err(Subpools(LimitExceeded)))
              && (price.Some? && price.value.0 <= maxLimit ==> r.Ok? && r.value.paid == price.value.0)
    ensures r.Ok? ==> r.value.paid <= maxLimit
    ensures r.Ok? && assetIn != cfg.hubAssetId ==>
              && S.IsAssetAllowed(c.stableswap, poolOut, assetOut, S.BUY) && O.Contains(c.omnipool.assets[assetIn].tradable, O.SELL)
              && IsoInGivenStableOutPriced(cfg, LoadStableOut(cfg, c, assetIn, assetOut, poolOut).value, assetIn, poolOut, amountOut, r.value)
    ensures r.Ok? && IsTrader(cfg, who) ==> TradeShaped(r.value, who, assetIn, assetOut)
  {
    if assetIn == cfg.hubAssetId then QuoteHubAssetInGivenStableOut(cfg, c, who, assetIn, assetOut, poolOut, amountOut, maxLimit)
    else
      var ctx :- LoadStableOut(cfg, c, assetIn, assetOut, poolOut);
      var price :- OkOr(IsoInGivenStableOutPrice(cfg, ctx, amountOut), Subpools(Math));
      var (required, ch) := price;
      if required > maxLimit then Err(Subpools(LimitExceeded))
      else
        Ok(Plan([TransferOp(assetIn, who, cfg.protocolAccount, required),
                 TransferOp(assetOut, ctx.account, who, amountOut),
                 WithdrawOp(poolOut, cfg.protocolAccount, ch.assetOut.deltaReserve.amount)],
                TradeResult(assetIn, poolOut, ch), required, amountOut))
  }

  /**
   * `resolve_mixed_trade_iso_in_given_stable_out` as written: a purchase with
   * the hub asset takes the as-written hub-asset check; any other purchase is
   * quoted as above.
   */
  function QuoteIsoInGivenStableOutAsWritten(cfg: Config, c: Chain, who: AccountId, assetIn: AssetId, assetOut: AssetId,
                                             poolOut: AssetId, amountOut: nat, maxLimit: nat): (r: Result<Plan, Error>)
    ensures assetIn == cfg.hubAssetId ==>
              r == QuoteHubAssetInGivenStableOutAsWritten(cfg, c, who, assetIn, assetOut, poolOut, amountOut, maxLimit)
    ensures assetIn != cfg.hubAssetId ==> r == QuoteIsoInGivenStableOut(cfg, c, who, assetIn, assetOut, poolOut, amountOut, maxLimit)
    ensures r.Ok? ==> r.value.received == amountOut
    ensures r.Ok? && IsTrader(cfg, who) ==> TradeShaped(r.value, who, assetIn, assetOut)
  {
    if assetIn == cfg.hubAssetId then QuoteHubAssetInGivenStableOutAsWritten(cfg, c, who, assetIn, assetOut, poolOut, amountOut, maxLimit)
    else QuoteIsoInGivenStableOut(cfg, c, who, assetIn, assetOut, poolOut, amountOut, maxLimit)
  }
}
