/**
 * The subpools pallet: its two registries, its dispatchable calls, and the
 * resolvers that carry out trades crossing the hub pool and the stable
 * subpools. Every call is all-or-nothing: on an error the state is the one
 * the call started from.
 */
module OmnipoolSubpools {
  import opened Wrappers
  import opened Errors
  import opened Tokens
  import O = Omnipool
  import S = Stableswap
  import opened HydraMath
  import opened Runtime
  import opened SubpoolTrades

  /** `MigratedAssets` together with `Subpools`. */
  datatype Registry = Registry(migrated: MigratedAssets, subpools: set<AssetId>)

  /** Every migrated asset belongs to a registered subpool. */
  predicate RegistryValid(reg: Registry)
  {
    forall a :: a in reg.migrated ==> reg.migrated[a].0 in reg.subpools
  }

  /** `to_stableswap_tradable`: the same flags, read as Stableswap flags; unknown bits are dropped. */
  function ToStableswapTradable(t: O.Tradability): (r: S.Tradability)
    ensures S.Contains(r, S.SELL) <==> O.Contains(t, O.SELL)
    ensures S.Contains(r, S.BUY) <==> O.Contains(t, O.BUY)
    ensures S.Contains(r, S.ADD_LIQUIDITY) <==> O.Contains(t, O.ADD_LIQUIDITY)
    ensures S.Contains(r, S.REMOVE_LIQUIDITY) <==> O.Contains(t, O.REMOVE_LIQUIDITY)
    ensures r & !S.ALL_FLAGS == 0
  {
    t & S.ALL_FLAGS
  }

  /** `convert_position`: the position re-expressed in shares of pool `poolId`. */
  function ConvertPosition(cfg: Config, poolId: AssetId, details: MigrationDetails, position: O.Position): (r: Result<O.Position, Error>)
    ensures r.Ok? <==> cfg.maths.convertPosition(MathPosition(position.amount, position.shares, position.price), details).Some?
    ensures r.Err? ==> r.error == Subpools(Math)
    ensures r.Ok? ==> r.value.assetId == poolId
    ensures r.Ok? ==> cfg.maths.convertPosition(MathPosition(position.amount, position.shares, position.price), details)
                      == Some(MathPosition(r.value.amount, r.value.shares, r.value.price))
  {
    var converted :- OkOr(cfg.maths.convertPosition(MathPosition(position.amount, position.shares, position.price), details),
                          Subpools(Math));
    Ok(O.Position(poolId, converted.amount, converted.shares, converted.price))
  }

  /**
   * The first steps of `remove_liquidity`: the owner's position, converted
   * and stored back when its asset has migrated.
   */
  function PositionForRemoval(cfg: Config, migrated: MigratedAssets, o: O.OmnipoolState, positionId: O.PositionId, who: AccountId)
    : (r: Result<(O.Position, O.OmnipoolState), Error>)
    ensures O.LoadPosition(o, positionId, who).Err? ==> r == Err(O.LoadPosition(o, positionId, who).error)
    ensures r.Ok? ==> O.LoadPosition(o, positionId, who).Ok?
    ensures r.Ok? && O.LoadPosition(o, positionId, who).value.assetId in migrated ==>
              && r.value.0.assetId == migrated[O.LoadPosition(o, positionId, who).value.assetId].0
              && r.value.1 == O.SetPosition(o, positionId, r.value.0)
    ensures r.Ok? && O.LoadPosition(o, positionId, who).value.assetId !in migrated ==>
              r.value == (O.LoadPosition(o, positionId, who).value, o)
  {
    var position :- O.LoadPosition(o, positionId, who);
    if position.assetId in migrated then
      var converted :- ConvertPosition(cfg, migrated[position.assetId].0, migrated[position.assetId].1, position);
      Ok((converted, O.SetPosition(o, positionId, converted)))
    else Ok((position, o))
  }

  /** What `remove_liquidity` does. */
  function RemoveLiquidityOutcome(cfg: Config, reg: Registry, c: Chain, who: AccountId, positionId: O.PositionId,
                                  shareAmount: nat, asset: Option<AssetId>): (r: Result<Chain, Error>)
    ensures PositionForRemoval(cfg, reg.migrated, c.omnipool, positionId, who).Err? ==>
              r == Err(PositionForRemoval(cfg, reg.migrated, c.omnipool, positionId, who).error)
    ensures PositionForRemoval(cfg, reg.migrated, c.omnipool, positionId, who).Ok? ==>
              var pr := PositionForRemoval(cfg, reg.migrated, c.omnipool, positionId, who).value;
              var removed := cfg.foreign.omnipoolRemoveLiquidity(c.(omnipool := pr.1), who, positionId, shareAmount);
              && (removed.Err? ==> r == Err(removed.error))
              && (removed.Ok? && pr.0.assetId in reg.subpools && asset.None? ==> r == Err(Subpools(WithdrawAssetNotSpecified)))
              && (removed.Ok? && pr.0.assetId in reg.subpools && asset.Some? ==>
                    r == cfg.foreign.stableswapRemoveLiquidityOneAsset(removed.value, who, pr.0.assetId, asset.value,
                                                                       FreeBalance(removed.value.ledger, pr.0.assetId, who)))
              && (removed.Ok? && pr.0.assetId !in reg.subpools ==> r == Ok(removed.value))
    ensures r.Ok? && asset.None? ==>
              PositionForRemoval(cfg, reg.migrated, c.omnipool, positionId, who).Ok?
              && PositionForRemoval(cfg, reg.migrated, c.omnipool, positionId, who).value.0.assetId !in reg.subpools
  {
    var pr :- PositionForRemoval(cfg, reg.migrated, c.omnipool, positionId, who);
    var position := pr.0;
    var c1 :- cfg.foreign.omnipoolRemoveLiquidity(c.(omnipool := pr.1), who, positionId, shareAmount);
    if position.assetId in reg.subpools then
      match asset
      case Some(withdrawAsset) =>
        cfg.foreign.stableswapRemoveLiquidityOneAsset(c1, who, position.assetId, withdrawAsset, FreeBalance(c1.ledger, position.assetId, who))
      case None => Err(Subpools(WithdrawAssetNotSpecified))
    else Ok(c1)
  }

  /**
   * With a valid registry, a position of a migrated asset is always a subpool
   * position by the time it is removed: without a named asset to withdraw the
   * removal fails with `WithdrawAssetNotSpecified`, and with one the shares
   * are withdrawn through Stableswap.
   */
  lemma MigratedPositionWithdrawsFromSubpool(cfg: Config, reg: Registry, c: Chain, who: AccountId, positionId: O.PositionId,
                                             shareAmount: nat, asset: Option<AssetId>)
    requires RegistryValid(reg)
    requires O.LoadPosition(c.omnipool, positionId, who).Ok? && O.LoadPosition(c.omnipool, positionId, who).value.assetId in reg.migrated
    requires PositionForRemoval(cfg, reg.migrated, c.omnipool, positionId, who).Ok?
    requires var pr := PositionForRemoval(cfg, reg.migrated, c.omnipool, positionId, who).value;
             cfg.foreign.omnipoolRemoveLiquidity(c.(omnipool := pr.1), who, positionId, shareAmount).Ok?
    ensures PositionForRemoval(cfg, reg.migrated, c.omnipool, positionId, who).value.0.assetId in reg.subpools
    ensures asset.None? ==>
              RemoveLiquidityOutcome(cfg, reg, c, who, positionId, shareAmount, asset) == Err(Subpools(WithdrawAssetNotSpecified))
    ensures asset.Some? ==>
              var pr := PositionForRemoval(cfg, reg.migrated, c.omnipool, positionId, who).value;
              var c1 := cfg.foreign.omnipoolRemoveLiquidity(c.(omnipool := pr.1), who, positionId, shareAmount).value;
              RemoveLiquidityOutcome(cfg, reg, c, who, positionId, shareAmount, asset)
              == cfg.foreign.stableswapRemoveLiquidityOneAsset(c1, who, pr.0.assetId, asset.value, FreeBalance(c1.ledger, pr.0.assetId, who))
  {
    var a := O.LoadPosition(c.omnipool, positionId, who).value.assetId;
    assert reg.migrated[a].0 in reg.subpools;
  }

  /**
   * What `sell` does, by route. A route this pallet resolves itself changes
   * balances and hub-pool state only, never a Stableswap table.
   */
  function SellOutcome(cfg: Config, migrated: MigratedAssets, c: Chain, who: AccountId, assetIn: AssetId, assetOut: AssetId,
                       amount: nat, minBuyAmount: nat): (r: Result<Chain, Error>)
    ensures r.Ok? && CrossPool(Classify(PoolOf(migrated, assetIn), PoolOf(migrated, assetOut))) ==> r.value.stableswap == c.stableswap
  {
    match Classify(PoolOf(migrated, assetIn), PoolOf(migrated, assetOut))
    case HubPoolTrade => cfg.foreign.omnipoolSell(c, who, assetIn, assetOut, amount, minBuyAmount)
    case SameSubpool(pool) => cfg.foreign.stableswapSell(c, who, pool, assetIn, assetOut, amount, minBuyAmount)
    case BetweenSubpools(poolIn, poolOut) =>
      Settle(cfg, c, QuoteSellBetweenSubpools(cfg, c, who, assetIn, assetOut, poolIn, poolOut, amount, minBuyAmount))
    case StableToHubPool(poolIn) =>
      Settle(cfg, c, QuoteIsoOutGivenStableIn(cfg, c, who, assetIn, assetOut, poolIn, amount, minBuyAmount))
    case HubPoolToStable(poolOut) =>
      Settle(cfg, c, QuoteStableOutGivenAssetIn(cfg, c, who, assetIn, assetOut, poolOut, amount, minBuyAmount))
  }

  /**
   * What `buy` does, by route, as written: a purchase of a stable asset with
   * the hub asset takes the share-amount slippage check.
   */
  function BuyOutcome(cfg: Config, migrated: MigratedAssets, c: Chain, who: AccountId, assetOut: AssetId, assetIn: AssetId,
                      amount: nat, maxSellAmount: nat): (r: Result<Chain, Error>)
    ensures !Classify(PoolOf(migrated, assetIn), PoolOf(migrated, assetOut)).HubPoolToStable? || assetIn != cfg.hubAssetId ==>
              r == BuyOutcomeCorrected(cfg, migrated, c, who, assetOut, assetIn, amount, maxSellAmount)
  {
    match Classify(PoolOf(migrated, assetIn), PoolOf(migrated, assetOut))
    case HubPoolToStable(poolOut) =>
      Settle(cfg, c, QuoteIsoInGivenStableOutAsWritten(cfg, c, who, assetIn, assetOut, poolOut, amount, maxSellAmount))
    case _ => BuyOutcomeCorrected(cfg, migrated, c, who, assetOut, assetIn, amount, maxSellAmount)
  }

  /**
   * What `buy` does, by route, with the slippage limit always applied to what
   * the trader pays. A route this pallet resolves itself never changes a
   * Stableswap table.
   */
  function BuyOutcomeCorrected(cfg: Config, migrated: MigratedAssets, c: Chain, who: AccountId, assetOut: AssetId, assetIn: AssetId,
                               amount: nat, maxSellAmount: nat): (r: Result<Chain, Error>)
    ensures r.Ok? && CrossPool(Classify(PoolOf(migrated, assetIn), PoolOf(migrated, assetOut))) ==> r.value.stableswap == c.stableswap
  {
    match Classify(PoolOf(migrated, assetIn), PoolOf(migrated, assetOut))
    case HubPoolTrade => cfg.foreign.omnipoolBuy(c, who, assetOut, assetIn, amount, maxSellAmount)
    case SameSubpool(pool) => cfg.foreign.stableswapBuy(c, who, pool, assetOut, assetIn, amount, maxSellAmount)
    case BetweenSubpools(poolIn, poolOut) =>
      Settle(cfg, c, QuoteBuyBetweenSubpools(cfg, c, who, assetIn, assetOut, poolIn, poolOut, amount, maxSellAmount))
    case StableToHubPool(poolIn) =>
      Settle(cfg, c, QuoteStableInGivenAssetOut(cfg, c, who, assetIn, assetOut, poolIn, amount, maxSellAmount))
    case HubPoolToStable(poolOut) =>
      Settle(cfg, c, QuoteIsoInGivenStableOut(cfg, c, who, assetIn, assetOut, poolOut, amount, maxSellAmount))
  }

  /** The routes this pallet resolves itself rather than hand to the Omnipool or to Stableswap. */
  predicate CrossPool(r: Route)
  {
    r.BetweenSubpools? || r.StableToHubPool? || r.HubPoolToStable?
  }

  /** A cross-pool sale never pays a trader less than `min_buy_amount` and never credits them the sold asset. */
  lemma SellSlippage(cfg: Config, migrated: MigratedAssets, c: Chain, who: AccountId, assetIn: AssetId, assetOut: AssetId,
                     amount: nat, minBuyAmount: nat)
    requires CrossPool(Classify(PoolOf(migrated, assetIn), PoolOf(migrated, assetOut)))
    requires IsTrader(cfg, who)
    requires SellOutcome(cfg, migrated, c, who, assetIn, assetOut, amount, minBuyAmount).Ok?
    ensures var after := SellOutcome(cfg, migrated, c, who, assetIn, assetOut, amount, minBuyAmount).value;
      && FreeBalance(after.ledger, assetOut, who) >= FreeBalance(c.ledger, assetOut, who) + minBuyAmount
      && FreeBalance(after.ledger, assetIn, who) <= FreeBalance(c.ledger, assetIn, who)
    ensures var route := Classify(PoolOf(migrated, assetIn), PoolOf(migrated, assetOut));
      var after := SellOutcome(cfg, migrated, c, who, assetIn, assetOut, amount, minBuyAmount).value;
      route.BetweenSubpools? || route.StableToHubPool? ==>
        FreeBalance(after.ledger, assetIn, who) + amount == FreeBalance(c.ledger, assetIn, who)
  {
    var q := match Classify(PoolOf(migrated, assetIn), PoolOf(migrated, assetOut)) {
      case BetweenSubpools(poolIn, poolOut) => QuoteSellBetweenSubpools(cfg, c, who, assetIn, assetOut, poolIn, poolOut, amount, minBuyAmount)
      case StableToHubPool(poolIn) => QuoteIsoOutGivenStableIn(cfg, c, who, assetIn, assetOut, poolIn, amount, minBuyAmount)
      case HubPoolToStable(poolOut) => QuoteStableOutGivenAssetIn(cfg, c, who, assetIn, assetOut, poolOut, amount, minBuyAmount)
    };
    assert SellOutcome(cfg, migrated, c, who, assetIn, assetOut, amount, minBuyAmount) == Settle(cfg, c, q);
    Settlement(c.ledger, q.value, who, assetIn, assetOut);
  }

  /**
   * A cross-pool purchase paid for with anything but the hub asset never
   * costs a trader more than `max_sell_amount` and never debits them the
   * bought asset; a purchase with the hub asset may, see
   * `HubBuyLimitCounterexample.HubBuyOverspends`.
   */
  lemma BuySlippage(cfg: Config, migrated: MigratedAssets, c: Chain, who: AccountId, assetOut: AssetId, assetIn: AssetId,
                    amount: nat, maxSellAmount: nat)
    requires CrossPool(Classify(PoolOf(migrated, assetIn), PoolOf(migrated, assetOut)))
    requires assetIn != cfg.hubAssetId
    requires IsTrader(cfg, who)
    requires BuyOutcome(cfg, migrated, c, who, assetOut, assetIn, amount, maxSellAmount).Ok?
    ensures var after := BuyOutcome(cfg, migrated, c, who, assetOut, assetIn, amount, maxSellAmount).value;
      && FreeBalance(after.ledger, assetIn, who) + maxSellAmount >= FreeBalance(c.ledger, assetIn, who)
      && FreeBalance(after.ledger, assetOut, who) >= FreeBalance(c.ledger, assetOut, who)
    ensures var route := Classify(PoolOf(migrated, assetIn), PoolOf(migrated, assetOut));
      var after := BuyOutcome(cfg, migrated, c, who, assetOut, assetIn, amount, maxSellAmount).value;
      !route.StableToHubPool? ==> FreeBalance(after.ledger, assetOut, who) == FreeBalance(c.ledger, assetOut, who) + amount
  {
    BuySlippageCorrected(cfg, migrated, c, who, assetOut, assetIn, amount, maxSellAmount);
  }

  /** A corrected cross-pool purchase never costs a trader more than `max_sell_amount` and never debits them the bought asset. */
  lemma BuySlippageCorrected(cfg: Config, migrated: MigratedAssets, c: Chain, who: AccountId, assetOut: AssetId, assetIn: AssetId,
                    amount: nat, maxSellAmount: nat)
    requires CrossPool(Classify(PoolOf(migrated, assetIn), PoolOf(migrated, assetOut)))
    requires IsTrader(cfg, who)
    requires BuyOutcomeCorrected(cfg, migrated, c, who, assetOut, assetIn, amount, maxSellAmount).Ok?
    ensures var after := BuyOutcomeCorrected(cfg, migrated, c, who, assetOut, assetIn, amount, maxSellAmount).value;
      && FreeBalance(after.ledger, assetIn, who) + maxSellAmount >= FreeBalance(c.ledger, assetIn, who)
      && FreeBalance(after.ledger, assetOut, who) >= FreeBalance(c.ledger, assetOut, who)
    ensures var route := Classify(PoolOf(migrated, assetIn), PoolOf(migrated, assetOut));
      var after := BuyOutcomeCorrected(cfg, migrated, c, who, assetOut, assetIn, amount, maxSellAmount).value;
      !route.StableToHubPool? ==> FreeBalance(after.ledger, assetOut, who) == FreeBalance(c.ledger, assetOut, who) + amount
  {
    var q := match Classify(PoolOf(migrated, assetIn), PoolOf(migrated, assetOut)) {
      case BetweenSubpools(poolIn, poolOut) => QuoteBuyBetweenSubpools(cfg, c, who, assetIn, assetOut, poolIn, poolOut, amount, maxSellAmount)
      case StableToHubPool(poolIn) => QuoteStableInGivenAssetOut(cfg, c, who, assetIn, assetOut, poolIn, amount, maxSellAmount)
      case HubPoolToStable(poolOut) => QuoteIsoInGivenStableOut(cfg, c, who, assetIn, assetOut, poolOut, amount, maxSellAmount)
    };
    assert BuyOutcomeCorrected(cfg, migrated, c, who, assetOut, assetIn, amount, maxSellAmount) == Settle(cfg, c, q);
    Settlement(c.ledger, q.value, who, assetIn, assetOut);
  }

  /** The hub asset is never bought from a subpool trade: such a sale or purchase fails with the Omnipool's `NotAllowed`. */
  lemma HubAssetNeverBought(cfg: Config, migrated: MigratedAssets, c: Chain, who: AccountId, asset: AssetId, amount: nat, limit: nat)
    requires asset in migrated && cfg.hubAssetId !in migrated
    ensures SellOutcome(cfg, migrated, c, who, asset, cfg.hubAssetId, amount, limit) == Err(Omnipool(OmnipoolError.NotAllowed))
    ensures BuyOutcome(cfg, migrated, c, who, cfg.hubAssetId, asset, amount, limit) == Err(Omnipool(OmnipoolError.NotAllowed))
  {
  }

  /**
   * The Stableswap side of `create_subpool`: the new pool of the two assets,
   * with each asset's flags carried over.
   */
  function CreatePoolWithFlags(ss: S.StableswapState, shareAsset: AssetId, assetA: AssetId, assetB: AssetId,
                               amplification: nat, tradeFee: nat, withdrawFee: nat, flagsA: S.Tradability, flagsB: S.Tradability)
    : (r: Result<S.StableswapState, Error>)
    ensures r.Err? <==> shareAsset in ss.pools
    ensures r.Err? ==> r.error == Stableswap(PoolExists)
    ensures r.Ok? ==>
      && r.value.pools.Keys == ss.pools.Keys + {shareAsset}
      && r.value.pools[shareAsset].assets == [assetA, assetB]
      && S.AssetTradability(r.value, shareAsset, assetA) == (if assetA == assetB then flagsB else flagsA)
      && S.AssetTradability(r.value, shareAsset, assetB) == flagsB
  {
    var created :- S.DoCreatePool(ss, shareAsset, [assetA, assetB], amplification, tradeFee, withdrawFee);
    var ss1 := S.SetAssetTradabilityState(created.1, created.0, assetA, flagsA);
    Ok(S.SetAssetTradabilityState(ss1, created.0, assetB, flagsB))
  }

  /** The registry side of `create_subpool`: both assets recorded under the new pool, which is registered. */
  function RegisterSubpool(reg: Registry, shareAsset: AssetId, assetA: AssetId, detailsA: MigrationDetails,
                           assetB: AssetId, detailsB: MigrationDetails): (r: Registry)
    ensures assetA in r.migrated && r.migrated[assetA].0 == shareAsset
    ensures assetB in r.migrated && r.migrated[assetB].0 == shareAsset
    ensures r.subpools == reg.subpools + {shareAsset}
    ensures forall a :: a in reg.migrated && a != assetA && a != assetB ==> a in r.migrated && r.migrated[a] == reg.migrated[a]
    ensures RegistryValid(reg) ==> RegistryValid(r)
  {
    Registry(reg.migrated[assetA := (shareAsset, detailsA)][assetB := (shareAsset, detailsB)], reg.subpools + {shareAsset})
  }

  /** What `create_subpool` does. */
  function CreateSubpoolOutcome(cfg: Config, reg: Registry, c: Chain, shareAsset: AssetId, assetA: AssetId, assetB: AssetId,
                                cap: nat, amplification: nat, tradeFee: nat, withdrawFee: nat): (r: Result<(Chain, Registry), Error>)
    ensures assetA !in c.omnipool.assets || assetB !in c.omnipool.assets ==> r == Err(Omnipool(AssetNotFound))
    ensures r.Ok? ==>
      var (c', reg') := r.value;
      && assetA in reg'.migrated && reg'.migrated[assetA].0 == shareAsset
      && assetB in reg'.migrated && reg'.migrated[assetB].0 == shareAsset
      && reg'.subpools == reg.subpools + {shareAsset}
      && (forall a :: a in reg.migrated && a != assetA && a != assetB ==> a in reg'.migrated && reg'.migrated[a] == reg.migrated[a])
      && (RegistryValid(reg) ==> RegistryValid(reg'))
      && assetA !in c'.omnipool.assets && assetB !in c'.omnipool.assets
      && shareAsset in c'.omnipool.assets && shareAsset !in c.omnipool.assets
      && shareAsset !in c.stableswap.pools && shareAsset in c'.stableswap.pools
      && c'.stableswap.pools[shareAsset].assets == [assetA, assetB]
      && S.AssetTradability(c'.stableswap, shareAsset, assetA) == ToStableswapTradable(c.omnipool.assets[assetA].tradable)
      && S.AssetTradability(c'.stableswap, shareAsset, assetB) == ToStableswapTradable(c.omnipool.assets[assetB].tradable)
  {
    var stateA :- O.LoadAssetState(c.omnipool, c.ledger, cfg.protocolAccount, assetA);
    var stateB :- O.LoadAssetState(c.omnipool, c.ledger, cfg.protocolAccount, assetB);
    var ss2 :- CreatePoolWithFlags(c.stableswap, shareAsset, assetA, assetB, amplification, tradeFee, withdrawFee,
                                   ToStableswapTradable(stateA.tradable), ToStableswapTradable(stateB.tradable));
    var poolId := shareAsset;
    var l1 :- S.MoveLiquidityToPool(c.ledger, ss2, cfg.poolAccount, cfg.protocolAccount, poolId,
                                    [(assetA, stateA.reserve), (assetB, stateB.reserve)]);
    var subpoolState :- OkOr(cfg.maths.createNewSubpool(stateA.ToMath(), stateB.ToMath()), Subpools(Math));
    var l2 := S.DepositShares(l1, cfg.protocolAccount, poolId, subpoolState.reserve);
    var o1 :- O.AddAsset(c.omnipool, poolId,
                         O.AssetState(subpoolState.hubReserve, subpoolState.shares, subpoolState.protocolShares, cap, O.DEFAULT_TRADABILITY));
    var detailsA :- OkOr(cfg.maths.calculateAssetMigrationDetails(stateA.ToMath(), None, 0), Subpools(Math));
    var detailsB :- OkOr(cfg.maths.calculateAssetMigrationDetails(stateB.ToMath(), None, 0), Subpools(Math));
    var o2 := O.RemoveAsset(O.RemoveAsset(o1, assetA), assetB);
    Ok((Chain(l2, o2, ss2), RegisterSubpool(reg, poolId, assetA, detailsA.0, assetB, detailsB.0)))
  }

  /** What `migrate_asset_to_subpool` does. */
  function MigrateAssetOutcome(cfg: Config, reg: Registry, c: Chain, poolId: AssetId, assetId: AssetId): (r: Result<(Chain, Registry), Error>)
    ensures poolId !in reg.subpools ==> r == Err(Subpools(SubpoolNotFound))
    ensures r.Ok? ==>
      var (c', reg') := r.value;
      && assetId in c.omnipool.assets && poolId in c.stableswap.pools
      && reg'.subpools == reg.subpools
      && assetId in reg'.migrated && reg'.migrated[assetId].0 == poolId
      && (forall a :: a in reg.migrated && a != assetId ==> a in reg'.migrated && reg'.migrated[a] == reg.migrated[a])
      && (RegistryValid(reg) ==> RegistryValid(reg'))
      && poolId in c'.stableswap.pools
      && c'.stableswap.pools[poolId].assets == c.stableswap.pools[poolId].assets + [assetId]
      && S.AssetTradability(c'.stableswap, poolId, assetId) == ToStableswapTradable(c.omnipool.assets[assetId].tradable)
  {
    if poolId !in reg.subpools then Err(Subpools(SubpoolNotFound))
    else
      var assetState :- O.LoadAssetState(c.omnipool, c.ledger, cfg.protocolAccount, assetId);
      var subpoolState :- O.LoadAssetState(c.omnipool, c.ledger, cfg.protocolAccount, poolId);
      var ss1 :- S.AddAssetToExistingPool(c.stableswap, poolId, assetId);
      var l1 :- S.MoveLiquidityToPool(c.ledger, ss1, cfg.poolAccount, cfg.protocolAccount, poolId, [(assetId, assetState.reserve)]);
      var ss2 := S.SetAssetTradabilityState(ss1, poolId, assetId, ToStableswapTradable(assetState.tradable));
      var o1 := O.RemoveAsset(c.omnipool, assetId);
      var shareIssuance := TotalIssuance(l1, poolId);
      var migration :- OkOr(cfg.maths.calculateAssetMigrationDetails(assetState.ToMath(), Some(subpoolState.ToMath()), shareIssuance),
                            Subpools(Math));
      var change :- OkOr(migration.1, Subpools(Math));
      var l2 := S.DepositShares(l1, cfg.protocolAccount, poolId, change.deltaReserve.amount);
      var o2 :- cfg.foreign.updateAssetState(o1, poolId, change);
      Ok((Chain(l2, o2, ss2), Registry(reg.migrated[assetId := (poolId, migration.0)], reg.subpools)))
  }

  /** How `create_subpool` builds the new ledger: both reserves moved to the pool account, then the shares minted. */
  lemma CreateSubpoolLedger(cfg: Config, reg: Registry, c: Chain, shareAsset: AssetId, assetA: AssetId, assetB: AssetId,
                            cap: nat, amplification: nat, tradeFee: nat, withdrawFee: nat)
    ensures var r := CreateSubpoolOutcome(cfg, reg, c, shareAsset, assetA, assetB, cap, amplification, tradeFee, withdrawFee);
      var stateA := O.LoadAssetState(c.omnipool, c.ledger, cfg.protocolAccount, assetA);
      var stateB := O.LoadAssetState(c.omnipool, c.ledger, cfg.protocolAccount, assetB);
      r.Ok? ==>
        && stateA.Ok? && stateB.Ok?
        && var p := r.value.0.stableswap.pools[shareAsset];
        && var moved := S.TransferAll(c.ledger, p, cfg.protocolAccount, cfg.poolAccount(shareAsset, p),
                                      [(assetA, stateA.value.reserve), (assetB, stateB.value.reserve)]);
        && shareAsset != assetA && shareAsset != assetB
        && moved.Ok?
        && cfg.maths.createNewSubpool(stateA.value.ToMath(), stateB.value.ToMath()).Some?
        && r.value.0.ledger == S.DepositShares(moved.value, cfg.protocolAccount, shareAsset,
                                               cfg.maths.createNewSubpool(stateA.value.ToMath(), stateB.value.ToMath()).value.reserve)
  {
    var r := CreateSubpoolOutcome(cfg, reg, c, shareAsset, assetA, assetB, cap, amplification, tradeFee, withdrawFee);
    var stateA := O.LoadAssetState(c.omnipool, c.ledger, cfg.protocolAccount, assetA);
    var stateB := O.LoadAssetState(c.omnipool, c.ledger, cfg.protocolAccount, assetB);
    if stateA.Err? || stateB.Err? {
      assert r.Err?;
      return;
    }
    var created := CreatePoolWithFlags(c.stableswap, shareAsset, assetA, assetB, amplification, tradeFee, withdrawFee,
                                       ToStableswapTradable(stateA.value.tradable), ToStableswapTradable(stateB.value.tradable));
    if created.Err? {
      assert r == Err(created.error);
      return;
    }
    var ss2 := created.value;
    var p := ss2.pools[shareAsset];
    var liquidity := [(assetA, stateA.value.reserve), (assetB, stateB.value.reserve)];
    var moved := S.TransferAll(c.ledger, p, cfg.protocolAccount, cfg.poolAccount(shareAsset, p), liquidity);
    assert S.MoveLiquidityToPool(c.ledger, ss2, cfg.poolAccount, cfg.protocolAccount, shareAsset, liquidity) == moved;
    if moved.Err? {
      assert r == Err(moved.error);
      return;
    }
    var subpoolState := cfg.maths.createNewSubpool(stateA.value.ToMath(), stateB.value.ToMath());
    if subpoolState.None? {
      assert r == Err(Subpools(Math));
      return;
    }
    var l2 := S.DepositShares(moved.value, cfg.protocolAccount, shareAsset, subpoolState.value.reserve);
    var o1 := O.AddAsset(c.omnipool, shareAsset,
                         O.AssetState(subpoolState.value.hubReserve, subpoolState.value.shares, subpoolState.value.protocolShares,
                                      cap, O.DEFAULT_TRADABILITY));
    if o1.Err? {
      assert r == Err(o1.error);
      return;
    }
    var detailsA := cfg.maths.calculateAssetMigrationDetails(stateA.value.ToMath(), None, 0);
    var detailsB := cfg.maths.calculateAssetMigrationDetails(stateB.value.ToMath(), None, 0);
    if detailsA.None? || detailsB.None? {
      assert r == Err(Subpools(Math));
      return;
    }
    assert r == Ok((Chain(l2, O.RemoveAsset(O.RemoveAsset(o1.value, assetA), assetB), ss2),
                    RegisterSubpool(reg, shareAsset, assetA, detailsA.value.0, assetB, detailsB.value.0)));
    // the share asset is new to the Omnipool, which holds both assets
    assert shareAsset != assetA && shareAsset != assetB;
  }

  /**
   * The ledger side of `create_subpool`: the protocol account's whole reserve
   * of each asset moves to the new pool's account, and the shares the subpool
   * starts with are minted to the protocol account.
   */
  lemma CreateSubpoolMovesReserves(cfg: Config, reg: Registry, c: Chain, shareAsset: AssetId, assetA: AssetId, assetB: AssetId,
                                   cap: nat, amplification: nat, tradeFee: nat, withdrawFee: nat)
    requires CreateSubpoolOutcome(cfg, reg, c, shareAsset, assetA, assetB, cap, amplification, tradeFee, withdrawFee).Ok?
    requires assetA != assetB
    ensures var c' := CreateSubpoolOutcome(cfg, reg, c, shareAsset, assetA, assetB, cap, amplification, tradeFee, withdrawFee).value.0;
      var acct := cfg.poolAccount(shareAsset, c'.stableswap.pools[shareAsset]);
      acct != cfg.protocolAccount ==>
        && FreeBalance(c'.ledger, assetA, cfg.protocolAccount) == 0
        && FreeBalance(c'.ledger, assetB, cfg.protocolAccount) == 0
        && FreeBalance(c'.ledger, assetA, acct) == FreeBalance(c.ledger, assetA, acct) + FreeBalance(c.ledger, assetA, cfg.protocolAccount)
        && FreeBalance(c'.ledger, assetB, acct) == FreeBalance(c.ledger, assetB, acct) + FreeBalance(c.ledger, assetB, cfg.protocolAccount)
    ensures var c' := CreateSubpoolOutcome(cfg, reg, c, shareAsset, assetA, assetB, cap, amplification, tradeFee, withdrawFee).value.0;
      var stateA := O.LoadAssetState(c.omnipool, c.ledger, cfg.protocolAccount, assetA).value;
      var stateB := O.LoadAssetState(c.omnipool, c.ledger, cfg.protocolAccount, assetB).value;
      && cfg.maths.createNewSubpool(stateA.ToMath(), stateB.ToMath()).Some?
      && var minted := cfg.maths.createNewSubpool(stateA.ToMath(), stateB.ToMath()).value.reserve;
      && FreeBalance(c'.ledger, shareAsset, cfg.protocolAccount) == FreeBalance(c.ledger, shareAsset, cfg.protocolAccount) + minted
      && TotalIssuance(c'.ledger, shareAsset) == TotalIssuance(c.ledger, shareAsset) + minted
  {
    CreateSubpoolLedger(cfg, reg, c, shareAsset, assetA, assetB, cap, amplification, tradeFee, withdrawFee);
    var c' := CreateSubpoolOutcome(cfg, reg, c, shareAsset, assetA, assetB, cap, amplification, tradeFee, withdrawFee).value.0;
    var stateA := O.LoadAssetState(c.omnipool, c.ledger, cfg.protocolAccount, assetA).value;
    var stateB := O.LoadAssetState(c.omnipool, c.ledger, cfg.protocolAccount, assetB).value;
    var p := c'.stableswap.pools[shareAsset];
    S.SeedPair(c.ledger, p, cfg.protocolAccount, cfg.poolAccount(shareAsset, p), assetA, stateA.reserve, assetB, stateB.reserve,
               shareAsset, cfg.maths.createNewSubpool(stateA.ToMath(), stateB.ToMath()).value.reserve);
  }

  /**
   * The ledger and Omnipool side of `migrate_asset_to_subpool`: the protocol
   * account's whole reserve of the asset moves to the pool's account, the
   * shares minted for it go to the protocol account, and the Omnipool's table
   * is the one the asset was removed from, as updated for the subpool.
   */
  lemma MigrateAssetMovesReserve(cfg: Config, reg: Registry, c: Chain, poolId: AssetId, assetId: AssetId)
    requires MigrateAssetOutcome(cfg, reg, c, poolId, assetId).Ok?
    requires assetId != poolId
    ensures var c' := MigrateAssetOutcome(cfg, reg, c, poolId, assetId).value.0;
      var acct := cfg.poolAccount(poolId, c'.stableswap.pools[poolId]);
      acct != cfg.protocolAccount ==>
        && FreeBalance(c'.ledger, assetId, cfg.protocolAccount) == 0
        && FreeBalance(c'.ledger, assetId, acct) == FreeBalance(c.ledger, assetId, acct) + FreeBalance(c.ledger, assetId, cfg.protocolAccount)
    ensures var c' := MigrateAssetOutcome(cfg, reg, c, poolId, assetId).value.0;
      FreeBalance(c'.ledger, poolId, cfg.protocolAccount) - FreeBalance(c.ledger, poolId, cfg.protocolAccount)
        == TotalIssuance(c'.ledger, poolId) - TotalIssuance(c.ledger, poolId)
    ensures var c' := MigrateAssetOutcome(cfg, reg, c, poolId, assetId).value.0;
      exists change :: cfg.foreign.updateAssetState(O.RemoveAsset(c.omnipool, assetId), poolId, change) == Ok(c'.omnipool)
  {
    var assetState := O.LoadAssetState(c.omnipool, c.ledger, cfg.protocolAccount, assetId).value;
    var subpoolState := O.LoadAssetState(c.omnipool, c.ledger, cfg.protocolAccount, poolId).value;
    var ss1 := S.AddAssetToExistingPool(c.stableswap, poolId, assetId).value;
    var p := ss1.pools[poolId];
    var acct := cfg.poolAccount(poolId, p);
    var liquidity := [(assetId, assetState.reserve)];
    var l1 := S.TransferAll(c.ledger, p, cfg.protocolAccount, acct, liquidity).value;
    var migration := cfg.maths.calculateAssetMigrationDetails(assetState.ToMath(), Some(subpoolState.ToMath()),
                                                              TotalIssuance(l1, poolId)).value;
    var change := migration.1.value;
    var c' := MigrateAssetOutcome(cfg, reg, c, poolId, assetId).value.0;
    assert c'.ledger == S.DepositShares(l1, cfg.protocolAccount, poolId, change.deltaReserve.amount);
    assert cfg.foreign.updateAssetState(O.RemoveAsset(c.omnipool, assetId), poolId, change) == Ok(c'.omnipool);
    assert c'.stableswap.pools[poolId] == p;
    S.TransferAllFrame(c.ledger, p, cfg.protocolAccount, acct, liquidity, poolId, cfg.protocolAccount);
    if acct != cfg.protocolAccount {
      S.TransferAllMoves(c.ledger, p, cfg.protocolAccount, acct, liquidity, 0);
    }
  }

  /** The pallet's storage and the state of the pallets it drives. */
  class Pallet {
    const cfg: Config
    var chain: Chain
    var migratedAssets: MigratedAssets
    var subpools: set<AssetId>

    predicate Valid()
      reads this
    {
      RegistryValid(Registry(migratedAssets, subpools))
    }

    /** A pallet with empty registries over the given state. */
    constructor(cfg: Config, chain: Chain)
      ensures this.cfg == cfg && this.chain == chain
      ensures migratedAssets == map[] && subpools == {}
      ensures Valid()
    {
      this.cfg := cfg;
      this.chain := chain;
      migratedAssets := map[];
      subpools := {};
    }

    /** Takes the answer of a foreign call: its new state on success, nothing on failure. */
    method Dispatch(result: Result<Chain, Error>) returns (r: Result<(), Error>)
      modifies this
      ensures migratedAssets == old(migratedAssets) && subpools == old(subpools)
      ensures Outcome(r, old(chain), chain, result)
    {
      if result.Err? {
        return Err(result.error);
      }
      chain := result.value;
      r := Ok(());
    }

    /**
     * Carries out a plan: its ledger operations one at a time, then the
     * hub-pool update; any failure restores the state the plan started from.
     */
    method Commit(plan: Plan) returns (r: Result<(), Error>)
      modifies this
      ensures migratedAssets == old(migratedAssets) && subpools == old(subpools)
      ensures Outcome(r, old(chain), chain, ApplyPlan(cfg, old(chain), plan))
    {
      var snapshot := chain;
      var i := 0;
      while i < |plan.ops|
        invariant 0 <= i <= |plan.ops|
        invariant ApplyOps(snapshot.ledger, plan.ops[..i]) == Ok(chain.ledger)
        invariant chain == snapshot.(ledger := chain.ledger)
        invariant migratedAssets == old(migratedAssets) && subpools == old(subpools)
      {
        var step := ApplyOp(chain.ledger, plan.ops[i]);
        assert plan.ops[..i + 1] == plan.ops[..i] + [plan.ops[i]];
        ApplyOpsAppend(snapshot.ledger, plan.ops[..i], [plan.ops[i]]);
        assert ApplyOps(chain.ledger, [plan.ops[i]]) == step;
        if step.Err? {
          assert plan.ops == plan.ops[..i + 1] + plan.ops[i + 1..];
          ApplyOpsAppend(snapshot.ledger, plan.ops[..i + 1], plan.ops[i + 1..]);
          chain := snapshot;
          return Err(step.error);
        }
        chain := chain.(ledger := step.value);
        i := i + 1;
      }
      assert plan.ops[..i] == plan.ops;
      var updated := ApplyUpdate(cfg, chain.omnipool, plan.update);
      if updated.Err? {
        chain := snapshot;
        return Err(updated.error);
      }
      chain := chain.(omnipool := updated.value);
      r := Ok(());
    }

    /** `resolve_sell_between_subpools` */
    method ResolveSellBetweenSubpools(who: AccountId, assetIn: AssetId, assetOut: AssetId, poolIn: AssetId, poolOut: AssetId,
                                      amountIn: nat, minLimit: nat) returns (r: Result<(), Error>)
      modifies this
      ensures migratedAssets == old(migratedAssets) && subpools == old(subpools)
      ensures Outcome(r, old(chain), chain,
                      Settle(cfg, old(chain), QuoteSellBetweenSubpools(cfg, old(chain), who, assetIn, assetOut, poolIn, poolOut, amountIn, minLimit)))
    {
      var quote := QuoteSellBetweenSubpools(cfg, chain, who, assetIn, assetOut, poolIn, poolOut, amountIn, minLimit);
      if quote.Err? {
        return Err(quote.error);
      }
      r := Commit(quote.value);
    }

    /** `resolve_buy_between_subpools` */
    method ResolveBuyBetweenSubpools(who: AccountId, assetIn: AssetId, assetOut: AssetId, poolIn: AssetId, poolOut: AssetId,
                                     amountOut: nat, maxLimit: nat) returns (r: Result<(), Error>)
      modifies this
      ensures migratedAssets == old(migratedAssets) && subpools == old(subpools)
      ensures Outcome(r, old(chain), chain,
                      Settle(cfg, old(chain), QuoteBuyBetweenSubpools(cfg, old(chain), who, assetIn, assetOut, poolIn, poolOut, amountOut, maxLimit)))
    {
      var quote := QuoteBuyBetweenSubpools(cfg, chain, who, assetIn, assetOut, poolIn, poolOut, amountOut, maxLimit);
      if quote.Err? {
        return Err(quote.error);
      }
      r := Commit(quote.value);
    }

    /** `resolve_mixed_trade_iso_out_given_stable_in` */
    method ResolveIsoOutGivenStableIn(who: AccountId, assetIn: AssetId, assetOut: AssetId, poolIn: AssetId,
                                      amountIn: nat, minLimit: nat) returns (r: Result<(), Error>)
      modifies this
      ensures migratedAssets == old(migratedAssets) && subpools == old(subpools)
      ensures Outcome(r, old(chain), chain,
                      Settle(cfg, old(chain), QuoteIsoOutGivenStableIn(cfg, old(chain), who, assetIn, assetOut, poolIn, amountIn, minLimit)))
    {
      var quote := QuoteIsoOutGivenStableIn(cfg, chain, who, assetIn, assetOut, poolIn, amountIn, minLimit);
      if quote.Err? {
        return Err(quote.error);
      }
      r := Commit(quote.value);
    }

    /** `resolve_mixed_trade_stable_out_given_asset_in`, which hands a sale of the hub asset to the hub-asset resolver */
    method ResolveStableOutGivenAssetIn(who: AccountId, assetIn: AssetId, assetOut: AssetId, poolOut: AssetId,
                                        amountIn: nat, minLimit: nat) returns (r: Result<(), Error>)
      modifies this
      ensures migratedAssets == old(migratedAssets) && subpools == old(subpools)
      ensures Outcome(r, old(chain), chain,
                      Settle(cfg, old(chain), QuoteStableOutGivenAssetIn(cfg, old(chain), who, assetIn, assetOut, poolOut, amountIn, minLimit)))
    {
      if assetIn == cfg.hubAssetId {
        r := ResolveStableOutGivenHubAssetIn(who, assetIn, assetOut, poolOut, amountIn, minLimit);
        return;
      }
      var quote := QuoteStableOutGivenAssetIn(cfg, chain, who, assetIn, assetOut, poolOut, amountIn, minLimit);
      if quote.Err? {
        return Err(quote.error);
      }
      r := Commit(quote.value);
    }

    /** `resolve_mixed_trade_stable_out_given_hub_asset_in` */
    method ResolveStableOutGivenHubAssetIn(who: AccountId, assetIn: AssetId, assetOut: AssetId, poolOut: AssetId,
                                           amountIn: nat, minLimit: nat) returns (r: Result<(), Error>)
      modifies this
      ensures migratedAssets == old(migratedAssets) && subpools == old(subpools)
      ensures Outcome(r, old(chain), chain,
                      Settle(cfg, old(chain), QuoteStableOutGivenHubAssetIn(cfg, old(chain), who, assetIn, assetOut, poolOut, amountIn, minLimit)))
    {
      var quote := QuoteStableOutGivenHubAssetIn(cfg, chain, who, assetIn, assetOut, poolOut, amountIn, minLimit);
      if quote.Err? {
        return Err(quote.error);
      }
      r := Commit(quote.value);
    }

    /** `resolve_mixed_trade_stable_in_given_asset_out` */
    method ResolveStableInGivenAssetOut(who: AccountId, assetIn: AssetId, assetOut: AssetId, poolIn: AssetId,
                                        amountOut: nat, maxLimit: nat) returns (r: Result<(), Error>)
      modifies this
      ensures migratedAssets == old(migratedAssets) && subpools == old(subpools)
      ensures Outcome(r, old(chain), chain,
                      Settle(cfg, old(chain), QuoteStableInGivenAssetOut(cfg, old(chain), who, assetIn, assetOut, poolIn, amountOut, maxLimit)))
    {
      var quote := QuoteStableInGivenAssetOut(cfg, chain, who, assetIn, assetOut, poolIn, amountOut, maxLimit);
      if quote.Err? {
        return Err(quote.error);
      }
      r := Commit(quote.value);
    }

    /** `resolve_mixed_trade_iso_in_given_stable_out`, which hands a purchase with the hub asset to the hub-asset resolver */
    method ResolveIsoInGivenStableOut(who: AccountId, assetIn: AssetId, assetOut: AssetId, poolOut: AssetId,
                                      amountOut: nat, maxLimit: nat) returns (r: Result<(), Error>)
      modifies this
      ensures migratedAssets == old(migratedAssets) && subpools == old(subpools)
      ensures Outcome(r, old(chain), chain,
                      Settle(cfg, old(chain), QuoteIsoInGivenStableOutAsWritten(cfg, old(chain), who, assetIn, assetOut, poolOut, amountOut, maxLimit)))
    {
      if assetIn == cfg.hubAssetId {
        r := ResolveHubAssetInGivenStableOut(who, assetIn, assetOut, poolOut, amountOut, maxLimit);
        return;
      }
      var quote := QuoteIsoInGivenStableOut(cfg, chain, who, assetIn, assetOut, poolOut, amountOut, maxLimit);
      if quote.Err? {
        return Err(quote.error);
      }
      r := Commit(quote.value);
    }

    /** `resolve_mixed_trade_hub_asset_in_given_stable_out`, whose slippage check compares `max_limit` with the shares burned */
    method ResolveHubAssetInGivenStableOut(who: AccountId, assetIn: AssetId, assetOut: AssetId, poolOut: AssetId,
                                           amountOut: nat, maxLimit: nat) returns (r: Result<(), Error>)
      modifies this
      ensures migratedAssets == old(migratedAssets) && subpools == old(subpools)
      ensures Outcome(r, old(chain), chain,
                      Settle(cfg, old(chain), QuoteHubAssetInGivenStableOutAsWritten(cfg, old(chain), who, assetIn, assetOut, poolOut, amountOut, maxLimit)))
    {
      var quote := QuoteHubAssetInGivenStableOutAsWritten(cfg, chain, who, assetIn, assetOut, poolOut, amountOut, maxLimit);
      if quote.Err? {
        return Err(quote.error);
      }
      r := Commit(quote.value);
    }

    /** `sell`: routes on where the two assets live. */
    method Sell(who: AccountId, assetIn: AssetId, assetOut: AssetId, amount: nat, minBuyAmount: nat) returns (r: Result<(), Error>)
      modifies this
      ensures migratedAssets == old(migratedAssets) && subpools == old(subpools)
      ensures Outcome(r, old(chain), chain, SellOutcome(cfg, old(migratedAssets), old(chain), who, assetIn, assetOut, amount, minBuyAmount))
    {
      match Classify(PoolOf(migratedAssets, assetIn), PoolOf(migratedAssets, assetOut)) {
        case HubPoolTrade =>
          r := Dispatch(cfg.foreign.omnipoolSell(chain, who, assetIn, assetOut, amount, minBuyAmount));
        case SameSubpool(pool) =>
          r := Dispatch(cfg.foreign.stableswapSell(chain, who, pool, assetIn, assetOut, amount, minBuyAmount));
        case BetweenSubpools(poolIn, poolOut) =>
          r := ResolveSellBetweenSubpools(who, assetIn, assetOut, poolIn, poolOut, amount, minBuyAmount);
        case StableToHubPool(poolIn) =>
          r := ResolveIsoOutGivenStableIn(who, assetIn, assetOut, poolIn, amount, minBuyAmount);
        case HubPoolToStable(poolOut) =>
          r := ResolveStableOutGivenAssetIn(who, assetIn, assetOut, poolOut, amount, minBuyAmount);
      }
    }

    /** `buy`: routes on where the two assets live. */
    method Buy(who: AccountId, assetOut: AssetId, assetIn: AssetId, amount: nat, maxSellAmount: nat) returns (r: Result<(), Error>)
      modifies this
      ensures migratedAssets == old(migratedAssets) && subpools == old(subpools)
      ensures Outcome(r, old(chain), chain, BuyOutcome(cfg, old(migratedAssets), old(chain), who, assetOut, assetIn, amount, maxSellAmount))
    {
      match Classify(PoolOf(migratedAssets, assetIn), PoolOf(migratedAssets, assetOut)) {
        case HubPoolTrade =>
          r := Dispatch(cfg.foreign.omnipoolBuy(chain, who, assetOut, assetIn, amount, maxSellAmount));
        case SameSubpool(pool) =>
          r := Dispatch(cfg.foreign.stableswapBuy(chain, who, pool, assetOut, assetIn, amount, maxSellAmount));
        case BetweenSubpools(poolIn, poolOut) =>
          r := ResolveBuyBetweenSubpools(who, assetIn, assetOut, poolIn, poolOut, amount, maxSellAmount);
        case StableToHubPool(poolIn) =>
          r := ResolveStableInGivenAssetOut(who, assetIn, assetOut, poolIn, amount, maxSellAmount);
        case HubPoolToStable(poolOut) =>
          r := ResolveIsoInGivenStableOut(who, assetIn, assetOut, poolOut, amount, maxSellAmount);
      }
    }

    /**
     * `add_liquidity`: a migrated asset goes into its subpool and the shares
     * minted go into the hub pool; any other asset goes into the hub pool.
     */
    method AddLiquidity(who: AccountId, assetId: AssetId, amount: nat) returns (r: Result<(), Error>)
      modifies this
      ensures migratedAssets == old(migratedAssets) && subpools == old(subpools)
      ensures assetId !in old(migratedAssets) ==>
                Outcome(r, old(chain), chain, cfg.foreign.omnipoolAddLiquidity(old(chain), who, assetId, amount))
      ensures assetId in old(migratedAssets) ==>
                var pool := old(migratedAssets)[assetId].0;
                Outcome(r, old(chain), chain,
                        match cfg.foreign.stableswapAddLiquidity(old(chain), who, pool, assetId, amount)
                        case Ok((c1, shares)) => cfg.foreign.omnipoolAddLiquidity(c1, who, pool, shares)
                        case Err(e) => Err(e))
    {
      if assetId in migratedAssets {
        var pool := migratedAssets[assetId].0;
        var snapshot := chain;
        var added := cfg.foreign.stableswapAddLiquidity(chain, who, pool, assetId, amount);
        if added.Err? {
          return Err(added.error);
        }
        chain := added.value.0;
        var shares := added.value.1;
        var result := cfg.foreign.omnipoolAddLiquidity(chain, who, pool, shares);
        if result.Err? {
          chain := snapshot;
          return Err(result.error);
        }
        chain := result.value;
        r := Ok(());
      } else {
        r := Dispatch(cfg.foreign.omnipoolAddLiquidity(chain, who, assetId, amount));
      }
    }

    /**
     * `add_liquidity_stable`: only a migrated asset is accepted; the minted
     * shares go into the hub pool when `mintNft` is set and stay with `who` otherwise.
     */
    method AddLiquidityStable(who: AccountId, assetId: AssetId, amount: nat, mintNft: bool) returns (r: Result<(), Error>)
      modifies this
      ensures migratedAssets == old(migratedAssets) && subpools == old(subpools)
      ensures assetId !in old(migratedAssets) ==> r == Err(Subpools(NotStableAsset)) && chain == old(chain)
      ensures assetId in old(migratedAssets) ==>
                var pool := old(migratedAssets)[assetId].0;
                Outcome(r, old(chain), chain,
                        match cfg.foreign.stableswapAddLiquidity(old(chain), who, pool, assetId, amount)
                        case Ok((c1, shares)) => if mintNft then cfg.foreign.omnipoolAddLiquidity(c1, who, pool, shares) else Ok(c1)
                        case Err(e) => Err(e))
    {
      if assetId !in migratedAssets {
        return Err(Subpools(NotStableAsset));
      }
      var pool := migratedAssets[assetId].0;
      var snapshot := chain;
      var added := cfg.foreign.stableswapAddLiquidity(chain, who, pool, assetId, amount);
      if added.Err? {
        return Err(added.error);
      }
      chain := added.value.0;
      if mintNft {
        var shares := added.value.1;
        var result := cfg.foreign.omnipoolAddLiquidity(chain, who, pool, shares);
        if result.Err? {
          chain := snapshot;
          return Err(result.error);
        }
        chain := result.value;
      }
      r := Ok(());
    }

    /**
     * `remove_liquidity`: converts a position of a migrated asset first, then
     * removes the liquidity from the hub pool and, for a subpool position,
     * withdraws every share `who` then holds as the named asset.
     */
    method RemoveLiquidity(who: AccountId, positionId: O.PositionId, shareAmount: nat, asset: Option<AssetId>) returns (r: Result<(), Error>)
      modifies this
      ensures migratedAssets == old(migratedAssets) && subpools == old(subpools)
      ensures Outcome(r, old(chain), chain,
                      RemoveLiquidityOutcome(cfg, Registry(old(migratedAssets), old(subpools)), old(chain), who, positionId, shareAmount, asset))
    {
      var snapshot := chain;
      var loaded := O.LoadPosition(chain.omnipool, positionId, who);
      if loaded.Err? {
        return Err(loaded.error);
      }
      var position := loaded.value;
      if position.assetId in migratedAssets {
        var converted := ConvertPosition(cfg, migratedAssets[position.assetId].0, migratedAssets[position.assetId].1, position);
        if converted.Err? {
          return Err(converted.error);
        }
        position := converted.value;
        chain := chain.(omnipool := O.SetPosition(chain.omnipool, positionId, position));
      }
      var removed := cfg.foreign.omnipoolRemoveLiquidity(chain, who, positionId, shareAmount);
      if removed.Err? {
        chain := snapshot;
        return Err(removed.error);
      }
      chain := removed.value;
      if position.assetId in subpools {
        if asset.None? {
          chain := snapshot;
          return Err(Subpools(WithdrawAssetNotSpecified));
        }
        var received := FreeBalance(chain.ledger, position.assetId, who);
        var withdrawn := cfg.foreign.stableswapRemoveLiquidityOneAsset(chain, who, position.assetId, asset.value, received);
        if withdrawn.Err? {
          chain := snapshot;
          return Err(withdrawn.error);
        }
        chain := withdrawn.value;
      }
      r := Ok(());
    }

    /**
     * `create_subpool`: moves assets `assetA` and `assetB` out of the hub pool into a new subpool.
     * The writes are made in the code's order on a working copy of the
     * state, which is stored once every step has succeeded: on an error
     * nothing is stored, as the call's transactional layer ensures.
     */
    method CreateSubpool(shareAsset: AssetId, assetA: AssetId, assetB: AssetId, cap: nat, amplification: nat,
                         tradeFee: nat, withdrawFee: nat) returns (r: Result<(), Error>)
      requires Valid()
      modifies this
      ensures Valid()
      ensures var e := CreateSubpoolOutcome(cfg, Registry(old(migratedAssets), old(subpools)), old(chain),
                                            shareAsset, assetA, assetB, cap, amplification, tradeFee, withdrawFee);
        && (r.Ok? <==> e.Ok?)
        && (e.Ok? ==> chain == e.value.0 && Registry(migratedAssets, subpools) == e.value.1)
        && (e.Err? ==> r == Err(e.error) && chain == old(chain) && migratedAssets == old(migratedAssets) && subpools == old(subpools))
    {
      ghost var expected := CreateSubpoolOutcome(cfg, Registry(migratedAssets, subpools), chain,
                                                 shareAsset, assetA, assetB, cap, amplification, tradeFee, withdrawFee);
      var work := chain;
      var stateA := O.LoadAssetState(work.omnipool, work.ledger, cfg.protocolAccount, assetA);
      if stateA.Err? {
        assert expected == Err(stateA.error);
        return Err(stateA.error);
      }
      var stateB := O.LoadAssetState(work.omnipool, work.ledger, cfg.protocolAccount, assetB);
      if stateB.Err? {
        assert expected == Err(stateB.error);
        return Err(stateB.error);
      }
      var created := CreatePoolWithFlags(work.stableswap, shareAsset, assetA, assetB, amplification, tradeFee, withdrawFee,
                                         ToStableswapTradable(stateA.value.tradable), ToStableswapTradable(stateB.value.tradable));
      if created.Err? {
        assert expected == Err(created.error);
        return Err(created.error);
      }
      var poolId := shareAsset;
      work := work.(stableswap := created.value);
      var moved := S.MoveLiquidityToPool(work.ledger, work.stableswap, cfg.poolAccount, cfg.protocolAccount, poolId,
                                         [(assetA, stateA.value.reserve), (assetB, stateB.value.reserve)]);
      if moved.Err? {
        assert expected == Err(moved.error);
        return Err(moved.error);
      }
      work := work.(ledger := moved.value);
      var subpoolState := cfg.maths.createNewSubpool(stateA.value.ToMath(), stateB.value.ToMath());
      if subpoolState.None? {
        assert expected == Err(Subpools(Math));
        return Err(Subpools(Math));
      }
      work := work.(ledger := S.DepositShares(work.ledger, cfg.protocolAccount, poolId, subpoolState.value.reserve));
      var added := O.AddAsset(work.omnipool, poolId,
                              O.AssetState(subpoolState.value.hubReserve, subpoolState.value.shares, subpoolState.value.protocolShares,
                                           cap, O.DEFAULT_TRADABILITY));
      if added.Err? {
        assert expected == Err(added.error);
        return Err(added.error);
      }
      work := work.(omnipool := added.value);
      var detailsA := cfg.maths.calculateAssetMigrationDetails(stateA.value.ToMath(), None, 0);
      if detailsA.None? {
        assert expected == Err(Subpools(Math));
        return Err(Subpools(Math));
      }
      var detailsB := cfg.maths.calculateAssetMigrationDetails(stateB.value.ToMath(), None, 0);
      if detailsB.None? {
        assert expected == Err(Subpools(Math));
        return Err(Subpools(Math));
      }
      work := work.(omnipool := O.RemoveAsset(work.omnipool, assetA));
      work := work.(omnipool := O.RemoveAsset(work.omnipool, assetB));
      var registered := RegisterSubpool(Registry(migratedAssets, subpools), poolId, assetA, detailsA.value.0, assetB, detailsB.value.0);
      migratedAssets, subpools := registered.migrated, registered.subpools;
      chain := work;
      assert expected == Ok((chain, Registry(migratedAssets, subpools)));
      r := Ok(());
    }

    /**
     * `migrate_asset_to_subpool`: moves hub-pool asset `assetId` into registered subpool `poolId`.
     * The writes are made in the code's order on a working copy of the
     * state, which is stored once every step has succeeded: on an error
     * nothing is stored, as the call's transactional layer ensures.
     */
    method MigrateAssetToSubpool(poolId: AssetId, assetId: AssetId) returns (r: Result<(), Error>)
      requires Valid()
      modifies this
      ensures Valid()
      ensures var e := MigrateAssetOutcome(cfg, Registry(old(migratedAssets), old(subpools)), old(chain), poolId, assetId);
        && (r.Ok? <==> e.Ok?)
        && (e.Ok? ==> chain == e.value.0 && Registry(migratedAssets, subpools) == e.value.1)
        && (e.Err? ==> r == Err(e.error) && chain == old(chain) && migratedAssets == old(migratedAssets) && subpools == old(subpools))
    {
      if poolId !in subpools {
        return Err(Subpools(SubpoolNotFound));
      }
      ghost var expected := MigrateAssetOutcome(cfg, Registry(migratedAssets, subpools), chain, poolId, assetId);
      var work := chain;
      var assetState := O.LoadAssetState(work.omnipool, work.ledger, cfg.protocolAccount, assetId);
      if assetState.Err? {
        assert expected == Err(assetState.error);
        return Err(assetState.error);
      }
      var subpoolState := O.LoadAssetState(work.omnipool, work.ledger, cfg.protocolAccount, poolId);
      if subpoolState.Err? {
        assert expected == Err(subpoolState.error);
        return Err(subpoolState.error);
      }
      var extended := S.AddAssetToExistingPool(work.stableswap, poolId, assetId);
      if extended.Err? {
        assert expected == Err(extended.error);
        return Err(extended.error);
      }
      work := work.(stableswap := extended.value);
      var moved := S.MoveLiquidityToPool(work.ledger, work.stableswap, cfg.poolAccount, cfg.protocolAccount, poolId,
                                         [(assetId, assetState.value.reserve)]);
      if moved.Err? {
        assert expected == Err(moved.error);
        return Err(moved.error);
      }
      work := work.(ledger := moved.value);
      work := work.(stableswap := S.SetAssetTradabilityState(work.stableswap, poolId, assetId, ToStableswapTradable(assetState.value.tradable)));
      work := work.(omnipool := O.RemoveAsset(work.omnipool, assetId));
      var shareIssuance := TotalIssuance(work.ledger, poolId);
      var migration := cfg.maths.calculateAssetMigrationDetails(assetState.value.ToMath(), Some(subpoolState.value.ToMath()), shareIssuance);
      if migration.None? || migration.value.1.None? {
        assert expected == Err(Subpools(Math));
        return Err(Subpools(Math));
      }
      var change := migration.value.1.value;
      work := work.(ledger := S.DepositShares(work.ledger, cfg.protocolAccount, poolId, change.deltaReserve.amount));
      var updated := cfg.foreign.updateAssetState(work.omnipool, poolId, change);
      if updated.Err? {
        assert expected == Err(updated.error);
        return Err(updated.error);
      }
      work := work.(omnipool := updated.value);
      chain := work;
      migratedAssets := migratedAssets[assetId := (poolId, migration.value.0)];
      assert expected == Ok((chain, Registry(migratedAssets, subpools)));
      r := Ok(());
    }
  }
}
