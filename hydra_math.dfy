/**
 * The interface of the numeric kernels the pallet calls. Their formulas (the
 * stable-curve solvers, the hub-pool trade formulas, the migration and
 * position-conversion formulas) are not part of this model: a `Maths` value
 * supplies them, and the model holds for every choice of them.
 */
module HydraMath {
  import opened Wrappers

  /** The reserve state of one hub-pool asset, as the kernels see it. */
  datatype AssetReserveState = AssetReserveState(reserve: nat, hubReserve: nat, shares: nat, protocolShares: nat)

  /** A signed change of a balance; `amount` is what Rust's `*update` yields. */
  datatype BalanceUpdate = Increase(amount: nat) | Decrease(amount: nat)

  datatype AssetStateChange = AssetStateChange(
    deltaReserve: BalanceUpdate,
    deltaHubReserve: BalanceUpdate,
    deltaShares: BalanceUpdate,
    deltaProtocolShares: BalanceUpdate)

  /** The effect of a hub-pool trade between two of its assets. */
  datatype TradeStateChange = TradeStateChange(
    assetIn: AssetStateChange,
    assetOut: AssetStateChange,
    deltaImbalance: BalanceUpdate,
    hdxHubAmount: nat)

  /** The effect of a hub-pool trade in which one side is the hub asset itself. */
  datatype HubTradeStateChange = HubTradeStateChange(asset: AssetStateChange, deltaImbalance: BalanceUpdate)

  /** A signed 129-bit value, kept as magnitude and sign. */
  datatype I129 = I129(value: nat, negative: bool)

  /** What is recorded about an asset when it migrates into a subpool. */
  datatype MigrationDetails = MigrationDetails(price: (nat, nat), shares: nat, hubReserve: nat, shareTokens: nat)

  /** A liquidity position as the conversion kernel sees it. */
  datatype MathPosition = MathPosition(amount: nat, shares: nat, price: (nat, nat))

  /** The kernels; each answers `None` when its arithmetic cannot be completed. */
  datatype Maths = Maths(
    /** (balances, index, amount added, amplification, share issuance) |-> shares minted */
    calculateSharesForAmount: (seq<nat>, nat, nat, nat, nat) -> Option<nat>,
    /** (balances, index, amount removed, amplification, share issuance, withdraw fee) |-> shares burned */
    calculateSharesRemoved: (seq<nat>, nat, nat, nat, nat, nat) -> Option<nat>,
    /** (balances, index, shares wanted, amplification, share issuance) |-> amount to add */
    calculateAmountToAddForShares: (seq<nat>, nat, nat, nat, nat) -> Option<nat>,
    /** (balances, shares burned, index, share issuance, amplification, withdraw fee) |-> (amount, fee) */
    calculateWithdrawOneAsset: (seq<nat>, nat, nat, nat, nat, nat) -> Option<(nat, nat)>,
    /** (state in, state out, amount in, asset fee, protocol fee, imbalance) |-> state changes */
    calculateSellStateChanges: (AssetReserveState, AssetReserveState, nat, nat, nat, nat) -> Option<TradeStateChange>,
    /** (state in, state out, amount out, asset fee, protocol fee, imbalance) |-> state changes */
    calculateBuyStateChanges: (AssetReserveState, AssetReserveState, nat, nat, nat, nat) -> Option<TradeStateChange>,
    /** (state out, hub amount in, asset fee, imbalance, hub liquidity) |-> state changes */
    calculateSellHubStateChanges: (AssetReserveState, nat, nat, I129, nat) -> Option<HubTradeStateChange>,
    /** (state out, amount out, asset fee, imbalance, hub liquidity) |-> state changes */
    calculateBuyForHubAssetStateChanges: (AssetReserveState, nat, nat, I129, nat) -> Option<HubTradeStateChange>,
    /** (state of asset a, state of asset b) |-> hub-pool state of the new share asset */
    createNewSubpool: (AssetReserveState, AssetReserveState) -> Option<AssetReserveState>,
    /** (migrated asset state, share asset state if the pool exists, share issuance) |-> details and share-state change */
    calculateAssetMigrationDetails: (AssetReserveState, Option<AssetReserveState>, nat) -> Option<(MigrationDetails, Option<AssetStateChange>)>,
    /** (old position, migration details) |-> converted position */
    convertPosition: (MathPosition, MigrationDetails) -> Option<MathPosition>)
}
