/**
 * The parts of the hub pool (Omnipool) the subpools pallet reads and writes
 * directly: its asset table, its positions, its imbalance and the hub asset's
 * tradability.
 */
module Omnipool {
  import opened Wrappers
  import opened Errors
  import opened Tokens
  import HydraMath

  type PositionId = nat

  /** Omnipool tradability bit flags. */
  type Tradability = bv8
  const FROZEN: Tradability := 0
  const SELL: Tradability := 1
  const BUY: Tradability := 2
  const ADD_LIQUIDITY: Tradability := 4
  const REMOVE_LIQUIDITY: Tradability := 8
  /** `Tradability::default()`: every operation allowed. */
  const DEFAULT_TRADABILITY: Tradability := 15

  predicate Contains(t: Tradability, flag: Tradability)
  {
    t & flag == flag
  }

  /** What the Omnipool stores per asset; the reserve is the protocol account's balance. */
  datatype AssetState = AssetState(hubReserve: nat, shares: nat, protocolShares: nat, cap: nat, tradable: Tradability)

  /** A stored asset state joined with its reserve. */
  datatype AssetReserveState = AssetReserveState(
    reserve: nat, hubReserve: nat, shares: nat, protocolShares: nat, cap: nat, tradable: Tradability)
  {
    function ToMath(): HydraMath.AssetReserveState
    {
      HydraMath.AssetReserveState(reserve, hubReserve, shares, protocolShares)
    }
  }

  datatype Position = Position(assetId: AssetId, amount: nat, shares: nat, price: (nat, nat))

  datatype OmnipoolState = OmnipoolState(
    assets: map<AssetId, AssetState>,
    imbalance: HydraMath.I129,
    hubAssetTradable: Tradability,
    positions: map<PositionId, Position>,
    /** the owner of each position's NFT */
    owners: map<PositionId, AccountId>)

  /** `load_asset_state`: the stored state with the reserve read from the ledger. */
  function LoadAssetState(o: OmnipoolState, l: Ledger, protocolAccount: AccountId, id: AssetId): (r: Result<AssetReserveState, Error>)
    ensures r.Ok? <==> id in o.assets
    ensures r.Err? ==> r.error == Omnipool(AssetNotFound)
    ensures r.Ok? ==>
      && r.value.reserve == FreeBalance(l, id, protocolAccount)
      && r.value.hubReserve == o.assets[id].hubReserve
      && r.value.shares == o.assets[id].shares
      && r.value.tradable == o.assets[id].tradable
  {
    if id !in o.assets then Err(Omnipool(AssetNotFound))
    else
      var s := o.assets[id];
      Ok(AssetReserveState(FreeBalance(l, id, protocolAccount), s.hubReserve, s.shares, s.protocolShares, s.cap, s.tradable))
  }

  /** `add_asset`: registers a new asset; an asset already present is refused. */
  function AddAsset(o: OmnipoolState, id: AssetId, state: AssetState): (r: Result<OmnipoolState, Error>)
    ensures r.Err? <==> id in o.assets
    ensures r.Err? ==> r.error == Omnipool(AssetAlreadyExists)
    ensures r.Ok? ==> r.value == o.(assets := o.assets[id := state])
  {
    if id in o.assets then Err(Omnipool(AssetAlreadyExists)) else Ok(o.(assets := o.assets[id := state]))
  }

  /** `remove_asset`: drops the asset's entry and nothing else. */
  function RemoveAsset(o: OmnipoolState, id: AssetId): (r: OmnipoolState)
    ensures r.assets.Keys == o.assets.Keys - {id}
    ensures forall a :: a in r.assets ==> r.assets[a] == o.assets[a]
    ensures r.positions == o.positions && r.owners == o.owners && r.imbalance == o.imbalance
  {
    o.(assets := o.assets - {id})
  }

  /** `load_position`: only the owner of the position's NFT may load it. */
  function LoadPosition(o: OmnipoolState, id: PositionId, who: AccountId): (r: Result<Position, Error>)
    ensures r.Ok? <==> id in o.owners && o.owners[id] == who && id in o.positions
    ensures r.Ok? ==> r.value == o.positions[id]
    ensures r.Err? ==> r.error in {Omnipool(Forbidden), Omnipool(PositionNotFound)}
  {
    if id !in o.owners || o.owners[id] != who then Err(Omnipool(Forbidden))
    else if id !in o.positions then Err(Omnipool(PositionNotFound))
    else Ok(o.positions[id])
  }

  function SetPosition(o: OmnipoolState, id: PositionId, p: Position): (r: OmnipoolState)
    ensures r.positions == o.positions[id := p] && r.assets == o.assets && r.owners == o.owners
  {
    o.(positions := o.positions[id := p])
  }

  predicate IsHubAssetAllowed(o: OmnipoolState, op: Tradability)
  {
    Contains(o.hubAssetTradable, op)
  }
}
