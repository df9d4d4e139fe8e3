/**
 * The parts of the stable pools (Stableswap) the subpools pallet reads and
 * writes directly: the pool table and the per-asset tradability table.
 */
module Stableswap {
  import opened Wrappers
  import opened Errors
  import opened Tokens

  /** Stableswap tradability bit flags. */
  type Tradability = bv8
  const FROZEN: Tradability := 0
  const SELL: Tradability := 1
  const BUY: Tradability := 2
  const ADD_LIQUIDITY: Tradability := 4
  const REMOVE_LIQUIDITY: Tradability := 8
  /** Every flag Stableswap defines; also the value of an unset entry. */
  const ALL_FLAGS: Tradability := 15

  predicate Contains(t: Tradability, flag: Tradability)
  {
    t & flag == flag
  }

  /** A stable pool; its id is its share asset. */
  datatype Pool = Pool(assets: seq<AssetId>, amplification: nat, tradeFee: nat, withdrawFee: nat)

  datatype StableswapState = StableswapState(
    pools: map<AssetId, Pool>,
    /** tradability per (pool id, asset) */
    tradability: map<(AssetId, AssetId), Tradability>)

  function AssetTradability(s: StableswapState, pool: AssetId, asset: AssetId): Tradability
  {
    if (pool, asset) in s.tradability then s.tradability[(pool, asset)] else ALL_FLAGS
  }

  predicate IsAssetAllowed(s: StableswapState, pool: AssetId, asset: AssetId, op: Tradability)
  {
    Contains(AssetTradability(s, pool, asset), op)
  }

  function GetPool(s: StableswapState, id: AssetId): (r: Result<Pool, Error>)
    ensures r.Ok? <==> id in s.pools
    ensures r.Ok? ==> r.value == s.pools[id]
    ensures r.Err? ==> r.error == Stableswap(PoolNotFound)
  {
    if id in s.pools then Ok(s.pools[id]) else Err(Stableswap(PoolNotFound))
  }

  /** The position of the first occurrence of `a`. */
  function IndexOf(assets: seq<AssetId>, a: AssetId): (r: Option<nat>)
    ensures r.Some? ==> r.value < |assets| && assets[r.value] == a
    ensures r.Some? ==> forall j :: 0 <= j < r.value ==> assets[j] != a
    ensures r.None? <==> a !in assets
  {
    if assets == [] then None
    else if assets[0] == a then Some(0)
    else
      match IndexOf(assets[1..], a)
      case None => None
      case Some(k) => Some(k + 1)
  }

  /** `find_asset`. */
  function FindAsset(p: Pool, a: AssetId): Option<nat>
  {
    IndexOf(p.assets, a)
  }

  /** The pool's balances, one per pool asset, held by the pool account. */
  function Balances(l: Ledger, p: Pool, account: AccountId): (r: seq<nat>)
    ensures |r| == |p.assets|
    ensures forall i :: 0 <= i < |r| ==> r[i] == FreeBalance(l, p.assets[i], account)
  {
    seq(|p.assets|, i requires 0 <= i < |p.assets| => FreeBalance(l, p.assets[i], account))
  }

  function SetAssetTradabilityState(s: StableswapState, pool: AssetId, asset: AssetId, t: Tradability): (r: StableswapState)
    ensures AssetTradability(r, pool, asset) == t
    ensures r.pools == s.pools
  {
    s.(tradability := s.tradability[(pool, asset) := t])
  }

  /** `do_create_pool`: the pool's id is its share asset; an existing id is refused. */
  function DoCreatePool(s: StableswapState, shareAsset: AssetId, assets: seq<AssetId>, amplification: nat, tradeFee: nat, withdrawFee: nat)
    : (r: Result<(AssetId, StableswapState), Error>)
    ensures r.Err? <==> shareAsset in s.pools
    ensures r.Err? ==> r.error == Stableswap(PoolExists)
    ensures r.Ok? ==> r.value.0 == shareAsset
    ensures r.Ok? ==> r.value.1 == s.(pools := s.pools[shareAsset := Pool(assets, amplification, tradeFee, withdrawFee)])
  {
    if shareAsset in s.pools then Err(Stableswap(PoolExists))
    else Ok((shareAsset, s.(pools := s.pools[shareAsset := Pool(assets, amplification, tradeFee, withdrawFee)])))
  }

  /** `add_asset_to_existing_pool`: appends the asset to the pool's asset list. */
  function AddAssetToExistingPool(s: StableswapState, pool: AssetId, asset: AssetId): (r: Result<StableswapState, Error>)
    ensures r.Err? <==> pool !in s.pools
    ensures r.Err? ==> r.error == Stableswap(PoolNotFound)
    ensures r.Ok? ==> r.value.pools.Keys == s.pools.Keys
    ensures r.Ok? ==> r.value.pools[pool].assets == s.pools[pool].assets + [asset]
    ensures r.Ok? ==> r.value.tradability == s.tradability
  {
    var p :- GetPool(s, pool);
    Ok(s.(pools := s.pools[pool := p.(assets := p.assets + [asset])]))
  }

  /** Transfers each (asset, amount) from `from` to `to`, in order; each asset must belong to the pool. */
  function TransferAll(l: Ledger, p: Pool, from: AccountId, to: AccountId, liquidity: seq<(AssetId, nat)>): (r: Result<Ledger, Error>)
    decreases |liquidity|
  {
    if liquidity == [] then Ok(l)
    else if FindAsset(p, liquidity[0].0).None? then Err(Stableswap(AssetNotInPool))
    else
      var l1 :- Transfer(l, liquidity[0].0, from, to, liquidity[0].1);
      TransferAll(l1, p, from, to, liquidity[1..])
  }

  /** `move_liquidity_to_pool`: moves the listed reserves from `from` to the pool account. */
  function MoveLiquidityToPool(l: Ledger, s: StableswapState, poolAccount: (AssetId, Pool) -> AccountId,
                               from: AccountId, pool: AssetId, liquidity: seq<(AssetId, nat)>): (r: Result<Ledger, Error>)
    ensures pool !in s.pools ==> r == Err(Stableswap(PoolNotFound))
  {
    var p :- GetPool(s, pool);
    TransferAll(l, p, from, poolAccount(pool, p), liquidity)
  }

  /** A run of transfers that succeeds leaves every balance of an asset it does not list, and every issuance, as it was. */
  lemma {:induction false} TransferAllFrame(l: Ledger, p: Pool, from: AccountId, to: AccountId, liquidity: seq<(AssetId, nat)>,
                                           b: AssetId, w: AccountId)
    requires TransferAll(l, p, from, to, liquidity).Ok?
    requires forall j :: 0 <= j < |liquidity| ==> liquidity[j].0 != b
    ensures FreeBalance(TransferAll(l, p, from, to, liquidity).value, b, w) == FreeBalance(l, b, w)
    ensures TransferAll(l, p, from, to, liquidity).value.issuance == l.issuance
    decreases |liquidity|
  {
    if liquidity != [] {
      var l1 := Transfer(l, liquidity[0].0, from, to, liquidity[0].1).value;
      TransferAllFrame(l1, p, from, to, liquidity[1..], b, w);
    }
  }

  /**
   * A run of transfers that succeeds moves the whole listed amount of an asset
   * listed once from `from` to `to`.
   */
  lemma {:induction false} TransferAllMoves(l: Ledger, p: Pool, from: AccountId, to: AccountId, liquidity: seq<(AssetId, nat)>, i: nat)
    requires from != to
    requires TransferAll(l, p, from, to, liquidity).Ok?
    requires i < |liquidity|
    requires forall j :: 0 <= j < |liquidity| && j != i ==> liquidity[j].0 != liquidity[i].0
    ensures var r := TransferAll(l, p, from, to, liquidity).value;
      && FreeBalance(r, liquidity[i].0, from) + liquidity[i].1 == FreeBalance(l, liquidity[i].0, from)
      && FreeBalance(r, liquidity[i].0, to) == FreeBalance(l, liquidity[i].0, to) + liquidity[i].1
    decreases |liquidity|
  {
    var l1 := Transfer(l, liquidity[0].0, from, to, liquidity[0].1).value;
    if i == 0 {
      TransferAllFrame(l1, p, from, to, liquidity[1..], liquidity[0].0, from);
      TransferAllFrame(l1, p, from, to, liquidity[1..], liquidity[0].0, to);
    } else {
      TransferAllMoves(l1, p, from, to, liquidity[1..], i - 1);
    }
  }

  /**
   * Seeding a pool with two distinct assets: both amounts move from `from` to
   * `to`, and the shares minted to `from` are the only change to the share asset.
   */
  lemma SeedPair(l: Ledger, p: Pool, from: AccountId, to: AccountId, a: AssetId, x: nat, b: AssetId, y: nat,
                 share: AssetId, minted: nat)
    requires a != b && share != a && share != b
    requires TransferAll(l, p, from, to, [(a, x), (b, y)]).Ok?
    ensures var l' := DepositShares(TransferAll(l, p, from, to, [(a, x), (b, y)]).value, from, share, minted);
      && FreeBalance(l', share, from) == FreeBalance(l, share, from) + minted
      && TotalIssuance(l', share) == TotalIssuance(l, share) + minted
      && (from != to ==>
            && FreeBalance(l', a, from) + x == FreeBalance(l, a, from) && FreeBalance(l', a, to) == FreeBalance(l, a, to) + x
            && FreeBalance(l', b, from) + y == FreeBalance(l, b, from) && FreeBalance(l', b, to) == FreeBalance(l, b, to) + y)
  {
    var liquidity := [(a, x), (b, y)];
    TransferAllFrame(l, p, from, to, liquidity, share, from);
    if from != to {
      TransferAllMoves(l, p, from, to, liquidity, 0);
      TransferAllMoves(l, p, from, to, liquidity, 1);
    }
  }

  /** `deposit_shares`: mints pool shares to `who`. */
  function DepositShares(l: Ledger, who: AccountId, pool: AssetId, amount: nat): Ledger
  {
    Deposit(l, pool, who, amount)
  }
}
