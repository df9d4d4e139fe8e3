/**
 * A concrete market on which the as-written slippage check of
 * `resolve_mixed_trade_hub_asset_in_given_stable_out` lets through a buy whose
 * cost is ten times the trader's `max_limit`, while the corrected check refuses it,
 * both for the resolver alone and for the `buy` call that routes to it.
 */
module HubBuyLimitCounterexample {
  import opened Wrappers
  import opened Errors
  import opened Tokens
  import O = Omnipool
  import S = Stableswap
  import opened HydraMath
  import opened Runtime
  import opened SubpoolTrades
  import opened OmnipoolSubpools

  const Hub: AssetId := 0
  const Protocol: AccountId := 1
  const Trader: AccountId := 2
  const PoolAccount: AccountId := 3
  const Pool: AssetId := 10
  const Stable: AssetId := 11

  /** Kernels that burn 1 share for the stable amount and price that share at 100 hub units. */
  function CounterexampleMaths(): Maths
  {
    Maths(
      (b, i, a, amp, iss) => None,
      (b, i, a, amp, iss, fee) => Some(1),
      (b, i, u, amp, iss) => None,
      (b, u, i, iss, amp, fee) => None,
      (x, y, a, af, pf, imb) => None,
      (x, y, a, af, pf, imb) => None,
      (x, a, af, imb, liq) => None,
      (x, u, af, imb, liq) =>
        Some(HubTradeStateChange(AssetStateChange(Decrease(1), Increase(100), Increase(0), Increase(0)), Increase(0))),
      (x, y) => None,
      (x, y, iss) => None,
      (p, d) => None)
  }

  function CounterexampleConfig(): Config
  {
    Config(Hub, Protocol, 0, 0, (id, p) => PoolAccount, CounterexampleMaths(),
      Foreign(
        (c, w, a, b, x, y) => Ok(c),
        (c, w, a, b, x, y) => Ok(c),
        (c, w, p, a, b, x, y) => Ok(c),
        (c, w, p, a, b, x, y) => Ok(c),
        (c, w, p, a, x) => Ok((c, 0)),
        (c, w, a, x) => Ok(c),
        (c, w, id, x) => Ok(c),
        (c, w, p, a, x) => Ok(c),
        (o, a, b, ch) => Ok(o),
        (o, a, ch) => Ok(o),
        (o, a, ch) => Ok(o)))
  }

  /** The trader holds 100 hub units; the pool account holds 5 of the stable asset. */
  function CounterexampleChain(): Chain
  {
    Chain(
      Ledger(map[(Hub, Trader) := 100, (Stable, PoolAccount) := 5, (Pool, Protocol) := 1], map[]),
      O.OmnipoolState(map[Pool := O.AssetState(0, 0, 0, 0, O.DEFAULT_TRADABILITY)], I129(0, false),
                      O.DEFAULT_TRADABILITY, map[], map[]),
      S.StableswapState(map[Pool := S.Pool([Stable], 100, 0, 0)], map[]))
  }

  /** The hub-asset trade `CounterexampleMaths` prices: 1 share burned, 100 hub units charged. */
  function CounterexampleChanges(): HubTradeStateChange
  {
    HubTradeStateChange(AssetStateChange(Decrease(1), Increase(100), Increase(0), Increase(0)), Increase(0))
  }

  /** The writes of the as-written buy on the counterexample market. */
  function CounterexampleOps(): seq<LedgerOp>
  {
    [TransferOp(Hub, Trader, Protocol, 100), TransferOp(Stable, PoolAccount, Trader, 5), WithdrawOp(Pool, Protocol, 1)]
  }

  /** The counterexample market loads, and its kernels price the buy at `CounterexampleChanges`. */
  lemma CounterexamplePriced()
    ensures LoadHubIn(CounterexampleConfig(), CounterexampleChain(), Hub, Stable, Pool).Ok?
    ensures LoadHubIn(CounterexampleConfig(), CounterexampleChain(), Hub, Stable, Pool).value.account == PoolAccount
    ensures HubAssetInGivenStableOutPrice(CounterexampleConfig(),
                                          LoadHubIn(CounterexampleConfig(), CounterexampleChain(), Hub, Stable, Pool).value, 5)
            == Some(CounterexampleChanges())
  {
    var c := CounterexampleChain();
    assert S.FindAsset(c.stableswap.pools[Pool], Stable) == Some(0);
  }

  /** The writes go through, and the trader's hub balance falls by 100. */
  lemma CounterexampleOpsApply()
    ensures ApplyOps(CounterexampleChain().ledger, CounterexampleOps()).Ok?
    ensures FreeBalance(ApplyOps(CounterexampleChain().ledger, CounterexampleOps()).value, Hub, Trader) + 100
            == FreeBalance(CounterexampleChain().ledger, Hub, Trader)
  {
    var ops := CounterexampleOps();
    var l0 := CounterexampleChain().ledger;
    var l1 := Transfer(l0, Hub, Trader, Protocol, 100).value;
    assert FreeBalance(l1, Stable, PoolAccount) == 5;
    var l2 := Transfer(l1, Stable, PoolAccount, Trader, 5).value;
    assert FreeBalance(l2, Pool, Protocol) == 1;
    var l3 := Withdraw(l2, Pool, Protocol, 1).value;
    assert ops[1..][1..][1..] == [];
    assert ApplyOps(l0, ops) == Ok(l3);
    assert FreeBalance(l3, Hub, Trader) == 0;
  }

  /**
   * Buying 5 of the stable asset with at most 10 hub units: the code as
   * written accepts the trade and the trader's hub balance falls by 100.
   */
  lemma HubBuyLimitChecksShareAmount()
    ensures var r := QuoteHubAssetInGivenStableOutAsWritten(CounterexampleConfig(), CounterexampleChain(), Trader, Hub, Stable, Pool, 5, 10);
      && r.Ok?
      && r.value.paid == 100
      && r.value.ops == CounterexampleOps()
      && ApplyOps(CounterexampleChain().ledger, r.value.ops).Ok?
      && FreeBalance(ApplyOps(CounterexampleChain().ledger, r.value.ops).value, Hub, Trader) + 100
         == FreeBalance(CounterexampleChain().ledger, Hub, Trader)
  {
    CounterexamplePriced();
    CounterexampleOpsApply();
  }

  /** The same buy, quoted with the limit on the hub amount charged, is refused. */
  lemma HubBuyLimitCorrected()
    ensures QuoteHubAssetInGivenStableOut(CounterexampleConfig(), CounterexampleChain(), Trader, Hub, Stable, Pool, 5, 10)
            == Err(Subpools(LimitExceeded))
  {
    CounterexamplePriced();
  }

  /** The stable asset has migrated to pool `Pool`; the hub asset has not. */
  function CounterexampleMigrated(): MigratedAssets
  {
    map[Stable := (Pool, MigrationDetails((0, 0), 0, 0, 0))]
  }

  /**
   * `buy` of 5 of the stable asset for at most 10 hub units: as written it
   * succeeds and takes 100 hub units from the trader; corrected it fails
   * with `LimitExceeded` and takes nothing.
   */
  lemma HubBuyOverspends()
    ensures var r := BuyOutcome(CounterexampleConfig(), CounterexampleMigrated(), CounterexampleChain(), Trader, Stable, Hub, 5, 10);
      && r.Ok?
      && FreeBalance(r.value.ledger, Hub, Trader) + 100 == FreeBalance(CounterexampleChain().ledger, Hub, Trader)
    ensures BuyOutcomeCorrected(CounterexampleConfig(), CounterexampleMigrated(), CounterexampleChain(), Trader, Stable, Hub, 5, 10)
            == Err(Subpools(LimitExceeded))
  {
    var cfg, m, c := CounterexampleConfig(), CounterexampleMigrated(), CounterexampleChain();
    assert Classify(PoolOf(m, Hub), PoolOf(m, Stable)) == HubPoolToStable(Pool);
    HubBuyLimitChecksShareAmount();
    HubBuyLimitCorrected();
    var q := QuoteIsoInGivenStableOutAsWritten(cfg, c, Trader, Hub, Stable, Pool, 5, 10);
    assert q == QuoteHubAssetInGivenStableOutAsWritten(cfg, c, Trader, Hub, Stable, Pool, 5, 10);
    var l := ApplyOps(c.ledger, q.value.ops).value;
    assert ApplyPlan(cfg, c, q.value) == Ok(c.(ledger := l));
  }
}
