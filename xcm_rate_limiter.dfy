/**
 * The XCM rate limiter's deferral filter: for an incoming message it
 * accumulates the amount of the first rate-limited asset the message
 * deposits, and answers by how many relay-chain blocks to defer the message.
 */
module XcmRateLimiter {
  import opened Wrappers

  type AssetId = nat

  /** A location in the consensus universe; only its identity matters here. */
  datatype MultiLocation = MultiLocation(parents: nat, interior: seq<nat>)

  datatype XcmAssetId = Concrete(location: MultiLocation) | Abstract(key: seq<bv8>)

  datatype Fungibility = Fungible(amount: nat) | NonFungible(instance: nat)

  datatype MultiAsset = MultiAsset(id: XcmAssetId, fun: Fungibility)

  /** The instructions that carry assets, and a stand-in for all others. */
  datatype Instruction =
    | WithdrawAsset(withdrawn: seq<MultiAsset>)
    | ReserveAssetDeposited(deposited: seq<MultiAsset>)
    | ReceiveTeleportedAsset(teleported: seq<MultiAsset>)
    | ClearOrigin
    | OtherInstruction(code: nat)

  /** `AccumulatedAmount`: the decayed amount received so far and the relay block it was last updated at. */
  datatype AccumulatedAmount = AccumulatedAmount(amount: nat, lastUpdated: nat)

  /** The runtime configuration, the asset registry lookups and the two rate-limit formulas. */
  datatype LimiterConfig = LimiterConfig(
    deferDuration: nat,
    maxDeferDuration: nat,
    currencyIdConvert: MultiLocation -> Option<AssetId>,
    rateLimitFor: AssetId -> Option<nat>,
    /** (defer duration, limit, incoming amount, accumulated amount, blocks elapsed) |-> new accumulated amount */
    calculateNewAccumulatedAmount: (nat, nat, nat, nat, nat) -> nat,
    /** (defer duration, limit, accumulated amount) |-> blocks to defer */
    calculateDeferredDuration: (nat, nat, nat) -> nat)

  /** `get_loc_and_amount`: only a concrete, fungible asset has a location and an amount. */
  function GetLocAndAmount(m: MultiAsset): (r: Option<(MultiLocation, nat)>)
    ensures r.Some? <==> m.id.Concrete? && m.fun.Fungible?
    ensures r.Some? ==> r.value == (m.id.location, m.fun.amount)
  {
    match m.id
    case Concrete(location) =>
      (match m.fun
       case Fungible(amount) => Some((location, amount))
       case NonFungible(_) => None)
    case Abstract(_) => None
  }

  /** `flat_map(get_loc_and_amount)`: the located amounts of `assets`, in order. */
  function LocatedAmounts(assets: seq<MultiAsset>): (r: seq<(MultiLocation, nat)>)
    ensures |r| <= |assets|
    decreases |assets|
  {
    if assets == [] then []
    else
      var rest := LocatedAmounts(assets[1..]);
      match GetLocAndAmount(assets[0])
      case Some(x) => [x] + rest
      case None => rest
  }

  /** A single asset contributes its location and amount exactly when it is concrete and fungible. */
  lemma LocatedAmountsSingle(m: MultiAsset)
    ensures LocatedAmounts([m]) == if GetLocAndAmount(m).Some? then [GetLocAndAmount(m).value] else []
  {
    assert [m][1..] == [];
  }

  /**
   * The located amounts of a concatenation are those of its two parts, in
   * order; with `LocatedAmountsSingle` this fixes the order and multiplicity
   * of the pairs to those of the assets they come from.
   */
  lemma {:induction false} LocatedAmountsAppend(a: seq<MultiAsset>, b: seq<MultiAsset>)
    ensures LocatedAmounts(a + b) == LocatedAmounts(a) + LocatedAmounts(b)
    decreases |a|
  {
    if a == [] {
      assert a + b == b;
    } else {
      assert (a + b)[0] == a[0];
      assert (a + b)[1..] == a[1..] + b;
      LocatedAmountsAppend(a[1..], b);
    }
  }

  /** Every located amount comes from a concrete, fungible asset of the list. */
  lemma {:induction false} LocatedAmountsSound(assets: seq<MultiAsset>, k: nat)
    requires k < |LocatedAmounts(assets)|
    ensures exists j :: 0 <= j < |assets| && GetLocAndAmount(assets[j]) == Some(LocatedAmounts(assets)[k])
    decreases |assets|
  {
    var rest := LocatedAmounts(assets[1..]);
    if GetLocAndAmount(assets[0]).Some? && k == 0 {
      assert GetLocAndAmount(assets[0]) == Some(LocatedAmounts(assets)[0]);
    } else {
      var k' := if GetLocAndAmount(assets[0]).Some? then k - 1 else k;
      assert LocatedAmounts(assets)[k] == rest[k'];
      LocatedAmountsSound(assets[1..], k');
      var j :| 0 <= j < |assets[1..]| && GetLocAndAmount(assets[1..][j]) == Some(rest[k']);
      assert assets[1..][j] == assets[j + 1];
    }
  }

  /** Every concrete, fungible asset of the list contributes its location and amount. */
  lemma {:induction false} LocatedAmountsComplete(assets: seq<MultiAsset>, j: nat)
    requires j < |assets| && GetLocAndAmount(assets[j]).Some?
    ensures GetLocAndAmount(assets[j]).value in LocatedAmounts(assets)
    decreases |assets|
  {
    if j > 0 {
      assert assets[1..][j - 1] == assets[j];
      LocatedAmountsComplete(assets[1..], j - 1);
    }
  }

  /** `get_locations_and_amounts`: only deposits by reserve or by teleport count. */
  function GetLocationsAndAmounts(i: Instruction): (r: seq<(MultiLocation, nat)>)
    ensures i.ReserveAssetDeposited? ==> r == LocatedAmounts(i.deposited)
    ensures i.ReceiveTeleportedAsset? ==> r == LocatedAmounts(i.teleported)
    ensures !i.ReserveAssetDeposited? && !i.ReceiveTeleportedAsset? ==> r == []
  {
    match i
    case ReserveAssetDeposited(assets) => LocatedAmounts(assets)
    case ReceiveTeleportedAsset(assets) => LocatedAmounts(assets)
    case _ => []
  }

  /** A location with a local asset id that has a rate limit. */
  predicate Limited(cfg: LimiterConfig, loc: MultiLocation)
  {
    cfg.currencyIdConvert(loc).Some? && cfg.rateLimitFor(cfg.currencyIdConvert(loc).value).Some?
  }

  /** The index of the first limited location of `locs`. */
  function FirstLimited(cfg: LimiterConfig, locs: seq<(MultiLocation, nat)>): (r: Option<nat>)
    ensures r.Some? ==> r.value < |locs| && Limited(cfg, locs[r.value].0)
    ensures r.Some? ==> forall j :: 0 <= j < r.value ==> !Limited(cfg, locs[j].0)
    ensures r.None? ==> forall j :: 0 <= j < |locs| ==> !Limited(cfg, locs[j].0)
    decreases |locs|
  {
    if locs == [] then None
    else if Limited(cfg, locs[0].0) then Some(0)
    else
      match FirstLimited(cfg, locs[1..])
      case None => None
      case Some(k) => Some(k + 1)
  }

  /** `saturating_sub` on block numbers. */
  function SaturatingSub(a: nat, b: nat): (r: nat)
    ensures b <= a ==> r + b == a
    ensures a < b ==> r == 0
  {
    if b <= a then a - b else 0
  }

  /** The storage entry of `loc`: a missing entry reads as the default, nothing accumulated at block 0. */
  function AccumulatedIn(amounts: map<MultiLocation, AccumulatedAmount>, loc: MultiLocation): AccumulatedAmount
  {
    if loc in amounts then amounts[loc] else AccumulatedAmount(0, 0)
  }

  /** The new accumulated amount of a limited location receiving `amount` at block `now`. */
  function NewAccumulated(cfg: LimiterConfig, acc: AccumulatedAmount, loc: MultiLocation, amount: nat, now: nat): nat
    requires Limited(cfg, loc)
  {
    var limit := cfg.rateLimitFor(cfg.currencyIdConvert(loc).value).value;
    cfg.calculateNewAccumulatedAmount(cfg.deferDuration, limit, amount, acc.amount, SaturatingSub(now, acc.lastUpdated))
  }

  /** A computed deferral as answered: none when zero, else at most `MaxDeferDuration`. */
  function ClampDeferral(cfg: LimiterConfig, deferred: nat): (r: Option<nat>)
    ensures r.None? <==> deferred == 0
    ensures r.Some? ==> r.value <= cfg.maxDeferDuration && r.value <= deferred
    ensures r.Some? && cfg.maxDeferDuration > 0 ==> r.value > 0
    ensures r.Some? ==> r.value == deferred || r.value == cfg.maxDeferDuration
  {
    if deferred > 0 then Some(if deferred <= cfg.maxDeferDuration then deferred else cfg.maxDeferDuration) else None
  }

  /** The (location, amount) a message is rate-limited on: the first limited one of its first instruction. */
  function Processed(cfg: LimiterConfig, message: seq<Instruction>): (r: Option<(MultiLocation, nat)>)
    ensures message == [] ==> r.None?
    ensures r.Some? ==> Limited(cfg, r.value.0) && r.value in GetLocationsAndAmounts(message[0])
    ensures message != [] && r.None? ==> forall k :: 0 <= k < |GetLocationsAndAmounts(message[0])| ==>
              !Limited(cfg, GetLocationsAndAmounts(message[0])[k].0)
  {
    if message == [] then None
    else
      var locs := GetLocationsAndAmounts(message[0]);
      match FirstLimited(cfg, locs)
      case None => None
      case Some(k) => Some(locs[k])
  }

  /**
   * What `deferred_by` answers and what `AccumulatedAmounts` becomes;
   * `None` for the message is a message that cannot be read as version 3.
   */
  function DeferralOutcome(cfg: LimiterConfig, amounts: map<MultiLocation, AccumulatedAmount>, message: Option<seq<Instruction>>, now: nat)
    : (r: (Option<nat>, map<MultiLocation, AccumulatedAmount>))
    ensures message.None? ==> r == (Some(cfg.maxDeferDuration), amounts)
    ensures message == Some([]) ==> r == (None, amounts)
    ensures r.0.Some? ==> r.0.value <= cfg.maxDeferDuration
    ensures message.Some? && r.0.Some? && cfg.maxDeferDuration > 0 ==> r.0.value > 0
    ensures message.Some? && Processed(cfg, message.value).None? ==> r == (None, amounts)
  {
    if message.None? then (Some(cfg.maxDeferDuration), amounts)
    else
      match Processed(cfg, message.value)
      case None => (None, amounts)
      case Some((loc, amount)) =>
        var limit := cfg.rateLimitFor(cfg.currencyIdConvert(loc).value).value;
        var acc := NewAccumulated(cfg, AccumulatedIn(amounts, loc), loc, amount, now);
        (ClampDeferral(cfg, cfg.calculateDeferredDuration(cfg.deferDuration, limit, acc)),
         amounts[loc := AccumulatedAmount(acc, now)])
  }

  /** The location a message is limited on is the first limited one of its first instruction. */
  lemma ProcessedAt(cfg: LimiterConfig, message: seq<Instruction>, i: nat)
    requires message != [] && i < |GetLocationsAndAmounts(message[0])|
    requires Limited(cfg, GetLocationsAndAmounts(message[0])[i].0)
    requires forall j :: 0 <= j < i ==> !Limited(cfg, GetLocationsAndAmounts(message[0])[j].0)
    ensures Processed(cfg, message) == Some(GetLocationsAndAmounts(message[0])[i])
  {
    var locs := GetLocationsAndAmounts(message[0]);
    assert FirstLimited(cfg, locs) == Some(i);
  }

  /** The outcome of a message limited on the `i`-th location of its first instruction. */
  lemma DeferralAt(cfg: LimiterConfig, amounts: map<MultiLocation, AccumulatedAmount>, message: seq<Instruction>, i: nat, now: nat)
    requires message != [] && i < |GetLocationsAndAmounts(message[0])|
    requires Limited(cfg, GetLocationsAndAmounts(message[0])[i].0)
    requires forall j :: 0 <= j < i ==> !Limited(cfg, GetLocationsAndAmounts(message[0])[j].0)
    ensures var (loc, amount) := GetLocationsAndAmounts(message[0])[i];
      var acc := NewAccumulated(cfg, AccumulatedIn(amounts, loc), loc, amount, now);
      DeferralOutcome(cfg, amounts, Some(message), now)
        == (ClampDeferral(cfg, cfg.calculateDeferredDuration(cfg.deferDuration, cfg.rateLimitFor(cfg.currencyIdConvert(loc).value).value, acc)),
            amounts[loc := AccumulatedAmount(acc, now)])
  {
    ProcessedAt(cfg, message, i);
  }

  /** A message whose first instruction has no limited location is limited on nothing. */
  lemma NothingProcessed(cfg: LimiterConfig, message: seq<Instruction>)
    requires message != []
    requires forall j :: 0 <= j < |GetLocationsAndAmounts(message[0])| ==> !Limited(cfg, GetLocationsAndAmounts(message[0])[j].0)
    ensures Processed(cfg, message).None?
  {
  }

  /**
   * At most one entry of `AccumulatedAmounts` changes: that of the location
   * the message is limited on, which is stamped with the current block.
   * No entry is ever removed, so a location without a rate limit keeps its entry.
   */
  lemma OnlyProcessedLocationWritten(cfg: LimiterConfig, amounts: map<MultiLocation, AccumulatedAmount>,
                                     message: Option<seq<Instruction>>, now: nat)
    ensures var after := DeferralOutcome(cfg, amounts, message, now).1;
      && amounts.Keys <= after.Keys
      && forall loc :: loc in after && (loc !in amounts || after[loc] != amounts[loc]) ==>
           && message.Some? && Processed(cfg, message.value).Some?
           && Processed(cfg, message.value).value.0 == loc
           && Limited(cfg, loc)
           && after[loc].lastUpdated == now
  {
  }

  /** Only the first instruction of a message is looked at. */
  lemma OnlyFirstInstructionCounts(cfg: LimiterConfig, amounts: map<MultiLocation, AccumulatedAmount>, first: Instruction,
                                   rest: seq<Instruction>, now: nat)
    ensures DeferralOutcome(cfg, amounts, Some([first] + rest), now) == DeferralOutcome(cfg, amounts, Some([first]), now)
  {
    assert ([first] + rest)[0] == first;
  }

  /**
   * A message whose first instruction neither deposits a reserve asset nor
   * receives a teleported one is never deferred and leaves the accumulated
   * amounts as they were, whatever its other instructions do.
   */
  lemma OnlyDepositsDefer(cfg: LimiterConfig, amounts: map<MultiLocation, AccumulatedAmount>, first: Instruction,
                          rest: seq<Instruction>, now: nat)
    requires !first.ReserveAssetDeposited? && !first.ReceiveTeleportedAsset?
    ensures DeferralOutcome(cfg, amounts, Some([first] + rest), now) == (None, amounts)
  {
    OnlyFirstInstructionCounts(cfg, amounts, first, rest, now);
    assert GetLocationsAndAmounts([first][0]) == [];
  }

  /** The filter, with `AccumulatedAmounts` as its storage. */
  class RateLimiter {
    const cfg: LimiterConfig
    var accumulatedAmounts: map<MultiLocation, AccumulatedAmount>

    constructor(cfg: LimiterConfig)
      ensures this.cfg == cfg && accumulatedAmounts == map[]
    {
      this.cfg := cfg;
      accumulatedAmounts := map[];
    }

    /** `deferred_by` for `message` arriving at relay block `currentTime`. */
    method DeferredBy(message: Option<seq<Instruction>>, currentTime: nat) returns (r: Option<nat>)
      modifies this
      ensures (r, accumulatedAmounts) == DeferralOutcome(cfg, old(accumulatedAmounts), message, currentTime)
    {
      if message.None? {
        return Some(cfg.maxDeferDuration);
      }
      var xcm := message.value;
      if |xcm| == 0 {
        return None;
      }
      var locs := GetLocationsAndAmounts(xcm[0]);
      ghost var before := accumulatedAmounts;
      var i := 0;
      while i < |locs|
        invariant 0 <= i <= |locs|
        invariant forall j :: 0 <= j < i ==> !Limited(cfg, locs[j].0)
        invariant accumulatedAmounts == before
      {
        var (location, amount) := locs[i];
        var accumulated := AccumulatedIn(accumulatedAmounts, location);
        var assetId := cfg.currencyIdConvert(location);
        if assetId.None? {
          i := i + 1;
          continue;
        }
        var limit := cfg.rateLimitFor(assetId.value);
        if limit.None? {
          i := i + 1;
          continue;
        }
        var elapsed := SaturatingSub(currentTime, accumulated.lastUpdated);
        var newAmount := cfg.calculateNewAccumulatedAmount(cfg.deferDuration, limit.value, amount, accumulated.amount, elapsed);
        var deferred := cfg.calculateDeferredDuration(cfg.deferDuration, limit.value, newAmount);
        accumulatedAmounts := accumulatedAmounts[location := AccumulatedAmount(newAmount, currentTime)];
        DeferralAt(cfg, before, xcm, i, currentTime);
        return ClampDeferral(cfg, deferred);
      }
      NothingProcessed(cfg, xcm);
      r := None;
    }
  }
}
