/**
 * The multi-currency ledger both pallets move funds through: free balances per
 * (asset, account) and the total issuance per asset.
 */
module Tokens {
  import opened Wrappers
  import opened Errors

  type AssetId = nat
  type AccountId = nat

  datatype Ledger = Ledger(free: map<(AssetId, AccountId), nat>, issuance: map<AssetId, nat>)

  function FreeBalance(l: Ledger, asset: AssetId, who: AccountId): nat
  {
    if (asset, who) in l.free then l.free[(asset, who)] else 0
  }

  function TotalIssuance(l: Ledger, asset: AssetId): nat
  {
    if asset in l.issuance then l.issuance[asset] else 0
  }

  function SetFree(l: Ledger, asset: AssetId, who: AccountId, amount: nat): (r: Ledger)
    ensures FreeBalance(r, asset, who) == amount
    ensures forall a: AssetId, w: AccountId :: (a, w) != (asset, who) ==> FreeBalance(r, a, w) == FreeBalance(l, a, w)
    ensures r.issuance == l.issuance
  {
    l.(free := l.free[(asset, who) := amount])
  }

  /**
   * Moves `amount` of `asset` from `from` to `to`. A zero amount or a transfer
   * to oneself succeeds and changes nothing; otherwise the sender must hold the amount.
   */
  function Transfer(l: Ledger, asset: AssetId, from: AccountId, to: AccountId, amount: nat): (r: Result<Ledger, Error>)
    ensures r.Err? <==> amount > 0 && from != to && FreeBalance(l, asset, from) < amount
    ensures r.Err? ==> r.error == Tokens(BalanceTooLow)
    ensures r.Ok? && from == to ==> r.value == l
    ensures r.Ok? && from != to ==>
      && FreeBalance(r.value, asset, from) == FreeBalance(l, asset, from) - amount
      && FreeBalance(r.value, asset, to) == FreeBalance(l, asset, to) + amount
    ensures r.Ok? ==> forall a: AssetId, w: AccountId :: (a, w) != (asset, from) && (a, w) != (asset, to) ==>
      FreeBalance(r.value, a, w) == FreeBalance(l, a, w)
    ensures r.Ok? ==> r.value.issuance == l.issuance
  {
    if amount == 0 || from == to then Ok(l)
    else if FreeBalance(l, asset, from) < amount then Err(Tokens(BalanceTooLow))
    else
      var l1 := SetFree(l, asset, from, FreeBalance(l, asset, from) - amount);
      Ok(SetFree(l1, asset, to, FreeBalance(l1, asset, to) + amount))
  }

  /** Mints `amount` of `asset` into `to`'s free balance. */
  function Deposit(l: Ledger, asset: AssetId, to: AccountId, amount: nat): (r: Ledger)
    ensures FreeBalance(r, asset, to) == FreeBalance(l, asset, to) + amount
    ensures TotalIssuance(r, asset) == TotalIssuance(l, asset) + amount
    ensures forall a: AssetId, w: AccountId :: (a, w) != (asset, to) ==> FreeBalance(r, a, w) == FreeBalance(l, a, w)
    ensures forall a: AssetId :: a != asset ==> TotalIssuance(r, a) == TotalIssuance(l, a)
  {
    var l1 := SetFree(l, asset, to, FreeBalance(l, asset, to) + amount);
    l1.(issuance := l1.issuance[asset := TotalIssuance(l, asset) + amount])
  }

  /**
   * Burns `amount` of `asset` from `from`, who must hold it. The issuance is
   * lowered by the same amount (it cannot fall below zero while it is the sum of
   * the balances; the model stops it at zero).
   */
  function Withdraw(l: Ledger, asset: AssetId, from: AccountId, amount: nat): (r: Result<Ledger, Error>)
    ensures r.Err? <==> FreeBalance(l, asset, from) < amount
    ensures r.Err? ==> r.error == Tokens(BalanceTooLow)
    ensures r.Ok? ==> FreeBalance(r.value, asset, from) == FreeBalance(l, asset, from) - amount
    ensures r.Ok? && amount <= TotalIssuance(l, asset) ==>
      TotalIssuance(r.value, asset) == TotalIssuance(l, asset) - amount
    ensures r.Ok? ==> forall a: AssetId, w: AccountId :: (a, w) != (asset, from) ==> FreeBalance(r.value, a, w) == FreeBalance(l, a, w)
    ensures r.Ok? ==> forall a: AssetId :: a != asset ==> TotalIssuance(r.value, a) == TotalIssuance(l, a)
  {
    if amount == 0 then Ok(l)
    else if FreeBalance(l, asset, from) < amount then Err(Tokens(BalanceTooLow))
    else
      var l1 := SetFree(l, asset, from, FreeBalance(l, asset, from) - amount);
      var iss := TotalIssuance(l, asset);
      Ok(l1.(issuance := l1.issuance[asset := if iss >= amount then iss - amount else 0]))
  }

  /** One staged ledger write. */
  datatype LedgerOp =
    | TransferOp(asset: AssetId, from: AccountId, to: AccountId, amount: nat)
    | DepositOp(asset: AssetId, to: AccountId, amount: nat)
    | WithdrawOp(asset: AssetId, from: AccountId, amount: nat)

  function ApplyOp(l: Ledger, op: LedgerOp): Result<Ledger, Error>
  {
    match op
    case TransferOp(a, f, t, n) => Transfer(l, a, f, t, n)
    case DepositOp(a, t, n) => Ok(Deposit(l, a, t, n))
    case WithdrawOp(a, f, n) => Withdraw(l, a, f, n)
  }

  /** Applies the writes in order, stopping at the first that fails. */
  function ApplyOps(l: Ledger, ops: seq<LedgerOp>): Result<Ledger, Error>
    decreases |ops|
  {
    if ops == [] then Ok(l)
    else
      var l1 :- ApplyOp(l, ops[0]);
      ApplyOps(l1, ops[1..])
  }

  /** Whether `op` may change the free balance of `who` in `asset`. */
  predicate Touches(op: LedgerOp, asset: AssetId, who: AccountId)
  {
    match op
    case TransferOp(a, f, t, _) => a == asset && (f == who || t == who)
    case DepositOp(a, t, _) => a == asset && t == who
    case WithdrawOp(a, f, _) => a == asset && f == who
  }

  /** Applying `a + b` is applying `a` and then, if that succeeded, `b`. */
  lemma {:induction false} ApplyOpsAppend(l: Ledger, a: seq<LedgerOp>, b: seq<LedgerOp>)
    ensures ApplyOps(l, a + b) == match ApplyOps(l, a) { case Ok(l1) => ApplyOps(l1, b) case Err(e) => Err(e) }
    decreases |a|
  {
    if a == [] {
      assert a + b == b;
    } else {
      assert (a + b)[0] == a[0];
      assert (a + b)[1..] == a[1..] + b;
      match ApplyOp(l, a[0]) {
        case Ok(l1) => ApplyOpsAppend(l1, a[1..], b);
        case Err(_) =>
      }
    }
  }

  /** Writes that do not touch (asset, who) leave its balance as it was. */
  lemma {:induction false} ApplyOpsFrame(l: Ledger, ops: seq<LedgerOp>, asset: AssetId, who: AccountId)
    requires ApplyOps(l, ops).Ok?
    requires forall k :: 0 <= k < |ops| ==> !Touches(ops[k], asset, who)
    ensures FreeBalance(ApplyOps(l, ops).value, asset, who) == FreeBalance(l, asset, who)
    decreases |ops|
  {
    if ops != [] {
      var l1 := ApplyOp(l, ops[0]).value;
      assert !Touches(ops[0], asset, who);
      assert FreeBalance(l1, asset, who) == FreeBalance(l, asset, who);
      assert forall k :: 0 <= k < |ops[1..]| ==> ops[1..][k] == ops[k + 1];
      ApplyOpsFrame(l1, ops[1..], asset, who);
    }
  }
}
