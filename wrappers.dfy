/** Option and Result, the failure-compatible wrappers used throughout the model. */
module Wrappers {

  datatype Option<+T> = None | Some(value: T) {
    predicate IsFailure() { None? }

    function PropagateFailure<U>(): Option<U>
      requires None?
    {
      None
    }

    function Extract(): T
      requires Some?
    {
      value
    }
  }

  /** `Result` is the model of a Rust `Result`; `:-` plays the part of `?`. */
  datatype Result<+T, +E> = Ok(value: T) | Err(error: E) {
    predicate IsFailure() { Err? }

    function PropagateFailure<U>(): Result<U, E>
      requires Err?
    {
      Err(error)
    }

    function Extract(): T
      requires Ok?
    {
      value
    }
  }

  /** Rust's `checked_sub` on unsigned integers. */
  function CheckedSub(a: nat, b: nat): (r: Option<nat>)
    ensures r.Some? <==> b <= a
    ensures r.Some? ==> r.value + b == a
  {
    if b <= a then Some(a - b) else None
  }

  /** Rust's `Option::ok_or`. */
  function OkOr<T, E>(o: Option<T>, e: E): (r: Result<T, E>)
    ensures r.Ok? <==> o.Some?
    ensures r.Ok? ==> r.value == o.value
    ensures r.Err? ==> r.error == e
  {
    match o
    case Some(v) => Ok(v)
    case None => Err(e)
  }
}

/** The dispatch errors the modelled calls can return, grouped by the pallet that declares them. */
module Errors {

  /** The errors declared by the omnipool-subpools pallet itself. */
  datatype SubpoolsError =
    | SubpoolNotFound
    | WithdrawAssetNotSpecified
    | NotStableAsset
    | Math
    | LimitExceeded
    | LimitNotReached
    | NotAllowed

  /** The Omnipool pallet errors the subpools pallet raises or receives. */
  datatype OmnipoolError = AssetNotFound | AssetAlreadyExists | NotAllowed | Forbidden | PositionNotFound

  /** The Stableswap pallet errors the subpools pallet receives. */
  datatype StableswapError = PoolNotFound | PoolExists | AssetNotInPool

  /** The token ledger's error. */
  datatype TokensError = BalanceTooLow

  datatype Error =
    | Subpools(subpools: SubpoolsError)
    | Omnipool(omnipool: OmnipoolError)
    | Stableswap(stableswap: StableswapError)
    | Tokens(tokens: TokensError)
    | ArithmeticOverflow
    /** Any other error a collaborator outside this model reports. */
    | Other(code: nat)
}
