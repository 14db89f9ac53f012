/** Choosing the Trident pool options for a V2 liquidity migration and encoding
    the helper contract's `migrate` call
    (`src/features/trident/migrate/context/tridentMigrateAction.ts`).

    The SDK work between the guard and the encoding (total supply lookup,
    liquidity value, pool address derivation, reserve fetch) produces nothing
    the encoded call uses; it is modelled as two opaque steps that either
    complete or throw. ABI encoding is modelled as a structured call value with
    a decoder that inverts it. */
module MigrateAction {
  import opened Js
  import Decimal

  /** A Trident fee tier: a numeric enum, falsy only when 0. */
  type Fee = int

  datatype Token = Token(address: string)

  /** The SushiSwap V2 pair being migrated out of. */
  datatype V2Pair = V2Pair(liquidityToken: Token, token0: Token, token1: Token)

  /** The options read from an existing Trident pool that matches the pair; each
      may be undefined. */
  datatype TridentPool = TridentPool(twapEnabled: Option<bool>, swapFee: Option<Fee>)

  /** The options the user picked for a pool that does not exist yet. */
  datatype PoolToCreate = PoolToCreate(twap: Option<bool>, fee: Option<Fee>)

  /** An EIP-2612 style permit signature for the V2 LP token. */
  datatype Permit = Permit(signature: string)

  /** `v2Migration` */
  datatype Migration = Migration(
    v2Pair: V2Pair,
    matchingTridentPool: Option<TridentPool>,
    poolToCreate: Option<PoolToCreate>,
    slpPermit: Option<Permit>)

  /** `migration.matchingTridentPool?.twapEnabled` */
  function PoolTwap(m: Migration): Option<bool>
  {
    match m.matchingTridentPool
    case None => None
    case Some(p) => p.twapEnabled
  }

  /** `migration.poolToCreate?.twap` */
  function CreateTwap(m: Migration): Option<bool>
  {
    match m.poolToCreate
    case None => None
    case Some(p) => p.twap
  }

  /** `migration.matchingTridentPool?.swapFee` */
  function PoolFee(m: Migration): Option<Fee>
  {
    match m.matchingTridentPool
    case None => None
    case Some(p) => p.swapFee
  }

  /** `migration.poolToCreate?.fee` */
  function CreateFee(m: Migration): Option<Fee>
  {
    match m.poolToCreate
    case None => None
    case Some(p) => p.fee
  }

  /** `getTwapSelection`: the matching pool's setting whenever it is defined,
      even when it is `false`; otherwise the pool-to-create's. */
  function TwapSelection(m: Migration): (r: Option<bool>)
    ensures PoolTwap(m).Some? ==> r == PoolTwap(m)
    ensures r.None? <==> PoolTwap(m).None? && CreateTwap(m).None?
    ensures r.Some? && r != PoolTwap(m) ==> r == CreateTwap(m)
  {
    if PoolTwap(m) != None then PoolTwap(m) else CreateTwap(m)
  }

  /** `getSwapFee`: `matchingTridentPool?.swapFee || poolToCreate?.fee`, so a
      zero fee on the matching pool falls through to the pool-to-create. */
  function SwapFee(m: Migration): (r: Option<Fee>)
    ensures TruthyNumber(PoolFee(m)) ==> r == PoolFee(m)
    ensures r.None? <==> !TruthyNumber(PoolFee(m)) && CreateFee(m).None?
    ensures r.Some? && r != PoolFee(m) ==> r == CreateFee(m)
    ensures r == Some(0) ==> CreateFee(m) == Some(0)
  {
    if TruthyNumber(PoolFee(m)) then PoolFee(m) else CreateFee(m)
  }

  /** The two selections fall back differently: a stored `false` twap flag is
      kept whatever the pool-to-create says, while a stored zero fee is always
      replaced by the pool-to-create's fee (or by `undefined`). */
  lemma FallbacksDiffer(m: Migration)
    ensures PoolTwap(m) == Some(false) ==> TwapSelection(m) == Some(false)
    ensures PoolFee(m) == Some(0) ==> SwapFee(m) == CreateFee(m)
  {
  }

  /** `a !== undefined ? a : b`, the rule `getTwapSelection` applies. */
  function DefinedOr<T>(a: Option<T>, b: Option<T>): Option<T>
  {
    if a.Some? then a else b
  }

  /** The fee's `||` agrees with the twap's defined-first rule on every
      migration except one whose matching pool stores a zero fee while the
      pool-to-create offers something other than zero. */
  lemma FeeFallbackVersusDefinedFallback(m: Migration)
    ensures SwapFee(m) == DefinedOr(PoolFee(m), CreateFee(m))
            <==> PoolFee(m) != Some(0) || CreateFee(m) == Some(0)
  {
  }

  /** One argument of an encoded contract call. */
  datatype Arg =
    | AddressArg(address: string)
    | DecimalArg(digits: string)
    | FeeArg(fee: Fee)
    | BoolArg(flag: bool)

  /** `contract.interface.encodeFunctionData(name, args)` */
  datatype Call = Call(name: string, args: seq<Arg>)

  /** What a `migrate` call carries. */
  datatype MigrateParams = MigrateParams(
    lpToken: string, amount: nat, swapFee: Fee, twapEnabled: bool, minLiquidity: nat)

  /** The helper contract's minimum-liquidity argument, a fixed literal. */
  const MinLiquidityLiteral: string := "1"

  /** The `migrate` call: LP token address, LP amount as a decimal string, swap
      fee, twap flag and the literal minimum `'1'`, in that order. */
  function EncodeMigrate(lpToken: string, amount: nat, swapFee: Fee, twapEnabled: bool): (c: Call)
    ensures c.name == "migrate" && |c.args| == 5
  {
    Call("migrate", [AddressArg(lpToken), DecimalArg(Decimal.ToDecimal(amount)), FeeArg(swapFee),
                     BoolArg(twapEnabled), DecimalArg(MinLiquidityLiteral)])
  }

  /** Reads a `migrate` call back into its parameters; `None` for any other
      call shape. */
  function DecodeMigrate(c: Call): Option<MigrateParams>
  {
    if c.name != "migrate" || |c.args| != 5 then None
    else
      match (c.args[0], c.args[1], c.args[2], c.args[3], c.args[4])
      case (AddressArg(lp), DecimalArg(amount), FeeArg(fee), BoolArg(twap), DecimalArg(min)) =>
        if Decimal.AllDigits(amount) && Decimal.AllDigits(min)
        then Some(MigrateParams(lp, Decimal.ParseDecimal(amount), fee, twap, Decimal.ParseDecimal(min)))
        else None
      case _ => None
  }

  /** Decoding an encoded `migrate` call recovers every argument, and the
      minimum is 1. */
  lemma MigrateRoundTrip(lpToken: string, amount: nat, swapFee: Fee, twapEnabled: bool)
    ensures DecodeMigrate(EncodeMigrate(lpToken, amount, swapFee, twapEnabled))
            == Some(MigrateParams(lpToken, amount, swapFee, twapEnabled, 1))
  {
    Decimal.DecimalRoundTrip(amount);
    assert Decimal.ParseDecimal(MinLiquidityLiteral) == 1 by {
      assert MinLiquidityLiteral[..0] == [];
    }
  }

  /** Whether the opaque SDK steps complete: the V2 total-supply lookup together
      with the liquidity-value computation, and the pool factory, pool contract
      and reserve fetch. */
  datatype SdkSteps = SdkSteps(supplyOk: bool, reservesOk: bool)

  /** The on-chain lookups an action performs, in order. */
  datatype ChainRead = SupplyLookup(token: string) | ReservesLookup

  datatype MigrateError =
    | MissingSwapFeeOrTwap  // Missing required swapFee or twapEnabled field
    | SupplyStepFailed
    | LpAmountMissing
    | ReservesStepFailed

  datatype ActionRun = ActionRun(lookups: seq<ChainRead>, result: Result<Call, MigrateError>)

  /** `tridentMigrateAction(contract, migration, lpTokenAmount)`. An undefined
      `lpTokenAmount` (no balance entry for the LP token) makes the liquidity
      value computation throw, after the supply lookup. */
  function BuildMigrateAction(m: Migration, lpAmount: Option<nat>, sdk: SdkSteps): (r: ActionRun)
    ensures r.result == Failure(MissingSwapFeeOrTwap) <==> SwapFee(m).None? || TwapSelection(m).None?
    ensures r.result == Failure(MissingSwapFeeOrTwap) ==> r.lookups == []
    ensures r.result.Success? <==>
      SwapFee(m).Some? && TwapSelection(m).Some? && sdk.supplyOk && lpAmount.Some? && sdk.reservesOk
    ensures r.result.Success? ==>
      DecodeMigrate(r.result.value) == Some(MigrateParams(
        m.v2Pair.liquidityToken.address, lpAmount.value, SwapFee(m).value, TwapSelection(m).value, 1))
    ensures r.result.Success? ==>
      r.lookups == [SupplyLookup(m.v2Pair.liquidityToken.address), ReservesLookup]
  {
    var fee := SwapFee(m);
    var twap := TwapSelection(m);
    if fee.None? || twap.None? then ActionRun([], Failure(MissingSwapFeeOrTwap))
    else
      var lp := m.v2Pair.liquidityToken.address;
      if !sdk.supplyOk then ActionRun([SupplyLookup(lp)], Failure(SupplyStepFailed))
      else if lpAmount.None? then ActionRun([SupplyLookup(lp)], Failure(LpAmountMissing))
      else if !sdk.reservesOk then ActionRun([SupplyLookup(lp), ReservesLookup], Failure(ReservesStepFailed))
      else
        MigrateRoundTrip(lp, lpAmount.value, fee.value, twap.value);
        ActionRun([SupplyLookup(lp), ReservesLookup],
                  Success(EncodeMigrate(lp, lpAmount.value, fee.value, twap.value)))
  }
}
