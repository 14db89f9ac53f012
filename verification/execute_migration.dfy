/** The async executor returned by `useExecuteTridentMigration`
    (`src/features/trident/migrate/context/useExecuteTridentMigration.ts`).

    The hook's inputs (wallet connection, contracts, LP balances, selected
    migrations, the first Trident pool's supply) are one record. The wallet's
    `sendTransaction` is a parameter mapping a request to what the wallet
    answers, and the side effects (Redux dispatch, transaction store, console)
    are returned as a list of events. */
module ExecuteMigration {
  import opened Js
  import opened MigrateAction
  import Decimal
  import Seqs

  /** `USER_REJECTED_TX`: the EIP-1193 "user rejected request" code. */
  const UserRejectedTx: int := 4001

  /** What the executor closes over. `migrationContract` and `router` are the
      contracts' addresses; `lpBalances` maps LP token addresses to balances.
      `firstPoolPresent` says whether `tridentPools[0].pool` is defined, and
      `mintPreviewOk` whether its `getLiquidityMinted` (an SDK call) completes
      without throwing. */
  datatype Inputs = Inputs(
    account: Option<string>,
    hasLibrary: bool,
    migrationContract: Option<string>,
    router: Option<string>,
    lpBalances: map<string, nat>,
    selected: seq<Migration>,
    poolSupply: Option<nat>,
    firstPoolPresent: bool,
    mintPreviewOk: bool)

  /** One action of the batch sent to the migration contract. */
  datatype BatchAction =
    | ApproveSlp(router: string, permit: Permit)  // approveSLPAction({ router, signatureData })
    | MigrateCall(call: Call)                     // the encoded `migrate` call

  /** `{ from, to, data: batchAction({ contract, actions }), value }` */
  datatype TxRequest = TxRequest(from: string, to: string, actions: seq<BatchAction>, value: string)

  datatype SendError = WalletError(code: int) | OtherError
  datatype SendResult = Sent(hash: string) | SendFailed(error: SendError)

  /** Observable side effects, in the order they happen. */
  datatype Effect =
    | SetMigrationTxHash(hash: string)
    | AddTransaction(hash: string, summary: string)
    | LogError(error: SendError)

  datatype ExecError =
    | MissingDependencies  // missing dependencies
    | PoolSupplyMissing    // mo0
    | MintPreviewFailed    // thrown by getLiquidityMinted
    | MigrationFailed(error: MigrateError)

  /** What one run of the executor did: the request handed to the wallet (if
      any), the side effects, and whether the returned promise rejects. */
  datatype Execution = Execution(sent: Option<TxRequest>, effects: seq<Effect>, outcome: Outcome<ExecError>)

  /** The first guard: account, library, both contracts and a non-empty balance
      map. */
  predicate DependenciesPresent(h: Inputs)
  {
    TruthyString(h.account) && h.hasLibrary && h.migrationContract.Some? && h.router.Some?
    && h.lpBalances.Keys != {}
  }

  /** The logged `tridentPools[0].pool?.getLiquidityMinted(...)` throws: the
      optional chain skips the call when there is no first pool. */
  predicate MintPreviewThrows(h: Inputs)
  {
    h.firstPoolPresent && !h.mintPreviewOk
  }

  function LpToken(m: Migration): string
  {
    m.v2Pair.liquidityToken.address
  }

  /** `.filter((m) => m.slpPermit)` */
  predicate HasPermit(m: Migration)
  {
    m.slpPermit.Some?
  }

  /** `.map((m) => approveSLPAction({ router, signatureData: m.slpPermit }))`
      over migrations that all carry a permit. */
  function PermitApprovals(withPermit: seq<Migration>, router: string): (r: seq<BatchAction>)
    requires forall i :: 0 <= i < |withPermit| ==> HasPermit(withPermit[i])
  {
    seq(|withPermit|, i requires 0 <= i < |withPermit| && HasPermit(withPermit[i]) => ApproveSlp(router, withPermit[i].slpPermit.value))
  }

  /** Mapping distributes over concatenation. */
  lemma PermitApprovalsConcat(x: seq<Migration>, y: seq<Migration>, router: string)
    requires forall i :: 0 <= i < |x| ==> HasPermit(x[i])
    requires forall i :: 0 <= i < |y| ==> HasPermit(y[i])
    ensures PermitApprovals(x + y, router) == PermitApprovals(x, router) + PermitApprovals(y, router)
  {
  }

  /** One approval per migration that carries a permit, in selection order. */
  function ApprovalActions(selected: seq<Migration>, router: string): (r: seq<BatchAction>)
    ensures |r| == Seqs.Count(selected, HasPermit)
    ensures forall i :: 0 <= i < |r| ==>
      r[i] == ApproveSlp(router, Seqs.Filter(selected, HasPermit)[i].slpPermit.value)
  {
    PermitApprovals(Seqs.Filter(selected, HasPermit), router)
  }

  /** Approvals for a concatenated selection are the approvals for each part,
      in order. */
  lemma ApprovalActionsConcat(a: seq<Migration>, b: seq<Migration>, router: string)
    ensures ApprovalActions(a + b, router) == ApprovalActions(a, router) + ApprovalActions(b, router)
  {
    Seqs.FilterConcat(a, b, HasPermit);
    PermitApprovalsConcat(Seqs.Filter(a, HasPermit), Seqs.Filter(b, HasPermit), router);
  }

  /** A single migration yields one approval, carrying its own permit, exactly
      when it has a permit. */
  lemma ApprovalActionsSingle(m: Migration, router: string)
    ensures ApprovalActions([m], router)
            == if HasPermit(m) then [ApproveSlp(router, m.slpPermit.value)] else []
  {
  }

  /** `tridentMigrateAction(migrationContract, m, lpTokenAmounts[m.v2Pair.liquidityToken.address])`
      for every selected migration, in order. */
  function MigrateResults(h: Inputs, sdk: Migration -> SdkSteps): (r: seq<Result<Call, MigrateError>>)
    ensures |r| == |h.selected|
    ensures forall i :: 0 <= i < |r| ==>
      r[i] == BuildMigrateAction(h.selected[i], Lookup(h.lpBalances, LpToken(h.selected[i])), sdk(h.selected[i])).result
  {
    seq(|h.selected|, i requires 0 <= i < |h.selected| =>
      BuildMigrateAction(h.selected[i], Lookup(h.lpBalances, LpToken(h.selected[i])), sdk(h.selected[i])).result)
  }

  /** The transaction summary: ``Migrating ${selectedMigrations.length} LP tokens``. */
  function Summary(count: nat): string
  {
    "Migrating " + Decimal.ToDecimal(count) + " LP tokens"
  }

  /** The summary names the migration count, and nothing else varies. */
  lemma SummaryNamesCount(count: nat)
    ensures |Summary(count)| > 20
    ensures Summary(count)[..10] == "Migrating "
    ensures Summary(count)[|Summary(count)| - 10..] == " LP tokens"
    ensures
      var digits := Summary(count)[10..|Summary(count)| - 10];
      Decimal.AllDigits(digits) && Decimal.ParseDecimal(digits) == count
  {
    var s := Summary(count);
    assert s[10..|s| - 10] == Decimal.ToDecimal(count);
    Decimal.DecimalRoundTrip(count);
  }

  /** Only wallet errors other than a user rejection are logged. */
  predicate ShouldLog(e: SendError)
  {
    e.WalletError? && e.code != UserRejectedTx
  }

  /** The effects of the `try`/`catch` around the send. */
  function SendEffects(answer: SendResult, count: nat): seq<Effect>
  {
    match answer
    case Sent(hash) => [SetMigrationTxHash(hash), AddTransaction(hash, Summary(count))]
    case SendFailed(e) => if ShouldLog(e) then [LogError(e)] else []
  }

  /** The request is the one the source builds: from the account to the
      migration contract, value zero, all approvals and then one `migrate` call
      per selected migration, in selection order, each using that migration's
      own LP balance. */
  predicate WellFormedRequest(h: Inputs, req: TxRequest)
  {
    var k := Seqs.Count(h.selected, HasPermit);
    && h.account.Some? && h.migrationContract.Some? && h.router.Some?
    && req.from == h.account.value
    && req.to == h.migrationContract.value
    && req.value == "0x0"
    && |req.actions| == k + |h.selected|
    && req.actions[..k] == ApprovalActions(h.selected, h.router.value)
    && forall i :: 0 <= i < |h.selected| ==>
         && LpToken(h.selected[i]) in h.lpBalances
         && SwapFee(h.selected[i]).Some? && TwapSelection(h.selected[i]).Some?
         && req.actions[k + i].MigrateCall?
         && DecodeMigrate(req.actions[k + i].call) == Some(MigrateParams(
              LpToken(h.selected[i]), h.lpBalances[LpToken(h.selected[i])],
              SwapFee(h.selected[i]).value, TwapSelection(h.selected[i]).value, 1))
  }

  /** The returned async function, run once. */
  function Execute(h: Inputs, sdk: Migration -> SdkSteps, send: TxRequest -> SendResult): (r: Execution)
    ensures r.outcome == Fail(MissingDependencies) <==> !DependenciesPresent(h)
    ensures r.outcome == Fail(PoolSupplyMissing) <==> DependenciesPresent(h) && h.poolSupply.None?
    ensures r.outcome == Fail(MintPreviewFailed) <==>
      DependenciesPresent(h) && h.poolSupply.Some? && MintPreviewThrows(h)
    ensures r.outcome.Fail? ==> r.sent.None? && r.effects == []
    ensures r.outcome.Fail? && r.outcome.error.MigrationFailed? ==>
      exists i :: 0 <= i < |h.selected|
        && BuildMigrateAction(h.selected[i], Lookup(h.lpBalances, LpToken(h.selected[i])),
                              sdk(h.selected[i])).result == Failure(r.outcome.error.error)
    ensures r.sent.Some? <==> r.outcome.Pass?
    ensures r.sent.Some? <==>
      && DependenciesPresent(h) && h.poolSupply.Some? && !MintPreviewThrows(h)
      && forall i :: 0 <= i < |h.selected| ==>
           BuildMigrateAction(h.selected[i], Lookup(h.lpBalances, LpToken(h.selected[i])),
                              sdk(h.selected[i])).result.Success?
    ensures r.sent.Some? ==> WellFormedRequest(h, r.sent.value)
    ensures r.sent.Some? ==> r.effects == SendEffects(send(r.sent.value), |h.selected|)
  {
    if !DependenciesPresent(h) then Execution(None, [], Fail(MissingDependencies))
    else if h.poolSupply.None? then Execution(None, [], Fail(PoolSupplyMissing))
    else if MintPreviewThrows(h) then Execution(None, [], Fail(MintPreviewFailed))
    else
      var results := MigrateResults(h, sdk);
      match All(results)
      case Failure(e) => Execution(None, [], Fail(MigrationFailed(e)))
      case Success(calls) =>
        var req := AssembleRequest(h, sdk, calls);
        Execution(Some(req), SendEffects(send(req), |h.selected|), Pass)
  }

  /** The request handed to `sendTransaction`: approvals first, then the migrate calls. */
  function AssembleRequest(h: Inputs, sdk: Migration -> SdkSteps, calls: seq<Call>): (req: TxRequest)
    requires DependenciesPresent(h)
    requires All(MigrateResults(h, sdk)) == Success(calls)
    ensures WellFormedRequest(h, req)
  {
    var approvals := ApprovalActions(h.selected, h.router.value);
    var migrates := seq(|calls|, i requires 0 <= i < |calls| => MigrateCall(calls[i]));
    MigrateCallsDecode(h, sdk, calls);
    assert (approvals + migrates)[..|approvals|] == approvals;
    TxRequest(h.account.value, h.migrationContract.value, approvals + migrates, "0x0")
  }

  /** When every migrate action succeeds, the i-th call encodes the i-th
      migration with its own LP balance. */
  lemma MigrateCallsDecode(h: Inputs, sdk: Migration -> SdkSteps, calls: seq<Call>)
    requires All(MigrateResults(h, sdk)) == Success(calls)
    ensures |calls| == |h.selected|
    ensures forall i :: 0 <= i < |h.selected| ==>
      && LpToken(h.selected[i]) in h.lpBalances
      && SwapFee(h.selected[i]).Some? && TwapSelection(h.selected[i]).Some?
      && DecodeMigrate(calls[i]) == Some(MigrateParams(
           LpToken(h.selected[i]), h.lpBalances[LpToken(h.selected[i])],
           SwapFee(h.selected[i]).value, TwapSelection(h.selected[i]).value, 1))
  {
  }


  /** A selected migration without a fee or twap setting stops the executor
      before anything is sent. */
  lemma IncompleteMigrationBlocksSend(h: Inputs, sdk: Migration -> SdkSteps,
                                      send: TxRequest -> SendResult, i: nat)
    requires i < |h.selected|
    requires SwapFee(h.selected[i]).None? || TwapSelection(h.selected[i]).None?
    ensures Execute(h, sdk, send).sent.None?
    ensures Execute(h, sdk, send).effects == []
  {
  }

  /** A failed send never makes the executor reject: the promise resolves, and
      only a non-rejection wallet error leaves a log entry. */
  lemma SendFailureSwallowed(h: Inputs, sdk: Migration -> SdkSteps, send: TxRequest -> SendResult)
    ensures
      var r := Execute(h, sdk, send);
      r.sent.Some? && send(r.sent.value).SendFailed? ==>
        && r.outcome == Pass
        && var e := send(r.sent.value).error;
           r.effects == (if e.WalletError? && e.code != UserRejectedTx then [LogError(e)] else [])
  {
  }
}
