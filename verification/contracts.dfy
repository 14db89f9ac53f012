/** Contract and router resolution (`src/functions/contract.ts`).

    The address validator `isAddress`, the SDK's `ROUTER_ADDRESS` table and the
    wallet connection held in the application store are parameters; an ethers
    `Contract` is represented by the three things it is built from. */
module Contracts {
  import opened Js

  /** `AddressZero` from `@ethersproject/constants`. */
  const AddressZero: string := "0x0000000000000000000000000000000000000000"

  /** `ChainId.CELO` */
  const Celo: int := 42220

  /** A `Web3Provider`, identified by an opaque tag. */
  datatype Library = Library(id: nat)

  /** What a contract sends calls through: the bare provider (read-only) or an
      unchecked signer for one account. */
  datatype Runner = Provider(library: Library) | Signer(library: Library, account: string)

  /** A contract ABI, identified by name. */
  datatype Abi = Abi(name: string)

  const RouterAbi: Abi := Abi("IUniswapV2Router02")
  const RouterNoEthAbi: Abi := Abi("IUniswapV2Router02NoETH")

  /** `new Contract(address, ABI, runner)` */
  datatype Contract = Contract(address: string, abi: Abi, runner: Runner)

  datatype ContractError =
    | InvalidAddress(address: string)  // Invalid 'address' parameter '<address>'.
    | UndefinedChainId                 // Undefined 'chainId' parameter '<chainId>'.

  /** `store.getState().web3Context` */
  datatype Web3Context = Web3Context(account: Option<string>, library: Option<Library>)

  /** `getSigner(library, account)`: `library.getSigner(account).connectUnchecked()`. */
  function GetSigner(library: Library, account: string): (r: Runner)
    ensures r.Signer? && r.library == library && r.account == account
  {
    Signer(library, account)
  }

  /** `getProviderOrSigner`: a signer exactly when the account is truthy, so an
      empty account string selects the provider. */
  function ProviderOrSigner(library: Library, account: Option<string>): (r: Runner)
    ensures r.library == library
    ensures r.Signer? <==> TruthyString(account)
    ensures r.Signer? ==> r.account == account.value
  {
    if TruthyString(account) then GetSigner(library, account.value) else Provider(library)
  }

  /** The guard of `_getContract`: the address must pass `isAddress` and must not
      be the zero address. */
  predicate AcceptableAddress(address: string, isAddress: string -> bool)
  {
    isAddress(address) && address != AddressZero
  }

  /** `_getContract`: throws on an address that fails the guard, otherwise builds
      the contract on the provider or signer for `account`. */
  function ResolveContract(address: string, abi: Abi, library: Library, account: Option<string>,
                           isAddress: string -> bool): (r: Result<Contract, ContractError>)
    ensures r.Failure? <==> !isAddress(address) || address == AddressZero
    ensures r.Failure? ==> r.error == InvalidAddress(address)
    ensures r.Success? ==> r.value.address == address && r.value.abi == abi
    ensures r.Success? ==> r.value.runner.library == library
    ensures r.Success? ==> (r.value.runner.Signer? <==> TruthyString(account))
    ensures r.Success? ==> r.value.runner == ProviderOrSigner(library, account)
  {
    if !AcceptableAddress(address, isAddress) then Failure(InvalidAddress(address))
    else Success(Contract(address, abi, ProviderOrSigner(library, account)))
  }

  /** The account `getContract` hands to `_getContract`:
      `withSignerIfPossible && account ? account : undefined`. */
  function SignerAccount(withSignerIfPossible: bool, account: Option<string>): Option<string>
  {
    if withSignerIfPossible && TruthyString(account) then account else None
  }

  /** `getContract`: `null` for a missing or zero address, a missing ABI or a
      missing library, and `null` (after logging) whenever `_getContract` throws;
      it never throws itself. */
  function GetContract(address: Option<string>, abi: Option<Abi>, withSignerIfPossible: bool,
                       ctx: Web3Context, isAddress: string -> bool): (r: Option<Contract>)
    ensures r.Some? <==>
      && TruthyString(address) && address.value != AddressZero
      && abi.Some? && ctx.library.Some?
      && isAddress(address.value)
    ensures r.Some? ==> r.value.address == address.value && r.value.abi == abi.value
    ensures r.Some? ==> r.value.runner.library == ctx.library.value
    ensures r.Some? ==>
      (r.value.runner.Signer? <==> withSignerIfPossible && TruthyString(ctx.account))
    ensures r.Some? && r.value.runner.Signer? ==> r.value.runner.account == ctx.account.value
  {
    if !TruthyString(address) || address.value == AddressZero || abi.None? || ctx.library.None? then None
    else
      match ResolveContract(address.value, abi.value, ctx.library.value,
                            SignerAccount(withSignerIfPossible, ctx.account), isAddress)
      case Success(c) => Some(c)
      case Failure(_) => None
  }

  /** `getContract` and `_getContract` agree: whenever `getContract` gets past its
      own checks, it yields a contract exactly when `_getContract` does not throw,
      and the same contract. */
  lemma GetContractAgreesWithResolve(address: string, abi: Abi, withSignerIfPossible: bool,
                                     ctx: Web3Context, isAddress: string -> bool)
    requires address != "" && ctx.library.Some?
    ensures
      var resolved := ResolveContract(address, abi, ctx.library.value,
                                      SignerAccount(withSignerIfPossible, ctx.account), isAddress);
      GetContract(Some(address), Some(abi), withSignerIfPossible, ctx, isAddress)
        == (if resolved.Success? then Some(resolved.value) else None)
  {
  }

  /** `getRouterAddress`: throws on a falsy chain id, otherwise looks the chain up
      in the router table (which may have no entry for it). */
  function RouterAddress(chainId: Option<int>, routers: map<int, string>): (r: Result<Option<string>, ContractError>)
    ensures r.Failure? <==> !TruthyNumber(chainId)
    ensures r.Failure? ==> r.error == UndefinedChainId
    ensures r.Success? ==> (r.value.Some? <==> chainId.value in routers)
    ensures r.Success? && r.value.Some? ==> r.value.value == routers[chainId.value]
  {
    if !TruthyNumber(chainId) then Failure(UndefinedChainId)
    else Success(Lookup(routers, chainId.value))
  }

  /** `getRouterContract`: the router for `chainId`, with the no-ETH ABI on CELO.
      A chain with no router entry passes `undefined` to `_getContract`, which
      rejects it because `isAddress(undefined)` is false. */
  function RouterContract(chainId: int, library: Library, account: Option<string>,
                          routers: map<int, string>, isAddress: string -> bool): (r: Result<Contract, ContractError>)
    ensures chainId == 0 ==> r == Failure(UndefinedChainId)
    ensures r.Success? <==>
      chainId != 0 && chainId in routers && AcceptableAddress(routers[chainId], isAddress)
    ensures r.Success? ==> r.value.address == routers[chainId]
    ensures r.Success? ==> (r.value.abi == RouterNoEthAbi <==> chainId == Celo)
    ensures r.Success? ==> r.value.abi in {RouterAbi, RouterNoEthAbi}
    ensures r.Success? ==> (r.value.runner.Signer? <==> TruthyString(account))
  {
    match RouterAddress(Some(chainId), routers)
    case Failure(e) => Failure(e)
    case Success(None) => Failure(InvalidAddress("undefined"))
    case Success(Some(address)) =>
      ResolveContract(address, if chainId != Celo then RouterAbi else RouterNoEthAbi,
                      library, account, isAddress)
  }

  /** The throwing and the null-returning resolution agree on a router: for a
      chain with a non-empty router entry, `getRouterContract` succeeds exactly
      when `getContract` on that address and ABI (with the signer wanted and the
      same wallet in the store) returns a contract, and both give the same
      contract. */
  lemma RouterContractAgreesWithGetContract(chainId: int, library: Library, account: Option<string>,
                                            routers: map<int, string>, isAddress: string -> bool)
    requires chainId != 0 && chainId in routers && routers[chainId] != ""
    ensures
      var abi := if chainId == Celo then RouterNoEthAbi else RouterAbi;
      var thrown := RouterContract(chainId, library, account, routers, isAddress);
      var nullable := GetContract(Some(routers[chainId]), Some(abi), true,
                                  Web3Context(account, Some(library)), isAddress);
      (thrown.Success? <==> nullable.Some?)
      && (thrown.Success? ==> thrown.value == nullable.value)
  {
  }
}
