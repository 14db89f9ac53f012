# SushiSwap interface: migration, bid list and contract resolution rules

A Dafny model of the small decision and list rules inside the SushiSwap web
interface:

- **Trident migration action** (`tridentMigrateAction.ts`). This picks the
  twap flag and the swap fee for a V2-to-Trident liquidity migration. Each
  comes from the matching Trident pool or from the pool the user is about to
  create. The action refuses a migration that lacks either one, then encodes
  the helper contract's five-argument `migrate` call.
- **Migration executor** (`useExecuteTridentMigration.ts`). It checks its
  dependencies and builds one batch: an SLP approval for every migration that
  carries a permit, then one `migrate` call per migration. It sends the batch
  through the wallet. A send failure is swallowed, and is logged only when it
  is a wallet error other than a user rejection.
- **MISO auction bids tab** (`AuctionBidsTab.tsx`). This covers the table
  configuration and the "show my bids only" filter, which is case-insensitive.
  It also covers the participant count (case-sensitive distinct addresses) and
  the page count.
- **Contract resolution** (`contract.ts`). This covers choosing a provider or
  signer, the address guards of `_getContract` and `getContract`, the
  router-address lookup and the CELO router ABI switch.

Modules:

| file | module | models |
|---|---|---|
| js.dfy | `Js` | `undefined`, truthiness, thrown errors, `toLowerCase`, `Promise.all` |
| seqs.dfy | `Seqs` | `Array.prototype.filter` and `[...new Set(xs)]`, with their characterisations |
| decimal.dfy | `Decimal` | base-10 rendering of a big integer and its inverse |
| contracts.dfy | `Contracts` | `src/functions/contract.ts` |
| migrate_action.dfy | `MigrateAction` | `src/features/trident/migrate/context/tridentMigrateAction.ts` |
| execute_migration.dfy | `ExecuteMigration` | `src/features/trident/migrate/context/useExecuteTridentMigration.ts` |
| auction_bids.dfy | `AuctionBids` | `src/features/miso/AuctionTabs/AuctionBidsTab.tsx` |

External values are parameters and are not interpreted: `isAddress`, the
`ROUTER_ADDRESS` table, the wallet's `sendTransaction`, and whether each SDK
step completes. JavaScript truthiness is written out. A string is falsy only
when `undefined` or `""`. A number is falsy only when `undefined` or `0`.

Where the code and its own comments or names suggest something else, the
model follows the code:

- `getProviderOrSigner` is commented "account is optional"
  (`src/functions/contract.ts:17`), which reads as "a signer whenever an
  account is given". It tests `account ?`, so an empty account string
  selects the provider.
- `getRouterContract` on a chain with no router entry passes `undefined` to
  `_getContract`. That call throws `Invalid 'address' parameter 'undefined'.`
- `getSwapFee` yields `undefined` when the matching pool's fee is `0` and
  there is no pool to create, because `0 || undefined` is `undefined`.

## Model

| member | source | states |
|---|---|---|
| `MigrateAction.TwapSelection` | src/features/trident/migrate/context/tridentMigrateAction.ts:11-15 | a defined twap flag on the matching pool wins, even when it is `false`; the result is undefined exactly when neither the matching pool nor the pool-to-create supplies one; otherwise it is the pool-to-create's |
| `MigrateAction.SwapFee` | src/features/trident/migrate/context/tridentMigrateAction.ts:17-19 | a truthy fee on the matching pool wins; the result is undefined exactly when that fee is falsy and the pool-to-create has none; a zero result can only come from the pool-to-create |
| `MigrateAction.FallbacksDiffer` | src/features/trident/migrate/context/tridentMigrateAction.ts:11-19 | for every migration, the two fallbacks differ: a stored `false` twap flag is kept, while a stored zero fee always falls through to the pool-to-create's fee |
| `MigrateAction.FeeFallbackVersusDefinedFallback` | src/features/trident/migrate/context/tridentMigrateAction.ts:11-19 | the fee selection (`||`) agrees with a defined-value fallback like the twap selection's (`!== undefined`) exactly when the matching pool's fee is not 0 or the pool-to-create's fee is 0 |
| `MigrateAction.MigrateRoundTrip` | src/features/trident/migrate/context/tridentMigrateAction.ts:75-84 | decoding the encoded `migrate` call recovers the LP token address, the LP amount (written as a decimal string), the fee and the twap flag in that order, with the literal minimum 1 |
| `MigrateAction.BuildMigrateAction` | src/features/trident/migrate/context/tridentMigrateAction.ts:21-85 | throws the missing-field error exactly when the fee or the twap flag is undefined, and then before any supply or reserve lookup; succeeds exactly when both are defined, the SDK steps complete and the LP amount is present; the call it returns carries exactly `getSwapFee(m)` and `getTwapSelection(m)` |
| `Decimal.DecimalRoundTrip` | src/features/trident/migrate/context/tridentMigrateAction.ts:77 | `quotient.toString()` is lossless: parsing the decimal rendering of an amount gives the amount back |
| `Decimal.ToDecimal` | src/features/trident/migrate/context/tridentMigrateAction.ts:77 | an amount renders as at least one decimal digit, with no leading zero unless the amount is 0 |
| `Decimal.DecimalInjective` | src/features/trident/migrate/context/tridentMigrateAction.ts:77 | different amounts never render to the same string |
| `ExecuteMigration.Execute` | src/features/trident/migrate/context/useExecuteTridentMigration.ts:40-88 | rejects with "missing dependencies" exactly when the account, library, migration contract or router is missing or the balance map is empty; past that guard, rejects with `mo0` exactly when the pool supply is missing; past that, rejects exactly when the first Trident pool is present and its `getLiquidityMinted` throws; a failing migrate action rejects with that action's error; a transaction is sent exactly when all of these pass, and then the promise resolves whatever the wallet answers; the effects are the tx-hash dispatch then the transaction record, or one log entry for a non-rejection wallet error, or nothing |
| `ExecuteMigration.AssembleRequest` | src/features/trident/migrate/context/useExecuteTridentMigration.ts:61-79 | the request goes from the account to the migration contract with value `0x0`; its actions are the approvals followed by one `migrate` call per selected migration, in order; the i-th call encodes the i-th migration with its own LP balance |
| `ExecuteMigration.ApprovalActionsSingle` | src/features/trident/migrate/context/useExecuteTridentMigration.ts:61-63 | one migration yields exactly one approval, through the router and holding its own permit, when it carries an `slpPermit`, and none otherwise |
| `ExecuteMigration.ApprovalActionsConcat` | src/features/trident/migrate/context/useExecuteTridentMigration.ts:61-63 | the approvals of a concatenated selection are the approvals of the first part followed by those of the second, so approvals keep selection order |
| `ExecuteMigration.MigrateCallsDecode` | src/features/trident/migrate/context/useExecuteTridentMigration.ts:64-68 | when every migrate action succeeds there is one call per selected migration, and the i-th call decodes to the i-th migration's LP token, its balance, its fee and its twap flag |
| `ExecuteMigration.IncompleteMigrationBlocksSend` | src/features/trident/migrate/context/useExecuteTridentMigration.ts:64-68 | a selected migration without a fee or twap flag stops the executor before anything is sent or recorded |
| `ExecuteMigration.SendFailureSwallowed` | src/features/trident/migrate/context/useExecuteTridentMigration.ts:83-87 | a failed send never makes the executor reject; only a wallet error whose code is not `USER_REJECTED_TX` is logged |
| `ExecuteMigration.SummaryNamesCount` | src/features/trident/migrate/context/useExecuteTridentMigration.ts:82 | the transaction summary reads "Migrating N LP tokens", where N parses back to the number of selected migrations |
| `Js.All` | src/features/trident/migrate/context/useExecuteTridentMigration.ts:64-68 | `Promise.all` fulfils exactly when every element does, with the values in order; otherwise it rejects with the error of a failing element |
| `AuctionBids.TableData` | src/features/miso/AuctionTabs/AuctionBidsTab.tsx:98-103 | with the filter off, the data is the commitment list unchanged; with it on, the data is an order-preserving subsequence of own bids (lower-cased addresses equal) that misses none of them; with no account, it is empty |
| `AuctionBids.TableDataIdempotent` | src/features/miso/AuctionTabs/AuctionBidsTab.tsx:99-100 | applying the own-bids filter twice gives the same result as applying it once |
| `AuctionBids.TableDataIsTheOwnBidSubsequence` | src/features/miso/AuctionTabs/AuctionBidsTab.tsx:99-100 | any order-preserving selection of own bids that keeps as many as there are own bids is exactly the filtered data |
| `AuctionBids.OwnBidIgnoresAccountCase` | src/features/miso/AuctionTabs/AuctionBidsTab.tsx:100 | whether a bid is the account's own depends only on the lower-cased account, so any spelling of the connected address selects the same bids |
| `AuctionBids.ParticipantCount` | src/features/miso/AuctionTabs/AuctionBidsTab.tsx:127 | the participant count is the number of distinct raw addresses across all commitments; it is at most the number of commitments and at least 1 when there is any |
| `AuctionBids.ParticipantsCaseSensitive` | src/features/miso/AuctionTabs/AuctionBidsTab.tsx:100-127 | for any commitments, two different spellings of the connected account's address both stay in the own-bids table and count as at least two participants |
| `AuctionBids.TotalPages` | src/features/miso/AuctionTabs/AuctionBidsTab.tsx:206 | the page count is the ceiling of rows over page size (the fewest pages that hold all rows), and it is 0 exactly when there are no rows |
| `AuctionBids.ViewBids` | src/features/miso/AuctionTabs/AuctionBidsTab.tsx:94-212 | participants are counted over all commitments whatever the filter; the table shows exactly the own-bids-filtered data (or all commitments with the switch off), with page size 10; the page count covers the data and is 0 exactly when the data is empty |
| `AuctionBids.ParticipantsIgnoreFilter` | src/features/miso/AuctionTabs/AuctionBidsTab.tsx:127 | the participant count does not depend on the switch or on the account |
| `AuctionBids.CommitmentTableConfig` | src/features/miso/AuctionTabs/AuctionBidsTab.tsx:16-87 | there are no columns exactly when `chainId` is falsy; otherwise the columns are address, amount, blockNumber and txHash in that order; data defaults to `[]`; page size is 10; the initial sort is blockNumber descending; filters do not auto-reset |
| `AuctionBids.InitialSortNamesAColumn` | src/features/miso/AuctionTabs/AuctionBidsTab.tsx:21-80 | whenever the table has columns, the single initial sort key names one of them and is descending |
| `Contracts.ProviderOrSigner` | src/functions/contract.ts:13-20 | the result is a signer for the account (`getSigner`) exactly when the account is truthy, otherwise the provider; it always uses the given library |
| `Contracts.ResolveContract` | src/functions/contract.ts:23-28 | throws `Invalid 'address'` exactly when the address fails `isAddress` or is the zero address; otherwise the contract has that address and ABI and runs on the provider or signer for the account |
| `Contracts.GetContract` | src/functions/contract.ts:30-39 | the result is null exactly when the address is missing, empty or zero, the ABI or library is missing, or `_getContract` would throw; it never throws; it signs only when `withSignerIfPossible` is set and the store holds a truthy account |
| `Contracts.GetContractAgreesWithResolve` | src/functions/contract.ts:32-38 | past its own checks, `getContract` returns exactly what `_getContract` returns, and null where `_getContract` throws |
| `Contracts.RouterAddress` | src/functions/contract.ts:41-46 | throws exactly when the chain id is falsy; otherwise the result is the router table's entry for the chain, or undefined when it has none |
| `Contracts.RouterContractAgreesWithGetContract` | src/functions/contract.ts:30-58 | for a chain with a non-empty router entry, `getRouterContract` yields a contract exactly when `getContract` on the same address and ABI, with the signer wanted and the same wallet in the store, returns one, and it is the same contract |
| `Contracts.RouterContract` | src/functions/contract.ts:51-58 | a zero chain id throws the chain-id error; the result is a contract exactly when the chain has a router entry that passes the address guard; that contract sits at the router address and uses the no-ETH ABI exactly on CELO |
| `Js.Lower` | src/features/miso/AuctionTabs/AuctionBidsTab.tsx:100 | lower-casing keeps the length, maps each character independently and leaves no upper-case ASCII letter |

## Left out

- The SDK work in `tridentMigrateAction` is not modelled as computation. This is the total-supply lookup, `getLiquidityValue`, `computeConstantProductPoolAddress`, the pool factory lookup and `getReserves`. Their results are unused or come from libraries outside this repository. `getReserves()` (tridentMigrateAction.ts:58 and :69) is called on a contract built at the pool factory's address `cppFactory!.address` with the pool ABI, not at the computed `tridentPoolAddress`, which is never used; `reservesOk` abstracts that call to the factory address, so whether it completes is left open. Each is an opaque step that completes or throws (`SdkSteps`), so the model records only where a failure stops the action.
- `BuildMigrateAction`: a missing LP amount is modelled as throwing right after the supply lookup. The exact SDK call that throws on `undefined` lives in a library outside this repository.
- The `contract` argument of `tridentMigrateAction` is not modelled, because it only provides the ABI for encoding. ABI encoding and `batchAction` encoding are structured values, not byte strings.
- `Js.All`: when several migrate actions fail at once, which rejection `Promise.all` reports depends on timing. The model reports the first failing migration in selection order, and `Execute` states only that the error is one of the failing actions' errors.
- The value the executor's `getLiquidityMinted` computes is left out, because it is only logged. Whether that SDK call throws is an input (`mintPreviewOk`), since a throw there rejects the executor before any action is built.
- The hook body that computes `tridentPools` and `tridentPoolSupply` is left out. It is React and multicall plumbing. The executor receives the supply as an input.
- The wallet's `sendTransaction` is a parameter, and so is the address validator `isAddress`. The SDK's `ROUTER_ADDRESS` table is a parameter as well. `i18n` translation of the summary is taken as the identity.
- `USER_REJECTED_TX` is taken to be 4001, the "user rejected request" code of EIP-1193. The module that defines it is not part of this model.
- `Js.Lower`: `toLowerCase` is modelled for ASCII letters only. Addresses are hexadecimal, so this covers every case the filter meets.
- `AuctionBids.TotalPages`: it requires a positive page size. The tab never changes the page size from its initial 10, so a zero page size cannot arise (in JavaScript it would give `Infinity` or `NaN`). `Math.ceil` over floating point is modelled as exact integer ceiling division.
- React rendering is left out, including the column `Cell` renderers, explorer links and address shortening. So are react-table's sorting and pagination internals and `useMemo` caching.
- `Contracts.RouterContract`: a chain with no router entry is modelled as failing the address guard, which takes `isAddress(undefined)` to be false. The validator that decides this (`src/functions/validate.ts`) is not part of this model.
- The console logging inside `getContract` is not modelled as an event. It has no effect on the result.
