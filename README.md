# Airnode transaction submission, modelled in Dafny

This project models `submit`, the orchestrator that sends an Airnode provider's pending
requests to the chain. The input is a provider state snapshot with pending requests
grouped by wallet index. `submit` does three things:

- For each wallet, in `Object.keys` order, it binds a contract handle to the signer
  derived from that wallet index.
- It hands every pending API call, withdrawal and wallet designation to the submitter
  for that kind, using options shared by all submissions (gas price and provider).
- It logs each submitter's messages under the config name and turns each
  `[logs, err, data]` triple into a `Receipt`.

The receipts come back as one flat list. Within a wallet the order is API calls, then
withdrawals, then wallet designations. Across wallets it follows the wallet key order.

Files:

- `wrappers.dfy` holds `Option`, which stands for JavaScript's `undefined`-able values.
- `transactions.dfy` (module `Transactions`) holds the data model and `Submit`. The
  model keeps the source's own structure: a per-kind `map` (`SubmitKind`), a per-wallet
  concatenation (`SubmitWallet`) and a `flatMap` over the wallets (`SubmitWallets`).
  The rule that turns an outcome into a receipt is `Classify`.
- `submit_properties.dfy` (module `SubmitProperties`) defines the reference order.
  `PendingRequests` is every pending request with its wallet and kind, flattened in the
  order the receipts must have. The lemmas tie each receipt, each logger call and each
  submitter call to it.

Modelling choices:

- The three submitters are network I/O, so they are total functions passed in as
  `Submitters`, one field per kind. Each `submit` call is modelled as a single call to
  the matching function.
- JavaScript truthiness is written out in `IsFailure`. An `Error` object is always
  truthy, and `data` is falsy when it is absent or `""`.
- `walletDataByIndex` is a sequence of `(index, data)` entries in `Object.keys` order.
- `Contract` is a deterministic value of the chain id, the wallet index and the provider.
- The logger calls are kept as the ghost trace `PendingLog`. The submitter invocations
  are kept as the ghost trace `SubmittedCalls`.

Two consequences of the code are worth stating:

- A receipt can carry neither data nor error. When `err` is absent and `data` is absent
  or `""`, the failure branch still sets `error: err`
  (packages/node/src/core/ethereum/transactions/index.ts:35-36). `NeitherDataNorError`
  shows this case, and `SubmitNeverBoth` proves the guarantee the code does give.
- Signer derivation (packages/node/src/core/ethereum/transactions/index.ts:25) runs
  synchronously inside the `flatMap` callback, so a throw there rejects the whole
  `submit`. The model leaves this path out (see below).

## Model

| member | source | states |
|---|---|---|
| `Transactions.Classify` | packages/node/src/core/ethereum/transactions/index.ts:35-38 | The receipt keeps the request's id and kind. Its `error` always equals the submitter's `err`. It has `data` exactly when there is no error and the data is a non-empty string, and then it is that data. |
| `Transactions.Submit` | packages/node/src/core/ethereum/transactions/index.ts:18-67 | `submit`. No contract of its own; characterised by `SubmitSpec`, `SubmitCount`, `SubmitIdsAndKinds`, `SubmitClassification`, `SubmitNeverBoth` and `SubmitEmpty`. |
| `Transactions.SubmitWallets` | packages/node/src/core/ethereum/transactions/index.ts:23 | The `flatMap` over wallet indices. No contract of its own; characterised by `SubmitWalletsFollows` and `SubmitWalletsAppend`. |
| `Transactions.SubmitWallet` | packages/node/src/core/ethereum/transactions/index.ts:24-61 | The `flatMap` callback for one wallet. No contract of its own; characterised by `SubmitWalletFollows`. |
| `Transactions.SubmitKind` | packages/node/src/core/ethereum/transactions/index.ts:32-59 | The three `.map`s over one kind's requests. No contract of its own; characterised by `SubmitKindFollows`. |
| `Transactions.Settle` | packages/node/src/core/ethereum/transactions/index.ts:33-38 | The body of one async callback: submit, log, classify. No contract of its own; characterised by `SubmitSpec`, `PendingLogSpec` and `SubmittedCallsSpec`. |
| `Transactions.Invoke` | packages/node/src/core/ethereum/transactions/index.ts:33 | Dispatch to `submitApiCall`, `submitWithdrawal` or `submitWalletDesignation` by kind (also lines 43 and 53). No contract of its own; characterised by `SubmitIndependence`. |
| `Transactions.BindContract` | packages/node/src/core/ethereum/transactions/index.ts:25-27 | The contract handle for a wallet. No contract of its own; characterised by `SubmittedCallsSpec`. |
| `Transactions.TxOptions` | packages/node/src/core/ethereum/transactions/index.ts:29 | The shared transaction options. No contract of its own; characterised by `SubmittedCallsSpec`. |
| `Transactions.PendingLog` | packages/node/src/core/ethereum/transactions/index.ts:34 | The `logPendingMessages` calls (also lines 44 and 54). No contract of its own; characterised by `PendingLogSpec`. |
| `Transactions.SubmittedCalls` | packages/node/src/core/ethereum/transactions/index.ts:33 | The submitter invocations (also lines 43 and 53). No contract of its own; characterised by `SubmittedCallsSpec`. |
| `SubmitProperties.SubmitSpec` | packages/node/src/core/ethereum/transactions/index.ts:18-67 | There is one receipt per pending request. The i-th receipt is the i-th pending request's outcome, classified. Pending requests are taken in wallet key order, then API calls, withdrawals and wallet designations, each in input order. |
| `SubmitProperties.SubmitWalletsFollows` | packages/node/src/core/ethereum/transactions/index.ts:23-62 | The flatMap over wallets makes exactly one submission per pending request, in the flattened order, each with its own kind, request, contract and options. |
| `SubmitProperties.SubmitWalletFollows` | packages/node/src/core/ethereum/transactions/index.ts:24-61 | One wallet produces its API calls' results, then its withdrawals', then its wallet designations'. All of them use the contract bound to that wallet's index. |
| `SubmitProperties.SubmitKindFollows` | packages/node/src/core/ethereum/transactions/index.ts:32-39 | Mapping one request list gives one result per request, in input order, all with the same contract and options. |
| `SubmitProperties.SubmitWalletsAppend` | packages/node/src/core/ethereum/transactions/index.ts:23 | Flattening distributes over the wallet list: every receipt of an earlier wallet comes before every receipt of a later one. |
| `SubmitProperties.SubmitCount` | packages/node/src/core/ethereum/transactions/index.ts:21-64 | The number of receipts equals the number of API calls, withdrawals and wallet designations summed over all wallets. |
| `SubmitProperties.SubmitIdsAndKinds` | packages/node/src/core/ethereum/transactions/index.ts:21-64 | The i-th receipt's id and type are the id and kind of the i-th pending request in the flattened order. |
| `SubmitProperties.SubmitClassification` | packages/node/src/core/ethereum/transactions/index.ts:35-58 | With an error, or with absent or empty data, the receipt has `error: err` and no data. Otherwise it has the data and no error. |
| `SubmitProperties.SubmitNeverBoth` | packages/node/src/core/ethereum/transactions/index.ts:35-58 | No receipt carries both data and an error. |
| `SubmitProperties.NeitherDataNorError` | packages/node/src/core/ethereum/transactions/index.ts:35-36 | With no error and absent or empty data, the receipt has neither data nor a defined error. |
| `SubmitProperties.SubmitEmpty` | packages/node/src/core/ethereum/transactions/index.ts:21-23 | No wallets, or wallets whose request lists are all empty, give an empty result. |
| `SubmitProperties.EmptyWallets` | packages/node/src/core/ethereum/transactions/index.ts:23-61 | Wallets with no requests contribute nothing to the flatMap. |
| `SubmitProperties.SubmitIndependence` | packages/node/src/core/ethereum/transactions/index.ts:32-59 | A receipt depends only on its own submission's outcome. Submitters that agree on that call give the same receipt, whatever they do on other calls. |
| `SubmitProperties.PendingLogSpec` | packages/node/src/core/ethereum/transactions/index.ts:33-54 | Each request gets exactly one `logPendingMessages` call, indexed by request, under the config name and with that request's logs, whatever the outcome. |
| `SubmitProperties.SubmittedCallsSpec` | packages/node/src/core/ethereum/transactions/index.ts:24-53 | Each submission gets the request's kind and record and the contract for the config's chain id, bound to its wallet's signer and the provider. Its options carry the snapshot's gas price and provider. |
| `SubmitProperties.PendingCount` | packages/node/src/core/ethereum/transactions/index.ts:21-23 | The flattened request list is as long as the request counts summed over all wallets. |
| `SubmitProperties.PendingMembership` | packages/node/src/core/ethereum/transactions/index.ts:23-61 | A request is in the flattened list exactly when some wallet of the snapshot holds it under that kind. |
| `SubmitProperties.WalletPendingOwned` | packages/node/src/core/ethereum/transactions/index.ts:61 | A wallet's part of the list holds exactly the requests that wallet holds, each tagged with its kind. |

## Left out

- Signer derivation and contract binding (`deriveSigningWalletFromIndex`, `connect`,
  `new ethers.Contract`, the `Airnode.addresses[chainId]` lookup) are foreign library
  calls. The contract handle is a deterministic value of chain id, wallet index and
  provider.
- The bodies of `submitApiCall`, `submitWithdrawal` and `submitWalletDesignation` are
  network I/O and are not part of this model. They are arbitrary total functions of
  (contract, request, options). So identical calls are assumed to get identical
  outcomes: two equal requests of one kind in one wallet get equal receipts, although
  a real network can answer a repeated submission differently.
- Rejections are not modelled. A derivation that throws rejects the whole `submit`,
  and so does a submitter promise that rejects and makes `Promise.all` fail.
- SubmitProperties.PendingLogSpec: the time order of the logger calls is not modelled.
  Each call follows its own request's `await`, so the calls happen in the order the
  submitter promises settle. The trace is indexed by request, not by time.
- Async scheduling and concurrency are not modelled: each submission is one function
  call, and `Promise.all` only preserves order.
- The logger's formatting and output are not modelled: only the `(name, logs)` argument
  trace is kept.
- `Error` objects are opaque values.
- The receipt treats an absent `error` property and `error: undefined` as the same
  value. The model cannot tell `{ error: undefined }` from a receipt with no `error`
  key.
- `state.gasPrice!` does nothing at run time. The options carry the snapshot's gas
  price as it is, which may be absent.
- Object keys are unique in JavaScript. The sequence of wallet entries does not enforce
  that, and nothing in `submit` depends on it.
