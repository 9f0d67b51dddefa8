/**
 * The transaction-submission orchestrator: `submit` fans the pending requests of
 * every wallet out to the kind-specific submitters and turns each submitter's
 * `(logs, err, data)` triple into a `Receipt`.
 *
 * The submitters, the signer derivation and the logger are external; here the
 * submitters are three total functions handed in by the caller, the contract
 * handle is a deterministic value of the wallet index, and what is given to the
 * logger is kept as a trace beside the receipts.
 */
module Transactions {
  import opened Wrappers

  type Id = string
  type WalletIndex = string
  type GasPrice = nat
  type LogEntry = string

  datatype RequestType = ApiCall | Withdrawal | WalletDesignation

  /** A pending request; everything but its id is passed through untouched. */
  datatype Request = Request(id: Id, fields: map<string, string>)

  datatype Requests = Requests(apiCalls: seq<Request>, withdrawals: seq<Request>, walletDesignations: seq<Request>)

  datatype WalletData = WalletData(requests: Requests)

  /** One own property of `walletDataByIndex`: its key and its value. */
  datatype WalletEntry = WalletEntry(index: WalletIndex, data: WalletData)

  datatype Config = Config(name: string, chainId: string)

  /** The network handle; opaque to the orchestrator. */
  datatype Provider = Provider(url: string)

  /**
   * The snapshot `submit` reads. `walletDataByIndex` lists the object's own
   * properties in `Object.keys` order.
   */
  datatype ProviderState = ProviderState(
    config: Config,
    provider: Provider,
    gasPrice: Option<GasPrice>,
    walletDataByIndex: seq<WalletEntry>)

  /** The contract handle bound to the signer derived from one wallet index. */
  datatype Contract = Contract(chainId: string, signerIndex: WalletIndex, provider: Provider)

  datatype TransactionOptions = TransactionOptions(gasPrice: Option<GasPrice>, provider: Provider)

  /** An `Error` object, opaque here. */
  datatype Error = Error(message: string)

  /** What a submitter resolves to: `[logs, err, data]`. */
  datatype Outcome = Outcome(logs: seq<LogEntry>, err: Option<Error>, data: Option<string>)

  type Submitter = (Contract, Request, TransactionOptions) -> Outcome

  /** `submitApiCall`, `submitWithdrawal` and `submitWalletDesignation`. */
  datatype Submitters = Submitters(apiCall: Submitter, withdrawal: Submitter, walletDesignation: Submitter)

  /**
   * The public result record. `None` is an absent (or `undefined`) property:
   * `data?: string` and `error?: Error`.
   */
  datatype Receipt = Receipt(id: Id, data: Option<string>, error: Option<Error>, requestType: RequestType)

  /** The arguments of one submitter invocation. */
  datatype Call = Call(kind: RequestType, contract: Contract, request: Request, options: TransactionOptions)

  /** One `logger.logPendingMessages(name, logs)` call. */
  datatype LogCall = LogCall(name: string, logs: seq<LogEntry>)

  /** Everything one request's submission does: the call made, the receipt built, the log call. */
  datatype Step = Step(call: Call, receipt: Receipt, log: LogCall)

  /** `err || !data` with JavaScript truthiness: an `Error` object is truthy, `""` is falsy. */
  predicate IsFailure(o: Outcome) {
    o.err.Some? || o.data.None? || o.data.value == ""
  }

  /**
   * The outcome-to-receipt rule. The receipt's `error` is always the
   * submitter's `err` (on the data branch `err` is absent), and `data` is set
   * exactly when there is no error and the data is a non-empty string.
   */
  function Classify(id: Id, kind: RequestType, o: Outcome): (r: Receipt)
    ensures r.id == id && r.requestType == kind
    ensures r.error == o.err
    ensures r.data.Some? <==> !IsFailure(o)
    ensures r.data.Some? ==> r.data == o.data && r.data.value != ""
  {
    if IsFailure(o) then Receipt(id, None, o.err, kind)
    else Receipt(id, o.data, None, kind)
  }

  /** The submitter the request's kind selects, applied to the call. */
  function Invoke(submitters: Submitters, call: Call): Outcome {
    match call.kind
    case ApiCall => submitters.apiCall(call.contract, call.request, call.options)
    case Withdrawal => submitters.withdrawal(call.contract, call.request, call.options)
    case WalletDesignation => submitters.walletDesignation(call.contract, call.request, call.options)
  }

  /** Submit one request, log its messages under the config name, build its receipt. */
  function Settle(name: string, submitters: Submitters, call: Call): Step {
    var o := Invoke(submitters, call);
    Step(call, Classify(call.request.id, call.kind, o), LogCall(name, o.logs))
  }

  /** The options shared by every submission: `{ gasPrice: state.gasPrice!, provider: state.provider }`. */
  function TxOptions(state: ProviderState): TransactionOptions {
    TransactionOptions(state.gasPrice, state.provider)
  }

  /** The contract handle for a wallet: signer derived from the index, connected to the provider. */
  function BindContract(state: ProviderState, index: WalletIndex): Contract {
    Contract(state.config.chainId, index, state.provider)
  }

  /** `requests.map(async (request) => ...)` for one kind. */
  function SubmitKind(state: ProviderState, contract: Contract, options: TransactionOptions,
                      kind: RequestType, requests: seq<Request>, submitters: Submitters): seq<Step>
  {
    seq(|requests|, i requires 0 <= i < |requests| =>
      Settle(state.config.name, submitters, Call(kind, contract, requests[i], options)))
  }

  /** The `flatMap` callback: one wallet's API calls, then withdrawals, then wallet designations. */
  function SubmitWallet(state: ProviderState, entry: WalletEntry, submitters: Submitters): seq<Step> {
    var contract := BindContract(state, entry.index);
    var options := TxOptions(state);
    var requests := entry.data.requests;
    SubmitKind(state, contract, options, ApiCall, requests.apiCalls, submitters)
    + SubmitKind(state, contract, options, Withdrawal, requests.withdrawals, submitters)
    + SubmitKind(state, contract, options, WalletDesignation, requests.walletDesignations, submitters)
  }

  /** `flatMap(walletIndices, ...)`: the wallets' steps concatenated in key order. */
  function SubmitWallets(state: ProviderState, entries: seq<WalletEntry>, submitters: Submitters): seq<Step> {
    if entries == [] then []
    else SubmitWallet(state, entries[0], submitters) + SubmitWallets(state, entries[1..], submitters)
  }

  function AllSteps(state: ProviderState, submitters: Submitters): seq<Step> {
    SubmitWallets(state, state.walletDataByIndex, submitters)
  }

  /** `submit`: `Promise.all` keeps the order of the steps. */
  function Submit(state: ProviderState, submitters: Submitters): seq<Receipt> {
    var steps := AllSteps(state, submitters);
    seq(|steps|, i requires 0 <= i < |steps| => steps[i].receipt)
  }

  /** The `logPendingMessages` calls `submit` makes, one per request, indexed by request (not by time). */
  ghost function PendingLog(state: ProviderState, submitters: Submitters): seq<LogCall> {
    var steps := AllSteps(state, submitters);
    seq(|steps|, i requires 0 <= i < |steps| => steps[i].log)
  }

  /** The submitter invocations `submit` makes, in request order. */
  ghost function SubmittedCalls(state: ProviderState, submitters: Submitters): seq<Call> {
    var steps := AllSteps(state, submitters);
    seq(|steps|, i requires 0 <= i < |steps| => steps[i].call)
  }
}
