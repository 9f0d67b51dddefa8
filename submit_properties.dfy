/**
 * What `submit` promises, stated against an independent description of the
 * snapshot: the flattened list of pending requests, wallets in key order and,
 * within a wallet, API calls, then withdrawals, then wallet designations.
 */
module SubmitProperties {
  import opened Wrappers
  import opened Transactions

  /** A pending request together with the wallet that owns it and its kind. */
  datatype Pending = Pending(index: WalletIndex, kind: RequestType, request: Request)

  function RequestsOfKind(requests: Requests, kind: RequestType): seq<Request> {
    match kind
    case ApiCall => requests.apiCalls
    case Withdrawal => requests.withdrawals
    case WalletDesignation => requests.walletDesignations
  }

  function Tag(index: WalletIndex, kind: RequestType, requests: seq<Request>): seq<Pending> {
    seq(|requests|, i requires 0 <= i < |requests| => Pending(index, kind, requests[i]))
  }

  function WalletPending(entry: WalletEntry): seq<Pending> {
    var requests := entry.data.requests;
    Tag(entry.index, ApiCall, requests.apiCalls)
    + Tag(entry.index, Withdrawal, requests.withdrawals)
    + Tag(entry.index, WalletDesignation, requests.walletDesignations)
  }

  /** Every pending request of the snapshot, in the order the receipts must have. */
  function PendingRequests(entries: seq<WalletEntry>): seq<Pending> {
    if entries == [] then [] else WalletPending(entries[0]) + PendingRequests(entries[1..])
  }

  function WalletSize(entry: WalletEntry): nat {
    var requests := entry.data.requests;
    |requests.apiCalls| + |requests.withdrawals| + |requests.walletDesignations|
  }

  /** The number of pending requests summed over all wallets and kinds. */
  function TotalRequests(entries: seq<WalletEntry>): nat {
    if entries == [] then 0 else WalletSize(entries[0]) + TotalRequests(entries[1..])
  }

  predicate Owns(entry: WalletEntry, p: Pending) {
    p.index == entry.index && p.request in RequestsOfKind(entry.data.requests, p.kind)
  }

  predicate HasNoRequests(entry: WalletEntry) {
    var requests := entry.data.requests;
    requests.apiCalls == [] && requests.withdrawals == [] && requests.walletDesignations == []
  }

  /** The submitter call `submit` makes for a pending request. */
  function CallFor(state: ProviderState, p: Pending): Call {
    Call(p.kind, BindContract(state, p.index), p.request, TxOptions(state))
  }

  function OutcomeFor(state: ProviderState, submitters: Submitters, p: Pending): Outcome {
    Invoke(submitters, CallFor(state, p))
  }

  function StepFor(state: ProviderState, submitters: Submitters, p: Pending): Step {
    Settle(state.config.name, submitters, CallFor(state, p))
  }

  /** `steps` is what submitting `pending` one by one, in order, produces. */
  predicate Follows(state: ProviderState, submitters: Submitters, steps: seq<Step>, pending: seq<Pending>) {
    |steps| == |pending| &&
    forall i :: 0 <= i < |steps| ==> steps[i] == StepFor(state, submitters, pending[i])
  }

  // ---------------------------------------------------------------------------
  // The reference list itself

  lemma {:induction false} PendingCount(entries: seq<WalletEntry>)
    ensures |PendingRequests(entries)| == TotalRequests(entries)
  {
    if entries != [] {
      PendingCount(entries[1..]);
    }
  }

  lemma WalletPendingOwned(entry: WalletEntry, p: Pending)
    ensures p in WalletPending(entry) <==> Owns(entry, p)
  {
    var rs := entry.data.requests;
    var t0 := Tag(entry.index, ApiCall, rs.apiCalls);
    var t1 := Tag(entry.index, Withdrawal, rs.withdrawals);
    var t2 := Tag(entry.index, WalletDesignation, rs.walletDesignations);
    assert WalletPending(entry) == t0 + t1 + t2;
    if Owns(entry, p) {
      var reqs := RequestsOfKind(rs, p.kind);
      var j :| 0 <= j < |reqs| && reqs[j] == p.request;
      match p.kind
      case ApiCall => assert t0[j] == p;
      case Withdrawal => assert t1[j] == p;
      case WalletDesignation => assert t2[j] == p;
    }
  }

  /**
   * A request is in the flattened list exactly when some wallet of the
   * snapshot owns it under that kind: nothing is invented, nothing is skipped.
   */
  lemma {:induction false} PendingMembership(entries: seq<WalletEntry>, p: Pending)
    ensures p in PendingRequests(entries) <==> exists e :: e in entries && Owns(e, p)
  {
    if entries != [] {
      PendingMembership(entries[1..], p);
      WalletPendingOwned(entries[0], p);
      if p in PendingRequests(entries[1..]) {
        var e :| e in entries[1..] && Owns(e, p);
        assert e in entries;
      }
      if exists e :: e in entries && Owns(e, p) {
        var e :| e in entries && Owns(e, p);
        if e != entries[0] {
          assert e in entries[1..];
        }
      }
    }
  }

  // ---------------------------------------------------------------------------
  // The fan-out follows the reference list

  lemma FollowsAppend(state: ProviderState, submitters: Submitters,
                      s1: seq<Step>, p1: seq<Pending>, s2: seq<Step>, p2: seq<Pending>)
    requires Follows(state, submitters, s1, p1) && Follows(state, submitters, s2, p2)
    ensures Follows(state, submitters, s1 + s2, p1 + p2)
  {
  }

  lemma SubmitKindFollows(state: ProviderState, submitters: Submitters, index: WalletIndex,
                          kind: RequestType, requests: seq<Request>)
    ensures Follows(state, submitters,
                    SubmitKind(state, BindContract(state, index), TxOptions(state), kind, requests, submitters),
                    Tag(index, kind, requests))
  {
  }

  lemma SubmitWalletFollows(state: ProviderState, submitters: Submitters, entry: WalletEntry)
    ensures Follows(state, submitters, SubmitWallet(state, entry, submitters), WalletPending(entry))
  {
  }

  /** The flattened steps are the pending requests submitted one by one, in order. */
  lemma {:induction false} SubmitWalletsFollows(state: ProviderState, submitters: Submitters, entries: seq<WalletEntry>)
    ensures Follows(state, submitters, SubmitWallets(state, entries, submitters), PendingRequests(entries))
  {
    if entries != [] {
      SubmitWalletFollows(state, submitters, entries[0]);
      SubmitWalletsFollows(state, submitters, entries[1..]);
      FollowsAppend(state, submitters,
                    SubmitWallet(state, entries[0], submitters), WalletPending(entries[0]),
                    SubmitWallets(state, entries[1..], submitters), PendingRequests(entries[1..]));
    }
  }

  /**
   * Flattening distributes over the wallets: the receipts of earlier wallets
   * come first. A standalone fact about the `flatMap`; no other proof uses it.
   */
  lemma {:induction false} SubmitWalletsAppend(state: ProviderState, submitters: Submitters,
                                               a: seq<WalletEntry>, b: seq<WalletEntry>)
    ensures SubmitWallets(state, a + b, submitters) == SubmitWallets(state, a, submitters) + SubmitWallets(state, b, submitters)
  {
    if a == [] {
      assert a + b == b;
    } else {
      assert (a + b)[1..] == a[1..] + b;
      SubmitWalletsAppend(state, submitters, a[1..], b);
    }
  }

  // ---------------------------------------------------------------------------
  // What `submit` returns

  /**
   * The i-th receipt is the i-th pending request's outcome, classified; there
   * is exactly one receipt per pending request.
   */
  lemma SubmitSpec(state: ProviderState, submitters: Submitters)
    ensures |Submit(state, submitters)| == |PendingRequests(state.walletDataByIndex)|
    ensures forall i :: 0 <= i < |Submit(state, submitters)| ==>
      var p := PendingRequests(state.walletDataByIndex)[i];
      Submit(state, submitters)[i] == Classify(p.request.id, p.kind, OutcomeFor(state, submitters, p))
  {
    SubmitWalletsFollows(state, submitters, state.walletDataByIndex);
  }

  /** Completeness: as many receipts as pending requests over all wallets and kinds. */
  lemma SubmitCount(state: ProviderState, submitters: Submitters)
    ensures |Submit(state, submitters)| == TotalRequests(state.walletDataByIndex)
  {
    SubmitSpec(state, submitters);
    PendingCount(state.walletDataByIndex);
  }

  /** The i-th receipt carries the id and the kind of the i-th pending request. */
  lemma SubmitIdsAndKinds(state: ProviderState, submitters: Submitters)
    ensures |Submit(state, submitters)| == |PendingRequests(state.walletDataByIndex)|
    ensures forall i :: 0 <= i < |Submit(state, submitters)| ==>
      Submit(state, submitters)[i].id == PendingRequests(state.walletDataByIndex)[i].request.id &&
      Submit(state, submitters)[i].requestType == PendingRequests(state.walletDataByIndex)[i].kind
  {
    SubmitSpec(state, submitters);
  }

  /**
   * Classification of every receipt: on an error or missing/empty data the
   * receipt has `error: err` (possibly absent) and no data; otherwise it has
   * the data and no error.
   */
  lemma SubmitClassification(state: ProviderState, submitters: Submitters, i: nat)
    requires i < |PendingRequests(state.walletDataByIndex)|
    ensures i < |Submit(state, submitters)|
    ensures var o := OutcomeFor(state, submitters, PendingRequests(state.walletDataByIndex)[i]);
            var r := Submit(state, submitters)[i];
            (IsFailure(o) ==> r.data.None? && r.error == o.err) &&
            (!IsFailure(o) ==> r.data == o.data && r.error.None?)
  {
    SubmitSpec(state, submitters);
  }

  /** No receipt carries both data and an error. */
  lemma SubmitNeverBoth(state: ProviderState, submitters: Submitters)
    ensures forall r :: r in Submit(state, submitters) ==> !(r.data.Some? && r.error.Some?)
  {
    SubmitSpec(state, submitters);
  }

  /**
   * "Never both" is all the code guarantees: with no error and empty data the
   * receipt has neither data nor a defined error.
   */
  lemma NeitherDataNorError(state: ProviderState, submitters: Submitters, i: nat)
    requires i < |PendingRequests(state.walletDataByIndex)|
    requires var o := OutcomeFor(state, submitters, PendingRequests(state.walletDataByIndex)[i]);
             o.err.None? && (o.data.None? || o.data == Some(""))
    ensures i < |Submit(state, submitters)|
    ensures Submit(state, submitters)[i].data.None? && Submit(state, submitters)[i].error.None?
  {
    SubmitSpec(state, submitters);
  }

  /** A snapshot whose wallets hold no requests (or no wallets at all) yields no receipts. */
  lemma {:induction false} SubmitEmpty(state: ProviderState, submitters: Submitters)
    requires forall e :: e in state.walletDataByIndex ==> HasNoRequests(e)
    ensures Submit(state, submitters) == []
  {
    EmptyWallets(state, submitters, state.walletDataByIndex);
  }

  lemma {:induction false} EmptyWallets(state: ProviderState, submitters: Submitters, entries: seq<WalletEntry>)
    requires forall e :: e in entries ==> HasNoRequests(e)
    ensures SubmitWallets(state, entries, submitters) == []
  {
    if entries != [] {
      assert entries[0] in entries;
      forall e | e in entries[1..] ensures HasNoRequests(e) {
        assert e in entries;
      }
      EmptyWallets(state, submitters, entries[1..]);
    }
  }

  /**
   * Independence: a receipt depends only on its own submission's outcome, so
   * two submitters that agree on one call give the same receipt for it,
   * whatever they do on the other calls.
   */
  lemma SubmitIndependence(state: ProviderState, s1: Submitters, s2: Submitters, i: nat)
    requires i < |PendingRequests(state.walletDataByIndex)|
    requires var p := PendingRequests(state.walletDataByIndex)[i];
             OutcomeFor(state, s1, p) == OutcomeFor(state, s2, p)
    ensures i < |Submit(state, s1)| && i < |Submit(state, s2)|
    ensures Submit(state, s1)[i] == Submit(state, s2)[i]
  {
    SubmitSpec(state, s1);
    SubmitSpec(state, s2);
  }

  /** Exactly one log call per request, under the config's name, with that request's logs. */
  lemma PendingLogSpec(state: ProviderState, submitters: Submitters)
    ensures |PendingLog(state, submitters)| == |PendingRequests(state.walletDataByIndex)|
    ensures forall i :: 0 <= i < |PendingLog(state, submitters)| ==>
      PendingLog(state, submitters)[i] ==
        LogCall(state.config.name, OutcomeFor(state, submitters, PendingRequests(state.walletDataByIndex)[i]).logs)
  {
    SubmitWalletsFollows(state, submitters, state.walletDataByIndex);
  }

  /**
   * Every submission is made with the request's own kind and record, the
   * contract bound to its wallet's signer, and the shared options whose gas
   * price and provider are the snapshot's.
   */
  lemma SubmittedCallsSpec(state: ProviderState, submitters: Submitters)
    ensures |SubmittedCalls(state, submitters)| == |PendingRequests(state.walletDataByIndex)|
    ensures forall i :: 0 <= i < |SubmittedCalls(state, submitters)| ==>
      var c := SubmittedCalls(state, submitters)[i];
      var p := PendingRequests(state.walletDataByIndex)[i];
      c.kind == p.kind && c.request == p.request &&
      c.contract.chainId == state.config.chainId && c.contract.signerIndex == p.index && c.contract.provider == state.provider &&
      c.options.gasPrice == state.gasPrice && c.options.provider == state.provider
  {
    SubmitWalletsFollows(state, submitters, state.walletDataByIndex);
  }
}
