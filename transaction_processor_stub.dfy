/** The transaction processor stub of Torii: it stateless-validates each
    incoming transaction, hands accepted ones to the ordering service and
    publishes one stateless response per call on its notifier. */
module Torii {
  import opened ToriiSpec
  import opened Collaborators

  class TransactionProcessorStub<C(!new), T(!new)> {
    const pcs: PeerCommunicationService
    const os: OrderingService<T>
    /** The stateless validator, fixed at construction and never changed. */
    const validator: T -> bool
    const cryptoProvider: ModelCryptoProvider
    /** The processor's own notification subject. */
    const notifier: Subject<StatelessResponse<C, T>>

    /** Every transaction_handle call so far, in call order. */
    ghost var history: seq<Request<C, T>>
    /** Every transaction this processor has handed to ordering, in call order. */
    ghost var forwarded: seq<T>

    /** The notifier holds exactly one response per call so far, in call
        order, and the transactions handed to ordering are those the calls so
        far forwarded. */
    ghost predicate Valid()
      reads this, notifier
    {
      notifier.emitted == Responses(validator, history) &&
      forwarded == Propagations(validator, history)
    }

    constructor (pcs: PeerCommunicationService, os: OrderingService<T>,
                 validator: T -> bool, cryptoProvider: ModelCryptoProvider)
      ensures Valid() && history == [] && forwarded == []
      ensures this.pcs == pcs && this.os == os && this.cryptoProvider == cryptoProvider
      ensures this.validator == validator
      ensures fresh(notifier) && notifier.emitted == []
    {
      this.pcs := pcs;
      this.os := os;
      this.validator := validator;
      this.cryptoProvider := cryptoProvider;
      notifier := new Subject<StatelessResponse<C, T>>();
      history := [];
      forwarded := [];
    }

    /** Handles one client transaction: builds the response, validates, and
        on acceptance propagates to ordering; publishes the response on both
        branches. Only the ordering service and the notifier change; the peer
        communication service and the crypto provider are left alone. */
    method TransactionHandle(client: C, transaction: T)
      requires Valid()
      modifies this, os, notifier
      ensures Valid()
      ensures history == old(history) + [Request(client, transaction)]
      ensures |notifier.emitted| == |old(notifier.emitted)| + 1
      ensures notifier.emitted[..|old(notifier.emitted)|] == old(notifier.emitted)
      ensures notifier.emitted[|old(notifier.emitted)|].client == client
      ensures notifier.emitted[|old(notifier.emitted)|].transaction == transaction
      ensures notifier.emitted[|old(notifier.emitted)|].passed <==> validator(transaction)
      ensures os.propagated == old(os.propagated) + (if validator(transaction) then [transaction] else [])
      ensures |os.propagated| > |old(os.propagated)| <==> notifier.emitted[|old(notifier.emitted)|].passed
      ensures |forwarded| >= |old(forwarded)| && forwarded[..|old(forwarded)|] == old(forwarded)
      ensures os.propagated == old(os.propagated) + forwarded[|old(forwarded)|..]
    {
      ghost var before := history;
      var response := StatelessResponse(client, transaction, false);
      if validator(transaction) {
        response := response.(passed := true);
        os.PropagateTransaction(transaction);
      }
      notifier.OnNext(response);
      history := history + [Request(client, transaction)];
      forwarded := forwarded + Forwarded(validator, Request(client, transaction));
      ResponsesAppend(validator, before, [Request(client, transaction)]);
      PropagationsAppend(validator, before, [Request(client, transaction)]);
    }

    /** The response stream: every response published so far, in call order. */
    function TransactionNotifier(): (stream: seq<StatelessResponse<C, T>>)
      reads this, notifier
      requires Valid()
      ensures stream == Responses(validator, history)
    {
      notifier.emitted
    }
  }

  /** For any processor, what it handed to ordering is exactly the
      transactions of the passed responses on its stream, in the same order. */
  lemma ProcessorLogsConsistent<C(!new), T(!new)>(p: TransactionProcessorStub<C, T>)
    requires p.Valid()
    ensures p.forwarded == PassedTransactions(p.TransactionNotifier())
  {
    LogsConsistent(p.validator, p.history);
  }

  /** For any processor, a transaction was handed to ordering if and only if
      some call so far carried it and the validator accepts it. */
  lemma ProcessorForwardedIffAccepted<C(!new), T(!new)>(p: TransactionProcessorStub<C, T>, t: T)
    requires p.Valid()
    ensures t in p.forwarded <==>
            exists i :: 0 <= i < |p.history| && p.history[i].transaction == t && p.validator(t)
  {
    PropagatedIffAccepted(p.validator, p.history, t);
  }

  /** A transaction the validator accepts: its client sees one passed response
      carrying it, and the ordering service receives it exactly once. */
  method AcceptedTransactionScenario<C(!new), T(!new)>(validate: T -> bool, client: C, transaction: T)
    returns (stream: seq<StatelessResponse<C, T>>, ordered: seq<T>)
    requires validate(transaction)
    ensures stream == [StatelessResponse(client, transaction, true)]
    ensures ordered == [transaction]
  {
    var pcs := new PeerCommunicationService();
    var os := new OrderingService<T>();
    var crypto := new ModelCryptoProvider();
    var processor := new TransactionProcessorStub<C, T>(pcs, os, validate, crypto);
    processor.TransactionHandle(client, transaction);
    stream := processor.TransactionNotifier();
    ordered := os.propagated;
  }

  /** A transaction the validator rejects: its client sees one failed response
      carrying it, and the ordering service receives nothing. */
  method RejectedTransactionScenario<C(!new), T(!new)>(validate: T -> bool, client: C, transaction: T)
    returns (stream: seq<StatelessResponse<C, T>>, ordered: seq<T>)
    requires !validate(transaction)
    ensures stream == [StatelessResponse(client, transaction, false)]
    ensures ordered == []
  {
    var pcs := new PeerCommunicationService();
    var os := new OrderingService<T>();
    var crypto := new ModelCryptoProvider();
    var processor := new TransactionProcessorStub<C, T>(pcs, os, validate, crypto);
    processor.TransactionHandle(client, transaction);
    stream := processor.TransactionNotifier();
    ordered := os.propagated;
  }
}
