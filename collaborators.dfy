/** The collaborators that the transaction processor stub holds or owns.
    Only their boundary is modelled: the ordering service records what it is
    asked to propagate, and the notification subject records what is pushed
    through its subscriber side. The peer communication service and the crypto
    provider are stored by the processor but never used by it. */
module Collaborators {

  /** The ordering service, seen from its caller: every call to
      propagate_transaction is appended to `propagated`, in call order. */
  class OrderingService<T> {
    var propagated: seq<T>

    constructor ()
      ensures propagated == []
    {
      propagated := [];
    }

    /** Fire-and-forget hand-off of a transaction to ordering. */
    method PropagateTransaction(transaction: T)
      modifies this
      ensures propagated == old(propagated) + [transaction]
    {
      propagated := propagated + [transaction];
    }
  }

  /** A notification subject: `emitted` is the stream of events pushed through
      its subscriber side so far, in publication order. */
  class Subject<E> {
    var emitted: seq<E>

    constructor ()
      ensures emitted == []
    {
      emitted := [];
    }

    /** Publishes one event on the stream. */
    method OnNext(event: E)
      modifies this
      ensures emitted == old(emitted) + [event]
    {
      emitted := emitted + [event];
    }
  }

  /** Held by the processor, never used by transaction handling. */
  class PeerCommunicationService {
    constructor () {}
  }

  /** Held by the processor, never used by transaction handling. */
  class ModelCryptoProvider {
    constructor () {}
  }
}
