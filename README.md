# Torii transaction processor stub

A Dafny model of the transaction-intake step of the Iroha node's Torii
processor (`TransactionProcessorStub`). For each incoming client
transaction the processor builds a stateless response carrying the client and
a copy of the transaction, runs the stateless validator, and, when the
validator accepts, marks the response as passed and hands the transaction to
the ordering service. On both branches it publishes the response on its
notifier, whose stream `transaction_notifier` exposes.

Files:

- `collaborators.dfy` (module `Collaborators`): the ordering service as an
  append-only log of propagated transactions, the notification subject as an
  append-only stream of published events, and the two collaborators the
  processor stores but never uses (peer communication service, crypto
  provider).
- `torii_spec.dfy` (module `ToriiSpec`): the request and response values, and
  what a sequence of calls produces as functions of the call history
  (`Responses`, `Propagations`, `PassedTransactions`), with lemmas about them.
- `transaction_processor_stub.dfy` (module `Torii`): the processor as a class
  whose validator is fixed at construction; `TransactionHandle` follows the
  source step by step. The processor's invariant keeps its notifier stream
  equal to `Responses` of its call history and its ghost log of the
  transactions it handed to ordering equal to `Propagations`, so the
  trace-level lemmas carry over to every processor; two
  client methods play the accepted and the rejected transaction through a
  freshly built processor.

The client and transaction types are type parameters: the processor never
looks inside either. Both are declared `(!new)`, so they cannot be
instantiated with a heap object: the response holds copies, as in the
source, never aliases of the caller's objects. The validator is an arbitrary pure function
`T -> bool`.

## Model

| member | source | states |
|---|---|---|
| `Torii.TransactionProcessorStub.constructor` | irohad/torii/processor/impl/transaction_processor_stub.cpp:30-39 | stores the four collaborators as given (the validator unchanged for the object's lifetime); the processor's own notifier is new and its stream is empty; no call has been handled |
| `Torii.TransactionProcessorStub.TransactionHandle` | irohad/torii/processor/impl/transaction_processor_stub.cpp:41-55 | exactly one response is appended to the notifier, earlier ones untouched; it carries the call's client and transaction and is passed iff the validator accepts; the ordering log gains exactly that transaction when accepted and nothing otherwise; the ordering log grew iff the published response is passed; the processor's ghost log of forwarded transactions only grows, and what it gained is exactly what the ordering service received in this call; only the ordering service, the notifier and the ghost logs change |
| `Torii.TransactionProcessorStub.TransactionNotifier` | irohad/torii/processor/impl/transaction_processor_stub.cpp:57-60 | the stream holds exactly the responses of all calls so far, one per call, in call order |
| `Torii.ProcessorLogsConsistent` | irohad/torii/processor/impl/transaction_processor_stub.cpp:48-54 | for every processor, the transactions it handed to ordering are exactly the transactions of the passed responses on its stream, in the same order |
| `Torii.ProcessorForwardedIffAccepted` | irohad/torii/processor/impl/transaction_processor_stub.cpp:48-51 | for every processor, a transaction was handed to ordering iff some call so far carried it and the validator accepts it |
| `Torii.AcceptedTransactionScenario` | irohad/torii/processor/impl/transaction_processor_stub.cpp:41-55 | on a new processor, an accepted transaction yields the one response (client, transaction, passed) and the ordering service receives that transaction once |
| `Torii.RejectedTransactionScenario` | irohad/torii/processor/impl/transaction_processor_stub.cpp:41-55 | on a new processor, a rejected transaction yields the one response (client, transaction, not passed) and the ordering service receives nothing |
| `Collaborators.OrderingService.PropagateTransaction` | irohad/torii/processor/impl/transaction_processor_stub.cpp:50 | a hand-off to ordering appends that transaction to the ordering log |
| `Collaborators.Subject.OnNext` | irohad/torii/processor/impl/transaction_processor_stub.cpp:53-54 | a publish appends that event to the stream |
| `ToriiSpec.Responses` | irohad/torii/processor/impl/transaction_processor_stub.cpp:53-54 | the stream after a sequence of calls has one response per call |
| `ToriiSpec.ResponsesAt` | irohad/torii/processor/impl/transaction_processor_stub.cpp:43-49 | the i-th response has the i-th call's client and transaction, and is passed iff the validator accepts that transaction |
| `ToriiSpec.ResponsesAppend` | irohad/torii/processor/impl/transaction_processor_stub.cpp:53-54 | the responses of two consecutive batches of calls are those of the first followed by those of the second |
| `ToriiSpec.ResponsesPrefix` | irohad/torii/processor/impl/transaction_processor_stub.cpp:53-54 | responses published by the first k calls stay the first k entries of the stream whatever follows |
| `ToriiSpec.PropagationsAppend` | irohad/torii/processor/impl/transaction_processor_stub.cpp:48-51 | the ordering log of two consecutive batches of calls is that of the first followed by that of the second |
| `ToriiSpec.PropagationsPrefix` | irohad/torii/processor/impl/transaction_processor_stub.cpp:48-51 | the ordering log after the first k calls is a prefix of the log after all calls |
| `ToriiSpec.LogsConsistent` | irohad/torii/processor/impl/transaction_processor_stub.cpp:48-54 | the ordering log equals the transactions of the passed responses on the stream, in the same order |
| `ToriiSpec.PropagatedIffAccepted` | irohad/torii/processor/impl/transaction_processor_stub.cpp:48-51 | a transaction reaches ordering iff some call carried it and the validator accepts it |

## Left out

- The mutable storage interface (`irohad/ametsuchi/mutable_storage.hpp`): `check` and `apply` are pure virtual with no implementation in view, so atomic commit, rollback and predicate gating would have to be invented; the block, block-variant, world-state query and hash types it names are not part of this model.
- The reactive machinery behind the notifier (subject, subscriber and observable objects, subscription lifetimes, hot-stream delivery to subscribers that join later, shared-pointer allocation of the response): the notifier is an append-only sequence and `transaction_notifier` returns its contents.
- Concurrent `transaction_handle` calls and thread-safe publishing: calls are modelled one at a time.
- The stateless-validation rules and the internals of the ordering service: the validator is an arbitrary pure function and the ordering service a log of the transactions it was given.
- The relative order of the two side effects inside one call (propagate before publish): the two logs are separate, so only each log's contents are stated.
- The peer communication service and crypto provider hold no logic here; they are stored and, as the `modifies` clause of `TransactionHandle` shows, never touched.
- The ordering service is shared by reference, so other code may propagate to it too: its whole log is not tied to the processor's call history. What is tied is the processor's own ghost log of forwarded transactions, and each call appends to the ordering service exactly what it appends to that log.
