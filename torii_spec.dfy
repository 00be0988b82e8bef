/** What a sequence of transaction_handle calls produces, as values: the
    responses published on the notifier and the transactions handed to the
    ordering service. The class in module Torii keeps its notifier stream
    equal to Responses, and its ghost log of forwarded transactions equal to
    Propagations, of its call history. */
module ToriiSpec {

  /** One call of transaction_handle: who sent which transaction. */
  datatype Request<C, T> = Request(client: C, transaction: T)

  /** The stateless response: the originating client, a copy of the
      transaction, and whether stateless validation passed. */
  datatype StatelessResponse<C, T> = StatelessResponse(client: C, transaction: T, passed: bool)

  /** The response one call builds. */
  function Respond<C, T>(validate: T -> bool, req: Request<C, T>): StatelessResponse<C, T>
  {
    StatelessResponse(req.client, req.transaction, validate(req.transaction))
  }

  /** What one call hands to the ordering service. */
  function Forwarded<C, T>(validate: T -> bool, req: Request<C, T>): seq<T>
  {
    if validate(req.transaction) then [req.transaction] else []
  }

  /** The notifier's stream after the calls `reqs`, one response per call. */
  function Responses<C, T>(validate: T -> bool, reqs: seq<Request<C, T>>): (rs: seq<StatelessResponse<C, T>>)
    ensures |rs| == |reqs|
  {
    if reqs == [] then [] else [Respond(validate, reqs[0])] + Responses(validate, reqs[1..])
  }

  /** The ordering service's log after the calls `reqs`. */
  function Propagations<C, T>(validate: T -> bool, reqs: seq<Request<C, T>>): seq<T>
  {
    if reqs == [] then [] else Forwarded(validate, reqs[0]) + Propagations(validate, reqs[1..])
  }

  /** The transactions of the responses marked as passed, in stream order. */
  function PassedTransactions<C, T>(rs: seq<StatelessResponse<C, T>>): seq<T>
  {
    if rs == [] then []
    else (if rs[0].passed then [rs[0].transaction] else []) + PassedTransactions(rs[1..])
  }

  /** The i-th published response belongs to the i-th call: same client, same
      transaction, and passed exactly when the validator accepts it. */
  lemma {:induction false} ResponsesAt<C, T>(validate: T -> bool, reqs: seq<Request<C, T>>, i: nat)
    requires i < |reqs|
    ensures Responses(validate, reqs)[i].client == reqs[i].client
    ensures Responses(validate, reqs)[i].transaction == reqs[i].transaction
    ensures Responses(validate, reqs)[i].passed <==> validate(reqs[i].transaction)
  {
    if i > 0 {
      ResponsesAt(validate, reqs[1..], i - 1);
    }
  }

  /** The stream only grows: later calls append after earlier responses. */
  lemma {:induction false} ResponsesAppend<C, T>(validate: T -> bool, a: seq<Request<C, T>>, b: seq<Request<C, T>>)
    ensures Responses(validate, a + b) == Responses(validate, a) + Responses(validate, b)
  {
    if a == [] {
      assert a + b == b;
    } else {
      assert (a + b)[1..] == a[1..] + b;
      ResponsesAppend(validate, a[1..], b);
    }
  }

  /** The ordering log only grows: later calls append after earlier hand-offs. */
  lemma {:induction false} PropagationsAppend<C, T>(validate: T -> bool, a: seq<Request<C, T>>, b: seq<Request<C, T>>)
    ensures Propagations(validate, a + b) == Propagations(validate, a) + Propagations(validate, b)
  {
    if a == [] {
      assert a + b == b;
    } else {
      assert (a + b)[1..] == a[1..] + b;
      PropagationsAppend(validate, a[1..], b);
    }
  }

  /** Responses published by the first k calls are never changed by later calls. */
  lemma ResponsesPrefix<C, T>(validate: T -> bool, reqs: seq<Request<C, T>>, k: nat)
    requires k <= |reqs|
    ensures Responses(validate, reqs)[..k] == Responses(validate, reqs[..k])
  {
    assert reqs == reqs[..k] + reqs[k..];
    ResponsesAppend(validate, reqs[..k], reqs[k..]);
  }

  /** Transactions propagated by the first k calls are never changed by later calls. */
  lemma PropagationsPrefix<C, T>(validate: T -> bool, reqs: seq<Request<C, T>>, k: nat)
    requires k <= |reqs|
    ensures Propagations(validate, reqs[..k]) <= Propagations(validate, reqs)
  {
    assert reqs == reqs[..k] + reqs[k..];
    PropagationsAppend(validate, reqs[..k], reqs[k..]);
  }

  /** The two logs agree: the ordering service received exactly the
      transactions of the passed responses, in the same order. */
  lemma {:induction false} LogsConsistent<C, T>(validate: T -> bool, reqs: seq<Request<C, T>>)
    ensures Propagations(validate, reqs) == PassedTransactions(Responses(validate, reqs))
  {
    if reqs != [] {
      var rs := Responses(validate, reqs);
      assert rs[0] == Respond(validate, reqs[0]);
      assert rs[1..] == Responses(validate, reqs[1..]);
      LogsConsistent(validate, reqs[1..]);
    }
  }

  /** A transaction reaches ordering if and only if some call carried it and
      the validator accepts it. */
  lemma {:induction false} PropagatedIffAccepted<C, T>(validate: T -> bool, reqs: seq<Request<C, T>>, t: T)
    ensures t in Propagations(validate, reqs) <==>
            exists i :: 0 <= i < |reqs| && reqs[i].transaction == t && validate(t)
  {
    if reqs != [] {
      PropagatedIffAccepted(validate, reqs[1..], t);
      if t in Propagations(validate, reqs[1..]) {
        var j :| 0 <= j < |reqs[1..]| && reqs[1..][j].transaction == t && validate(t);
        assert reqs[j + 1].transaction == t;
      }
      if exists i :: 0 <= i < |reqs| && reqs[i].transaction == t && validate(t) {
        var i :| 0 <= i < |reqs| && reqs[i].transaction == t && validate(t);
        if i > 0 {
          assert reqs[1..][i - 1].transaction == t;
        }
      }
    }
  }
}
