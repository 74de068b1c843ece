/**
 * Several callbacks for one order, handled one after another (each is an
 * independent request; the order is the only state they share). Each callback
 * meets the processor as it is at that moment: `answers[i]` is how the
 * processor answers status requests during callback `i`, so the same token can
 * fail to be checked once and be acknowledged later.
 */
module Replay {
  import opened Endpoints
  import opened Processor
  import opened Reconciliation

  /** The order after the callbacks `qs`, in that order, callback `i` seeing `answers[i]`. */
  function Run(s: Settings, key: string, answers: seq<string -> Fetched>, order: OrderState, qs: seq<Query>): OrderState
    requires |answers| == |qs|
    decreases |qs|
  {
    if qs == [] then order
    else Run(s, key, answers[1..], Handle(s, qs[0], key, order, answers[0]).order, qs[1..])
  }

  /** How many of the callbacks pass the parameter and key checks. */
  function Accepted(key: string, qs: seq<Query>): nat
    decreases |qs|
  {
    if qs == [] then 0
    else (if KeyMatches(qs[0], key) then 1 else 0) + Accepted(key, qs[1..])
  }

  /** A callback that passes the key check and whose status answer is an acknowledgement. */
  predicate Pays(s: Settings, key: string, answer: string -> Fetched, q: Query) {
    KeyMatches(q, key) && OutcomeOf(answer(StatusRequestUrl(s, q.token.value))) == Paid
  }

  function Payments(s: Settings, key: string, answers: seq<string -> Fetched>, qs: seq<Query>): nat
    requires |answers| == |qs|
    decreases |qs|
  {
    if qs == [] then 0
    else (if Pays(s, key, answers[0], qs[0]) then 1 else 0) + Payments(s, key, answers[1..], qs[1..])
  }

  /**
   * Notes are only ever appended, one for every callback that passes the key
   * check (given that a status update always records its note).
   */
  lemma {:induction false} RunAppendsOneNotePerAcceptedCallback(
    s: Settings, key: string, answers: seq<string -> Fetched>, order: OrderState, qs: seq<Query>)
    requires |answers| == |qs|
    ensures |Run(s, key, answers, order, qs).notes| == |order.notes| + Accepted(key, qs)
    ensures Run(s, key, answers, order, qs).notes[..|order.notes|] == order.notes
    decreases |qs|
  {
    if qs != [] {
      var next := Handle(s, qs[0], key, order, answers[0]).order;
      RunAppendsOneNotePerAcceptedCallback(s, key, answers[1..], next, qs[1..]);
      assert next.notes[..|order.notes|] == order.notes;
    }
  }

  /**
   * `payment_complete` is called once for every acknowledged callback, with no
   * check that it was called before.
   */
  lemma {:induction false} RunCompletesOncePerPayment(
    s: Settings, key: string, answers: seq<string -> Fetched>, order: OrderState, qs: seq<Query>)
    requires |answers| == |qs|
    ensures Run(s, key, answers, order, qs).completions == order.completions + Payments(s, key, answers, qs)
    decreases |qs|
  {
    if qs != [] {
      RunCompletesOncePerPayment(s, key, answers[1..], Handle(s, qs[0], key, order, answers[0]).order, qs[1..]);
    }
  }

  /** The handler's own status updates only ever set on-hold. */
  lemma {:induction false} RunSetsOnlyOnHold(
    s: Settings, key: string, answers: seq<string -> Fetched>, order: OrderState, qs: seq<Query>)
    requires |answers| == |qs|
    ensures Run(s, key, answers, order, qs).status in {order.status, OnHold}
    decreases |qs|
  {
    if qs != [] {
      RunSetsOnlyOnHold(s, key, answers[1..], Handle(s, qs[0], key, order, answers[0]).order, qs[1..]);
    }
  }

  /** Callbacks that fail the parameter or key check leave the order exactly as it was. */
  lemma {:induction false} ForgedCallbacksChangeNothing(
    s: Settings, key: string, answers: seq<string -> Fetched>, order: OrderState, qs: seq<Query>)
    requires |answers| == |qs|
    requires forall i :: 0 <= i < |qs| ==> !KeyMatches(qs[i], key)
    ensures Run(s, key, answers, order, qs) == order
    decreases |qs|
  {
    if qs != [] {
      assert !KeyMatches(qs[0], key);
      ForgedCallbacksChangeNothing(s, key, answers[1..], order, qs[1..]);
    }
  }

  /** The same acknowledged callback delivered twice calls `payment_complete` twice. */
  lemma RepeatedAcknowledgementCompletesTwice(
    s: Settings, key: string, answer: string -> Fetched, order: OrderState, q: Query)
    requires Pays(s, key, answer, q)
    ensures Run(s, key, [answer, answer], order, [q, q]).completions == order.completions + 2
  {
    RunCompletesOncePerPayment(s, key, [answer, answer], order, [q, q]);
    assert [q, q][1..] == [q] && [q][1..] == [];
    assert [answer, answer][1..] == [answer] && [answer][1..] == [];
    assert Payments(s, key, [answer], [q]) == 1;
  }

  /** A paid order is put back on hold by a later callback whose status check fails. */
  lemma PaidOrderCanBePutOnHold(
    s: Settings, key: string, paidAnswer: string -> Fetched, laterAnswer: string -> Fetched,
    order: OrderState, paid: Query, later: Query)
    requires Pays(s, key, paidAnswer, paid)
    requires KeyMatches(later, key) && laterAnswer(StatusRequestUrl(s, later.token.value)).TransportFailure?
    ensures Run(s, key, [paidAnswer, laterAnswer], order, [paid, later]).status == OnHold
    ensures Run(s, key, [paidAnswer, laterAnswer], order, [paid, later]).completions == order.completions + 1
  {
    var afterPaid := Handle(s, paid, key, order, paidAnswer).order;
    assert [paid, later][1..] == [later] && [later][1..] == [];
    assert [paidAnswer, laterAnswer][1..] == [laterAnswer] && [laterAnswer][1..] == [];
    assert Run(s, key, [paidAnswer, laterAnswer], order, [paid, later])
        == Run(s, key, [laterAnswer], afterPaid, [later])
        == Handle(s, later, key, afterPaid, laterAnswer).order;
  }

  /**
   * A status check that fails puts the order on hold without completing it; the
   * same callback, delivered again once the processor acknowledges the token,
   * completes the payment. The order keeps both notes, the on-hold reason first
   * (given that a status update always records its note).
   */
  lemma HeldOrderIsPaidOnRetry(
    s: Settings, key: string, failing: string -> Fetched, acknowledging: string -> Fetched,
    order: OrderState, q: Query)
    requires KeyMatches(q, key) && failing(StatusRequestUrl(s, q.token.value)).TransportFailure?
    requires Pays(s, key, acknowledging, q)
    ensures Run(s, key, [failing], order, [q]).status == OnHold
    ensures Run(s, key, [failing], order, [q]).completions == order.completions
    ensures Run(s, key, [failing, acknowledging], order, [q, q]).completions == order.completions + 1
    ensures Run(s, key, [failing, acknowledging], order, [q, q]).notes
         == order.notes + [CouldNotCheck, AuthorisedNote(acknowledging(StatusRequestUrl(s, q.token.value)).body)]
  {
    var held := Handle(s, q, key, order, failing).order;
    var paid := Handle(s, q, key, held, acknowledging).order;
    assert [q, q][1..] == [q] && [q][1..] == [];
    assert [failing, acknowledging][1..] == [acknowledging] && [acknowledging][1..] == [] && [failing][1..] == [];
    assert Run(s, key, [failing], order, [q]) == held;
    assert held.notes == order.notes + [CouldNotCheck];
    assert paid.notes == held.notes + [AuthorisedNote(acknowledging(StatusRequestUrl(s, q.token.value)).body)];
    assert Run(s, key, [failing, acknowledging], order, [q, q]) == Run(s, key, [acknowledging], held, [q]) == paid;
  }
}
