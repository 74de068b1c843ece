/**
 * The payment-status reconciliation of a callback, as a pure function of the
 * order's state, the callback's query and the processor's answer. The methods
 * in module Gateway do the same thing step by step on the mutable objects and
 * are proved to agree with `Handle`.
 */
module Reconciliation {
  import opened Wrappers
  import opened Endpoints
  import opened Processor

  const Ack := "ACK"
  const Nok := "NOK"
  const OnHold := "on-hold"

  // Texts shown to the shopper or recorded on the order (translation is the identity here).
  const InvalidResponse := "Invalid response."
  const CouldNotCheck := "Could not check payment status."
  const UnsuccessfulHeader := "Payment unsuccessful."
  const ErrorLabel := "<br>Error: "
  const AuthorisedHeader := "Payment has been authorised."
  const TransactionLabel := "<br>Transaction ID: "
  const ResponseLabel := "<br>Response: "
  const UnknownStatus := "Unknown payment status."
  const CouldNotDetermine := "Could not determine payment status."

  /** The four ways a callback that passed the key check ends. */
  datatype Outcome = HeldForReview | Declined | Paid | Unknown

  /** Where the shopper is sent: the order-received page, or the order's pay page to try again. */
  datatype Target = ReturnPage | PayPage

  /** The part of an order the callback reads and changes. */
  datatype OrderState = OrderState(status: string, notes: seq<string>, completions: nat)

  /** The callback's query parameters `token`, `order_id` and `order_key`. */
  datatype Query = Query(token: Option<string>, orderId: Option<string>, orderKey: Option<string>)

  /**
   * How the request ends: stopped with a message (a parameter was missing),
   * with no response at all (the key did not match), or with a redirect.
   */
  datatype Reply = Died(message: string) | NoReply | Redirected(outcome: Outcome, target: Target)

  /**
   * One callback's effects: the order afterwards, the URLs requested from the
   * processor, the errors queued for the shopper, and the reply.
   */
  datatype Step = Step(order: OrderState, requests: seq<string>, notices: seq<string>, reply: Reply)

  predicate Complete(q: Query) {
    q.token.Some? && q.orderId.Some? && q.orderKey.Some?
  }

  predicate KeyMatches(q: Query, key: string) {
    Complete(q) && q.orderKey.value == key
  }

  /** The decline test; it is evaluated before the acknowledgement test. */
  predicate Declines(j: Json) {
    j.errorMessage.Some? || j.result == Some(Nok)
  }

  /**
   * A decoded status response is declined when it carries an error message or
   * the result NOK, paid only when it carries neither and the result ACK, and
   * unknown otherwise; an error message wins over an ACK result.
   */
  function Classify(j: Json): (o: Outcome)
    ensures o != HeldForReview
    ensures o == Declined <==> j.errorMessage.Some? || j.result == Some(Nok)
    ensures o == Paid <==> j.errorMessage.None? && j.result == Some(Ack)
    ensures o == Unknown <==> j.errorMessage.None? && j.result != Some(Ack) && j.result != Some(Nok)
    ensures j == Undecodable ==> o == Unknown
  {
    if Declines(j) then Declined
    else if j.result == Some(Ack) then Paid
    else Unknown
  }

  /** A failed transfer is held for review; only a body that arrived is classified. */
  function OutcomeOf(f: Fetched): (o: Outcome)
    ensures o == HeldForReview <==> f.TransportFailure?
    ensures f.Received? ==> o == Classify(f.body)
  {
    match f
    case TransportFailure => HeldForReview
    case Received(j) => Classify(j)
  }

  /** The message shown for a decline: the error message, else the return message, else none. */
  function DeclineDetail(j: Json): Option<string> {
    if j.errorMessage.Some? then j.errorMessage else j.returnMessage
  }

  /** Reads a decline note back: whatever follows `Payment unsuccessful.<br>Error: `, when the note starts with it. */
  function DetailOf(note: string): Option<string> {
    var head := UnsuccessfulHeader + ErrorLabel;
    if |note| >= |head| && note[..|head|] == head then Some(note[|head|..]) else None
  }

  /**
   * The decline note is the fixed header followed by at most one detail: the
   * error message when there is one, otherwise the return message; with
   * neither, it is the bare header.
   */
  function DeclineNote(j: Json): (n: string)
    ensures |n| >= |UnsuccessfulHeader| && n[..|UnsuccessfulHeader|] == UnsuccessfulHeader
    ensures DetailOf(n) == (if j.errorMessage.Some? then j.errorMessage else j.returnMessage)
    ensures DetailOf(n).Some? ==> n == UnsuccessfulHeader + ErrorLabel + DetailOf(n).value
    ensures j.errorMessage.None? && j.returnMessage.None? ==> n == UnsuccessfulHeader
  {
    match DeclineDetail(j)
    case None => UnsuccessfulHeader
    case Some(d) => UnsuccessfulHeader + ErrorLabel + d
  }

  function Segment(prefix: string, v: Option<string>): string {
    if v.Some? then prefix + v.value else ""
  }

  /**
   * The authorisation note starts with the fixed header; the transaction ID,
   * when present, follows it immediately; the response message, when present,
   * ends the note; and there is nothing else in it.
   */
  function AuthorisedNote(j: Json): (n: string)
    ensures |n| == |AuthorisedHeader| + |Segment(TransactionLabel, j.uniqueId)| + |Segment(ResponseLabel, j.returnMessage)|
    ensures n[..|AuthorisedHeader|] == AuthorisedHeader
    ensures j.uniqueId.Some? ==>
      n[|AuthorisedHeader|..|AuthorisedHeader| + |TransactionLabel| + |j.uniqueId.value|] == TransactionLabel + j.uniqueId.value
    ensures j.returnMessage.Some? ==>
      n[|n| - |ResponseLabel| - |j.returnMessage.value|..] == ResponseLabel + j.returnMessage.value
  {
    AuthorisedHeader + Segment(TransactionLabel, j.uniqueId) + Segment(ResponseLabel, j.returnMessage)
  }

  /** The one note each outcome records on the order. */
  function Note(f: Fetched): string {
    match f
    case TransportFailure => CouldNotCheck
    case Received(j) =>
      match Classify(j)
      case Declined => DeclineNote(j)
      case Paid => AuthorisedNote(j)
      case _ => UnknownStatus
  }

  /** The errors each outcome queues for the shopper; a payment queues none. */
  function Notices(f: Fetched): seq<string> {
    match f
    case TransportFailure => [CouldNotCheck]
    case Received(j) =>
      match Classify(j)
      case Declined => [DeclineNote(j)]
      case Paid => []
      case _ => [CouldNotDetermine]
  }

  function TargetOf(o: Outcome): (t: Target)
    ensures t == PayPage <==> o == Declined
  {
    if o == Declined then PayPage else ReturnPage
  }

  /** The order after acting on one status answer. */
  function Reconciled(s: OrderState, f: Fetched): OrderState {
    var o := OutcomeOf(f);
    OrderState(
      if o == HeldForReview || o == Unknown then OnHold else s.status,
      s.notes + [Note(f)],
      if o == Paid then s.completions + 1 else s.completions)
  }

  /**
   * One callback. A query without all three parameters stops the request; a key
   * that does not match ends it silently; otherwise exactly one status request
   * is made, to the mode's status endpoint followed by the token, and its
   * answer decides which of four outcomes the order goes through:
   * a failed transfer puts it on hold, an error message or NOK adds the decline
   * note and sends the shopper back to pay, an ACK adds the authorisation note
   * and completes the payment, and anything else puts it on hold.
   */
  function Handle(s: Settings, q: Query, key: string, order: OrderState, respond: string -> Fetched): (r: Step)
    ensures !Complete(q) ==> r == Step(order, [], [], Died(InvalidResponse))
    ensures Complete(q) && !KeyMatches(q, key) ==> r == Step(order, [], [], NoReply)
    ensures KeyMatches(q, key) ==> r.requests == [StatusRequestUrl(s, q.token.value)]
    ensures KeyMatches(q, key) && respond(StatusRequestUrl(s, q.token.value)).TransportFailure? ==>
      && r.order == order.(status := OnHold, notes := order.notes + [CouldNotCheck])
      && r.notices == [CouldNotCheck]
      && r.reply == Redirected(HeldForReview, ReturnPage)
    ensures KeyMatches(q, key) && respond(StatusRequestUrl(s, q.token.value)).Received? ==>
      var j := respond(StatusRequestUrl(s, q.token.value)).body;
      && (j.errorMessage.Some? || j.result == Some(Nok) ==>
            && r.order == order.(notes := order.notes + [DeclineNote(j)])
            && r.notices == [DeclineNote(j)]
            && r.reply == Redirected(Declined, PayPage))
      && (j.errorMessage.None? && j.result == Some(Ack) ==>
            && r.order == order.(notes := order.notes + [AuthorisedNote(j)], completions := order.completions + 1)
            && r.notices == []
            && r.reply == Redirected(Paid, ReturnPage))
      && (j.errorMessage.None? && j.result != Some(Ack) && j.result != Some(Nok) ==>
            && r.order == order.(status := OnHold, notes := order.notes + [UnknownStatus])
            && r.notices == [CouldNotDetermine]
            && r.reply == Redirected(Unknown, ReturnPage))
  {
    if !Complete(q) then Step(order, [], [], Died(InvalidResponse))
    else if !KeyMatches(q, key) then Step(order, [], [], NoReply)
    else
      var url := StatusRequestUrl(s, q.token.value);
      var f := respond(url);
      var o := OutcomeOf(f);
      Step(Reconciled(order, f), [url], Notices(f), Redirected(o, TargetOf(o)))
  }
}
