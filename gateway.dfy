/**
 * The gateway's request handlers, written step by step on the mutable objects
 * the way the plugin runs them, and proved against the pure definitions in
 * modules Processor and Reconciliation. Each `return` stands for a redirect or
 * a stop after which nothing else runs.
 */
module Gateway {
  import opened Wrappers
  import opened Endpoints
  import opened Processor
  import opened Reconciliation
  import opened Store

  const CouldNotConnect := "Could not connect to payment gateway."

  /** What checkout answers: nothing (an error notice was queued), or success with a redirect. */
  datatype Checkout = NoResult | Success(redirect: Target)

  /** What the pay page produces: the payment form for a token, or a redirect. */
  datatype Page = PaymentForm(scriptUrl: string, token: string, brands: seq<string>) | RedirectTo(target: Target)

  /**
   * Asks the processor for a payment token for the order: one POST to the
   * mode's token endpoint, except for a null order, which sends nothing.
   */
  method GeneratePaymentToken(s: Settings, order: Order?, currency: string, server: TokenServer)
    returns (token: Option<string>)
    modifies server
    ensures order == null ==> token == None && server.posted == old(server.posted)
    ensures order != null ==>
      var request := TokenRequestFor(s, order.id, order.total, currency);
      && server.posted == old(server.posted) + [(TokenUrl(s), request)]
      && token == TokenOf(server.respond(TokenUrl(s), request))
  {
    var tokenUrl := TokenUrl(s);
    if order != null {
      var request := TokenRequestFor(s, order.id, order.total, currency);
      var response := server.Post(tokenUrl, request);
      if response.WpError? {
        return None;
      }
      var json := response.body;
      if json.token.Some? {
        return json.token;
      }
    }
    token := None;
  }

  /** The decline note, built the way the callback builds it: header, then at most one detail. */
  method BuildDeclineNote(json: Json) returns (errorMsg: string)
    ensures errorMsg == DeclineNote(json)
  {
    errorMsg := UnsuccessfulHeader;
    if json.errorMessage.Some? {
      errorMsg := errorMsg + ErrorLabel + json.errorMessage.value;
    } else if json.returnMessage.Some? {
      errorMsg := errorMsg + ErrorLabel + json.returnMessage.value;
    }
  }

  /** The authorisation note, built the way the callback builds it: header, transaction ID, response. */
  method BuildAuthorisedNote(json: Json) returns (successMsg: string)
    ensures successMsg == AuthorisedNote(json)
  {
    successMsg := AuthorisedHeader;
    if json.uniqueId.Some? {
      successMsg := successMsg + TransactionLabel + json.uniqueId.value;
    }
    if json.returnMessage.Some? {
      successMsg := successMsg + ResponseLabel + json.returnMessage.value;
    }
  }

  /**
   * Handles the processor's callback for an order, the order that the store
   * loaded for the callback's `order_id`. Its effects on the order, the
   * processor, the shopper's notices and the reply are exactly those of
   * `Handle`; the session is left alone.
   */
  method CheckResponse(s: Settings, q: Query, order: Order, shop: Shop, server: StatusServer)
    returns (reply: Reply)
    modifies order, shop, server
    ensures
      var step := Handle(s, q, order.key, old(order.State()), server.respond);
      && order.State() == step.order
      && server.requested == old(server.requested) + step.requests
      && shop.errors == old(shop.errors) + step.notices
      && shop.paymentToken == old(shop.paymentToken)
      && reply == step.reply
  {
    if q.token.None? || q.orderId.None? || q.orderKey.None? {
      return Died(InvalidResponse);
    }
    var token, orderKey := q.token.value, q.orderKey.value;
    if order.KeyIsValid(orderKey) {
      var statusUrl := StatusUrl(s) + token;
      var fetched := server.Get(statusUrl);
      ghost var step := Handle(s, q, order.key, order.State(), server.respond);
      assert statusUrl == StatusRequestUrl(s, token);
      assert step == Step(Reconciled(order.State(), fetched), [statusUrl], Notices(fetched),
                          Redirected(OutcomeOf(fetched), TargetOf(OutcomeOf(fetched))));
      if fetched.TransportFailure? {
        order.UpdateStatus(OnHold, CouldNotCheck);
        shop.AddError(CouldNotCheck);
        return Redirected(HeldForReview, ReturnPage);
      }
      var json := fetched.body;
      if json.errorMessage.Some? || json.result == Some(Nok) {
        var errorMsg := BuildDeclineNote(json);
        order.AddOrderNote(errorMsg);
        shop.AddError(errorMsg);
        return Redirected(Declined, PayPage);
      } else if json.result.Some? && json.result.value == Ack {
        var successMsg := BuildAuthorisedNote(json);
        order.AddOrderNote(successMsg);
        order.PaymentComplete();
        return Redirected(Paid, ReturnPage);
      } else {
        order.UpdateStatus(OnHold, UnknownStatus);
        shop.AddError(CouldNotDetermine);
        return Redirected(Unknown, ReturnPage);
      }
    }
    reply := NoReply;
  }

  /**
   * Checkout: obtains a token and caches it in the session for the pay page.
   * Without a token the shopper gets an error and no result.
   */
  method ProcessPayment(s: Settings, order: Order, currency: string, shop: Shop, server: TokenServer)
    returns (result: Checkout)
    modifies shop, server
    ensures
      var request := TokenRequestFor(s, order.id, order.total, currency);
      var token := TokenOf(server.respond(TokenUrl(s), request));
      && server.posted == old(server.posted) + [(TokenUrl(s), request)]
      && (token.None? ==>
            && result == NoResult
            && shop.errors == old(shop.errors) + [CouldNotConnect]
            && shop.paymentToken == old(shop.paymentToken))
      && (token.Some? ==>
            && result == Success(PayPage)
            && shop.errors == old(shop.errors)
            && shop.paymentToken == token)
  {
    var paymentToken := GeneratePaymentToken(s, order, currency, server);
    if paymentToken.None? {
      shop.AddError(CouldNotConnect);
      return NoResult;
    }
    shop.paymentToken := paymentToken;
    result := Success(PayPage);
  }

  /**
   * The pay page. A token cached in the session is used once and removed from
   * it, without asking the processor; otherwise a fresh token is requested, and
   * if none comes back the shopper is sent back to the pay page with an error
   * and no form. Either way the session holds no token afterwards.
   */
  method ReceiptPage(s: Settings, order: Order, currency: string, shop: Shop, server: TokenServer)
    returns (page: Page)
    modifies shop, server
    ensures shop.paymentToken == None
    ensures old(shop.paymentToken).Some? ==>
      && page == PaymentForm(FormUrl(s), old(shop.paymentToken).value, s.acceptedBrands)
      && server.posted == old(server.posted)
      && shop.errors == old(shop.errors)
    ensures old(shop.paymentToken).None? ==>
      var request := TokenRequestFor(s, order.id, order.total, currency);
      var token := TokenOf(server.respond(TokenUrl(s), request));
      && server.posted == old(server.posted) + [(TokenUrl(s), request)]
      && (token.None? ==> page == RedirectTo(PayPage) && shop.errors == old(shop.errors) + [CouldNotConnect])
      && (token.Some? ==> page == PaymentForm(FormUrl(s), token.value, s.acceptedBrands) && shop.errors == old(shop.errors))
  {
    var paymentToken: Option<string>;
    if shop.paymentToken.None? {
      paymentToken := GeneratePaymentToken(s, order, currency, server);
      if paymentToken.None? {
        shop.AddError(CouldNotConnect);
        return RedirectTo(PayPage);
      }
    } else {
      paymentToken := shop.paymentToken;
      shop.paymentToken := None;
    }
    page := PaymentForm(FormUrl(s), paymentToken.value, s.acceptedBrands);
  }

  /**
   * Checkout followed by the pay page: when checkout obtained a token, the form
   * shows that very token, the processor was asked for a token only once, and
   * the session is empty again.
   */
  method CheckoutThenPay(s: Settings, order: Order, currency: string, shop: Shop, server: TokenServer)
    returns (result: Checkout, page: Page)
    modifies shop, server
    ensures result.Success? ==>
      var token := TokenOf(server.respond(TokenUrl(s), TokenRequestFor(s, order.id, order.total, currency)));
      && |server.posted| == |old(server.posted)| + 1
      && token.Some?
      && page == PaymentForm(FormUrl(s), token.value, s.acceptedBrands)
      && shop.paymentToken == None
  {
    result := ProcessPayment(s, order, currency, shop, server);
    page := ReceiptPage(s, order, currency, shop, server);
  }
}
