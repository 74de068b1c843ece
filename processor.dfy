/**
 * What the gateway sends to the payment processor and what it reads back.
 * Decoding JSON is not modelled: a decoded body is seen only through the
 * handful of paths the gateway looks up, each absent when the path is missing
 * or holds null (PHP's `isset` is false for both). A body that does not decode
 * has every path absent.
 */
module Processor {
  import opened Wrappers
  import opened Endpoints

  datatype Json = Json(
    errorMessage: Option<string>,   // errorMessage
    result: Option<string>,         // transaction.processing.result
    returnMessage: Option<string>,  // transaction.processing.return.message
    uniqueId: Option<string>,       // transaction.identification.uniqueId
    token: Option<string>)          // transaction.token

  const Undecodable := Json(None, None, None, None, None)

  /** The form fields of a token request, named after the processor's parameters. */
  datatype TokenRequest = TokenRequest(
    securitySender: string,        // SECURITY.SENDER
    transactionChannel: string,    // TRANSACTION.CHANNEL
    transactionMode: string,       // TRANSACTION.MODE
    userLogin: string,             // USER.LOGIN
    userPwd: string,               // USER.PWD
    paymentType: string,           // PAYMENT.TYPE
    amount: string,                // PRESENTATION.AMOUNT
    currency: string,              // PRESENTATION.CURRENCY
    invoiceId: nat)                // IDENTIFICATION.INVOICEID

  /** The result of the token POST: a transport error, or a response whose body was decoded. */
  datatype PostResult = WpError | Posted(body: Json)

  /** The result of the status GET: the transfer failed, or it returned a body that was decoded. */
  datatype Fetched = TransportFailure | Received(body: Json)

  /** The credentials come from the settings, the amount and invoice number from the order. */
  function TokenRequestFor(s: Settings, orderId: nat, total: string, currency: string): TokenRequest {
    TokenRequest(s.securitySender, s.transactionChannel, s.transactionMode, s.userLogin,
                 s.userPwd, s.paymentType, total, currency, orderId)
  }

  /**
   * The token a token response yields: present exactly when the request did not
   * fail and the decoded body holds `transaction.token`, and then that value.
   */
  function TokenOf(p: PostResult): (t: Option<string>)
    ensures t.Some? <==> p.Posted? && p.body.token.Some?
    ensures t.Some? ==> t.value == p.body.token.value
    ensures p == Posted(Undecodable) ==> t == None   // the undecodable case, spelled out
  {
    match p
    case WpError => None
    case Posted(body) => body.token
  }
}
