# SimplePay for WooCommerce — payment-status reconciliation in Dafny

This project models the decision logic of the SimplePay payment gateway plugin
for WooCommerce (`simplepay.php`, class `WC_SimplePay`):

- **Endpoint selection.** Every processor endpoint (token generation, payment
  form script, transaction status) exists on a live host and a test host; the
  `testmode` option selects the test host exactly when it equals `yes`.
- **Token generation.** Checkout POSTs the merchant credentials and the order's
  amount, currency and invoice number to the token endpoint and keeps
  `transaction.token` from the decoded reply, or nothing.
- **The pay page and the session token.** Checkout caches the token in the
  shopper's session; the pay page uses a cached token once and removes it, or
  asks for a fresh one and sends the shopper back to the pay page if none comes.
- **The callback (`checkResponse`).** The processor's callback carries `token`,
  `order_id` and `order_key`. A missing parameter stops the request; an order
  key that does not match ends it with no effect; otherwise the gateway fetches
  the transaction status from the status endpoint followed by the token and
  drives the order into exactly one of four outcomes:

  | status answer | outcome | order | shopper |
  |---|---|---|---|
  | transfer failed | HeldForReview | on-hold, note "Could not check payment status." | error, return page |
  | `errorMessage`, or result `NOK` | Declined | decline note only | same note as error, pay page |
  | result `ACK` (and no `errorMessage`) | Paid | authorisation note, payment marked complete | return page |
  | anything else, undecodable included | Unknown | on-hold, note "Unknown payment status." | "Could not determine payment status.", return page |

  The decline test runs before the `ACK` test, so an error message wins over an
  `ACK` result.

Modules:

- `Wrappers` — `Option`.
- `Endpoints` — settings, the six endpoint constants (host + path), the URL getters.
- `Processor` — the decoded-JSON view, transfer results, the token request, `TokenOf`.
- `Reconciliation` — the callback as a pure function: `Classify`, the notes, `Handle`.
- `Store` — the mutable objects: `Order`, `Shop` (notices and session), and the two
  processor endpoints, which answer by a fixed function and log each request.
- `Gateway` — the handlers written step by step on those objects, each proved
  against the pure definitions.
- `Replay` — several callbacks for one order, each meeting the processor's answer
  at its own moment, proved by induction.

## Model

| member | source | states |
|---|---|---|
| `Endpoints.TokenUrl` | simplepay.php:108-120 | Covers `inTestMode` (lines 108-111) as well: the token URL is the test constant exactly when `testmode` is the string `yes`, otherwise the live one; either way it is the mode's host followed by the token path. |
| `Endpoints.FormUrl` | simplepay.php:122-129 | The form-script URL is the test constant exactly when `testmode` is `yes`, otherwise the live one; it is on the same host as the other endpoints. |
| `Endpoints.StatusUrl` | simplepay.php:131-138 | The status URL is the test constant exactly when `testmode` is `yes`, otherwise the live one; it is on the same host as the other endpoints. |
| `Endpoints.StatusRequestUrl` | simplepay.php:224 | The URL fetched is the mode's status URL followed directly by the token: it starts with the status URL and the rest of it is exactly the token. |
| `Processor.TokenOf` | simplepay.php:183-197 | A token comes back exactly when the POST did not fail and the decoded body holds `transaction.token`, and it is that value; an undecodable body yields none. |
| `Reconciliation.Classify` | simplepay.php:252-326 | Declined iff there is an error message or the result is NOK; Paid iff there is no error message and the result is ACK; Unknown otherwise, an undecodable body included; never HeldForReview. |
| `Reconciliation.OutcomeOf` | simplepay.php:235-253 | HeldForReview exactly when the transfer failed; a body that arrived is classified. |
| `Reconciliation.DeclineNote` | simplepay.php:259-270 | The decline note is "Payment unsuccessful." followed, after `<br>Error: `, by the error message if present, else by the return message if present; with neither it is exactly "Payment unsuccessful.". Reading the note back gives that one detail. |
| `Reconciliation.AuthorisedNote` | simplepay.php:291-301 | The authorisation note starts with "Payment has been authorised.", the transaction ID (when present) follows at once, the response message (when present) ends it, and nothing else is in it. |
| `Reconciliation.TargetOf` | simplepay.php:243-322 | The shopper is sent to the pay page exactly for a decline, to the return page otherwise. |
| `Reconciliation.Handle` | simplepay.php:204-328 | A missing parameter stops with "Invalid response." and no effect; a key mismatch has no effect, no request and no reply; otherwise one status request to the status URL plus token, and the per-outcome effects of the table above (status, the one note, completion, notices, redirect). |
| `Gateway.GeneratePaymentToken` | simplepay.php:153-199 | A null order sends nothing and yields no token; otherwise exactly one POST of the credentials, amount, currency and order id to the mode's token URL, and the token is what `TokenOf` reads from its reply. |
| `Gateway.BuildDeclineNote` | simplepay.php:259-270 | Appending the header and then at most one `<br>Error: ` detail step by step yields exactly the decline note `DeclineNote` defines. |
| `Gateway.BuildAuthorisedNote` | simplepay.php:291-301 | Appending the header, then the transaction ID, then the response message step by step yields exactly the note `AuthorisedNote` defines. |
| `Gateway.CheckResponse` | simplepay.php:204-328 | Run step by step on the order, the shop and the status endpoint, its effects on the order, the requests, the notices and its reply are exactly those of `Handle`; the session is untouched. |
| `Gateway.ProcessPayment` | simplepay.php:337-359 | One token request; with no token an error notice and no result, the session unchanged; with a token it is cached in the session and checkout redirects to the pay page. |
| `Gateway.ReceiptPage` | simplepay.php:367-392 | A cached token is shown in the form with no request and removed from the session; without one a token is requested, and if none comes the shopper gets an error and the pay page; the session is empty afterwards in every case. |
| `Gateway.CheckoutThenPay` | simplepay.php:343-390 | After a successful checkout the pay page shows the token checkout obtained, the processor was asked only once, and the session is empty. |
| `Replay.RunAppendsOneNotePerAcceptedCallback` | simplepay.php:222-326 | Over any sequence of callbacks the notes are only appended to, exactly one per callback that passes the key check, given that a status update always records its note (see `Store.Order.UpdateStatus` under Left out). |
| `Replay.RunCompletesOncePerPayment` | simplepay.php:283-312 | Over any sequence of callbacks `payment_complete` is called exactly once per acknowledged callback. |
| `Replay.RunSetsOnlyOnHold` | simplepay.php:235-326 | The handler's own `update_status` calls (lines 239 and 317) set only on-hold: the status stays what it was or becomes on-hold. What `payment_complete` does to the status is outside the model. |
| `Replay.ForgedCallbacksChangeNothing` | simplepay.php:209-327 | Callbacks that miss a parameter or carry a wrong key leave the order exactly as it was. |
| `Replay.RepeatedAcknowledgementCompletesTwice` | simplepay.php:283-312 | The same acknowledged callback delivered twice calls `payment_complete` twice: there is no already-paid guard. |
| `Replay.PaidOrderCanBePutOnHold` | simplepay.php:235-245 | A later callback whose status check fails puts an already paid order on hold, and `payment_complete` stays called once. |
| `Replay.HeldOrderIsPaidOnRetry` | simplepay.php:235-312 | A callback whose status check fails puts the order on hold without completing it; the same callback delivered again when the processor acknowledges the token calls `payment_complete` once, and the notes added are exactly "Could not check payment status." followed by the authorisation note for the acknowledged answer (given that a status update always records its note, see `Store.Order.UpdateStatus` under Left out). |

Facts about the code that the model keeps:

- There is no already-paid guard: `payment_complete` runs on every ACK
  (simplepay.php:307, `RepeatedAcknowledgementCompletesTwice`), and a later
  failed status check puts a paid order on hold (`PaidOrderCanBePutOnHold`).
- The status answer is read through the optional fields `errorMessage` and
  `transaction.processing.result`, which is what `Classify` tests.
- The notes carry the separators the code writes (`<br>Error: `,
  `<br>Transaction ID: `, `<br>Response: `), and the shopper's error for an
  unknown status ("Could not determine payment status.") differs from the
  order note ("Unknown payment status.").

## Left out

- HTTP transport (`wp_remote_post`, the curl calls, the 60-second timeout, redirect following, form encoding of the body): each endpoint is a function from the request to its result, failure or decoded body.
- `json_decode`: a decoded body is seen through the five paths the gateway reads, each an optional string; a body that does not decode has all of them absent. Non-string JSON values are represented by their string form.
- The separate tests that `transaction` is set, in front of the NOK and ACK comparisons, are not modelled on their own: a present `transaction.processing.result` implies them.
- WooCommerce's own `update_status`, `add_order_note`, `payment_complete` and `key_is_valid`: modelled as setting the status and appending the given note, appending a note, counting the completion, and key equality. What WooCommerce does beyond that (its own status-change note, stock, e-mails, the status set on completion) is not part of this model.
- `Store.Order.UpdateStatus`: always sets the status and appends exactly the given note. WooCommerce's `update_status` (library code) writes its note only when the status actually changes and adds its own status-change sentence to it, so in the running program an order already on hold gets no note from a second on-hold callback; `Replay.RunAppendsOneNotePerAcceptedCallback` and `Replay.HeldOrderIsPaidOnRetry` hold for this stand-in.
- Loading the order from `order_id` (`new WC_Order`): the callback handler receives the order the store loaded.
- URL helpers (`add_query_arg`, `get_permalink`, `get_return_url`, `home_url`, `get_cancel_order_url`, `getPayPageUrl`, `getResponseUrl`): targets are the tags return page and pay page.
- Translation (`__()`): the English texts are used as they are.
- The HTML of the pay page: only what it is built from is kept (form-script URL, token, accepted brands); the response URL and cancel link are not modelled.
- `wp_die` and `exit`: the handler returns its reply and nothing runs after it.
- The settings form (`init_form_fields`), the gateway constructor's option loading, and hook registration.
- `Gateway.GeneratePaymentToken`: the null-order branch is kept as written, although PHP's parameter type already rejects a null order before the body runs.
- `Gateway.CheckoutThenPay`: states only the case where checkout obtained a token; the other case is covered by `ProcessPayment` and `ReceiptPage`.
