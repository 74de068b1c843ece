/**
 * The mutable objects the gateway works on: the order (owned by the shop's
 * order store), the shop's notice list and session, and the processor's two
 * endpoints. The processor is given by what it answers to each request; the
 * endpoint objects only remember which requests were made.
 */
module Store {
  import opened Wrappers
  import opened Processor
  import opened Reconciliation

  class Order {
    const id: nat
    const key: string
    const total: string
    var status: string
    var notes: seq<string>
    var completions: nat   // how many times the payment was marked complete

    function State(): OrderState
      reads this
    {
      OrderState(status, notes, completions)
    }

    constructor (id: nat, key: string, total: string, status: string)
      ensures this.id == id && this.key == key && this.total == total
      ensures State() == OrderState(status, [], 0)
    {
      this.id, this.key, this.total := id, key, total;
      this.status, this.notes, this.completions := status, [], 0;
    }

    /** An order key is valid when it equals the order's own key. */
    predicate KeyIsValid(k: string) {
      k == key
    }

    /** Sets the status and records the reason as a note. */
    method UpdateStatus(newStatus: string, note: string)
      modifies this
      ensures State() == old(State()).(status := newStatus, notes := old(notes) + [note])
    {
      status := newStatus;
      notes := notes + [note];
    }

    method AddOrderNote(note: string)
      modifies this
      ensures State() == old(State()).(notes := old(notes) + [note])
    {
      notes := notes + [note];
    }

    /** Marks the payment complete; nothing here stops it from happening twice. */
    method PaymentComplete()
      modifies this
      ensures State() == old(State()).(completions := old(completions) + 1)
    {
      completions := completions + 1;
    }
  }

  /** The shop-wide objects a request sees: its queued error notices and the shopper's session. */
  class Shop {
    var errors: seq<string>
    var paymentToken: Option<string>   // the session's cached payment token

    constructor (paymentToken: Option<string>)
      ensures errors == [] && this.paymentToken == paymentToken
    {
      errors, this.paymentToken := [], paymentToken;
    }

    method AddError(message: string)
      modifies this
      ensures errors == old(errors) + [message] && paymentToken == old(paymentToken)
    {
      errors := errors + [message];
    }
  }

  /** The status endpoint, reached by GET. */
  class StatusServer {
    const respond: string -> Fetched
    var requested: seq<string>

    constructor (respond: string -> Fetched)
      ensures this.respond == respond && requested == []
    {
      this.respond, requested := respond, [];
    }

    method Get(url: string) returns (f: Fetched)
      modifies this
      ensures requested == old(requested) + [url] && f == respond(url)
    {
      requested := requested + [url];
      f := respond(url);
    }
  }

  /** The token endpoint, reached by a form-encoded POST. */
  class TokenServer {
    const respond: (string, TokenRequest) -> PostResult
    var posted: seq<(string, TokenRequest)>

    constructor (respond: (string, TokenRequest) -> PostResult)
      ensures this.respond == respond && posted == []
    {
      this.respond, posted := respond, [];
    }

    method Post(url: string, request: TokenRequest) returns (p: PostResult)
      modifies this
      ensures posted == old(posted) + [(url, request)] && p == respond(url, request)
    {
      posted := posted + [(url, request)];
      p := respond(url, request);
    }
  }
}
