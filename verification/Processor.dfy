/** A worker's retry loop for one payment. */
module Processor {
  import opened Types
  import opened Bytes
  import opened Records
  import opened Ledger
  import opened Repository

  const NO_RESPONSE: int := -1
  const STATUS_OK: int := 200

  /** The clock of the machine, in milliseconds since 1970. */
  type Millis = t: Int64 | t >= 0

  datatype Verdict = Accepted | Retried | Rejected

  /** What the loop does with an HTTP status, -1 standing for no response. */
  function Judge(status: int): (v: Verdict)
    ensures v == Accepted <==> status == 200
    ensures v == Retried <==> status == -1 || 500 <= status <= 599
  {
    if status == STATUS_OK then Accepted
    else if !(status == NO_RESPONSE || (status >= 500 && status <= 599)) then Rejected
    else Retried
  }

  /** The configured addresses of the two processors. */
  datatype Url = DefaultUrl | FallbackUrl

  function UrlOf(g: Gateway): Url {
    match g
    case Default => DefaultUrl
    case Fallback => FallbackUrl
  }

  /** The processor that answers at an address. */
  function ServerAt(u: Url): Gateway {
    match u
    case DefaultUrl => Default
    case FallbackUrl => Fallback
  }

  /** An HTTP request as it leaves: where it goes and what it says. */
  datatype Post = Post(target: Url, payment: Payment, requestedAt: Millis)

  /** What one iteration meets: stores to the gateway register by other threads before it is
      read, the clock, and the outcome of the request. */
  datatype Turn = Turn(others: seq<Gateway>, requestedAt: Millis, status: int)

  /** The shared byte that names the gateway to use. */
  class GatewayRegister {
    var current: Gateway

    constructor ()
      ensures current == Default
    {
      current := Default;
    }

    /** Stores by other threads. */
    method Disturb(others: seq<Gateway>)
      modifies this
      ensures current == Latest(old(current), others)
    {
      if others != [] {
        current := others[|others| - 1];
      }
    }
  }

  class HttpClient {
    const target: Url

    constructor (target: Url)
      ensures this.target == target
    {
      this.target := target;
    }
  }

  /** The gateway captured by iteration k: the last store before it, whoever made it. */
  function Captured(start: Gateway, turns: seq<Turn>, k: nat): Gateway
    requires k < |turns|
  {
    Latest(if k == 0 then start else Captured(start, turns, k - 1), turns[k].others)
  }

  /** The request of iteration k when a client is built from scratch for the captured gateway. */
  function FreshPost(payment: Payment, start: Gateway, turns: seq<Turn>, k: nat): Post
    requires k < |turns|
  {
    Post(UrlOf(Captured(start, turns, k)), payment, turns[k].requestedAt)
  }

  /** What the register holds when iteration k begins. */
  function Before(start: Gateway, turns: seq<Turn>, k: nat): Gateway
    requires k <= |turns|
  {
    if k == 0 then start else Captured(start, turns, k - 1)
  }

  ghost predicate SentFresh(sent: seq<Post>, payment: Payment, start: Gateway, turns: seq<Turn>) {
    |sent| <= |turns| && forall k :: 0 <= k < |sent| ==> sent[k] == FreshPost(payment, start, turns, k)
  }

  lemma SentOneMore(sent: seq<Post>, payment: Payment, start: Gateway, turns: seq<Turn>, gateway: Gateway)
    requires SentFresh(sent, payment, start, turns) && |sent| < |turns|
    requires gateway == Latest(Before(start, turns, |sent|), turns[|sent|].others)
    ensures gateway == Captured(start, turns, |sent|)
    ensures SentFresh(sent + [Post(UrlOf(gateway), payment, turns[|sent|].requestedAt)], payment, start, turns)
  {
  }

  /** r has been added to the records of g, and the other table is as it was. */
  ghost predicate AddedTo(en: Endian, before: Tables, after: Tables, g: Gateway, r: Record) {
    && after.Of(Other(g)) == before.Of(Other(g))
    && RecordsOf(en, after.Of(g)) == RecordsOf(en, before.Of(g)) + {r}
  }

  /** How a payment ends; Pending is a loop still retrying when the observation ends. */
  datatype Outcome = Recorded | Dropped | Pending

  /** The loop. Its requests are returned in order; the last one decides the outcome. */
  method ProcessPayment(payment: Payment, register: GatewayRegister, service: PaymentService, env: Environment,
                        turns: seq<Turn>)
    returns (outcome: Outcome, sent: seq<Post>)
    requires service.Valid() && !env.writing && env.tables.Valid(env.endian)
    modifies register, env
    ensures !env.writing && env.tables.Valid(env.endian)
    // Every request goes where a fresh client would have sent it.
    ensures SentFresh(sent, payment, old(register.current), turns)
    // All attempts before the last met no response or a server error; the loop goes on exactly while they do.
    ensures forall k :: 0 <= k < |sent| - 1 ==> turns[k].status == -1 || 500 <= turns[k].status <= 599
    ensures outcome == Pending <==>
              |sent| == |turns| && forall k :: 0 <= k < |turns| ==> turns[k].status == -1 || 500 <= turns[k].status <= 599
    // Any other status ends it: 200 with one record, the rest with a flip and no record.
    ensures outcome == Recorded <==> sent != [] && turns[|sent| - 1].status == 200
    ensures outcome == Dropped <==>
              sent != [] && var last := turns[|sent| - 1].status; last != 200 && last != -1 && !(500 <= last <= 599)
    ensures outcome == Recorded ==>
              var last := |sent| - 1;
              var g := Captured(old(register.current), turns, last);
              && register.current == g
              && g == ServerAt(sent[last].target)
              && AddedTo(env.endian, old(env.tables), env.tables, g, Record(sent[last].requestedAt, payment.amount, payment.id))
    ensures outcome != Recorded ==> env.tables == old(env.tables)
    ensures outcome == Dropped ==> register.current == Other(Captured(old(register.current), turns, |sent| - 1))
    ensures outcome == Pending ==> register.current == Before(old(register.current), turns, |turns|)
  {
    ghost var start := register.current;
    var httpClient: HttpClient? := null;
    var url: Option<Url> := None;
    var i := 0;
    sent := [];
    while i < |turns|
      invariant i == |sent| <= |turns|
      invariant !env.writing && env.tables == old(env.tables)
      invariant register.current == Before(start, turns, i)
      invariant url.Some? ==> httpClient != null && httpClient.target == url.value
      invariant SentFresh(sent, payment, start, turns)
      invariant forall k :: 0 <= k < i ==> turns[k].status == -1 || 500 <= turns[k].status <= 599
    {
      register.Disturb(turns[i].others);
      var gateway := register.current;
      var oldUrl := url;
      url := Some(UrlOf(gateway));
      if oldUrl.None? || url != oldUrl {
        httpClient := new HttpClient(url.value);
      }
      var requestedAt := turns[i].requestedAt;
      SentOneMore(sent, payment, start, turns, gateway);
      sent := sent + [Post(httpClient.target, payment, requestedAt)];
      var httpStatus := turns[i].status;
      if httpStatus == STATUS_OK {
        service.PostPayment(env, gateway, payment.amount, payment.id, requestedAt);
        return Recorded, sent;
      } else if !(httpStatus == NO_RESPONSE || (httpStatus >= 500 && httpStatus <= 599)) {
        register.current := if gateway == Default then Fallback else Default;
        return Dropped, sent;
      }
      i := i + 1;
    }
    outcome := Pending;
  }
}
