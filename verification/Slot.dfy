/** One shared-memory slot: a proxy thread, any number of handlers, two counting semaphores,
    a tag, and a union used for the request and then for the response. */
module Slot {
  import opened Types
  import opened Bytes
  import opened Records
  import opened Ledger

  datatype Tag = Unset | TagPost | TagSummary | TagPurge

  datatype Response = Response(onDefault: Summary, onFallback: Summary)

  /** What the union holds. */
  datatype Union =
    | Raw
    | Body(id: seq<Byte>, amount: Word)
    | Query(from: Option<Int64>, to: Option<Int64>)
    | Answer(response: Response)

  /** What a client can ask of the proxy; the unreadable ones fail while the slot is being written:
      a body or a lower bound that does not parse, or an upper bound after the lower one was stored. */
  datatype Request =
    | PostPayments(id: seq<Byte>, amount: Word)
    | UnreadablePost
    | PaymentsSummary(from: Option<Int64>, to: Option<Int64>)
    | UnreadableSummary
    | UnreadableTo(from: Option<Int64>)
    | PurgePayments
    | UnknownTarget

  datatype Write = SetTag(tag: Tag) | SetUnion(body: Union)

  predicate Valid(r: Request) {
    r.PostPayments? ==> Acceptable(r.id, r.amount)
  }

  /** The writes a request makes to the slot, in order. A post writes the union before its tag and
      before it knows whether the payment is acceptable; a summary writes its tag first. */
  function Writes(r: Request): seq<Write> {
    match r
    case PostPayments(id, amount) =>
      if Valid(r) then
        [SetUnion(Body(ZeroId(), 0)), SetUnion(Body(ZeroId(), amount)), SetUnion(Body(id, amount)), SetTag(TagPost)]
      else [SetUnion(Body(ZeroId(), 0)), SetUnion(Body(ZeroId(), amount))]
    case UnreadablePost => [SetUnion(Body(ZeroId(), 0))]
    case PaymentsSummary(from, to) =>
      [SetTag(TagSummary), SetUnion(Query(None, None)), SetUnion(Query(from, None)), SetUnion(Query(from, to))]
    case UnreadableSummary => [SetTag(TagSummary), SetUnion(Query(None, None))]
    case UnreadableTo(from) => [SetTag(TagSummary), SetUnion(Query(None, None)), SetUnion(Query(from, None))]
    case PurgePayments => [SetTag(TagPurge)]
    case UnknownTarget => []
  }

  /** The request wakes a handler. */
  predicate Posts(r: Request) {
    (r.PostPayments? && Valid(r)) || Awaits(r)
  }

  /** The proxy waits for the response. */
  predicate Awaits(r: Request) {
    r.PaymentsSummary? || r.PurgePayments?
  }

  datatype Proxy =
    | Resting
    | Writing(request: Request, done: nat)
    | Awaiting(request: Request)
    | Reading(request: Request)

  datatype Handler =
    | Sleeping
    | Awake
    | ReadingBody
    | Copied(body: Union)
    | ReadingQuery
    | Computing(query: Union)
    | Purging
    | Signalling

  /** What happens on the slot, in order. */
  datatype Event =
    | Posted(request: Request)
    | Taken(body: Union)
    | Served(query: Union, response: Response)
    | Purged
    | Signalled
    | Returned(request: Request, body: Union)

  datatype State = State(
    requestReady: nat,
    responseReady: nat,
    tag: Tag,
    body: Union,
    proxy: Proxy,
    handlers: seq<Handler>,
    enqueued: seq<Union>,
    wire: seq<Event>)

  /** The response of a summary is whatever the ledger gives. */
  datatype Action = Begin(request: Request) | ProxyStep | Handle(handler: nat, response: Response)

  function Perform(s: State, w: Write): State {
    match w
    case SetTag(tag) => s.(tag := tag)
    case SetUnion(body) => s.(body := body)
  }

  function DoProxy(s: State): State {
    match s.proxy
    case Resting => s
    case Writing(r, k) =>
      if k < |Writes(r)| then Perform(s, Writes(r)[k]).(proxy := Writing(r, k + 1))
      else if Posts(r) then
        s.(requestReady := s.requestReady + 1, wire := s.wire + [Posted(r)],
           proxy := if Awaits(r) then Awaiting(r) else Resting)
      else s.(proxy := Resting)
    case Awaiting(r) =>
      if s.responseReady == 0 then s
      else s.(responseReady := s.responseReady - 1, proxy := Reading(r))
    case Reading(r) =>
      s.(wire := s.wire + [Returned(r, if r.PurgePayments? then Raw else s.body)], proxy := Resting)
  }

  function SetHandler(s: State, h: nat, phase: Handler): State
    requires h < |s.handlers|
  {
    s.(handlers := s.handlers[h := phase])
  }

  /** What a woken handler does about the tag it finds. */
  function Dispatch(tag: Tag): Handler {
    match tag
    case TagPost => ReadingBody
    case TagSummary => ReadingQuery
    case TagPurge => Purging
    case Unset => Signalling
  }

  function DoHandle(s: State, h: nat, response: Response): State
    requires h < |s.handlers|
  {
    match s.handlers[h]
    case Sleeping =>
      if s.requestReady == 0 then s else SetHandler(s, h, Awake).(requestReady := s.requestReady - 1)
    case Awake =>
      SetHandler(s, h, Dispatch(s.tag))
    case ReadingBody => SetHandler(s, h, Copied(s.body)).(wire := s.wire + [Taken(s.body)])
    case Copied(b) => SetHandler(s, h, Sleeping).(enqueued := s.enqueued + [b])
    case ReadingQuery => SetHandler(s, h, Computing(s.body))
    case Computing(q) =>
      SetHandler(s, h, Signalling).(body := Answer(response), wire := s.wire + [Served(q, response)])
    case Purging => SetHandler(s, h, Signalling).(wire := s.wire + [Purged])
    case Signalling =>
      SetHandler(s, h, Sleeping).(responseReady := s.responseReady + 1, wire := s.wire + [Signalled])
  }

  function Step(s: State, a: Action): State {
    match a
    case Begin(r) => if s.proxy.Resting? then s.(proxy := Writing(r, 0)) else s
    case ProxyStep => DoProxy(s)
    case Handle(h, response) => if h < |s.handlers| then DoHandle(s, h, response) else s
  }

  function Run(s: State, actions: seq<Action>): State
    decreases |actions|
  {
    if actions == [] then s else Run(Step(s, actions[0]), actions[1..])
  }

  /** A slot as the coordinator creates it. */
  predicate Initial(s: State) {
    && s.requestReady == 0 && s.responseReady == 0 && s.tag == Unset && s.body == Raw
    && s.proxy == Resting && s.enqueued == [] && s.wire == []
    && forall h :: 0 <= h < |s.handlers| ==> s.handlers[h] == Sleeping
  }
}
