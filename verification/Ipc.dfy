/** The shared-memory connection as objects: its slots, what the proxy thread writes to one,
    and what a handler does with one. */
module Ipc {
  import opened Types
  import opened Bytes
  import opened Records
  import opened Ledger
  import opened Repository
  import opened Queue
  import opened Slot

  /** n statements of the proxy thread with nobody in between. */
  function ProxyAlone(s: State, n: nat): State
    decreases n
  {
    if n == 0 then s else ProxyAlone(DoProxy(s), n - 1)
  }

  function PerformAll(s: State, ws: seq<Write>): State
    decreases |ws|
  {
    if ws == [] then s else PerformAll(Perform(s, ws[0]), ws[1..])
  }

  /** Running alone, the proxy makes all writes of r and then posts it if it posts at all. */
  lemma {:induction false} ProxyAloneWrites(s: State, r: Request, k: nat)
    requires s.proxy == Writing(r, k) && k <= |Writes(r)|
    ensures ProxyAlone(s, |Writes(r)| + 1 - k) ==
            DoProxy(PerformAll(s, Writes(r)[k..]).(proxy := Writing(r, |Writes(r)|)))
    decreases |Writes(r)| - k
  {
    var ws := Writes(r)[k..];
    if k < |Writes(r)| {
      var next := Perform(s, ws[0]).(proxy := Writing(r, k + 1));
      ProxyAloneWrites(next, r, k + 1);
      assert ws[1..] == Writes(r)[k + 1..];
      PerformAllKeepsProxy(Perform(s, ws[0]), ws[1..], Writing(r, k + 1));
    } else {
      assert ProxyAlone(DoProxy(s), 0) == DoProxy(s);
    }
  }

  lemma {:induction false} PerformAllKeepsProxy(s: State, ws: seq<Write>, proxy: Proxy)
    ensures PerformAll(s.(proxy := proxy), ws) == PerformAll(s, ws).(proxy := proxy)
    decreases |ws|
  {
    if ws != [] {
      PerformAllKeepsProxy(Perform(s, ws[0]), ws[1..], proxy);
      assert Perform(s.(proxy := proxy), ws[0]) == Perform(s, ws[0]).(proxy := proxy);
    }
  }

  /** The last tag and the last body written are what counts. */
  lemma WritesSettle(s: State, r: Request)
    ensures var t := PerformAll(s, Writes(r));
            match r
            case PaymentsSummary(from, to) => t == s.(tag := TagSummary, body := Query(from, to))
            case UnreadableSummary => t == s.(tag := TagSummary, body := Query(None, None))
            case UnreadableTo(from) => t == s.(tag := TagSummary, body := Query(from, None))
            case PostPayments(id, amount) =>
              t == if Valid(r) then s.(tag := TagPost, body := Body(id, amount)) else s.(body := Body(ZeroId(), amount))
            case UnreadablePost => t == s.(body := Body(ZeroId(), 0))
            case PurgePayments => t == s.(tag := TagPurge)
            case UnknownTarget => t == s
  {
    var ws := Writes(r);
    var s1 := if |ws| > 0 then Perform(s, ws[0]) else s;
    var s2 := if |ws| > 1 then Perform(s1, ws[1]) else s1;
    var s3 := if |ws| > 2 then Perform(s2, ws[2]) else s2;
    var s4 := if |ws| > 3 then Perform(s3, ws[3]) else s3;
    if |ws| > 0 {
      assert PerformAll(s, ws) == PerformAll(s1, ws[1..]);
    }
    if |ws| > 1 {
      assert ws[1..][1..] == ws[2..];
      assert PerformAll(s1, ws[1..]) == PerformAll(s2, ws[2..]);
    }
    if |ws| > 2 {
      assert ws[2..][1..] == ws[3..];
      assert PerformAll(s2, ws[2..]) == PerformAll(s3, ws[3..]);
    }
    if |ws| > 3 {
      assert ws[3..][1..] == [];
      assert PerformAll(s3, ws[3..]) == s4;
    }
  }

  /** n statements of handler h with nobody in between. */
  function HandlerAlone(s: State, h: nat, response: Response, n: nat): State
    requires h < |s.handlers|
    decreases n
  {
    if n == 0 then s else HandlerAlone(DoHandle(s, h, response), h, response, n - 1)
  }

  /** The statements of one turn, from the wait back to it. */
  function TurnLength(tag: Tag): nat {
    match tag
    case TagSummary => 5
    case TagPost => 4
    case TagPurge => 4
    case Unset => 3
  }

  /** What one uninterrupted turn of a handler comes to. */
  lemma HandlerTurn(s: State, h: nat, response: Response)
    requires h < |s.handlers| && s.handlers[h].Sleeping? && s.requestReady > 0
    ensures var t := s.(requestReady := s.requestReady - 1);
            HandlerAlone(s, h, response, TurnLength(s.tag)) ==
            match s.tag
            case TagPost => t.(enqueued := s.enqueued + [s.body], wire := s.wire + [Taken(s.body)])
            case TagSummary =>
              t.(responseReady := s.responseReady + 1, body := Answer(response), wire := s.wire + [Served(s.body, response), Signalled])
            case TagPurge => t.(responseReady := s.responseReady + 1, wire := s.wire + [Purged, Signalled])
            case Unset => t.(responseReady := s.responseReady + 1, wire := s.wire + [Signalled])
  {
    var s1 := DoHandle(s, h, response);
    var s2 := DoHandle(s1, h, response);
    var s3 := DoHandle(s2, h, response);
    var s4 := if s.tag.Unset? then s3 else DoHandle(s3, h, response);
    var s5 := if s.tag.TagSummary? then DoHandle(s4, h, response) else s4;
    assert s5.handlers == s.handlers;
    var n := TurnLength(s.tag);
    assert HandlerAlone(s, h, response, n) == HandlerAlone(s1, h, response, n - 1);
    assert HandlerAlone(s1, h, response, n - 1) == HandlerAlone(s2, h, response, n - 2);
    assert HandlerAlone(s2, h, response, n - 2) == HandlerAlone(s3, h, response, n - 3);
    if !s.tag.Unset? {
      assert HandlerAlone(s3, h, response, n - 3) == HandlerAlone(s4, h, response, n - 4);
    }
    if s.tag.TagSummary? {
      assert HandlerAlone(s4, h, response, n - 4) == HandlerAlone(s5, h, response, 0);
    }
  }

  /** The bytes of the union read as a payment: the payment written there, or after an early rewrite
      whatever they happen to say, `misread`. */
  function AsPayment(body: Union, misread: Payment): Payment {
    if body.Body? && |body.id| == ID_SIZE then Payment(body.amount, body.id) else misread
  }

  /** The same for the range of a summary. */
  function AsQuery(body: Union, misread: (Option<Int64>, Option<Int64>)): (Option<Int64>, Option<Int64>) {
    if body.Query? then (body.from, body.to) else misread
  }

  class IpcMessage {
    var requestReady: nat
    var responseReady: nat
    var messageType: Tag
    var body: Union

    constructor ()
      ensures requestReady == 0 && responseReady == 0 && messageType == Unset && body == Raw
    {
      requestReady, responseReady := 0, 0;
      messageType, body := Unset, Raw;
    }

    /** The slot as a state of the protocol, given what is not stored in it. */
    function View(proxy: Proxy, handlers: seq<Handler>, enqueued: seq<Union>, wire: seq<Event>): State
      reads this
    {
      State(requestReady, responseReady, messageType, body, proxy, handlers, enqueued, wire)
    }

    /** The proxy's code up to the wait for a response. Run without interruption it is exactly the proxy
        steps of the protocol; `posted` tells whether a handler was woken. */
    method WriteRequest(r: Request, ghost handlers: seq<Handler>, ghost enqueued: seq<Union>, ghost wire: seq<Event>)
      returns (posted: bool)
      modifies this
      ensures posted == Posts(r)
      ensures posted <==> match r
                          case PostPayments(id, amount) => |id| == 36 && 0 < amount < 0x8000_0000_0000_0000
                          case PaymentsSummary(_, _) => true
                          case PurgePayments => true
                          case _ => false
      ensures View(if Awaits(r) then Awaiting(r) else Resting, handlers, enqueued, if posted then wire + [Posted(r)] else wire) ==
              ProxyAlone(Step(old(View(Resting, handlers, enqueued, wire)), Begin(r)), |Writes(r)| + 1)
    {
      ghost var s := View(Resting, handlers, enqueued, wire);
      ProxyAloneWrites(Step(s, Begin(r)), r, 0);
      assert Writes(r)[0..] == Writes(r);
      WritesSettle(Step(s, Begin(r)), r);
      if r.PostPayments? {
        AcceptableIff(r.id, r.amount);
      }
      posted := false;
      match r
      case PaymentsSummary(from, to) =>
        messageType := TagSummary;
        body := Query(None, None);
        body := Query(from, None);
        body := Query(from, to);
        requestReady := requestReady + 1;
        posted := true;
      case UnreadableSummary =>
        messageType := TagSummary;
        body := Query(None, None);
      case UnreadableTo(from) =>
        messageType := TagSummary;
        body := Query(None, None);
        body := Query(from, None);
      case PostPayments(id, amount) =>
        body := Body(ZeroId(), 0);
        body := Body(ZeroId(), amount);
        if |id| == ID_SIZE && AmountOf(amount) > 0.0 {
          body := Body(id, amount);
          messageType := TagPost;
          requestReady := requestReady + 1;
          posted := true;
        }
      case UnreadablePost =>
        body := Body(ZeroId(), 0);
      case PurgePayments =>
        messageType := TagPurge;
        requestReady := requestReady + 1;
        posted := true;
      case UnknownTarget =>
    }

    /** One turn of a handler, called when a request permit is up. After an early rewrite the union need not
        show what the tag says. */
    method HandleRequest(env: Environment, service: PaymentService, queue: PendingPaymentsQueue,
                         misreadPayment: Payment, misreadQuery: (Option<Int64>, Option<Int64>),
                         ghost h: nat, ghost proxy: Proxy, ghost handlers: seq<Handler>, ghost enqueued: seq<Union>, ghost wire: seq<Event>)
      returns (ghost response: Response)
      requires requestReady > 0 && h < |handlers| && handlers[h].Sleeping?
      requires service.Valid() && !env.writing && env.tables.Valid(env.endian)
      modifies this, env, queue
      ensures requestReady == old(requestReady) - 1 && messageType == old(messageType) && !env.writing
      ensures messageType.TagPost? ==>
                && queue.queue == old(queue.queue) + [AsPayment(old(body), misreadPayment)]
                && (old(body).Body? && |old(body).id| == 36 ==>
                      queue.queue == old(queue.queue) + [Payment(old(body).amount, old(body).id)])
                && body == old(body) && responseReady == old(responseReady) && env.tables == old(env.tables)
      ensures messageType.TagSummary? ==>
                && var (from, to) := AsQuery(old(body), misreadQuery);
                && body == Answer(Response(
                     ScanSummary(RecordsOf(env.endian, old(env.tables).defaultTable), from, to),
                     ScanSummary(RecordsOf(env.endian, old(env.tables).fallbackTable), from, to)))
                && (old(body).Query? ==> from == old(body).from && to == old(body).to)
                && env.tables == old(env.tables)
      ensures messageType.TagPurge? ==> env.tables == Tables([], []) && body == old(body)
      ensures messageType.Unset? ==> env.tables == old(env.tables) && body == old(body)
      ensures !messageType.TagPost? ==> responseReady == old(responseReady) + 1 && queue.queue == old(queue.queue)
      // Run without interruption it is exactly the handler steps of the protocol.
      ensures var after := HandlerAlone(old(View(proxy, handlers, enqueued, wire)), h, response, TurnLength(messageType));
              after == View(proxy, handlers, after.enqueued, after.wire)
    {
      response := Response(Summary(0, 0.0), Summary(0, 0.0));
      ghost var s := View(proxy, handlers, enqueued, wire);
      requestReady := requestReady - 1;
      match messageType {
      case TagPost =>
        queue.Enqueue(AsPayment(body, misreadPayment));
      case TagSummary =>
        var onDefault, onFallback := service.GetPaymentsSummary(env, AsQuery(body, misreadQuery).0, AsQuery(body, misreadQuery).1);
        response := Response(onDefault, onFallback);
        body := Answer(Response(onDefault, onFallback));
        responseReady := responseReady + 1;
      case TagPurge =>
        service.Purge(env);
        responseReady := responseReady + 1;
      case Unset =>
        responseReady := responseReady + 1;
      }
      HandlerTurn(s, h, response);
    }
  }

  /** The header with its slots; `ready` lets the other processes in. */
  class IpcConnection {
    const items: array<IpcMessage?>
    var ready: bool

    /** The coordinator's side: one fresh slot per worker, then ready. */
    constructor (workersCount: nat)
      ensures ready && fresh(items) && items.Length == workersCount
      ensures forall i :: 0 <= i < workersCount ==> items[i] != null && fresh(items[i])
      ensures forall i :: 0 <= i < workersCount ==> Initial(items[i].View(Resting, [], [], []))
      ensures forall i, j :: 0 <= i < j < workersCount ==> items[i] != items[j]
    {
      items := new IpcMessage?[workersCount](_ => null);
      ready := false;
      new;
      var i := 0;
      while i < workersCount
        invariant i <= workersCount
        invariant forall k :: 0 <= k < i ==> items[k] != null && fresh(items[k])
        invariant forall k :: 0 <= k < i ==> Initial(items[k].View(Resting, [], [], []))
        invariant forall k, l :: 0 <= k < l < i ==> items[k] != items[l]
      {
        var item := new IpcMessage();
        items[i] := item;
        i := i + 1;
      }
      ready := true;
    }
  }

  /** Proxy threads take slots from a counter and keep them: `own` is what each thread remembers. */
  class SlotAssignment {
    var backendIds: nat
    var own: map<nat, nat>
    ghost var owners: seq<nat>

    ghost predicate Valid()
      reads this
    {
      backendIds == |owners| && Assigned(own, owners)
    }

    constructor ()
      ensures Valid() && own == map[] && owners == []
    {
      backendIds, own, owners := 0, map[], [];
    }

    /** A thread that has a slot keeps it; any other gets the next. */
    method SlotFor(thread: nat) returns (id: nat)
      requires Valid()
      modifies this
      ensures Valid() && thread in own && own[thread] == id
      ensures thread in old(own) ==> own == old(own) && owners == old(owners)
      ensures thread !in old(own) ==> own == old(own)[thread := |old(owners)|] && owners == old(owners) + [thread]
    {
      if thread in own {
        id := own[thread];
      } else {
        id := backendIds;
        own := own[thread := id];
        owners := owners + [thread];
        backendIds := backendIds + 1;
      }
    }
  }

  /** The slots given out are the first ones, each to the thread at its place in `owners`. */
  ghost predicate Assigned(own: map<nat, nat>, owners: seq<nat>) {
    && (forall t :: t in own ==> own[t] < |owners| && owners[own[t]] == t)
    && (forall id :: 0 <= id < |owners| ==> owners[id] in own && own[owners[id]] == id)
  }

  /** No two threads share a slot, and all slots in use lie within those allocated exactly when no more
      threads have asked for one than there are workers. */
  lemma SlotsSufficeIff(own: map<nat, nat>, owners: seq<nat>, workersCount: nat)
    requires Assigned(own, owners)
    ensures forall t, u :: t in own && u in own && own[t] == own[u] ==> t == u
    ensures (forall t :: t in own ==> own[t] < workersCount) <==> |own| <= workersCount
  {
    OwnersAreThreads(own, owners, |owners|);
    assert Holders(own, |owners|) == own.Keys;
    if owners != [] {
      assert owners[|owners| - 1] in own;
    }
  }

  function Holders(own: map<nat, nat>, n: nat): set<nat> {
    set t | t in own && own[t] < n
  }

  lemma {:induction false} OwnersAreThreads(own: map<nat, nat>, owners: seq<nat>, n: nat)
    requires Assigned(own, owners) && n <= |owners|
    ensures |Holders(own, n)| == n
  {
    if n == 0 {
      assert Holders(own, n) == {};
    } else {
      OwnersAreThreads(own, owners, n - 1);
      assert Holders(own, n) == Holders(own, n - 1) + {owners[n - 1]};
    }
  }
}
