/** What holds of a slot in every interleaving, early writes included. */
module SlotPermits {
  import opened Slot
  import opened Totals

  function PostedCount(e: Event): nat {
    if e.Posted? then 1 else 0
  }

  function SignalledCount(e: Event): nat {
    if e.Signalled? then 1 else 0
  }

  function ReturnedCount(e: Event): nat {
    if e.Returned? then 1 else 0
  }

  function TakenCount(b: Union): Event -> nat {
    (e: Event) => if e == Taken(b) then 1 else 0
  }

  function ServiceCount(h: Handler): nat {
    if h.Sleeping? then 0 else 1
  }

  function CopyCount(b: Union): Handler -> nat {
    (h: Handler) => if h == Copied(b) then 1 else 0
  }

  /** Requests posted = permits + handlers in service + payments enqueued + responses posted. */
  ghost predicate RequestsAccounted(s: State) {
    Total(s.wire, PostedCount) ==
      s.requestReady + Total(s.handlers, ServiceCount) + |s.enqueued| + Total(s.wire, SignalledCount)
  }

  /** Responses posted = permits + one being read + responses returned. */
  ghost predicate ResponsesAccounted(s: State) {
    Total(s.wire, SignalledCount) ==
      s.responseReady + (if s.proxy.Reading? then 1 else 0) + Total(s.wire, ReturnedCount)
  }

  /** Copies of a body taken from the union = enqueued + in the hands of handlers. */
  ghost predicate BodiesAccounted(s: State, b: Union) {
    Total(s.wire, TakenCount(b)) == multiset(s.enqueued)[b] + Total(s.handlers, CopyCount(b))
  }

  ghost predicate Accounted(s: State, b: Union) {
    RequestsAccounted(s) && ResponsesAccounted(s) && BodiesAccounted(s, b)
  }

  lemma WireCounts(wire: seq<Event>, e: Event, b: Union)
    ensures Total(wire + [e], PostedCount) == Total(wire, PostedCount) + PostedCount(e)
    ensures Total(wire + [e], SignalledCount) == Total(wire, SignalledCount) + SignalledCount(e)
    ensures Total(wire + [e], ReturnedCount) == Total(wire, ReturnedCount) + ReturnedCount(e)
    ensures Total(wire + [e], TakenCount(b)) == Total(wire, TakenCount(b)) + TakenCount(b)(e)
  {
    TotalAppend(wire, e, PostedCount);
    TotalAppend(wire, e, SignalledCount);
    TotalAppend(wire, e, ReturnedCount);
    TotalAppend(wire, e, TakenCount(b));
  }

  lemma ProxyAccounts(s: State, b: Union)
    requires Accounted(s, b)
    ensures Accounted(DoProxy(s), b)
  {
    var s' := DoProxy(s);
    if s'.wire != s.wire {
      LoggedProxy(s, s'.wire[|s.wire|], b);
    }
  }

  lemma LoggedProxy(s: State, e: Event, b: Union)
    requires Accounted(s, b) && DoProxy(s).wire == s.wire + [e]
    ensures Accounted(DoProxy(s), b)
  {
    WireCounts(s.wire, e, b);
  }

  lemma HandlerCounts(s: State, h: nat, phase: Handler, b: Union)
    requires h < |s.handlers|
    ensures Total(s.handlers[h := phase], ServiceCount) + ServiceCount(s.handlers[h]) ==
            Total(s.handlers, ServiceCount) + ServiceCount(phase)
    ensures Total(s.handlers[h := phase], CopyCount(b)) + CopyCount(b)(s.handlers[h]) ==
            Total(s.handlers, CopyCount(b)) + CopyCount(b)(phase)
  {
    TotalUpdate(s.handlers, h, phase, ServiceCount);
    TotalUpdate(s.handlers, h, phase, CopyCount(b));
  }

  /** A handler that neither takes nor enqueues. */
  lemma OtherBodies(s: State, s': State, h: nat, b: Union)
    requires BodiesAccounted(s, b) && h < |s.handlers| && |s'.handlers| == |s.handlers|
    requires s'.handlers == s.handlers[h := s'.handlers[h]] && !s.handlers[h].Copied? && !s'.handlers[h].Copied?
    requires s'.enqueued == s.enqueued && (s'.wire == s.wire || exists e: Event :: !e.Taken? && s'.wire == s.wire + [e])
    ensures BodiesAccounted(s', b)
  {
    HandlerCounts(s, h, s'.handlers[h], b);
    if s'.wire != s.wire {
      var e: Event :| !e.Taken? && s'.wire == s.wire + [e];
      TotalAppend(s.wire, e, TakenCount(b));
    }
  }

  lemma TakenBodies(s: State, s': State, h: nat, b: Union)
    requires BodiesAccounted(s, b) && h < |s.handlers| && s.handlers[h].ReadingBody?
    requires s'.handlers == s.handlers[h := Copied(s.body)] && s'.enqueued == s.enqueued && s'.wire == s.wire + [Taken(s.body)]
    ensures BodiesAccounted(s', b)
  {
    HandlerCounts(s, h, Copied(s.body), b);
    TotalAppend(s.wire, Taken(s.body), TakenCount(b));
  }

  lemma EnqueuedBodies(s: State, s': State, h: nat, b: Union)
    requires BodiesAccounted(s, b) && h < |s.handlers| && s.handlers[h].Copied?
    requires s'.handlers == s.handlers[h := Sleeping] && s'.enqueued == s.enqueued + [s.handlers[h].body] && s'.wire == s.wire
    ensures BodiesAccounted(s', b)
  {
    HandlerCounts(s, h, Sleeping, b);
  }

  lemma HandlerBodies(s: State, h: nat, response: Response, b: Union)
    requires BodiesAccounted(s, b) && h < |s.handlers|
    ensures BodiesAccounted(DoHandle(s, h, response), b)
  {
    var s' := DoHandle(s, h, response);
    if s.handlers[h].ReadingBody? {
      TakenBodies(s, s', h, b);
    } else if s.handlers[h].Copied? {
      EnqueuedBodies(s, s', h, b);
    } else {
      assert s'.wire != s.wire ==> s'.wire == s.wire + [s'.wire[|s.wire|]];
      OtherBodies(s, s', h, b);
    }
  }

  lemma QuietHandlerPermits(s: State, h: nat, response: Response)
    requires RequestsAccounted(s) && ResponsesAccounted(s) && h < |s.handlers|
    requires DoHandle(s, h, response).wire == s.wire
    ensures RequestsAccounted(DoHandle(s, h, response)) && ResponsesAccounted(DoHandle(s, h, response))
  {
    TotalUpdate(s.handlers, h, DoHandle(s, h, response).handlers[h], ServiceCount);
  }

  lemma LoggedHandlerPermits(s: State, h: nat, response: Response, e: Event)
    requires RequestsAccounted(s) && ResponsesAccounted(s) && h < |s.handlers|
    requires DoHandle(s, h, response).wire == s.wire + [e]
    ensures RequestsAccounted(DoHandle(s, h, response)) && ResponsesAccounted(DoHandle(s, h, response))
  {
    TotalUpdate(s.handlers, h, DoHandle(s, h, response).handlers[h], ServiceCount);
    TotalAppend(s.wire, e, PostedCount);
    TotalAppend(s.wire, e, SignalledCount);
    TotalAppend(s.wire, e, ReturnedCount);
  }

  lemma StepAccounts(s: State, a: Action, b: Union)
    requires Accounted(s, b)
    ensures Accounted(Step(s, a), b)
  {
    match a
    case Begin(_) =>
    case ProxyStep => ProxyAccounts(s, b);
    case Handle(h, response) =>
      if h < |s.handlers| {
        HandlerBodies(s, h, response, b);
        var wire := DoHandle(s, h, response).wire;
        if wire == s.wire {
          QuietHandlerPermits(s, h, response);
        } else {
          LoggedHandlerPermits(s, h, response, wire[|s.wire|]);
        }
      }
  }

  lemma {:induction false} RunAccounts(s: State, actions: seq<Action>, b: Union)
    requires Accounted(s, b)
    ensures Accounted(Run(s, actions), b)
    decreases |actions|
  {
    if actions != [] {
      StepAccounts(s, actions[0], b);
      RunAccounts(Step(s, actions[0]), actions[1..], b);
    }
  }

  /** No permit and no copied payment is ever lost or made up, in any interleaving. */
  lemma PermitsAreAccounted(s: State, actions: seq<Action>, b: Union)
    requires Initial(s)
    ensures Accounted(Run(s, actions), b)
  {
    TotalZero(s.handlers, ServiceCount);
    TotalZero(s.handlers, CopyCount(b));
    RunAccounts(s, actions, b);
  }
}
