/** What holds of a slot whose proxy starts a request only when no handler still has to look at it. */
module SlotSafety {
  import opened Slot
  import opened SlotPermits
  import opened Totals

  // ---------- The transcript of a sequential service ----------

  predicate Fits(body: Union, r: Request) {
    match r
    case PostPayments(id, amount) => body == Body(id, amount)
    case PaymentsSummary(from, to) => body == Query(from, to)
    case _ => true
  }

  function TagOf(r: Request): Tag {
    if r.PaymentsSummary? then TagSummary else if r.PurgePayments? then TagPurge else TagPost
  }

  predicate IsPost(r: Request) {
    r.PostPayments? && Valid(r)
  }

  /** Complete exchanges only: each request is followed by its own service and, if it has one, its own response. */
  ghost predicate Whole(wire: seq<Event>)
    decreases |wire|
  {
    if wire == [] then true
    else
      var before, e := wire[..|wire| - 1], wire[|wire| - 1];
      match e
      case Taken(body) => before != [] && before[|before| - 1].Posted? &&
        IsPost(before[|before| - 1].request) && Fits(body, before[|before| - 1].request) &&
        Asked(before, before[|before| - 1].request)
      case Returned(r, body) => Awaits(r) && Responded(before, r, body)
      case _ => false
  }

  /** Complete exchanges, then r posted. */
  ghost predicate Asked(wire: seq<Event>, r: Request)
    decreases |wire|
  {
    wire != [] && wire[|wire| - 1] == Posted(r) && Whole(wire[..|wire| - 1])
  }

  /** Complete exchanges, then r posted and served; for a summary, `body` is its answer. */
  ghost predicate Done(wire: seq<Event>, r: Request, body: Union)
    decreases |wire|
  {
    && wire != []
    && Asked(wire[..|wire| - 1], r)
    && (if r.PurgePayments? then wire[|wire| - 1] == Purged
        else wire[|wire| - 1].Served? && Fits(wire[|wire| - 1].query, r) && body == Answer(wire[|wire| - 1].response))
  }

  /** Complete exchanges, then r posted, served and signalled. */
  ghost predicate Responded(wire: seq<Event>, r: Request, body: Union)
    decreases |wire|
  {
    && wire != [] && wire[|wire| - 1] == Signalled
    && Done(wire[..|wire| - 1], r, body)
  }

  /** A prefix of the transcript of requests served one at a time. */
  ghost predicate Sequential(wire: seq<Event>) {
    || Whole(wire)
    || (exists r :: Asked(wire, r))
    || (exists r, b :: Done(wire, r, b))
    || (exists r, b :: Responded(wire, r, b))
  }

  // ---------- The invariant ----------

  /** The handler has been woken and may still touch the tag or the union, or owes a response. */
  predicate Touching(h: Handler) {
    !h.Sleeping? && !h.Copied?
  }

  ghost predicate NoneTouching(s: State) {
    forall h :: 0 <= h < |s.handlers| ==> !Touching(s.handlers[h])
  }

  ghost predicate OnlyTouching(s: State, h: int) {
    && 0 <= h < |s.handlers| && Touching(s.handlers[h])
    && forall k :: 0 <= k < |s.handlers| && k != h ==> !Touching(s.handlers[k])
  }

  /** Nothing on the slot is waiting to be read. */
  ghost predicate Settled(s: State) {
    s.requestReady == 0 && NoneTouching(s)
  }

  ghost predicate Quiet(s: State) {
    Settled(s) && s.responseReady == 0
  }

  predicate Serving(h: Handler, r: Request) {
    match h
    case Awake => true
    case ReadingBody => IsPost(r)
    case ReadingQuery => r.PaymentsSummary?
    case Computing(q) => r.PaymentsSummary? && Fits(q, r)
    case Purging => r.PurgePayments?
    case _ => false
  }

  /** r has been posted and its service is not done: the slot still shows r. */
  ghost predicate Pending(s: State, r: Request) {
    && Posts(r) && s.responseReady == 0 && s.tag == TagOf(r) && Fits(s.body, r) && Asked(s.wire, r)
    && ((s.requestReady == 1 && NoneTouching(s))
        || (s.requestReady == 0 && exists h :: OnlyTouching(s, h) && Serving(s.handlers[h], r)))
  }

  /** r has been served and a handler is about to signal it. */
  ghost predicate Finishing(s: State, r: Request) {
    && s.responseReady == 0 && s.requestReady == 0 && Done(s.wire, r, s.body)
    && exists h :: OnlyTouching(s, h) && s.handlers[h].Signalling?
  }

  /** The response permit of r is up. */
  ghost predicate Ready(s: State, r: Request) {
    Settled(s) && s.responseReady == 1 && Responded(s.wire, r, s.body)
  }

  /** The first k writes of r have been made. */
  ghost predicate Progress(s: State, r: Request, k: nat) {
    && k <= |Writes(r)|
    && (IsPost(r) && k >= 3 ==> Fits(s.body, r))
    && (IsPost(r) && k == 4 ==> s.tag == TagPost)
    && (r.PaymentsSummary? && k >= 1 ==> s.tag == TagSummary)
    && (r.PaymentsSummary? && k == 4 ==> Fits(s.body, r))
    && (r.PurgePayments? && k == 1 ==> s.tag == TagPurge)
  }

  ghost predicate Unread(s: State) {
    s.wire != [] && s.wire[|s.wire| - 1].Posted? && IsPost(s.wire[|s.wire| - 1].request) &&
    Pending(s, s.wire[|s.wire| - 1].request)
  }

  ghost predicate Good(s: State) {
    match s.proxy
    case Resting => (Quiet(s) && Whole(s.wire)) || Unread(s)
    case Writing(r, k) => Quiet(s) && Whole(s.wire) && Progress(s, r, k)
    case Awaiting(r) => Awaits(r) && (Pending(s, r) || Finishing(s, r) || Ready(s, r))
    case Reading(r) => Awaits(r) && Quiet(s) && Responded(s.wire, r, s.body)
  }

  lemma GoodIsSequential(s: State)
    requires Good(s)
    ensures Sequential(s.wire)
  {
  }

  /** While the proxy writes or reads the slot no permit is up and no handler may look at it;
      at most one permit is up, or else at most one handler may look. */
  ghost predicate Exclusive(s: State) {
    && (s.proxy.Writing? || s.proxy.Reading? ==> s.requestReady == 0 && s.responseReady == 0 && NoneTouching(s))
    && s.requestReady + s.responseReady <= 1
    && (s.requestReady + s.responseReady == 1 ==> NoneTouching(s))
    && (forall h, k :: 0 <= h < k < |s.handlers| ==> !(Touching(s.handlers[h]) && Touching(s.handlers[k])))
  }

  lemma GoodIsExclusive(s: State)
    requires Good(s)
    ensures Exclusive(s)
  {
  }

  // ---------- Every step keeps it ----------

  lemma EventIsNew(wire: seq<Event>, e: Event)
    ensures (wire + [e])[..|wire|] == wire && (wire + [e])[|wire|] == e
  {
  }

  lemma BeginKeepsGood(s: State, r: Request)
    requires Good(s) && (s.proxy.Resting? ==> Settled(s))
    ensures Good(Step(s, Begin(r)))
  {
  }

  lemma PostKeepsGood(s: State)
    requires Good(s) && s.proxy.Writing? && s.proxy.done == |Writes(s.proxy.request)| && Posts(s.proxy.request)
    ensures Good(DoProxy(s))
  {
    EventIsNew(s.wire, Posted(s.proxy.request));
    assert Pending(DoProxy(s), s.proxy.request);
  }

  lemma ReturnKeepsGood(s: State)
    requires Good(s) && s.proxy.Reading?
    ensures Good(DoProxy(s))
  {
    var r, before := s.proxy.request, s.wire[..|s.wire| - 1];
    EventIsNew(s.wire, DoProxy(s).wire[|s.wire|]);
    assert Done(before, r, s.body);
    assert r.PurgePayments? ==> Done(before, r, Raw);
  }

  lemma ProxyKeepsGood(s: State)
    requires Good(s)
    ensures Good(DoProxy(s))
  {
    match s.proxy
    case Resting =>
    case Writing(r, k) =>
      if k == |Writes(r)| && Posts(r) {
        PostKeepsGood(s);
      }
    case Awaiting(r) =>
    case Reading(r) => ReturnKeepsGood(s);
  }

  /** The request whose service is under way. */
  ghost predicate Current(s: State, r: Request) {
    Good(s) && ((s.proxy == Awaiting(r)) || (s.proxy.Resting? && Unread(s) && s.wire[|s.wire| - 1] == Posted(r)))
  }

  lemma TouchingIsServing(s: State, h: nat) returns (r: Request)
    requires Good(s) && h < |s.handlers|
    requires Touching(s.handlers[h]) || s.requestReady > 0
    ensures Current(s, r) && (Pending(s, r) || Finishing(s, r))
    ensures Touching(s.handlers[h]) ==> OnlyTouching(s, h) && s.requestReady == 0 && s.responseReady == 0
    ensures Touching(s.handlers[h]) ==> if s.handlers[h].Signalling? then Finishing(s, r) else Serving(s.handlers[h], r) && Pending(s, r)
  {
    r := if s.proxy.Awaiting? then s.proxy.request else s.wire[|s.wire| - 1].request;
  }

  lemma WakeKeepsGood(s: State, h: nat, response: Response)
    requires Good(s) && h < |s.handlers| && s.handlers[h].Sleeping?
    ensures Good(DoHandle(s, h, response))
  {
    if s.requestReady > 0 {
      var r := TouchingIsServing(s, h);
      var s' := DoHandle(s, h, response);
      assert OnlyTouching(s', h) && Serving(s'.handlers[h], r);
      assert Pending(s', r);
    }
  }

  lemma ServeKeepsGood(s: State, h: nat, response: Response)
    requires Good(s) && h < |s.handlers|
    requires s.handlers[h].Awake? || s.handlers[h].ReadingQuery?
    ensures Good(DoHandle(s, h, response))
  {
    var r := TouchingIsServing(s, h);
    var s' := DoHandle(s, h, response);
    assert OnlyTouching(s', h) && Serving(s'.handlers[h], r);
    assert Pending(s', r);
  }

  lemma TakeKeepsGood(s: State, h: nat, response: Response)
    requires Good(s) && h < |s.handlers| && s.handlers[h].ReadingBody?
    ensures Good(DoHandle(s, h, response))
  {
    var r := TouchingIsServing(s, h);
    EventIsNew(s.wire, Taken(s.body));
  }

  lemma FinishKeepsGood(s: State, h: nat, response: Response)
    requires Good(s) && h < |s.handlers|
    requires s.handlers[h].Computing? || s.handlers[h].Purging?
    ensures Good(DoHandle(s, h, response))
  {
    var r := TouchingIsServing(s, h);
    var s' := DoHandle(s, h, response);
    EventIsNew(s.wire, s'.wire[|s.wire|]);
    assert OnlyTouching(s', h) && s'.handlers[h].Signalling?;
    assert Finishing(s', r);
  }

  lemma SignalKeepsGood(s: State, h: nat, response: Response)
    requires Good(s) && h < |s.handlers| && s.handlers[h].Signalling?
    ensures Good(DoHandle(s, h, response))
  {
    var r := TouchingIsServing(s, h);
    EventIsNew(s.wire, Signalled);
    assert Ready(DoHandle(s, h, response), r);
  }

  lemma PendingElsewhere(s: State, s': State, h: nat)
    requires h < |s.handlers| && !Touching(s.handlers[h])
    requires s' == SetHandler(s, h, Sleeping).(enqueued := s'.enqueued)
    ensures forall r :: Pending(s, r) ==> Pending(s', r)
    ensures forall r :: Finishing(s, r) ==> Finishing(s', r)
  {
    assert NoneTouching(s) ==> NoneTouching(s');
    forall k | OnlyTouching(s, k) ensures OnlyTouching(s', k) && s'.handlers[k] == s.handlers[k] {
    }
  }

  lemma EnqueueKeepsGood(s: State, h: nat, response: Response)
    requires Good(s) && h < |s.handlers| && s.handlers[h].Copied?
    ensures Good(DoHandle(s, h, response))
  {
    PendingElsewhere(s, DoHandle(s, h, response), h);
  }

  lemma HandlerKeepsGood(s: State, h: nat, response: Response)
    requires Good(s) && h < |s.handlers|
    ensures Good(DoHandle(s, h, response))
  {
    match s.handlers[h]
    case Sleeping => WakeKeepsGood(s, h, response);
    case Awake => ServeKeepsGood(s, h, response);
    case ReadingBody => TakeKeepsGood(s, h, response);
    case Copied(_) => EnqueueKeepsGood(s, h, response);
    case ReadingQuery => ServeKeepsGood(s, h, response);
    case Computing(_) => FinishKeepsGood(s, h, response);
    case Purging => FinishKeepsGood(s, h, response);
    case Signalling => SignalKeepsGood(s, h, response);
  }

  // ---------- Whole runs ----------

  /** The proxy never starts a request while the slot holds something unread. */
  ghost predicate Disciplined(s: State, actions: seq<Action>)
    decreases |actions|
  {
    actions == [] ||
    ((actions[0].Begin? && s.proxy.Resting? ==> Settled(s)) && Disciplined(Step(s, actions[0]), actions[1..]))
  }

  lemma StepKeepsGood(s: State, a: Action)
    requires Good(s) && (a.Begin? && s.proxy.Resting? ==> Settled(s))
    ensures Good(Step(s, a))
  {
    match a
    case Begin(r) => BeginKeepsGood(s, r);
    case ProxyStep => ProxyKeepsGood(s);
    case Handle(h, response) =>
      if h < |s.handlers| {
        HandlerKeepsGood(s, h, response);
      }
  }

  lemma {:induction false} RunKeepsGood(s: State, actions: seq<Action>)
    requires Good(s) && Disciplined(s, actions)
    ensures Good(Run(s, actions))
    decreases |actions|
  {
    if actions != [] {
      StepKeepsGood(s, actions[0]);
      RunKeepsGood(Step(s, actions[0]), actions[1..]);
    }
  }

  /** Every disciplined run is the service of its requests one at a time, whatever the number of handlers:
      each payment is taken exactly once and in order, and each response read answers the request just posted. */
  lemma DisciplinedRunsAreSequential(s: State, actions: seq<Action>)
    requires Initial(s) && Disciplined(s, actions)
    ensures Good(Run(s, actions)) && Exclusive(Run(s, actions)) && Sequential(Run(s, actions).wire)
  {
    RunKeepsGood(s, actions);
    GoodIsExclusive(Run(s, actions));
    GoodIsSequential(Run(s, actions));
  }

  // ---------- Traffic without posts ----------

  /** Only summaries, purges and requests that wake nobody. */
  predicate WithoutPosts(actions: seq<Action>) {
    forall i :: 0 <= i < |actions| && actions[i].Begin? ==> !IsPost(actions[i].request)
  }

  ghost predicate PostFree(s: State) {
    && Good(s)
    && (s.proxy.Resting? ==> Quiet(s))
    && (s.proxy.Writing? ==> !IsPost(s.proxy.request))
    && (forall h :: 0 <= h < |s.handlers| ==> !s.handlers[h].Copied?)
  }

  lemma StepKeepsPostFree(s: State, a: Action)
    requires PostFree(s) && (a.Begin? ==> !IsPost(a.request))
    ensures PostFree(Step(s, a))
  {
    StepKeepsGood(s, a);
    match a
    case Begin(_) =>
    case ProxyStep =>
    case Handle(h, response) =>
      if h < |s.handlers| && (Touching(s.handlers[h]) || s.requestReady > 0) {
        var r := TouchingIsServing(s, h);
      }
  }

  lemma {:induction false} OneInService(handlers: seq<Handler>)
    requires forall h :: 0 <= h < |handlers| ==> !handlers[h].Copied?
    requires forall h, k :: 0 <= h < k < |handlers| ==> !(Touching(handlers[h]) && Touching(handlers[k]))
    ensures Total(handlers, ServiceCount) <= 1
    ensures (forall h :: 0 <= h < |handlers| ==> !Touching(handlers[h])) ==> Total(handlers, ServiceCount) == 0
  {
    if forall h :: 0 <= h < |handlers| ==> !Touching(handlers[h]) {
      TotalZero(handlers, ServiceCount);
    } else {
      AtMostOneInService(handlers);
    }
  }

  /** Such traffic is disciplined by itself, so it is exclusive and sequential, and no more than one
      permit or handler in service is ever about. */
  lemma {:induction false} SummariesAndPurgesAreSafe(s: State, actions: seq<Action>)
    requires PostFree(s) && WithoutPosts(actions)
    ensures Disciplined(s, actions) && PostFree(Run(s, actions))
    ensures Exclusive(Run(s, actions)) && Sequential(Run(s, actions).wire)
    ensures var t := Run(s, actions); t.requestReady + Total(t.handlers, ServiceCount) + t.responseReady <= 1
    decreases |actions|
  {
    if actions == [] {
      GoodIsExclusive(s);
      GoodIsSequential(s);
      OneInService(s.handlers);
    } else {
      StepKeepsPostFree(s, actions[0]);
      SummariesAndPurgesAreSafe(Step(s, actions[0]), actions[1..]);
    }
  }

  // ---------- Starting only on a slot nobody serves ----------

  ghost predicate AllSleeping(s: State) {
    forall h :: 0 <= h < |s.handlers| ==> s.handlers[h].Sleeping?
  }

  /** The proxy starts a request only when there is no permit and no handler in service. */
  ghost predicate Strict(s: State, actions: seq<Action>)
    decreases |actions|
  {
    actions == [] ||
    ((actions[0].Begin? && s.proxy.Resting? ==> s.requestReady == 0 && AllSleeping(s)) &&
     Strict(Step(s, actions[0]), actions[1..]))
  }

  ghost predicate Alone(s: State) {
    && Good(s)
    && (s.requestReady + s.responseReady > 0 ==> AllSleeping(s))
    && (forall h, k :: 0 <= h < k < |s.handlers| ==> s.handlers[h].Sleeping? || s.handlers[k].Sleeping?)
    && (!s.proxy.Resting? ==> forall h :: 0 <= h < |s.handlers| ==> !s.handlers[h].Copied?)
  }

  lemma ProxyKeepsAlone(s: State)
    requires Alone(s)
    ensures Alone(DoProxy(s))
  {
    ProxyKeepsGood(s);
  }

  lemma HandlerKeepsAlone(s: State, h: nat, response: Response)
    requires Alone(s) && h < |s.handlers|
    ensures Alone(DoHandle(s, h, response))
  {
    HandlerKeepsGood(s, h, response);
    if Touching(s.handlers[h]) || s.requestReady > 0 {
      var r := TouchingIsServing(s, h);
    }
  }

  lemma StepKeepsAlone(s: State, a: Action)
    requires Alone(s) && (a.Begin? && s.proxy.Resting? ==> s.requestReady == 0 && AllSleeping(s))
    ensures Alone(Step(s, a))
  {
    match a
    case Begin(r) => BeginKeepsGood(s, r);
    case ProxyStep => ProxyKeepsAlone(s);
    case Handle(h, response) =>
      if h < |s.handlers| {
        HandlerKeepsAlone(s, h, response);
      }
  }

  lemma {:induction false} AtMostOneInService(handlers: seq<Handler>)
    requires forall h, k :: 0 <= h < k < |handlers| ==> handlers[h].Sleeping? || handlers[k].Sleeping?
    ensures Total(handlers, ServiceCount) <= 1
  {
    if handlers != [] {
      var n := |handlers| - 1;
      if handlers[n].Sleeping? {
        AtMostOneInService(handlers[..n]);
      } else {
        TotalZero(handlers[..n], ServiceCount);
      }
    }
  }

  /** Then request permits, handlers in service and response permits together never exceed one. */
  lemma {:induction false} StrictRunsAreExclusive(s: State, actions: seq<Action>)
    requires Alone(s) && Strict(s, actions)
    ensures var t := Run(s, actions);
            && Alone(t) && Sequential(t.wire)
            && t.requestReady + Total(t.handlers, ServiceCount) + t.responseReady <= 1
    decreases |actions|
  {
    if actions == [] {
      GoodIsSequential(s);
      GoodIsExclusive(s);
      AtMostOneInService(s.handlers);
      if s.requestReady + s.responseReady > 0 {
        TotalZero(s.handlers, ServiceCount);
      }
    } else {
      StepKeepsAlone(s, actions[0]);
      StrictRunsAreExclusive(Step(s, actions[0]), actions[1..]);
    }
  }

  /** A slot starts out with all of this. */
  lemma InitialIsAlone(s: State)
    requires Initial(s)
    ensures Alone(s) && PostFree(s)
  {
  }

  // ---------- Exactly when starting a request keeps the service sequential ----------

  predicate WithoutBegin(actions: seq<Action>) {
    forall i :: 0 <= i < |actions| ==> !actions[i].Begin?
  }

  lemma {:induction false} WithoutBeginIsDisciplined(s: State, actions: seq<Action>)
    requires WithoutBegin(actions)
    ensures Disciplined(s, actions)
    decreases |actions|
  {
    if actions != [] {
      WithoutBeginIsDisciplined(Step(s, actions[0]), actions[1..]);
    }
  }

  /** The proxy alone, making the rest of the writes of r and posting it. */
  lemma {:induction false} ProxyPosts(s: State, r: Request, k: nat) returns (actions: seq<Action>)
    requires s.proxy == Writing(r, k) && k <= |Writes(r)| && Posts(r)
    ensures WithoutBegin(actions)
    ensures var t := Run(s, actions);
            && t.wire == s.wire + [Posted(r)] && t.requestReady == s.requestReady + 1
            && t.handlers == s.handlers && t.enqueued == s.enqueued && t.responseReady == s.responseReady
            && t.proxy == (if Awaits(r) then Awaiting(r) else Resting)
            && (IsPost(r) && (k <= 2 || Fits(s.body, r)) ==> t.body == Body(r.id, r.amount))
            && (IsPost(r) && (k <= 3 || s.tag == TagPost) ==> t.tag == TagPost)
            && (r.PaymentsSummary? && (k <= 3 || Fits(s.body, r)) ==> t.body == Query(r.from, r.to))
            && (r.PaymentsSummary? && (k == 0 || s.tag == TagSummary) ==> t.tag == TagSummary)
            && (r.PurgePayments? && (k == 0 || s.tag == TagPurge) ==> t.tag == TagPurge && t.body == s.body)
    decreases |Writes(r)| - k
  {
    var next := Step(s, ProxyStep);
    if k == |Writes(r)| {
      actions := [ProxyStep];
      assert Run(next, actions[1..]) == next;
    } else {
      var rest := ProxyPosts(next, r, k + 1);
      actions := [ProxyStep] + rest;
      assert actions[1..] == rest;
    }
  }

  lemma DoublePostIsNotSequential(wire: seq<Event>, p: Request, q: Request)
    ensures !Sequential(wire + [Posted(p)] + [Posted(q)])
  {
    var w := wire + [Posted(p)] + [Posted(q)];
    assert w[..|w| - 1] == wire + [Posted(p)];
    assert !Whole(wire + [Posted(p)]);
  }

  /** From a good state with the proxy at rest, the history stays that of requests served one at a time, in every
      continuation of a request that posts, exactly when nothing on the slot is unread. */
  lemma StartIsSequentialIff(s: State, r: Request)
    requires Good(s) && s.proxy.Resting? && Posts(r)
    ensures (forall rest :: WithoutBegin(rest) ==> Sequential(Run(Step(s, Begin(r)), rest).wire)) <==> Settled(s)
  {
    var begun := Step(s, Begin(r));
    if Settled(s) {
      BeginKeepsGood(s, r);
      forall rest | WithoutBegin(rest) ensures Sequential(Run(begun, rest).wire) {
        WithoutBeginIsDisciplined(begun, rest);
        RunKeepsGood(begun, rest);
        GoodIsSequential(Run(begun, rest));
      }
    } else {
      var n := |s.wire| - 1;
      var rest := ProxyPosts(begun, r, 0);
      DoublePostIsNotSequential(s.wire[..n], s.wire[n].request, r);
      assert s.wire == s.wire[..n] + [s.wire[n]];
      assert !Sequential(Run(begun, rest).wire);
    }
  }

  lemma {:induction false} RunConcat(s: State, a: seq<Action>, b: seq<Action>)
    ensures Run(s, a + b) == Run(Run(s, a), b)
    decreases |a|
  {
    if a == [] {
      assert a + b == b;
    } else {
      assert (a + b)[1..] == a[1..] + b;
      RunConcat(Step(s, a[0]), a[1..], b);
    }
  }
}
