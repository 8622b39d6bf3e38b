/** What an early start can damage on a slot, and exactly when it damages nothing. */
module SlotDamage {
  import opened Types
  import opened Bytes
  import opened Records
  import opened Ledger
  import opened Slot
  import opened SlotPermits
  import opened SlotSafety
  import opened Totals

  // ---------- Damage ----------

  /** A payment with this body has been posted. */
  function PostedBody(b: Union): Event -> nat {
    (e: Event) => if e.Posted? && IsPost(e.request) && Fits(b, e.request) then 1 else 0
  }

  /** Payments with this body posted and not taken. */
  function Untaken(wire: seq<Event>, b: Union): int {
    Total(wire, PostedBody(b)) - Total(wire, TakenCount(b))
  }

  /** No body is taken more often than a payment with it was posted: nothing made up, torn or taken twice. */
  ghost predicate NothingMadeUp(wire: seq<Event>) {
    forall b: Union :: Untaken(wire, b) >= 0
  }

  /** Every payment posted has been taken, and no other. */
  ghost predicate AllTaken(wire: seq<Event>) {
    forall b: Union :: Untaken(wire, b) == 0
  }

  /** The service that the response of r comes from. */
  predicate Serves(e: Event, r: Request, body: Union) {
    if r.PurgePayments? then e == Purged else e.Served? && Fits(e.query, r) && body == Answer(e.response)
  }

  /** Event i posts r, and no other request that waits is posted or answered since. */
  ghost predicate Open(wire: seq<Event>, i: nat, r: Request) {
    && i < |wire| && wire[i] == Posted(r)
    && forall l :: i < l < |wire| ==> !wire[l].Returned? && !(wire[l].Posted? && Awaits(wire[l].request))
  }

  /** r is open and has been served since it was posted. */
  ghost predicate ServedOpen(wire: seq<Event>, i: nat, j: nat, r: Request, body: Union) {
    Open(wire, i, r) && i < j < |wire| && Serves(wire[j], r, body)
  }

  ghost predicate Belongs(wire: seq<Event>, k: nat)
    requires k < |wire|
  {
    wire[k].Returned? ==> exists i: nat, j: nat :: ServedOpen(wire[..k], i, j, wire[k].request, wire[k].body)
  }

  /** Every response read belongs to the request just posted, and was made after it was posted. */
  ghost predicate AllBelong(wire: seq<Event>) {
    forall k :: 0 <= k < |wire| ==> Belongs(wire, k)
  }

  /** No payment made up, torn or taken twice; none lost once nothing on the slot is unread; no response mixed up. */
  ghost predicate Undamaged(s: State) {
    NothingMadeUp(s.wire) && (Settled(s) ==> AllTaken(s.wire)) && AllBelong(s.wire)
  }

  lemma BelongAppend(wire: seq<Event>, e: Event)
    requires AllBelong(wire)
    requires e.Returned? ==> exists i: nat, j: nat :: ServedOpen(wire, i, j, e.request, e.body)
    ensures AllBelong(wire + [e])
  {
    var w := wire + [e];
    forall k | 0 <= k < |w| ensures Belongs(w, k) {
      assert w[..k] == wire[..k];
      assert wire[..|wire|] == wire;
      if k < |wire| {
        assert Belongs(wire, k);
      }
    }
  }

  lemma CountAppend(wire: seq<Event>, e: Event, b: Union)
    ensures Untaken(wire + [e], b) == Untaken(wire, b) + PostedBody(b)(e) - TakenCount(b)(e)
  {
    TotalAppend(wire, e, TakenCount(b));
    TotalAppend(wire, e, PostedBody(b));
  }

  /** An event that neither posts nor takes a payment. */
  predicate Neutral(e: Event) {
    !e.Taken? && !(e.Posted? && IsPost(e.request))
  }

  lemma NeutralAppend(wire: seq<Event>, e: Event)
    requires Neutral(e)
    ensures AllTaken(wire) ==> AllTaken(wire + [e])
    ensures NothingMadeUp(wire) ==> NothingMadeUp(wire + [e])
  {
    forall b: Union ensures Untaken(wire + [e], b) == Untaken(wire, b) {
      CountAppend(wire, e, b);
    }
  }

  lemma PostAppend(wire: seq<Event>, r: Request)
    requires NothingMadeUp(wire) && AllBelong(wire)
    ensures NothingMadeUp(wire + [Posted(r)]) && AllBelong(wire + [Posted(r)])
  {
    BelongAppend(wire, Posted(r));
    forall b: Union ensures Untaken(wire + [Posted(r)], b) >= 0 {
      CountAppend(wire, Posted(r), b);
    }
  }

  /** A payment posted and taken at once leaves the counts level. */
  lemma TakeAppend(wire: seq<Event>, r: Request, body: Union)
    requires AllTaken(wire) && IsPost(r) && Fits(body, r)
    ensures AllTaken(wire + [Posted(r)] + [Taken(body)])
  {
    forall b: Union ensures Untaken(wire + [Posted(r)] + [Taken(body)], b) == 0 {
      CountAppend(wire, Posted(r), b);
      CountAppend(wire + [Posted(r)], Taken(body), b);
    }
  }

  // ---------- A sequential service damages nothing ----------

  ghost predicate Clean(wire: seq<Event>) {
    AllTaken(wire) && AllBelong(wire)
  }

  lemma CleanAppend(wire: seq<Event>, e: Event)
    requires Clean(wire) && Neutral(e) && !e.Returned?
    ensures Clean(wire + [e])
  {
    BelongAppend(wire, e);
    NeutralAppend(wire, e);
  }

  lemma LastApart(wire: seq<Event>)
    requires wire != []
    ensures wire == wire[..|wire| - 1] + [wire[|wire| - 1]]
  {
  }

  lemma {:induction false} WholeIsClean(wire: seq<Event>)
    requires Whole(wire)
    ensures Clean(wire)
    decreases |wire|, 0
  {
    if wire != [] {
      var before, e := wire[..|wire| - 1], wire[|wire| - 1];
      LastApart(wire);
      if e.Taken? {
        LastApart(before);
        WholeIsClean(before[..|before| - 1]);
        var r := before[|before| - 1].request;
        TakeAppend(before[..|before| - 1], r, e.body);
        BelongAppend(before[..|before| - 1], Posted(r));
        BelongAppend(before, e);
      } else {
        RespondedIsServed(before, e.request, e.body);
        BelongAppend(before, e);
        NeutralAppend(before, e);
      }
    }
  }

  lemma {:induction false} AskedIsClean(wire: seq<Event>, r: Request)
    requires Asked(wire, r)
    ensures NothingMadeUp(wire) && AllBelong(wire) && (!IsPost(r) ==> AllTaken(wire))
    decreases |wire|, 1
  {
    LastApart(wire);
    WholeIsClean(wire[..|wire| - 1]);
    PostAppend(wire[..|wire| - 1], r);
    if !IsPost(r) {
      NeutralAppend(wire[..|wire| - 1], Posted(r));
    }
  }

  lemma {:induction false} DoneIsServed(wire: seq<Event>, r: Request, body: Union)
    requires Done(wire, r, body) && Awaits(r)
    ensures Clean(wire) && |wire| >= 2 && ServedOpen(wire, |wire| - 2, |wire| - 1, r, body)
    decreases |wire|, 2
  {
    LastApart(wire);
    AskedIsClean(wire[..|wire| - 1], r);
    CleanAppend(wire[..|wire| - 1], wire[|wire| - 1]);
  }

  lemma {:induction false} RespondedIsServed(wire: seq<Event>, r: Request, body: Union)
    requires Responded(wire, r, body) && Awaits(r)
    ensures Clean(wire) && |wire| >= 3 && ServedOpen(wire, |wire| - 3, |wire| - 2, r, body)
    decreases |wire|, 3
  {
    LastApart(wire);
    DoneIsServed(wire[..|wire| - 1], r, body);
    CleanAppend(wire[..|wire| - 1], Signalled);
  }

  lemma GoodIsUndamaged(s: State)
    requires Good(s)
    ensures Undamaged(s)
  {
    match s.proxy
    case Resting =>
      if Whole(s.wire) {
        WholeIsClean(s.wire);
      } else {
        AskedIsClean(s.wire, s.wire[|s.wire| - 1].request);
      }
    case Writing(_, _) => WholeIsClean(s.wire);
    case Awaiting(r) =>
      if Pending(s, r) {
        AskedIsClean(s.wire, r);
      } else if Finishing(s, r) {
        DoneIsServed(s.wire, r, s.body);
      } else {
        RespondedIsServed(s.wire, r, s.body);
      }
    case Reading(r) => RespondedIsServed(s.wire, r, s.body);
  }

  // ---------- The harmless early starts ----------

  /** A handler that has looked at the tag only has to read the body of its payment. */
  ghost predicate OnlyReadingBody(s: State) {
    s.requestReady == 0 && forall h :: 0 <= h < |s.handlers| && Touching(s.handlers[h]) ==> s.handlers[h].ReadingBody?
  }

  /** Nothing is unread; or nobody is there to read; or the request does not touch the slot; or it is a purge,
      which touches the tag alone, and the tag has been looked at. */
  ghost predicate StartIsHarmless(s: State, r: Request) {
    Settled(s) || s.handlers == [] || r.UnknownTarget? || (r.PurgePayments? && OnlyReadingBody(s))
  }

  /** Without handlers the payment stays posted. */
  ghost predicate NobodyServes(s: State) {
    && s.handlers == [] && s.requestReady > 0 && s.responseReady == 0 && !s.proxy.Reading?
    && NothingMadeUp(s.wire) && AllBelong(s.wire)
  }

  lemma StepKeepsNobody(s: State, a: Action)
    requires NobodyServes(s)
    ensures NobodyServes(Step(s, a))
  {
    if Step(s, a).wire != s.wire {
      PostAppend(s.wire, s.proxy.request);
    }
  }

  /** An unknown request leaves the slot alone. */
  ghost predicate Unanswered(s: State) {
    Good(s.(proxy := Resting)) && (s.proxy.Resting? || s.proxy == Writing(UnknownTarget, 0))
  }

  lemma StepKeepsUnanswered(s: State, a: Action)
    requires Unanswered(s) && !a.Begin?
    ensures Unanswered(Step(s, a))
  {
    match a
    case ProxyStep =>
    case Handle(h, response) =>
      if h < |s.handlers| {
        HandlerKeepsGood(s.(proxy := Resting), h, response);
        assert DoHandle(s, h, response).(proxy := Resting) == DoHandle(s.(proxy := Resting), h, response);
      }
  }

  function ReadingCount(h: Handler): nat {
    if h.ReadingBody? then 1 else 0
  }

  /** Copies of a body posted = taken + about to be read, all of the last being b. */
  ghost predicate BodiesBalance(s: State, b: Union) {
    forall x: Union :: Untaken(s.wire, x) == if x == b then Total(s.handlers, ReadingCount) else 0
  }

  /** The handler is at work on a purge. */
  predicate AtPurge(h: Handler) {
    h.Awake? || h.Purging? || h.Signalling?
  }

  /** Somebody may already signal or read a response. */
  ghost predicate Responding(s: State) {
    s.proxy.Reading? || s.responseReady > 0 || exists h :: 0 <= h < |s.handlers| && s.handlers[h].Signalling?
  }

  /** A purge is open, and served if it has to be. */
  ghost predicate PurgeOpen(wire: seq<Event>, served: bool) {
    exists i: nat :: Open(wire, i, PurgePayments) && (served ==> exists j: nat :: ServedOpen(wire, i, j, PurgePayments, Raw))
  }

  function AtPurgeCount(h: Handler): nat {
    if AtPurge(h) then 1 else 0
  }

  /** Permits up and handlers at work on a purge. */
  function UnderWay(s: State): nat {
    s.requestReady + Total(s.handlers, AtPurgeCount) + s.responseReady
  }

  /** Purges, one at a time, while handlers may still read the body b of a payment. */
  ghost predicate Overlapped(s: State, b: Union) {
    && s.body == b && BodiesBalance(s, b) && AllBelong(s.wire)
    && (forall h :: 0 <= h < |s.handlers| ==>
          s.handlers[h].Sleeping? || s.handlers[h].Copied? || s.handlers[h].ReadingBody? || AtPurge(s.handlers[h]))
    && match s.proxy
       case Resting => UnderWay(s) == 0
       case Writing(r, k) =>
         UnderWay(s) == 0 && (r == PurgePayments || r == UnknownTarget) && k <= |Writes(r)| && (k == 1 ==> s.tag == TagPurge)
       case Awaiting(r) => UnderWay(s) == 1 && r == PurgePayments && s.tag == TagPurge && PurgeOpen(s.wire, Responding(s))
       case Reading(r) => UnderWay(s) == 0 && r == PurgePayments && PurgeOpen(s.wire, true)
  }

  lemma NobodyAtPurge(handlers: seq<Handler>)
    requires Total(handlers, AtPurgeCount) == 0
    ensures forall h :: 0 <= h < |handlers| ==> !AtPurge(handlers[h])
  {
    forall h | 0 <= h < |handlers| ensures !AtPurge(handlers[h]) {
      TotalCovers(handlers, h, AtPurgeCount);
    }
  }

  lemma OverlappedIsUndamaged(s: State, b: Union)
    requires Overlapped(s, b)
    ensures Undamaged(s)
  {
    if Settled(s) {
      TotalZero(s.handlers, ReadingCount);
    }
  }

  lemma OpenAppend(wire: seq<Event>, e: Event, served: bool)
    requires PurgeOpen(wire, served) && !e.Returned? && !e.Posted?
    ensures PurgeOpen(wire + [e], served || e == Purged)
  {
    var i: nat :| Open(wire, i, PurgePayments) && (served ==> exists j: nat :: ServedOpen(wire, i, j, PurgePayments, Raw));
    var w := wire + [e];
    assert Open(w, i, PurgePayments);
    if served {
      var j: nat :| ServedOpen(wire, i, j, PurgePayments, Raw);
      assert ServedOpen(w, i, j, PurgePayments, Raw);
    } else if e == Purged {
      assert ServedOpen(w, i, |wire|, PurgePayments, Raw);
    }
  }

  /** What an event that moves no payment leaves of the balance. */
  lemma BalanceKept(s: State, s': State, b: Union)
    requires BodiesBalance(s, b) && Total(s'.handlers, ReadingCount) == Total(s.handlers, ReadingCount)
    requires s'.wire == s.wire || (exists e :: Neutral(e) && s'.wire == s.wire + [e])
    ensures BodiesBalance(s', b)
  {
    if s'.wire != s.wire {
      var e :| Neutral(e) && s'.wire == s.wire + [e];
      forall x: Union ensures Untaken(s'.wire, x) == if x == b then Total(s'.handlers, ReadingCount) else 0 {
        CountAppend(s.wire, e, x);
      }
    }
  }

  lemma ProxyKeepsOverlapped(s: State, b: Union)
    requires Overlapped(s, b)
    ensures Overlapped(DoProxy(s), b)
  {
    var s' := DoProxy(s);
    if Total(s.handlers, AtPurgeCount) == 0 {
      NobodyAtPurge(s.handlers);
    }
    if s'.wire != s.wire {
      var e := s'.wire[|s.wire|];
      assert Neutral(e) && s'.wire == s.wire + [e];
      BelongAppend(s.wire, e);
      if e.Posted? {
        assert Open(s'.wire, |s.wire|, PurgePayments);
      }
    }
    BalanceKept(s, s', b);
  }

  lemma TakeKeepsOverlapped(s: State, b: Union, h: nat, response: Response)
    requires Overlapped(s, b) && h < |s.handlers| && s.handlers[h].ReadingBody?
    ensures Overlapped(DoHandle(s, h, response), b)
  {
    var s' := DoHandle(s, h, response);
    TotalUpdate(s.handlers, h, Copied(b), ReadingCount);
    TotalUpdate(s.handlers, h, Copied(b), AtPurgeCount);
    forall x: Union ensures Untaken(s'.wire, x) == if x == b then Total(s'.handlers, ReadingCount) else 0 {
      CountAppend(s.wire, Taken(b), x);
    }
    BelongAppend(s.wire, Taken(b));
    RespondingStays(s, s', h);
    if s.proxy.Awaiting? || s.proxy.Reading? {
      OpenAppend(s.wire, Taken(b), s.proxy.Reading? || Responding(s));
    }
  }

  /** A handler that does not begin to signal leaves Responding as it is, or makes it false. */
  lemma RespondingStays(s: State, s': State, h: nat)
    requires h < |s.handlers| && |s'.handlers| == |s.handlers| && s'.handlers == s.handlers[h := s'.handlers[h]]
    requires !s'.handlers[h].Signalling? && s'.proxy == s.proxy && s'.responseReady == s.responseReady
    ensures Responding(s') ==> Responding(s)
  {
    if k :| 0 <= k < |s'.handlers| && s'.handlers[k].Signalling? {
      assert s.handlers[k].Signalling?;
    }
  }

  lemma QuietKeepsOverlapped(s: State, b: Union, h: nat, response: Response)
    requires Overlapped(s, b) && h < |s.handlers|
    requires s.handlers[h].Sleeping? || s.handlers[h].Awake? || s.handlers[h].Copied?
    ensures Overlapped(DoHandle(s, h, response), b)
  {
    var s' := DoHandle(s, h, response);
    TotalUpdate(s.handlers, h, s'.handlers[h], ReadingCount);
    TotalUpdate(s.handlers, h, s'.handlers[h], AtPurgeCount);
    TotalCovers(s.handlers, h, AtPurgeCount);
    RespondingStays(s, s', h);
    BalanceKept(s, s', b);
  }

  lemma PurgeKeepsOverlapped(s: State, b: Union, h: nat, response: Response)
    requires Overlapped(s, b) && h < |s.handlers|
    requires s.handlers[h].Purging? || s.handlers[h].Signalling?
    ensures Overlapped(DoHandle(s, h, response), b)
  {
    var s' := DoHandle(s, h, response);
    var e := s'.wire[|s.wire|];
    assert Neutral(e) && s'.wire == s.wire + [e];
    TotalUpdate(s.handlers, h, s'.handlers[h], ReadingCount);
    TotalUpdate(s.handlers, h, s'.handlers[h], AtPurgeCount);
    TotalCovers(s.handlers, h, AtPurgeCount);
    BalanceKept(s, s', b);
    BelongAppend(s.wire, e);
    assert s.handlers[h].Signalling? ==> Responding(s);
    OpenAppend(s.wire, e, Responding(s));
  }

  lemma StepKeepsOverlapped(s: State, b: Union, a: Action)
    requires Overlapped(s, b) && !a.Begin?
    ensures Overlapped(Step(s, a), b)
  {
    match a
    case ProxyStep => ProxyKeepsOverlapped(s, b);
    case Handle(h, response) =>
      if h < |s.handlers| {
        match s.handlers[h]
        case ReadingBody => TakeKeepsOverlapped(s, b, h, response);
        case Purging => PurgeKeepsOverlapped(s, b, h, response);
        case Signalling => PurgeKeepsOverlapped(s, b, h, response);
        case _ => QuietKeepsOverlapped(s, b, h, response);
      }
  }

  /** A purge started while a handler is about to read its payment. */
  lemma OverlapBegins(s: State)
    requires Good(s) && s.proxy.Resting? && !Settled(s) && OnlyReadingBody(s)
    ensures Overlapped(Step(s, Begin(PurgePayments)), s.body)
  {
    var p := s.wire[|s.wire| - 1].request;
    var h :| OnlyTouching(s, h) && Serving(s.handlers[h], p);
    OneReading(s.handlers, h);
    TotalZero(s.handlers, AtPurgeCount);
    AskedIsClean(s.wire, p);
    AskedBalance(s.wire, p, s.body);
  }

  lemma OneReading(handlers: seq<Handler>, h: nat)
    requires h < |handlers| && handlers[h].ReadingBody?
    requires forall k :: 0 <= k < |handlers| && k != h ==> !handlers[k].ReadingBody?
    ensures Total(handlers, ReadingCount) == 1
  {
    TotalZero(handlers[h := Sleeping], ReadingCount);
    TotalUpdate(handlers, h, Sleeping, ReadingCount);
  }

  lemma AskedBalance(wire: seq<Event>, p: Request, b: Union)
    requires Asked(wire, p) && IsPost(p) && Fits(b, p)
    ensures forall x: Union :: Untaken(wire, x) == if x == b then 1 else 0
  {
    var n := |wire| - 1;
    LastApart(wire);
    WholeIsClean(wire[..n]);
    forall x: Union ensures Untaken(wire, x) == if x == b then 1 else 0 {
      CountAppend(wire[..n], Posted(p), x);
    }
  }

  // ---------- The others can do damage ----------

  lemma RunThen(s: State, actions: seq<Action>, a: Action)
    ensures Run(s, actions + [a]) == Step(Run(s, actions), a)
  {
    RunConcat(s, actions, [a]);
    assert [a][1..] == [];
  }

  /** A posted payment is on the slot, with a permit up or one handler that has still to take it. */
  ghost predicate PaymentUnread(s: State) {
    && s.tag == TagPost && s.handlers != []
    && ((s.requestReady == 1 && NoneTouching(s))
        || (s.requestReady == 0 && exists h :: OnlyTouching(s, h) && (s.handlers[h].Awake? || s.handlers[h].ReadingBody?)))
  }

  lemma UnsettledIsUnread(s: State)
    requires Good(s) && s.proxy.Resting? && !Settled(s) && s.handlers != []
    ensures PaymentUnread(s) && IsPost(s.wire[|s.wire| - 1].request) && Asked(s.wire, s.wire[|s.wire| - 1].request)
  {
  }

  /** All that happened is that handlers moved. */
  ghost predicate OnlyHandlersMoved(s: State, t: State) {
    && t.tag == s.tag && t.body == s.body && t.proxy == s.proxy && t.wire == s.wire
    && t.responseReady == s.responseReady && |t.handlers| == |s.handlers|
  }

  /** While the permit is up some handler can wake. */
  lemma {:induction false} HandlerWakes(s: State, response: Response) returns (h: nat, actions: seq<Action>)
    requires PaymentUnread(s) && s.requestReady == 1
    ensures WithoutBegin(actions)
    ensures var t := Run(s, actions);
            OnlyHandlersMoved(s, t) && t.requestReady == 0 && OnlyTouching(t, h) && t.handlers[h].Awake?
  {
    h := 0;
    var a := Handle(0, response);
    assert !Touching(s.handlers[0]);
    RunThen(s, [], a);
    RunThen(s, [] + [a], a);
    actions := if s.handlers[0].Sleeping? then [] + [a] else [] + [a] + [a];
  }

  /** Some handler can come to the point where it reads the body. */
  lemma {:induction false} HandlerArrives(s: State, response: Response) returns (h: nat, actions: seq<Action>)
    requires PaymentUnread(s)
    ensures WithoutBegin(actions)
    ensures var t := Run(s, actions);
            OnlyHandlersMoved(s, t) && t.requestReady == 0 && OnlyTouching(t, h) && t.handlers[h].ReadingBody?
  {
    if s.requestReady == 1 {
      h, actions := HandlerWakes(s, response);
    } else {
      h :| OnlyTouching(s, h) && (s.handlers[h].Awake? || s.handlers[h].ReadingBody?);
      actions := [];
    }
    if Run(s, actions).handlers[h].Awake? {
      RunThen(s, actions, Handle(h, response));
      actions := actions + [Handle(h, response)];
    }
  }

  /** What a request leaves in the union half way; nobody posts it. */
  function HalfWritten(r: Request): Union {
    if r.PostPayments? || r.UnreadablePost? then Body(ZeroId(), 0) else Query(None, None)
  }

  lemma {:induction false} HalfWrittenIsNoPayment(r: Request, wire: seq<Event>)
    ensures Total(wire, PostedBody(HalfWritten(r))) == 0
  {
    forall e: Event ensures PostedBody(HalfWritten(r))(e) == 0 {
      if e.Posted? && IsPost(e.request) && e.request.amount == 0 {
        PositiveAmountIff(e.request.amount);
      }
    }
    TotalZero(wire, PostedBody(HalfWritten(r)));
  }

  /** The proxy alone: as far as the first change of the union. */
  lemma {:induction false} ProxyHalfWrites(s: State, r: Request) returns (actions: seq<Action>)
    requires s.proxy == Writing(r, 0) && !r.PurgePayments? && !r.UnknownTarget?
    ensures WithoutBegin(actions)
    ensures var t := Run(s, actions);
            t.body == HalfWritten(r) && t.wire == s.wire && t.handlers == s.handlers
  {
    RunThen(s, [], ProxyStep);
    RunThen(s, [] + [ProxyStep], ProxyStep);
    actions := if r.PostPayments? || r.UnreadablePost? then [] + [ProxyStep] else [] + [ProxyStep] + [ProxyStep];
  }

  /** A payment made up, or lost for good. */
  ghost predicate Damaged(s: State) {
    !NothingMadeUp(s.wire) || (Settled(s) && !AllTaken(s.wire))
  }

  /** A handler about to read takes what is half written. */
  lemma {:induction false} TornPayment(s: State, r: Request, h: nat, response: Response) returns (rest: seq<Action>)
    requires s.proxy == Writing(r, 0) && !r.PurgePayments? && !r.UnknownTarget?
    requires h < |s.handlers| && s.handlers[h].ReadingBody?
    ensures WithoutBegin(rest) && Damaged(Run(s, rest))
  {
    var half := ProxyHalfWrites(s, r);
    RunThen(s, half, Handle(h, response));
    rest := half + [Handle(h, response)];
    HalfWrittenIsNoPayment(r, s.wire + [Taken(HalfWritten(r))]);
    CountAppend(s.wire, Taken(HalfWritten(r)), HalfWritten(r));
    assert Run(s, rest).wire == s.wire + [Taken(HalfWritten(r))];
  }

  /** A handler that looks at the tag after the purge wrote it purges, and the payment is lost. */
  lemma {:induction false} LostPayment(s: State, p: Request, response: Response) returns (rest: seq<Action>)
    requires PaymentUnread(s) && !OnlyReadingBody(s) && s.proxy == Writing(PurgePayments, 0)
    requires IsPost(p) && Asked(s.wire, p)
    ensures WithoutBegin(rest) && Damaged(Run(s, rest))
  {
    var h: nat, first := 0, [];
    if s.requestReady == 1 {
      h, first := HandlerWakes(s, response);
    } else {
      h :| 0 <= h < |s.handlers| && Touching(s.handlers[h]) && !s.handlers[h].ReadingBody?;
    }
    var purge := PurgeUnderAwake(Run(s, first), h, response);
    RunConcat(s, first, purge);
    rest := first + purge;
    PurgedInstead(s.wire, p);
  }

  /** The purge writes its tag, and the handler just woken purges and signals. */
  lemma {:induction false} PurgeUnderAwake(s: State, h: nat, response: Response) returns (actions: seq<Action>)
    requires s.proxy == Writing(PurgePayments, 0) && s.requestReady == 0 && OnlyTouching(s, h) && s.handlers[h].Awake?
    ensures WithoutBegin(actions)
    ensures Settled(Run(s, actions)) && Run(s, actions).wire == s.wire + [Purged] + [Signalled]
  {
    var a := Handle(h, response);
    RunThen(s, [], ProxyStep);
    RunThen(s, [] + [ProxyStep], a);
    RunThen(s, [] + [ProxyStep] + [a], a);
    RunThen(s, [] + [ProxyStep] + [a] + [a], a);
    actions := [] + [ProxyStep] + [a] + [a] + [a];
  }

  lemma PurgedInstead(wire: seq<Event>, p: Request)
    requires IsPost(p) && Asked(wire, p)
    ensures !AllTaken(wire + [Purged] + [Signalled])
  {
    var b, n := Body(p.id, p.amount), |wire| - 1;
    LastApart(wire);
    WholeIsClean(wire[..n]);
    CountAppend(wire[..n], Posted(p), b);
    CountAppend(wire, Purged, b);
    CountAppend(wire + [Purged], Signalled, b);
  }

  lemma HarmfulStart(s: State, r: Request) returns (rest: seq<Action>)
    requires Good(s) && s.proxy.Resting? && !StartIsHarmless(s, r)
    ensures WithoutBegin(rest) && Damaged(Run(Step(s, Begin(r)), rest))
  {
    var begun := Step(s, Begin(r));
    var response := Response(Summary(0, 0.0), Summary(0, 0.0));
    UnsettledIsUnread(s);
    assert PaymentUnread(begun) by {
      assert forall h :: OnlyTouching(s, h) ==> OnlyTouching(begun, h);
    }
    if r.PurgePayments? {
      rest := LostPayment(begun, s.wire[|s.wire| - 1].request, response);
    } else {
      var h, first := HandlerArrives(begun, response);
      var second := TornPayment(Run(begun, first), r, h, response);
      RunConcat(begun, first, second);
      rest := first + second;
    }
  }

  // ---------- A post too early ----------

  /** A handler about to read a payment enqueues what the union holds. */
  lemma {:induction false} HandlerTakesBody(s: State, h: nat, response: Response) returns (actions: seq<Action>)
    requires h < |s.handlers| && s.handlers[h].ReadingBody?
    ensures WithoutBegin(actions)
    ensures Run(s, actions) ==
            s.(handlers := s.handlers[h := Sleeping], enqueued := s.enqueued + [s.body], wire := s.wire + [Taken(s.body)])
  {
    var a := Handle(h, response);
    RunThen(s, [], a);
    RunThen(s, [] + [a], a);
    actions := [] + [a] + [a];
    assert s.handlers[h := Copied(s.body)][h := Sleeping] == s.handlers[h := Sleeping];
  }

  /** A sleeping handler takes up a payment and enqueues what the union holds. */
  lemma {:induction false} HandlerServesPost(s: State, h: nat, response: Response) returns (actions: seq<Action>)
    requires h < |s.handlers| && s.handlers[h].Sleeping? && s.requestReady > 0 && s.tag == TagPost
    ensures WithoutBegin(actions)
    ensures Run(s, actions) ==
            s.(requestReady := s.requestReady - 1, enqueued := s.enqueued + [s.body], wire := s.wire + [Taken(s.body)])
  {
    var a := Handle(h, response);
    RunThen(s, [], a);
    RunThen(s, [] + [a], a);
    var t := Run(s, [] + [a] + [a]);
    var rest := HandlerTakesBody(t, h, response);
    actions := [] + [a] + [a] + rest;
    RunConcat(s, [] + [a] + [a], rest);
    assert s.handlers[h := Awake][h := ReadingBody][h := Sleeping] == s.handlers;
  }

  /** The request q is posted while handler h is about to read; h takes q. */
  lemma {:induction false} PostUnderReader(s: State, q: Request, h: nat, response: Response) returns (actions: seq<Action>)
    requires s.proxy == Writing(q, 0) && IsPost(q) && s.requestReady == 0 && OnlyTouching(s, h) && s.handlers[h].ReadingBody?
    ensures WithoutBegin(actions)
    ensures var t, b := Run(s, actions), Body(q.id, q.amount);
            && t.requestReady == 1 && t.proxy.Resting? && t.tag == TagPost && t.body == b
            && |t.handlers| == |s.handlers| && t.handlers[h].Sleeping? && NoneTouching(t)
            && t.enqueued == s.enqueued + [b] && t.wire == s.wire + [Posted(q)] + [Taken(b)]
  {
    var post := ProxyPosts(s, q, 0);
    var take := HandlerTakesBody(Run(s, post), h, response);
    RunConcat(s, post, take);
    actions := post + take;
  }

  /** Whatever is unread, be it a permit, a handler just woken or one about to read: a second payment q can take its
      place, so that the second is enqueued twice and the first never. */
  lemma {:induction false} EarlyPostCanLoseAPayment(s: State, q: Request, response: Response) returns (rest: seq<Action>)
    requires Good(s) && s.proxy.Resting? && !Settled(s) && s.handlers != [] && IsPost(q)
    ensures WithoutBegin(rest)
    ensures var t := Run(Step(s, Begin(q)), rest);
            && Settled(t) && t.proxy.Resting?
            && t.wire == s.wire + [Posted(q)] + [Taken(Body(q.id, q.amount))] + [Taken(Body(q.id, q.amount))]
            && |t.enqueued| >= 2 && t.enqueued[|t.enqueued| - 2..] == [Body(q.id, q.amount), Body(q.id, q.amount)]
  {
    var begun := Step(s, Begin(q));
    UnsettledIsUnread(s);
    assert PaymentUnread(begun) by {
      assert forall h :: OnlyTouching(s, h) ==> OnlyTouching(begun, h);
    }
    var h, arrive := HandlerArrives(begun, response);
    var first := PostUnderReader(Run(begun, arrive), q, h, response);
    RunConcat(begun, arrive, first);
    var second := HandlerServesPost(Run(begun, arrive + first), h, response);
    RunConcat(begun, arrive + first, second);
    rest := arrive + first + second;
  }

  // ---------- A request carried out ----------

  /** A sleeping handler serves the summary or the purge whose permit is up, and signals. */
  lemma {:induction false} HandlerServes(s: State, h: nat, response: Response) returns (actions: seq<Action>)
    requires h < |s.handlers| && s.handlers[h].Sleeping? && s.requestReady > 0
    requires s.tag == TagSummary || s.tag == TagPurge
    ensures WithoutBegin(actions)
    ensures var t := s.(requestReady := s.requestReady - 1, responseReady := s.responseReady + 1);
            Run(s, actions) ==
            if s.tag == TagSummary then t.(body := Answer(response), wire := s.wire + [Served(s.body, response)] + [Signalled])
            else t.(wire := s.wire + [Purged] + [Signalled])
  {
    var a := Handle(h, response);
    RunThen(s, [], a);
    RunThen(s, [] + [a], a);
    RunThen(s, [] + [a] + [a], a);
    RunThen(s, [] + [a] + [a] + [a], a);
    RunThen(s, [] + [a] + [a] + [a] + [a], a);
    actions := if s.tag == TagSummary then [] + [a] + [a] + [a] + [a] + [a] else [] + [a] + [a] + [a] + [a];
    assert Run(s, actions).handlers == s.handlers;
  }

  /** The proxy takes the response and reads it. */
  lemma {:induction false} ProxyReturns(s: State, r: Request) returns (actions: seq<Action>)
    requires s.proxy == Awaiting(r) && s.responseReady > 0
    ensures WithoutBegin(actions)
    ensures Run(s, actions) ==
            s.(responseReady := s.responseReady - 1, proxy := Resting,
               wire := s.wire + [Returned(r, if r.PurgePayments? then Raw else s.body)])
  {
    RunThen(s, [], ProxyStep);
    RunThen(s, [] + [ProxyStep], ProxyStep);
    actions := [] + [ProxyStep] + [ProxyStep];
  }

  /** On a quiet slot with a sleeping handler every request that wakes it can be carried out, and leaves the slot
      quiet: a payment is enqueued as posted, a summary is answered for the range asked about, a purge is made. */
  lemma {:induction false} RequestIsCarriedOut(s: State, r: Request, h: nat, response: Response) returns (rest: seq<Action>)
    requires s.proxy.Resting? && s.requestReady == 0 && s.responseReady == 0
    requires h < |s.handlers| && s.handlers[h].Sleeping? && Posts(r)
    ensures WithoutBegin(rest)
    ensures var t := Run(Step(s, Begin(r)), rest);
            && t.proxy.Resting? && t.requestReady == 0 && t.responseReady == 0 && t.handlers == s.handlers
            && match r
               case PostPayments(id, amount) =>
                 t.enqueued == s.enqueued + [Body(id, amount)] && t.wire == s.wire + [Posted(r)] + [Taken(Body(id, amount))]
               case PaymentsSummary(from, to) =>
                 && t.enqueued == s.enqueued
                 && t.wire == s.wire + [Posted(r)] + [Served(Query(from, to), response)] + [Signalled] + [Returned(r, Answer(response))]
               case _ =>
                 t.enqueued == s.enqueued && t.wire == s.wire + [Posted(r)] + [Purged] + [Signalled] + [Returned(r, Raw)]
  {
    var begun := Step(s, Begin(r));
    var post := ProxyPosts(begun, r, 0);
    if r.PostPayments? {
      var serve := HandlerServesPost(Run(begun, post), h, response);
      RunConcat(begun, post, serve);
      rest := post + serve;
    } else {
      var serve := HandlerServes(Run(begun, post), h, response);
      RunConcat(begun, post, serve);
      var back := ProxyReturns(Run(begun, post + serve), r);
      RunConcat(begun, post + serve, back);
      rest := post + serve + back;
    }
  }
}
