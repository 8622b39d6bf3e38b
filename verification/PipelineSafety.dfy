/** What every run of the pipeline keeps. */
module PipelineSafety {
  import opened Types
  import opened Records
  import opened Processor
  import opened Pipeline
  import opened Totals

  // ---------- Cached clients ----------

  /** The client about to be used, or in use, exists and targets the captured gateway; between attempts
      it targets the address of the last one. */
  predicate CacheMatches(w: Worker) {
    match w.phase
    case Choosing(_, lastUrl, client) => client == lastUrl
    case Chosen(_, g, url, client) => url == UrlOf(g) && client == Some(url)
    case Waiting(_, g, url, client, _) => url == UrlOf(g) && client == Some(url)
    case _ => true
  }

  ghost predicate Cached(s: State) {
    forall i :: 0 <= i < |s.workers| ==> CacheMatches(s.workers[i])
  }

  /** An iteration that decides on the address of the last one ends with the client a fresh one would be. */
  lemma LoadMatches(s: State, i: nat)
    requires Cached(s)
    ensures Cached(DoLoad(s, i))
  {
    if i < |s.workers| {
      assert CacheMatches(s.workers[i]);
    }
  }

  lemma ReplyMatchesCache(s: State, i: nat, status: int)
    requires Cached(s)
    ensures Cached(DoReply(s, i, status))
  {
    if i < |s.workers| {
      assert CacheMatches(s.workers[i]);
    }
  }

  lemma StepMatchesCache(s: State, a: Action)
    requires Cached(s)
    ensures Cached(Step(s, a))
  {
    match a
    case LoadGateway(i) => LoadMatches(s, i);
    case Reply(i, status) => ReplyMatchesCache(s, i, status);
    case _ =>
  }

  lemma {:induction false} CacheAlwaysMatches(s: State, actions: seq<Action>)
    requires Initial(s)
    ensures Cached(Run(s, actions))
  {
    if actions != [] {
      CacheAlwaysMatches(s, actions[..|actions| - 1]);
      StepMatchesCache(Run(s, actions[..|actions| - 1]), actions[|actions| - 1]);
    }
  }

  // ---------- Conservation of payments ----------

  function EnqueuedCount(x: Payment): Event -> nat {
    (e: Event) => if e.Enqueued? && e.payment == x then 1 else 0
  }

  function StoredCount(x: Payment): Event -> nat {
    (e: Event) => if e.Stored? && PaymentOf(e.record) == x then 1 else 0
  }

  function DiscardedCount(x: Payment): Event -> nat {
    (e: Event) => if e.Discarded? && e.payment == x then 1 else 0
  }

  function ClearedCount(x: Payment): Event -> nat {
    (e: Event) => if e.QueueCleared? then multiset(e.payments)[x] else 0
  }

  function QueuedCount(x: Payment): seq<Payment> -> nat {
    (q: seq<Payment>) => multiset(q)[x]
  }

  function HeldCount(x: Payment): Worker -> nat {
    (w: Worker) => if !w.phase.Idle? && w.phase.payment == x then 1 else 0
  }

  /** Copies of x accepted = queued + held by workers + stored + discarded + cleared. */
  ghost predicate Balanced(s: State, x: Payment) {
    Total(s.log, EnqueuedCount(x)) ==
      Total(s.queues, QueuedCount(x)) + Total(s.workers, HeldCount(x)) +
      Total(s.log, StoredCount(x)) + Total(s.log, DiscardedCount(x)) + Total(s.log, ClearedCount(x))
  }

  lemma EmitCounts(log: seq<Event>, e: Event, x: Payment)
    ensures Total(log + [e], EnqueuedCount(x)) == Total(log, EnqueuedCount(x)) + EnqueuedCount(x)(e)
    ensures Total(log + [e], StoredCount(x)) == Total(log, StoredCount(x)) + StoredCount(x)(e)
    ensures Total(log + [e], DiscardedCount(x)) == Total(log, DiscardedCount(x)) + DiscardedCount(x)(e)
    ensures Total(log + [e], ClearedCount(x)) == Total(log, ClearedCount(x)) + ClearedCount(x)(e)
  {
    TotalAppend(log, e, EnqueuedCount(x));
    TotalAppend(log, e, StoredCount(x));
    TotalAppend(log, e, DiscardedCount(x));
    TotalAppend(log, e, ClearedCount(x));
  }

  lemma PostBalances(s: State, s': State, p: nat, payment: Payment, x: Payment)
    requires Balanced(s, x) && p < |s.queues| && s'.workers == s.workers
    requires s'.queues == s.queues[p := s.queues[p] + [payment]] && s'.log == s.log + [Enqueued(p, payment)]
    ensures Balanced(s', x)
  {
    var q := s.queues[p] + [payment];
    TotalUpdate(s.queues, p, q, QueuedCount(x));
    assert multiset(q) == multiset(s.queues[p]) + multiset{payment};
    EmitCounts(s.log, Enqueued(p, payment), x);
  }

  lemma DequeueBalances(s: State, i: nat, x: Payment)
    requires Balanced(s, x)
    ensures Balanced(DoDequeue(s, i), x)
  {
    if CanDequeue(s, i) {
      var p := s.workers[i].process;
      var q := s.queues[p];
      TotalUpdate(s.queues, p, q[1..], QueuedCount(x));
      assert q == [q[0]] + q[1..];
      TotalUpdate(s.workers, i, Worker(p, Choosing(q[0], None, None)), HeldCount(x));
      EmitCounts(s.log, Dequeued(p, q[0]), x);
    }
  }

  lemma WorkerBalances(s: State, i: nat, phase: Phase, x: Payment)
    requires Balanced(s, x) && i < |s.workers|
    requires !phase.Idle? && !s.workers[i].phase.Idle? && phase.payment == s.workers[i].phase.payment
    ensures Balanced(SetWorker(s, i, phase), x)
  {
    TotalUpdate(s.workers, i, s.workers[i].(phase := phase), HeldCount(x));
  }

  lemma ReplyBalances(s: State, i: nat, status: int, x: Payment)
    requires Balanced(s, x)
    ensures Balanced(DoReply(s, i, status), x)
  {
    if i < |s.workers| && s.workers[i].phase.Waiting? && s.workers[i].phase.client.Some? {
      var w := s.workers[i].phase;
      match Judge(status)
      case Accepted =>
        WorkerBalances(s, i, Confirmed(w.payment, w.gateway, w.at), x);
        EmitCounts(s.log, Answered(ServerAt(w.client.value), Record(w.at, w.payment.amount, w.payment.id)), x);
      case Retried => WorkerBalances(s, i, Choosing(w.payment, Some(w.url), w.client), x);
      case Rejected => WorkerBalances(s, i, Refused(w.payment, w.gateway), x);
    }
  }

  /** A worker that lays its payment down must log it as stored or as discarded. */
  lemma SettleBalances(s: State, s': State, i: nat, e: Event, x: Payment)
    requires Balanced(s, x) && i < |s.workers| && !s.workers[i].phase.Idle?
    requires s'.queues == s.queues && s'.workers == s.workers[i := s.workers[i].(phase := Idle)] && s'.log == s.log + [e]
    requires (e.Stored? && PaymentOf(e.record) == s.workers[i].phase.payment)
          || (e.Discarded? && e.payment == s.workers[i].phase.payment)
    ensures Balanced(s', x)
  {
    TotalUpdate(s.workers, i, s.workers[i].(phase := Idle), HeldCount(x));
    EmitCounts(s.log, e, x);
  }

  lemma StoreBalances(s: State, i: nat, x: Payment)
    requires Balanced(s, x)
    ensures Balanced(DoStore(s, i), x)
  {
    if i < |s.workers| && s.workers[i].phase.Confirmed? {
      SettleBalances(s, DoStore(s, i), i, Stored(s.workers[i].phase.gateway, RecordInHand(s.workers[i])), x);
    }
  }

  lemma FlipBalances(s: State, i: nat, x: Payment)
    requires Balanced(s, x)
    ensures Balanced(DoFlip(s, i), x)
  {
    if i < |s.workers| && s.workers[i].phase.Refused? {
      SettleBalances(s, DoFlip(s, i), i, Discarded(s.workers[i].phase.payment), x);
    }
  }

  /** Dropping a table, asking for a summary and answering it move no payment. */
  lemma QuietBalances(s: State, s': State, e: Event, x: Payment)
    requires Balanced(s, x) && s'.queues == s.queues && s'.workers == s.workers && s'.log == s.log + [e]
    requires e.TableDropped? || e.SummaryAsked? || e.Reported?
    ensures Balanced(s', x)
  {
    EmitCounts(s.log, e, x);
  }

  lemma LoadSendBalance(s: State, i: nat, at: Millis, x: Payment)
    requires Balanced(s, x)
    ensures Balanced(DoLoad(s, i), x) && Balanced(DoSend(s, i, at), x)
  {
    if i < |s.workers| && s.workers[i].phase.Choosing? {
      WorkerBalances(s, i, DoLoad(s, i).workers[i].phase, x);
    }
    if i < |s.workers| && s.workers[i].phase.Chosen? {
      WorkerBalances(s, i, DoSend(s, i, at).workers[i].phase, x);
    }
  }

  lemma ClearBalances(s: State, h: nat, x: Payment)
    requires Balanced(s, x)
    ensures Balanced(DoClear(s, h), x)
  {
    if h < |s.threads| && s.threads[h].phase.BothDropped? && s.threads[h].process < |s.queues| {
      var p := s.threads[h].process;
      TotalUpdate(s.queues, p, [], QueuedCount(x));
      EmitCounts(s.log, QueueCleared(p, s.queues[p]), x);
    }
  }

  lemma WorkerStepBalances(s: State, a: Action, x: Payment)
    requires Balanced(s, x)
    requires a.Dequeue? || a.LoadGateway? || a.Send? || a.Reply? || a.StoreRecord? || a.Flip?
    ensures Balanced(Step(s, a), x)
  {
    match a
    case Dequeue(i) => DequeueBalances(s, i, x);
    case LoadGateway(i) => LoadSendBalance(s, i, 0, x);
    case Send(i, at) => LoadSendBalance(s, i, at, x);
    case Reply(i, status) => ReplyBalances(s, i, status, x);
    case StoreRecord(i) => StoreBalances(s, i, x);
    case Flip(i) => FlipBalances(s, i, x);
  }

  lemma ThreadStepBalances(s: State, a: Action, x: Payment)
    requires Balanced(s, x)
    requires a.DropDefault? || a.DropFallback? || a.AskSummary? || a.BeginSummary? || a.ReadDefault? || a.ReadFallback?
    ensures Balanced(Step(s, a), x)
  {
    var s' := Step(s, a);
    if s'.log != s.log {
      QuietBalances(s, s', s'.log[|s.log|], x);
    }
  }

  lemma StepBalances(s: State, a: Action, x: Payment)
    requires Balanced(s, x)
    ensures Balanced(Step(s, a), x)
  {
    match a
    case PostPayment(p, id, amount) =>
      if DoPost(s, p, id, amount) != s {
        PostBalances(s, DoPost(s, p, id, amount), p, Payment(amount, id), x);
      }
    case ChooserStore(_) =>
    case ClearQueue(h) => ClearBalances(s, h, x);
    case DropDefault(_) => ThreadStepBalances(s, a, x);
    case DropFallback(_) => ThreadStepBalances(s, a, x);
    case AskSummary(_, _, _) => ThreadStepBalances(s, a, x);
    case BeginSummary(_) => ThreadStepBalances(s, a, x);
    case ReadDefault(_) => ThreadStepBalances(s, a, x);
    case ReadFallback(_) => ThreadStepBalances(s, a, x);
    case _ => WorkerStepBalances(s, a, x);
  }

  /** No payment is lost or duplicated in any run. */
  lemma {:induction false} PaymentsAreConserved(s: State, actions: seq<Action>, x: Payment)
    requires Initial(s)
    ensures Balanced(Run(s, actions), x)
  {
    if actions == [] {
      TotalZero(s.queues, QueuedCount(x));
      TotalZero(s.workers, HeldCount(x));
    } else {
      PaymentsAreConserved(s, actions[..|actions| - 1], x);
      StepBalances(Run(s, actions[..|actions| - 1]), actions[|actions| - 1], x);
    }
  }

  // ---------- What a status does ----------

  /** What a worker does with the status of its attempt, -1 standing for no response: 200 is a confirmation by the
      captured gateway, no response and server errors mean another attempt with the same client, and everything
      else a refusal. */
  lemma ReplyByNumber(s: State, i: nat, status: int)
    requires i < |s.workers| && s.workers[i].phase.Waiting? && CacheMatches(s.workers[i])
    ensures var w, t := s.workers[i].phase, Step(s, Reply(i, status));
            var url := Some(if w.gateway == Default then DefaultUrl else FallbackUrl);
            t == if status == 200 then
                   SetWorker(s, i, Confirmed(w.payment, w.gateway, w.at))
                   .(log := s.log + [Answered(w.gateway, Record(w.at, w.payment.amount, w.payment.id))])
                 else if status == -1 || 500 <= status <= 599 then SetWorker(s, i, Choosing(w.payment, url, url))
                 else SetWorker(s, i, Refused(w.payment, w.gateway))
  {
  }
}
