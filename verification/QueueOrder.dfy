/** First in, first out, in every run of the pipeline. */
module QueueOrder {
  import opened Types
  import opened Bytes
  import opened Records
  import opened Pipeline

  function Arrivals(p: nat): Event -> seq<Payment> {
    (e: Event) => if e.Enqueued? && e.process == p then [e.payment] else []
  }

  /** Payments leave one by one to a worker, or all together in a purge. */
  function Departures(p: nat): Event -> seq<Payment> {
    (e: Event) =>
      if e.Dequeued? && e.process == p then [e.payment]
      else if e.QueueCleared? && e.process == p then e.payments
      else []
  }

  function Flow(log: seq<Event>, pick: Event -> seq<Payment>): seq<Payment> {
    if log == [] then [] else Flow(log[..|log| - 1], pick) + pick(log[|log| - 1])
  }

  lemma FlowAppend(log: seq<Event>, e: Event, pick: Event -> seq<Payment>)
    ensures Flow(log + [e], pick) == Flow(log, pick) + pick(e)
  {
    assert (log + [e])[..|log|] == log;
  }

  /** What ever entered queue p is, in order, what left it followed by what it holds. */
  ghost predicate InOrder(s: State, p: nat)
    requires p < |s.queues|
  {
    Flow(s.log, Arrivals(p)) == Flow(s.log, Departures(p)) + s.queues[p]
  }

  lemma EmitKeepsOrder(s: State, s': State, e: Event, p: nat)
    requires p < |s.queues| && p < |s'.queues| && InOrder(s, p)
    requires s'.log == s.log + [e]
    requires s.queues[p] + Arrivals(p)(e) == Departures(p)(e) + s'.queues[p]
    ensures InOrder(s', p)
  {
    FlowAppend(s.log, e, Arrivals(p));
    FlowAppend(s.log, e, Departures(p));
    var left := Flow(s.log, Departures(p));
    assert left + s.queues[p] + Arrivals(p)(e) == left + (s.queues[p] + Arrivals(p)(e));
    assert left + Departures(p)(e) + s'.queues[p] == left + (Departures(p)(e) + s'.queues[p]);
  }

  lemma QuietStep(s: State, s': State, p: nat)
    requires p < |s.queues| && InOrder(s, p) && s'.queues == s.queues
    requires s'.log == s.log ||
      exists e :: s'.log == s.log + [e] && !e.Enqueued? && !e.Dequeued? && !e.QueueCleared?
    ensures InOrder(s', p)
  {
    if s'.log != s.log {
      var e :| s'.log == s.log + [e] && !e.Enqueued? && !e.Dequeued? && !e.QueueCleared?;
      EmitKeepsOrder(s, s', e, p);
    }
  }

  lemma DequeueKeepsOrder(s: State, i: nat, p: nat)
    requires p < |s.queues| && InOrder(s, p) && CanDequeue(s, i)
    ensures InOrder(DoDequeue(s, i), p)
  {
    var q := s.queues[s.workers[i].process];
    assert q == [q[0]] + q[1..];
    EmitKeepsOrder(s, DoDequeue(s, i), Dequeued(s.workers[i].process, q[0]), p);
  }

  lemma ArrivalKeepsOrder(s: State, s': State, q: nat, payment: Payment, p: nat)
    requires p < |s.queues| && InOrder(s, p) && q < |s.queues|
    requires s'.queues == s.queues[q := s.queues[q] + [payment]] && s'.log == s.log + [Enqueued(q, payment)]
    ensures InOrder(s', p)
  {
    EmitKeepsOrder(s, s', Enqueued(q, payment), p);
  }

  lemma ClearKeepsOrder(s: State, s': State, q: nat, p: nat)
    requires p < |s.queues| && InOrder(s, p) && q < |s.queues|
    requires s'.queues == s.queues[q := []] && s'.log == s.log + [QueueCleared(q, s.queues[q])]
    ensures InOrder(s', p)
  {
    EmitKeepsOrder(s, s', QueueCleared(q, s.queues[q]), p);
  }

  lemma QueueStep(s: State, a: Action, p: nat)
    requires p < |s.queues| && InOrder(s, p)
    requires a.PostPayment? || a.Dequeue? || a.ClearQueue?
    ensures |Step(s, a).queues| == |s.queues| && InOrder(Step(s, a), p)
  {
    var s' := Step(s, a);
    if s' != s {
      match a
      case PostPayment(q, id, amount) => ArrivalKeepsOrder(s, s', q, Payment(amount, id), p);
      case Dequeue(i) => DequeueKeepsOrder(s, i, p);
      case ClearQueue(h) => ClearKeepsOrder(s, s', s.threads[h].process, p);
    }
  }

  lemma OtherStep(s: State, a: Action, p: nat)
    requires p < |s.queues| && InOrder(s, p)
    requires !(a.PostPayment? || a.Dequeue? || a.ClearQueue?)
    ensures Step(s, a).queues == s.queues && InOrder(Step(s, a), p)
  {
    var s' := Step(s, a);
    if s'.log != s.log {
      assert s'.log == s.log + [s'.log[|s.log|]];
    }
    QuietStep(s, s', p);
  }

  /** Every queue is first in, first out, whatever producers, workers and purges do. */
  lemma {:induction false} QueuesAreFifo(s: State, actions: seq<Action>, p: nat)
    requires Initial(s) && p < |s.queues|
    ensures p < |Run(s, actions).queues| && InOrder(Run(s, actions), p)
  {
    if actions != [] {
      var before, a := Run(s, actions[..|actions| - 1]), actions[|actions| - 1];
      QueuesAreFifo(s, actions[..|actions| - 1], p);
      if a.PostPayment? || a.Dequeue? || a.ClearQueue? {
        QueueStep(before, a, p);
      } else {
        OtherStep(before, a, p);
      }
    }
  }

  // ---------- What the steps on a queue do ----------

  /** Every post: a payment with 36 bytes of id and a double greater than zero goes to the back of its process's
      queue and is logged, and anything else leaves no trace. */
  lemma PostArrives(s: State, p: nat, id: seq<Byte>, amount: Word)
    requires p < |s.queues|
    ensures Step(s, PostPayment(p, id, amount)) ==
            if |id| == 36 && 0 < amount < 0x8000_0000_0000_0000 then
              s.(queues := s.queues[p := s.queues[p] + [Payment(amount, id)]],
                 log := s.log + [Enqueued(p, Payment(amount, id))])
            else s
  {
    AcceptableIff(id, amount);
  }

  /** Every take: an idle worker takes the front of its process's queue, if there is one, and starts on it with no
      address and no client; any other worker's attempt leaves no trace. */
  lemma WorkerTakesFront(s: State, i: nat)
    requires i < |s.workers| && s.workers[i].process < |s.queues|
    ensures var p := s.workers[i].process;
            Step(s, Dequeue(i)) ==
            if s.workers[i].phase.Idle? && s.queues[p] != [] then
              s.(workers := s.workers[i := Worker(p, Choosing(s.queues[p][0], None, None))],
                 queues := s.queues[p := s.queues[p][1..]],
                 log := s.log + [Dequeued(p, s.queues[p][0])])
            else s
  {
  }

  /** Whenever queue p was cleared, everything that had entered it by then had left it by then. */
  ghost predicate ClearedWhole(log: seq<Event>, p: nat) {
    forall k :: 0 <= k < |log| && log[k].QueueCleared? && log[k].process == p ==>
      Flow(log[..k + 1], Arrivals(p)) == Flow(log[..k + 1], Departures(p))
  }

  lemma ClearedWholeAppend(log: seq<Event>, e: Event, p: nat)
    requires ClearedWhole(log, p)
    requires e.QueueCleared? && e.process == p ==> Flow(log + [e], Arrivals(p)) == Flow(log + [e], Departures(p))
    ensures ClearedWhole(log + [e], p)
  {
    var all := log + [e];
    forall k | 0 <= k < |all| && all[k].QueueCleared? && all[k].process == p
      ensures Flow(all[..k + 1], Arrivals(p)) == Flow(all[..k + 1], Departures(p))
    {
      if k < |log| {
        assert all[..k + 1] == log[..k + 1];
      } else {
        assert all[..k + 1] == all;
      }
    }
  }

  lemma ClearEmpties(s: State, a: Action, p: nat)
    requires p < |s.queues| && Step(s, a).log != s.log
    requires var e := Step(s, a).log[|s.log|]; e.QueueCleared? && e.process == p
    ensures p < |Step(s, a).queues| && Step(s, a).queues[p] == []
  {
  }

  /** In every run a purge clears its queue of all that was in it. */
  lemma {:induction false} PurgesClearTheQueue(s: State, actions: seq<Action>, p: nat)
    requires Initial(s) && p < |s.queues|
    ensures ClearedWhole(Run(s, actions).log, p)
  {
    if actions != [] {
      var before, a := Run(s, actions[..|actions| - 1]), actions[|actions| - 1];
      PurgesClearTheQueue(s, actions[..|actions| - 1], p);
      QueuesAreFifo(s, actions[..|actions| - 1], p);
      QueuesAreFifo(s, actions, p);
      StepLogs(before, a);
      if Step(before, a).log != before.log {
        var e := Step(before, a).log[|before.log|];
        if e.QueueCleared? && e.process == p {
          ClearEmpties(before, a, p);
        }
        ClearedWholeAppend(before.log, e, p);
      }
    }
  }
}
