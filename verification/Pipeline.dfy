/** Every interleaving of the payment pipeline: any number of processes, each with a queue,
    workers and HTTP threads; one shared gateway byte; one shared ledger of two tables. */
module Pipeline {
  import opened Types
  import opened Bytes
  import opened Records
  import opened Ledger
  import opened Repository
  import opened Processor

  /** Where a worker stands in its handling of a payment. The loop remembers the address of its last attempt
      and, in a variable of its own, the address its HTTP client was built for. */
  datatype Phase =
    | Idle
    | Choosing(payment: Payment, lastUrl: Option<Url>, client: Option<Url>)
    | Chosen(payment: Payment, gateway: Gateway, url: Url, client: Option<Url>)
    | Waiting(payment: Payment, gateway: Gateway, url: Url, client: Option<Url>, at: Millis)
    | Confirmed(payment: Payment, gateway: Gateway, at: Millis)
    | Refused(payment: Payment, gateway: Gateway)

  datatype Worker = Worker(process: nat, phase: Phase)

  /** Where an HTTP thread stands in a purge or a summary. The summary was asked for in event `asked`,
      and the snapshot taken after `mark` events; no step depends on the two. */
  datatype HttpPhase =
    | Free
    | DefaultDropped
    | BothDropped
    | Arrived(asked: nat, from: Option<Int64>, to: Option<Int64>)
    | Reading(asked: nat, view: Tables, mark: nat, from: Option<Int64>, to: Option<Int64>, onDefault: Option<Summary>)

  datatype HttpThread = HttpThread(process: nat, phase: HttpPhase)

  /** The history of a run. */
  datatype Event =
    | Enqueued(process: nat, payment: Payment)
    | Dequeued(process: nat, payment: Payment)
    | Answered(server: Gateway, record: Record)
    | Stored(gateway: Gateway, record: Record)
    | Discarded(payment: Payment)
    | TableDropped(gateway: Gateway)
    | QueueCleared(process: nat, payments: seq<Payment>)
    | SummaryAsked(thread: nat, from: Option<Int64>, to: Option<Int64>)
    | Reported(thread: nat, from: Option<Int64>, to: Option<Int64>, onDefault: Summary, onFallback: Summary)

  datatype State = State(
    endian: Endian,
    queues: seq<seq<Payment>>,
    workers: seq<Worker>,
    threads: seq<HttpThread>,
    gateway: Gateway,
    tables: Tables,
    log: seq<Event>)

  /** What a scheduler can pick next; clocks, statuses and other stores are arbitrary. */
  datatype Action =
    | PostPayment(process: nat, id: seq<Byte>, amount: Word)
    | Dequeue(worker: nat)
    | LoadGateway(worker: nat)
    | Send(worker: nat, at: Millis)
    | Reply(worker: nat, status: int)
    | StoreRecord(worker: nat)
    | Flip(worker: nat)
    | ChooserStore(gateway: Gateway)
    | DropDefault(thread: nat)
    | DropFallback(thread: nat)
    | ClearQueue(thread: nat)
    | AskSummary(thread: nat, from: Option<Int64>, to: Option<Int64>)
    | BeginSummary(thread: nat)
    | ReadDefault(thread: nat)
    | ReadFallback(thread: nat)

  function SetWorker(s: State, i: nat, phase: Phase): State
    requires i < |s.workers|
  {
    s.(workers := s.workers[i := s.workers[i].(phase := phase)])
  }

  function SetThread(s: State, h: nat, phase: HttpPhase): State
    requires h < |s.threads|
  {
    s.(threads := s.threads[h := s.threads[h].(phase := phase)])
  }

  function Emit(s: State, e: Event): State {
    s.(log := s.log + [e])
  }

  predicate CanDequeue(s: State, i: nat) {
    && i < |s.workers| && s.workers[i].phase.Idle?
    && s.workers[i].process < |s.queues| && s.queues[s.workers[i].process] != []
  }

  function DoPost(s: State, p: nat, id: seq<Byte>, amount: Word): State {
    if p < |s.queues| && Acceptable(id, amount) then
      var payment := Payment(amount, id);
      Emit(s.(queues := s.queues[p := s.queues[p] + [payment]]), Enqueued(p, payment))
    else s
  }

  function DoDequeue(s: State, i: nat): State {
    if CanDequeue(s, i) then
      var p := s.workers[i].process;
      var payment := s.queues[p][0];
      Emit(SetWorker(s, i, Choosing(payment, None, None)).(queues := s.queues[p := s.queues[p][1..]]), Dequeued(p, payment))
    else s
  }

  /** The client for the next attempt: rebuilt only when the address differs from that of the last attempt. */
  function Reuse(lastUrl: Option<Url>, client: Option<Url>, url: Url): Option<Url> {
    if lastUrl != Some(url) then Some(url) else client
  }

  function DoLoad(s: State, i: nat): State {
    if i < |s.workers| && s.workers[i].phase.Choosing? then
      var w, url := s.workers[i].phase, UrlOf(s.gateway);
      SetWorker(s, i, Chosen(w.payment, s.gateway, url, Reuse(w.lastUrl, w.client, url)))
    else s
  }

  function DoSend(s: State, i: nat, at: Millis): State {
    if i < |s.workers| && s.workers[i].phase.Chosen? then
      var w := s.workers[i].phase;
      SetWorker(s, i, Waiting(w.payment, w.gateway, w.url, w.client, at))
    else s
  }

  /** What the worker has been told, to be stored under the gateway it captured. */
  function RecordInHand(w: Worker): Record
    requires w.phase.Confirmed?
  {
    Record(w.phase.at, w.phase.payment.amount, w.phase.payment.id)
  }

  /** The server at the client's address answers, or nobody does. Without a client nothing can be sent. */
  function DoReply(s: State, i: nat, status: int): State {
    if i < |s.workers| && s.workers[i].phase.Waiting? && s.workers[i].phase.client.Some? then
      var w := s.workers[i].phase;
      match Judge(status)
      case Accepted =>
        Emit(SetWorker(s, i, Confirmed(w.payment, w.gateway, w.at)),
             Answered(ServerAt(w.client.value), Record(w.at, w.payment.amount, w.payment.id)))
      case Retried => SetWorker(s, i, Choosing(w.payment, Some(w.url), w.client))
      case Rejected => SetWorker(s, i, Refused(w.payment, w.gateway))
    else s
  }

  function DoStore(s: State, i: nat): State {
    if i < |s.workers| && s.workers[i].phase.Confirmed? then
      var g, r := s.workers[i].phase.gateway, RecordInHand(s.workers[i]);
      var t := Insert(s.endian, s.tables.Of(g), Pack(s.endian, r));
      Emit(SetWorker(s, i, Idle).(tables := s.tables.With(g, t)), Stored(g, r))
    else s
  }

  function DoFlip(s: State, i: nat): State {
    if i < |s.workers| && s.workers[i].phase.Refused? then
      var w := s.workers[i].phase;
      Emit(SetWorker(s, i, Idle).(gateway := Other(w.gateway)), Discarded(w.payment))
    else s
  }

  function DoDrop(s: State, h: nat, g: Gateway): State {
    if h < |s.threads| && s.threads[h].phase == (if g == Default then Free else DefaultDropped) then
      Emit(SetThread(s, h, if g == Default then DefaultDropped else BothDropped).(tables := s.tables.With(g, [])),
           TableDropped(g))
    else s
  }

  function DoClear(s: State, h: nat): State {
    if h < |s.threads| && s.threads[h].phase.BothDropped? && s.threads[h].process < |s.queues| then
      var p := s.threads[h].process;
      Emit(SetThread(s, h, Free).(queues := s.queues[p := []]), QueueCleared(p, s.queues[p]))
    else s
  }

  function DoAsk(s: State, h: nat, from: Option<Int64>, to: Option<Int64>): State {
    if h < |s.threads| && s.threads[h].phase.Free? then
      Emit(SetThread(s, h, Arrived(|s.log|, from, to)), SummaryAsked(h, from, to))
    else s
  }

  /** The read transaction begins. */
  function DoBegin(s: State, h: nat): State {
    if h < |s.threads| && s.threads[h].phase.Arrived? then
      var r := s.threads[h].phase;
      SetThread(s, h, Reading(r.asked, s.tables, |s.log|, r.from, r.to, None))
    else s
  }

  ghost function DoRead(s: State, h: nat, g: Gateway): State {
    if h < |s.threads| && s.threads[h].phase.Reading? && s.threads[h].phase.onDefault.None? == (g == Default) then
      var r := s.threads[h].phase;
      var answer := ScanSummary(RecordsOf(s.endian, r.view.Of(g)), r.from, r.to);
      if g == Default then SetThread(s, h, r.(onDefault := Some(answer)))
      else Emit(SetThread(s, h, Free), Reported(h, r.from, r.to, r.onDefault.value, answer))
    else s
  }

  /** One step. An action that is not possible in a state leaves it as it is. */
  ghost function Step(s: State, a: Action): State {
    match a
    case PostPayment(p, id, amount) => DoPost(s, p, id, amount)
    case Dequeue(i) => DoDequeue(s, i)
    case LoadGateway(i) => DoLoad(s, i)
    case Send(i, at) => DoSend(s, i, at)
    case Reply(i, status) => DoReply(s, i, status)
    case StoreRecord(i) => DoStore(s, i)
    case Flip(i) => DoFlip(s, i)
    case ChooserStore(g) => s.(gateway := g)
    case DropDefault(h) => DoDrop(s, h, Default)
    case DropFallback(h) => DoDrop(s, h, Fallback)
    case ClearQueue(h) => DoClear(s, h)
    case AskSummary(h, from, to) => DoAsk(s, h, from, to)
    case BeginSummary(h) => DoBegin(s, h)
    case ReadDefault(h) => DoRead(s, h, Default)
    case ReadFallback(h) => DoRead(s, h, Fallback)
  }

  /** The state after a run. */
  ghost function Run(s: State, actions: seq<Action>): State {
    if actions == [] then s else Step(Run(s, actions[..|actions| - 1]), actions[|actions| - 1])
  }

  /** A step logs one event at most. */
  lemma StepLogs(s: State, a: Action)
    ensures Step(s, a).log == s.log || exists e :: Step(s, a).log == s.log + [e]
    ensures Step(s, a).endian == s.endian
  {
  }

  lemma {:induction false} LogGrows(s: State, actions: seq<Action>)
    ensures s.log <= Run(s, actions).log && Run(s, actions).endian == s.endian
  {
    if actions != [] {
      LogGrows(s, actions[..|actions| - 1]);
      StepLogs(Run(s, actions[..|actions| - 1]), actions[|actions| - 1]);
    }
  }

  lemma RunSnoc(s: State, actions: seq<Action>, a: Action)
    ensures Run(s, actions + [a]) == Step(Run(s, actions), a)
  {
    assert (actions + [a])[..|actions|] == actions;
  }

  lemma {:induction false} RunConcat(s: State, a: seq<Action>, b: seq<Action>)
    ensures Run(s, a + b) == Run(Run(s, a), b)
  {
    if b == [] {
      assert a + b == a;
    } else {
      var n := |b| - 1;
      assert a + b == (a + b[..n]) + [b[n]] && b == b[..n] + [b[n]];
      RunConcat(s, a, b[..n]);
      RunSnoc(s, a + b[..n], b[n]);
      RunSnoc(Run(s, a), b[..n], b[n]);
    }
  }

  ghost predicate Initial(s: State) {
    && (forall p :: 0 <= p < |s.queues| ==> s.queues[p] == [])
    && (forall i :: 0 <= i < |s.workers| ==> s.workers[i].phase == Idle)
    && (forall h :: 0 <= h < |s.threads| ==> s.threads[h].phase == Free)
    && s.gateway == Default
    && s.tables == Tables([], [])
    && s.log == []
  }
}
