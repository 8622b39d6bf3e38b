/** The worker's loop and the pipeline's worker steps are the same program: a worker scheduled alone,
    apart from stores to the gateway byte, goes through the loop's iterations one by one. */
module WorkerRefinement {
  import opened Types
  import opened Records
  import opened Ledger
  import opened Processor
  import opened Pipeline
  import opened PipelineSafety

  function Stores(others: seq<Gateway>): (actions: seq<Action>)
    ensures |actions| == |others|
  {
    if others == [] then [] else Stores(others[..|others| - 1]) + [ChooserStore(others[|others| - 1])]
  }

  /** One iteration of the loop as scheduler choices. */
  function TurnActions(i: nat, turn: Turn): seq<Action> {
    Stores(turn.others) + [LoadGateway(i)] + [Send(i, turn.requestedAt)] + [Reply(i, turn.status)]
  }

  function LoopActions(i: nat, turns: seq<Turn>): seq<Action> {
    if turns == [] then [] else LoopActions(i, turns[..|turns| - 1]) + TurnActions(i, turns[|turns| - 1])
  }

  lemma {:induction false} StoresSetGateway(s: State, others: seq<Gateway>)
    ensures Run(s, Stores(others)) == s.(gateway := Latest(s.gateway, others))
  {
    if others != [] {
      var n := |others| - 1;
      StoresSetGateway(s, others[..n]);
      RunSnoc(s, Stores(others[..n]), ChooserStore(others[n]));
    }
  }

  /** Worker i is about to make an attempt, with the client of its last one. */
  predicate Ready(s: State, i: nat) {
    i < |s.workers| && s.workers[i].phase.Choosing? && CacheMatches(s.workers[i])
  }

  /** What the loop has come to after an iteration that captured g. */
  function AfterTurn(payment: Payment, g: Gateway, turn: Turn): Phase {
    match Judge(turn.status)
    case Accepted => Confirmed(payment, g, turn.requestedAt)
    case Retried => Choosing(payment, Some(UrlOf(g)), Some(UrlOf(g)))
    case Rejected => Refused(payment, g)
  }

  function AnswerOf(payment: Payment, g: Gateway, turn: Turn): seq<Event> {
    if Judge(turn.status) == Accepted then [Answered(g, Record(turn.requestedAt, payment.amount, payment.id))] else []
  }

  lemma Overwrite(s: State, i: nat, a: Phase, b: Phase)
    requires i < |s.workers|
    ensures SetWorker(SetWorker(s, i, a), i, b) == SetWorker(s, i, b)
  {
    var w := s.workers[i];
    assert s.workers[i := w.(phase := a)][i := w.(phase := b)] == s.workers[i := w.(phase := b)];
  }

  /** Load, send and reply in one go. */
  lemma AttemptRuns(s: State, i: nat, at: Millis, status: int)
    requires Ready(s, i)
    ensures var g, p, turn := s.gateway, s.workers[i].phase.payment, Turn([], at, status);
            DoReply(DoSend(DoLoad(s, i), i, at), i, status) ==
            SetWorker(s, i, AfterTurn(p, g, turn)).(log := s.log + AnswerOf(p, g, turn))
  {
    var g, p, turn := s.gateway, s.workers[i].phase.payment, Turn([], at, status);
    var loaded, waiting := Chosen(p, g, UrlOf(g), Some(UrlOf(g))), Waiting(p, g, UrlOf(g), Some(UrlOf(g)), at);
    assert DoLoad(s, i) == SetWorker(s, i, loaded);
    Overwrite(s, i, loaded, waiting);
    var s2 := SetWorker(s, i, waiting);
    assert DoSend(DoLoad(s, i), i, at) == s2;
    Overwrite(s, i, waiting, AfterTurn(p, g, turn));
    assert s.log + [] == s.log;
    ReplyRuns(s2, i, turn, p, g);
  }

  lemma ReplyRuns(s: State, i: nat, turn: Turn, p: Payment, g: Gateway)
    requires i < |s.workers| && s.workers[i].phase == Waiting(p, g, UrlOf(g), Some(UrlOf(g)), turn.requestedAt)
    ensures DoReply(s, i, turn.status) == SetWorker(s, i, AfterTurn(p, g, turn)).(log := s.log + AnswerOf(p, g, turn))
  {
    assert s.log + [] == s.log;
  }

  lemma TurnIsThreeSteps(s: State, i: nat, turn: Turn)
    ensures Run(s, TurnActions(i, turn)) ==
            DoReply(DoSend(DoLoad(Run(s, Stores(turn.others)), i), i, turn.requestedAt), i, turn.status)
  {
    var a0 := Stores(turn.others);
    var a1 := a0 + [LoadGateway(i)];
    var a2 := a1 + [Send(i, turn.requestedAt)];
    RunSnoc(s, a0, LoadGateway(i));
    RunSnoc(s, a1, Send(i, turn.requestedAt));
    RunSnoc(s, a2, Reply(i, turn.status));
  }

  lemma TurnRuns(s: State, i: nat, turn: Turn)
    requires Ready(s, i)
    ensures var g, p := Latest(s.gateway, turn.others), s.workers[i].phase.payment;
            Run(s, TurnActions(i, turn)) ==
            SetWorker(s, i, AfterTurn(p, g, turn)).(gateway := g, log := s.log + AnswerOf(p, g, turn))
  {
    StoresSetGateway(s, turn.others);
    TurnIsThreeSteps(s, i, turn);
    AttemptRuns(s.(gateway := Latest(s.gateway, turn.others)), i, turn.requestedAt, turn.status);
  }

  /** What a worker alone has come to after the iterations so far, the last one having captured g. */
  function AfterLoop(s: State, i: nat, turns: seq<Turn>): State
    requires Ready(s, i) && turns != []
  {
    var last, p := turns[|turns| - 1], s.workers[i].phase.payment;
    var g := Captured(s.gateway, turns, |turns| - 1);
    SetWorker(s, i, AfterTurn(p, g, last)).(gateway := g, log := s.log + AnswerOf(p, g, last))
  }

  lemma OneMoreTurn(s: State, i: nat, turns: seq<Turn>)
    requires Ready(s, i) && |turns| > 1
    requires Judge(turns[|turns| - 2].status) == Retried
    ensures Run(AfterLoop(s, i, turns[..|turns| - 1]), TurnActions(i, turns[|turns| - 1])) == AfterLoop(s, i, turns)
  {
    var n, p := |turns| - 1, s.workers[i].phase.payment;
    var before := AfterLoop(s, i, turns[..n]);
    CapturedPrefix(s.gateway, turns, n, n - 1);
    assert s.log + [] == s.log;
    TurnRuns(before, i, turns[n]);
    Overwrite(s, i, before.workers[i].phase, AfterTurn(p, Captured(s.gateway, turns, n), turns[n]));
  }

  /** All earlier iterations retried, the worker ends in the phase the loop's contract names: the last
      captured gateway and clock, confirmed, refused or about to retry, with one answer logged at most. */
  lemma {:induction false} SoloWorkerRunsTheLoop(s: State, i: nat, turns: seq<Turn>)
    requires Ready(s, i) && turns != []
    requires forall k :: 0 <= k < |turns| - 1 ==> turns[k].status == -1 || 500 <= turns[k].status <= 599
    ensures Run(s, LoopActions(i, turns)) == AfterLoop(s, i, turns)
  {
    var n := |turns| - 1;
    RunConcat(s, LoopActions(i, turns[..n]), TurnActions(i, turns[n]));
    if n == 0 {
      assert turns[..0] == [];
      TurnRuns(s, i, turns[0]);
    } else {
      SoloWorkerRunsTheLoop(s, i, turns[..n]);
      OneMoreTurn(s, i, turns);
    }
  }

  /** Worker i is free again, the byte names g, and r has been added to the records of g alone. */
  ghost predicate StoredUnder(s: State, t: State, i: nat, g: Gateway, r: Record)
    requires i < |s.workers|
  {
    && t.workers == SetWorker(s, i, Idle).workers
    && t.gateway == g
    && AddedTo(s.endian, s.tables, t.tables, g, r)
  }

  lemma StoreAdds(s: State, t: State, i: nat, p: Payment, g: Gateway, at: Millis)
    requires i < |s.workers| && s.tables.Valid(s.endian)
    requires var r := Record(at, p.amount, p.id);
             t == DoStore(SetWorker(s, i, Confirmed(p, g, at)).(gateway := g, log := s.log + [Answered(g, r)]), i)
    ensures StoredUnder(s, t, i, g, Record(at, p.amount, p.id))
  {
    InsertAddsRecord(s.endian, s.tables.Of(g), Record(at, p.amount, p.id));
    Overwrite(s, i, Confirmed(p, g, at), Idle);
    assert t.workers == SetWorker(SetWorker(s, i, Confirmed(p, g, at)), i, Idle).workers;
  }

  /** An accepted payment at the end of the loop. */
  lemma {:induction false} AfterAccepted(s: State, i: nat, turns: seq<Turn>, g: Gateway)
    requires Ready(s, i) && turns != [] && turns[|turns| - 1].status == 200 && g == Captured(s.gateway, turns, |turns| - 1)
    ensures var last, p := turns[|turns| - 1], s.workers[i].phase.payment;
            AfterLoop(s, i, turns) ==
            SetWorker(s, i, Confirmed(p, g, last.requestedAt))
            .(gateway := g, log := s.log + [Answered(g, Record(last.requestedAt, p.amount, p.id))])
  {
  }

  /** The loop and the statement after it. */
  lemma SoloWorkerGoesOn(s: State, i: nat, turns: seq<Turn>, last: Action)
    requires Ready(s, i) && turns != []
    requires forall k :: 0 <= k < |turns| - 1 ==> turns[k].status == -1 || 500 <= turns[k].status <= 599
    ensures Run(s, LoopActions(i, turns) + [last]) == Step(AfterLoop(s, i, turns), last)
  {
    SoloWorkerRunsTheLoop(s, i, turns);
    RunSnoc(s, LoopActions(i, turns), last);
  }

  lemma {:induction false} SoloWorkerEnds(s: State, i: nat, turns: seq<Turn>, t: State)
    requires Ready(s, i) && turns != []
    requires forall k :: 0 <= k < |turns| - 1 ==> turns[k].status == -1 || 500 <= turns[k].status <= 599
    requires turns[|turns| - 1].status == 200 && t == Run(s, LoopActions(i, turns) + [StoreRecord(i)])
    ensures var last, p, g := turns[|turns| - 1], s.workers[i].phase.payment, Captured(s.gateway, turns, |turns| - 1);
            t == DoStore(SetWorker(s, i, Confirmed(p, g, last.requestedAt))
                         .(gateway := g, log := s.log + [Answered(g, Record(last.requestedAt, p.amount, p.id))]), i)
  {
    SoloWorkerGoesOn(s, i, turns, StoreRecord(i));
    AfterAccepted(s, i, turns, Captured(s.gateway, turns, |turns| - 1));
  }

  /** The last statement for an accepted payment: it is stored under the gateway and time of its own attempt. */
  lemma {:induction false} SoloWorkerStores(s: State, i: nat, turns: seq<Turn>, t: State)
    requires Ready(s, i) && turns != []
    requires forall k :: 0 <= k < |turns| - 1 ==> turns[k].status == -1 || 500 <= turns[k].status <= 599
    requires s.tables.Valid(s.endian) && turns[|turns| - 1].status == 200
    requires t == Run(s, LoopActions(i, turns) + [StoreRecord(i)])
    ensures StoredUnder(s, t, i, Captured(s.gateway, turns, |turns| - 1),
                        Record(turns[|turns| - 1].requestedAt, s.workers[i].phase.payment.amount, s.workers[i].phase.payment.id))
  {
    var last, p, g := turns[|turns| - 1], s.workers[i].phase.payment, Captured(s.gateway, turns, |turns| - 1);
    SoloWorkerEnds(s, i, turns, t);
    StoreAdds(s, t, i, p, g, last.requestedAt);
  }

  /** For a rejected one: the byte is flipped away from the gateway that rejected it, and nothing is stored. */
  lemma {:induction false} SoloWorkerFlips(s: State, i: nat, turns: seq<Turn>)
    requires Ready(s, i) && turns != []
    requires forall k :: 0 <= k < |turns| - 1 ==> turns[k].status == -1 || 500 <= turns[k].status <= 599
    requires var last := turns[|turns| - 1].status; last != 200 && last != -1 && !(500 <= last <= 599)
    ensures var g, t := Captured(s.gateway, turns, |turns| - 1), Run(s, LoopActions(i, turns) + [Flip(i)]);
            t.workers == SetWorker(s, i, Idle).workers && t.gateway == Other(g) && t.tables == s.tables
  {
    var p, g := s.workers[i].phase.payment, Captured(s.gateway, turns, |turns| - 1);
    SoloWorkerGoesOn(s, i, turns, Flip(i));
    Overwrite(s, i, AfterTurn(p, g, turns[|turns| - 1]), Idle);
  }

  lemma {:induction false} CapturedPrefix(start: Gateway, turns: seq<Turn>, n: nat, k: nat)
    requires k < n <= |turns|
    ensures Captured(start, turns[..n], k) == Captured(start, turns, k)
  {
    if k > 0 {
      CapturedPrefix(start, turns, n, k - 1);
    }
  }

  // ---------- A worker among others ----------

  predicate ActsFor(a: Action, i: nat) {
    (a.Dequeue? || a.LoadGateway? || a.Send? || a.Reply? || a.StoreRecord? || a.Flip?) && a.worker == i
  }

  predicate WithoutWorker(actions: seq<Action>, i: nat) {
    forall a :: a in actions ==> !ActsFor(a, i)
  }

  lemma OthersLeaveWorker(s: State, a: Action, i: nat)
    requires i < |s.workers| && !ActsFor(a, i)
    ensures i < |Step(s, a).workers| && Step(s, a).workers[i] == s.workers[i]
  {
  }

  lemma {:induction false} OtherRunsLeaveWorker(s: State, actions: seq<Action>, i: nat)
    requires i < |s.workers| && WithoutWorker(actions, i)
    ensures i < |Run(s, actions).workers| && Run(s, actions).workers[i] == s.workers[i]
  {
    if actions != [] {
      OtherRunsLeaveWorker(s, actions[..|actions| - 1], i);
      OthersLeaveWorker(Run(s, actions[..|actions| - 1]), actions[|actions| - 1], i);
    }
  }

  lemma {:induction false} OthersThen(s: State, actions: seq<Action>, i: nat, a: Action)
    requires i < |s.workers| && WithoutWorker(actions, i)
    ensures var u := Run(s, actions);
            i < |u.workers| && u.workers[i] == s.workers[i] && Run(s, actions + [a]) == Step(u, a)
  {
    OtherRunsLeaveWorker(s, actions, i);
    RunSnoc(s, actions, a);
  }

  /** An attempt, with anything in between, stores to the byte and purges included, goes by the gateway captured when
      it began and the clock read when it was sent. */
  lemma {:induction false} AttemptAmongOthers(s: State, i: nat, first: seq<Action>, at: Millis, second: seq<Action>, status: int)
    requires Ready(s, i) && WithoutWorker(first, i) && WithoutWorker(second, i)
    ensures var t := Run(Run(Step(s, LoadGateway(i)), first + [Send(i, at)]), second + [Reply(i, status)]);
            var p, g := s.workers[i].phase.payment, s.gateway;
            && i < |t.workers| && t.workers[i].phase == AfterTurn(p, g, Turn([], at, status))
            && (status == 200 ==> t.log != [] && t.log[|t.log| - 1] == Answered(g, Record(at, p.amount, p.id)))
  {
    var p, g := s.workers[i].phase.payment, s.gateway;
    var loaded := Step(s, LoadGateway(i));
    assert loaded.workers[i].phase == Chosen(p, g, UrlOf(g), Some(UrlOf(g)));
    OthersThen(loaded, first, i, Send(i, at));
    var sent := Run(loaded, first + [Send(i, at)]);
    assert sent.workers[i].phase == Waiting(p, g, UrlOf(g), Some(UrlOf(g)), at);
    OthersThen(sent, second, i, Reply(i, status));
    ReplyByNumber(Run(sent, second), i, status);
  }

  /** Whatever happens before the record is stored: it is the record of the confirmed attempt, in the table of the
      gateway that confirmed it. */
  lemma {:induction false} StoreAmongOthers(s: State, i: nat, p: Payment, g: Gateway, at: Millis, others: seq<Action>)
    requires i < |s.workers| && s.workers[i].phase == Confirmed(p, g, at) && WithoutWorker(others, i)
    requires Run(s, others).tables.Valid(Run(s, others).endian)
    ensures var u, t := Run(s, others), Run(s, others + [StoreRecord(i)]);
            && AddedTo(u.endian, u.tables, t.tables, g, Record(at, p.amount, p.id))
            && t.gateway == u.gateway && t.queues == u.queues
            && t.log == u.log + [Stored(g, Record(at, p.amount, p.id))]
            && i < |t.workers| && t.workers[i].phase == Idle
  {
    OthersThen(s, others, i, StoreRecord(i));
    var u := Run(s, others);
    InsertAddsRecord(u.endian, u.tables.Of(g), Record(at, p.amount, p.id));
  }

  /** Whatever happens before the byte is flipped, it then does not name the gateway that refused; nothing is stored. */
  lemma {:induction false} FlipAmongOthers(s: State, i: nat, p: Payment, g: Gateway, others: seq<Action>)
    requires i < |s.workers| && s.workers[i].phase == Refused(p, g) && WithoutWorker(others, i)
    ensures var u, t := Run(s, others), Run(s, others + [Flip(i)]);
            && t.gateway != g && t.tables == u.tables && t.queues == u.queues && t.log == u.log + [Discarded(p)]
            && i < |t.workers| && t.workers[i].phase == Idle
  {
    OthersThen(s, others, i, Flip(i));
  }

  // ---------- A payment from its arrival to its record ----------

  /** The payment is posted, taken up by worker i, accepted at once by g, and stored. */
  function ServeActions(process: nat, i: nat, p: Payment, g: Gateway, at: Millis): seq<Action> {
    [] + [PostPayment(process, p.id, p.amount)] + [Dequeue(i)] + TurnActions(i, Turn([g], at, STATUS_OK)) + [StoreRecord(i)]
  }

  function Served(process: nat, p: Payment, g: Gateway, at: Millis): seq<Event> {
    var r := Record(at, p.amount, p.id);
    [Enqueued(process, p), Dequeued(process, p), Answered(g, r), Stored(g, r)]
  }

  lemma PostThenDequeue(s: State, i: nat, p: Payment)
    requires i < |s.workers| && s.workers[i].phase == Idle && Acceptable(p.id, p.amount)
    requires s.workers[i].process < |s.queues| && s.queues[s.workers[i].process] == []
    ensures var process := s.workers[i].process;
            DoDequeue(DoPost(s, process, p.id, p.amount), i) ==
            SetWorker(s, i, Choosing(p, None, None)).(log := s.log + [Enqueued(process, p)] + [Dequeued(process, p)])
  {
    var process := s.workers[i].process;
    assert p == Payment(p.amount, p.id) && [] + [p] == [p] && [p][1..] == [];
    assert s.queues[process := [p]][process := []] == s.queues;
  }

  lemma StoreAfterTurn(s: State, i: nat, p: Payment, g: Gateway, at: Millis)
    requires i < |s.workers| && s.workers[i].phase == Idle
    ensures var r := Record(at, p.amount, p.id);
            DoStore(SetWorker(s, i, Confirmed(p, g, at)), i) ==
            s.(tables := s.tables.With(g, Insert(s.endian, s.tables.Of(g), Pack(s.endian, r))), log := s.log + [Stored(g, r)])
  {
    Overwrite(s, i, Confirmed(p, g, at), Idle);
    assert SetWorker(s, i, Idle) == s;
  }

  /** Queue and worker are as before; the byte names g, and the table of g has the record. */
  lemma {:induction false} ServeRuns(s: State, i: nat, p: Payment, g: Gateway, at: Millis)
    requires i < |s.workers| && s.workers[i].phase == Idle && Acceptable(p.id, p.amount)
    requires s.workers[i].process < |s.queues| && s.queues[s.workers[i].process] == []
    ensures Run(s, ServeActions(s.workers[i].process, i, p, g, at)) ==
            s.(gateway := g,
               tables := s.tables.With(g, Insert(s.endian, s.tables.Of(g), Pack(s.endian, Record(at, p.amount, p.id)))),
               log := s.log + Served(s.workers[i].process, p, g, at))
  {
    var process, r, turn := s.workers[i].process, Record(at, p.amount, p.id), Turn([g], at, STATUS_OK);
    var a1 := [] + [PostPayment(process, p.id, p.amount)];
    var a2 := a1 + [Dequeue(i)];
    RunSnoc(s, [], PostPayment(process, p.id, p.amount));
    RunSnoc(s, a1, Dequeue(i));
    PostThenDequeue(s, i, p);
    var s2 := SetWorker(s, i, Choosing(p, None, None)).(log := s.log + [Enqueued(process, p)] + [Dequeued(process, p)]);
    assert Run(s, a2) == s2;
    RunConcat(s, a2, TurnActions(i, turn));
    TurnRuns(s2, i, turn);
    Overwrite(s, i, Choosing(p, None, None), Confirmed(p, g, at));
    RunSnoc(s, a2 + TurnActions(i, turn), StoreRecord(i));
    var s3 := s.(gateway := g, log := s2.log + [Answered(g, r)]);
    assert Run(s, a2 + TurnActions(i, turn)) == SetWorker(s3, i, Confirmed(p, g, at));
    StoreAfterTurn(s3, i, p, g, at);
    assert s3.log + [Stored(g, r)] == s.log + Served(process, p, g, at);
  }
}
