/** The ledger, its history, the answers read from it, and what the gateways confirmed. */
module LedgerAgreement {
  import opened Types
  import opened Bytes
  import opened Records
  import opened Ledger
  import opened Repository
  import opened Pipeline
  import opened PipelineSafety
  import opened Totals

  // ---------- Confirmations and records ----------

  function AnsweredCount(g: Gateway, r: Record): Event -> nat {
    (e: Event) => if e == Answered(g, r) then 1 else 0
  }

  function StoredAs(g: Gateway, r: Record): Event -> nat {
    (e: Event) => if e == Stored(g, r) then 1 else 0
  }

  /** The worker has been told of the confirmation and has not stored it yet. */
  function PendingCount(g: Gateway, r: Record): Worker -> nat {
    (w: Worker) => if w.phase.Confirmed? && w.phase.gateway == g && RecordInHand(w) == r then 1 else 0
  }

  /** Confirmations of r by g = times stored under g + confirmations in the hands of workers. */
  ghost predicate Matched(s: State, g: Gateway, r: Record) {
    Total(s.log, AnsweredCount(g, r)) == Total(s.log, StoredAs(g, r)) + Total(s.workers, PendingCount(g, r))
  }

  lemma LogMatches(s: State, s': State, e: Event, g: Gateway, r: Record)
    requires Matched(s, g, r) && s'.workers == s.workers && s'.log == s.log + [e]
    requires !e.Answered? && !e.Stored?
    ensures Matched(s', g, r)
  {
    TotalAppend(s.log, e, AnsweredCount(g, r));
    TotalAppend(s.log, e, StoredAs(g, r));
  }

  lemma WorkerMatches(s: State, s': State, i: nat, w: Worker, g: Gateway, r: Record)
    requires Matched(s, g, r) && i < |s.workers| && s'.workers == s.workers[i := w]
    requires s'.log == s.log && !w.phase.Confirmed? && !s.workers[i].phase.Confirmed?
    ensures Matched(s', g, r)
  {
    TotalUpdate(s.workers, i, w, PendingCount(g, r));
  }

  lemma ConfirmMatches(s: State, s': State, i: nat, w: Worker, g: Gateway, r: Record)
    requires Matched(s, g, r) && i < |s.workers| && s'.workers == s.workers[i := w]
    requires w.phase.Confirmed? && !s.workers[i].phase.Confirmed?
    requires s'.log == s.log + [Answered(w.phase.gateway, RecordInHand(w))]
    ensures Matched(s', g, r)
  {
    TotalUpdate(s.workers, i, w, PendingCount(g, r));
    TotalAppend(s.log, Answered(w.phase.gateway, RecordInHand(w)), AnsweredCount(g, r));
    TotalAppend(s.log, Answered(w.phase.gateway, RecordInHand(w)), StoredAs(g, r));
  }

  /** The server that answers is the gateway captured, because the client is the right one. */
  lemma ReplyMatches(s: State, i: nat, status: int, g: Gateway, r: Record)
    requires Matched(s, g, r) && Cached(s)
    ensures Matched(DoReply(s, i, status), g, r)
  {
    var s' := DoReply(s, i, status);
    if s' != s {
      assert CacheMatches(s.workers[i]);
      if s'.log == s.log {
        WorkerMatches(s, s', i, s'.workers[i], g, r);
      } else {
        ConfirmMatches(s, s', i, s'.workers[i], g, r);
      }
    }
  }

  lemma StoreMatches(s: State, s': State, i: nat, g: Gateway, r: Record)
    requires Matched(s, g, r) && i < |s.workers| && s.workers[i].phase.Confirmed?
    requires s'.workers == s.workers[i := s.workers[i].(phase := Idle)]
    requires s'.log == s.log + [Stored(s.workers[i].phase.gateway, RecordInHand(s.workers[i]))]
    ensures Matched(s', g, r)
  {
    TotalUpdate(s.workers, i, s'.workers[i], PendingCount(g, r));
    TotalAppend(s.log, s'.log[|s.log|], AnsweredCount(g, r));
    TotalAppend(s.log, s'.log[|s.log|], StoredAs(g, r));
  }

  lemma WorkerStepMatches(s: State, a: Action, g: Gateway, r: Record)
    requires Matched(s, g, r) && Cached(s)
    requires a.Dequeue? || a.LoadGateway? || a.Send? || a.Flip?
    ensures Matched(Step(s, a), g, r)
  {
    var s' := Step(s, a);
    if s' != s {
      var s1 := s.(workers := s'.workers);
      WorkerMatches(s, s1, a.worker, s'.workers[a.worker], g, r);
      if s'.log != s.log {
        LogMatches(s1, s', s'.log[|s.log|], g, r);
      }
    }
  }

  lemma QuietStepMatches(s: State, a: Action, g: Gateway, r: Record)
    requires Matched(s, g, r)
    requires !(a.Dequeue? || a.LoadGateway? || a.Send? || a.Flip? || a.Reply? || a.StoreRecord?)
    ensures Matched(Step(s, a), g, r)
  {
    var s' := Step(s, a);
    if s'.log != s.log {
      LogMatches(s, s', s'.log[|s.log|], g, r);
    }
  }

  /** A record is stored under g as often as g confirmed it, less those still with a worker. */
  lemma {:induction false} ConfirmationsAreStored(s: State, actions: seq<Action>, g: Gateway, r: Record)
    requires Initial(s)
    ensures Matched(Run(s, actions), g, r)
  {
    if actions == [] {
      TotalZero(s.workers, PendingCount(g, r));
    } else {
      var before, a := Run(s, actions[..|actions| - 1]), actions[|actions| - 1];
      ConfirmationsAreStored(s, actions[..|actions| - 1], g, r);
      CacheAlwaysMatches(s, actions[..|actions| - 1]);
      if a.Reply? {
        ReplyMatches(before, a.worker, a.status, g, r);
      } else if a.StoreRecord? {
        if DoStore(before, a.worker) != before {
          StoreMatches(before, DoStore(before, a.worker), a.worker, g, r);
        }
      } else if a.Dequeue? || a.LoadGateway? || a.Send? || a.Flip? {
        WorkerStepMatches(before, a, g, r);
      } else {
        QuietStepMatches(before, a, g, r);
      }
    }
  }

  // ---------- The ledger refines its history ----------

  /** The records stored under g since its table was last dropped. */
  function Kept(log: seq<Event>, g: Gateway): set<Record> {
    if log == [] then {}
    else
      var e, before := log[|log| - 1], Kept(log[..|log| - 1], g);
      if e.Stored? && e.gateway == g then before + {e.record}
      else if e.TableDropped? && e.gateway == g then {}
      else before
  }

  lemma KeptAppend(log: seq<Event>, e: Event, g: Gateway)
    ensures Kept(log + [e], g) ==
            if e.Stored? && e.gateway == g then Kept(log, g) + {e.record}
            else if e.TableDropped? && e.gateway == g then {}
            else Kept(log, g)
  {
    assert (log + [e])[..|log|] == log;
  }

  /** The tables hold what was kept after the first n events. */
  ghost predicate Holds(en: Endian, tables: Tables, log: seq<Event>) {
    && Ordered(en, tables.defaultTable) && RecordsOf(en, tables.defaultTable) == Kept(log, Default)
    && Ordered(en, tables.fallbackTable) && RecordsOf(en, tables.fallbackTable) == Kept(log, Fallback)
  }

  lemma QuietEventHolds(en: Endian, tables: Tables, log: seq<Event>, e: Event)
    requires Holds(en, tables, log) && !e.Stored? && !e.TableDropped?
    ensures Holds(en, tables, log + [e])
  {
    KeptAppend(log, e, Default);
    KeptAppend(log, e, Fallback);
  }

  lemma StoreHolds(en: Endian, tables: Tables, log: seq<Event>, g: Gateway, r: Record)
    requires Holds(en, tables, log)
    ensures Holds(en, tables.With(g, Insert(en, tables.Of(g), Pack(en, r))), log + [Stored(g, r)])
  {
    InsertAddsRecord(en, tables.Of(g), r);
    KeptAppend(log, Stored(g, r), Default);
    KeptAppend(log, Stored(g, r), Fallback);
  }

  lemma DropHolds(en: Endian, tables: Tables, log: seq<Event>, g: Gateway)
    requires Holds(en, tables, log)
    ensures Holds(en, tables.With(g, []), log + [TableDropped(g)])
  {
    KeptAppend(log, TableDropped(g), Default);
    KeptAppend(log, TableDropped(g), Fallback);
  }

  lemma StepHolds(s: State, a: Action)
    requires Holds(s.endian, s.tables, s.log)
    ensures Step(s, a).endian == s.endian && Holds(s.endian, Step(s, a).tables, Step(s, a).log)
  {
    var s' := Step(s, a);
    if s'.log != s.log {
      var e := s'.log[|s.log|];
      assert s'.log == s.log + [e];
      if e.Stored? {
        StoreHolds(s.endian, s.tables, s.log, e.gateway, e.record);
      } else if e.TableDropped? {
        DropHolds(s.endian, s.tables, s.log, e.gateway);
      } else {
        QuietEventHolds(s.endian, s.tables, s.log, e);
      }
    }
  }

  /** In every reachable state each table holds exactly the records stored since its last drop,
      although a purge drops the two tables in separate transactions. */
  lemma {:induction false} LedgerIsItsHistory(s: State, actions: seq<Action>)
    requires Initial(s)
    ensures Run(s, actions).endian == s.endian
    ensures Holds(s.endian, Run(s, actions).tables, Run(s, actions).log)
  {
    if actions != [] {
      LedgerIsItsHistory(s, actions[..|actions| - 1]);
      StepHolds(Run(s, actions[..|actions| - 1]), actions[|actions| - 1]);
    }
  }
}
