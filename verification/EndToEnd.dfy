/** The answers a client reads, against what the gateways confirmed. */
module EndToEnd {
  import opened Types
  import opened Bytes
  import opened Records
  import opened Ledger
  import opened Processor
  import opened Pipeline
  import opened PipelineSafety
  import opened LedgerAgreement
  import opened WorkerRefinement
  import opened Totals

  // ---------- What "kept" means ----------

  /** Some event stored r under g and no later one dropped the table of g. */
  ghost predicate StoredSinceDrop(log: seq<Event>, g: Gateway, r: Record) {
    exists k :: 0 <= k < |log| && log[k] == Stored(g, r) && TableDropped(g) !in log[k..]
  }

  lemma {:induction false} KeptWasStoredSince(log: seq<Event>, g: Gateway, r: Record)
    requires r in Kept(log, g)
    ensures StoredSinceDrop(log, g, r)
  {
    var n := |log| - 1;
    if log[n] == Stored(g, r) {
      assert log[n..] == [log[n]];
    } else {
      KeptWasStoredSince(log[..n], g, r);
      var k :| 0 <= k < n && log[..n][k] == Stored(g, r) && TableDropped(g) !in log[..n][k..];
      assert log[k..] == log[..n][k..] + [log[n]] && log[k] == Stored(g, r);
    }
  }

  lemma {:induction false} StoredSinceIsKept(log: seq<Event>, g: Gateway, r: Record, k: nat)
    requires k < |log| && log[k] == Stored(g, r) && TableDropped(g) !in log[k..]
    ensures r in Kept(log, g)
  {
    var n := |log| - 1;
    if k < n {
      assert log[k..] == log[..n][k..] + [log[n]];
      StoredSinceIsKept(log[..n], g, r, k);
    }
  }

  /** Both directions. */
  lemma {:induction false} KeptIff(log: seq<Event>, g: Gateway, r: Record)
    ensures r in Kept(log, g) <==> StoredSinceDrop(log, g, r)
  {
    if r in Kept(log, g) {
      KeptWasStoredSince(log, g, r);
    }
    if StoredSinceDrop(log, g, r) {
      var k :| 0 <= k < |log| && log[k] == Stored(g, r) && TableDropped(g) !in log[k..];
      StoredSinceIsKept(log, g, r, k);
    }
  }

  // ---------- Summaries are read from one moment within the call ----------

  /** Thread h is asked for a summary or answers one. */
  predicate Concerns(e: Event, h: nat) {
    (e.SummaryAsked? || e.Reported?) && e.thread == h
  }

  /** Event a is the last that concerns thread h, and asks it for a summary of the range. */
  ghost predicate AskedIn(log: seq<Event>, a: nat, h: nat, from: Option<Int64>, to: Option<Int64>) {
    && a < |log| && log[a] == SummaryAsked(h, from, to)
    && forall j :: a < j < |log| ==> !Concerns(log[j], h)
  }

  /** Both halves are what the two tables gave after the first m events. */
  ghost predicate FromMoment(log: seq<Event>, m: nat, from: Option<Int64>, to: Option<Int64>, onDefault: Summary, onFallback: Summary)
    requires m <= |log|
  {
    && onDefault == ScanSummary(Kept(log[..m], Default), from, to)
    && onFallback == ScanSummary(Kept(log[..m], Fallback), from, to)
  }

  /** Event k answers the request of event a with the tables as they were after m events, between the two. */
  ghost predicate AnswersFrom(log: seq<Event>, k: nat, a: nat, m: nat) {
    && k < |log| && log[k].Reported? && a < m <= k
    && AskedIn(log[..k], a, log[k].thread, log[k].from, log[k].to)
    && FromMoment(log, m, log[k].from, log[k].to, log[k].onDefault, log[k].onFallback)
  }

  ghost predicate TrueAnswer(log: seq<Event>, k: nat)
    requires k < |log|
  {
    log[k].Reported? ==> exists a: nat, m: nat :: AnswersFrom(log, k, a, m)
  }

  ghost predicate TrueAnswers(log: seq<Event>) {
    forall k :: 0 <= k < |log| ==> TrueAnswer(log, k)
  }

  /** What a thread with a summary under way has noted is what the history says. */
  ghost predicate TrueView(en: Endian, log: seq<Event>, h: nat, phase: HttpPhase) {
    match phase
    case Arrived(asked, from, to) => AskedIn(log, asked, h, from, to)
    case Reading(asked, view, mark, from, to, onDefault) =>
      && AskedIn(log, asked, h, from, to) && asked < mark <= |log|
      && Holds(en, view, log[..mark])
      && (onDefault.Some? ==> onDefault.value == ScanSummary(Kept(log[..mark], Default), from, to))
    case _ => true
  }

  ghost predicate TrueViews(s: State) {
    forall h :: 0 <= h < |s.threads| ==> TrueView(s.endian, s.log, h, s.threads[h].phase)
  }

  lemma EventOfAnother(en: Endian, log: seq<Event>, e: Event, h: nat, phase: HttpPhase)
    requires TrueView(en, log, h, phase) && !Concerns(e, h)
    ensures TrueView(en, log + [e], h, phase)
  {
    if phase.Reading? {
      assert (log + [e])[..phase.mark] == log[..phase.mark];
    }
  }

  lemma UnmovedView(s: State, a: Action, h: nat)
    requires h < |s.threads| && |Step(s, a).threads| == |s.threads| && Step(s, a).threads[h] == s.threads[h]
    requires TrueView(s.endian, s.log, h, s.threads[h].phase)
    ensures TrueView(s.endian, Step(s, a).log, h, s.threads[h].phase)
  {
    StepLogs(s, a);
    if Step(s, a).log != s.log && !s.threads[h].phase.Free? {
      EventOfAnother(s.endian, s.log, Step(s, a).log[|s.log|], h, s.threads[h].phase);
    }
  }

  lemma MovedView(s: State, a: Action, h: nat)
    requires h < |s.threads| && |Step(s, a).threads| == |s.threads| && Step(s, a).threads[h] != s.threads[h]
    requires TrueView(s.endian, s.log, h, s.threads[h].phase) && Holds(s.endian, s.tables, s.log)
    ensures TrueView(s.endian, Step(s, a).log, h, Step(s, a).threads[h].phase)
  {
    assert s.log[..|s.log|] == s.log;
  }

  lemma AppendAnswer(log: seq<Event>, e: Event)
    requires TrueAnswers(log) && TrueAnswer(log + [e], |log|)
    ensures TrueAnswers(log + [e])
  {
    forall k | 0 <= k < |log| ensures TrueAnswer(log + [e], k) {
      assert TrueAnswer(log, k);
      if log[k].Reported? {
        var a: nat, m: nat :| AnswersFrom(log, k, a, m);
        assert (log + [e])[..k] == log[..k] && (log + [e])[..m] == log[..m];
        assert AnswersFrom(log + [e], k, a, m);
      }
    }
  }

  lemma NewAnswer(s: State, h: nat)
    requires h < |s.threads| && TrueView(s.endian, s.log, h, s.threads[h].phase)
    requires s.threads[h].phase.Reading? && s.threads[h].phase.onDefault.Some?
    ensures TrueAnswer(DoRead(s, h, Fallback).log, |s.log|)
  {
    var r, log := s.threads[h].phase, DoRead(s, h, Fallback).log;
    assert log[..|s.log|] == s.log && log[..r.mark] == s.log[..r.mark];
    assert AnswersFrom(log, |s.log|, r.asked, r.mark);
  }

  lemma OnlyReadsReport(s: State, a: Action)
    requires Step(s, a).log != s.log && !a.ReadFallback?
    ensures !Step(s, a).log[|s.log|].Reported?
  {
  }

  lemma StepAnswers(s: State, a: Action)
    requires TrueViews(s) && TrueAnswers(s.log)
    ensures TrueAnswers(Step(s, a).log)
  {
    StepLogs(s, a);
    if Step(s, a).log != s.log {
      if a.ReadFallback? {
        NewAnswer(s, a.thread);
      } else {
        OnlyReadsReport(s, a);
      }
      AppendAnswer(s.log, Step(s, a).log[|s.log|]);
    }
  }

  lemma StepKeepsThreads(s: State, a: Action)
    ensures |Step(s, a).threads| == |s.threads|
  {
  }

  /** Every summary ever answered is the state of both tables at one moment after it was asked for
      and before it was answered. */
  lemma {:induction false} AnswersComeFromOneMoment(s: State, actions: seq<Action>)
    requires Initial(s)
    ensures TrueViews(Run(s, actions)) && TrueAnswers(Run(s, actions).log)
  {
    if actions != [] {
      var before, a := Run(s, actions[..|actions| - 1]), actions[|actions| - 1];
      AnswersComeFromOneMoment(s, actions[..|actions| - 1]);
      LedgerIsItsHistory(s, actions[..|actions| - 1]);
      StepAnswers(before, a);
      StepKeepsThreads(before, a);
      StepLogs(before, a);
      forall h | 0 <= h < |before.threads|
        ensures TrueView(before.endian, Step(before, a).log, h, Step(before, a).threads[h].phase)
      {
        if Step(before, a).threads[h] == before.threads[h] {
          UnmovedView(before, a, h);
        } else {
          MovedView(before, a, h);
        }
      }
    }
  }

  /** Left alone, a free thread answers with the scans of the tables for the very range it was asked about. */
  lemma SummaryRuns(s: State, h: nat, from: Option<Int64>, to: Option<Int64>)
    requires h < |s.threads| && s.threads[h].phase == Free
    ensures Run(s, [] + [AskSummary(h, from, to)] + [BeginSummary(h)] + [ReadDefault(h)] + [ReadFallback(h)]) ==
            s.(log := s.log + [SummaryAsked(h, from, to)] +
                 [Reported(h, from, to,
                           ScanSummary(RecordsOf(s.endian, s.tables.defaultTable), from, to),
                           ScanSummary(RecordsOf(s.endian, s.tables.fallbackTable), from, to))])
  {
    SummaryIsFourSteps(s, h, from, to);
    SummarySteps(s, h, from, to);
  }

  lemma SummaryIsFourSteps(s: State, h: nat, from: Option<Int64>, to: Option<Int64>)
    ensures Run(s, [] + [AskSummary(h, from, to)] + [BeginSummary(h)] + [ReadDefault(h)] + [ReadFallback(h)]) ==
            DoRead(DoRead(DoBegin(DoAsk(s, h, from, to), h), h, Default), h, Fallback)
  {
    RunSnoc(s, [], AskSummary(h, from, to));
    RunSnoc(s, [] + [AskSummary(h, from, to)], BeginSummary(h));
    RunSnoc(s, [] + [AskSummary(h, from, to)] + [BeginSummary(h)], ReadDefault(h));
    RunSnoc(s, [] + [AskSummary(h, from, to)] + [BeginSummary(h)] + [ReadDefault(h)], ReadFallback(h));
  }

  lemma SummarySteps(s: State, h: nat, from: Option<Int64>, to: Option<Int64>)
    requires h < |s.threads| && s.threads[h].phase == Free
    ensures DoRead(DoRead(DoBegin(DoAsk(s, h, from, to), h), h, Default), h, Fallback) ==
            s.(log := s.log + [SummaryAsked(h, from, to)] +
                 [Reported(h, from, to,
                           ScanSummary(RecordsOf(s.endian, s.tables.defaultTable), from, to),
                           ScanSummary(RecordsOf(s.endian, s.tables.fallbackTable), from, to))])
  {
    var t := DoRead(DoRead(DoBegin(DoAsk(s, h, from, to), h), h, Default), h, Fallback);
    assert t.threads == s.threads;
  }

  // ---------- The ledger against the gateways ----------

  /** The distinct records gateway g has confirmed. */
  function ConfirmedBy(log: seq<Event>, g: Gateway): set<Record> {
    set e | e in log && e.Answered? && e.server == g :: e.record
  }

  /** Confirmed by g, not stored yet. */
  function PendingFor(workers: seq<Worker>, g: Gateway): set<Record> {
    set w | w in workers && w.phase.Confirmed? && w.phase.gateway == g :: RecordInHand(w)
  }

  lemma TotalPositive<A>(xs: seq<A>, count: A -> nat)
    ensures Total(xs, count) > 0 <==> exists i :: 0 <= i < |xs| && count(xs[i]) > 0
  {
    if i :| 0 <= i < |xs| && count(xs[i]) > 0 {
      TotalCovers(xs, i, count);
    } else {
      TotalZero(xs, count);
    }
  }

  lemma ConfirmedIff(log: seq<Event>, g: Gateway, r: Record)
    ensures r in ConfirmedBy(log, g) <==> Total(log, AnsweredCount(g, r)) > 0
  {
    TotalPositive(log, AnsweredCount(g, r));
    if r in ConfirmedBy(log, g) {
      var e :| e in log && e.Answered? && e.server == g && e.record == r;
      var i :| 0 <= i < |log| && log[i] == e;
      assert AnsweredCount(g, r)(log[i]) > 0;
    }
  }

  lemma PendingIff(workers: seq<Worker>, g: Gateway, r: Record)
    ensures r in PendingFor(workers, g) <==> Total(workers, PendingCount(g, r)) > 0
  {
    TotalPositive(workers, PendingCount(g, r));
    if r in PendingFor(workers, g) {
      var w :| w in workers && w.phase.Confirmed? && w.phase.gateway == g && RecordInHand(w) == r;
      var i :| 0 <= i < |workers| && workers[i] == w;
      assert PendingCount(g, r)(workers[i]) > 0;
    }
  }

  lemma StoredIff(log: seq<Event>, g: Gateway, r: Record)
    ensures Total(log, StoredAs(g, r)) > 0 <==> Stored(g, r) in log
  {
    TotalPositive(log, StoredAs(g, r));
    if Stored(g, r) in log {
      var i :| 0 <= i < |log| && log[i] == Stored(g, r);
      assert StoredAs(g, r)(log[i]) > 0;
    }
  }

  lemma KeptWasStored(log: seq<Event>, g: Gateway, r: Record)
    ensures r in Kept(log, g) ==> Stored(g, r) in log
    ensures TableDropped(g) !in log && Stored(g, r) in log ==> r in Kept(log, g)
  {
    KeptIff(log, g, r);
    if TableDropped(g) !in log && Stored(g, r) in log {
      var k :| 0 <= k < |log| && log[k] == Stored(g, r);
      assert forall e :: e in log[k..] ==> e in log;
    }
  }

  /** What every reachable state satisfies: the tables are their history, every confirmation by a gateway is
      stored under it or in a worker's hands, and every stored time comes from the clock. */
  ghost predicate Faithful(t: State) {
    && Holds(t.endian, t.tables, t.log)
    && (forall g, r :: Matched(t, g, r))
    && StoredClocked(t.log)
  }

  ghost predicate StoredClocked(log: seq<Event>) {
    forall e :: e in log && e.Stored? ==> e.record.at >= 0
  }

  lemma StepStoresClocked(s: State, a: Action)
    requires Step(s, a).log != s.log && Step(s, a).log[|s.log|].Stored?
    ensures Step(s, a).log[|s.log|].record.at >= 0
  {
  }

  lemma {:induction false} StoredTimesAreClocked(s: State, actions: seq<Action>)
    requires Initial(s)
    ensures StoredClocked(Run(s, actions).log)
  {
    if actions != [] {
      var before, a := Run(s, actions[..|actions| - 1]), actions[|actions| - 1];
      StoredTimesAreClocked(s, actions[..|actions| - 1]);
      StepLogs(before, a);
      if Step(before, a).log != before.log && Step(before, a).log[|before.log|].Stored? {
        StepStoresClocked(before, a);
      }
    }
  }

  lemma {:induction false} RunsAreFaithful(s: State, actions: seq<Action>)
    requires Initial(s)
    ensures Faithful(Run(s, actions))
  {
    LedgerIsItsHistory(s, actions);
    StoredTimesAreClocked(s, actions);
    forall g, r ensures Matched(Run(s, actions), g, r) {
      ConfirmationsAreStored(s, actions, g, r);
    }
  }

  /** Nothing enters a ledger that its gateway did not confirm, purges or not. */
  lemma EveryRecordWasConfirmed(t: State, g: Gateway)
    requires Faithful(t)
    ensures RecordsOf(t.endian, t.tables.Of(g)) <= ConfirmedBy(t.log, g)
    ensures Clocked(RecordsOf(t.endian, t.tables.Of(g)))
  {
    forall r | r in Kept(t.log, g) ensures r in ConfirmedBy(t.log, g) && r.at >= 0 {
      KeptWasStored(t.log, g, r);
      StoredIff(t.log, g, r);
      ConfirmedIff(t.log, g, r);
      assert Matched(t, g, r);
    }
  }

  /** Without a drop of its table, what a gateway confirmed is in its ledger or in the hands of a worker. */
  lemma ConfirmedIsStoredOrPending(t: State, g: Gateway)
    requires Faithful(t) && TableDropped(g) !in t.log
    ensures ConfirmedBy(t.log, g) == RecordsOf(t.endian, t.tables.Of(g)) + PendingFor(t.workers, g)
  {
    forall r ensures r in ConfirmedBy(t.log, g) <==> r in Kept(t.log, g) || r in PendingFor(t.workers, g) {
      KeptWasStored(t.log, g, r);
      StoredIff(t.log, g, r);
      ConfirmedIff(t.log, g, r);
      PendingIff(t.workers, g, r);
      assert Matched(t, g, r);
    }
  }

  /** Over records from the clock, a scan of a range not starting before 1970 is exact. */
  lemma ClockedScan(records: set<Record>, from: Option<Int64>, to: Option<Int64>)
    requires Clocked(records) && (from.None? || from.value >= 0)
    ensures ScanSummary(records, from, to) == NaiveSummary(records, from, to)
    ensures ScanSummary(records, None, None) == SummaryOf(records)
  {
    ClockVisitedIsSelected(records, from, to);
    ClockVisitedIsSelected(records, None, None);
    assert Selected(records, None, None) == records;
  }

  /** With no drop and nothing pending for g, a summary of g over any range that does not begin before 1970
      is the count and the exact sum of the distinct confirmations g gave in that range. */
  lemma SummaryIsWhatTheGatewayConfirmed(t: State, g: Gateway, from: Option<Int64>, to: Option<Int64>)
    requires Faithful(t) && TableDropped(g) !in t.log && PendingFor(t.workers, g) == {}
    requires from.None? || from.value >= 0
    ensures ScanSummary(RecordsOf(t.endian, t.tables.Of(g)), from, to) == NaiveSummary(ConfirmedBy(t.log, g), from, to)
    ensures ScanSummary(RecordsOf(t.endian, t.tables.Of(g)), None, None) == SummaryOf(ConfirmedBy(t.log, g))
  {
    ConfirmedIsStoredOrPending(t, g);
    EveryRecordWasConfirmed(t, g);
    ClockedScan(RecordsOf(t.endian, t.tables.Of(g)), from, to);
  }

  /** With no drop of g's table: its confirmations are its ledger and what is pending, and with nothing pending
      its summaries over ranges not starting before 1970 are those of its confirmations. */
  ghost predicate AgreesWithGateway(t: State, g: Gateway) {
    TableDropped(g) !in t.log ==>
      && ConfirmedBy(t.log, g) == RecordsOf(t.endian, t.tables.Of(g)) + PendingFor(t.workers, g)
      && (PendingFor(t.workers, g) == {} ==>
            forall from: Option<Int64>, to: Option<Int64> :: from.None? || from.value >= 0 ==>
              ScanSummary(RecordsOf(t.endian, t.tables.Of(g)), from, to) == NaiveSummary(ConfirmedBy(t.log, g), from, to))
  }

  lemma FaithfulAgrees(t: State, g: Gateway)
    requires Faithful(t)
    ensures AgreesWithGateway(t, g)
  {
    if TableDropped(g) !in t.log {
      ConfirmedIsStoredOrPending(t, g);
      if PendingFor(t.workers, g) == {} {
        forall from: Option<Int64>, to: Option<Int64> | from.None? || from.value >= 0
          ensures ScanSummary(RecordsOf(t.endian, t.tables.Of(g)), from, to) == NaiveSummary(ConfirmedBy(t.log, g), from, to)
        {
          SummaryIsWhatTheGatewayConfirmed(t, g, from, to);
        }
      }
    }
  }

  /** For whole runs: any number of processes, workers, HTTP threads, chooser stores and flips. */
  lemma {:induction false} LedgerAgreesWithTheGateway(s: State, actions: seq<Action>, g: Gateway)
    requires Initial(s)
    ensures AgreesWithGateway(Run(s, actions), g)
  {
    RunsAreFaithful(s, actions);
    FaithfulAgrees(Run(s, actions), g);
  }

  // ---------- The printed answer ----------

  /** Every record was confirmed before it was stored. */
  ghost predicate Causal(log: seq<Event>) {
    forall j :: 0 <= j < |log| && log[j].Stored? ==> Answered(log[j].gateway, log[j].record) in log[..j]
  }

  /** What a worker is about to store has been confirmed. */
  ghost predicate Backed(s: State) {
    forall i :: 0 <= i < |s.workers| && s.workers[i].phase.Confirmed? ==>
      Answered(s.workers[i].phase.gateway, RecordInHand(s.workers[i])) in s.log
  }

  lemma CausalAppend(log: seq<Event>, e: Event)
    requires Causal(log) && (e.Stored? ==> Answered(e.gateway, e.record) in log)
    ensures Causal(log + [e])
  {
    var all := log + [e];
    forall j | 0 <= j < |all| && all[j].Stored? ensures Answered(all[j].gateway, all[j].record) in all[..j] {
      assert j <= |log| ==> all[..j] == log[..j];
      assert log[..|log|] == log;
    }
  }

  lemma StepStaysBacked(s: State, a: Action)
    requires Cached(s) && Backed(s)
    ensures Backed(Step(s, a))
  {
    var s' := Step(s, a);
    assert forall e :: e in s.log ==> e in s'.log;
    if a.Reply? && s'.log != s.log {
      assert CacheMatches(s.workers[a.worker]);
      assert s'.log[|s.log|] in s'.log;
    }
  }

  lemma StepStaysCausal(s: State, a: Action)
    requires Backed(s) && Causal(s.log)
    ensures Causal(Step(s, a).log)
  {
    var s' := Step(s, a);
    if s'.log != s.log {
      CausalAppend(s.log, s'.log[|s.log|]);
    }
  }

  lemma {:induction false} RunsAreCausal(s: State, actions: seq<Action>)
    requires Initial(s)
    ensures Causal(Run(s, actions).log) && Backed(Run(s, actions))
  {
    if actions != [] {
      var before := actions[..|actions| - 1];
      RunsAreCausal(s, before);
      CacheAlwaysMatches(s, before);
      StepStaysBacked(Run(s, before), actions[|actions| - 1]);
      StepStaysCausal(Run(s, before), actions[|actions| - 1]);
    }
  }

  /** The half of an answer that is about g. */
  function Half(e: Event, g: Gateway): Summary
    requires e.Reported?
  {
    if g == Default then e.onDefault else e.onFallback
  }

  /** r was stored under g before event a, and the table of g has not been dropped from then to the end. */
  ghost predicate StoredBefore(log: seq<Event>, a: nat, g: Gateway, r: Record) {
    exists j :: 0 <= j < a && j < |log| && log[j] == Stored(g, r) && TableDropped(g) !in log[j..]
  }

  /** What was there when event a happened is counted, and what is counted had been confirmed and stored. */
  ghost predicate Bracketed(log: seq<Event>, a: nat, g: Gateway, counted: set<Record>) {
    && (forall r :: StoredBefore(log, a, g, r) ==> r in counted)
    && (forall r :: r in counted ==> Answered(g, r) in log && Stored(g, r) in log)
  }

  /** Answer k to the request of event a: the count and the exact sum, over the range, of what g's table held at
      a moment between the two. That includes everything stored before the request and not dropped since, and
      nothing but what the gateway had confirmed and a worker had stored before the answer. */
  ghost predicate PrintsConfirmed(log: seq<Event>, k: nat, a: nat, g: Gateway)
    requires k < |log| && log[k].Reported?
  {
    && AskedIn(log[..k], a, log[k].thread, log[k].from, log[k].to)
    && exists m: nat :: a < m <= k
         && Half(log[k], g) == NaiveSummary(Kept(log[..m], g), log[k].from, log[k].to)
         && Bracketed(log[..k], a, g, Kept(log[..m], g))
  }

  /** For every answer about a range that does not start before 1970. */
  ghost predicate PrintsWhatWasConfirmed(log: seq<Event>, k: nat, g: Gateway)
    requires k < |log|
  {
    log[k].Reported? && (log[k].from.None? || log[k].from.value >= 0) ==> exists a: nat :: PrintsConfirmed(log, k, a, g)
  }

  lemma KeptIsBracketed(log: seq<Event>, a: nat, m: nat, g: Gateway)
    requires a < m <= |log| && Causal(log)
    ensures Bracketed(log, a, g, Kept(log[..m], g))
  {
    forall r | StoredBefore(log, a, g, r) ensures r in Kept(log[..m], g) {
      var j :| 0 <= j < a && j < |log| && log[j] == Stored(g, r) && TableDropped(g) !in log[j..];
      assert log[j..] == log[..m][j..] + log[m..];
      StoredSinceIsKept(log[..m], g, r, j);
    }
    forall r | r in Kept(log[..m], g) ensures Answered(g, r) in log && Stored(g, r) in log {
      KeptWasStored(log[..m], g, r);
      var j :| 0 <= j < m && log[..m][j] == Stored(g, r);
      assert log[j] == Stored(g, r) && Answered(g, r) in log[..j];
    }
  }

  lemma CausalPrefix(log: seq<Event>, k: nat)
    requires Causal(log) && k <= |log|
    ensures Causal(log[..k])
  {
    forall j | 0 <= j < k && log[..k][j].Stored? ensures Answered(log[..k][j].gateway, log[..k][j].record) in log[..k][..j] {
      assert log[..k][..j] == log[..j];
    }
  }

  lemma TrueAnswerPrintsWhatWasConfirmed(log: seq<Event>, k: nat, g: Gateway)
    requires k < |log| && TrueAnswer(log, k) && Causal(log)
    requires StoredClocked(log)
    ensures PrintsWhatWasConfirmed(log, k, g)
  {
    if log[k].Reported? && (log[k].from.None? || log[k].from.value >= 0) {
      var a: nat, m: nat :| AnswersFrom(log, k, a, m);
      CausalPrefix(log, k);
      KeptIsBracketed(log[..k], a, m, g);
      assert log[..k][..m] == log[..m];
      var counted := Kept(log[..m], g);
      forall r | r in counted ensures r.at >= 0 {
        KeptWasStored(log[..m], g, r);
        assert Stored(g, r) in log;
      }
      ClockedScan(counted, log[k].from, log[k].to);
      assert PrintsConfirmed(log, k, a, g);
    }
  }

  /** The headline: it holds of every answer printed in every run, purges included. */
  lemma {:induction false} PrintedSummaryIsWhatTheGatewayConfirmed(s: State, actions: seq<Action>, g: Gateway)
    requires Initial(s)
    ensures forall k :: 0 <= k < |Run(s, actions).log| ==> PrintsWhatWasConfirmed(Run(s, actions).log, k, g)
  {
    var log := Run(s, actions).log;
    AnswersComeFromOneMoment(s, actions);
    RunsAreCausal(s, actions);
    StoredTimesAreClocked(s, actions);
    forall k | 0 <= k < |log| ensures PrintsWhatWasConfirmed(log, k, g) {
      assert TrueAnswer(log, k);
      TrueAnswerPrintsWhatWasConfirmed(log, k, g);
    }
  }

  /** When g's table was never dropped and every confirmation g has given was stored before the request,
      the answer is exactly the count and the sum of the distinct confirmations of g in the range. */
  lemma SettledAnswerIsExact(log: seq<Event>, k: nat, a: nat, g: Gateway)
    requires k < |log| && log[k].Reported? && PrintsConfirmed(log, k, a, g)
    requires TableDropped(g) !in log[..k]
    requires forall r :: Answered(g, r) in log[..k] ==> Stored(g, r) in log[..a]
    ensures Half(log[k], g) == NaiveSummary(ConfirmedBy(log[..k], g), log[k].from, log[k].to)
  {
    var past := log[..k];
    var m: nat :| a < m <= k
      && Half(log[k], g) == NaiveSummary(Kept(log[..m], g), log[k].from, log[k].to)
      && Bracketed(past, a, g, Kept(log[..m], g));
    var counted := Kept(log[..m], g);
    forall r | r in ConfirmedBy(past, g) ensures r in counted {
      assert Answered(g, r) in past;
      var j :| 0 <= j < a && log[..a][j] == Stored(g, r);
      assert past[j] == Stored(g, r);
      assert forall e :: e in past[j..] ==> e in past;
      assert StoredBefore(past, a, g, r);
    }
    assert counted == ConfirmedBy(past, g);
  }

  // ---------- When the count is the number of confirmations ----------

  function AnsweredBy(g: Gateway): Event -> nat {
    (e: Event) => if e.Answered? && e.server == g then 1 else 0
  }

  /** No confirmation of g repeats an earlier one in time, amount and id. */
  ghost predicate NoRepeat(log: seq<Event>, g: Gateway) {
    forall i, j :: 0 <= i < j < |log| && log[i] == log[j] ==> !(log[i].Answered? && log[i].server == g)
  }

  lemma ConfirmedAppend(log: seq<Event>, e: Event, g: Gateway)
    ensures ConfirmedBy(log + [e], g) == ConfirmedBy(log, g) + (if e.Answered? && e.server == g then {e.record} else {})
    ensures NoRepeat(log + [e], g) <==> NoRepeat(log, g) && !(e.Answered? && e.server == g && e.record in ConfirmedBy(log, g))
  {
    var all := log + [e];
    if e.Answered? && e.server == g && e in log {
      var i :| 0 <= i < |log| && log[i] == e;
      assert all[i] == all[|log|];
    }
    if NoRepeat(all, g) {
      forall i, j | 0 <= i < j < |log| && log[i] == log[j] ensures !(log[i].Answered? && log[i].server == g) {
        assert all[i] == all[j];
      }
    }
  }

  lemma {:induction false} DistinctConfirmations(log: seq<Event>, g: Gateway)
    ensures |ConfirmedBy(log, g)| <= Total(log, AnsweredBy(g))
    ensures |ConfirmedBy(log, g)| == Total(log, AnsweredBy(g)) <==> NoRepeat(log, g)
  {
    if log != [] {
      var before, e := log[..|log| - 1], log[|log| - 1];
      assert log == before + [e];
      DistinctConfirmations(before, g);
      ConfirmedAppend(before, e, g);
    }
  }

  /** With no drop and nothing pending, the ledger has one record per confirmation exactly when no two
      confirmations agree in time, amount and id; otherwise it has fewer. */
  lemma OneRecordPerConfirmationIff(t: State, g: Gateway)
    requires Faithful(t) && TableDropped(g) !in t.log && PendingFor(t.workers, g) == {}
    ensures |RecordsOf(t.endian, t.tables.Of(g))| <= Total(t.log, AnsweredBy(g))
    ensures |RecordsOf(t.endian, t.tables.Of(g))| == Total(t.log, AnsweredBy(g)) <==> NoRepeat(t.log, g)
  {
    ConfirmedIsStoredOrPending(t, g);
    DistinctConfirmations(t.log, g);
  }

  /** The failing side of that, from every initial state with a worker: the same payment posted twice, accepted
      twice by g at the same millisecond and stored twice leaves one record, and a summary that counts one. */
  lemma RepeatedConfirmationsLeaveOneRecord(s: State, i: nat, p: Payment, g: Gateway, at: Millis) returns (actions: seq<Action>)
    requires Initial(s) && i < |s.workers| && s.workers[i].process < |s.queues| && Acceptable(p.id, p.amount)
    ensures var t := Run(s, actions);
            && TableDropped(g) !in t.log && PendingFor(t.workers, g) == {}
            && Total(t.log, AnsweredBy(g)) == 2
            && RecordsOf(t.endian, t.tables.Of(g)) == {Record(at, p.amount, p.id)}
            && ScanSummary(RecordsOf(t.endian, t.tables.Of(g)), None, None) == Summary(1, AmountOf(p.amount))
  {
    var once := ServeActions(s.workers[i].process, i, p, g, at);
    actions := once + once;
    ServedTwice(s, i, p, g, at);
    TwiceServedOnce(s, Run(s, actions), i, p, g, at);
  }

  lemma TwiceServedOnce(s: State, t: State, i: nat, p: Payment, g: Gateway, at: Millis)
    requires Initial(s) && i < |s.workers| && t.workers == s.workers && t.endian == s.endian
    requires var x := Pack(s.endian, Record(at, p.amount, p.id));
             t.tables == s.tables.With(g, Insert(s.endian, Insert(s.endian, [], x), x))
    requires var served := Served(s.workers[i].process, p, g, at); t.log == [] + served + served
    ensures TableDropped(g) !in t.log && PendingFor(t.workers, g) == {}
    ensures Total(t.log, AnsweredBy(g)) == 2
    ensures RecordsOf(t.endian, t.tables.Of(g)) == {Record(at, p.amount, p.id)}
    ensures ScanSummary(RecordsOf(t.endian, t.tables.Of(g)), None, None) == Summary(1, AmountOf(p.amount))
  {
    SameRecordTwice(s.endian, p, g, at);
    ServedLog([], s.workers[i].process, p, g, at);
    ServedLog([] + Served(s.workers[i].process, p, g, at), s.workers[i].process, p, g, at);
  }

  lemma {:induction false} ServedTwice(s: State, i: nat, p: Payment, g: Gateway, at: Millis)
    requires i < |s.workers| && s.workers[i].phase == Idle && Acceptable(p.id, p.amount)
    requires s.workers[i].process < |s.queues| && s.queues[s.workers[i].process] == []
    ensures var process, x := s.workers[i].process, Pack(s.endian, Record(at, p.amount, p.id));
            var once := ServeActions(process, i, p, g, at);
            Run(s, once + once) ==
            s.(gateway := g,
               tables := s.tables.With(g, Insert(s.endian, Insert(s.endian, s.tables.Of(g), x), x)),
               log := s.log + Served(process, p, g, at) + Served(process, p, g, at))
  {
    var once := ServeActions(s.workers[i].process, i, p, g, at);
    ServeRuns(s, i, p, g, at);
    ServeRuns(Run(s, once), i, p, g, at);
    RunConcat(s, once, once);
  }

  lemma SameRecordTwice(en: Endian, p: Payment, g: Gateway, at: Millis)
    ensures var r := Record(at, p.amount, p.id);
            var records := RecordsOf(en, Insert(en, Insert(en, [], Pack(en, r)), Pack(en, r)));
            records == {r} && ScanSummary(records, None, None) == Summary(1, AmountOf(p.amount))
  {
    var r := Record(at, p.amount, p.id);
    InsertAddsRecord(en, [], r);
    InsertAddsRecord(en, Insert(en, [], Pack(en, r)), r);
    assert RecordsOf(en, []) == {};
    ClockedScan({r}, None, None);
    SingleSummary(r);
  }

  lemma ServedLog(log: seq<Event>, process: nat, p: Payment, g: Gateway, at: Millis)
    ensures Total(log + Served(process, p, g, at), AnsweredBy(g)) == Total(log, AnsweredBy(g)) + 1
  {
    var e := Served(process, p, g, at);
    assert log + e == log + [e[0]] + [e[1]] + [e[2]] + [e[3]];
    TotalAppend(log, e[0], AnsweredBy(g));
    TotalAppend(log + [e[0]], e[1], AnsweredBy(g));
    TotalAppend(log + [e[0]] + [e[1]], e[2], AnsweredBy(g));
    TotalAppend(log + [e[0]] + [e[1]] + [e[2]], e[3], AnsweredBy(g));
  }
}
