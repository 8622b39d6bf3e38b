/** When a purge leaves nothing behind: it drops two tables and clears one queue in three separate steps,
    while workers go on. */
module Purge {
  import opened Types
  import opened Records
  import opened Repository
  import opened Ledger
  import opened Processor
  import opened Pipeline
  import opened PipelineSafety

  /** Every worker and every HTTP thread belongs to a process with a queue. */
  ghost predicate Placed(s: State) {
    && (forall i :: 0 <= i < |s.workers| ==> s.workers[i].process < |s.queues|)
    && (forall h :: 0 <= h < |s.threads| ==> s.threads[h].process < |s.queues|)
  }

  /** Worker i holds no payment that it could still store, and finds none in its queue. */
  ghost predicate Inactive(s: State, i: nat)
    requires Placed(s) && i < |s.workers|
  {
    (s.workers[i].phase.Idle? || s.workers[i].phase.Refused?) && s.queues[s.workers[i].process] == []
  }

  ghost predicate NothingToStore(s: State)
    requires Placed(s)
  {
    forall i :: 0 <= i < |s.workers| ==> Inactive(s, i)
  }

  predicate WithoutArrivals(actions: seq<Action>) {
    forall a :: a in actions ==> !a.PostPayment?
  }

  /** The tables dropped since s are empty. */
  ghost predicate DroppedStayEmpty(s: State, t: State) {
    && |s.log| <= |t.log|
    && forall g :: TableDropped(g) in t.log[|s.log|..] ==> t.tables.Of(g) == []
  }

  lemma StepStaysPlaced(s: State, a: Action)
    requires Placed(s)
    ensures Placed(Step(s, a)) && |Step(s, a).threads| == |s.threads|
  {
  }

  /** An inactive worker can only flip the gateway, once. */
  lemma StepStaysInactive(t: State, a: Action, i: nat)
    requires Placed(t) && Placed(Step(t, a)) && NothingToStore(t) && !a.PostPayment? && i < |t.workers|
    ensures |Step(t, a).workers| == |t.workers| && Inactive(Step(t, a), i)
  {
    assert Inactive(t, i);
    match a
    case Dequeue(j) => assert j < |t.workers| ==> Inactive(t, j);
    case StoreRecord(j) => assert j < |t.workers| ==> Inactive(t, j);
    case Flip(j) => assert j < |t.workers| ==> Inactive(t, j);
    case _ =>
  }

  lemma EventLeavesNothing(s: State, t: State, t': State, e: Event)
    requires DroppedStayEmpty(s, t) && t'.log == t.log + [e]
    requires t'.tables == (if e.TableDropped? then t.tables.With(e.gateway, []) else t.tables)
    ensures DroppedStayEmpty(s, t')
  {
    assert t'.log[|s.log|..] == t.log[|s.log|..] + [e];
  }

  lemma StepStoresNothing(s: State, t: State, a: Action)
    requires Placed(t) && NothingToStore(t) && DroppedStayEmpty(s, t)
    ensures DroppedStayEmpty(s, Step(t, a))
  {
    if a.StoreRecord? && a.worker < |t.workers| {
      assert Inactive(t, a.worker);
    } else if Step(t, a).log != t.log {
      EventLeavesNothing(s, t, Step(t, a), Step(t, a).log[|t.log|]);
    }
  }

  lemma {:induction false} NothingToStoreNothingLeft(s: State, actions: seq<Action>)
    requires Placed(s) && NothingToStore(s) && WithoutArrivals(actions)
    ensures var t := Run(s, actions); Placed(t) && NothingToStore(t) && DroppedStayEmpty(s, t)
  {
    if actions != [] {
      var t, a := Run(s, actions[..|actions| - 1]), actions[|actions| - 1];
      NothingToStoreNothingLeft(s, actions[..|actions| - 1]);
      StepStaysPlaced(t, a);
      StepStoresNothing(s, t, a);
      forall i | 0 <= i < |Step(t, a).workers| ensures Inactive(Step(t, a), i) {
        StepStaysInactive(t, a, i);
      }
    }
  }

  // ---------- Otherwise something can be left ----------

  lemma {:induction false} RunCons(s: State, a: Action, rest: seq<Action>)
    ensures Run(s, [a] + rest) == Run(Step(s, a), rest)
  {
    RunConcat(s, [a], rest);
    assert [a][..0] == [];
  }

  function ToConfirmed(phase: Phase): nat {
    match phase
    case Refused(_, _) => 5
    case Idle => 4
    case Choosing(_, _, _) => 3
    case Chosen(_, _, _, _) => 2
    case Waiting(_, _, _, _, _) => 1
    case Confirmed(_, _, _) => 0
  }

  function WorkerNext(i: nat, phase: Phase): Action {
    match phase
    case Refused(_, _) => Flip(i)
    case Idle => Dequeue(i)
    case Choosing(_, _, _) => LoadGateway(i)
    case Chosen(_, _, _, _) => Send(i, 0)
    case _ => Reply(i, STATUS_OK)
  }

  lemma WorkerAdvances(s: State, i: nat)
    requires Placed(s) && Cached(s) && i < |s.workers| && !Inactive(s, i) && !s.workers[i].phase.Confirmed?
    ensures var t := Step(s, WorkerNext(i, s.workers[i].phase));
            && Placed(t) && Cached(t) && |t.workers| == |s.workers| && !Inactive(t, i) && t.threads == s.threads
            && ToConfirmed(t.workers[i].phase) < ToConfirmed(s.workers[i].phase)
  {
    assert CacheMatches(s.workers[i]);
    StepStaysPlaced(s, WorkerNext(i, s.workers[i].phase));
    StepMatchesCache(s, WorkerNext(i, s.workers[i].phase));
  }

  /** A worker that is not inactive can get its payment, or the next one, confirmed. */
  lemma {:induction false} WorkerConfirms(s: State, i: nat) returns (actions: seq<Action>)
    requires Placed(s) && Cached(s) && i < |s.workers| && !Inactive(s, i)
    ensures WithoutArrivals(actions)
    ensures var t := Run(s, actions);
            Placed(t) && t.threads == s.threads && |t.workers| == |s.workers| && t.workers[i].phase.Confirmed?
    decreases ToConfirmed(s.workers[i].phase)
  {
    actions := [];
    if !s.workers[i].phase.Confirmed? {
      var a := WorkerNext(i, s.workers[i].phase);
      WorkerAdvances(s, i);
      var rest := WorkerConfirms(Step(s, a), i);
      RunCons(s, a, rest);
      actions := [a] + rest;
    }
  }

  function ToFree(phase: HttpPhase): nat {
    match phase
    case Arrived(_, _, _) => 3
    case Reading(_, _, _, _, _, onDefault) => if onDefault.None? then 2 else 1
    case DefaultDropped => 2
    case BothDropped => 1
    case Free => 0
  }

  function ThreadNext(h: nat, phase: HttpPhase): Action {
    match phase
    case Arrived(_, _, _) => BeginSummary(h)
    case Reading(_, _, _, _, _, onDefault) => if onDefault.None? then ReadDefault(h) else ReadFallback(h)
    case DefaultDropped => DropFallback(h)
    case _ => ClearQueue(h)
  }

  lemma ThreadAdvances(s: State, h: nat)
    requires Placed(s) && h < |s.threads| && s.threads[h].phase != Free
    ensures var t := Step(s, ThreadNext(h, s.threads[h].phase));
            && Placed(t) && |t.threads| == |s.threads| && t.workers == s.workers
            && ToFree(t.threads[h].phase) < ToFree(s.threads[h].phase)
  {
    StepStaysPlaced(s, ThreadNext(h, s.threads[h].phase));
  }

  /** An HTTP thread can finish what it is doing. */
  lemma {:induction false} ThreadFinishes(s: State, h: nat) returns (actions: seq<Action>)
    requires Placed(s) && h < |s.threads|
    ensures WithoutArrivals(actions)
    ensures var t := Run(s, actions);
            Placed(t) && t.workers == s.workers && |t.threads| == |s.threads| && t.threads[h].phase == Free
    decreases ToFree(s.threads[h].phase)
  {
    actions := [];
    if s.threads[h].phase != Free {
      var a := ThreadNext(h, s.threads[h].phase);
      ThreadAdvances(s, h);
      var rest := ThreadFinishes(Step(s, a), h);
      RunCons(s, a, rest);
      actions := [a] + rest;
    }
  }

  function WholePurge(h: nat): seq<Action> {
    [] + [DropDefault(h)] + [DropFallback(h)] + [ClearQueue(h)]
  }

  lemma PurgeSteps(s: State, h: nat)
    requires Placed(s) && h < |s.threads| && s.threads[h].phase == Free
    ensures DoClear(DoDrop(DoDrop(s, h, Default), h, Fallback), h) ==
            var p := s.threads[h].process;
            s.(queues := s.queues[p := []], tables := Tables([], []),
               log := s.log + [TableDropped(Default), TableDropped(Fallback), QueueCleared(p, s.queues[p])])
  {
    var t := DoClear(DoDrop(DoDrop(s, h, Default), h, Fallback), h);
    assert t.threads == s.threads;
    assert t.log == s.log + [TableDropped(Default), TableDropped(Fallback), t.log[|s.log| + 2]];
  }

  lemma WholePurgeIsThreeSteps(s: State, h: nat)
    ensures Run(s, WholePurge(h)) == DoClear(DoDrop(DoDrop(s, h, Default), h, Fallback), h)
  {
    RunSnoc(s, [], DropDefault(h));
    RunSnoc(s, [] + [DropDefault(h)], DropFallback(h));
    RunSnoc(s, [] + [DropDefault(h)] + [DropFallback(h)], ClearQueue(h));
  }

  /** A whole purge run by a free thread, with nobody in between. */
  lemma PurgeRuns(s: State, h: nat)
    requires Placed(s) && h < |s.threads| && s.threads[h].phase == Free
    ensures Run(s, WholePurge(h)) ==
            var p := s.threads[h].process;
            s.(queues := s.queues[p := []], tables := Tables([], []),
               log := s.log + [TableDropped(Default), TableDropped(Fallback), QueueCleared(p, s.queues[p])])
  {
    PurgeSteps(s, h);
    WholePurgeIsThreeSteps(s, h);
  }

  lemma StoreLeavesRecord(s: State, i: nat)
    requires i < |s.workers| && s.workers[i].phase.Confirmed?
    ensures var t, g := DoStore(s, i), s.workers[i].phase.gateway;
            t.tables.Of(g) != [] && t.threads == s.threads && t.queues == s.queues && t.log == s.log + [Stored(g, RecordInHand(s.workers[i]))]
  {
    var g := s.workers[i].phase.gateway;
    InsertHolds(s.endian, s.tables.Of(g), Pack(s.endian, RecordInHand(s.workers[i])), Pack(s.endian, RecordInHand(s.workers[i])));
  }

  lemma PurgeThenStore(s: State, h: nat, i: nat)
    requires Placed(s) && h < |s.threads| && s.threads[h].phase == Free && i < |s.workers| && s.workers[i].phase.Confirmed?
    ensures var t, g := Run(s, WholePurge(h) + [StoreRecord(i)]), s.workers[i].phase.gateway;
            && |t.threads| == |s.threads| && t.threads[h].phase == Free && t.tables.Of(g) != []
            && t.queues == s.queues[s.threads[h].process := []]
            && s.log + [TableDropped(Default), TableDropped(Fallback)] <= t.log
  {
    PurgeRuns(s, h);
    RunSnoc(s, WholePurge(h), StoreRecord(i));
    var u, g := Run(s, WholePurge(h)), s.workers[i].phase.gateway;
    StoreLeavesRecord(u, i);
  }

  /** With an active worker a whole purge can begin and end, with nothing accepted since, and a record of a
      payment confirmed before it be stored after it. */
  lemma {:induction false} PurgeCanLeaveARecord(s: State, i: nat, h: nat) returns (before: seq<Action>, g: Gateway)
    requires Placed(s) && Cached(s) && i < |s.workers| && !Inactive(s, i) && h < |s.threads|
    ensures WithoutArrivals(before)
    ensures var begun, t := Run(s, before), Run(s, before + (WholePurge(h) + [StoreRecord(i)]));
            && Placed(begun) && |begun.threads| == |t.threads| == |s.threads| && begun.threads[h].phase == t.threads[h].phase == Free
            && s.log <= begun.log && begun.log + [TableDropped(Default), TableDropped(Fallback)] <= t.log
            && t.queues == begun.queues[begun.threads[h].process := []] && t.tables.Of(g) != []
  {
    var first := WorkerConfirms(s, i);
    var second := ThreadFinishes(Run(s, first), h);
    before := first + second;
    RunConcat(s, first, second);
    g := Run(s, before).workers[i].phase.gateway;
    LogGrows(s, before);
    PurgeThenStore(Run(s, before), h, i);
    RunConcat(s, before, WholePurge(h) + [StoreRecord(i)]);
  }

  lemma LeftIsNotEmpty(s: State, begun: State, t: State, g: Gateway)
    requires s.log <= begun.log && begun.log + [TableDropped(Default), TableDropped(Fallback)] <= t.log
    requires t.tables.Of(g) != []
    ensures !DroppedStayEmpty(s, t)
  {
    var k := if g == Default then |begun.log| else |begun.log| + 1;
    assert t.log[k] == TableDropped(g);
    assert t.log[|s.log|..][k - |s.log|] == TableDropped(g);
  }

  /** Whatever is dropped stays empty, in every continuation without arrivals, exactly when every worker is
      inactive. What waits in a queue that no worker serves does no harm. */
  lemma {:induction false} PurgeLeavesNothingIff(s: State)
    requires Placed(s) && Cached(s) && s.threads != []
    ensures (forall actions :: WithoutArrivals(actions) ==> DroppedStayEmpty(s, Run(s, actions))) <==> NothingToStore(s)
  {
    if NothingToStore(s) {
      forall actions | WithoutArrivals(actions) ensures DroppedStayEmpty(s, Run(s, actions)) {
        NothingToStoreNothingLeft(s, actions);
      }
    } else {
      var i :| 0 <= i < |s.workers| && !Inactive(s, i);
      var before, g := PurgeCanLeaveARecord(s, i, 0);
      var actions := before + (WholePurge(0) + [StoreRecord(i)]);
      LeftIsNotEmpty(s, Run(s, before), Run(s, actions), g);
      assert WithoutArrivals(actions);
    }
  }

  /** Every reachable state is one of those, if the workers and threads were placed to begin with. */
  lemma {:induction false} RunsStayPlaced(s: State, actions: seq<Action>)
    requires Initial(s) && Placed(s)
    ensures Placed(Run(s, actions)) && Cached(Run(s, actions)) && |Run(s, actions).threads| == |s.threads|
  {
    CacheAlwaysMatches(s, actions);
    if actions != [] {
      RunsStayPlaced(s, actions[..|actions| - 1]);
      StepStaysPlaced(Run(s, actions[..|actions| - 1]), actions[|actions| - 1]);
    }
  }
}
