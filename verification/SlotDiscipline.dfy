/** The weakest discipline under which a slot is safe: start a request only when the start is harmless. */
module SlotDiscipline {
  import opened Ledger
  import opened Slot
  import opened SlotPermits
  import opened SlotSafety
  import opened SlotDamage
  import opened Totals

  // ---------- Histories put together ----------

  lemma {:induction false} TotalConcat<A>(xs: seq<A>, ys: seq<A>, count: A -> nat)
    ensures Total(xs + ys, count) == Total(xs, count) + Total(ys, count)
  {
    if ys == [] {
      assert xs + ys == xs;
    } else {
      var n := |ys| - 1;
      assert (xs + ys)[..|xs| + n] == xs + ys[..n];
      TotalConcat(xs, ys[..n], count);
    }
  }

  lemma UntakenConcat(past: seq<Event>, wire: seq<Event>, b: Union)
    ensures Untaken(past + wire, b) == Untaken(past, b) + Untaken(wire, b)
  {
    TotalConcat(past, wire, PostedBody(b));
    TotalConcat(past, wire, TakenCount(b));
  }

  lemma ConcatCounts(past: seq<Event>, wire: seq<Event>)
    requires AllTaken(past)
    ensures NothingMadeUp(past + wire) <==> NothingMadeUp(wire)
    ensures AllTaken(past + wire) <==> AllTaken(wire)
  {
    forall b: Union ensures Untaken(past + wire, b) == Untaken(wire, b) {
      UntakenConcat(past, wire, b);
    }
  }

  lemma ShiftOpen(past: seq<Event>, wire: seq<Event>, i: nat, j: nat, r: Request, body: Union)
    requires ServedOpen(wire, i, j, r, body)
    ensures ServedOpen(past + wire, |past| + i, |past| + j, r, body)
  {
    var w := past + wire;
    forall l | |past| + i < l < |w| ensures !w[l].Returned? && !(w[l].Posted? && Awaits(w[l].request)) {
      assert w[l] == wire[l - |past|];
    }
  }

  lemma ConcatBelongs(past: seq<Event>, wire: seq<Event>)
    requires AllBelong(past) && AllBelong(wire)
    ensures AllBelong(past + wire)
  {
    var w := past + wire;
    forall k | 0 <= k < |w| ensures Belongs(w, k) {
      if k < |past| {
        assert w[..k] == past[..k] && Belongs(past, k);
      } else {
        var n := k - |past|;
        assert w[..k] == past + wire[..n] && Belongs(wire, n);
        if w[k].Returned? {
          var i: nat, j: nat :| ServedOpen(wire[..n], i, j, wire[n].request, wire[n].body);
          ShiftOpen(past, wire[..n], i, j, wire[n].request, wire[n].body);
        }
      }
    }
  }

  /** The state t, with something before it in the history. */
  function After(past: seq<Event>, t: State): State {
    t.(wire := past + t.wire)
  }

  lemma OneMore(past: seq<Event>, wire: seq<Event>)
    ensures forall e :: past + (wire + [e]) == past + wire + [e]
  {
  }

  lemma ProxyAfter(past: seq<Event>, t: State)
    ensures DoProxy(After(past, t)) == After(past, DoProxy(t))
  {
    OneMore(past, t.wire);
  }

  lemma HandleAfter(past: seq<Event>, t: State, h: nat, response: Response)
    requires h < |t.handlers|
    ensures DoHandle(After(past, t), h, response) == After(past, DoHandle(t, h, response))
  {
    OneMore(past, t.wire);
  }

  lemma StepAfter(past: seq<Event>, t: State, a: Action)
    ensures Step(After(past, t), a) == After(past, Step(t, a))
  {
    match a
    case Begin(_) =>
    case ProxyStep => ProxyAfter(past, t);
    case Handle(h, response) =>
      if h < |t.handlers| {
        HandleAfter(past, t, h, response);
      }
  }

  lemma {:induction false} RunAfter(past: seq<Event>, t: State, actions: seq<Action>)
    ensures Run(After(past, t), actions) == After(past, Run(t, actions))
    decreases |actions|
  {
    if actions != [] {
      StepAfter(past, t, actions[0]);
      RunAfter(past, Step(t, actions[0]), actions[1..]);
    }
  }

  // ---------- The invariant ----------

  ghost predicate Tidy(t: State) {
    Good(t) || Unanswered(t) || NobodyServes(t) || Overlapped(t, t.body)
  }

  /** A clean past, and since then one of the states that a harmless start leads to. */
  ghost predicate Safe(s: State) {
    exists past, t :: s == After(past, t) && Clean(past) && Tidy(t)
  }

  lemma TidyIsUndamaged(t: State)
    requires Tidy(t)
    ensures Undamaged(t)
  {
    if Good(t) {
      GoodIsUndamaged(t);
    } else if Unanswered(t) {
      GoodIsUndamaged(t.(proxy := Resting));
      assert Settled(t) <==> Settled(t.(proxy := Resting));
    } else if Overlapped(t, t.body) {
      OverlappedIsUndamaged(t, t.body);
    }
  }

  lemma SafeIsUndamaged(s: State)
    requires Safe(s)
    ensures Undamaged(s)
  {
    var past, t :| s == After(past, t) && Clean(past) && Tidy(t);
    TidyIsUndamaged(t);
    ConcatCounts(past, t.wire);
    ConcatBelongs(past, t.wire);
    assert Settled(s) <==> Settled(t);
  }

  lemma OtherStepKeepsTidy(t: State, a: Action)
    requires Tidy(t) && !a.Begin?
    ensures Tidy(Step(t, a))
  {
    if Good(t) {
      StepKeepsGood(t, a);
    } else if Unanswered(t) {
      StepKeepsUnanswered(t, a);
    } else if NobodyServes(t) {
      StepKeepsNobody(t, a);
    } else {
      StepKeepsOverlapped(t, t.body, a);
    }
  }

  /** A harmless start from a good state. */
  lemma BeginFromGood(t: State, r: Request)
    requires Good(t) && t.proxy.Resting? && StartIsHarmless(t, r)
    ensures Tidy(Step(t, Begin(r)))
  {
    if Settled(t) {
      BeginKeepsGood(t, r);
    } else if t.handlers == [] {
      GoodIsUndamaged(t);
      StepKeepsNobody(t, Begin(r));
    } else if r.UnknownTarget? {
      assert Step(t, Begin(r)).(proxy := Resting) == t;
    } else {
      OverlapBegins(t);
    }
  }

  /** Once nothing is unread, what happened so far is a clean past. */
  lemma SettledIsPast(t: State)
    requires Overlapped(t, t.body) && t.proxy.Resting? && Settled(t)
    ensures Clean(t.wire) && Good(t.(wire := [])) && After(t.wire, t.(wire := [])) == t
  {
    OverlappedIsUndamaged(t, t.body);
    assert NoneTouching(t.(wire := []));
  }

  lemma HarmlessBegin(t: State, r: Request) returns (past: seq<Event>, u: State)
    requires Tidy(t) && t.proxy.Resting? && StartIsHarmless(t, r)
    ensures Step(t, Begin(r)) == After(past, u) && Clean(past) && Tidy(u)
  {
    past, u := [], Step(t, Begin(r));
    if Good(t) || Unanswered(t) {
      assert t.(proxy := Resting) == t;
      BeginFromGood(t, r);
    } else if NobodyServes(t) {
      StepKeepsNobody(t, Begin(r));
    } else if Settled(t) {
      SettledIsPast(t);
      past := t.wire;
      u := Step(t.(wire := []), Begin(r));
      assert Settled(t.(wire := []));
      BeginFromGood(t.(wire := []), r);
      StepAfter(past, t.(wire := []), Begin(r));
    }
    assert After([], Step(t, Begin(r))) == Step(t, Begin(r));
  }

  lemma AfterAfter(past: seq<Event>, more: seq<Event>, u: State)
    requires Clean(past) && Clean(more)
    ensures After(past, After(more, u)) == After(past + more, u) && Clean(past + more)
  {
    assert past + (more + u.wire) == past + more + u.wire;
    ConcatCounts(past, more);
    ConcatBelongs(past, more);
  }

  lemma StepKeepsSafe(s: State, a: Action)
    requires Safe(s) && (a.Begin? && s.proxy.Resting? ==> StartIsHarmless(s, a.request))
    ensures Safe(Step(s, a))
  {
    var past, t :| s == After(past, t) && Clean(past) && Tidy(t);
    StepAfter(past, t, a);
    if !a.Begin? {
      OtherStepKeepsTidy(t, a);
    } else if s.proxy.Resting? {
      assert StartIsHarmless(t, a.request);
      var more, u := HarmlessBegin(t, a.request);
      AfterAfter(past, more, u);
      assert Step(s, a) == After(past + more, u);
    }
  }

  // ---------- Whole runs ----------

  /** Every request is started only when that is harmless. */
  ghost predicate Harmless(s: State, actions: seq<Action>)
    decreases |actions|
  {
    actions == [] ||
    ((actions[0].Begin? && s.proxy.Resting? ==> StartIsHarmless(s, actions[0].request)) &&
     Harmless(Step(s, actions[0]), actions[1..]))
  }

  lemma {:induction false} RunKeepsSafe(s: State, actions: seq<Action>)
    requires Safe(s) && Harmless(s, actions)
    ensures Safe(Run(s, actions))
    decreases |actions|
  {
    if actions != [] {
      StepKeepsSafe(s, actions[0]);
      RunKeepsSafe(Step(s, actions[0]), actions[1..]);
    }
  }

  lemma InitialIsSafe(s: State)
    requires Initial(s)
    ensures Safe(s)
  {
    assert After([], s) == s && Clean([]);
  }

  /** Runs in which every start is harmless damage nothing: each payment posted is taken exactly once, as it was
      posted, and each response read belongs to the request just posted. */
  lemma HarmlessRunsAreUndamaged(s: State, actions: seq<Action>)
    requires Initial(s) && Harmless(s, actions)
    ensures Undamaged(Run(s, actions))
  {
    InitialIsSafe(s);
    RunKeepsSafe(s, actions);
    SafeIsUndamaged(Run(s, actions));
  }

  lemma {:induction false} WithoutBeginIsHarmless(s: State, actions: seq<Action>)
    requires WithoutBegin(actions)
    ensures Harmless(s, actions)
    decreases |actions|
  {
    if actions != [] {
      assert forall i :: 0 <= i < |actions| - 1 ==> actions[1..][i] == actions[i + 1];
      WithoutBeginIsHarmless(Step(s, actions[0]), actions[1..]);
    }
  }

  lemma HarmfulFromTidy(t: State, r: Request) returns (rest: seq<Action>)
    requires Tidy(t) && t.proxy.Resting? && !StartIsHarmless(t, r)
    ensures WithoutBegin(rest) && Damaged(Run(Step(t, Begin(r)), rest))
  {
    if Overlapped(t, t.body) {
      NobodyAtPurge(t.handlers);
      var h :| 0 <= h < |t.handlers| && Touching(t.handlers[h]);
      rest := TornPayment(Step(t, Begin(r)), r, h, Response(Summary(0, 0.0), Summary(0, 0.0)));
    } else {
      assert t.(proxy := Resting) == t;
      rest := HarmfulStart(t, r);
    }
  }

  lemma DamageStays(past: seq<Event>, t: State)
    requires Clean(past) && Damaged(t)
    ensures !Undamaged(After(past, t))
  {
    ConcatCounts(past, t.wire);
    assert Settled(After(past, t)) <==> Settled(t);
  }

  /** After any run of harmless starts, with the proxy at rest: whatever happens while request r is carried out,
      every payment is taken exactly once and every response belongs to its request, exactly when starting r is
      harmless. No weaker discipline is safe. */
  lemma StartIsSafeIff(s: State, actions: seq<Action>, r: Request)
    requires Initial(s) && Harmless(s, actions) && Run(s, actions).proxy.Resting?
    ensures (forall rest :: WithoutBegin(rest) ==> Undamaged(Run(Step(Run(s, actions), Begin(r)), rest)))
       <==> StartIsHarmless(Run(s, actions), r)
  {
    var now := Run(s, actions);
    InitialIsSafe(s);
    RunKeepsSafe(s, actions);
    if StartIsHarmless(now, r) {
      StepKeepsSafe(now, Begin(r));
      forall rest | WithoutBegin(rest) ensures Undamaged(Run(Step(now, Begin(r)), rest)) {
        WithoutBeginIsHarmless(Step(now, Begin(r)), rest);
        RunKeepsSafe(Step(now, Begin(r)), rest);
        SafeIsUndamaged(Run(Step(now, Begin(r)), rest));
      }
    } else {
      var past, t :| now == After(past, t) && Clean(past) && Tidy(t);
      assert !StartIsHarmless(t, r);
      var rest := HarmfulFromTidy(t, r);
      StepAfter(past, t, Begin(r));
      RunAfter(past, Step(t, Begin(r)), rest);
      DamageStays(past, Run(Step(t, Begin(r)), rest));
      assert WithoutBegin(rest) && !Undamaged(Run(Step(now, Begin(r)), rest));
    }
  }
}
