/** The polling loop that picks a gateway from the health of both. */
module Chooser {
  import opened Types

  /** Times are nanoseconds of the steady clock. */
  const POLL_TIME: int := 5_010_000_000

  datatype Health = Health(failing: bool, minResponseTime: int)

  /** One health request: when it was due, when it left, and what came back. */
  datatype Poll = Poll(gateway: Gateway, due: int, sent: int, result: Option<Health>)

  /** What one iteration meets. `before` and `window` are stores to the shared byte by other threads:
      before it is loaded, and between the load and the decision. */
  datatype Round = Round(
    before: seq<Gateway>,
    now: int,
    sentDefault: int,
    onDefault: Option<Health>,
    sentFallback: int,
    onFallback: Option<Health>,
    window: seq<Gateway>,
    asleep: int)

  /** What one iteration did: the value loaded, the choice, and the byte afterwards. */
  datatype Decision = Decision(loaded: Gateway, onDefault: Option<Health>, onFallback: Option<Health>, choice: Gateway, after: Gateway)

  /** The last successful result for a gateway among the polls so far. */
  function LastKnown(polls: seq<Poll>, g: Gateway): Option<Health> {
    if polls == [] then None
    else
      var p := polls[|polls| - 1];
      if p.gateway == g && p.result.Some? then p.result else LastKnown(polls[..|polls| - 1], g)
  }

  /** Poll i is the last of g that succeeded. */
  ghost predicate LastAnswer(polls: seq<Poll>, g: Gateway, i: nat) {
    && i < |polls| && polls[i].gateway == g && polls[i].result.Some?
    && forall j :: i < j < |polls| && polls[j].gateway == g ==> polls[j].result.None?
  }

  ghost predicate NeverAnswered(polls: seq<Poll>, g: Gateway) {
    forall i :: 0 <= i < |polls| && polls[i].gateway == g ==> polls[i].result.None?
  }

  lemma {:induction false} LastAnswerIsKnown(polls: seq<Poll>, g: Gateway, i: nat)
    requires LastAnswer(polls, g, i)
    ensures LastKnown(polls, g) == polls[i].result
  {
    var n := |polls| - 1;
    if i < n {
      assert forall j :: i < j < n ==> polls[..n][j] == polls[j];
      LastAnswerIsKnown(polls[..n], g, i);
    }
  }

  lemma {:induction false} KnownWasAnswered(polls: seq<Poll>, g: Gateway)
    ensures LastKnown(polls, g).Some? ==> exists i: nat :: LastAnswer(polls, g, i)
    ensures LastKnown(polls, g).None? ==> NeverAnswered(polls, g)
  {
    if polls != [] {
      var n := |polls| - 1;
      if polls[n].gateway == g && polls[n].result.Some? {
        assert LastAnswer(polls, g, n);
      } else {
        KnownWasAnswered(polls[..n], g);
        assert forall i :: 0 <= i < n ==> polls[..n][i] == polls[i];
        if i: nat :| LastAnswer(polls[..n], g, i) {
          assert LastAnswer(polls, g, i);
        }
      }
    }
  }

  /** In terms of the polls alone: h is known of g exactly when some poll of g returned h and no later one of g
      succeeded. */
  lemma {:induction false} LastKnownIff(polls: seq<Poll>, g: Gateway, h: Health)
    ensures LastKnown(polls, g) == Some(h) <==> exists i: nat :: LastAnswer(polls, g, i) && polls[i].result == Some(h)
  {
    if LastKnown(polls, g) == Some(h) {
      KnownWasAnswered(polls, g);
      var i: nat :| LastAnswer(polls, g, i);
      LastAnswerIsKnown(polls, g, i);
    }
    if i: nat :| LastAnswer(polls, g, i) && polls[i].result == Some(h) {
      LastAnswerIsKnown(polls, g, i);
    }
  }

  lemma {:induction false} NeverAnsweredIsUnknown(polls: seq<Poll>, g: Gateway)
    requires NeverAnswered(polls, g)
    ensures LastKnown(polls, g) == None
  {
    if polls != [] {
      assert forall i :: 0 <= i < |polls| - 1 ==> polls[..|polls| - 1][i] == polls[i];
      NeverAnsweredIsUnknown(polls[..|polls| - 1], g);
    }
  }

  predicate Failing(h: Option<Health>) {
    h.Some? && h.value.failing
  }

  predicate Healthy(h: Option<Health>) {
    h.Some? && !h.value.failing
  }

  /** The default gateway is slow, and more than twice as slow as the fallback. */
  predicate MuchSlower(d: Health, f: Health) {
    d.minResponseTime > 100 && d.minResponseTime > f.minResponseTime * 2
  }

  /** When the fallback gateway is chosen. */
  predicate PrefersFallback(d: Option<Health>, f: Option<Health>, loaded: Gateway) {
    || (Failing(d) && !Failing(f))
    || (Healthy(d) && Healthy(f) && MuchSlower(d.value, f.value))
    || (d.None? && Healthy(f) && loaded == Fallback)
  }

  /** The branch tree of the loop. */
  method Choose(defaultHealth: Option<Health>, fallbackHealth: Option<Health>, currentChoice: Gateway) returns (newChoice: Gateway)
    ensures newChoice == Fallback <==> PrefersFallback(defaultHealth, fallbackHealth, currentChoice)
    // Branch by branch: both known, one known, none known.
    ensures defaultHealth.Some? && fallbackHealth.Some? ==>
              var d, f := defaultHealth.value, fallbackHealth.value;
              && (!d.failing && !f.failing ==>
                    (newChoice == Fallback <==> d.minResponseTime > 100 && d.minResponseTime > 2 * f.minResponseTime))
              && (d.failing != f.failing ==> newChoice == (if d.failing then Fallback else Default))
              && (d.failing && f.failing ==> newChoice == Default)
    ensures defaultHealth.Some? && fallbackHealth.None? ==> newChoice == if defaultHealth.value.failing then Fallback else Default
    ensures defaultHealth.None? && fallbackHealth.Some? ==> newChoice == if fallbackHealth.value.failing then Default else currentChoice
    ensures defaultHealth.None? && fallbackHealth.None? ==> newChoice == Default
  {
    newChoice := currentChoice;
    if defaultHealth.Some? && fallbackHealth.Some? {
      if !defaultHealth.value.failing && !fallbackHealth.value.failing {
        if defaultHealth.value.minResponseTime > 100 &&
           defaultHealth.value.minResponseTime > fallbackHealth.value.minResponseTime * 2 {
          newChoice := Fallback;
        } else {
          newChoice := Default;
        }
      } else if !defaultHealth.value.failing && fallbackHealth.value.failing {
        newChoice := Default;
      } else if defaultHealth.value.failing && !fallbackHealth.value.failing {
        newChoice := Fallback;
      } else {
        newChoice := Default;
      }
    } else if defaultHealth.Some? && fallbackHealth.None? {
      if !defaultHealth.value.failing {
        newChoice := Default;
      } else {
        newChoice := Fallback;
      }
    } else if defaultHealth.None? && fallbackHealth.Some? {
      if !fallbackHealth.value.failing {
        newChoice := if currentChoice == Default then Default else Fallback;
      } else {
        newChoice := Default;
      }
    } else {
      newChoice := Default;
    }
  }

  /** What an iteration leaves in the shared byte, as seen from outside: its choice, except that a choice
      equal to the loaded value is not stored and so yields to other stores in the window. */
  predicate LeavesByte(loaded: Gateway, window: seq<Gateway>, choice: Gateway, after: Gateway) {
    if choice != loaded || window == [] then after == choice
    else after == window[|window| - 1]
  }

  /** Decision d loads the last store before it, chooses by the last known health of the polls
      made so far, and leaves the byte accordingly. */
  ghost predicate Explained(previous: Gateway, round: Round, polls: seq<Poll>, d: Decision) {
    && d.loaded == Latest(previous, round.before)
    && d.onDefault == LastKnown(polls, Default)
    && d.onFallback == LastKnown(polls, Fallback)
    && (d.choice == Fallback <==> PrefersFallback(d.onDefault, d.onFallback, d.loaded))
    && LeavesByte(d.loaded, round.window, d.choice, d.after)
  }

  function Previous(start: Gateway, decisions: seq<Decision>): Gateway {
    if decisions == [] then start else decisions[|decisions| - 1].after
  }

  ghost predicate Explains(start: Gateway, rounds: seq<Round>, polled: seq<seq<Poll>>, decisions: seq<Decision>) {
    && |decisions| == |polled| <= |rounds|
    && forall k :: 0 <= k < |decisions| ==> Explained(Previous(start, decisions[..k]), rounds[k], polled[k], decisions[k])
  }

  lemma ExplainsOneMore(start: Gateway, rounds: seq<Round>, polled: seq<seq<Poll>>, decisions: seq<Decision>, polls: seq<Poll>, d: Decision)
    requires Explains(start, rounds, polled, decisions) && |decisions| < |rounds|
    requires Explained(Previous(start, decisions), rounds[|decisions|], polls, d)
    ensures Explains(start, rounds, polled + [polls], decisions + [d])
  {
    var ds := decisions + [d];
    assert ds[..|decisions|] == decisions;
    assert forall k :: 0 <= k < |decisions| ==> ds[..k] == decisions[..k];
  }

  /** The polls of a gateway are due at least POLL_TIME apart. */
  ghost predicate Spaced(polls: seq<Poll>) {
    forall i, j :: 0 <= i < j < |polls| && polls[i].gateway == polls[j].gateway ==> polls[j].due - polls[i].due >= POLL_TIME
  }

  ghost predicate AllSpaced(polled: seq<seq<Poll>>) {
    forall k :: 0 <= k < |polled| ==> Spaced(polled[k])
  }

  lemma SpacedOneMore(polled: seq<seq<Poll>>, polls: seq<Poll>)
    requires AllSpaced(polled) && Spaced(polls)
    ensures AllSpaced(polled + [polls])
  {
  }

  /** The clock never goes back, and a sleep lasts at least POLL_TIME. */
  ghost predicate Timely(start: int, rounds: seq<Round>) {
    && (forall k :: 0 <= k < |rounds| ==>
          start <= rounds[k].now <= rounds[k].sentDefault <= rounds[k].sentFallback <= rounds[k].asleep)
    && (forall k :: 0 < k < |rounds| ==> rounds[k - 1].asleep + POLL_TIME <= rounds[k].now)
  }

  /** The two polls a timely round makes. */
  function BothPolls(r: Round): seq<Poll> {
    [Poll(Default, r.now, r.sentDefault, r.onDefault), Poll(Fallback, r.now, r.sentFallback, r.onFallback)]
  }

  function AllPolls(rounds: seq<Round>): seq<Poll> {
    if rounds == [] then [] else AllPolls(rounds[..|rounds| - 1]) + BothPolls(rounds[|rounds| - 1])
  }

  /** Every round so far polled both gateways. */
  ghost predicate BothEveryRound(rounds: seq<Round>, polled: seq<seq<Poll>>) {
    |polled| <= |rounds| && forall k :: 0 <= k < |polled| ==> polled[k] == AllPolls(rounds[..k + 1])
  }

  class GatewayChooser {
    var currentGateway: Gateway

    constructor ()
      ensures currentGateway == Default
    {
      currentGateway := Default;
    }

    /** Stores to the shared byte by other threads. */
    method Disturb(others: seq<Gateway>)
      modifies this
      ensures currentGateway == Latest(old(currentGateway), others)
    {
      if others != [] {
        currentGateway := others[|others| - 1];
      }
    }

    /** The loop. It returns its decisions and, for each, all polls made until then. */
    method Handler(start: int, rounds: seq<Round>) returns (decisions: seq<Decision>, polled: seq<seq<Poll>>)
      modifies this
      ensures |decisions| == |rounds| && Explains(old(currentGateway), rounds, polled, decisions)
      ensures PollsExactly(start, rounds, polled)
      ensures AllSpaced(polled)
      ensures Timely(start, rounds) ==> BothEveryRound(rounds, polled)
      ensures currentGateway == Previous(old(currentGateway), decisions)
    {
      var memory := Memory(start, [], start - POLL_TIME, start - POLL_TIME, None, None);
      decisions, polled := [], [];
      var k := 0;
      while k < |rounds|
        invariant k <= |rounds| && |decisions| == |polled| == k
        invariant Explains(old(currentGateway), rounds, polled, decisions)
        invariant currentGateway == Previous(old(currentGateway), decisions)
        invariant Sound(memory) && memory.start == start && memory.polls == PolledBefore(polled, k)
        invariant PollsExactly(start, rounds, polled)
        invariant AllSpaced(polled)
      {
        var decision;
        decision, memory := Iterate(rounds[k], memory);
        PolledOneMore(start, rounds, polled, memory.polls);
        SpacedOneMore(polled, memory.polls);
        ExplainsOneMore(old(currentGateway), rounds, polled, decisions, memory.polls, decision);
        decisions := decisions + [decision];
        polled := polled + [memory.polls];
        k := k + 1;
      }
      if Timely(start, rounds) {
        TimelyRoundsPollBoth(start, rounds, polled);
      }
    }

    /** One iteration: load, poll what is due, decide, store if the choice differs from the value loaded. */
    method Iterate(round: Round, memory: Memory) returns (decision: Decision, memory': Memory)
      requires Sound(memory)
      modifies this
      ensures Explained(old(currentGateway), round, memory'.polls, decision)
      ensures currentGateway == decision.after
      // The byte holds the last store: one in the window, unless the choice was stored after it.
      ensures currentGateway == Latest(old(currentGateway), round.before + round.window +
                                         (if decision.choice != decision.loaded then [decision.choice] else []))
      ensures Sound(memory') && memory'.start == memory.start
      ensures memory'.polls == RoundPolls(memory.start, memory.polls, round)
    {
      Disturb(round.before);
      var currentChoice := currentGateway;
      var polledDefault := PollIfDue(memory, Poll(Default, round.now, round.sentDefault, round.onDefault));
      memory' := PollIfDue(polledDefault, Poll(Fallback, round.now, round.sentFallback, round.onFallback));
      RoundPollsInTurn(memory, polledDefault, memory', round);
      Disturb(round.window);
      var newChoice := Choose(memory'.defaultHealth, memory'.fallbackHealth, currentChoice);
      ghost var own: seq<Gateway> := [];
      if newChoice != currentChoice {
        currentGateway := newChoice;
        own := [newChoice];
      }
      LastOfStores(old(currentGateway), round.before, round.window, own);
      decision := Decision(currentChoice, memory'.defaultHealth, memory'.fallbackHealth, newChoice, currentGateway);
      DecisionIsExplained(old(currentGateway), round, memory', decision);
    }

    /** Polls one gateway if POLL_TIME has passed since its last check; a failed poll keeps the old health. */
    static method PollIfDue(memory: Memory, poll: Poll) returns (memory': Memory)
      requires Sound(memory)
      ensures Sound(memory') && PolledIfDue(memory, poll, memory')
      ensures !Due(memory.start, memory.polls, poll.gateway, poll.due) ==> memory' == memory
      ensures Due(memory.start, memory.polls, poll.gateway, poll.due) ==>
                && memory'.LastCheck(poll.gateway) == poll.due
                && memory'.LastCheck(Other(poll.gateway)) == memory.LastCheck(Other(poll.gateway))
                && memory'.HealthOf(poll.gateway) == (if poll.result.Some? then poll.result else memory.HealthOf(poll.gateway))
                && memory'.HealthOf(Other(poll.gateway)) == memory.HealthOf(Other(poll.gateway))
    {
      DueIsChecked(memory, poll.gateway, poll.due);
      memory' := memory;
      if poll.due - memory.LastCheck(poll.gateway) >= POLL_TIME {
        KnownOneMore(memory.start, memory.polls, poll, Default, memory.lastDefaultCheck, memory.defaultHealth);
        KnownOneMore(memory.start, memory.polls, poll, Fallback, memory.lastFallbackCheck, memory.fallbackHealth);
        SpacedAppend(memory.polls, poll);
        memory' := memory'.(polls := memory.polls + [poll]);
        if poll.gateway == Default {
          memory' := memory'.(lastDefaultCheck := poll.due);
          if poll.result.Some? {
            memory' := memory'.(defaultHealth := poll.result);
          }
        } else {
          memory' := memory'.(lastFallbackCheck := poll.due);
          if poll.result.Some? {
            memory' := memory'.(fallbackHealth := poll.result);
          }
        }
      }
    }
  }

  /** Gateway g is due for a poll: the loop has started, and every poll of it was due 5010 ms ago or earlier. */
  ghost predicate Due(start: int, polls: seq<Poll>, g: Gateway, now: int) {
    now >= start && forall i :: 0 <= i < |polls| && polls[i].gateway == g ==> now - polls[i].due >= 5_010_000_000
  }

  /** The polls after a round: those before it, and one of each gateway that is due. */
  ghost function RoundPolls(start: int, polls: seq<Poll>, r: Round): seq<Poll> {
    polls
    + (if Due(start, polls, Default, r.now) then [Poll(Default, r.now, r.sentDefault, r.onDefault)] else [])
    + (if Due(start, polls, Fallback, r.now) then [Poll(Fallback, r.now, r.sentFallback, r.onFallback)] else [])
  }

  function PolledBefore(polled: seq<seq<Poll>>, k: nat): seq<Poll>
    requires k <= |polled|
  {
    if k == 0 then [] else polled[k - 1]
  }

  ghost predicate PollsAt(start: int, rounds: seq<Round>, polled: seq<seq<Poll>>, k: nat)
    requires k < |polled| <= |rounds|
  {
    polled[k] == RoundPolls(start, PolledBefore(polled, k), rounds[k])
  }

  /** Whatever the clock does, each round makes exactly the polls that are due. */
  ghost predicate PollsExactly(start: int, rounds: seq<Round>, polled: seq<seq<Poll>>) {
    && |polled| <= |rounds|
    && forall k :: 0 <= k < |polled| ==> PollsAt(start, rounds, polled, k)
  }

  ghost predicate PolledIfDue(m: Memory, poll: Poll, m': Memory) {
    && m'.start == m.start
    && m'.polls == if Due(m.start, m.polls, poll.gateway, poll.due) then m.polls + [poll] else m.polls
  }

  /** The first poll a round may make, and then the second. */
  lemma RoundPollsInTurn(m: Memory, m': Memory, m'': Memory, r: Round)
    requires PolledIfDue(m, Poll(Default, r.now, r.sentDefault, r.onDefault), m')
    requires PolledIfDue(m', Poll(Fallback, r.now, r.sentFallback, r.onFallback), m'')
    ensures m''.polls == RoundPolls(m.start, m.polls, r)
  {
    DueElsewhere(m, m', Fallback, r.now);
  }

  lemma DecisionIsExplained(previous: Gateway, round: Round, m: Memory, d: Decision)
    requires Sound(m) && d.onDefault == m.defaultHealth && d.onFallback == m.fallbackHealth
    requires d.loaded == Latest(previous, round.before)
    requires d.choice == Fallback <==> PrefersFallback(d.onDefault, d.onFallback, d.loaded)
    requires d.after == if d.choice != d.loaded then d.choice else Latest(d.loaded, round.window)
    ensures Explained(previous, round, m.polls, d)
  {
  }

  lemma LastOfStores(start: Gateway, before: seq<Gateway>, window: seq<Gateway>, own: seq<Gateway>)
    ensures Latest(start, before + window + own) == Latest(Latest(Latest(start, before), window), own)
  {
  }

  lemma PolledOneMore(start: int, rounds: seq<Round>, polled: seq<seq<Poll>>, polls: seq<Poll>)
    requires PollsExactly(start, rounds, polled) && |polled| < |rounds|
    requires polls == RoundPolls(start, PolledBefore(polled, |polled|), rounds[|polled|])
    ensures PollsExactly(start, rounds, polled + [polls])
    ensures PolledBefore(polled + [polls], |polled| + 1) == polls
  {
    var more := polled + [polls];
    forall k | 0 <= k < |more| ensures PollsAt(start, rounds, more, k) {
      assert PolledBefore(more, k) == PolledBefore(polled, k);
      if k < |polled| {
        assert PollsAt(start, rounds, polled, k);
      }
    }
  }

  /** What the loop remembers of a gateway: its last successful result, and when its last poll was due. */
  ghost predicate Known(start: int, polls: seq<Poll>, g: Gateway, lastCheck: int, health: Option<Health>) {
    && health == LastKnown(polls, g)
    && lastCheck >= start - POLL_TIME
    && (forall i :: 0 <= i < |polls| && polls[i].gateway == g ==> start <= polls[i].due <= lastCheck)
    && (lastCheck == start - POLL_TIME || exists i :: 0 <= i < |polls| && polls[i].gateway == g && polls[i].due == lastCheck)
  }

  /** The variables of the loop, with the polls made so far and the time it started. */
  datatype Memory = Memory(
    start: int,
    polls: seq<Poll>,
    lastDefaultCheck: int,
    lastFallbackCheck: int,
    defaultHealth: Option<Health>,
    fallbackHealth: Option<Health>)
  {
    function LastCheck(g: Gateway): int {
      if g == Default then lastDefaultCheck else lastFallbackCheck
    }

    function HealthOf(g: Gateway): Option<Health> {
      if g == Default then defaultHealth else fallbackHealth
    }
  }

  ghost predicate Sound(m: Memory) {
    && Known(m.start, m.polls, Default, m.lastDefaultCheck, m.defaultHealth)
    && Known(m.start, m.polls, Fallback, m.lastFallbackCheck, m.fallbackHealth)
    && Spaced(m.polls)
  }

  /** The comparison in the loop says when a gateway is due. */
  lemma DueIsChecked(m: Memory, g: Gateway, now: int)
    requires Sound(m)
    ensures Due(m.start, m.polls, g, now) <==> now - m.LastCheck(g) >= POLL_TIME
  {
    assert Known(m.start, m.polls, g, m.LastCheck(g), m.HealthOf(g));
  }

  /** A poll of the other gateway does not make g due. */
  lemma DueElsewhere(m: Memory, m': Memory, g: Gateway, now: int)
    requires m'.polls == m.polls || exists p: Poll :: p.gateway != g && m'.polls == m.polls + [p]
    ensures Due(m.start, m'.polls, g, now) <==> Due(m.start, m.polls, g, now)
  {
    if m'.polls != m.polls {
      var p: Poll :| p.gateway != g && m'.polls == m.polls + [p];
      assert forall i :: 0 <= i < |m.polls| ==> m'.polls[i] == m.polls[i];
    }
  }

  lemma KnownOneMore(start: int, polls: seq<Poll>, poll: Poll, g: Gateway, lastCheck: int, health: Option<Health>)
    requires Known(start, polls, g, lastCheck, health)
    requires poll.gateway == g ==> poll.due - lastCheck >= POLL_TIME
    ensures Known(start, polls + [poll], g,
                  if poll.gateway == g then poll.due else lastCheck,
                  if poll.gateway == g && poll.result.Some? then poll.result else health)
  {
    var more := polls + [poll];
    assert more[..|polls|] == polls && more[|polls|] == poll;
    if i :| 0 <= i < |polls| && polls[i].gateway == g && polls[i].due == lastCheck {
      assert more[i] == polls[i];
    }
  }

  lemma SpacedAppend(polls: seq<Poll>, poll: Poll)
    requires Spaced(polls)
    requires forall i :: 0 <= i < |polls| && polls[i].gateway == poll.gateway ==> poll.due - polls[i].due >= POLL_TIME
    ensures Spaced(polls + [poll])
  {
  }

  lemma {:induction false} PollsWereDue(start: int, rounds: seq<Round>, k: nat)
    requires Timely(start, rounds) && k < |rounds|
    ensures forall p :: p in AllPolls(rounds[..k]) ==> p.due + POLL_TIME <= rounds[k].now
  {
    if k > 0 {
      PollsWereDue(start, rounds, k - 1);
      AllPollsStep(rounds, k - 1);
      assert rounds[k - 1].now <= rounds[k - 1].asleep;
    }
  }

  lemma BothAreDue(start: int, polls: seq<Poll>, r: Round)
    requires start <= r.now && forall p :: p in polls ==> p.due + POLL_TIME <= r.now
    ensures RoundPolls(start, polls, r) == polls + BothPolls(r)
  {
    assert forall i :: 0 <= i < |polls| ==> polls[i] in polls;
    assert Due(start, polls, Default, r.now) && Due(start, polls, Fallback, r.now);
  }

  lemma TimelyRound(start: int, rounds: seq<Round>, k: nat, polls: seq<Poll>)
    requires Timely(start, rounds) && k < |rounds|
    requires polls == RoundPolls(start, AllPolls(rounds[..k]), rounds[k])
    ensures polls == AllPolls(rounds[..k + 1])
  {
    PollsWereDue(start, rounds, k);
    AllPollsStep(rounds, k);
    BothAreDue(start, AllPolls(rounds[..k]), rounds[k]);
  }

  /** In a timely run every round polls both gateways. */
  lemma {:induction false} TimelyPolls(start: int, rounds: seq<Round>, polled: seq<seq<Poll>>, k: nat)
    requires Timely(start, rounds) && PollsExactly(start, rounds, polled) && k <= |polled|
    ensures PolledBefore(polled, k) == AllPolls(rounds[..k])
  {
    if k > 0 {
      TimelyPolls(start, rounds, polled, k - 1);
      assert PollsAt(start, rounds, polled, k - 1);
      TimelyRound(start, rounds, k - 1, polled[k - 1]);
    }
  }

  lemma TimelyRoundsPollBoth(start: int, rounds: seq<Round>, polled: seq<seq<Poll>>)
    requires Timely(start, rounds) && PollsExactly(start, rounds, polled)
    ensures BothEveryRound(rounds, polled)
  {
    forall k | 0 <= k < |polled| ensures polled[k] == AllPolls(rounds[..k + 1]) {
      TimelyPolls(start, rounds, polled, k + 1);
    }
  }

  lemma AllPollsStep(rounds: seq<Round>, k: nat)
    requires k < |rounds|
    ensures AllPolls(rounds[..k + 1]) == AllPolls(rounds[..k]) + BothPolls(rounds[k])
  {
    assert rounds[..k + 1][..k] == rounds[..k];
  }

  // ---------- What the contract gives ----------

  /** Both gateways have answered, last in polls i and j: a failing one is never chosen while the other is healthy;
      of two healthy ones the default is left only when it takes more than 100 and more than twice the other's time. */
  lemma NeverTheFailingOne(
    start: Gateway, rounds: seq<Round>, polled: seq<seq<Poll>>, decisions: seq<Decision>, k: nat, i: nat, j: nat)
    requires Explains(start, rounds, polled, decisions) && k < |decisions|
    requires LastAnswer(polled[k], Default, i) && LastAnswer(polled[k], Fallback, j)
    ensures var d, f := polled[k][i].result.value, polled[k][j].result.value;
            && (d.failing && !f.failing ==> decisions[k].choice == Fallback)
            && (f.failing ==> decisions[k].choice == Default)
            && (!d.failing && !f.failing ==>
                  (decisions[k].choice == Fallback <==> d.minResponseTime > 100 && d.minResponseTime > 2 * f.minResponseTime))
  {
    LastAnswerIsKnown(polled[k], Default, i);
    LastAnswerIsKnown(polled[k], Fallback, j);
    assert Explained(Previous(start, decisions[..k]), rounds[k], polled[k], decisions[k]);
  }

  /** Only the default gateway has answered, last in poll i. */
  lemma OnlyDefaultKnown(start: Gateway, rounds: seq<Round>, polled: seq<seq<Poll>>, decisions: seq<Decision>, k: nat, i: nat)
    requires Explains(start, rounds, polled, decisions) && k < |decisions|
    requires LastAnswer(polled[k], Default, i) && NeverAnswered(polled[k], Fallback)
    ensures decisions[k].choice == if polled[k][i].result.value.failing then Fallback else Default
  {
    LastAnswerIsKnown(polled[k], Default, i);
    NeverAnsweredIsUnknown(polled[k], Fallback);
    assert Explained(Previous(start, decisions[..k]), rounds[k], polled[k], decisions[k]);
  }

  /** Only the fallback gateway has answered, last in poll j: a healthy fallback is kept but not gone to. */
  lemma OnlyFallbackKnown(start: Gateway, rounds: seq<Round>, polled: seq<seq<Poll>>, decisions: seq<Decision>, k: nat, j: nat)
    requires Explains(start, rounds, polled, decisions) && k < |decisions|
    requires NeverAnswered(polled[k], Default) && LastAnswer(polled[k], Fallback, j)
    ensures decisions[k].choice == if polled[k][j].result.value.failing then Default else decisions[k].loaded
  {
    NeverAnsweredIsUnknown(polled[k], Default);
    LastAnswerIsKnown(polled[k], Fallback, j);
    assert Explained(Previous(start, decisions[..k]), rounds[k], polled[k], decisions[k]);
  }

  /** Health is remembered: once known it stays known, and it is the last successful result. */
  lemma {:induction false} HealthIsRemembered(polls: seq<Poll>, more: seq<Poll>, g: Gateway)
    ensures LastKnown(polls, g).Some? ==> LastKnown(polls + more, g).Some?
    ensures LastKnown(polls, g).None? <==> forall i :: 0 <= i < |polls| && polls[i].gateway == g ==> polls[i].result.None?
    ensures LastKnown(polls + more, g) == if LastKnown(more, g).Some? then LastKnown(more, g) else LastKnown(polls, g)
    decreases |polls| + |more|
  {
    if more == [] {
      assert polls + more == polls;
      if polls != [] {
        HealthIsRemembered(polls[..|polls| - 1], [], g);
        assert forall i :: 0 <= i < |polls| - 1 ==> polls[..|polls| - 1][i] == polls[i];
      }
    } else {
      assert (polls + more)[..|polls + more| - 1] == polls + more[..|more| - 1];
      HealthIsRemembered(polls, more[..|more| - 1], g);
    }
  }

  /** A corollary of the contract of Handler: with the default gateway's health known and no store in the window,
      an iteration leaves what the last successful polls say: two runs that agree on those leave the same byte,
      whatever flips came before. */
  lemma SameHealthSameByte(
    start: Gateway, rounds: seq<Round>, polled: seq<seq<Poll>>, decisions: seq<Decision>, k: nat,
    start': Gateway, rounds': seq<Round>, polled': seq<seq<Poll>>, decisions': seq<Decision>, k': nat)
    requires Explains(start, rounds, polled, decisions) && k < |decisions| && rounds[k].window == []
    requires Explains(start', rounds', polled', decisions') && k' < |decisions'| && rounds'[k'].window == []
    requires LastKnown(polled[k], Default).Some?
    requires forall g :: LastKnown(polled[k], g) == LastKnown(polled'[k'], g)
    ensures decisions[k].after == decisions'[k'].after
  {
    assert Explained(Previous(start, decisions[..k]), rounds[k], polled[k], decisions[k]);
    assert Explained(Previous(start', decisions'[..k']), rounds'[k'], polled'[k'], decisions'[k']);
  }

  /** While the default gateway has never answered, and the fallback has not or was failing, the choice is the
      default; so is the byte, if the fallback was loaded or nobody stored in the window. */
  lemma UnknownMeansDefault(start: Gateway, rounds: seq<Round>, polled: seq<seq<Poll>>, decisions: seq<Decision>, k: nat)
    requires Explains(start, rounds, polled, decisions) && k < |decisions|
    requires NeverAnswered(polled[k], Default)
    requires forall j: nat :: LastAnswer(polled[k], Fallback, j) ==> polled[k][j].result.value.failing
    ensures decisions[k].choice == Default
    ensures decisions[k].loaded == Fallback || rounds[k].window == [] ==> decisions[k].after == Default
  {
    NeverAnsweredIsUnknown(polled[k], Default);
    KnownWasAnswered(polled[k], Fallback);
    if LastKnown(polled[k], Fallback).Some? {
      var j: nat :| LastAnswer(polled[k], Fallback, j);
      LastAnswerIsKnown(polled[k], Fallback, j);
    }
    assert Explained(Previous(start, decisions[..k]), rounds[k], polled[k], decisions[k]);
  }

  // ---------- The poll rate ----------

  /** When the requests to a gateway left, in order. */
  function SentTo(polls: seq<Poll>, g: Gateway): seq<int> {
    if polls == [] then []
    else
      var before, p := SentTo(polls[..|polls| - 1], g), polls[|polls| - 1];
      if p.gateway == g then before + [p.sent] else before
  }

  function Within(times: seq<int>, from: int, width: nat): set<int> {
    set k | 0 <= k < |times| && from <= times[k] <= from + width
  }

  ghost predicate Apart(times: seq<int>) {
    forall k :: 0 < k < |times| ==> times[k] - times[k - 1] >= POLL_TIME
  }

  lemma {:induction false} ApartBy(times: seq<int>, i: nat, j: nat)
    requires Apart(times) && i <= j < |times|
    ensures times[j] - times[i] >= (j - i) * POLL_TIME
    decreases j
  {
    if i < j {
      ApartBy(times, i, j - 1);
      assert times[j] - times[j - 1] >= POLL_TIME;
    }
  }

  lemma {:induction false} IntervalSize(s: set<int>, lo: int, hi: int)
    requires lo <= hi && forall k :: k in s ==> lo <= k < hi
    ensures |s| <= hi - lo
    decreases hi - lo
  {
    if s != {} {
      var rest := s - {hi - 1};
      IntervalSize(rest, lo, if lo < hi then hi - 1 else hi);
    }
  }

  /** Any window of W nanoseconds contains at most W / POLL_TIME + 1 of them. */
  lemma {:induction false} WindowHoldsFew(times: seq<int>, from: int, width: nat, n: nat)
    requires Apart(times) && n <= |times|
    ensures |Within(times[..n], from, width)| <= width / POLL_TIME + 1
  {
    var s := Within(times[..n], from, width);
    if n > 0 {
      if n - 1 !in s {
        WindowHoldsFew(times, from, width, n - 1);
        assert s == Within(times[..n - 1], from, width);
      } else {
        forall k | k in s ensures n - 1 - width / POLL_TIME <= k < n {
          ApartBy(times, k, n - 1);
          assert (n - 1 - k) * POLL_TIME <= width;
        }
        IntervalSize(s, n - 1 - width / POLL_TIME, n);
      }
    }
  }

  lemma SentToOneMore(polls: seq<Poll>, p: Poll, g: Gateway)
    ensures SentTo(polls + [p], g) == if p.gateway == g then SentTo(polls, g) + [p.sent] else SentTo(polls, g)
  {
    assert (polls + [p])[..|polls|] == polls;
  }

  /** In a timely run each round sends one request to each gateway, and they are POLL_TIME apart. */
  lemma {:induction false} TimelySends(start: int, rounds: seq<Round>, g: Gateway)
    requires Timely(start, rounds)
    ensures var times := SentTo(AllPolls(rounds), g);
            && |times| == |rounds| && Apart(times)
            && (rounds != [] ==> times[|rounds| - 1] <= rounds[|rounds| - 1].asleep)
  {
    if rounds != [] {
      var n := |rounds| - 1;
      var before, r := AllPolls(rounds[..n]), rounds[n];
      var d, f := BothPolls(r)[0], BothPolls(r)[1];
      TimelySends(start, rounds[..n], g);
      assert AllPolls(rounds) == before + [d] + [f];
      SentToOneMore(before, d, g);
      SentToOneMore(before + [d], f, g);
    }
  }

  /** The health requests of a timely run: one to each gateway in every round, and at most
      floor(W / 5010 ms) + 1 of them in any window of length W. */
  lemma PollRateBound(start: int, rounds: seq<Round>, g: Gateway, from: int, width: nat)
    requires Timely(start, rounds)
    ensures |SentTo(AllPolls(rounds), g)| == |rounds|
    ensures |Within(SentTo(AllPolls(rounds), g), from, width)| <= width / 5_010_000_000 + 1
  {
    var times := SentTo(AllPolls(rounds), g);
    TimelySends(start, rounds, g);
    WindowHoldsFew(times, from, width, |times|);
    assert times[..|times|] == times;
  }
}
