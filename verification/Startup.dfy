/** The startup handshake: a coordinator that rebuilds the database, any number of followers that
    wait for it, one named semaphore, and LMDB's single-writer lock. */
module Startup {
  import opened Types

  datatype Party = Coordinator | Follower(index: nat)

  datatype CoordinatorPhase = Starting | FilesRemoved | EnvOpen | InTransaction | DefaultOpen | FallbackOpen | SemaphorePosted | Committed

  datatype FollowerPhase = WaitingPermit | Passed | FollowerEnvOpen | FollowerInTransaction | FollowerDefaultOpen | FollowerReady

  datatype State = State(
    permits: nat,
    writer: Option<Party>,
    coordinator: CoordinatorPhase,
    followers: seq<FollowerPhase>,
    passed: nat)

  /** Every party advances one statement; a wait or a lock that is not available leaves it where it is. */
  datatype Action = CoordinatorStep | FollowerStep(index: nat)

  function StepCoordinator(s: State): State {
    match s.coordinator
    case Starting => s.(coordinator := FilesRemoved)
    case FilesRemoved => s.(coordinator := EnvOpen)
    case EnvOpen => if s.writer.None? then s.(coordinator := InTransaction, writer := Some(Coordinator)) else s
    case InTransaction => s.(coordinator := DefaultOpen)
    case DefaultOpen => s.(coordinator := FallbackOpen)
    case FallbackOpen => s.(coordinator := SemaphorePosted, permits := s.permits + 1)
    case SemaphorePosted => s.(coordinator := Committed, writer := None)
    case Committed => s
  }

  function SetFollower(s: State, i: nat, phase: FollowerPhase): State
    requires i < |s.followers|
  {
    s.(followers := s.followers[i := phase])
  }

  function StepFollower(s: State, i: nat): State
    requires i < |s.followers|
  {
    match s.followers[i]
    case WaitingPermit =>
      if s.permits == 0 then s else SetFollower(s, i, Passed).(permits := s.permits - 1, passed := s.passed + 1)
    case Passed => SetFollower(s, i, FollowerEnvOpen)
    case FollowerEnvOpen =>
      if s.writer.None? then SetFollower(s, i, FollowerInTransaction).(writer := Some(Follower(i))) else s
    case FollowerInTransaction => SetFollower(s, i, FollowerDefaultOpen)
    case FollowerDefaultOpen => SetFollower(s, i, FollowerReady).(writer := None)
    case FollowerReady => s
  }

  function Step(s: State, a: Action): State {
    match a
    case CoordinatorStep => StepCoordinator(s)
    case FollowerStep(i) => if i < |s.followers| then StepFollower(s, i) else s
  }

  function Run(s: State, actions: seq<Action>): State
    decreases |actions|
  {
    if actions == [] then s else Run(Step(s, actions[0]), actions[1..])
  }

  /** A start with n permits left in the named semaphore, which outlives the processes. */
  function Start(n: nat, followers: nat): State {
    State(n, None, Starting, seq(followers, _ => WaitingPermit), 0)
  }

  /** The follower is opening tables, or has opened them. */
  predicate InTables(f: FollowerPhase) {
    f.FollowerInTransaction? || f.FollowerDefaultOpen? || f.FollowerReady?
  }

  predicate HasPosted(c: CoordinatorPhase) {
    c.SemaphorePosted? || c.Committed?
  }

  /** Followers touch tables only after the old files were removed and both new tables committed,
      and open the environment only after the old files were removed. */
  ghost predicate Ordered(s: State) {
    && (forall i :: 0 <= i < |s.followers| && InTables(s.followers[i]) ==> s.coordinator.Committed?)
    && (forall i :: 0 <= i < |s.followers| && !s.followers[i].WaitingPermit? ==> HasPosted(s.coordinator))
  }

  predicate HoldsLock(c: CoordinatorPhase) {
    c.InTransaction? || c.DefaultOpen? || c.FallbackOpen? || c.SemaphorePosted?
  }

  predicate Writes(f: FollowerPhase) {
    f.FollowerInTransaction? || f.FollowerDefaultOpen?
  }

  ghost predicate Invariant(n: nat, s: State) {
    && s.permits + s.passed == n + (if HasPosted(s.coordinator) then 1 else 0)
    && (s.writer == Some(Coordinator) <==> HoldsLock(s.coordinator))
    && (forall i :: 0 <= i < |s.followers| ==> (s.writer == Some(Follower(i)) <==> Writes(s.followers[i])))
    && (n == 0 ==> Ordered(s))
    && (n == 0 && !HasPosted(s.coordinator) ==> s.passed == 0)
  }

  lemma StepKeepsInvariant(n: nat, s: State, a: Action)
    requires Invariant(n, s)
    ensures Invariant(n, Step(s, a))
  {
  }

  lemma {:induction false} RunKeepsInvariant(n: nat, s: State, actions: seq<Action>)
    requires Invariant(n, s)
    ensures Invariant(n, Run(s, actions))
    decreases |actions|
  {
    if actions != [] {
      StepKeepsInvariant(n, s, actions[0]);
      RunKeepsInvariant(n, Step(s, actions[0]), actions[1..]);
    }
  }

  /** At most one follower passes for the coordinator's start, besides those let in by permits left over. */
  lemma FollowersPassOneByOne(n: nat, followers: nat, actions: seq<Action>)
    ensures var t := Run(Start(n, followers), actions);
            t.passed <= n + 1 && t.passed + t.permits == n + (if HasPosted(t.coordinator) then 1 else 0)
  {
    RunKeepsInvariant(n, Start(n, followers), actions);
  }

  /** A follower let in by a left-over permit reaches the old tables before the coordinator does anything. */
  lemma LeftOverPermitBreaksOrder(n: nat, followers: nat)
    requires n > 0 && followers > 0
    ensures !Ordered(Run(Start(n, followers), [FollowerStep(0), FollowerStep(0), FollowerStep(0)]))
  {
    var a := FollowerStep(0);
    var s1 := Step(Start(n, followers), a);
    var s2 := Step(s1, a);
    var s3 := Step(s2, a);
    assert Run(s2, [a]) == s3 by {
      assert [a][1..] == [];
    }
    assert Run(s1, [a, a]) == s3 by {
      assert [a, a][1..] == [a];
    }
    assert [a, a, a][1..] == [a, a];
    assert InTables(s3.followers[0]) && s3.coordinator.Starting?;
  }

  /** Startup order holds in every interleaving exactly when the semaphore starts at zero,
      although the coordinator posts before its transaction commits. */
  lemma StartupIsOrderedIff(n: nat, followers: nat)
    requires followers > 0
    ensures (forall actions :: Ordered(Run(Start(n, followers), actions))) <==> n == 0
  {
    if n == 0 {
      forall actions ensures Ordered(Run(Start(n, followers), actions)) {
        RunKeepsInvariant(n, Start(n, followers), actions);
      }
    } else {
      LeftOverPermitBreaksOrder(n, followers);
    }
  }

  lemma {:induction false} RunThen(s: State, actions: seq<Action>, a: Action)
    ensures Run(s, actions + [a]) == Step(Run(s, actions), a)
    decreases |actions|
  {
    if actions == [] {
      assert [] + [a] == [a] && [a][1..] == [];
    } else {
      assert (actions + [a])[1..] == actions[1..] + [a];
      RunThen(Step(s, actions[0]), actions[1..], a);
    }
  }

  /** The coordinator's statements up to the post. */
  lemma {:induction false} CoordinatorPosts(n: nat, followers: nat) returns (actions: seq<Action>)
    ensures Run(Start(n, followers), actions) ==
            Start(n, followers).(coordinator := SemaphorePosted, writer := Some(Coordinator), permits := n + 1)
  {
    var s, a := Start(n, followers), CoordinatorStep;
    RunThen(s, [], a);
    RunThen(s, [] + [a], a);
    RunThen(s, [] + [a] + [a], a);
    RunThen(s, [] + [a] + [a] + [a], a);
    RunThen(s, [] + [a] + [a] + [a] + [a], a);
    RunThen(s, [] + [a] + [a] + [a] + [a] + [a], a);
    actions := [] + [a] + [a] + [a] + [a] + [a] + [a];
  }

  /** A follower can pass while the coordinator still holds its transaction, and cannot be stopped from opening its
      tables once that is committed. */
  lemma {:induction false} FollowerPassesBeforeCommit(n: nat, followers: nat) returns (early: seq<Action>, late: seq<Action>)
    requires followers > 0
    ensures var s := Run(Start(n, followers), early);
            && |s.followers| == followers && s.coordinator.SemaphorePosted? && s.permits == n
            && s.writer == Some(Coordinator) && s.followers[0].Passed? && s.passed == 1
    ensures var t := Run(Start(n, followers), early + late);
            && |t.followers| == followers && t.coordinator.Committed? && t.writer == None
            && t.followers[0].FollowerReady? && t.permits == n
  {
    var post := CoordinatorPosts(n, followers);
    var s, f, c := Start(n, followers), FollowerStep(0), CoordinatorStep;
    early := post + [f];
    RunThen(s, post, f);
    late := [f] + [c] + [f] + [f] + [f];
    RunThen(s, early, f);
    RunThen(s, early + [f], c);
    RunThen(s, early + [f] + [c], f);
    RunThen(s, early + [f] + [c] + [f], f);
    RunThen(s, early + [f] + [c] + [f] + [f], f);
    assert early + late == early + [f] + [c] + [f] + [f] + [f];
  }
}
