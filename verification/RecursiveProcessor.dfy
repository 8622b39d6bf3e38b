/** The coroutine variant of the worker: one attempt per call, a flip and a recursive call on rejection,
    and no further attempt after a transport exception. */
module RecursiveProcessor {
  import opened Types
  import opened Records
  import opened Ledger
  import opened Repository
  import opened Processor

  /** How an attempt ends: an exception while connecting, writing or reading, or a status. */
  datatype Reply = TransportError | Status(code: int)

  /** What one call meets: stores to the register by other threads, the clock, and the reply. */
  datatype Call = Call(others: seq<Gateway>, requestedAt: Millis, reply: Reply)

  /** Any status but 200; a transport error is none. */
  predicate Refuses(c: Call) {
    c.reply.Status? && c.reply.code != STATUS_OK
  }

  predicate Accepts(c: Call) {
    c.reply == Status(STATUS_OK)
  }

  /** The gateway of the k-th attempt, every earlier one having been refused and followed by a flip. */
  function Target(start: Gateway, calls: seq<Call>, k: nat): Gateway
    requires k < |calls|
  {
    Latest(if k == 0 then start else Other(Target(start, calls, k - 1)), calls[k].others)
  }

  /** The index of the first call that is not refused, or the number of calls. */
  function Refusals(calls: seq<Call>): (n: nat)
    ensures n <= |calls|
    ensures forall k :: 0 <= k < n ==> Refuses(calls[k])
    ensures n < |calls| ==> !Refuses(calls[n])
  {
    if calls == [] || !Refuses(calls[0]) then 0 else 1 + Refusals(calls[1..])
  }

  lemma {:induction false} TargetShifts(start: Gateway, calls: seq<Call>, k: nat)
    requires k + 1 < |calls|
    ensures Target(Other(Target(start, calls, 0)), calls[1..], k) == Target(start, calls, k + 1)
  {
    if k > 0 {
      TargetShifts(start, calls, k - 1);
    }
  }

  /** Attempts 0 to n go to the gateways that flips and other stores give, n being the first call that is
      not refused; that call alone decides the outcome, and the register ends at the last gateway asked
      or, while refusals go on, at the other one. */
  ghost predicate Attempted(start: Gateway, calls: seq<Call>, outcome: Outcome, targets: seq<Gateway>, current: Gateway) {
    var n := Refusals(calls);
    && |targets| == (if n < |calls| then n + 1 else n)
    && (forall k :: 0 <= k < |targets| ==> targets[k] == Target(start, calls, k))
    && outcome == (if n == |calls| then Pending else if Accepts(calls[n]) then Recorded else Dropped)
    && current == (if n < |calls| then targets[n] else if n == 0 then start else Other(targets[n - 1]))
  }

  /** A refused call in front of what the recursive call has come to. */
  lemma OneMoreRefusal(start: Gateway, calls: seq<Call>, outcome: Outcome, rest: seq<Gateway>, current: Gateway)
    requires calls != [] && Refuses(calls[0])
    requires Attempted(Other(Target(start, calls, 0)), calls[1..], outcome, rest, current)
    ensures Attempted(start, calls, outcome, [Target(start, calls, 0)] + rest, current)
  {
    assert Refusals(calls) == 1 + Refusals(calls[1..]);
    TargetsShift(start, calls, rest);
  }

  lemma TargetsShift(start: Gateway, calls: seq<Call>, rest: seq<Gateway>)
    requires calls != [] && |rest| < |calls|
    requires forall k :: 0 <= k < |rest| ==> rest[k] == Target(Other(Target(start, calls, 0)), calls[1..], k)
    ensures var all := [Target(start, calls, 0)] + rest; forall k :: 0 <= k < |all| ==> all[k] == Target(start, calls, k)
  {
    forall k | 0 <= k < |rest| ensures rest[k] == Target(start, calls, k + 1) {
      TargetShifts(start, calls, k);
    }
  }

  /** The recursion. */
  method ProcessPayment(payment: Payment, register: GatewayRegister, service: PaymentService, env: Environment,
                        calls: seq<Call>)
    returns (outcome: Outcome, targets: seq<Gateway>)
    requires service.Valid() && !env.writing && env.tables.Valid(env.endian)
    modifies register, env
    ensures !env.writing && env.tables.Valid(env.endian)
    ensures Attempted(old(register.current), calls, outcome, targets, register.current)
    // Every call before the last attempt met a status other than 200.
    ensures |targets| <= |calls|
    ensures forall k :: 0 <= k < |targets| - 1 ==> calls[k].reply.Status? && calls[k].reply.code != 200
    // The last one decides, whatever other status it is: a record, a drop without one, or no end in sight.
    ensures outcome == Recorded <==> targets != [] && calls[|targets| - 1].reply == Status(200)
    ensures outcome == Dropped <==> targets != [] && calls[|targets| - 1].reply == TransportError
    ensures outcome == Pending <==>
              |targets| == |calls| && forall k :: 0 <= k < |calls| ==> calls[k].reply.Status? && calls[k].reply.code != 200
    ensures outcome == Recorded ==>
              var n := |targets| - 1;
              AddedTo(env.endian, old(env.tables), env.tables, targets[n], Record(calls[n].requestedAt, payment.amount, payment.id))
    ensures outcome != Recorded ==> env.tables == old(env.tables)
    decreases |calls|
  {
    if calls == [] {
      return Pending, [];
    }
    register.Disturb(calls[0].others);
    var gateway := register.current;
    targets := [gateway];
    match calls[0].reply
    case TransportError =>
      outcome := Dropped;
    case Status(code) =>
      if code == STATUS_OK {
        service.PostPayment(env, gateway, payment.amount, payment.id, calls[0].requestedAt);
        outcome := Recorded;
      } else {
        register.current := if gateway == Default then Fallback else Default;
        var rest;
        outcome, rest := ProcessPayment(payment, register, service, env, calls[1..]);
        OneMoreRefusal(old(register.current), calls, outcome, rest, register.current);
        targets := targets + rest;
      }
  }

  /** Where the attempts went: each to the last store by others before it, and without one, the first to the gateway
      the register held and any other away from the gateway that has just refused. */
  lemma AttemptsFollowFlips(start: Gateway, calls: seq<Call>, outcome: Outcome, targets: seq<Gateway>, current: Gateway, k: nat)
    requires Attempted(start, calls, outcome, targets, current) && k < |targets|
    ensures targets[k] ==
            if calls[k].others != [] then calls[k].others[|calls[k].others| - 1]
            else if k == 0 then start
            else if targets[k - 1] == Default then Fallback else Default
  {
  }

  /** Nobody else writes the register. */
  predicate Undisturbed(calls: seq<Call>) {
    forall k :: 0 <= k < |calls| ==> calls[k].others == []
  }

  function Parity(start: Gateway, k: nat): Gateway {
    if k % 2 == 0 then start else Other(start)
  }

  lemma ParityFlips(start: Gateway, k: nat)
    ensures Parity(start, k + 1) == Other(Parity(start, k))
  {
    assert (k + 1) % 2 == 1 - k % 2;
  }

  /** With no other writer attempt k goes to the starting gateway exactly when k is even. */
  lemma {:induction false} TargetsAlternate(start: Gateway, calls: seq<Call>, k: nat)
    requires Undisturbed(calls) && k < |calls|
    ensures Target(start, calls, k) == Parity(start, k)
  {
    if k > 0 {
      TargetsAlternate(start, calls, k - 1);
      ParityFlips(start, k - 1);
    }
  }

  /** Then, after n refusals, the register ends at the gateway of parity n, and the next reply decides: 200 means a
      record there, a transport error the end without one, and any other status would be one more refusal. */
  lemma {:induction false} UndisturbedOutcome(start: Gateway, calls: seq<Call>, outcome: Outcome, targets: seq<Gateway>, current: Gateway)
    requires Attempted(start, calls, outcome, targets, current) && Undisturbed(calls)
    ensures var n := if outcome == Pending then |targets| else |targets| - 1;
            && 0 <= n <= |calls|
            && (forall k :: 0 <= k < n ==> calls[k].reply.Status? && calls[k].reply.code != 200)
            && current == (if n % 2 == 0 then start else Other(start))
            && (outcome == Recorded <==> n < |calls| && calls[n].reply == Status(200))
            && (outcome == Recorded ==> targets[n] == current)
            && (outcome == Dropped <==> n < |calls| && calls[n].reply == TransportError)
  {
    var n := Refusals(calls);
    if n < |calls| {
      TargetsAlternate(start, calls, n);
    } else if n > 0 {
      TargetsAlternate(start, calls, n - 1);
      ParityFlips(start, n - 1);
    }
  }
}
