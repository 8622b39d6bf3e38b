/** The queue of accepted payments shared by HTTP threads and workers. */
module Queue {
  import opened Records

  /** What other threads do to the queue while a consumer has released the lock. */
  datatype QueueOp = Push(payment: Payment) | Pop | Clear

  function ApplyOp(q: seq<Payment>, op: QueueOp): seq<Payment> {
    match op
    case Push(p) => q + [p]
    case Pop => if q == [] then [] else q[1..]
    case Clear => []
  }

  function ApplyOps(q: seq<Payment>, ops: seq<QueueOp>): seq<Payment> {
    if ops == [] then q else ApplyOp(ApplyOps(q, ops[..|ops| - 1]), ops[|ops| - 1])
  }

  /** What a sequence of operations pushes, in order. */
  function Pushed(ops: seq<QueueOp>): seq<Payment> {
    if ops == [] then []
    else
      var before, op := Pushed(ops[..|ops| - 1]), ops[|ops| - 1];
      if op.Push? then before + [op.payment] else before
  }

  /** Whatever is done to a queue takes from its front and adds at its back: what is left is an end of the old
      contents followed by what was pushed, and all of it if nothing was popped or cleared. */
  lemma {:induction false} OpsKeepOrder(q: seq<Payment>, ops: seq<QueueOp>) returns (gone: nat)
    ensures gone <= |q + Pushed(ops)| && ApplyOps(q, ops) == (q + Pushed(ops))[gone..]
    ensures (forall op :: op in ops ==> op.Push?) ==> gone == 0
  {
    if ops == [] {
      gone := 0;
      assert q + [] == q;
    } else {
      var n := |ops| - 1;
      gone := OpsKeepOrder(q, ops[..n]);
      match ops[n]
      case Push(p) =>
        assert q + Pushed(ops) == q + Pushed(ops[..n]) + [p];
      case Pop =>
        gone := if gone < |q + Pushed(ops[..n])| then gone + 1 else gone;
        assert ops[n] in ops;
      case Clear =>
        gone := |q + Pushed(ops[..n])|;
        assert ops[n] in ops;
    }
  }

  /** One return from the timed wait: what happened meanwhile, and whether the process is asked to finish. */
  datatype Wake = Wake(others: seq<QueueOp>, finish: bool)

  /** How a call of dequeue ends; Blocked is a call still waiting when the observation ends. */
  datatype Dequeued = Got(payment: Payment) | Finished | Blocked

  /** The queue a consumer sees at its k-th wake-up, all earlier ones having left it alone. */
  function SeenAt(q: seq<Payment>, wakes: seq<Wake>, k: nat): seq<Payment>
    requires k < |wakes|
  {
    ApplyOps(if k == 0 then q else SeenAt(q, wakes, k - 1), wakes[k].others)
  }

  /** A wake-up with nothing to take and no reason to leave. */
  predicate Idles(q: seq<Payment>, wakes: seq<Wake>, k: nat)
    requires k < |wakes|
  {
    SeenAt(q, wakes, k) == [] && !wakes[k].finish
  }

  class PendingPaymentsQueue {
    var queue: seq<Payment>

    constructor ()
      ensures queue == []
    {
      queue := [];
    }

    method Enqueue(payment: Payment)
      modifies this
      ensures queue == old(queue) + [payment] == ApplyOp(old(queue), Push(payment))
    {
      queue := queue + [payment];
    }

    /** Waits until there is a payment to take or the process finishes with none left;
        `waits` counts the wake-ups that came to nothing. */
    method Dequeue(wakes: seq<Wake>) returns (result: Dequeued, waits: nat)
      modifies this
      ensures waits <= |wakes| && (result == Blocked <==> waits == |wakes|)
      ensures forall k :: 0 <= k < waits ==> Idles(old(queue), wakes, k)
      ensures forall k :: 0 <= k < waits ==> !wakes[k].finish
      ensures waits < |wakes| ==>
                var seen := SeenAt(old(queue), wakes, waits);
                if seen == [] then wakes[waits].finish && result == Finished && queue == []
                else result == Got(seen[0]) && queue == seen[1..] == ApplyOp(seen, Pop)
      // With nobody else about, the first call takes the front.
      ensures wakes != [] && wakes[0].others == [] && old(queue) != [] ==>
                result == Got(old(queue)[0]) && queue == old(queue)[1..] && waits == 0
      ensures result == Blocked && wakes != [] ==> queue == []
      ensures wakes == [] ==> queue == old(queue)
    {
      waits := 0;
      ghost var alone := wakes != [] && wakes[0].others == [] && queue != [];
      if alone {
        assert SeenAt(queue, wakes, 0) == queue;
      }
      while waits < |wakes|
        invariant waits <= |wakes|
        invariant queue == if waits == 0 then old(queue) else SeenAt(old(queue), wakes, waits - 1)
        invariant forall k :: 0 <= k < waits ==> Idles(old(queue), wakes, k)
        invariant forall k :: 0 <= k < waits ==> !wakes[k].finish
        invariant alone ==> waits == 0
      {
        queue := ApplyOps(queue, wakes[waits].others);
        if queue == [] {
          if wakes[waits].finish {
            return Finished, waits;
          }
          waits := waits + 1;
          continue;
        }
        var payment := queue[0];
        queue := queue[1..];
        return Got(payment), waits;
      }
      assert waits > 0 ==> Idles(old(queue), wakes, waits - 1);
      result := Blocked;
    }

    method Purge()
      modifies this
      ensures queue == [] == ApplyOp(old(queue), Clear)
    {
      queue := [];
    }
  }
}
