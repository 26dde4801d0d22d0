/** With one reader, the items of each producer reach its output in the order they were pushed. */
module AtomicQueueFifo {
  import opened AtomicQueue
  import opened AtomicQueueItems

  /** The items of one producer. */
  function Only(x: seq<Entry>, p: Tid): seq<Entry> {
    if x == [] then [] else (if x[0].producer == p then [x[0]] else []) + Only(x[1..], p)
  }

  lemma {:induction false} OnlyOfConcat(x: seq<Entry>, y: seq<Entry>, p: Tid)
    ensures Only(x + y, p) == Only(x, p) + Only(y, p)
  {
    if x == [] {
      assert x + y == y;
    } else {
      var head := if x[0].producer == p then [x[0]] else [];
      assert (x + y)[1..] == x[1..] + y;
      OnlyOfConcat(x[1..], y, p);
      assert head + (Only(x[1..], p) + Only(y, p)) == (head + Only(x[1..], p)) + Only(y, p);
    }
  }

  lemma {:induction false} OnlyOwn(x: seq<Entry>, p: Tid, q: Tid)
    requires forall e :: e in x ==> e.producer == p
    ensures Only(x, q) == if p == q then x else []
  {
    if x != [] {
      assert x[0] in x;
      OnlyOwn(x[1..], p, q);
    }
  }

  /** The thread holds a queue to drain it. */
  predicate Reading(pc: Pc) {
    pc.DrainOwn? || pc.Scan? || pc.Swap? || pc.DrainStolen? || pc.PutDrained?
  }

  /** A thread between `getAll`'s start and end. */
  predicate Reads(pc: Pc) {
    Reading(pc) || pc.Subtract? || (pc.Alloc? && pc.op.GetAll?) || (pc.Store? && pc.op.GetAll?) || (pc.Take? && pc.op.GetAll?)
  }

  /** The queue that producer `p` pushes to: in its slot, or in its hand while it pushes. */
  function Local(s: State, p: Tid): seq<Entry>
    requires p < |s.threads|
  {
    var th := s.threads[p];
    if th.slot.Assigned? && th.slot.i < |s.slots| && s.slots[th.slot.i].Holds?
    then if s.slots[th.slot.i].q < |s.contents| then s.contents[s.slots[th.slot.i].q] else []
    else if HandOf(th, p).Queue? && !Reading(th.pc) && HandOf(th, p).q < |s.contents| then s.contents[HandOf(th, p).q]
    else []
  }

  /** The queue that the reader is draining. */
  function InTransit(s: State, r: Tid): seq<Entry>
    requires r < |s.threads|
  {
    var th := s.threads[r];
    if Reading(th.pc) && HandOf(th, r).Queue? && HandOf(th, r).q < |s.contents| then s.contents[HandOf(th, r).q] else []
  }

  /** Output, then what the reader holds, then what the producer's own queue holds: all that it pushed, in order. */
  ghost predicate InOrder(s: State, r: Tid, p: Tid)
    requires r < |s.threads| && p < |s.threads|
  {
    Only(s.threads[r].out, p) + Only(InTransit(s, r), p) + Local(s, p) == Batch(p, s.threads[p].sent)
  }

  ghost predicate Fifo(s: State, r: Tid) {
    && r < |s.threads| == |s.contents| == |s.place|
    && (forall t :: 0 <= t < |s.threads| && t != r ==> !Reads(s.threads[t].pc))
    && (s.threads[r].pc.Scan? || s.threads[r].pc.Swap? || s.threads[r].pc.PutDrained? ==> InTransit(s, r) == [])
    && (forall q :: 0 <= q < |s.place| && s.place[q] == Unborn ==> s.contents[q] == [])
    && (forall p :: 0 <= p < |s.threads| ==> InOrder(s, r, p))
  }

  /** A producer's queue holds nothing but its own items. */
  lemma {:induction false} LocalOwn(s: State, r: Tid, p: Tid, q: Tid)
    requires r < |s.threads| && p < |s.threads| && InOrder(s, r, p)
    ensures Only(Local(s, p), q) == if p == q then Local(s, p) else []
  {
    hide Local, InTransit, Only, Batch;
    var a, b, l := Only(s.threads[r].out, p), Only(InTransit(s, r), p), Local(s, p);
    forall e | e in l ensures e.producer == p {
      var k :| 0 <= k < |l| && l[k] == e;
      assert Batch(p, s.threads[p].sent)[|a| + |b| + k] == e;
    }
    OnlyOwn(l, p, q);
  }

  // ---- What a step does to the producers' queues

  /** What is known of the slots and queues of two threads. */
  ghost predicate Known(s: State, t: Tid) {
    && t < |s.threads| == |s.place| == |s.contents| && ThreadOk(s, t) && |s.owners| <= MAX_THREADS == |s.slots|
    && (s.threads[t].slot.Assigned? ==> s.threads[t].slot.i < |s.slots| && SlotOk(s, s.threads[t].slot.i))
    && (s.threads[t].pc.Store? ==> s.threads[t].pc.i < |s.slots| && SlotOk(s, s.threads[t].pc.i))
    && (s.threads[t].pc.Swap? ==> s.threads[t].pc.i < |s.slots| && SlotOk(s, s.threads[t].pc.i))
  }

  lemma {:induction false} Knows(s: State, t: Tid)
    requires Inv(s) && t < |s.threads|
    ensures Known(s, t)
  {
    assert ThreadOk(s, t);
  }

  /** Thread `t` is about to swap its queue for the one in the slot of `p`. */
  predicate Steals(s: State, t: Tid, p: Tid) {
    && t < |s.threads| && p < |s.threads| && s.threads[t].pc.Swap? && s.threads[t].pc.i < |s.slots|
    && s.slots[s.threads[t].pc.i] == Holds(s.threads[t].pc.seen) && s.threads[p].slot == Assigned(s.threads[t].pc.i)
  }

  lemma {:induction false} LocalOther(s: State, t: Tid, op: Op, p: Tid)
    requires Known(s, t) && Known(s, p) && Ready(s, t) && p != t && !Steals(s, t, p)
    ensures var s' := Step(s, t, op); |s'.threads| == |s.threads| && s'.threads[p] == s.threads[p] && Local(s', p) == Local(s, p)
  {
  }

  lemma {:induction false} LocalStolen(s: State, t: Tid, op: Op, p: Tid)
    requires Known(s, t) && Known(s, p) && Ready(s, t) && p != t && Steals(s, t, p)
    ensures var s' := Step(s, t, op);
            && |s'.threads| == |s.threads| && s'.threads[p] == s.threads[p]
            && Local(s', p) == InTransit(s, t) && InTransit(s', t) == Local(s, p) && s'.threads[t].out == s.threads[t].out
  {
  }

  lemma {:induction false} LocalSelf(s: State, t: Tid, op: Op)
    requires Known(s, t) && Ready(s, t) && (s.place[t] == Unborn ==> s.contents[t] == [])
    ensures var s', pc := Step(s, t, op), s.threads[t].pc;
            && |s'.threads| == |s.threads|
            && Local(s', t) == (if pc.Fill? then Local(s, t) + [Entry(t, s.threads[t].sent)]
                                else if pc.Take? && pc.op.GetAll? then []
                                else if pc.PutDrained? then InTransit(s, t)
                                else Local(s, t))
            && s'.threads[t].sent == s.threads[t].sent + (if pc.Fill? then 1 else 0)
  {
  }

  lemma {:induction false} TransitOther(s: State, t: Tid, op: Op, r: Tid)
    requires Known(s, t) && Known(s, r) && Ready(s, t) && r != t
    ensures var s' := Step(s, t, op); |s'.threads| == |s.threads| && s'.threads[r] == s.threads[r] && InTransit(s', r) == InTransit(s, r)
  {
  }

  lemma {:induction false} TransitSelf(s: State, t: Tid, op: Op)
    requires Known(s, t) && Ready(s, t)
    ensures var s', pc := Step(s, t, op), s.threads[t].pc;
            && |s'.threads| == |s.threads|
            && if Draining(s, t) then
                 InTransit(s, t) != [] && s'.threads[t].out == s.threads[t].out + [InTransit(s, t)[0]] && InTransit(s', t) == InTransit(s, t)[1..]
               else
                 && s'.threads[t].out == s.threads[t].out
                 && (if pc.Take? && pc.op.GetAll? then InTransit(s', t) == Local(s, t)
                     else if pc.PutDrained? then InTransit(s', t) == []
                     else (pc.Swap? && s.slots[pc.i] == Holds(pc.seen)) || InTransit(s', t) == InTransit(s, t))
  {
  }

  /** While it reads, the reader's slot is empty and it has no queue to push to. */
  lemma {:induction false} NoLocal(s: State, t: Tid)
    requires Known(s, t) && Reading(s.threads[t].pc)
    ensures Local(s, t) == []
  {
  }

  /** Only the owner of a slot can be robbed of the queue in it, and that is not the robber. */
  lemma {:induction false} Victim(s: State, t: Tid) returns (p: Tid)
    requires Inv(s) && t < |s.threads| && s.threads[t].pc.Swap? && s.threads[t].pc.i < |s.slots|
    requires s.slots[s.threads[t].pc.i] == Holds(s.threads[t].pc.seen)
    ensures p < |s.threads| && p != t && Steals(s, t, p) && forall u :: Steals(s, t, u) ==> u == p
  {
    var i := s.threads[t].pc.i;
    assert ThreadOk(s, t) && SlotOk(s, i);
    p := s.owners[i];
    assert SlotOk(s, s.threads[t].slot.i);
    forall u | Steals(s, t, u) ensures u == p {
      assert ThreadOk(s, u);
    }
  }

  // ---- Order is kept

  lemma {:induction false} MoveKeepsOrder(o: seq<Entry>, x: seq<Entry>, p: Tid)
    requires x != []
    ensures Only(o + [x[0]], p) + Only(x[1..], p) == Only(o, p) + Only(x, p)
  {
    OnlyOfConcat(o, [x[0]], p);
    assert x == [x[0]] + x[1..];
    OnlyOfConcat([x[0]], x[1..], p);
  }

  lemma {:induction false} BatchGrows(t: Tid, k: nat)
    ensures Batch(t, k + 1) == Batch(t, k) + [Entry(t, k)]
  {
  }

  /** A step of a thread that is not the reader. */
  lemma {:induction false} OrderByProducer(s: State, r: Tid, t: Tid, op: Op, p: Tid)
    requires Inv(s) && Fifo(s, r) && t < |s.threads| && t != r && p < |s.threads| && Ready(s, t)
    ensures |Step(s, t, op).threads| == |s.threads| && InOrder(Step(s, t, op), r, p)
  {
    hide Inv, Step, Ready, Known, Local, InTransit, Only, Batch;
    Knows(s, t);
    Knows(s, r);
    Knows(s, p);
    TransitOther(s, t, op, r);
    assert InOrder(s, r, p);
    if p == t {
      LocalSelf(s, t, op);
      BatchGrows(t, s.threads[t].sent);
    } else {
      LocalOther(s, t, op, p);
    }
  }

  /** A step of the reader, other than a swap, seen by a producer. */
  lemma {:induction false} OrderByReader(s: State, r: Tid, op: Op, p: Tid)
    requires Inv(s) && Fifo(s, r) && p < |s.threads| && p != r && Ready(s, r)
    requires !(s.threads[r].pc.Swap? && s.threads[r].pc.i < |s.slots| && s.slots[s.threads[r].pc.i] == Holds(s.threads[r].pc.seen))
    ensures |Step(s, r, op).threads| == |s.threads| && InOrder(Step(s, r, op), r, p)
  {
    hide Inv, Step, Known, Local, Only, Batch;
    Knows(s, r);
    Knows(s, p);
    LocalOther(s, r, op, p);
    TransitSelf(s, r, op);
    assert InOrder(s, r, p) && InOrder(s, r, r);
    LocalOwn(s, r, r, p);
    OnlyNone(p);
    if Draining(s, r) {
      MoveKeepsOrder(s.threads[r].out, InTransit(s, r), p);
    }
  }

  lemma {:induction false} OnlyNone(p: Tid)
    ensures Only([], p) == []
  {
  }

  /** The same step, seen by the reader as a producer. */
  lemma {:induction false} OrderBySelf(s: State, r: Tid, op: Op)
    requires Inv(s) && Fifo(s, r) && Ready(s, r)
    requires !(s.threads[r].pc.Swap? && s.threads[r].pc.i < |s.slots| && s.slots[s.threads[r].pc.i] == Holds(s.threads[r].pc.seen))
    ensures |Step(s, r, op).threads| == |s.threads| && InOrder(Step(s, r, op), r, r)
  {
    hide Inv, Step, Known, Local, Only, Batch;
    Knows(s, r);
    LocalSelf(s, r, op);
    TransitSelf(s, r, op);
    assert InOrder(s, r, r);
    LocalOwn(s, r, r, r);
    OnlyNone(r);
    BatchGrows(r, s.threads[r].sent);
    if Reading(s.threads[r].pc) {
      NoLocal(s, r);
    }
    if Draining(s, r) {
      MoveKeepsOrder(s.threads[r].out, InTransit(s, r), r);
    }
  }

  /** The reader, with nothing in hand, takes a producer's whole queue and leaves it an empty one. */
  lemma {:induction false} OrderBySwap(s: State, r: Tid, op: Op, p: Tid)
    requires Inv(s) && Fifo(s, r) && p < |s.threads| && Ready(s, r)
    requires s.threads[r].pc.Swap? && s.threads[r].pc.i < |s.slots| && s.slots[s.threads[r].pc.i] == Holds(s.threads[r].pc.seen)
    ensures |Step(s, r, op).threads| == |s.threads| && InOrder(Step(s, r, op), r, p)
  {
    hide Inv, Step, Known, Local, InTransit, Only, Batch, Ready;
    var v := Victim(s, r);
    Knows(s, r);
    Knows(s, v);
    Knows(s, p);
    LocalStolen(s, r, op, v);
    assert InOrder(s, r, p) && InOrder(s, r, v);
    LocalOwn(s, r, v, p);
    OnlyNone(p);
    if p == r {
      LocalSelf(s, r, op);
    } else if p != v {
      LocalOther(s, r, op, p);
    }
  }

  /** The rest of the invariant. */
  lemma {:induction false} FifoRest(s: State, r: Tid, t: Tid, op: Op)
    requires Inv(s) && Fifo(s, r) && t < |s.threads| && Ready(s, t) && (op.GetAll? ==> t == r)
    ensures var s' := Step(s, t, op);
            && |s'.threads| == |s'.contents| == |s'.place| == |s.threads|
            && (forall u :: 0 <= u < |s.threads| && u != r ==> !Reads(s'.threads[u].pc))
            && (forall q :: 0 <= q < |s.place| && s'.place[q] == Unborn ==> s'.contents[q] == [])
  {
    hide InOrder, InTransit;
    assert ThreadOk(s, t);
  }

  lemma {:induction false} NothingInHand(s: State, r: Tid, t: Tid, op: Op)
    requires Inv(s) && Fifo(s, r) && t < |s.threads| && Ready(s, t)
    ensures var s' := Step(s, t, op);
            && |s'.threads| == |s.threads|
            && (s'.threads[r].pc.Scan? || s'.threads[r].pc.Swap? || s'.threads[r].pc.PutDrained? ==> InTransit(s', r) == [])
  {
    hide InOrder, Inv, Known;
    Knows(s, t);
    Knows(s, r);
    if t != r {
      TransitOther(s, t, op, r);
    }
  }

  lemma {:induction false} StepFifo(s: State, r: Tid, t: Tid, op: Op)
    requires Inv(s) && Fifo(s, r) && t < |s.threads| && Ready(s, t) && (op.GetAll? ==> t == r)
    ensures Fifo(Step(s, t, op), r)
  {
    hide Inv, Step, Ready, InOrder, InTransit, Reads;
    FifoRest(s, r, t, op);
    NothingInHand(s, r, t, op);
    forall p | 0 <= p < |s.threads| ensures InOrder(Step(s, t, op), r, p) {
      if t != r {
        OrderByProducer(s, r, t, op, p);
      } else if s.threads[r].pc.Swap? && s.threads[r].pc.i < |s.slots| && s.slots[s.threads[r].pc.i] == Holds(s.threads[r].pc.seen) {
        OrderBySwap(s, r, op, p);
      } else if p == r {
        OrderBySelf(s, r, op);
      } else {
        OrderByReader(s, r, op, p);
      }
    }
  }

  // ---- Runs

  /** Only `r` begins to read. */
  ghost predicate OneReader(es: seq<Event>, r: Tid) {
    forall k :: 0 <= k < |es| && es[k].op.GetAll? ==> es[k].t == r
  }

  lemma {:induction false} InitialFifo(s: State, r: Tid)
    requires Initial(s) && r < |s.threads|
    ensures Fifo(s, r)
  {
  }

  lemma {:induction false} RunFifo(ss: seq<State>, es: seq<Event>, r: Tid)
    requires IsRun(ss, es) && OneReader(es, r) && r < |ss[0].threads|
    ensures Fifo(ss[|es|], r)
  {
    hide Inv, Initial, Ready, Step, Fifo;
    if es == [] {
      InitialFifo(ss[0], r);
    } else {
      var k := |es| - 1;
      assert IsRun(ss[..k + 1], es[..k]);
      RunFifo(ss[..k + 1], es[..k], r);
      RunInv(ss[..k + 1], es[..k]);
      StepFifo(ss[k], r, es[k].t, es[k].op);
    }
  }

  /** After any run with one reader, its output has the first so many items of each producer, in push order. */
  lemma {:induction false} OutputInPushOrder(ss: seq<State>, es: seq<Event>, r: Tid, p: Tid)
    requires IsRun(ss, es) && OneReader(es, r) && r < |ss[0].threads|
    ensures var s := ss[|es|];
            r < |s.threads| && (p < |s.threads| ==>
              && |Only(s.threads[r].out, p)| <= s.threads[p].sent
              && Only(s.threads[r].out, p) == Batch(p, |Only(s.threads[r].out, p)|))
  {
    hide Initial, Ready, Step, Only, InTransit, Local;
    RunFifo(ss, es, r);
    var s := ss[|es|];
    if p < |s.threads| {
      assert InOrder(s, r, p);
      var o := Only(s.threads[r].out, p);
      assert forall j :: 0 <= j < |o| ==> o[j] == Batch(p, s.threads[p].sent)[j];
    }
  }
}
