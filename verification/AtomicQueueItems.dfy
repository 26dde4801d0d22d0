/** Items are conserved, and the item counter tells the truth up to the updates still to come. */
module AtomicQueueItems {
  import opened AtomicQueue

  // ---- Conservation

  function Bag(ss: seq<seq<Entry>>): multiset<Entry> {
    if ss == [] then multiset{} else multiset(ss[0]) + Bag(ss[1..])
  }

  lemma {:induction false} BagUpdate(ss: seq<seq<Entry>>, i: nat, x: seq<Entry>, e: Entry)
    requires i < |ss|
    ensures Bag(ss[i := x])[e] + multiset(ss[i])[e] == Bag(ss)[e] + multiset(x)[e]
  {
    if i == 0 {
      assert ss[0 := x][1..] == ss[1..];
    } else {
      assert ss[i := x][1..] == ss[1..][i - 1 := x];
      BagUpdate(ss[1..], i - 1, x, e);
    }
  }

  lemma {:induction false} BagGrow(ss: seq<seq<Entry>>, i: nat, x: Entry)
    requires i < |ss|
    ensures Bag(ss[i := ss[i] + [x]]) == Bag(ss) + multiset{x}
  {
    forall e ensures Bag(ss[i := ss[i] + [x]])[e] == (Bag(ss) + multiset{x})[e] {
      BagUpdate(ss, i, ss[i] + [x], e);
      assert multiset(ss[i] + [x])[e] == multiset(ss[i])[e] + multiset{x}[e];
    }
  }

  lemma {:induction false} BagShrink(ss: seq<seq<Entry>>, i: nat)
    requires i < |ss| && ss[i] != []
    ensures Bag(ss[i := ss[i][1..]]) + multiset{ss[i][0]} == Bag(ss)
  {
    var t := ss[i := ss[i][1..]];
    BagGrow(t, i, ss[i][0]);
    forall e ensures (Bag(t) + multiset{ss[i][0]})[e] == Bag(ss)[e] {
      BagUpdate(ss, i, ss[i][1..], e);
      assert ss[i] == [ss[i][0]] + ss[i][1..];
      assert multiset(ss[i])[e] == multiset{ss[i][0]}[e] + multiset(ss[i][1..])[e];
    }
  }

  /** The first `k` items of a producer. */
  function Batch(t: Tid, k: nat): (b: seq<Entry>)
    ensures |b| == k && forall j :: 0 <= j < k ==> b[j] == Entry(t, j)
  {
    if k == 0 then [] else Batch(t, k - 1) + [Entry(t, k - 1)]
  }

  function Outs(s: State): seq<seq<Entry>> { seq(|s.threads|, t requires 0 <= t < |s.threads| => s.threads[t].out) }

  function Batches(s: State): seq<seq<Entry>> { seq(|s.threads|, t requires 0 <= t < |s.threads| => Batch(t, s.threads[t].sent)) }

  /** What was pushed is in the queues and the outputs, no more and no less. */
  ghost predicate Conserved(s: State) {
    Bag(s.contents) + Bag(Outs(s)) == Bag(Batches(s))
  }

  ghost predicate PushedOne(s: State, t: Tid, q: nat, s': State) {
    && t < |s.threads| && q < |s.contents|
    && s'.contents == s.contents[q := s.contents[q] + [Entry(t, s.threads[t].sent)]] && Outs(s') == Outs(s)
    && Batches(s') == Batches(s)[t := Batches(s)[t] + [Entry(t, s.threads[t].sent)]]
  }

  ghost predicate MovedOne(s: State, t: Tid, q: nat, s': State) {
    && t < |s.threads| && q < |s.contents| && s.contents[q] != []
    && s'.contents == s.contents[q := s.contents[q][1..]] && Outs(s') == Outs(s)[t := Outs(s)[t] + [s.contents[q][0]]]
    && Batches(s') == Batches(s)
  }

  ghost predicate LeftItems(s: State, s': State) {
    s'.contents == s.contents && Outs(s') == Outs(s) && Batches(s') == Batches(s)
  }

  /** A step pushes one item, moves one, or leaves them all. */
  lemma {:induction false} StepItems(s: State, t: Tid, op: Op)
    requires Ready(s, t)
    ensures var pc, s' := s.threads[t].pc, Step(s, t, op);
            if pc.Fill? then PushedOne(s, t, pc.q, s')
            else if (pc.DrainOwn? || pc.DrainStolen?) && s.contents[pc.q] != [] then MovedOne(s, t, pc.q, s')
            else LeftItems(s, s')
  {
  }

  lemma {:induction false} StepConserves(s: State, t: Tid, op: Op)
    requires Ready(s, t) && Conserved(s)
    ensures Conserved(Step(s, t, op))
  {
    hide Step, Bag, Outs, Batches;
    StepItems(s, t, op);
    var pc, x := s.threads[t].pc, Entry(t, s.threads[t].sent);
    SameCount(s);
    if pc.Fill? {
      BagGrow(s.contents, pc.q, x);
      BagGrow(Batches(s), t, x);
    } else if (pc.DrainOwn? || pc.DrainStolen?) && s.contents[pc.q] != [] {
      BagShrink(s.contents, pc.q);
      BagGrow(Outs(s), t, s.contents[pc.q][0]);
    }
  }

  lemma {:induction false} SameCount(s: State)
    ensures |Outs(s)| == |Batches(s)| == |s.threads|
  {
  }

  lemma {:induction false} EmptyBag(ss: seq<seq<Entry>>)
    requires forall i :: 0 <= i < |ss| ==> ss[i] == []
    ensures Bag(ss) == multiset{}
  {
    if ss != [] {
      EmptyBag(ss[1..]);
    }
  }

  lemma {:induction false} InitialConserved(s: State)
    requires Initial(s)
    ensures Conserved(s)
  {
    hide Bag;
    EmptyBag(s.contents);
    EmptyBag(Outs(s));
    EmptyBag(Batches(s));
  }

  // ---- The counter

  function Sum(a: seq<nat>): nat {
    if a == [] then 0 else a[0] + Sum(a[1..])
  }

  lemma {:induction false} SumUpdate(a: seq<nat>, i: nat, x: nat)
    requires i < |a|
    ensures Sum(a[i := x]) + a[i] == Sum(a) + x && Sum(a) >= a[i]
  {
    if i == 0 {
      assert a[0 := x][1..] == a[1..];
    } else {
      assert a[i := x][1..] == a[1..][i - 1 := x];
      SumUpdate(a[1..], i - 1, x);
    }
  }

  /** Thread `t` has pushed into `q` and not counted it yet. */
  predicate Uncounted(s: State, q: nat)
    requires q < |s.place|
  {
    s.place[q].InHand? && s.place[q].t < |s.threads| && s.threads[s.place[q].t].pc == Count(q)
  }

  /** The items of `q` that are counted. */
  function Counted(s: State, q: nat): nat
    requires q < |s.place| == |s.contents|
  {
    if Uncounted(s, q) && s.contents[q] != [] then |s.contents[q]| - 1 else |s.contents[q]|
  }

  function CountedAll(s: State): seq<nat>
    requires |s.place| == |s.contents|
  {
    seq(|s.place|, q requires 0 <= q < |s.place| => Counted(s, q))
  }

  /** What a thread drained and has not subtracted yet. */
  function Drained(th: Thread): nat {
    match th.pc
    case DrainOwn(_, n) => n
    case Scan(_, _, _, n) => n
    case Swap(_, _, _, n, _) => n
    case DrainStolen(_, _, _, n) => n
    case PutDrained(_, n) => n
    case Subtract(n) => n
    case _ => 0
  }

  function DrainedAll(s: State): seq<nat> { seq(|s.threads|, t requires 0 <= t < |s.threads| => Drained(s.threads[t])) }

  /** `numItems` is what is counted in the queues and what is drained but not subtracted: both nonnegative. */
  ghost predicate Tallied(s: State) {
    && |s.place| == |s.contents| && s.numItems == Sum(CountedAll(s)) + Sum(DrainedAll(s))
    && forall t :: 0 <= t < |s.threads| && s.threads[t].pc.Count? ==> s.threads[t].pc.q < |s.contents| && s.contents[s.threads[t].pc.q] != []
  }

  predicate Draining(s: State, t: Tid)
    requires t < |s.threads|
  {
    var pc := s.threads[t].pc;
    (pc.DrainOwn? || pc.DrainStolen?) && pc.q < |s.contents| && s.contents[pc.q] != []
  }

  /** What a step adds to the counted items of queue `q`. */
  function Gain(s: State, t: Tid, q: nat): int
    requires t < |s.threads|
  {
    var pc := s.threads[t].pc;
    if pc == Count(q) then 1 else if Draining(s, t) && pc.q == q then -1 else 0
  }

  lemma {:induction false} StepCountedAt(s: State, t: Tid, op: Op, q: nat)
    requires t < |s.threads| == |s.place| == |s.contents| && Ready(s, t) && q < |s.place|
    requires ThreadOk(s, t) && QueueOk(s, q) && (s.threads[t].slot.Assigned? ==> s.threads[t].slot.i < |s.slots| && SlotOk(s, s.threads[t].slot.i))
    requires s.threads[t].pc.Swap? ==> s.threads[t].pc.i < |s.slots| && SlotOk(s, s.threads[t].pc.i)
    requires s.threads[t].pc == Count(q) ==> s.contents[q] != []
    ensures var s' := Step(s, t, op); |s'.place| == |s'.contents| == |s.place| && Counted(s', q) == Counted(s, q) + Gain(s, t, q)
  {
  }

  lemma {:induction false} StepDrained(s: State, t: Tid, op: Op)
    requires Ready(s, t)
    ensures var s' := Step(s, t, op);
            && DrainedAll(s') == DrainedAll(s)[t := Drained(s'.threads[t])]
            && (if s.threads[t].pc.Subtract? then Drained(s'.threads[t]) == 0 && s'.numItems == s.numItems - Drained(s.threads[t])
                else && Drained(s'.threads[t]) == Drained(s.threads[t]) + (if Draining(s, t) then 1 else 0)
                     && s'.numItems == s.numItems + if s.threads[t].pc.Count? then 1 else 0)
  {
  }

  lemma {:induction false} StepCounted(s: State, t: Tid, op: Op)
    requires Inv(s) && Tallied(s) && t < |s.threads| && Ready(s, t)
    ensures var s' := Step(s, t, op);
            && |s'.place| == |s'.contents| == |s.place|
            && forall q :: 0 <= q < |s.place| ==> Counted(s', q) == Counted(s, q) + Gain(s, t, q)
  {
    hide Step, Ready, Sum, Counted, Gain;
    StepSizes(s, t, op);
    assert ThreadOk(s, t);
    forall q | 0 <= q < |s.place| ensures Counted(Step(s, t, op), q) == Counted(s, q) + Gain(s, t, q) {
      assert QueueOk(s, q);
      StepCountedAt(s, t, op, q);
    }
  }

  lemma {:induction false} StepSizes(s: State, t: Tid, op: Op)
    requires Inv(s) && t < |s.threads| && Ready(s, t)
    ensures var s' := Step(s, t, op); |s'.place| == |s'.contents| == |s.place| && |s'.threads| == |s.threads|
  {
    hide Inv;
  }

  /** Only the thread that has a queue in its hand changes what is in it. */
  lemma {:induction false} ContentsStay(s: State, x: Tid, op: Op, q: nat)
    requires Inv(s) && x < |s.threads| && Ready(s, x) && q < |s.contents| && s.place[q] != InHand(x)
    ensures |Step(s, x, op).contents| == |s.contents| && Step(s, x, op).contents[q] == s.contents[q]
  {
    assert ThreadOk(s, x);
    hide Inv;
  }

  lemma {:induction false} OthersStay(s: State, x: Tid, op: Op, u: Tid)
    requires x < |s.threads| && Ready(s, x) && u < |s.threads| && u != x
    ensures |Step(s, x, op).threads| == |s.threads| && Step(s, x, op).threads[u] == s.threads[u]
  {
  }

  lemma {:induction false} CountsOwn(s: State, t: Tid, op: Op)
    requires t < |s.threads| && Ready(s, t)
    ensures var s' := Step(s, t, op);
            t < |s'.threads| && (s'.threads[t].pc.Count? ==> s'.threads[t].pc.q < |s'.contents| && s'.contents[s'.threads[t].pc.q] != [])
  {
  }

  /** A queue that a thread counts in is not empty: nobody else touches it. */
  lemma {:induction false} StepNonEmpty(s: State, t: Tid, op: Op, u: Tid)
    requires Inv(s) && Tallied(s) && t < |s.threads| && Ready(s, t) && u < |s.threads|
    ensures var s' := Step(s, t, op);
            |s'.threads| == |s.threads| && (s'.threads[u].pc.Count? ==> s'.threads[u].pc.q < |s'.contents| && s'.contents[s'.threads[u].pc.q] != [])
  {
    hide Sum, CountedAll, DrainedAll, Step, Ready, SlotOk, QueueOk;
    StepSizes(s, t, op);
    assert ThreadOk(s, u);
    if u == t {
      CountsOwn(s, t, op);
    } else {
      OthersStay(s, t, op, u);
      if s.threads[u].pc.Count? {
        ContentsStay(s, t, op, s.threads[u].pc.q);
      }
    }
  }

  lemma {:induction false} StepTallies(s: State, t: Tid, op: Op)
    requires Inv(s) && Tallied(s) && t < |s.threads| && Ready(s, t)
    ensures Tallied(Step(s, t, op))
  {
    hide Inv, Step, Ready, Sum, Counted, Drained;
    var s', pc := Step(s, t, op), s.threads[t].pc;
    StepSizes(s, t, op);
    StepCounted(s, t, op);
    StepDrained(s, t, op);
    Drains(s, t);
    SumUpdate(DrainedAll(s), t, Drained(s'.threads[t]));
    forall u | 0 <= u < |s'.threads| && s'.threads[u].pc.Count? ensures s'.threads[u].pc.q < |s'.contents| && s'.contents[s'.threads[u].pc.q] != [] {
      StepNonEmpty(s, t, op, u);
    }
    if pc.Count? || Draining(s, t) {
      var q := pc.q;
      assert CountedAll(s') == CountedAll(s)[q := Counted(s', q)];
      SumUpdate(CountedAll(s), q, Counted(s', q));
    } else {
      assert CountedAll(s') == CountedAll(s);
    }
  }

  lemma {:induction false} Drains(s: State, t: Tid)
    requires Inv(s) && t < |s.threads|
    ensures |s.place| == |s.contents| == |s.threads|
    ensures s.threads[t].pc.Count? ==> s.threads[t].pc.q < |s.place| && Drained(s.threads[t]) == 0
    ensures Draining(s, t) ==> s.threads[t].pc.q < |s.place|
  {
    assert ThreadOk(s, t);
  }

  lemma {:induction false} ZeroSum(a: seq<nat>)
    requires forall i :: 0 <= i < |a| ==> a[i] == 0
    ensures Sum(a) == 0
  {
    if a != [] {
      ZeroSum(a[1..]);
    }
  }

  lemma {:induction false} InitialTallied(s: State)
    requires Initial(s)
    ensures Tallied(s)
  {
    hide Sum;
    ZeroSum(CountedAll(s));
    ZeroSum(DrainedAll(s));
  }

  // ---- Runs

  lemma {:induction false} RunItems(ss: seq<State>, es: seq<Event>)
    requires IsRun(ss, es)
    ensures Inv(ss[|es|]) && Conserved(ss[|es|]) && Tallied(ss[|es|])
  {
    hide Inv, Initial, Ready, Step, Conserved, Tallied;
    RunInv(ss, es);
    if es == [] {
      InitialConserved(ss[0]);
      InitialTallied(ss[0]);
    } else {
      var k := |es| - 1;
      assert IsRun(ss[..k + 1], es[..k]);
      RunItems(ss[..k + 1], es[..k]);
      StepConserves(ss[k], es[k].t, es[k].op);
      StepTallies(ss[k], es[k].t, es[k].op);
    }
  }

  /** How often an item was pushed: once if its producer got that far, and otherwise never. */
  lemma {:induction false} BatchesCount(bs: seq<seq<Entry>>, first: nat, x: Entry)
    requires forall t :: 0 <= t < |bs| ==> forall j :: 0 <= j < |bs[t]| ==> bs[t][j] == Entry(first + t, j)
    ensures Bag(bs)[x] == if first <= x.producer < first + |bs| && x.index < |bs[x.producer - first]| then 1 else 0
  {
    if bs != [] {
      BatchesCount(bs[1..], first + 1, x);
      BatchCount(bs[0], first, x);
    }
  }

  lemma {:induction false} BatchCount(b: seq<Entry>, t: nat, x: Entry)
    requires forall j :: 0 <= j < |b| ==> b[j] == Entry(t, j)
    ensures multiset(b)[x] == if x.producer == t && x.index < |b| then 1 else 0
  {
    if b != [] {
      var k := |b| - 1;
      BatchCount(b[..k], t, x);
      assert b == b[..k] + [b[k]];
      assert multiset(b)[x] == multiset(b[..k])[x] + multiset{b[k]}[x];
    }
  }

  /** After any run, an item is exactly once in all the queues and outputs together if it was pushed, and nowhere if not. */
  lemma {:induction false} ExactlyOnce(ss: seq<State>, es: seq<Event>, x: Entry)
    requires IsRun(ss, es)
    ensures var s := ss[|es|];
            Bag(s.contents)[x] + Bag(Outs(s))[x] == if x.producer < |s.threads| && x.index < s.threads[x.producer].sent then 1 else 0
  {
    hide Initial, Ready, Step, Inv, Tallied, Bag;
    RunItems(ss, es);
    var s := ss[|es|];
    BatchesCount(Batches(s), 0, x);
    assert Bag(s.contents)[x] + Bag(Outs(s))[x] == (Bag(s.contents) + Bag(Outs(s)))[x];
  }

  lemma {:induction false} NoneIfZero(a: seq<nat>, i: nat)
    requires Sum(a) == 0 && i < |a|
    ensures a[i] == 0
  {
    SumUpdate(a, i, 0);
  }

  /** After any run, the counter is not negative, no subtraction takes it below zero, and when it is zero every queue
      that sits in a slot is empty. */
  lemma {:induction false} CounterTellsTruth(ss: seq<State>, es: seq<Event>)
    requires IsRun(ss, es)
    ensures var s := ss[|es|];
            && s.numItems >= 0
            && (forall t :: 0 <= t < |s.threads| && s.threads[t].pc.Subtract? ==> s.threads[t].pc.count <= s.numItems)
            && (s.numItems == 0 ==> forall i: nat, q: nat :: Slotted(s, i, q) ==> q < |s.contents| && s.contents[q] == [])
  {
    hide Initial, Ready, Step, Conserved, Sum;
    RunItems(ss, es);
    var s := ss[|es|];
    forall t | 0 <= t < |s.threads| && s.threads[t].pc.Subtract? ensures s.threads[t].pc.count <= s.numItems {
      SumUpdate(DrainedAll(s), t, 0);
    }
    if s.numItems == 0 {
      forall i: nat, q: nat | Slotted(s, i, q) ensures q < |s.contents| && s.contents[q] == [] {
        assert SlotOk(s, i);
        NoneIfZero(CountedAll(s), q);
      }
    }
  }

  function Lengths(s: State): seq<nat> { seq(|s.contents|, q requires 0 <= q < |s.contents| => |s.contents[q]|) }

  /** Between operations the counter is exact: after any run that leaves every thread idle, it is the number of items in the
      queues. */
  lemma {:induction false} CounterAtRest(ss: seq<State>, es: seq<Event>)
    requires IsRun(ss, es) && forall t :: 0 <= t < |ss[|es|].threads| ==> ss[|es|].threads[t].pc.Idle?
    ensures ss[|es|].numItems == Sum(Lengths(ss[|es|]))
  {
    hide Initial, Ready, Step, Inv, Conserved, Sum;
    RunItems(ss, es);
    var s := ss[|es|];
    assert CountedAll(s) == Lengths(s);
    ZeroSum(DrainedAll(s));
  }
}
