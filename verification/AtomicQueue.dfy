/** The queue of per-thread queues, as a step system: every access to a shared word is one step of one thread, and a
    run is any interleaving of the steps of all threads. */
module AtomicQueue {

  const MAX_THREADS: nat := 500

  type Tid = nat

  /** What is pushed: the `index`-th item of a producer. */
  datatype Entry = Entry(producer: Tid, index: nat)

  datatype Slot = Null | Holds(q: nat)

  datatype Op = Push | GetAll

  /** A thread's place in its code. `q` is the queue it holds, `i` and `c` its loop bounds, `count` the items it drained. */
  datatype Pc =
    | Idle
    | Alloc(op: Op)
    | Store(op: Op, i: nat)
    | Take(op: Op)
    | Fill(q: nat)
    | Count(q: nat)
    | PutPushed(q: nat)
    | DrainOwn(q: nat, count: nat)
    | Scan(q: nat, i: nat, c: nat, count: nat)
    | Swap(q: nat, i: nat, c: nat, count: nat, seen: nat)
    | DrainStolen(q: nat, i: nat, c: nat, count: nat)
    | PutDrained(q: nat, count: nat)
    | Subtract(count: nat)
    | Threw

  datatype ThreadQueue = Unassigned | Assigned(i: nat)

  /** `threadQueue`, the code position, the number of items pushed and the output queue of a thread. */
  datatype Thread = Thread(slot: ThreadQueue, pc: Pc, sent: nat, out: seq<Entry>)

  /** Where a queue object is. */
  datatype Place = Unborn | InSlot(i: nat) | InHand(t: Tid)

  /** Each thread creates at most one queue object, named like the thread. `owners` lists the threads that took an index
      from `counter`, which is its length; `place` is kept to follow the queue objects. */
  datatype State = State(threads: seq<Thread>, slots: seq<Slot>, owners: seq<Tid>, contents: seq<seq<Entry>>, numItems: int,
                         place: seq<Place>)

  datatype Hand = Nothing | Queue(q: nat)

  function HandOf(th: Thread, t: Tid): Hand {
    match th.pc
    case Alloc(_) => Queue(t)
    case Store(_, _) => Queue(t)
    case Fill(q) => Queue(q)
    case Count(q) => Queue(q)
    case PutPushed(q) => Queue(q)
    case DrainOwn(q, _) => Queue(q)
    case Scan(q, _, _, _) => Queue(q)
    case Swap(q, _, _, _, _) => Queue(q)
    case DrainStolen(q, _, _, _) => Queue(q)
    case PutDrained(q, _) => Queue(q)
    case _ => Nothing
  }

  /** The thread has taken its slot's queue, or not yet put one there. */
  predicate Away(pc: Pc) {
    !pc.Idle? && !pc.Alloc? && !pc.Take? && !pc.Subtract? && !pc.Threw?
  }

  // ---- Steps

  function At(s: State, t: Tid, pc: Pc): State
    requires t < |s.threads|
  {
    s.(threads := s.threads[t := s.threads[t].(pc := pc)])
  }

  /** Move the front item of queue `q` to the thread's output. */
  function MoveOne(s: State, t: Tid, q: nat): State
    requires t < |s.threads| && q < |s.contents| && s.contents[q] != []
  {
    s.(contents := s.contents[q := s.contents[q][1..]],
       threads := s.threads[t := s.threads[t].(out := s.threads[t].out + [s.contents[q][0]])])
  }

  /** Exchange the contents of slot `i` with queue `q`, whatever is there. */
  function Exchange(s: State, i: nat, q: nat): State
    requires i < |s.slots| && q < |s.place|
  {
    s.(slots := s.slots[i := Holds(q)], place := s.place[q := InSlot(i)])
  }

  /** What the state must provide for a step of `t` to make sense; every reachable state does. */
  predicate Ready(s: State, t: Tid) {
    && t < |s.threads| == |s.contents| == |s.place|
    && match s.threads[t].pc
       case Store(_, i) => |s.owners| <= MAX_THREADS ==> i < |s.slots|
       case Take(_) => s.threads[t].slot.Assigned? && s.threads[t].slot.i < |s.slots| && s.slots[s.threads[t].slot.i].Holds? &&
                       s.slots[s.threads[t].slot.i].q < |s.place|
       case Fill(q) => q < |s.contents|
       case PutPushed(q) => q < |s.place| && s.threads[t].slot.Assigned? && s.threads[t].slot.i < |s.slots|
       case DrainOwn(q, _) => q < |s.contents|
       case Scan(q, i, c, _) => i <= c <= |s.slots|
       case Swap(q, i, c, _, seen) => q < |s.place| && seen < |s.place| && i < c <= |s.slots|
       case DrainStolen(q, i, c, _) => q < |s.contents| && i < c
       case PutDrained(q, _) => q < |s.place| && s.threads[t].slot.Assigned? && s.threads[t].slot.i < |s.slots|
       case _ => true
  }

  /** One step of thread `t`; an idle thread begins `op`. */
  function Step(s: State, t: Tid, op: Op): State
    requires Ready(s, t)
  {
    var th := s.threads[t];
    match th.pc
    // swapQueue: the first call of a thread creates its queue and takes an index
    case Idle => if th.slot.Unassigned? then At(s, t, Alloc(op)).(place := s.place[t := InHand(t)]) else At(s, t, Take(op))
    case Alloc(o) => At(s, t, Store(o, |s.owners|)).(owners := s.owners + [t])
    case Store(o, i) =>
      if |s.owners| > MAX_THREADS then At(s, t, Threw)
      else Exchange(s, i, t).(threads := s.threads[t := th.(slot := Assigned(i), pc := Take(o))])
    case Take(o) =>
      var q := s.slots[th.slot.i].q;
      At(s, t, if o.Push? then Fill(q) else DrainOwn(q, 0)).(slots := s.slots[th.slot.i := Null], place := s.place[q := InHand(t)])
    // push
    case Fill(q) =>
      s.(contents := s.contents[q := s.contents[q] + [Entry(t, th.sent)]],
         threads := s.threads[t := th.(pc := Count(q), sent := th.sent + 1)])
    case Count(q) => At(s, t, PutPushed(q)).(numItems := s.numItems + 1)
    case PutPushed(q) => Exchange(At(s, t, Idle), th.slot.i, q)
    // getAll
    case DrainOwn(q, n) =>
      if s.contents[q] != [] then At(MoveOne(s, t, q), t, DrainOwn(q, n + 1)) else At(s, t, Scan(q, 0, |s.owners|, n))
    case Scan(q, i, c, n) =>
      if i == c then At(s, t, PutDrained(q, n))
      else if s.slots[i].Null? then At(s, t, Scan(q, i + 1, c, n))
      else At(s, t, Swap(q, i, c, n, s.slots[i].q))
    case Swap(q, i, c, n, seen) =>
      if s.slots[i] == Holds(seen) then
        At(s, t, DrainStolen(seen, i, c, n)).(slots := s.slots[i := Holds(q)], place := s.place[q := InSlot(i)][seen := InHand(t)])
      else At(s, t, Scan(q, i, c, n))
    case DrainStolen(q, i, c, n) =>
      if s.contents[q] != [] then At(MoveOne(s, t, q), t, DrainStolen(q, i, c, n + 1)) else At(s, t, Scan(q, i + 1, c, n))
    case PutDrained(q, n) => Exchange(At(s, t, Subtract(n)), th.slot.i, q)
    case Subtract(n) => At(s, t, Idle).(numItems := s.numItems - n)
    case Threw => s
  }

  // ---- Where everything is

  ghost predicate ThreadOk(s: State, t: Tid)
    requires t < |s.threads| == |s.place|
  {
    var th := s.threads[t];
    && (th.slot.Assigned? ==> th.slot.i < |s.owners| && s.owners[th.slot.i] == t && !th.pc.Alloc? && !th.pc.Store?)
    && (th.pc.Store? ==> th.pc.i < |s.owners| && s.owners[th.pc.i] == t)
    && (th.slot.Assigned? || th.pc.Idle? || th.pc.Alloc? || th.pc.Store?) && !th.pc.Threw?
    && (th.slot.Unassigned? && th.pc.Idle? ==> s.place[t] == Unborn)
    && (HandOf(th, t).Queue? ==> HandOf(th, t).q < |s.place| && s.place[HandOf(th, t).q] == InHand(t))
    && (th.pc.Scan? ==> th.pc.i <= th.pc.c <= |s.owners|)
    && (th.pc.Swap? ==> th.pc.i < th.pc.c <= |s.owners| && th.pc.seen < |s.place|)
    && (th.pc.DrainStolen? ==> th.pc.i < th.pc.c <= |s.owners|)
  }

  /** Whose slot `i` is, and that it is empty exactly while its owner is at work. */
  ghost predicate SlotOk(s: State, i: nat)
    requires i < |s.slots| && |s.threads| == |s.place|
  {
    && (if i < |s.owners|
        then && s.owners[i] < |s.threads|
             && (var th := s.threads[s.owners[i]];
                 && (th.slot == Assigned(i) || (th.pc.Store? && th.pc.i == i))
                 && (s.slots[i].Null? <==> Away(th.pc)))
        else s.slots[i].Null?)
    && (s.slots[i].Holds? ==> s.slots[i].q < |s.place| && s.place[s.slots[i].q] == InSlot(i))
  }

  ghost predicate QueueOk(s: State, q: nat)
    requires q < |s.threads| == |s.place|
  {
    match s.place[q]
    case Unborn => s.threads[q].slot.Unassigned? && s.threads[q].pc.Idle?
    case InSlot(i) => i < |s.slots| && s.slots[i] == Holds(q)
    case InHand(t) => t < |s.threads| && HandOf(s.threads[t], t) == Queue(q)
  }

  ghost predicate Inv(s: State) {
    && |s.threads| == |s.contents| == |s.place| <= MAX_THREADS == |s.slots|
    && |s.owners| <= |s.slots|
    && (forall t :: 0 <= t < |s.threads| ==> ThreadOk(s, t))
    && (forall i :: 0 <= i < |s.slots| ==> SlotOk(s, i))
    && (forall q :: 0 <= q < |s.threads| ==> QueueOk(s, q))
  }

  /** A thread that has not taken an index yet has not used one up. */
  lemma {:induction false} NotAnOwner(s: State, t: Tid)
    requires Inv(s) && t < |s.threads| && s.threads[t].pc.Alloc?
    ensures t !in s.owners
  {
    assert ThreadOk(s, t);
    forall i | 0 <= i < |s.owners| ensures s.owners[i] != t {
      assert SlotOk(s, i);
    }
  }

  /** Owners are different threads. */
  lemma {:induction false} OwnersDistinct(s: State)
    requires Inv(s)
    ensures forall i, j :: 0 <= i < j < |s.owners| ==> s.owners[i] != s.owners[j]
    ensures forall i :: 0 <= i < |s.owners| ==> s.owners[i] < |s.threads|
  {
    forall i, j | 0 <= i < j < |s.owners| ensures s.owners[i] != s.owners[j] {
      assert SlotOk(s, i) && SlotOk(s, j);
      assert ThreadOk(s, s.owners[i]);
    }
    forall i | 0 <= i < |s.owners| ensures s.owners[i] < |s.threads| {
      assert SlotOk(s, i);
    }
  }

  /** Different numbers below `n` are at most `n` many. */
  lemma {:induction false} Pigeonhole(a: seq<nat>, n: nat)
    requires forall i, j :: 0 <= i < j < |a| ==> a[i] != a[j]
    requires forall i :: 0 <= i < |a| ==> a[i] < n
    ensures |a| <= n
    decreases n
  {
    if a != [] {
      assert a[0] < n;
      if i :| 0 <= i < |a| && a[i] == n - 1 {
        var b := a[..i] + a[i + 1..];
        assert forall j :: 0 <= j < |b| ==> b[j] == a[if j < i then j else j + 1];
        Pigeonhole(b, n - 1);
      } else {
        Pigeonhole(a, n - 1);
      }
    }
  }

  /** There is always an index left for a thread that comes to take one. */
  lemma {:induction false} IndexLeft(s: State, t: Tid)
    requires Inv(s) && t < |s.threads| && s.threads[t].pc.Alloc?
    ensures |s.owners| < |s.threads|
  {
    hide Inv;
    NotAnOwner(s, t);
    OwnersDistinct(s);
    Pigeonhole(s.owners + [t], |s.threads|);
  }

  lemma {:induction false} IsReady(s: State, t: Tid)
    requires Inv(s) && t < |s.threads|
    ensures Ready(s, t)
  {
    assert ThreadOk(s, t);
    if s.threads[t].slot.Assigned? {
      assert SlotOk(s, s.threads[t].slot.i);
    }
  }

  // ---- Every step keeps everything in its place

  /** A step that moves no queue: slots, places and indexes stay, and only thread `t` changes, with the same hand. */
  ghost predicate Quiet(s: State, t: Tid, s': State) {
    && t < |s.threads| == |s'.threads|
    && s'.slots == s.slots && s'.owners == s.owners && s'.place == s.place && |s'.contents| == |s.contents|
    && s'.threads == s.threads[t := s'.threads[t]]
    && (var th, th' := s.threads[t], s'.threads[t];
        && th'.slot == th.slot && th.slot.Assigned? && !th.pc.Store? && !th'.pc.Store? && HandOf(th', t) == HandOf(th, t) && (Away(th'.pc) <==> Away(th.pc)))
  }

  lemma {:induction false} QuietInv(s: State, t: Tid, s': State)
    requires Inv(s) && |s'.threads| == |s.threads| && Quiet(s, t, s') && ThreadOk(s', t)
    ensures Inv(s')
  {
    hide HandOf, Away;
    forall u | 0 <= u < |s.threads| ensures ThreadOk(s', u) {
      assert ThreadOk(s, u);
    }
    forall i | 0 <= i < |s.slots| ensures SlotOk(s', i) {
      assert SlotOk(s, i);
    }
    forall q | 0 <= q < |s.threads| ensures QueueOk(s', q) {
      assert QueueOk(s, q);
    }
  }

  /** The steps that move a queue or take an index. */
  predicate Moves(s: State, t: Tid)
    requires t < |s.threads|
  {
    var th := s.threads[t];
    (th.pc.Idle? && th.slot.Unassigned?) || th.pc.Alloc? || th.pc.Store? || th.pc.Take? || th.pc.PutPushed? || th.pc.PutDrained? ||
    (th.pc.Swap? && th.pc.i < |s.slots| && s.slots[th.pc.i] == Holds(th.pc.seen))
  }

  lemma {:induction false} StaysQuiet(s: State, t: Tid, op: Op)
    requires t < |s.threads| == |s.place| && ThreadOk(s, t) && Ready(s, t) && !Moves(s, t)
    requires forall i :: 0 <= i < |s.slots| && s.slots[i].Holds? ==> s.slots[i].q < |s.place|
    ensures var s' := Step(s, t, op); |s'.threads| == |s.threads| && Quiet(s, t, s') && ThreadOk(s', t)
  {
  }

  lemma {:induction false} SlotsBounded(s: State)
    requires Inv(s)
    ensures forall i :: 0 <= i < |s.slots| && s.slots[i].Holds? ==> s.slots[i].q < |s.place|
  {
    forall i | 0 <= i < |s.slots| && s.slots[i].Holds? ensures s.slots[i].q < |s.place| {
      assert SlotOk(s, i);
    }
  }

  lemma {:induction false} BeginInv(s: State, t: Tid, op: Op)
    requires Inv(s) && t < |s.threads| && Ready(s, t) && s.threads[t].pc.Idle? && s.threads[t].slot.Unassigned?
    ensures Inv(Step(s, t, op))
  {
    assert ThreadOk(s, t);
    var s' := Step(s, t, op);
    forall u | 0 <= u < |s.threads| ensures ThreadOk(s', u) {
      assert ThreadOk(s, u);
    }
    forall i | 0 <= i < |s.slots| ensures SlotOk(s', i) {
      assert SlotOk(s, i);
    }
    forall q | 0 <= q < |s.threads| ensures QueueOk(s', q) {
      assert QueueOk(s, q);
    }
  }

  lemma {:induction false} AllocInv(s: State, t: Tid, op: Op)
    requires Inv(s) && t < |s.threads| && Ready(s, t) && s.threads[t].pc.Alloc? && |s.owners| < |s.slots|
    ensures Inv(Step(s, t, op))
  {
    assert ThreadOk(s, t);
    var s' := Step(s, t, op);
    forall u | 0 <= u < |s.threads| ensures ThreadOk(s', u) {
      assert ThreadOk(s, u);
    }
    forall i | 0 <= i < |s.slots| ensures SlotOk(s', i) {
      assert SlotOk(s, i);
    }
    forall q | 0 <= q < |s.threads| ensures QueueOk(s', q) {
      assert QueueOk(s, q);
    }
  }

  lemma {:induction false} StoreInv(s: State, t: Tid, op: Op)
    requires Inv(s) && t < |s.threads| && Ready(s, t) && s.threads[t].pc.Store?
    ensures Inv(Step(s, t, op))
  {
    assert ThreadOk(s, t) && SlotOk(s, s.threads[t].pc.i);
    var s' := Step(s, t, op);
    forall u | 0 <= u < |s.threads| ensures ThreadOk(s', u) {
      assert ThreadOk(s, u);
    }
    forall i | 0 <= i < |s.slots| ensures SlotOk(s', i) {
      assert SlotOk(s, i);
    }
    forall q | 0 <= q < |s.threads| ensures QueueOk(s', q) {
      assert QueueOk(s, q);
    }
  }

  lemma {:induction false} TakeInv(s: State, t: Tid, op: Op)
    requires Inv(s) && t < |s.threads| && Ready(s, t) && s.threads[t].pc.Take?
    ensures Inv(Step(s, t, op))
  {
    assert ThreadOk(s, t) && SlotOk(s, s.threads[t].slot.i);
    var s' := Step(s, t, op);
    forall u | 0 <= u < |s.threads| ensures ThreadOk(s', u) {
      assert ThreadOk(s, u);
    }
    forall i | 0 <= i < |s.slots| ensures SlotOk(s', i) {
      assert SlotOk(s, i);
    }
    forall q | 0 <= q < |s.threads| ensures QueueOk(s', q) {
      assert QueueOk(s, q);
    }
  }

  lemma {:induction false} PutInv(s: State, t: Tid, op: Op)
    requires Inv(s) && t < |s.threads| && Ready(s, t) && (s.threads[t].pc.PutPushed? || s.threads[t].pc.PutDrained?)
    ensures Inv(Step(s, t, op))
  {
    assert ThreadOk(s, t) && SlotOk(s, s.threads[t].slot.i);
    var s' := Step(s, t, op);
    forall u | 0 <= u < |s.threads| ensures ThreadOk(s', u) {
      assert ThreadOk(s, u);
    }
    forall i | 0 <= i < |s.slots| ensures SlotOk(s', i) {
      assert SlotOk(s, i);
    }
    forall q | 0 <= q < |s.threads| ensures QueueOk(s', q) {
      assert QueueOk(s, q);
    }
  }

  lemma {:induction false} SwapInv(s: State, t: Tid, op: Op)
    requires Inv(s) && t < |s.threads| && Ready(s, t) && s.threads[t].pc.Swap? && s.slots[s.threads[t].pc.i] == Holds(s.threads[t].pc.seen)
    ensures Inv(Step(s, t, op))
  {
    assert ThreadOk(s, t) && SlotOk(s, s.threads[t].pc.i);
    var s' := Step(s, t, op);
    forall u | 0 <= u < |s.threads| ensures ThreadOk(s', u) {
      assert ThreadOk(s, u);
    }
    forall i | 0 <= i < |s.slots| ensures SlotOk(s', i) {
      assert SlotOk(s, i);
    }
    forall q | 0 <= q < |s.threads| ensures QueueOk(s', q) {
      assert QueueOk(s, q);
    }
  }

  lemma {:induction false} StepInv(s: State, t: Tid, op: Op)
    requires Inv(s) && t < |s.threads|
    ensures Ready(s, t) && Inv(Step(s, t, op))
  {
    hide Inv, Ready, Step, ThreadOk, Quiet;
    IsReady(s, t);
    var pc := s.threads[t].pc;
    if Moves(s, t) {
      match pc
      case Idle => BeginInv(s, t, op);
      case Alloc(_) =>
        IndexLeft(s, t);
        Sizes(s);
        AllocInv(s, t, op);
      case Store(_, _) => StoreInv(s, t, op);
      case Take(_) => TakeInv(s, t, op);
      case PutPushed(_) => PutInv(s, t, op);
      case PutDrained(_, _) => PutInv(s, t, op);
      case Swap(_, _, _, _, _) => SwapInv(s, t, op);
      case _ =>
    } else {
      Sizes(s);
      SlotsBounded(s);
      Threads(s, t);
      StaysQuiet(s, t, op);
      QuietInv(s, t, Step(s, t, op));
    }
  }

  lemma {:induction false} Sizes(s: State)
    requires Inv(s)
    ensures |s.threads| == |s.place| == |s.contents| <= |s.slots|
  {
  }

  lemma {:induction false} Threads(s: State, t: Tid)
    requires Inv(s) && t < |s.threads|
    ensures t < |s.threads| == |s.place| && ThreadOk(s, t)
  {
  }

  // ---- Runs

  ghost predicate Initial(s: State) {
    && |s.threads| == |s.contents| == |s.place| <= MAX_THREADS == |s.slots|
    && s.owners == [] && s.numItems == 0
    && (forall t :: 0 <= t < |s.threads| ==> s.threads[t] == Thread(Unassigned, Idle, 0, []))
    && (forall q :: 0 <= q < |s.threads| ==> s.contents[q] == [] && s.place[q] == Unborn)
    && (forall i :: 0 <= i < |s.slots| ==> s.slots[i] == Null)
  }

  /** Whose step it is, and what an idle thread begins. */
  datatype Event = Event(t: Tid, op: Op)

  /** `ss` are the states of a run whose steps are `es`, in any interleaving, by at most `MAX_THREADS` threads. */
  ghost predicate IsRun(ss: seq<State>, es: seq<Event>) {
    && |ss| == |es| + 1 && Initial(ss[0])
    && forall k :: 0 <= k < |es| ==> es[k].t < |ss[k].threads| && Ready(ss[k], es[k].t) && ss[k + 1] == Step(ss[k], es[k].t, es[k].op)
  }

  lemma {:induction false} InitialInv(s: State)
    requires Initial(s)
    ensures Inv(s)
  {
  }

  lemma {:induction false} RunInv(ss: seq<State>, es: seq<Event>)
    requires IsRun(ss, es)
    ensures Inv(ss[|es|])
  {
    hide Inv, Initial, Ready, Step;
    if es == [] {
      InitialInv(ss[0]);
    } else {
      var k := |es| - 1;
      assert IsRun(ss[..k + 1], es[..k]);
      RunInv(ss[..k + 1], es[..k]);
      StepInv(ss[k], es[k].t, es[k].op);
    }
  }

  predicate Slotted(s: State, i: nat, q: nat) { i < |s.slots| && s.slots[i] == Holds(q) }

  predicate Carried(s: State, t: Tid, q: nat) { t < |s.threads| && HandOf(s.threads[t], t) == Queue(q) }

  /** Queue `q` is in at most one slot or hand. */
  ghost predicate AtMostOnePlace(s: State, q: nat) {
    && (forall i, j :: Slotted(s, i, q) && Slotted(s, j, q) ==> i == j)
    && (forall t, u :: Carried(s, t, q) && Carried(s, u, q) ==> t == u)
    && (forall i, t :: !(Slotted(s, i, q) && Carried(s, t, q)))
  }

  lemma {:induction false} OnlyOnePlace(s: State, q: nat)
    requires Inv(s)
    ensures AtMostOnePlace(s, q)
  {
    hide HandOf;
    forall i: nat | Slotted(s, i, q) ensures q < |s.place| && s.place[q] == InSlot(i) {
      assert SlotOk(s, i);
    }
    forall t: nat | Carried(s, t, q) ensures q < |s.place| && s.place[q] == InHand(t) {
      assert ThreadOk(s, t);
    }
  }

  lemma {:induction false} SomePlace(s: State, q: nat)
    requires Inv(s) && q < |s.threads| && (s.threads[q].slot.Assigned? || !s.threads[q].pc.Idle?)
    ensures (exists i :: Slotted(s, i, q)) || (exists t :: Carried(s, t, q))
  {
    hide HandOf;
    assert QueueOk(s, q);
    assert s.place[q].InSlot? ==> Slotted(s, s.place[q].i, q);
    assert s.place[q].InHand? ==> Carried(s, s.place[q].t, q);
  }

  /** After any run, a queue object is in at most one slot or one hand, and in one of them once its thread has begun. */
  lemma {:induction false} OnePlace(ss: seq<State>, es: seq<Event>, q: nat)
    requires IsRun(ss, es)
    ensures var s := ss[|es|];
            && AtMostOnePlace(s, q)
            && (q < |s.threads| && (s.threads[q].slot.Assigned? || !s.threads[q].pc.Idle?) ==>
                  (exists i :: Slotted(s, i, q)) || (exists t :: Carried(s, t, q)))
  {
    hide Initial, Step, Ready, HandOf, Inv, AtMostOnePlace, Slotted, Carried;
    RunInv(ss, es);
    var s := ss[|es|];
    OnlyOnePlace(s, q);
    if q < |s.threads| && (s.threads[q].slot.Assigned? || !s.threads[q].pc.Idle?) {
      SomePlace(s, q);
    }
  }

  /** After any run, the exchange that puts a queue back finds its slot empty, the one that takes a queue finds one,
      a thread between two operations has one in its slot, and nobody runs out of indexes. */
  lemma {:induction false} SlotsAsExpected(ss: seq<State>, es: seq<Event>, t: Tid)
    requires IsRun(ss, es) && t < |ss[|es|].threads|
    ensures var s := ss[|es|]; var th := s.threads[t];
            && (th.pc.PutPushed? || th.pc.PutDrained? ==> th.slot.Assigned? && th.slot.i < |s.slots| && s.slots[th.slot.i] == Null)
            && (th.pc.Store? ==> th.pc.i < |s.slots| && s.slots[th.pc.i] == Null)
            && (th.pc.Take? || (th.pc.Idle? && th.slot.Assigned?) ==> th.slot.Assigned? && th.slot.i < |s.slots| && s.slots[th.slot.i] != Null)
            && |s.owners| <= MAX_THREADS && !th.pc.Threw?
  {
    hide Initial, Step, Ready, HandOf;
    RunInv(ss, es);
    var s := ss[|es|];
    assert ThreadOk(s, t);
    if s.threads[t].slot.Assigned? {
      assert SlotOk(s, s.threads[t].slot.i);
    }
    if s.threads[t].pc.Store? {
      assert SlotOk(s, s.threads[t].pc.i);
    }
  }
}
