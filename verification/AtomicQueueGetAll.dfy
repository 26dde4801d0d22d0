/** What `push` and `getAll` achieve: a push adds its item, and a drain leaves behind nothing that was there when it began,
    in the slot of a thread that keeps still. */
module AtomicQueueGetAll {
  import opened AtomicQueue
  import opened AtomicQueueItems

  // ---- Where an item is while a drain goes on

  predicate Given(s: State, e: Entry) {
    exists u :: 0 <= u < |s.threads| && e in s.threads[u].out
  }

  /** Thread `u` is moving the items of a queue that holds `e` to its output. */
  predicate Draws(s: State, u: Tid, e: Entry) {
    && u < |s.threads| && (s.threads[u].pc.DrainOwn? || s.threads[u].pc.DrainStolen?)
    && s.threads[u].pc.q < |s.contents| && e in s.contents[s.threads[u].pc.q]
  }

  predicate Lies(s: State, i: nat, q: nat, e: Entry) {
    Slotted(s, i, q) && q < |s.contents| && e in s.contents[q]
  }

  /** The drain of thread `t` has slot `i` still to come to. */
  predicate ToVisit(th: Thread, i: nat) {
    match th.pc
    case Alloc(o) => o == GetAll
    case Store(o, _) => o == GetAll
    case Take(o) => o == GetAll
    case DrainOwn(_, _) => th.slot != Assigned(i)
    case Scan(_, j, c, _) => th.slot != Assigned(i) && j <= i < c
    case Swap(_, j, c, _, _) => th.slot != Assigned(i) && j <= i < c
    case DrainStolen(_, j, c, _) => th.slot != Assigned(i) && j < i < c
    case _ => false
  }

  /** The item is in an output, on its way to one, or in a slot that the drain of `t` has still to come to. */
  ghost predicate OnItsWay(s: State, t: Tid, i: nat, e: Entry) {
    || Given(s, e)
    || (exists u :: Draws(s, u, e))
    || (t < |s.threads| && ToVisit(s.threads[t], i) && exists q :: Lies(s, i, q, e))
  }

  // ---- One step

  lemma {:induction false} GivenStays(s: State, x: Tid, op: Op, e: Entry)
    requires Inv(s) && x < |s.threads| && Ready(s, x) && Given(s, e)
    ensures Given(Step(s, x, op), e)
  {
    hide Inv;
    var s' := Step(s, x, op);
    var u :| 0 <= u < |s.threads| && e in s.threads[u].out;
    assert |s'.threads| == |s.threads| && e in s'.threads[u].out;
  }

  lemma {:induction false} DrawsOn(s: State, x: Tid, op: Op, u: Tid, e: Entry)
    requires Inv(s) && x < |s.threads| && Ready(s, x) && Draws(s, u, e)
    ensures Draws(Step(s, x, op), u, e) || Given(Step(s, x, op), e)
  {
    var s', q := Step(s, x, op), s.threads[u].pc.q;
    assert ThreadOk(s, u);
    if x == u {
      DrawsOne(s, u, op, e);
    } else {
      ContentsStay(s, x, op, q);
      OthersStay(s, x, op, u);
    }
  }

  lemma {:induction false} DrawsOne(s: State, u: Tid, op: Op, e: Entry)
    requires u < |s.threads| && Ready(s, u) && Draws(s, u, e)
    ensures Draws(Step(s, u, op), u, e) || Given(Step(s, u, op), e)
  {
    var s', q := Step(s, u, op), s.threads[u].pc.q;
    if e == s.contents[q][0] {
      assert e in s'.threads[u].out;
    } else {
      assert s.contents[q] == [s.contents[q][0]] + s.contents[q][1..];
    }
  }

  /** A slot changes only at the hands of its owner or of a thread that takes its queue to drain it. */
  lemma {:induction false} LiesOn(s: State, x: Tid, op: Op, i: nat, q: nat, e: Entry)
    requires Inv(s) && x < |s.threads| && Ready(s, x) && i < |s.owners| && Lies(s, i, q, e)
    requires s.owners[i] == x ==> s.threads[x].pc.Idle? || ToVisit(s.threads[x], i)
    ensures Lies(Step(s, x, op), i, q, e) || Draws(Step(s, x, op), x, e)
  {
    var s' := Step(s, x, op);
    assert SlotOk(s, i) && ThreadOk(s, x);
    ContentsStay(s, x, op, q);
    hide Inv;
  }

  /** The drain does not pass a slot that has a queue without taking it. */
  lemma {:induction false} VisitsOn(s: State, t: Tid, op: Op, i: nat, q: nat, e: Entry)
    requires Inv(s) && t < |s.threads| && Ready(s, t) && i < |s.owners| && Lies(s, i, q, e) && ToVisit(s.threads[t], i)
    ensures var s' := Step(s, t, op); t < |s'.threads| && (ToVisit(s'.threads[t], i) || Draws(s', t, e))
  {
    assert SlotOk(s, i) && ThreadOk(s, t);
    ContentsStay(s, t, op, q);
    hide Inv;
  }

  lemma {:induction false} StepOnItsWay(s: State, x: Tid, op: Op, t: Tid, i: nat, e: Entry)
    requires Inv(s) && x < |s.threads| && Ready(s, x) && t < |s.threads| && i < |s.owners| && OnItsWay(s, t, i, e)
    requires s.owners[i] == x ==> x == t
    ensures OnItsWay(Step(s, x, op), t, i, e)
  {
    hide Inv, Ready, Step, ToVisit, Lies, Draws, Given;
    var s' := Step(s, x, op);
    if Given(s, e) {
      GivenStays(s, x, op, e);
    } else if u :| Draws(s, u, e) {
      DrawsOn(s, x, op, u, e);
    } else {
      var q :| Lies(s, i, q, e);
      LiesOn(s, x, op, i, q, e);
      if x == t {
        VisitsOn(s, t, op, i, q, e);
      } else {
        OthersStay(s, x, op, t);
      }
    }
  }

  // ---- Whole operations

  /** Thread `t` begins `op` with the step at `a` and is back from it in state `b`. */
  ghost predicate Operation(ss: seq<State>, es: seq<Event>, a: nat, b: nat, t: Tid, op: Op) {
    && IsRun(ss, es) && a < b <= |es| && es[a] == Event(t, op)
    && t < |ss[a].threads| && ss[a].threads[t].pc.Idle? && t < |ss[b].threads| && ss[b].threads[t].pc.Idle?
    && forall k :: a < k < b ==> t < |ss[k].threads| && !ss[k].threads[t].pc.Idle?
  }

  lemma {:induction false} OwnersStay(s: State, x: Tid, op: Op, i: nat)
    requires x < |s.threads| && Ready(s, x) && i < |s.owners|
    ensures var s' := Step(s, x, op); |s'.threads| == |s.threads| && i < |s'.owners| && s'.owners[i] == s.owners[i]
  {
  }

  lemma {:induction false} PrefixInv(ss: seq<State>, es: seq<Event>, k: nat)
    requires IsRun(ss, es) && k <= |es|
    ensures Inv(ss[k]) && Conserved(ss[k]) && Tallied(ss[k])
  {
    hide Inv, Initial, Ready, Step, Conserved, Tallied;
    assert IsRun(ss[..k + 1], es[..k]);
    RunItems(ss[..k + 1], es[..k]);
  }

  /** The step that begins a drain leaves it with every slot still to come to. */
  lemma {:induction false} BeginsOnItsWay(s: State, t: Tid, i: nat, q: nat, e: Entry)
    requires Inv(s) && t < |s.threads| && Ready(s, t) && s.threads[t].pc.Idle? && i < |s.owners| && Lies(s, i, q, e)
    ensures OnItsWay(Step(s, t, GetAll), t, i, e)
  {
    hide Inv, Lies;
    LiesOn(s, t, GetAll, i, q, e);
  }

  lemma {:induction false} WhileDraining(ss: seq<State>, es: seq<Event>, a: nat, k: nat, t: Tid, i: nat, q: nat, e: Entry)
    requires IsRun(ss, es) && a < k <= |es| && es[a] == Event(t, GetAll) && t < |ss[a].threads| && ss[a].threads[t].pc.Idle?
    requires i < |ss[a].owners| && Lies(ss[a], i, q, e)
    requires forall j :: a <= j < k ==> es[j].t == ss[a].owners[i] ==> es[j].t == t
    ensures t < |ss[k].threads| && i < |ss[k].owners| && ss[k].owners[i] == ss[a].owners[i] && OnItsWay(ss[k], t, i, e)
    decreases k
  {
    hide Inv, Initial, Ready, Step, OnItsWay, Lies;
    var j := k - 1;
    PrefixInv(ss, es, j);
    assert Ready(ss[j], es[j].t) && ss[j + 1] == Step(ss[j], es[j].t, es[j].op);
    if j == a {
      OwnersStay(ss[a], t, GetAll, i);
      BeginsOnItsWay(ss[a], t, i, q, e);
    } else {
      WhileDraining(ss, es, a, j, t, i, q, e);
      OwnersStay(ss[j], es[j].t, es[j].op, i);
      StepOnItsWay(ss[j], es[j].t, es[j].op, t, i, e);
    }
  }

  lemma {:induction false} SlotOwned(s: State, i: nat, q: nat, e: Entry)
    requires Inv(s) && Lies(s, i, q, e)
    ensures i < |s.owners|
  {
    assert SlotOk(s, i);
  }

  /** In any run, whatever the other threads do: an item that lies in a slot when a drain begins is in an output when the
      drain ends, or another thread is moving it to its own, unless the slot's owner has been at work meanwhile. */
  lemma {:induction false} DrainTakes(ss: seq<State>, es: seq<Event>, a: nat, b: nat, t: Tid, i: nat, q: nat, e: Entry)
    requires Operation(ss, es, a, b, t, GetAll) && Lies(ss[a], i, q, e)
    requires i < |ss[a].owners| ==> forall j :: a <= j < b ==> es[j].t == ss[a].owners[i] ==> es[j].t == t
    ensures Given(ss[b], e) || exists u :: u != t && Draws(ss[b], u, e)
  {
    hide Inv, Initial, Ready, Step, Lies, Given;
    PrefixInv(ss, es, a);
    SlotOwned(ss[a], i, q, e);
    WhileDraining(ss, es, a, b, t, i, q, e);
  }

  // ---- A drain that nobody disturbs

  lemma {:induction false} OnlyOneSteps(ss: seq<State>, es: seq<Event>, a: nat, k: nat, t: Tid, u: Tid)
    requires IsRun(ss, es) && a <= k <= |es| && u < |ss[a].threads| && u != t && forall j :: a <= j < k ==> es[j].t == t
    ensures u < |ss[k].threads| && ss[k].threads[u] == ss[a].threads[u]
    decreases k
  {
    hide Initial, Ready, Step;
    if a < k {
      OnlyOneSteps(ss, es, a, k - 1, t, u);
      assert Ready(ss[k - 1], es[k - 1].t) && ss[k] == Step(ss[k - 1], es[k - 1].t, es[k - 1].op);
      OthersStay(ss[k - 1], t, es[k - 1].op, u);
    }
  }

  /** How far an operation has come with the number of items its thread has pushed. */
  predicate SentBy(th: Thread, op: Op, sent: nat) {
    match th.pc
    case Alloc(o) => o == op && th.sent == sent
    case Store(o, _) => o == op && th.sent == sent
    case Take(o) => o == op && th.sent == sent
    case Fill(_) => op == Push && th.sent == sent
    case Count(_) => op == Push && th.sent == sent + 1
    case PutPushed(_) => op == Push && th.sent == sent + 1
    case _ => op == GetAll && th.sent == sent
  }

  lemma {:induction false} StepSent(s: State, t: Tid, o: Op, op: Op, sent: nat)
    requires t < |s.threads| && Ready(s, t) && SentBy(s.threads[t], op, sent) && !s.threads[t].pc.Idle? && |s.owners| <= MAX_THREADS
    ensures var s' := Step(s, t, o);
            && t < |s'.threads|
            && if s'.threads[t].pc.Idle? then s'.threads[t].sent == sent + (if op == Push then 1 else 0) else SentBy(s'.threads[t], op, sent)
  {
  }

  lemma {:induction false} WhileSending(ss: seq<State>, es: seq<Event>, a: nat, b: nat, k: nat, t: Tid, op: Op)
    requires Operation(ss, es, a, b, t, op) && a < k <= b
    ensures var n := ss[a].threads[t].sent;
            && t < |ss[k].threads|
            && if k < b then SentBy(ss[k].threads[t], op, n) else ss[k].threads[t].sent == n + if op == Push then 1 else 0
    decreases k
  {
    hide Initial, Ready, Step, SentBy;
    var j := k - 1;
    assert Ready(ss[j], es[j].t) && ss[j + 1] == Step(ss[j], es[j].t, es[j].op);
    if j == a {
      StepBegins(ss[a], t, op);
    } else {
      WhileSending(ss, es, a, b, j, t, op);
      if es[j].t == t {
        IndexesLast(ss, es, j);
        StepSent(ss[j], t, es[j].op, op, ss[a].threads[t].sent);
      } else {
        OthersStay(ss[j], es[j].t, es[j].op, t);
      }
    }
  }

  lemma {:induction false} IndexesLast(ss: seq<State>, es: seq<Event>, k: nat)
    requires IsRun(ss, es) && k <= |es|
    ensures |ss[k].owners| <= MAX_THREADS
  {
    hide Initial, Ready, Step, ThreadOk, SlotOk, QueueOk, Conserved, Tallied;
    PrefixInv(ss, es, k);
  }

  lemma {:induction false} StepBegins(s: State, t: Tid, op: Op)
    requires t < |s.threads| && Ready(s, t) && s.threads[t].pc.Idle?
    ensures var s' := Step(s, t, op); t < |s'.threads| && !s'.threads[t].pc.Idle? && SentBy(s'.threads[t], op, s.threads[t].sent)
  {
  }

  /** In any run a push adds exactly one item of its thread, and a drain none. */
  lemma {:induction false} PushAdds(ss: seq<State>, es: seq<Event>, a: nat, b: nat, t: Tid, op: Op)
    requires Operation(ss, es, a, b, t, op)
    ensures ss[b].threads[t].sent == ss[a].threads[t].sent + if op == Push then 1 else 0
  {
    hide Initial, Ready, Step, SentBy;
    WhileSending(ss, es, a, b, b, t, op);
  }

  /** Every queue object is in a slot, or empty because its thread never began. */
  lemma {:induction false} AllSlotted(s: State, q: nat)
    requires Inv(s) && q < |s.contents| && forall u :: 0 <= u < |s.threads| ==> s.threads[u].pc.Idle?
    ensures s.place[q].Unborn? || (exists i :: Slotted(s, i, q))
  {
    assert QueueOk(s, q);
    if s.place[q].InSlot? {
      assert Slotted(s, s.place[q].i, q);
    }
  }

  /** A queue object that is not there yet holds nothing. */
  ghost predicate UnbornEmpty(s: State) {
    forall q :: 0 <= q < |s.place| && s.place[q].Unborn? ==> q < |s.contents| && s.contents[q] == []
  }

  lemma {:induction false} StepUnborn(s: State, x: Tid, op: Op, q: nat)
    requires Inv(s) && x < |s.threads| && Ready(s, x) && q < |s.place| && (s.place[q].Unborn? ==> s.contents[q] == [])
    ensures var s' := Step(s, x, op); |s'.place| == |s.place| == |s'.contents| && (s'.place[q].Unborn? ==> s'.contents[q] == [])
  {
    assert ThreadOk(s, x);
    hide Inv;
  }

  lemma {:induction false} RunUnborn(ss: seq<State>, es: seq<Event>, k: nat)
    requires IsRun(ss, es) && k <= |es|
    ensures UnbornEmpty(ss[k])
    decreases k
  {
    hide Inv, Ready, Step;
    if k > 0 {
      RunUnborn(ss, es, k - 1);
      PrefixInv(ss, es, k - 1);
      var s, e := ss[k - 1], es[k - 1];
      assert Ready(s, e.t) && ss[k] == Step(s, e.t, e.op);
      hide Initial;
      StepSizes(s, e.t, e.op);
      forall q | 0 <= q < |ss[k].place| && ss[k].place[q].Unborn? ensures q < |ss[k].contents| && ss[k].contents[q] == [] {
        StepUnborn(s, e.t, e.op, q);
      }
    }
  }

  predicate Held(s: State, e: Entry) {
    exists q :: 0 <= q < |s.contents| && e in s.contents[q]
  }

  lemma {:induction false} BagMember(ss: seq<seq<Entry>>, i: nat, e: Entry)
    requires i < |ss| && e in ss[i]
    ensures Bag(ss)[e] > 0
  {
    BagUpdate(ss, i, [], e);
    assert multiset(ss[i])[e] > 0;
  }

  lemma {:induction false} BagHas(ss: seq<seq<Entry>>, e: Entry) returns (i: nat)
    requires Bag(ss)[e] > 0
    ensures i < |ss| && e in ss[i]
  {
    if e in ss[0] {
      i := 0;
    } else {
      i := BagHas(ss[1..], e);
      i := i + 1;
    }
  }

  /** An item is held or given, not both, and exactly if it was pushed. */
  lemma {:induction false} HeldOrGiven(ss: seq<State>, es: seq<Event>, k: nat, e: Entry)
    requires IsRun(ss, es) && k <= |es|
    ensures !(Held(ss[k], e) && Given(ss[k], e))
    ensures Held(ss[k], e) || Given(ss[k], e) <==> e.producer < |ss[k].threads| && e.index < ss[k].threads[e.producer].sent
  {
    hide Bag, Initial, Ready, Step;
    var s := ss[k];
    assert IsRun(ss[..k + 1], es[..k]);
    ExactlyOnce(ss[..k + 1], es[..k], e);
    assert ss[..k + 1][k] == s;
    if Held(s, e) {
      var q :| 0 <= q < |s.contents| && e in s.contents[q];
      BagMember(s.contents, q, e);
    }
    if Given(s, e) {
      var u :| 0 <= u < |s.threads| && e in s.threads[u].out;
      BagMember(Outs(s), u, e);
    }
    if Bag(s.contents)[e] > 0 {
      var q := BagHas(s.contents, e);
    }
    if Bag(Outs(s))[e] > 0 {
      var u := BagHas(Outs(s), e);
      assert e in s.threads[u].out;
    }
  }

  /** The thread is alone at work: all others are between operations, and none takes a step. */
  ghost predicate Alone(ss: seq<State>, es: seq<Event>, a: nat, b: nat, t: Tid)
    requires a <= b <= |es| && a < |ss|
  {
    && (forall u :: 0 <= u < |ss[a].threads| ==> ss[a].threads[u].pc.Idle?)
    && (forall j :: a <= j < b ==> es[j].t == t)
  }

  lemma {:induction false} SameThreads(ss: seq<State>, es: seq<Event>, a: nat, k: nat)
    requires IsRun(ss, es) && a <= k <= |es|
    ensures |ss[k].threads| == |ss[a].threads|
    decreases k
  {
    hide Initial;
    if a < k {
      SameThreads(ss, es, a, k - 1);
      assert Ready(ss[k - 1], es[k - 1].t) && ss[k] == Step(ss[k - 1], es[k - 1].t, es[k - 1].op);
    }
  }

  lemma {:induction false} AllIdleAfter(ss: seq<State>, es: seq<Event>, a: nat, b: nat, t: Tid, op: Op)
    requires Operation(ss, es, a, b, t, op) && Alone(ss, es, a, b, t)
    ensures |ss[b].threads| == |ss[a].threads| && forall u :: 0 <= u < |ss[b].threads| ==> ss[b].threads[u].pc.Idle?
    ensures forall u :: 0 <= u < |ss[b].threads| && u != t ==> ss[b].threads[u] == ss[a].threads[u]
  {
    hide Initial, Ready, Step;
    SameThreads(ss, es, a, b);
    forall u | 0 <= u < |ss[b].threads| && u != t ensures ss[b].threads[u] == ss[a].threads[u] {
      OnlyOneSteps(ss, es, a, b, t, u);
    }
  }

  lemma {:induction false} DrainedAlone(ss: seq<State>, es: seq<Event>, a: nat, b: nat, t: Tid, e: Entry)
    requires Operation(ss, es, a, b, t, GetAll) && Alone(ss, es, a, b, t) && Held(ss[a], e)
    ensures Given(ss[b], e)
  {
    hide Inv, Conserved, Tallied, Initial, Ready, Step, Given, Draws, Lies;
    AllIdleAfter(ss, es, a, b, t, GetAll);
    PrefixInv(ss, es, a);
    RunUnborn(ss, es, a);
    var q :| 0 <= q < |ss[a].contents| && e in ss[a].contents[q];
    Sizes(ss[a]);
    AllSlotted(ss[a], q);
    var i :| Slotted(ss[a], i, q);
    LiesThere(ss[a], i, q, e);
    DrainTakes(ss, es, a, b, t, i, q, e);
    forall u | u != t ensures !Draws(ss[b], u, e) {
      NotDrawing(ss[b], u, e);
    }
  }

  lemma {:induction false} LiesThere(s: State, i: nat, q: nat, e: Entry)
    requires Slotted(s, i, q) && q < |s.contents| && e in s.contents[q]
    ensures Lies(s, i, q, e)
  {
  }

  lemma {:induction false} NotDrawing(s: State, u: Tid, e: Entry)
    requires forall v :: 0 <= v < |s.threads| ==> s.threads[v].pc.Idle?
    ensures !Draws(s, u, e)
  {
  }

  lemma {:induction false} CountersEmpty(s: State)
    requires Inv(s) && Tallied(s) && (forall u :: 0 <= u < |s.threads| ==> s.threads[u].pc.Idle?)
    requires forall q :: 0 <= q < |s.contents| ==> s.contents[q] == []
    ensures s.numItems == 0
  {
    hide Inv, Sum;
    ZeroSum(CountedAll(s));
    ZeroSum(DrainedAll(s));
  }

  /** A drain that nobody disturbs leaves every queue empty and the counter at zero, and all that was there, and nothing
      else, is new in its output. */
  lemma {:induction false} DrainsAll(ss: seq<State>, es: seq<Event>, a: nat, b: nat, t: Tid)
    requires Operation(ss, es, a, b, t, GetAll) && Alone(ss, es, a, b, t)
    ensures (forall q :: 0 <= q < |ss[b].contents| ==> ss[b].contents[q] == []) && ss[b].numItems == 0
    ensures forall e :: e in ss[b].threads[t].out <==> e in ss[a].threads[t].out || Held(ss[a], e)
  {
    hide Initial, Ready, Step, Inv, Conserved, Tallied, Held, Given;
    AllIdleAfter(ss, es, a, b, t, GetAll);
    PrefixInv(ss, es, b);
    forall q | 0 <= q < |ss[b].contents| ensures ss[b].contents[q] == [] {
      NoneLeft(ss, es, a, b, t, q);
    }
    CountersEmpty(ss[b]);
    forall e ensures e in ss[b].threads[t].out <==> e in ss[a].threads[t].out || Held(ss[a], e) {
      NewInOutput(ss, es, a, b, t, e);
    }
  }

  lemma {:induction false} SameSent(ss: seq<State>, es: seq<Event>, a: nat, b: nat, t: Tid, e: Entry)
    requires Operation(ss, es, a, b, t, GetAll) && Alone(ss, es, a, b, t)
    ensures Held(ss[a], e) || Given(ss[a], e) <==> Held(ss[b], e) || Given(ss[b], e)
  {
    hide Initial, Ready, Step, Held, Given;
    AllIdleAfter(ss, es, a, b, t, GetAll);
    PushAdds(ss, es, a, b, t, GetAll);
    HeldOrGiven(ss, es, a, e);
    HeldOrGiven(ss, es, b, e);
  }

  lemma {:induction false} GivenLater(ss: seq<State>, es: seq<Event>, a: nat, k: nat, e: Entry)
    requires IsRun(ss, es) && a <= k <= |es| && Given(ss[a], e)
    ensures Given(ss[k], e)
    decreases k
  {
    hide Initial, Ready, Step, Inv, Conserved, Tallied, Given;
    if a < k {
      GivenLater(ss, es, a, k - 1, e);
      PrefixInv(ss, es, k - 1);
      assert Ready(ss[k - 1], es[k - 1].t) && ss[k] == Step(ss[k - 1], es[k - 1].t, es[k - 1].op);
      GivenStays(ss[k - 1], es[k - 1].t, es[k - 1].op, e);
    }
  }

  lemma {:induction false} NoneLeft(ss: seq<State>, es: seq<Event>, a: nat, b: nat, t: Tid, q: nat)
    requires Operation(ss, es, a, b, t, GetAll) && Alone(ss, es, a, b, t) && q < |ss[b].contents|
    ensures ss[b].contents[q] == []
  {
    hide Initial, Ready, Step, Given;
    if ss[b].contents[q] != [] {
      var e := ss[b].contents[q][0];
      assert Held(ss[b], e);
      hide Held;
      SameSent(ss, es, a, b, t, e);
      HeldOrGiven(ss, es, b, e);
      if Held(ss[a], e) {
        DrainedAlone(ss, es, a, b, t, e);
      } else {
        GivenLater(ss, es, a, b, e);
      }
    }
  }

  lemma {:induction false} BagTwice(ss: seq<seq<Entry>>, i: nat, j: nat, e: Entry)
    requires i < |ss| && j < |ss| && i != j && e in ss[i] && e in ss[j]
    ensures Bag(ss)[e] > 1
  {
    hide Bag;
    BagUpdate(ss, i, [], e);
    BagMember(ss[i := []], j, e);
    assert multiset(ss[i])[e] > 0;
  }

  /** No item is in two outputs. */
  lemma {:induction false} OneOutput(ss: seq<State>, es: seq<Event>, k: nat, u: Tid, v: Tid, e: Entry)
    requires IsRun(ss, es) && k <= |es| && u < |ss[k].threads| && v < |ss[k].threads| && e in ss[k].threads[u].out && e in ss[k].threads[v].out
    ensures u == v
  {
    hide Bag, Initial, Ready, Step;
    var s := ss[k];
    assert IsRun(ss[..k + 1], es[..k]);
    ExactlyOnce(ss[..k + 1], es[..k], e);
    assert ss[..k + 1][k] == s;
    if u != v {
      BagTwice(Outs(s), u, v, e);
    }
  }

  lemma {:induction false} OutKept(ss: seq<State>, es: seq<Event>, a: nat, k: nat, t: Tid, e: Entry)
    requires IsRun(ss, es) && a <= k <= |es| && t < |ss[a].threads| && e in ss[a].threads[t].out
    ensures t < |ss[k].threads| && e in ss[k].threads[t].out
    decreases k
  {
    hide Initial, Ready, Step;
    if a < k {
      OutKept(ss, es, a, k - 1, t, e);
      assert Ready(ss[k - 1], es[k - 1].t) && ss[k] == Step(ss[k - 1], es[k - 1].t, es[k - 1].op);
      OutGrows(ss[k - 1], es[k - 1].t, es[k - 1].op, t, e);
    }
  }

  lemma {:induction false} OutGrows(s: State, x: Tid, op: Op, t: Tid, e: Entry)
    requires x < |s.threads| && Ready(s, x) && t < |s.threads| && e in s.threads[t].out
    ensures var s' := Step(s, x, op); t < |s'.threads| && e in s'.threads[t].out
  {
  }

  lemma {:induction false} NewInOutput(ss: seq<State>, es: seq<Event>, a: nat, b: nat, t: Tid, e: Entry)
    requires Operation(ss, es, a, b, t, GetAll) && Alone(ss, es, a, b, t)
    ensures e in ss[b].threads[t].out <==> e in ss[a].threads[t].out || Held(ss[a], e)
  {
    hide Initial, Ready, Step, Held;
    AllIdleAfter(ss, es, a, b, t, GetAll);
    SameSent(ss, es, a, b, t, e);
    HeldOrGiven(ss, es, a, e);
    if e in ss[a].threads[t].out {
      OutKept(ss, es, a, b, t, e);
    }
    if Held(ss[a], e) {
      DrainedAlone(ss, es, a, b, t, e);
    }
    if e in ss[b].threads[t].out {
      assert Given(ss[b], e);
      if u :| 0 <= u < |ss[a].threads| && e in ss[a].threads[u].out {
        OutKept(ss, es, a, b, u, e);
        OneOutput(ss, es, b, u, t, e);
      }
    }
  }
}
