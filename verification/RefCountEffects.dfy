/** What the operations of reference-counted pointers achieve: each stores, at one of its steps, the reference it is meant
    to store. */
module RefCountEffects {
  import opened RefCount

  /** Thread `t` begins `op` with the step at `a` and is back from it in state `b`. */
  ghost predicate Operation(ss: seq<State>, es: seq<Event>, a: nat, b: nat, t: Tid, op: Op) {
    && IsRun(ss, es) && a < b <= |es| && es[a] == Event(t, op)
    && t < |ss[a].threads| && ss[a].threads[t] == Idle && t < |ss[b].threads| && ss[b].threads[t] == Idle
    && forall k :: a < k < b ==> t < |ss[k].threads| && ss[k].threads[t] != Idle
  }

  /** Where an operation's reference goes. */
  function Destination(op: Op): Dest {
    match op
    case MakeNew => Fresh
    case Copy(_) => Fresh
    case ResetNull(p) => Into(p)
    case ResetNew(p) => Into(p)
    case Assign(p, _) => Into(p)
    case Destroy(p) => Into(p)
  }

  predicate HoldsAt(s: State, p: nat, r: Ref) {
    p < |s.ptrs| && s.ptrs[p].value == r
  }

  /** The reference an operation that began at `a` is meant to store: nothing, the object it created, or what its source
      held at some moment since. */
  ghost predicate Meant(ss: seq<State>, a: nat, k: nat, op: Op, r: Ref) {
    && a <= k < |ss|
    && match op
       case MakeNew => r == To(|ss[a].objs|)
       case ResetNew(_) => r == To(|ss[a].objs|)
       case ResetNull(_) => r == Null
       case Destroy(_) => r == Null
       case Copy(src) => exists j :: a <= j <= k && HoldsAt(ss[j], src, r)
       case Assign(_, src) => exists j :: a <= j <= k && HoldsAt(ss[j], src, r)
  }

  /** The step of `t` from `s` to `s'` puts `r` where it goes: into a new pointer, or into the one it is for. */
  predicate Puts(s: State, s': State, to: Dest, r: Ref) {
    match to
    case Fresh => s'.ptrs == s.ptrs + [Ptr(r, Free, true)]
    case Into(p) => HoldsAt(s', p, r)
  }

  ghost predicate Stored(ss: seq<State>, es: seq<Event>, a: nat, k: nat, t: Tid, op: Op) {
    exists m: nat, r: Ref :: a <= m < k && k < |ss| && m < |es| && es[m].t == t && Meant(ss, a, k, op, r) && Puts(ss[m], ss[m + 1], Destination(op), r)
  }

  /** How far an operation has come with its reference. */
  ghost predicate Phase(ss: seq<State>, es: seq<Event>, a: nat, k: nat, t: Tid, op: Op) {
    && a < k < |ss| && t < |ss[k].threads|
    && match ss[k].threads[t]
       case IncNew(o, to) => (op.MakeNew? || op.ResetNew?) && to == Destination(op) && Meant(ss, a, k, op, To(o))
       case GimmeLock(src, to) => (op.Copy? || op.Assign?) && src == op.src && to == Destination(op)
       case GimmeRead(src, to) => (op.Copy? || op.Assign?) && src == op.src && to == Destination(op)
       case GimmeInc(src, to, o) => to == Destination(op) && Meant(ss, a, k, op, To(o))
       case GimmeUnlock(src, to, r) => to == Destination(op) && Meant(ss, a, k, op, r)
       case Init(r) => Destination(op) == Fresh && Meant(ss, a, k, op, r)
       case SwapLock(p, r) => Destination(op) == Into(p) && Meant(ss, a, k, op, r)
       case SwapValue(p, r) => Destination(op) == Into(p) && Meant(ss, a, k, op, r)
       case _ => Stored(ss, es, a, k, t, op)
  }

  lemma {:induction false} MeantLater(ss: seq<State>, a: nat, k: nat, op: Op, r: Ref)
    requires Meant(ss, a, k, op, r) && k + 1 < |ss|
    ensures Meant(ss, a, k + 1, op, r)
  {
    if op.Copy? || op.Assign? {
      var j :| a <= j <= k && HoldsAt(ss[j], op.src, r);
    }
  }

  lemma {:induction false} StoredLater(ss: seq<State>, es: seq<Event>, a: nat, k: nat, t: Tid, op: Op)
    requires Stored(ss, es, a, k, t, op) && k + 1 < |ss|
    ensures Stored(ss, es, a, k + 1, t, op)
  {
    hide Meant, Puts;
    var m: nat, r: Ref :| a <= m < k && m < |es| && es[m].t == t && Meant(ss, a, k, op, r) && Puts(ss[m], ss[m + 1], Destination(op), r);
    MeantLater(ss, a, k, op, r);
  }

  lemma {:induction false} StoredNow(ss: seq<State>, es: seq<Event>, a: nat, k: nat, t: Tid, op: Op, r: Ref)
    requires a <= k < |es| && k + 1 < |ss| && es[k].t == t && Meant(ss, a, k, op, r) && Puts(ss[k], ss[k + 1], Destination(op), r)
    ensures Stored(ss, es, a, k + 1, t, op)
  {
    hide Meant, Puts;
    MeantLater(ss, a, k, op, r);
  }

  lemma {:induction false} OtherStep(s: State, x: Tid, o: Op, t: Tid)
    requires Enabled(s, x, o) && t < |s.threads| && x != t
    ensures t < |Step(s, x, o).threads| && Step(s, x, o).threads[t] == s.threads[t]
  {
  }

  lemma {:induction false} PhaseStays(ss: seq<State>, es: seq<Event>, a: nat, k: nat, t: Tid, op: Op)
    requires Phase(ss, es, a, k, t, op) && k + 1 < |ss| && t < |ss[k + 1].threads| && ss[k + 1].threads[t] == ss[k].threads[t]
    ensures Phase(ss, es, a, k + 1, t, op)
  {
    hide Meant, Stored;
    match ss[k].threads[t]
    case IncNew(o, to) => MeantLater(ss, a, k, op, To(o));
    case GimmeLock(_, _) =>
    case GimmeRead(_, _) =>
    case GimmeInc(_, _, o) => MeantLater(ss, a, k, op, To(o));
    case GimmeUnlock(_, _, r) => MeantLater(ss, a, k, op, r);
    case Init(r) => MeantLater(ss, a, k, op, r);
    case SwapLock(_, r) => MeantLater(ss, a, k, op, r);
    case SwapValue(_, r) => MeantLater(ss, a, k, op, r);
    case _ => StoredLater(ss, es, a, k, t, op);
  }

  /** What a step of the thread itself does to the reference it carries. */
  lemma {:induction false} PhaseSteps(ss: seq<State>, es: seq<Event>, a: nat, k: nat, t: Tid, op: Op)
    requires Phase(ss, es, a, k, t, op) && k < |es| && k + 1 < |ss| && es[k].t == t && ss[k].threads[t] != Idle
    requires Enabled(ss[k], t, es[k].op) && ss[k + 1] == Step(ss[k], t, es[k].op)
    ensures Phase(ss, es, a, k + 1, t, op)
  {
    hide Meant, Stored;
    match ss[k].threads[t]
    case IncNew(o, to) => MeantLater(ss, a, k, op, To(o));
    case GimmeLock(_, _) =>
    case GimmeRead(src, _) => ReadIsMeant(ss, a, k, op, src);
    case GimmeInc(_, _, o) => MeantLater(ss, a, k, op, To(o));
    case GimmeUnlock(_, _, r) => MeantLater(ss, a, k, op, r);
    case Init(r) => StoredNow(ss, es, a, k, t, op, r);
    case SwapLock(_, r) => MeantLater(ss, a, k, op, r);
    case SwapValue(_, r) => StoredNow(ss, es, a, k, t, op, r);
    case _ => StoredLater(ss, es, a, k, t, op);
  }

  lemma {:induction false} ReadIsMeant(ss: seq<State>, a: nat, k: nat, op: Op, src: nat)
    requires a <= k && k + 1 < |ss| && (op.Copy? || op.Assign?) && op.src == src && src < |ss[k].ptrs|
    ensures Meant(ss, a, k + 1, op, ss[k].ptrs[src].value)
  {
    assert HoldsAt(ss[k], src, ss[k].ptrs[src].value);
  }

  lemma {:induction false} PhaseBegins(ss: seq<State>, es: seq<Event>, a: nat, t: Tid, op: Op)
    requires a < |es| && a + 1 < |ss| && es[a] == Event(t, op) && Enabled(ss[a], t, op) && ss[a].threads[t] == Idle && ss[a + 1] == Step(ss[a], t, op)
    ensures Phase(ss, es, a, a + 1, t, op)
  {
    if op.Destroy? {
      assert Puts(ss[a], ss[a + 1], Destination(op), Null) && Meant(ss, a, a, op, Null);
      StoredNow(ss, es, a, a, t, op, Null);
    }
  }

  lemma {:induction false} WhileAtWork(ss: seq<State>, es: seq<Event>, a: nat, b: nat, k: nat, t: Tid, op: Op)
    requires Operation(ss, es, a, b, t, op) && a < k <= b
    ensures Phase(ss, es, a, k, t, op)
    decreases k
  {
    hide Initial, Enabled, Step, Phase;
    var j := k - 1;
    assert Enabled(ss[j], es[j].t, es[j].op) && ss[j + 1] == Step(ss[j], es[j].t, es[j].op);
    if j == a {
      PhaseBegins(ss, es, a, t, op);
    } else {
      WhileAtWork(ss, es, a, b, j, t, op);
      if es[j].t == t {
        PhaseSteps(ss, es, a, j, t, op);
      } else {
        OtherStep(ss[j], es[j].t, es[j].op, t);
        PhaseStays(ss, es, a, j, t, op);
      }
    }
  }

  /** In any run, whatever the other threads do, an operation stores at one of its own steps what it is meant to store: into
      a new pointer, or into the one it is for, nothing, the object it created, or what its source held meanwhile. */
  lemma {:induction false} TakesEffect(ss: seq<State>, es: seq<Event>, a: nat, b: nat, t: Tid, op: Op)
    requires Operation(ss, es, a, b, t, op)
    ensures exists m: nat, r: Ref :: a <= m < b && es[m].t == t && Meant(ss, a, b, op, r) && Puts(ss[m], ss[m + 1], Destination(op), r)
  {
    hide Initial, Enabled, Step, Meant, Puts;
    WhileAtWork(ss, es, a, b, b, t, op);
  }
}
