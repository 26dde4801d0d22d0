/** Reference-counted pointers shared between threads, as a step system: every access to a count, a value or a spin
    lock is one step of one thread. */
module RefCount {

  type Tid = nat

  /** The value of a pointer. */
  datatype Ref = Null | To(o: nat)

  /** What an object is about: just created by a thread, counted, about to be deleted by a thread, or deleted. */
  datatype Fate = New(t: Tid) | Live | Doomed(t: Tid) | Gone

  /** `fate` is kept to follow the object; the code has only the count. */
  datatype Obj = Obj(count: int, fate: Fate)

  datatype Lock = Free | Held(t: Tid)

  datatype Ptr = Ptr(value: Ref, lock: Lock, alive: bool)

  /** Where a reference goes: into a pointer under construction or into an existing one. */
  datatype Dest = Fresh | Into(p: nat)

  /** What a thread can begin: construct from a new object, copy-construct, reset to nothing or to a new object, assign
      from a pointer (itself included), destroy. */
  datatype Op = MakeNew | Copy(src: nat) | ResetNull(dst: nat) | ResetNew(dst: nat) | Assign(dst: nat, src: nat) | Destroy(p: nat)

  /** A thread's place in its code. */
  datatype Pc =
    | Idle
    | IncNew(o: nat, to: Dest)               // incref of an object just created
    | GimmeLock(src: nat, to: Dest)          // gimme: lock
    | GimmeRead(src: nat, to: Dest)          // read the value
    | GimmeInc(src: nat, to: Dest, o: nat)   // incref what was read
    | GimmeUnlock(src: nat, to: Dest, r: Ref)
    | Init(r: Ref)                           // the pointer under construction gets its value
    | SwapLock(p: nat, r: Ref)               // swap: lock
    | SwapValue(p: nat, r: Ref)              // exchange
    | SwapUnlock(p: nat, r: Ref)
    | Dec(o: nat)                            // decref
    | Delete(o: nat)

  datatype State = State(threads: seq<Pc>, ptrs: seq<Ptr>, objs: seq<Obj>)

  /** The pointers that a thread's operation still refers to. */
  predicate Uses(pc: Pc, p: nat) {
    match pc
    case IncNew(_, to) => to == Into(p)
    case GimmeLock(src, to) => src == p || to == Into(p)
    case GimmeRead(src, to) => src == p || to == Into(p)
    case GimmeInc(src, to, _) => src == p || to == Into(p)
    case GimmeUnlock(src, to, _) => src == p || to == Into(p)
    case SwapLock(q, _) => q == p
    case SwapValue(q, _) => q == p
    case SwapUnlock(q, _) => q == p
    case _ => false
  }

  /** The pointer whose lock a thread holds. */
  predicate Locks(pc: Pc, p: nat) {
    match pc
    case GimmeRead(src, _) => src == p
    case GimmeInc(src, _, _) => src == p
    case GimmeUnlock(src, _, _) => src == p
    case SwapValue(q, _) => q == p
    case SwapUnlock(q, _) => q == p
    case _ => false
  }

  /** The counted reference a thread has in flight, not held by any pointer. */
  function Flight(pc: Pc): Ref {
    match pc
    case GimmeUnlock(_, _, r) => r
    case Init(r) => r
    case SwapLock(_, r) => r
    case SwapValue(_, r) => r
    case SwapUnlock(_, r) => r
    case Dec(o) => To(o)
    case _ => Null
  }

  /** Whether thread `t` can take its next step; an idle thread begins `op`. A pointer is destroyed only when no other
      thread's operation refers to it, as the language demands of its callers. */
  predicate Enabled(s: State, t: Tid, op: Op) {
    && t < |s.threads|
    && match s.threads[t]
       case Idle =>
         (match op
          case MakeNew => true
          case Copy(src) => src < |s.ptrs| && s.ptrs[src].alive
          case ResetNull(p) => p < |s.ptrs| && s.ptrs[p].alive
          case ResetNew(p) => p < |s.ptrs| && s.ptrs[p].alive
          case Assign(p, src) => p < |s.ptrs| && s.ptrs[p].alive && src < |s.ptrs| && s.ptrs[src].alive
          case Destroy(p) => p < |s.ptrs| && s.ptrs[p].alive && forall u :: 0 <= u < |s.threads| ==> !Uses(s.threads[u], p))
       case IncNew(o, _) => o < |s.objs|
       case GimmeLock(src, _) => src < |s.ptrs| && s.ptrs[src].lock == Free
       case GimmeRead(src, _) => src < |s.ptrs|
       case GimmeInc(src, _, o) => o < |s.objs|
       case GimmeUnlock(src, _, _) => src < |s.ptrs|
       case Init(_) => true
       case SwapLock(p, _) => p < |s.ptrs| && s.ptrs[p].lock == Free
       case SwapValue(p, _) => p < |s.ptrs|
       case SwapUnlock(p, _) => p < |s.ptrs|
       case Dec(o) => o < |s.objs|
       case Delete(o) => o < |s.objs|
  }

  // ---- Steps

  function At(s: State, t: Tid, pc: Pc): State
    requires t < |s.threads|
  {
    s.(threads := s.threads[t := pc])
  }

  function SetLock(s: State, p: nat, l: Lock): State
    requires p < |s.ptrs|
  {
    s.(ptrs := s.ptrs[p := s.ptrs[p].(lock := l)])
  }

  function SetValue(s: State, p: nat, r: Ref): State
    requires p < |s.ptrs|
  {
    s.(ptrs := s.ptrs[p := s.ptrs[p].(value := r)])
  }

  function SetObj(s: State, o: nat, x: Obj): State
    requires o < |s.objs|
  {
    s.(objs := s.objs[o := x])
  }

  /** A reference ready to be stored goes where it was meant. */
  function Deliver(to: Dest, r: Ref): Pc {
    match to
    case Fresh => Init(r)
    case Into(p) => SwapLock(p, r)
  }

  function Begin(s: State, t: Tid, op: Op): State
    requires Enabled(s, t, op) && s.threads[t] == Idle
  {
    match op
    case MakeNew => At(s, t, IncNew(|s.objs|, Fresh)).(objs := s.objs + [Obj(0, New(t))])
    case ResetNew(p) => At(s, t, IncNew(|s.objs|, Into(p))).(objs := s.objs + [Obj(0, New(t))])
    case Copy(src) => At(s, t, GimmeLock(src, Fresh))
    case Assign(p, src) => At(s, t, GimmeLock(src, Into(p)))
    case ResetNull(p) => At(s, t, SwapLock(p, Null))
    case Destroy(p) =>
      var r := s.ptrs[p].value;
      At(s, t, if r.To? then Dec(r.o) else Idle).(ptrs := s.ptrs[p := s.ptrs[p].(value := Null, alive := false)])
  }

  function Step(s: State, t: Tid, op: Op): State
    requires Enabled(s, t, op)
  {
    match s.threads[t]
    case Idle => Begin(s, t, op)
    case IncNew(o, to) => At(SetObj(s, o, Obj(s.objs[o].count + 1, Live)), t, Deliver(to, To(o)))
    case GimmeLock(src, to) => At(SetLock(s, src, Held(t)), t, GimmeRead(src, to))
    case GimmeRead(src, to) =>
      var r := s.ptrs[src].value;
      At(s, t, if r.To? then GimmeInc(src, to, r.o) else GimmeUnlock(src, to, Null))
    case GimmeInc(src, to, o) => At(SetObj(s, o, Obj(s.objs[o].count + 1, s.objs[o].fate)), t, GimmeUnlock(src, to, To(o)))
    case GimmeUnlock(src, to, r) => At(SetLock(s, src, Free), t, Deliver(to, r))
    case Init(r) => At(s.(ptrs := s.ptrs + [Ptr(r, Free, true)]), t, Idle)
    case SwapLock(p, r) => At(SetLock(s, p, Held(t)), t, SwapValue(p, r))
    case SwapValue(p, r) => At(SetValue(s, p, r), t, SwapUnlock(p, s.ptrs[p].value))
    case SwapUnlock(p, r) => At(SetLock(s, p, Free), t, if r.To? then Dec(r.o) else Idle)
    case Dec(o) =>
      var c := s.objs[o].count - 1;
      if c == 0 then At(SetObj(s, o, Obj(0, Doomed(t))), t, Delete(o)) else At(SetObj(s, o, Obj(c, s.objs[o].fate)), t, Idle)
    case Delete(o) => At(SetObj(s, o, Obj(s.objs[o].count, Gone)), t, Idle)
  }

  // ---- Counting references

  function Count(rs: seq<Ref>, o: nat): nat {
    if rs == [] then 0 else (if rs[0] == To(o) then 1 else 0) + Count(rs[1..], o)
  }

  lemma {:induction false} CountUpdate(rs: seq<Ref>, i: nat, r: Ref, o: nat)
    requires i < |rs|
    ensures Count(rs[i := r], o) + (if rs[i] == To(o) then 1 else 0) == Count(rs, o) + if r == To(o) then 1 else 0
    ensures rs[i] == To(o) ==> Count(rs, o) > 0
  {
    if i == 0 {
      assert rs[0 := r][1..] == rs[1..];
    } else {
      assert rs[i := r][1..] == rs[1..][i - 1 := r];
      CountUpdate(rs[1..], i - 1, r, o);
    }
  }

  lemma {:induction false} CountAppend(rs: seq<Ref>, r: Ref, o: nat)
    ensures Count(rs + [r], o) == Count(rs, o) + if r == To(o) then 1 else 0
  {
    if rs == [] {
      assert rs + [r] == [r];
    } else {
      assert (rs + [r])[1..] == rs[1..] + [r];
      CountAppend(rs[1..], r, o);
    }
  }

  function Values(s: State): seq<Ref> { seq(|s.ptrs|, p requires 0 <= p < |s.ptrs| => s.ptrs[p].value) }

  function Flights(s: State): seq<Ref> { seq(|s.threads|, t requires 0 <= t < |s.threads| => Flight(s.threads[t])) }

  /** The pointers that hold `o` and the references to it in flight. */
  function Refs(s: State, o: nat): nat {
    Count(Values(s), o) + Count(Flights(s), o)
  }

  // ---- The invariant

  ghost predicate ThreadOk(s: State, t: Tid)
    requires t < |s.threads|
  {
    var pc := s.threads[t];
    && (forall p: nat :: Uses(pc, p) ==> p < |s.ptrs| && s.ptrs[p].alive)
    && (forall p: nat :: Locks(pc, p) ==> p < |s.ptrs| && s.ptrs[p].lock == Held(t))
    && (pc.GimmeInc? ==> pc.src < |s.ptrs| && s.ptrs[pc.src].value == To(pc.o))
    && (pc.IncNew? ==> pc.o < |s.objs| && s.objs[pc.o] == Obj(0, New(t)))
    && (pc.Delete? ==> pc.o < |s.objs| && s.objs[pc.o].fate == Doomed(t))
    && (Flight(pc).To? ==> Flight(pc).o < |s.objs|)
  }

  ghost predicate PtrOk(s: State, p: nat)
    requires p < |s.ptrs|
  {
    && (s.ptrs[p].value.To? ==> s.ptrs[p].value.o < |s.objs|)
    && (s.ptrs[p].lock.Held? ==> s.ptrs[p].lock.t < |s.threads| && Locks(s.threads[s.ptrs[p].lock.t], p))
  }

  ghost predicate ObjOk(s: State, o: nat)
    requires o < |s.objs|
  {
    && s.objs[o].count == Refs(s, o)
    && match s.objs[o].fate
       case New(t) => s.objs[o].count == 0 && t < |s.threads| && s.threads[t].IncNew? && s.threads[t].o == o
       case Live => s.objs[o].count > 0
       case Doomed(t) => s.objs[o].count == 0 && t < |s.threads| && s.threads[t] == Delete(o)
       case Gone => s.objs[o].count == 0
  }

  ghost predicate Inv(s: State) {
    && (forall t :: 0 <= t < |s.threads| ==> ThreadOk(s, t))
    && (forall p :: 0 <= p < |s.ptrs| ==> PtrOk(s, p))
    && (forall o :: 0 <= o < |s.objs| ==> ObjOk(s, o))
  }

  // ---- What a step does to the references

  /** What a step adds to the references to `o`. */
  function Gain(s: State, t: Tid, o: nat): int
    requires t < |s.threads|
  {
    match s.threads[t]
    case IncNew(x, _) => if x == o then 1 else 0
    case GimmeInc(_, _, x) => if x == o then 1 else 0
    case Dec(x) => if x == o then -1 else 0
    case _ => 0
  }

  /** The value that a step changes, if any, and the thread's reference in flight. */
  lemma {:induction false} StepValues(s: State, t: Tid, op: Op)
    requires Enabled(s, t, op)
    ensures var s', pc := Step(s, t, op), s.threads[t];
            && |s'.threads| == |s.threads| && Flights(s') == Flights(s)[t := Flight(s'.threads[t])]
            && (if pc.SwapValue? then Values(s') == Values(s)[pc.p := pc.r] && Flight(s'.threads[t]) == s.ptrs[pc.p].value
                else if pc.Init? then Values(s') == Values(s) + [pc.r] && Flight(s'.threads[t]) == Null
                else if pc.Idle? && op.Destroy? then Values(s') == Values(s)[op.p := Null] && Flight(s'.threads[t]) == s.ptrs[op.p].value
                else Values(s') == Values(s))
  {
  }

  lemma {:induction false} StepFlight(s: State, t: Tid, op: Op, o: nat)
    requires Enabled(s, t, op)
    ensures var s', pc := Step(s, t, op), s.threads[t];
            |s'.threads| == |s.threads| &&
            (!pc.SwapValue? && !pc.Init? && !(pc.Idle? && op.Destroy?) ==>
               (if Flight(s'.threads[t]) == To(o) then 1 else 0) == (if Flight(pc) == To(o) then 1 else 0) + Gain(s, t, o))
  {
  }

  lemma {:induction false} StepRefs(s: State, t: Tid, op: Op, o: nat)
    requires Enabled(s, t, op)
    ensures Refs(Step(s, t, op), o) == Refs(s, o) + Gain(s, t, o)
  {
    hide Step, Count;
    var s', pc := Step(s, t, op), s.threads[t];
    StepValues(s, t, op);
    StepFlight(s, t, op, o);
    CountUpdate(Flights(s), t, Flight(s'.threads[t]), o);
    if pc.SwapValue? {
      Bounds(s, t, op);
      CountUpdate(Values(s), pc.p, pc.r, o);
    } else if pc.Init? {
      CountAppend(Values(s), pc.r, o);
    } else if pc.Idle? && op.Destroy? {
      Bounds(s, t, op);
      CountUpdate(Values(s), op.p, Null, o);
    }
  }

  lemma {:induction false} Bounds(s: State, t: Tid, op: Op)
    requires Enabled(s, t, op)
    ensures s.threads[t].SwapValue? ==> s.threads[t].p < |s.ptrs|
    ensures s.threads[t].Idle? && op.Destroy? ==> op.p < |s.ptrs|
  {
  }

  /** An object that a pointer holds, or that a thread has in flight, is counted. */
  lemma {:induction false} HeldIsLive(s: State, o: nat)
    requires o < |s.objs| && ObjOk(s, o)
    requires (exists p :: 0 <= p < |s.ptrs| && s.ptrs[p].value == To(o)) || (exists t :: 0 <= t < |s.threads| && Flight(s.threads[t]) == To(o))
    ensures s.objs[o].count > 0 && s.objs[o].fate == Live
  {
    hide Count;
    if p :| 0 <= p < |s.ptrs| && s.ptrs[p].value == To(o) {
      CountUpdate(Values(s), p, Null, o);
    } else {
      var t :| 0 <= t < |s.threads| && Flight(s.threads[t]) == To(o);
      CountUpdate(Flights(s), t, Null, o);
    }
  }

  // ---- Every step keeps the invariant

  /** What thread `t` is about to touch is as it expects. */
  ghost predicate Sound(s: State, t: Tid) {
    && t < |s.threads| && ThreadOk(s, t)
    && (s.threads[t].GimmeInc? ==> s.threads[t].o < |s.objs| && s.objs[s.threads[t].o].fate == Live)
    && (s.threads[t].Dec? ==> s.threads[t].o < |s.objs| && s.objs[s.threads[t].o].fate == Live && s.objs[s.threads[t].o].count > 0)
    && (s.threads[t].Delete? ==> s.objs[s.threads[t].o].count == 0)
  }

  lemma {:induction false} IsSound(s: State, t: Tid)
    requires Inv(s) && t < |s.threads|
    ensures Sound(s, t)
  {
    hide Refs;
    assert ThreadOk(s, t);
    var pc := s.threads[t];
    if pc.GimmeInc? {
      assert PtrOk(s, pc.src);
      HeldIsLive(s, pc.o);
    } else if pc.Dec? {
      HeldIsLive(s, pc.o);
    } else if pc.Delete? {
      assert ObjOk(s, pc.o);
    }
  }

  lemma {:induction false} StepObj(s: State, t: Tid, op: Op, o: nat)
    requires Enabled(s, t, op) && Sound(s, t) && o < |Step(s, t, op).objs|
    requires o < |s.objs| ==> ObjOk(s, o)
    requires o >= |s.objs| ==> Refs(s, o) == 0
    ensures ObjOk(Step(s, t, op), o)
  {
    hide Refs;
    StepRefs(s, t, op, o);
  }

  /** Nothing refers to an object that is not there yet. */
  lemma {:induction false} NoRefsYet(s: State, o: nat)
    requires Inv(s) && o >= |s.objs|
    ensures Refs(s, o) == 0
  {
    hide Count, ObjOk;
    forall p | 0 <= p < |s.ptrs| ensures s.ptrs[p].value != To(o) {
      assert PtrOk(s, p);
    }
    forall t | 0 <= t < |s.threads| ensures Flight(s.threads[t]) != To(o) {
      assert ThreadOk(s, t);
    }
    NoneCounted(Values(s), o);
    NoneCounted(Flights(s), o);
  }

  lemma {:induction false} NoneCounted(rs: seq<Ref>, o: nat)
    requires forall i :: 0 <= i < |rs| ==> rs[i] != To(o)
    ensures Count(rs, o) == 0
  {
    if rs != [] {
      NoneCounted(rs[1..], o);
    }
  }

  lemma {:induction false} StepPtr(s: State, t: Tid, op: Op, p: nat)
    requires Enabled(s, t, op) && Sound(s, t) && p < |Step(s, t, op).ptrs|
    requires p < |s.ptrs| ==> PtrOk(s, p)
    ensures PtrOk(Step(s, t, op), p)
  {
  }

  lemma {:induction false} StepUses(s: State, t: Tid, op: Op, p: nat)
    requires Enabled(s, t, op) && (Uses(s.threads[t], p) ==> p < |s.ptrs| && s.ptrs[p].alive)
    ensures var s' := Step(s, t, op);
            t < |s'.threads| && (Uses(s'.threads[t], p) ==> p < |s'.ptrs| && s'.ptrs[p].alive)
  {
  }

  lemma {:induction false} StepLocks(s: State, t: Tid, op: Op, p: nat)
    requires Enabled(s, t, op) && (Locks(s.threads[t], p) ==> p < |s.ptrs| && s.ptrs[p].lock == Held(t))
    ensures var s' := Step(s, t, op);
            t < |s'.threads| && (Locks(s'.threads[t], p) ==> p < |s'.ptrs| && s'.ptrs[p].lock == Held(t))
  {
  }

  lemma {:induction false} StepTouches(s: State, t: Tid, op: Op)
    requires Enabled(s, t, op) && Sound(s, t)
    requires s.threads[t].SwapValue? ==> PtrOk(s, s.threads[t].p)
    requires s.threads[t].GimmeRead? ==> PtrOk(s, s.threads[t].src)
    requires s.threads[t].Idle? && op.Destroy? ==> PtrOk(s, op.p)
    ensures var s' := Step(s, t, op);
            t < |s'.threads| && var pc := s'.threads[t];
            && (pc.GimmeInc? ==> pc.src < |s'.ptrs| && s'.ptrs[pc.src].value == To(pc.o))
            && (pc.IncNew? ==> pc.o < |s'.objs| && s'.objs[pc.o] == Obj(0, New(t)))
            && (pc.Delete? ==> pc.o < |s'.objs| && s'.objs[pc.o].fate == Doomed(t))
            && (Flight(pc).To? ==> Flight(pc).o < |s'.objs|)
  {
    hide Uses, Locks;
  }

  lemma {:induction false} StepSelf(s: State, t: Tid, op: Op)
    requires Enabled(s, t, op) && Sound(s, t)
    requires s.threads[t].SwapValue? ==> PtrOk(s, s.threads[t].p)
    requires s.threads[t].GimmeRead? ==> PtrOk(s, s.threads[t].src)
    requires s.threads[t].Idle? && op.Destroy? ==> PtrOk(s, op.p)
    ensures t < |Step(s, t, op).threads| && ThreadOk(Step(s, t, op), t)
  {
    hide Step, Uses, Locks, PtrOk;
    StepTouches(s, t, op);
    var s' := Step(s, t, op);
    forall p: nat | Uses(s'.threads[t], p) ensures p < |s'.ptrs| && s'.ptrs[p].alive {
      StepUses(s, t, op, p);
    }
    forall p: nat | Locks(s'.threads[t], p) ensures p < |s'.ptrs| && s'.ptrs[p].lock == Held(t) {
      StepLocks(s, t, op, p);
    }
  }

  lemma {:induction false} OtherUses(s: State, t: Tid, op: Op, u: Tid, p: nat)
    requires Enabled(s, t, op) && Sound(s, t) && u < |s.threads| && u != t && ThreadOk(s, u) && Uses(s.threads[u], p)
    ensures p < |Step(s, t, op).ptrs| && Step(s, t, op).ptrs[p].alive
  {
    hide Locks;
  }

  lemma {:induction false} OtherLocks(s: State, t: Tid, op: Op, u: Tid, p: nat)
    requires Enabled(s, t, op) && Sound(s, t) && u < |s.threads| && u != t && ThreadOk(s, u) && Locks(s.threads[u], p)
    ensures p < |Step(s, t, op).ptrs| && Step(s, t, op).ptrs[p].lock == Held(u)
  {
    hide Uses;
  }

  /** Another thread finds its pointers alive, its locks its own and its objects as they were. */
  lemma {:induction false} StepOther(s: State, t: Tid, op: Op, u: Tid)
    requires Enabled(s, t, op) && Sound(s, t) && u < |s.threads| && u != t && ThreadOk(s, u)
    ensures u < |Step(s, t, op).threads| && ThreadOk(Step(s, t, op), u)
  {
    hide Step, Uses, Locks, Sound, Enabled;
    OtherTouches(s, t, op, u);
    forall p: nat | Uses(s.threads[u], p) ensures p < |Step(s, t, op).ptrs| && Step(s, t, op).ptrs[p].alive {
      OtherUses(s, t, op, u, p);
    }
    forall p: nat | Locks(s.threads[u], p) ensures p < |Step(s, t, op).ptrs| && Step(s, t, op).ptrs[p].lock == Held(u) {
      OtherLocks(s, t, op, u, p);
    }
  }

  lemma {:induction false} OtherTouches(s: State, t: Tid, op: Op, u: Tid)
    requires Enabled(s, t, op) && Sound(s, t) && u < |s.threads| && u != t && ThreadOk(s, u)
    ensures var s' := Step(s, t, op);
            u < |s'.threads| && var pc := s'.threads[u];
            && pc == s.threads[u]
            && (pc.GimmeInc? ==> pc.src < |s'.ptrs| && s'.ptrs[pc.src].value == To(pc.o))
            && (pc.IncNew? ==> pc.o < |s'.objs| && s'.objs[pc.o] == Obj(0, New(u)))
            && (pc.Delete? ==> pc.o < |s'.objs| && s'.objs[pc.o].fate == Doomed(u))
            && (Flight(pc).To? ==> Flight(pc).o < |s'.objs|)
  {
  }

  lemma {:induction false} StepInv(s: State, t: Tid, op: Op)
    requires Inv(s) && Enabled(s, t, op)
    ensures Inv(Step(s, t, op))
  {
    hide Step, Enabled, ThreadOk, PtrOk, ObjOk, Sound;
    IsReady(s, t, op);
    IsSound(s, t);
    var s' := Step(s, t, op);
    forall u | 0 <= u < |s'.threads| ensures ThreadOk(s', u) {
      if u == t {
        StepSelf(s, t, op);
      } else {
        StepOther(s, t, op, u);
      }
    }
    forall p | 0 <= p < |s'.ptrs| ensures PtrOk(s', p) {
      StepPtr(s, t, op, p);
    }
    forall o | 0 <= o < |s'.objs| ensures ObjOk(s', o) {
      if o >= |s.objs| {
        NoRefsYet(s, o);
      }
      StepObj(s, t, op, o);
    }
  }

  lemma {:induction false} IsReady(s: State, t: Tid, op: Op)
    requires Enabled(s, t, op)
    ensures t < |s.threads| == |Step(s, t, op).threads|
    ensures s.threads[t].SwapValue? ==> s.threads[t].p < |s.ptrs|
    ensures s.threads[t].GimmeRead? ==> s.threads[t].src < |s.ptrs|
    ensures s.threads[t].Idle? && op.Destroy? ==> op.p < |s.ptrs|
  {
  }

  // ---- Runs

  datatype Event = Event(t: Tid, op: Op)

  ghost predicate Initial(s: State) {
    s.ptrs == [] && s.objs == [] && forall t :: 0 <= t < |s.threads| ==> s.threads[t] == Idle
  }

  /** `ss` are the states of a run whose steps are `es`, in any interleaving of any number of threads. */
  ghost predicate IsRun(ss: seq<State>, es: seq<Event>) {
    && |ss| == |es| + 1 && Initial(ss[0])
    && forall k :: 0 <= k < |es| ==> Enabled(ss[k], es[k].t, es[k].op) && ss[k + 1] == Step(ss[k], es[k].t, es[k].op)
  }

  lemma {:induction false} RunInv(ss: seq<State>, es: seq<Event>)
    requires IsRun(ss, es)
    ensures Inv(ss[|es|])
  {
    hide Inv, Initial, Enabled, Step;
    if es == [] {
      InitialInv(ss[0]);
    } else {
      var k := |es| - 1;
      assert IsRun(ss[..k + 1], es[..k]);
      RunInv(ss[..k + 1], es[..k]);
      StepInv(ss[k], es[k].t, es[k].op);
    }
  }

  lemma {:induction false} InitialInv(s: State)
    requires Initial(s)
    ensures Inv(s)
  {
  }

  /** After any run, an object's count is the number of pointers holding it and references to it in flight, and an
      object with neither is new in some thread's hand, about to be deleted by exactly the thread that took the count
      to zero, or deleted: none is forgotten. */
  lemma {:induction false} CountIsRefs(ss: seq<State>, es: seq<Event>, o: nat)
    requires IsRun(ss, es) && o < |ss[|es|].objs|
    ensures var s := ss[|es|];
            && s.objs[o].count == Refs(s, o)
            && (Refs(s, o) == 0 ==>
                  || (exists t :: 0 <= t < |s.threads| && s.threads[t].IncNew? && s.threads[t].o == o)
                  || (exists t :: 0 <= t < |s.threads| && s.threads[t] == Delete(o))
                  || s.objs[o].fate == Gone)
            && forall t, u :: 0 <= t < |s.threads| && 0 <= u < |s.threads| && s.threads[t] == Delete(o) && s.threads[u] == Delete(o) ==> t == u
  {
    hide Initial, Enabled, Step, Refs;
    RunInv(ss, es);
    var s := ss[|es|];
    assert ObjOk(s, o);
    forall t, u | 0 <= t < |s.threads| && 0 <= u < |s.threads| && s.threads[t] == Delete(o) && s.threads[u] == Delete(o) ensures t == u {
      assert ThreadOk(s, t) && ThreadOk(s, u);
    }
  }

  /** The object that a thread's next step increments, decrements or deletes. */
  function Target(pc: Pc): Ref {
    match pc
    case IncNew(o, _) => To(o)
    case GimmeInc(_, _, o) => To(o)
    case Dec(o) => To(o)
    case Delete(o) => To(o)
    case _ => Null
  }

  /** After any run, no thread is about to touch the count of a deleted object or to delete it again, and none holds it. */
  lemma {:induction false} NoUseAfterFree(ss: seq<State>, es: seq<Event>, o: nat)
    requires IsRun(ss, es) && o < |ss[|es|].objs| && ss[|es|].objs[o].fate == Gone
    ensures var s := ss[|es|];
            && (forall t :: 0 <= t < |s.threads| ==> Target(s.threads[t]) != To(o) && Flight(s.threads[t]) != To(o))
            && (forall p :: 0 <= p < |s.ptrs| ==> s.ptrs[p].value != To(o))
  {
    hide Initial, Enabled, Step, Refs;
    RunInv(ss, es);
    var s := ss[|es|];
    assert ObjOk(s, o);
    forall t | 0 <= t < |s.threads| ensures Target(s.threads[t]) != To(o) && Flight(s.threads[t]) != To(o) {
      IsSound(s, t);
      if Flight(s.threads[t]) == To(o) {
        HeldIsLive(s, o);
      }
    }
    forall p | 0 <= p < |s.ptrs| ensures s.ptrs[p].value != To(o) {
      if s.ptrs[p].value == To(o) {
        HeldIsLive(s, o);
      }
    }
  }

  lemma {:induction false} StepGone(s: State, t: Tid, op: Op, o: nat)
    requires Inv(s) && Enabled(s, t, op) && o < |s.objs| && s.objs[o].fate == Gone
    ensures o < |Step(s, t, op).objs| && Step(s, t, op).objs[o].fate == Gone && s.threads[t] != Delete(o)
  {
    hide Inv;
    IsSound(s, t);
  }

  lemma {:induction false} GoneForGood(ss: seq<State>, es: seq<Event>, i: nat, j: nat, o: nat)
    requires IsRun(ss, es) && i <= j <= |es| && o < |ss[i].objs| && ss[i].objs[o].fate == Gone
    ensures o < |ss[j].objs| && ss[j].objs[o].fate == Gone
    decreases j
  {
    hide Inv, Initial, Enabled, Step;
    if i < j {
      GoneForGood(ss, es, i, j - 1, o);
      assert IsRun(ss[..j], es[..j - 1]);
      RunInv(ss[..j], es[..j - 1]);
      StepGone(ss[j - 1], es[j - 1].t, es[j - 1].op, o);
    }
  }

  /** In any run an object is deleted at most once. */
  lemma {:induction false} DeletedOnce(ss: seq<State>, es: seq<Event>, i: nat, j: nat, o: nat)
    requires IsRun(ss, es) && i < j < |es| && es[i].t < |ss[i].threads| && ss[i].threads[es[i].t] == Delete(o)
    ensures es[j].t < |ss[j].threads| && ss[j].threads[es[j].t] != Delete(o)
  {
    hide Inv, Initial;
    assert ss[i + 1] == Step(ss[i], es[i].t, es[i].op);
    GoneForGood(ss, es, i + 1, j, o);
    assert IsRun(ss[..j + 1], es[..j]);
    RunInv(ss[..j + 1], es[..j]);
    StepGone(ss[j], es[j].t, es[j].op, o);
  }
}
