/** The pending flag, snooze and wake protocol between requesters and one worker, as a step system. The background
    fetcher follows it with a set of pending vbuckets; the connection notifier follows it with connections to look at. */
module Notifier {

  type Vb = nat

  /** A requester inserts its vbucket, tries to raise the flag, and wakes the worker if it was the one to raise it. */
  datatype Requester = Ready | Inserted(vb: Vb) | Raised

  /** The worker: waiting to be run, or at a place of its `run`. */
  datatype Worker =
    | Waiting
    | Clear                                // lower the flag
    | Drain                                // take all pending
    | Work(batch: set<Vb>)                 // fetch each, or put it back if its file is not there yet
    | PutBack(batch: set<Vb>, vb: Vb)      // insert it again
    | Reraise(batch: set<Vb>, vb: Vb)      // and raise the flag
    | Check                                // nothing new?
    | Snooze                               // sleep a while
    | Recheck                              // anything new right before the snooze?

  /** `due` is whether the worker's wake time has come. `notified` follows the pending vbuckets whose requester has tried to
      raise the flag; `asked` the requests not fetched yet. */
  datatype State = State(flag: bool, pending: set<Vb>, due: bool, worker: Worker, requesters: seq<Requester>,
                         notified: set<Vb>, asked: set<Vb>)

  datatype Event =
    | Request(r: nat, vb: Vb)
    | Notify(r: nat)
    | Wake(r: nat)
    | Start                      // the executor runs the worker, since it is due or its sleep is over
    | Take(vb: Vb, ready: bool)  // the worker looks at one vbucket of its batch
    | Run                        // the worker's other steps

  predicate Enabled(s: State, e: Event) {
    match e
    case Request(r, _) => r < |s.requesters| && s.requesters[r].Ready?
    case Notify(r) => r < |s.requesters| && s.requesters[r].Inserted?
    case Wake(r) => r < |s.requesters| && s.requesters[r].Raised?
    case Start => s.worker.Waiting?
    case Take(vb, _) => s.worker.Work? && vb in s.worker.batch
    case Run => !s.worker.Waiting? && (s.worker.Work? ==> s.worker.batch == {})
  }

  function Step(s: State, e: Event): State
    requires Enabled(s, e)
  {
    match e
    case Request(r, vb) =>
      s.(pending := s.pending + {vb}, asked := s.asked + {vb}, requesters := s.requesters[r := Inserted(vb)])
    case Notify(r) =>
      s.(flag := true, notified := s.notified + (s.pending * {s.requesters[r].vb}),
         requesters := s.requesters[r := if s.flag then Ready else Raised])
    case Wake(r) => s.(due := true, requesters := s.requesters[r := Ready])
    case Start => s.(due := true, worker := Clear)
    case Take(vb, ready) =>
      if ready then s.(worker := Work(s.worker.batch - {vb}), asked := if vb in s.pending then s.asked else s.asked - {vb})
      else s.(worker := PutBack(s.worker.batch - {vb}, vb))
    case Run =>
      match s.worker
      case Clear => s.(flag := false, worker := Drain)
      case Drain => s.(pending := {}, notified := {}, worker := Work(s.pending))
      case Work(_) => s.(worker := Check)
      case PutBack(b, vb) => s.(pending := s.pending + {vb}, worker := Reraise(b, vb))
      case Reraise(b, vb) => s.(flag := true, notified := s.notified + (s.pending * {vb}), worker := Work(b))
      case Check => s.(worker := if s.flag then Waiting else Snooze)
      case Snooze => s.(due := false, worker := Recheck)
      case Recheck => s.(due := s.due || s.flag, worker := Waiting)
      case Waiting => s
  }

  // ---- The invariant

  /** The worker has `vb` in hand, to fetch or to put back. */
  predicate InHand(w: Worker, vb: Vb) {
    (w.Work? && vb in w.batch) || (w.PutBack? && (vb in w.batch || vb == w.vb)) || (w.Reraise? && vb in w.batch)
  }

  /** Past lowering the flag and before taking what is pending, a notified vbucket needs no flag. Waiting and not due, the
      worker needs a requester that raised the flag to wake it. */
  ghost predicate Inv(s: State) {
    && s.notified <= s.pending
    && (s.notified != {} ==> s.flag || s.worker.Drain?)
    && (s.worker.Waiting? && s.flag && !s.due ==> exists r :: 0 <= r < |s.requesters| && s.requesters[r].Raised?)
    && (!s.worker.Waiting? && !s.worker.Recheck? ==> s.due)
    && (forall vb :: vb in s.asked ==> vb in s.pending || InHand(s.worker, vb))
    && (forall vb :: vb in s.pending && vb !in s.notified ==>
          (exists r :: 0 <= r < |s.requesters| && s.requesters[r] == Inserted(vb)) || (s.worker.Reraise? && s.worker.vb == vb))
  }

  lemma {:induction false} StepFlag(s: State, e: Event)
    requires Inv(s) && Enabled(s, e)
    ensures var s' := Step(s, e);
            && s'.notified <= s'.pending && (s'.notified != {} ==> s'.flag || s'.worker.Drain?)
            && (!s'.worker.Waiting? && !s'.worker.Recheck? ==> s'.due)
  {
  }

  lemma {:induction false} StepWake(s: State, e: Event)
    requires Inv(s) && Enabled(s, e) && Step(s, e).worker.Waiting? && Step(s, e).flag && !Step(s, e).due
    ensures exists r :: 0 <= r < |Step(s, e).requesters| && Step(s, e).requesters[r].Raised?
  {
    var s' := Step(s, e);
    if e.Notify? && !s.flag {
      assert s'.requesters[e.r].Raised?;
    } else {
      var r :| 0 <= r < |s.requesters| && s.requesters[r].Raised?;
      assert s'.requesters[r].Raised?;
    }
  }

  lemma {:induction false} StepAsked(s: State, e: Event, vb: Vb)
    requires Inv(s) && Enabled(s, e) && vb in Step(s, e).asked
    ensures vb in Step(s, e).pending || InHand(Step(s, e).worker, vb)
  {
  }

  lemma {:induction false} StepPending(s: State, e: Event, vb: Vb)
    requires Inv(s) && Enabled(s, e) && vb in Step(s, e).pending && vb !in Step(s, e).notified
    ensures var s' := Step(s, e);
            (exists r :: 0 <= r < |s'.requesters| && s'.requesters[r] == Inserted(vb)) || (s'.worker.Reraise? && s'.worker.vb == vb)
  {
    var s' := Step(s, e);
    if e.Request? && e.vb == vb {
      assert s'.requesters[e.r] == Inserted(vb);
    } else if vb in s.pending && vb !in s.notified && !(s.worker.Reraise? && s.worker.vb == vb) {
      var r :| 0 <= r < |s.requesters| && s.requesters[r] == Inserted(vb);
      assert s'.requesters[r] == Inserted(vb);
    }
  }

  lemma {:induction false} StepInv(s: State, e: Event)
    requires Inv(s) && Enabled(s, e)
    ensures Inv(Step(s, e))
  {
    StepFlag(s, e);
    if Step(s, e).worker.Waiting? && Step(s, e).flag && !Step(s, e).due {
      StepWake(s, e);
    }
    forall vb | vb in Step(s, e).asked ensures vb in Step(s, e).pending || InHand(Step(s, e).worker, vb) {
      StepAsked(s, e, vb);
    }
    forall vb | vb in Step(s, e).pending && vb !in Step(s, e).notified
      ensures (exists r :: 0 <= r < |Step(s, e).requesters| && Step(s, e).requesters[r] == Inserted(vb)) ||
              (Step(s, e).worker.Reraise? && Step(s, e).worker.vb == vb)
    {
      StepPending(s, e, vb);
    }
  }

  // ---- Runs

  /** `start`: the flag is raised and the worker scheduled. */
  ghost predicate Initial(s: State) {
    && s.flag && s.due && s.worker == Waiting && s.pending == {} && s.notified == {} && s.asked == {}
    && forall r :: 0 <= r < |s.requesters| ==> s.requesters[r] == Ready
  }

  ghost predicate IsRun(ss: seq<State>, es: seq<Event>) {
    && |ss| == |es| + 1 && Initial(ss[0])
    && forall k :: 0 <= k < |es| ==> Enabled(ss[k], es[k]) && ss[k + 1] == Step(ss[k], es[k])
  }

  lemma {:induction false} RunInv(ss: seq<State>, es: seq<Event>)
    requires IsRun(ss, es)
    ensures Inv(ss[|es|])
  {
    hide Inv, Enabled, Step, Initial;
    if es == [] {
      InitialInv(ss[0]);
    } else {
      var k := |es| - 1;
      assert IsRun(ss[..k + 1], es[..k]);
      RunInv(ss[..k + 1], es[..k]);
      StepInv(ss[k], es[k]);
    }
  }

  lemma {:induction false} InitialInv(s: State)
    requires Initial(s)
    ensures Inv(s)
  {
  }

  /** No stranded request: after any run, if the worker is asleep while a request is still pending, then its requester has
      not tried to raise the flag yet, or some requester has raised it and has its wake still to issue. */
  lemma {:induction false} NoStrandedRequest(ss: seq<State>, es: seq<Event>, vb: Vb)
    requires IsRun(ss, es)
    ensures var s := ss[|es|];
            s.worker.Waiting? && !s.due && vb in s.asked ==>
              && vb in s.pending
              && (exists r :: 0 <= r < |s.requesters| && (s.requesters[r] == Inserted(vb) || s.requesters[r].Raised?))
  {
    hide Initial, Enabled, Step;
    RunInv(ss, es);
    var s := ss[|es|];
    if s.worker.Waiting? && !s.due && vb in s.asked && vb !in s.notified {
      var r :| 0 <= r < |s.requesters| && s.requesters[r] == Inserted(vb);
    }
  }

  /** A notified request needs no more than that wake. */
  lemma {:induction false} NotifiedIsWoken(ss: seq<State>, es: seq<Event>, vb: Vb)
    requires IsRun(ss, es)
    ensures var s := ss[|es|];
            s.worker.Waiting? && !s.due && vb in s.notified ==> exists r :: 0 <= r < |s.requesters| && s.requesters[r].Raised?
  {
    hide Initial, Enabled, Step, InHand;
    RunInv(ss, es);
  }

  // ---- What a pass of the worker achieves

  /** The batch still to be looked at, while the worker is at it. */
  predicate AtBatch(w: Worker) { w.Work? || w.PutBack? || w.Reraise? }

  /** The worker goes from taking all pending, at `a`, to the end of that batch, at `b`. */
  ghost predicate Pass(ss: seq<State>, es: seq<Event>, a: nat, b: nat) {
    && IsRun(ss, es) && a < b <= |es| && ss[a].worker.Drain? && es[a] == Run && ss[b].worker.Check?
    && forall k :: a < k < b ==> AtBatch(ss[k].worker)
  }

  /** The request is in the batch and not put back, or it is fetched. */
  predicate InWork(s: State, vb: Vb) {
    && AtBatch(s.worker) && vb !in s.pending && (s.worker.PutBack? || s.worker.Reraise? ==> s.worker.vb != vb)
    && (vb in s.worker.batch || vb !in s.asked)
  }

  /** The event neither asks for the vbucket again nor finds its file missing. */
  predicate Undisturbed(e: Event, vb: Vb) {
    !(e.Request? && e.vb == vb) && !(e.Take? && e.vb == vb && !e.ready)
  }

  lemma {:induction false} StepInWork(s: State, e: Event, vb: Vb)
    requires Enabled(s, e) && InWork(s, vb) && Undisturbed(e, vb)
    ensures var s' := Step(s, e); if s'.worker.Check? then vb !in s'.asked else AtBatch(s'.worker) ==> InWork(s', vb)
  {
  }

  lemma {:induction false} WhileInWork(ss: seq<State>, es: seq<Event>, a: nat, b: nat, k: nat, vb: Vb)
    requires Pass(ss, es, a, b) && a < k <= b && vb in ss[a].pending && forall j :: a <= j < b ==> Undisturbed(es[j], vb)
    ensures if k < b then InWork(ss[k], vb) else vb !in ss[k].asked
    decreases k
  {
    hide Initial, Undisturbed, InWork;
    var j := k - 1;
    assert Enabled(ss[j], es[j]) && ss[j + 1] == Step(ss[j], es[j]) && Undisturbed(es[j], vb);
    if j == a {
      StartsWork(ss[a], vb);
    } else {
      WhileInWork(ss, es, a, b, j, vb);
      StepInWork(ss[j], es[j], vb);
    }
  }

  lemma {:induction false} StartsWork(s: State, vb: Vb)
    requires s.worker.Drain? && vb in s.pending
    ensures InWork(Step(s, Run), vb)
  {
  }

  /** A pass fetches all that was pending when it began: in any run, a request pending then is no longer outstanding at its
      end, unless its file was not there or it was asked for again meanwhile. */
  lemma {:induction false} PassFetches(ss: seq<State>, es: seq<Event>, a: nat, b: nat, vb: Vb)
    requires Pass(ss, es, a, b) && vb in ss[a].pending && forall j :: a <= j < b ==> Undisturbed(es[j], vb)
    ensures vb !in ss[b].asked
  {
    hide Initial, Enabled, Step, Undisturbed, InWork;
    WhileInWork(ss, es, a, b, b, vb);
  }
}
