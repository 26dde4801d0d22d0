/** Any sequence of calls on a new manager, with the history of what it handed to each cursor. */
module Clients {
  import opened Log
  import opened Checkpoints
  import opened CheckpointLaws
  import opened Runs
  import opened SafeRemoval
  import opened SafeCollapses
  import opened Operations
  import opened CheckpointManagers
  import opened Effects
  import Registration
  import Snapshots

  datatype Call =
    | QueueDirty(active: bool, maxCheckpoints: nat, wantNew: bool, item: Item, genSeqno: bool)
    | NextItem(n: Name)
    | GetAllItems(n: Name)
    | CloseOpen
    | AddNew(id: nat, snapStart: nat, snapEnd: nat)
    | CreateNew
    | UpdateEnd(snapEnd: nat)
    | CreateSnapshot(snapStart: nat, snapEnd: nat)
    | ResetRange
    | Register(n: Name, id: nat, alwaysFromBeginning: bool, sendEnd: bool)
    | RegisterBySeqno(n: Name, startBySeqno: nat, sendEnd: bool)
    | Unregister(n: Name)
    | ItemsPersisted
    | CollapseClosed
    | CollapseAll(id: nat)
    | CleanUp(active: bool, replica: bool, maxCheckpoints: nat, wantNew: bool, keepClosed: bool, memoryLow: bool, mergeSupported: bool)

  /** Mutations handed out: to whom, and which. */
  type Delivery = (Name, seq<Item>)

  /** All that a cursor name was handed, in order. */
  function DeliveredTo(log: seq<Delivery>, n: Name): seq<Item> {
    if log == [] then []
    else DeliveredTo(log[..|log| - 1], n) + if log[|log| - 1].0 == n then log[|log| - 1].1 else []
  }

  ghost predicate EndsWith(s: seq<Item>, t: seq<Item>) {
    |t| <= |s| && s[|s| - |t|..] == t
  }

  // ---- Each call is a run

  lemma {:induction false} SingleIsRun(v: View, a: Action, w: View)
    requires Inv(v) && PERSISTENCE in v.cursors && Enabled(v, a) && w == NextView(v, a)
    ensures Plays(v, [a], w)
  {
    hide Inv, Enabled, NextView, Plays;
    KeepsPersistence(v, a);
    PlaysOne(v, a, w);
  }

  lemma {:induction false} KeepsPersistence(v: View, a: Action)
    requires Inv(v) && PERSISTENCE in v.cursors && Enabled(v, a)
    ensures PERSISTENCE in NextView(v, a).cursors
  {
    hide ChksInv, Enqueue, Roll, RemovePrefix, Checkpoints.CollapseClosed, Checkpoints.CollapseAll, Step, LastPlace, Removable;
  }

  lemma {:induction false} JoinIsRun(v: View, n: Name, c: Cur, w: View)
    requires Inv(v) && PERSISTENCE in v.cursors && n != PERSISTENCE && w == Move(v, n, c) && Inv(w)
    ensures Did(v, [Join(n, c)], w, "", [], [])
  {
    hide ChksInv, Did, CurIn;
    assert CurIn(w.chks, w.cursors[n]);
    DidSilently(v, Join(n, c), w, "");
  }

  /** A call that took the view from `v` to `w`, handed mutations to at most one cursor and queued what it took. */
  ghost predicate Did(v: View, more: seq<Action>, w: View, n: Name, handed: seq<Item>, taken: seq<Item>) {
    && Plays(v, more, w) && QueuedItems(more) == taken
    && ((Silent(more) && handed == []) ||
        ((more == [Advance(n)] || more == [Drain(n)]) && n in v.cursors && CurIn(v.chks, v.cursors[n])
         && handed == Delta(v, more[0], n)))
  }

  lemma {:induction false} DidNothing(v: View, n: Name)
    requires Inv(v) && PERSISTENCE in v.cursors
    ensures Did(v, [], v, n, [], [])
  {
    hide Inv, Plays;
    PlaysNothing(v);
  }

  lemma {:induction false} DidSilently(v: View, a: Action, w: View, n: Name)
    requires Inv(v) && PERSISTENCE in v.cursors && Enabled(v, a) && w == NextView(v, a) && !a.Advance? && !a.Drain? && !a.Queue?
    ensures Did(v, [a], w, n, [], [])
  {
    hide Inv, Enabled, NextView, Plays;
    QueuedOfOne(a);
    SingleIsRun(v, a, w);
  }

  lemma {:induction false} DidQuietly(v: View, more: seq<Action>, w: View, n: Name)
    requires Plays(v, more, w) && Quiet(more)
    ensures Did(v, more, w, n, [], [])
  {
    hide Plays;
  }

  lemma {:induction false} DidNext(v: View, n: Name, w: View, qi: Item)
    requires Inv(v) && PERSISTENCE in v.cursors && n in v.cursors && CurIn(v.chks, v.cursors[n])
    requires w == Move(v, n, Step(v.chks, v.cursors[n]))
    requires if Ahead(v.chks, v.cursors[n]) == [] then qi == NO_ITEM
             else CurIn(w.chks, w.cursors[n]) && Ahead(v.chks, v.cursors[n]) == [qi] + Ahead(w.chks, w.cursors[n])
    ensures Did(v, [Advance(n)], w, n, Mutations([qi]), [])
  {
    hide ChksInv, Plays, Ahead, Step, AtEnd, Chk.Items, Chk.Size;
    QueuedOfOne(Advance(n));
    SingleIsRun(v, Advance(n), w);
    StepAhead(v.chks, v.cursors[n]);
    var d := Step(v.chks, v.cursors[n]);
    if AtEnd(v.chks, v.cursors[n]) {
      assert Mutations([NO_ITEM]) == [];
    } else {
      assert ([qi] + Ahead(w.chks, w.cursors[n]))[0] == qi;
      assert ([v.chks[d.chk].Items()[d.pos]] + Ahead(v.chks, d))[0] == v.chks[d.chk].Items()[d.pos];
    }
  }

  lemma {:induction false} DidDrain(v: View, n: Name, w: View)
    requires Inv(v) && PERSISTENCE in v.cursors && n in v.cursors && CurIn(v.chks, v.cursors[n])
    requires w == Move(v, n, LastPlace(v.chks, v.cursors[n]))
    ensures Did(v, [Drain(n)], w, n, Mutations(Ahead(v.chks, v.cursors[n])), [])
  {
    hide ChksInv, Plays, Ahead, LastPlace, MutsAhead;
    QueuedOfOne(Drain(n));
    SingleIsRun(v, Drain(n), w);
    AheadMutations(v.chks, v.cursors[n]);
  }

  // ---- The calls; one that the manager does not take is not made

  lemma {:induction false} ValidView(m: CheckpointManager)
    requires m.Valid()
    ensures Inv(m.view) && |m.view.chks| > 0 && PERSISTENCE in m.view.cursors
    ensures m.lastBySeqno == m.view.last && m.pCursorPreCheckpointId == m.view.preId && |m.checkpointList| == |m.view.chks|
    ensures m.checkpointList[|m.checkpointList| - 1].id == m.view.Back().id
  {
    hide ChksInv, CurIn;
  }

  lemma {:induction false} Findable(v: View, id: nat)
    requires Inv(v) && (Registration.FindChk(v.chks, id) < |v.chks| || Registration.FirstUnpersisted(v.chks, v.preId) < |v.chks|)
    ensures exists c :: c in v.chks && (c.id == id || v.preId < c.id)
  {
    hide Registration.FindChk, Registration.FirstUnpersisted;
    var i, j := Registration.FindChk(v.chks, id), Registration.FirstUnpersisted(v.chks, v.preId);
    if i < |v.chks| {
      assert v.chks[i] in v.chks;
    } else {
      assert v.chks[j] in v.chks && v.chks[j].id > 0;
    }
  }

  /** The mutations a call takes: at most one, and only from a call that queues one, which keeps all of the caller's item
      but a number that is to be generated. */
  ghost predicate TakesFrom(call: Call, taken: seq<Item>) {
    taken == [] ||
    (&& call.QueueDirty? && |taken| == 1 && taken[0] == call.item.(seqno := taken[0].seqno)
     && (!call.genSeqno ==> taken[0].seqno == call.item.seqno))
  }

  method DoQueue(m: CheckpointManager, active: bool, maxCheckpoints: nat, wantNew: bool, item: Item, genSeqno: bool)
      returns (r: QueueOutcome, taken: seq<Item>, ghost more: seq<Action>)
    requires m.Valid()
    modifies m
    ensures m.Valid() && Did(old(m.view), more, m.view, "", [], taken)
    ensures taken == if r.Done? then [item.(seqno := m.view.last)] else []
    ensures r.Done? ==> m.view.last == if genSeqno then old(m.view).last + 1 else item.seqno
  {
    hide CheckpointManager.Valid, Inv, Plays, Silent, QueuesItem, Takes, Opens, QueuedItems, Snapshots.Queued, Snapshots.Prepared, Snapshots.InRange;
    ghost var v := m.view;
    ValidView(m);
    r, taken, more := NoOpenCheckpoint, [], [];
    DidNothing(v, "");
    if item.IsMutation() && item.key != "" && (genSeqno || m.lastBySeqno < item.seqno) {
      r := m.QueueDirty(active, maxCheckpoints, wantNew, item, genSeqno);
      more := QueueIsRun(v, active, maxCheckpoints, wantNew, item, genSeqno);
      ValidView(m);
      if r.Done? {
        taken := [item.(seqno := m.lastBySeqno)];
      }
    }
  }

  method DoNext(m: CheckpointManager, n: Name) returns (handed: seq<Item>, ghost more: seq<Action>)
    requires m.Valid()
    modifies m
    ensures m.Valid() && Did(old(m.view), more, m.view, n, handed, [])
  {
    hide CheckpointManager.Valid, Inv, Did, Ahead, Step, AtEnd;
    ghost var v := m.view;
    ValidView(m);
    var qi, isLast := m.NextItem(n);
    if n in m.connCursors {
      handed, more := Mutations([qi]), [Advance(n)];
      DidNext(v, n, m.view, qi);
    } else {
      handed, more := [], [];
      DidNothing(v, n);
    }
  }

  method DoGetAll(m: CheckpointManager, n: Name) returns (handed: seq<Item>, ghost more: seq<Action>)
    requires m.Valid()
    modifies m
    ensures m.Valid() && Did(old(m.view), more, m.view, n, handed, [])
  {
    hide CheckpointManager.Valid, Inv, Did, Ahead, LastPlace;
    ghost var v := m.view;
    ValidView(m);
    var items, start, end := m.GetAllItemsForCursor(n);
    if n in m.connCursors {
      handed, more := Mutations(items), [Drain(n)];
      DidDrain(v, n, m.view);
    } else {
      handed, more := [], [];
      DidNothing(v, n);
    }
  }

  /** Closing, opening and the snapshot range. */
  method DoRange(m: CheckpointManager, call: Call) returns (ghost more: seq<Action>)
    requires m.Valid() && (call.CloseOpen? || call.AddNew? || call.CreateNew? || call.UpdateEnd? || call.CreateSnapshot? || call.ResetRange?)
    modifies m
    ensures m.Valid() && Did(old(m.view), more, m.view, "", [], [])
  {
    hide CheckpointManager.Valid, Inv, Did, Plays, Quiet, QueuedItems, Close, Roll, WithRange, ClosesBack, OpensNext, SetsRange, Snapshots.NextOpen,
         Snapshots.CreateSnapshot, Snapshots.ResetRange;
    ghost var v := m.view;
    ValidView(m);
    match call
    case CloseOpen =>
      m.CloseOpenCheckpoint();
      more := [Action.CloseOpen];
      DidSilently(v, Action.CloseOpen, m.view, "");
    case AddNew(id, s, e) =>
      if m.checkpointList[|m.checkpointList| - 1].id < id {
        m.AddNewCheckpoint(id, s, e);
        more := [RollOver(id, s, e)];
        DidSilently(v, RollOver(id, s, e), m.view, "");
      } else {
        more := [];
        DidNothing(v, "");
      }
    case CreateNew =>
      var id := m.CreateNewCheckpoint();
      more := OpenIsRun(v, v.Back().muts != []);
      DidQuietly(v, more, m.view, "");
    case UpdateEnd(e) =>
      m.UpdateCurrentSnapshotEnd(e);
      more := [SetRange(v.Back().snapStart, e)];
      DidSilently(v, SetRange(v.Back().snapStart, e), m.view, "");
    case CreateSnapshot(s, e) =>
      m.CreateSnapshot(s, e);
      more := SnapshotIsRun(v, s, e);
      DidQuietly(v, more, m.view, "");
    case ResetRange =>
      m.ResetSnapshotRange();
      more := ResetIsRun(v);
      DidQuietly(v, more, m.view, "");
  }

  /** Registering and unregistering; the persistence cursor stays as it was registered. */
  method DoRegister(m: CheckpointManager, call: Call) returns (ghost more: seq<Action>)
    requires m.Valid() && (call.Register? || call.RegisterBySeqno? || call.Unregister?) && call.n != PERSISTENCE
    modifies m
    ensures m.Valid() && Did(old(m.view), more, m.view, "", [], [])
  {
    hide CheckpointManager.Valid, Inv, Did, Plays, CurIn, Registration.Registered, AllMuts, MutsAhead, Registration.PlacedFor, Registration.StartsAfter, Chk.Items;
    ghost var v := m.view;
    ValidView(m);
    more := [];
    DidNothing(v, "");
    match call
    case Register(n, id, alwaysFromBeginning, sendEnd) =>
      var found := m.FindCheckpoint(id);
      var unpersisted := m.FindUnpersisted();
      if found < |m.checkpointList| || unpersisted < |m.checkpointList| {
        Findable(v, id);
        var r := m.RegisterCursor(n, id, alwaysFromBeginning, sendEnd);
        ValidView(m);
        more := [Join(n, m.view.cursors[n])];
        JoinIsRun(v, n, m.view.cursors[n], m.view);
      }
    case RegisterBySeqno(n, startBySeqno, sendEnd) =>
      var r := m.RegisterCursorBySeqno(n, startBySeqno, sendEnd);
      if r.Registered? {
        ValidView(m);
        more := [Join(n, m.view.cursors[n])];
        JoinIsRun(v, n, m.view.cursors[n], m.view);
      }
    case Unregister(n) =>
      var r := m.RemoveCursor(n);
      more := [Leave(n)];
      DidSilently(v, Leave(n), m.view, "");
  }

  /** Persisting, collapsing and cleaning up. */
  method DoMaintain(m: CheckpointManager, call: Call) returns (ghost more: seq<Action>)
    requires m.Valid() && (call.ItemsPersisted? || call.CollapseClosed? || call.CollapseAll? || call.CleanUp?)
    modifies m
    ensures m.Valid() && Did(old(m.view), more, m.view, "", [], [])
  {
    hide CheckpointManager.Valid, Inv, Did, Plays, Checkpoints.CollapseClosed, Checkpoints.CollapseAll, RemovePrefix, Quiet, QueuedItems, RemovesOldest,
         MergesClosed, MergesAll, OpensNext, Snapshots.NextOpen;
    ghost var v := m.view;
    ValidView(m);
    match call
    case ItemsPersisted =>
      m.ItemsPersisted();
      more := [Persisted];
      DidSilently(v, Persisted, m.view, "");
    case CollapseClosed =>
      m.CollapseClosedCheckpoints();
      more := [MergeClosed];
      DidSilently(v, MergeClosed, m.view, "");
    case CollapseAll(id) =>
      if id > 0 {
        m.CollapseCheckpoints(id);
        more := [MergeAll(id)];
        DidSilently(v, MergeAll(id), m.view, "");
      } else {
        more := [];
        DidNothing(v, "");
      }
    case CleanUp(active, replica, max, wantNew, keepClosed, memoryLow, mergeSupported) =>
      var unref, created, ready, k, kept := m.RemoveClosedUnrefCheckpoints(active, replica, max, wantNew, keepClosed, memoryLow, mergeSupported);
      if keepClosed && memoryLow && |ready.chks| <= max {
        more := OpenIsRun(v, created);
        DidQuietly(v, more, m.view, "");
      } else {
        ghost var w;
        more, w := CleanUpIsRun(v, created, k, keepClosed, max, mergeSupported && !keepClosed && replica);
        DidQuietly(v, more, m.view, "");
      }
  }

  /** Make one call. */
  method Do(m: CheckpointManager, call: Call) returns (n: Name, handed: seq<Item>, taken: seq<Item>, ghost more: seq<Action>)
    requires m.Valid()
    modifies m
    ensures m.Valid() && Did(old(m.view), more, m.view, n, handed, taken) && TakesFrom(call, taken)
  {
    hide CheckpointManager.Valid, Did;
    ValidView(m);
    n, handed, taken, more := "", [], [], [];
    DidNothing(m.view, n);
    match call
    case QueueDirty(active, maxCheckpoints, wantNew, item, genSeqno) =>
      var r;
      r, taken, more := DoQueue(m, active, maxCheckpoints, wantNew, item, genSeqno);
    case NextItem(c) =>
      n := c;
      handed, more := DoNext(m, c);
    case GetAllItems(c) =>
      n := c;
      handed, more := DoGetAll(m, c);
    case Register(c, _, _, _) => if c != PERSISTENCE { more := DoRegister(m, call); }
    case RegisterBySeqno(c, _, _) => if c != PERSISTENCE { more := DoRegister(m, call); }
    case Unregister(c) => if c != PERSISTENCE { more := DoRegister(m, call); }
    case CloseOpen => more := DoRange(m, call);
    case AddNew(_, _, _) => more := DoRange(m, call);
    case CreateNew => more := DoRange(m, call);
    case UpdateEnd(_) => more := DoRange(m, call);
    case CreateSnapshot(_, _) => more := DoRange(m, call);
    case ResetRange => more := DoRange(m, call);
    case _ => more := DoMaintain(m, call);
  }

  // ---- What was handed out is what the history says was given

  /** Each cursor's record is the last part of what was handed out under its name: all since it registered. */
  ghost predicate Faithful(log: seq<Delivery>, h: History) {
    forall n :: n in h.given ==> EndsWith(DeliveredTo(log, n), h.given[n])
  }

  lemma {:induction false} StepGiven(h: History, a: Action, h': History, n: Name)
    requires Tracked(h) && Steps(h, a, h') && n in h'.given
    ensures h'.given[n] == [] || (n in h.v.cursors && CurIn(h.v.chks, h.v.cursors[n]) && h'.given[n] == h.given[n] + Delta(h.v, a, n))
  {
    hide ChksInv, NextView, Enabled, Delta, Restarts, NextOwed, NextMissed;
  }

  lemma {:induction false} Handing(log: seq<Delivery>, n: Name, handed: seq<Item>, m: Name)
    ensures DeliveredTo(log + [(n, handed)], m) == DeliveredTo(log, m) + if m == n then handed else []
  {
    assert (log + [(n, handed)])[..|log|] == log;
  }

  lemma {:induction false} EndsWithMore(s: seq<Item>, t: seq<Item>, d: seq<Item>)
    requires EndsWith(s, t)
    ensures EndsWith(s + d, t + d)
  {
    assert (s + d)[|s + d| - |t + d|..] == s[|s| - |t|..] + d;
  }

  lemma {:induction false} DeltaElsewhere(v: View, a: Action, n: Name, m: Name)
    requires m in v.cursors && CurIn(v.chks, v.cursors[m]) && m != n
    requires a == Advance(n) || a == Drain(n) || (!a.Advance? && !a.Drain?)
    ensures Delta(v, a, m) == []
  {
  }

  lemma {:induction false} FaithfulAfter(log: seq<Delivery>, h: History, a: Action, h': History, n: Name, handed: seq<Item>)
    requires Tracked(h) && Steps(h, a, h') && Faithful(log, h)
    requires if a == Advance(n) || a == Drain(n) then n in h.v.cursors && CurIn(h.v.chks, h.v.cursors[n]) && handed == Delta(h.v, a, n)
             else !a.Advance? && !a.Drain? && handed == []
    ensures Faithful(log + [(n, handed)], h')
  {
    hide Steps, Delta, DeliveredTo, EndsWith, Inv, CurIn;
    forall m | m in h'.given ensures EndsWith(DeliveredTo(log + [(n, handed)], m), h'.given[m]) {
      StepGiven(h, a, h', m);
      Handing(log, n, handed, m);
      if h'.given[m] == [] {
        EndsWithNothing(DeliveredTo(log + [(n, handed)], m));
      } else {
        EndsWithMore(DeliveredTo(log, m), h.given[m], Delta(h.v, a, m));
        if m != n {
          DeltaElsewhere(h.v, a, n, m);
        } else if a != Advance(n) && a != Drain(n) {
          NoDelta(h.v, a, m);
        }
      }
    }
  }

  lemma {:induction false} NoDelta(v: View, a: Action, m: Name)
    requires m in v.cursors && CurIn(v.chks, v.cursors[m]) && !a.Advance? && !a.Drain?
    ensures Delta(v, a, m) == []
  {
  }

  lemma {:induction false} EndsWithNothing(s: seq<Item>)
    ensures EndsWith(s, [])
  {
  }

  lemma {:induction false} NothingHanded(log: seq<Delivery>, n: Name, h: History)
    ensures Faithful(log + [(n, [])], h) <==> Faithful(log, h)
  {
    hide DeliveredTo, EndsWith;
    forall m ensures DeliveredTo(log + [(n, [])], m) == DeliveredTo(log, m) {
      Handing(log, n, [], m);
      assert DeliveredTo(log, m) + [] == DeliveredTo(log, m);
    }
  }

  lemma {:induction false} SilentRun(log: seq<Delivery>, hs: seq<History>, acts: seq<Action>)
    requires |hs| == |acts| + 1 && Tracked(hs[0]) && Faithful(log, hs[0]) && Silent(acts)
    requires forall i :: 0 <= i < |acts| ==> Steps(hs[i], acts[i], hs[i + 1])
    ensures Faithful(log, hs[|acts|])
    decreases acts
  {
    hide Steps, Faithful, Tracked;
    if acts != [] {
      var k := |acts| - 1;
      assert Steps(hs[k], acts[k], hs[k + 1]);
      SilentRun(log, hs[..k + 1], acts[..k]);
      SilentStep(log, hs[k], acts[k], hs[k + 1]);
    }
  }

  lemma {:induction false} SilentStep(log: seq<Delivery>, h: History, a: Action, h': History)
    requires Steps(h, a, h') && Faithful(log, h) && !a.Advance? && !a.Drain?
    ensures Faithful(log, h')
  {
    hide Faithful, Next, Enabled, NextView;
    FaithfulAfter(log, h, a, h', "", []);
    NothingHanded(log, "", h');
  }

  /** One call more: the history goes on, and stays true to what was handed out. */
  lemma {:induction false} CallExtends(log: seq<Delivery>, h: History, more: seq<Action>, w: View, n: Name, handed: seq<Item>, taken: seq<Item>)
      returns (hs: seq<History>)
    requires Tracked(h) && Faithful(log, h) && Did(h.v, more, w, n, handed, taken)
    ensures |hs| == |more| + 1 && Continues(h, hs, more) && hs[|more|].v == w && Faithful(log + [(n, handed)], hs[|more|])
  {
    hide Faithful, Plays, Steps, Delta, Tracked, QueuedItems;
    hs := PlaysHasHistory(h, more, w);
    if Silent(more) && handed == [] {
      SilentRun(log, hs, more);
      NothingHanded(log, n, hs[|more|]);
    } else {
      assert Steps(hs[0], more[0], hs[1]);
      FaithfulAfter(log, h, more[0], hs[1], n, handed);
    }
  }

  lemma {:induction false} RunContinues(hs: seq<History>, acts: seq<Action>, tail: seq<History>, more: seq<Action>)
    requires IsRun(hs, acts) && Continues(hs[|acts|], tail, more)
    ensures IsRun(hs + tail[1..], acts + more) && (hs + tail[1..])[|acts + more|] == tail[|more|]
  {
    hide Initial, Steps;
    var gs, bs := hs + tail[1..], acts + more;
    forall i | 0 <= i < |bs| ensures Steps(gs[i], bs[i], gs[i + 1]) {
      if i < |acts| {
        assert Steps(hs[i], acts[i], hs[i + 1]);
      } else {
        assert Steps(tail[i - |acts|], more[i - |acts|], tail[i - |acts| + 1]);
      }
    }
  }

  ghost function Started(v: View): History {
    History(v, map[PERSISTENCE := []], map[PERSISTENCE := []], [], map[PERSISTENCE := {}], false)
  }

  /** What the calls took, in order. */
  function Joined(taken: seq<seq<Item>>): seq<Item> {
    if taken == [] then [] else Joined(taken[..|taken| - 1]) + taken[|taken| - 1]
  }

  lemma {:induction false} JoinedOneMore(taken: seq<seq<Item>>, x: seq<Item>)
    ensures Joined(taken + [x]) == Joined(taken) + x
  {
    assert (taken + [x])[..|taken|] == taken;
  }

  ghost predicate AllFrom(calls: seq<Call>, taken: seq<seq<Item>>) {
    |taken| == |calls| && forall i :: 0 <= i < |calls| ==> TakesFrom(calls[i], taken[i])
  }

  /** Any sequence of calls on a new manager. There is a run of the elementary actions, to which all laws over
      runs apply, that ends in the manager's state and queues exactly the mutations that the calls took, in order, and
      so owes them to the persistence cursor; and in it what each cursor was given since it registered is the last
      part of what the manager's answers handed out under its name. */
  method Serve(lastSeqno: nat, snapStart: nat, snapEnd: nat, id: nat, calls: seq<Call>)
      returns (m: CheckpointManager, log: seq<Delivery>, taken: seq<seq<Item>>, ghost hs: seq<History>, ghost acts: seq<Action>)
    requires id > 0
    ensures fresh(m) && m.Valid() && IsRun(hs, acts) && hs[|acts|].v == m.view && Sound(hs[|acts|])
    ensures AllFrom(calls, taken) && QueuedItems(acts) == Joined(taken) == OwedTo(hs[|acts|], PERSISTENCE)
    ensures Faithful(log, hs[|acts|])
  {
    hide Inv, PersistenceInv, Fair, Steps, CheckpointManager.Valid, Faithful, IsRun, Continues, QueuedItems, Joined, TakesFrom, OwedTo, Plays, Silent, Delta;
    m := new CheckpointManager(lastSeqno, snapStart, snapEnd, id);
    log, taken, hs, acts := [], [], [Started(m.view)], [];
    NewIsRun(m.view);
    for i := 0 to |calls|
      invariant m.Valid() && |hs| == |acts| + 1 && IsRun(hs, acts) && hs[|acts|].v == m.view && Faithful(log, hs[|acts|])
      invariant AllFrom(calls[..i], taken) && QueuedItems(acts) == Joined(taken)
    {
      var n, handed, items;
      ghost var more;
      n, handed, items, more := Do(m, calls[i]);
      RunSound(hs, acts);
      ghost var tail := CallExtends(log, hs[|acts|], more, m.view, n, handed, items);
      RunContinues(hs, acts, tail, more);
      QueuedOfConcat(acts, more);
      JoinedOneMore(taken, items);
      log, taken := log + [(n, handed)], taken + [items];
      hs, acts := hs + tail[1..], acts + more;
      assert calls[..i + 1] == calls[..i] + [calls[i]];
    }
    assert calls[..|calls|] == calls;
    RunSound(hs, acts);
    PersistenceOwed(hs, acts);
  }

  lemma {:induction false} NewIsRun(v: View)
    requires |v.chks| == 1 && v.chks[0].id > 0 && v.chks[0].muts == [] && v.chks[0].phase == Open && v.chks[0].base == v.last
    requires v.preId == 0 && v.cursors == map[PERSISTENCE := Cur(0, 0, false, false)]
    ensures IsRun([Started(v)], []) && Faithful([], Started(v)) && QueuedItems([]) == [] == Joined([])
  {
  }
}
