/** Snapshot ranges: what sets them, and when a queued mutation is accepted as lying in one. */
module Snapshots {
  import opened Log
  import opened Checkpoints
  import opened CheckpointLaws
  import opened CollapseLaws

  /** `createSnapshot`: an empty open checkpoint takes the range, otherwise a new checkpoint does. */
  function CreateSnapshot(v: View, s: nat, e: nat): (w: View)
    requires |v.chks| > 0
    ensures |w.chks| > 0
  {
    if v.Back().phase.Open? && v.Back().muts == [] then WithRange(v, s, e) else Roll(v, v.Back().id + 1, s, e)
  }

  /** `resetSnapshotRange`, on promotion to active. */
  function ResetRange(v: View): (w: View)
    requires |v.chks| > 0
    ensures |w.chks| > 0
  {
    if v.Back().phase.Open? && v.Back().muts == [] then WithRange(v, v.last + 1, v.last + 1)
    else WithRange(v, v.Back().snapStart, v.last)
  }

  // ---- Queueing

  /** The configured number of checkpoints leaves room for one more, or the oldest is about to go. */
  ghost predicate RoomForOne(v: View, maxCheckpoints: nat) {
    |v.chks| < maxCheckpoints || (|v.chks| == maxCheckpoints && forall n :: n in v.cursors ==> v.cursors[n].chk != 0)
  }

  function NextOpen(v: View): (w: View)
    requires |v.chks| > 0
    ensures |w.chks| > 0 && w.Back().phase.Open? && w.cursors.Keys == v.cursors.Keys && w.last == v.last
  {
    Roll(v, v.Back().id + 1, v.last, v.last)
  }

  /** What `queueDirty` does before it looks at the item: an active vbucket may, and after a close must, open a checkpoint. */
  ghost function Prepared(v: View, active: bool, maxCheckpoints: nat, wantNew: bool): (w: View)
    requires |v.chks| > 0
    ensures |w.chks| > 0 && w.cursors.Keys == v.cursors.Keys && w.last == v.last && (active ==> w.Back().phase.Open?)
  {
    if active && ((wantNew && RoomForOne(v, maxCheckpoints)) || v.Back().phase.Closed?) then NextOpen(v) else v
  }

  /** The sequence number a mutation gets, and the open checkpoint's range once it has it. */
  function SeqnoFor(v: View, x: Item, genSeqno: bool): nat { if genSeqno then v.last + 1 else x.seqno }

  function Ranged(v: View, genSeqno: bool): (w: View)
    requires |v.chks| > 0
    ensures |w.chks| == |v.chks| && w.cursors == v.cursors && w.last == v.last && w.Back().phase == v.Back().phase
  {
    if genSeqno then WithRange(v, v.Back().snapStart, v.last + 1) else v
  }

  predicate InRange(v: View, x: Item, genSeqno: bool)
    requires |v.chks| > 0
  {
    var b := Ranged(v, genSeqno).Back();
    b.snapStart <= SeqnoFor(v, x, genSeqno) <= b.snapEnd
  }

  /** The view after `queueDirty`: unchanged if no checkpoint is open; otherwise the sequence number is taken, and
      the mutation is queued if it is in range. */
  ghost function Queued(v: View, active: bool, maxCheckpoints: nat, wantNew: bool, x: Item, genSeqno: bool): (u: View)
    requires |v.chks| > 0
    ensures |u.chks| > 0
  {
    var w := Prepared(v, active, maxCheckpoints, wantNew);
    if w.Back().phase.Closed? then w
    else if InRange(w, x, genSeqno) then Enqueue(Ranged(w, genSeqno), x.(seqno := SeqnoFor(w, x, genSeqno)))
    else Ranged(w, genSeqno).(last := SeqnoFor(w, x, genSeqno))
  }

  ghost predicate Accepted(v: View, active: bool, maxCheckpoints: nat, wantNew: bool, x: Item, genSeqno: bool)
    requires |v.chks| > 0
  {
    var w := Prepared(v, active, maxCheckpoints, wantNew);
    w.Back().phase.Open? && InRange(w, x, genSeqno)
  }

  // ---- The range law

  /** The next generated sequence number will not be below the open checkpoint's range. */
  predicate StartsInTime(v: View)
    requires |v.chks| > 0
  {
    v.Back().phase.Open? ==> v.Back().snapStart <= v.last + 1
  }

  /** What every operation keeps: once a mutation is in it, the last checkpoint's range starts in time. */
  predicate StartedInTime(v: View)
    requires |v.chks| > 0
  {
    v.Back().muts != [] ==> v.Back().snapStart <= v.last
  }

  /** A generated sequence number is accepted exactly when the checkpoint was opened for it or starts in time. */
  lemma {:induction false} GeneratedAccepted(v: View, maxCheckpoints: nat, wantNew: bool, x: Item)
    requires |v.chks| > 0
    ensures Accepted(v, true, maxCheckpoints, wantNew, x, true)
            <==> Prepared(v, true, maxCheckpoints, wantNew) != v || StartsInTime(v)
  {
    var w := Prepared(v, true, maxCheckpoints, wantNew);
    assert w != v ==> w.Back().snapStart == w.last;
  }

  datatype Action =
    | Snapshot(start: nat, end: nat)
    | ExtendTo(end: nat)
    | QueueAs(active: bool, maxCheckpoints: nat, wantNew: bool, item: Item, genSeqno: bool)
    | CloseOpen
    | RollTo(id: nat, start: nat, end: nat)
    | MoveCursor(cursor: Name, at: Cur)
    | DropCursor(cursor: Name)
    | RemoveOldest(count: nat)
    | MergeClosed
    | MergeAll(id: nat)
    | Persisted

  /** A vbucket that is not active takes snapshot markers, with or without a new checkpoint, follows checkpoint
      messages and queues what it is sent. An active one opens checkpoints at its last number, and its sequence
      numbers are generated or supplied. Either closes, moves and drops cursors, removes, merges and persists. */
  ghost predicate Enabled(v: View, a: Action, active: bool) {
    Inv(v) && |v.chks| > 0 &&
    match a
    case Snapshot(_, _) => !active
    case ExtendTo(_) => !active
    case QueueAs(act, _, _, x, gen) => act == active && (gen ==> active) && x.IsMutation() && (!gen ==> v.last < x.seqno)
    case CloseOpen => true
    case RollTo(id, s, e) => v.Back().id < id && (active ==> s == e == v.last)
    case MoveCursor(_, at) => CurIn(v.chks, at)
    case DropCursor(_) => true
    case RemoveOldest(k) => k < |v.chks| && forall n :: n in v.cursors ==> v.cursors[n].chk >= k
    case MergeClosed => true
    case MergeAll(id) => !active && id > 0
    case Persisted => PERSISTENCE in v.cursors
  }

  ghost function Next(v: View, a: Action): (w: View)
    requires Enabled(v, a, false) || Enabled(v, a, true)
    ensures |w.chks| > 0
  {
    match a
    case Snapshot(s, e) => CreateSnapshot(v, s, e)
    case ExtendTo(e) => WithRange(v, v.Back().snapStart, e)
    case QueueAs(act, m, want, x, gen) => Queued(v, act, m, want, x, gen)
    case CloseOpen => Close(v)
    case RollTo(id, s, e) => Roll(v, id, s, e)
    case MoveCursor(n, at) => Move(v, n, at)
    case DropCursor(n) => v.(cursors := v.cursors - {n})
    case RemoveOldest(k) => RemovePrefix(v, k)
    case MergeClosed => CollapseClosed(v)
    case MergeAll(id) => CollapseAll(v, id)
    case Persisted => v.(preId := v.chks[v.cursors[PERSISTENCE].chk].id - 1)
  }

  // ---- Every action keeps the manager's invariant

  lemma {:induction false} PreparedInv(v: View, active: bool, maxCheckpoints: nat, wantNew: bool)
    requires Inv(v) && |v.chks| > 0
    ensures Inv(Prepared(v, active, maxCheckpoints, wantNew))
  {
    hide Inv, Roll, RoomForOne;
    RollInv(v, v.Back().id + 1, v.last, v.last);
  }

  lemma {:induction false} QueuedInv(v: View, active: bool, maxCheckpoints: nat, wantNew: bool, x: Item, genSeqno: bool)
    requires Inv(v) && |v.chks| > 0 && x.IsMutation() && (!genSeqno ==> v.last < x.seqno)
    ensures Inv(Queued(v, active, maxCheckpoints, wantNew, x, genSeqno))
  {
    hide Inv, Prepared, Enqueue, WithRange;
    var w := Prepared(v, active, maxCheckpoints, wantNew);
    PreparedInv(v, active, maxCheckpoints, wantNew);
    if w.Back().phase.Open? {
      WithRangeInv(w, w.Back().snapStart, w.last + 1);
      if InRange(w, x, genSeqno) {
        EnqueueInv(Ranged(w, genSeqno), x.(seqno := SeqnoFor(w, x, genSeqno)));
      } else {
        LaterInv(Ranged(w, genSeqno), SeqnoFor(w, x, genSeqno));
      }
    }
  }

  lemma {:induction false} NextInv(v: View, a: Action, active: bool)
    requires Enabled(v, a, active)
    ensures Inv(Next(v, a))
  {
    hide ChksInv, CurIn, Queued, Roll, Close, Move, RemovePrefix, CollapseClosed, CollapseAll, WithRange;
    match a {
      case Snapshot(s, e) =>
        WithRangeInv(v, s, e);
        RollInv(v, v.Back().id + 1, s, e);
      case ExtendTo(e) => WithRangeInv(v, v.Back().snapStart, e);
      case QueueAs(act, m, want, x, gen) => QueuedInv(v, act, m, want, x, gen);
      case CloseOpen => CloseInv(v);
      case RollTo(id, s, e) => RollInv(v, id, s, e);
      case MoveCursor(n, at) => MoveInv(v, n, at);
      case DropCursor(n) =>
      case RemoveOldest(k) => RemoveInv(v, k);
      case MergeClosed => CollapseClosedInv(v);
      case MergeAll(id) => CollapseAllInv(v, id);
      case Persisted =>
    }
  }

  // ---- and the range laws

  lemma {:induction false} NextStarted(v: View, a: Action, active: bool)
    requires Enabled(v, a, active) && StartedInTime(v)
    ensures StartedInTime(Next(v, a))
  {
    hide Inv, CollapsedCur, CollapseBlocked, Merged, CollapseAll;
    if a.MergeAll? {
      MergedStarted(v, a.id);
    }
  }

  /** A collapse starts the merged range above its first checkpoint's base, and nothing merged lies below. */
  lemma {:induction false} MergedStarted(v: View, id: nat)
    requires Inv(v) && id > 0 && StartedInTime(v)
    ensures StartedInTime(CollapseAll(v, id))
  {
    hide ChksInv, CollapseAll, AllMutations, DistinctKeys, Increasing, AllMuts, KeepLast;
    CollapseAllInv(v, id);
    MergedAllInv(v.chks, id);
    var m := MergedAll(v.chks, id);
    assert m.muts != [] ==> m.base < m.muts[0].seqno <= m.Top();
  }

  lemma {:induction false} NextInTime(v: View, a: Action)
    requires Enabled(v, a, true) && StartsInTime(v)
    ensures StartsInTime(Next(v, a))
    ensures a.QueueAs? && a.genSeqno ==> Accepted(v, a.active, a.maxCheckpoints, a.wantNew, a.item, a.genSeqno)
  {
    hide Inv, CollapsedCur, CollapseBlocked, Merged;
  }

  /** The view after a run of actions. */
  ghost function After(v: View, run: seq<Action>, active: bool): (w: View)
    requires AllEnabled(v, run, active)
    ensures Inv(v) ==> Inv(w)
    decreases run
  {
    if run == [] then v else NextInv(v, run[0], active); After(Next(v, run[0]), run[1..], active)
  }

  ghost predicate AllEnabled(v: View, run: seq<Action>, active: bool)
    decreases run
  {
    run == [] || (Enabled(v, run[0], active) && AllEnabled(Next(v, run[0]), run[1..], active))
  }

  /** No generated sequence number of the run is refused. */
  ghost predicate AllAccepted(v: View, run: seq<Action>)
    requires AllEnabled(v, run, true)
    decreases run
  {
    run == [] ||
    (var a := run[0];
     && (a.QueueAs? && a.genSeqno ==> Accepted(v, a.active, a.maxCheckpoints, a.wantNew, a.item, a.genSeqno))
     && AllAccepted(Next(v, a), run[1..]))
  }

  lemma {:induction false} RunStarted(v: View, run: seq<Action>, active: bool)
    requires Inv(v) && |v.chks| > 0 && StartedInTime(v) && AllEnabled(v, run, active)
    ensures |After(v, run, active).chks| > 0 && StartedInTime(After(v, run, active))
    decreases run
  {
    hide Inv, Enabled, Next, StartedInTime;
    if run != [] {
      NextInv(v, run[0], active);
      NextStarted(v, run[0], active);
      RunStarted(Next(v, run[0]), run[1..], active);
    }
  }

  lemma {:induction false} ActiveRun(v: View, run: seq<Action>)
    requires Inv(v) && StartsInTime(v) && AllEnabled(v, run, true)
    ensures AllAccepted(v, run)
    decreases run
  {
    hide Inv, Enabled, Next, StartsInTime, Accepted;
    if run != [] {
      NextInv(v, run[0], true);
      NextInTime(v, run[0]);
      ActiveRun(Next(v, run[0]), run[1..]);
    }
  }

  // ---- Lives of a vbucket

  datatype VBucketState = Active | Replica | Pending | Dead

  /** What a vbucket does while it is in a state. */
  datatype Life = Life(state: VBucketState, run: seq<Action>)

  /** A change of state; only a replica that turns active has its range reset. */
  function Become(v: View, from: VBucketState, to: VBucketState): (w: View)
    requires |v.chks| > 0
    ensures |w.chks| > 0
  {
    if from == Replica && to == Active then ResetRange(v) else v
  }

  /** The reset repairs the range whatever the replica was sent. */
  lemma {:induction false} ResetStarts(v: View)
    requires Inv(v) && |v.chks| > 0 && StartedInTime(v)
    ensures Inv(ResetRange(v)) && StartsInTime(ResetRange(v)) && StartedInTime(ResetRange(v))
  {
    hide Inv;
    WithRangeInv(v, v.last + 1, v.last + 1);
    WithRangeInv(v, v.Back().snapStart, v.last);
  }

  lemma {:induction false} BecomeStarted(v: View, from: VBucketState, to: VBucketState)
    requires Inv(v) && |v.chks| > 0 && StartedInTime(v)
    ensures Inv(Become(v, from, to)) && StartedInTime(Become(v, from, to))
    ensures from == Replica && to == Active ==> StartsInTime(Become(v, from, to))
  {
    hide Inv, StartedInTime, StartsInTime, ResetRange;
    ResetStarts(v);
  }

  /** Whatever an active life may do from here, no generated sequence number is refused. */
  ghost predicate AlwaysAccepts(v: View) {
    forall run :: AllEnabled(v, run, true) ==> AllAccepted(v, run)
  }

  /** That is so exactly when the open checkpoint's range starts in time. */
  lemma {:induction false} AlwaysAcceptsExactly(v: View)
    requires Inv(v) && |v.chks| > 0
    ensures AlwaysAccepts(v) <==> StartsInTime(v)
  {
    hide Inv, Accepted, Prepared, InRange;
    if StartsInTime(v) {
      forall run | AllEnabled(v, run, true) ensures AllAccepted(v, run) {
        ActiveRun(v, run);
      }
    } else {
      var x := Item(Set, "k", 0, 0);
      var a := QueueAs(true, 0, false, x, true);
      assert AllEnabled(v, [a], true);
      GeneratedAccepted(v, 0, false, x);
      NotPrepared(v);
      assert !AllAccepted(v, [a]);
    }
  }

  lemma {:induction false} NotPrepared(v: View)
    requires |v.chks| > 0 && v.Back().phase.Open?
    ensures Prepared(v, true, 0, false) == v
  {
  }

  /** Each life does what its state allows, from where the one before it and the change of state leave off. */
  ghost predicate Lives(v: View, from: VBucketState, lives: seq<Life>)
    decreases lives
  {
    lives == [] ||
    (var l := lives[0];
     && |v.chks| > 0
     && var w := Become(v, from, l.state);
     && AllEnabled(w, l.run, l.state == Active)
     && Lives(After(w, l.run, l.state == Active), l.state, lives[1..]))
  }

  /** In no active life could a generated sequence number be refused. */
  ghost predicate NoneRefuses(v: View, from: VBucketState, lives: seq<Life>)
    requires Lives(v, from, lives)
    decreases lives
  {
    lives == [] ||
    (var l := lives[0];
     var w := Become(v, from, l.state);
     && (l.state == Active ==> AlwaysAccepts(w))
     && NoneRefuses(After(w, l.run, l.state == Active), l.state, lives[1..]))
  }

  /** A vbucket that turns active without the reset has a range that starts in time. */
  ghost predicate EntersInTime(v: View, from: VBucketState, lives: seq<Life>)
    requires Lives(v, from, lives)
    decreases lives
  {
    lives == [] ||
    (var l := lives[0];
     var w := Become(v, from, l.state);
     && (l.state == Active && (from == Pending || from == Dead) ==> StartsInTime(w))
     && EntersInTime(After(w, l.run, l.state == Active), l.state, lives[1..]))
  }

  /** Only a replica turns active. */
  ghost predicate OnlyReplicasPromoted(from: VBucketState, lives: seq<Life>)
    decreases lives
  {
    lives == [] ||
    (&& (lives[0].state == Active ==> from == Active || from == Replica)
     && OnlyReplicasPromoted(lives[0].state, lives[1..]))
  }

  lemma {:induction false} RunInTime(v: View, run: seq<Action>)
    requires Inv(v) && |v.chks| > 0 && StartsInTime(v) && AllEnabled(v, run, true)
    ensures |After(v, run, true).chks| > 0 && StartsInTime(After(v, run, true))
    decreases run
  {
    hide Inv, Enabled, Next, StartsInTime, Accepted;
    if run != [] {
      NextInv(v, run[0], true);
      NextInTime(v, run[0]);
      RunInTime(Next(v, run[0]), run[1..]);
    }
  }

  /** The view on entering a life, and what is known of it there. */
  ghost predicate Entering(v: View, from: VBucketState) {
    Inv(v) && |v.chks| > 0 && StartedInTime(v) && (from == Active ==> StartsInTime(v))
  }

  lemma {:induction false} EntryExactly(v: View, from: VBucketState, to: VBucketState)
    requires Entering(v, from)
    ensures var w := Become(v, from, to);
            && Inv(w) && StartedInTime(w)
            && (to == Active ==> (AlwaysAccepts(w) <==> StartsInTime(w)))
            && (to == Active && (from == Active || from == Replica) ==> StartsInTime(w))
  {
    hide Inv, StartedInTime, StartsInTime, ResetRange, AlwaysAccepts;
    BecomeStarted(v, from, to);
    AlwaysAcceptsExactly(Become(v, from, to));
  }

  lemma {:induction false} LifeEnds(w: View, l: Life)
    requires Inv(w) && |w.chks| > 0 && StartedInTime(w) && (l.state == Active ==> StartsInTime(w))
    requires AllEnabled(w, l.run, l.state == Active)
    ensures Entering(After(w, l.run, l.state == Active), l.state)
  {
    hide Inv, StartedInTime, StartsInTime, AllEnabled, After;
    RunStarted(w, l.run, l.state == Active);
    if l.state == Active {
      RunInTime(w, l.run);
    }
  }

  /** Over any lives of a vbucket: no generated sequence number could ever be refused, if and only if the range
      starts in time whenever a pending or dead vbucket turns active. */
  lemma {:induction false} LivesKeepRange(v: View, from: VBucketState, lives: seq<Life>)
    requires Entering(v, from) && Lives(v, from, lives)
    ensures NoneRefuses(v, from, lives) <==> EntersInTime(v, from, lives)
    decreases lives
  {
    hide Inv, StartedInTime, StartsInTime, ResetRange, Become, AlwaysAccepts, AllEnabled, After;
    if lives != [] {
      var l := lives[0];
      var w := Become(v, from, l.state);
      EntryExactly(v, from, l.state);
      if l.state == Active ==> StartsInTime(w) {
        LifeEnds(w, l);
        LivesKeepRange(After(w, l.run, l.state == Active), l.state, lives[1..]);
      }
    }
  }

  lemma {:induction false} PromotedInTime(v: View, from: VBucketState, lives: seq<Life>)
    requires Lives(v, from, lives) && OnlyReplicasPromoted(from, lives)
    ensures EntersInTime(v, from, lives)
    decreases lives
  {
    hide StartsInTime, Become, AllEnabled, After;
    if lives != [] {
      var l := lives[0];
      PromotedInTime(After(Become(v, from, l.state), l.run, l.state == Active), l.state, lives[1..]);
    }
  }

  /** In any alternation of active lives with others, entered only from being a replica, no generated sequence
      number could be refused. */
  lemma {:induction false} PromotionKeepsRange(v: View, from: VBucketState, lives: seq<Life>)
    requires Entering(v, from) && Lives(v, from, lives) && OnlyReplicasPromoted(from, lives)
    ensures NoneRefuses(v, from, lives)
  {
    hide Entering, Lives, OnlyReplicasPromoted, NoneRefuses, EntersInTime;
    PromotedInTime(v, from, lives);
    LivesKeepRange(v, from, lives);
  }

  /** A pending vbucket that is sent a snapshot marker ahead of its last number and turns active, without the
      reset, refuses its first generated number; as a replica it would have been reset and accepts. */
  lemma {:induction false} PendingRefuses(x: Item)
    ensures var v := View([Chk(1, 0, 0, 0, [], Open)], map[PERSISTENCE := Cur(0, 0, false, false)], 0, 0);
            var w := CreateSnapshot(v, 5, 9);
            && Entering(v, Pending) && StartsInTime(v) && Lives(v, Pending, [Life(Pending, [Snapshot(5, 9)]), Life(Active, [])])
            && !Accepted(Become(w, Pending, Active), true, 2, false, x, true)
            && Accepted(Become(w, Replica, Active), true, 2, false, x, true)
  {
    var v := View([Chk(1, 0, 0, 0, [], Open)], map[PERSISTENCE := Cur(0, 0, false, false)], 0, 0);
    var a := Snapshot(5, 9);
    var w := Next(v, a);
    assert AllEnabled(w, [], false) && After(w, [], false) == w;
    assert [a][1..] == [];
    assert AllEnabled(v, [a], false);
    assert After(v, [a], false) == w;
    var lives := [Life(Pending, [a]), Life(Active, [])];
    assert lives[1..] == [Life(Active, [])] && lives[1..][1..] == [];
    assert Lives(w, Active, []);
    assert AllEnabled(w, [], true) && After(w, [], true) == w;
    assert Lives(w, Pending, lives[1..]);
  }
}
