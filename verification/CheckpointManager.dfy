/** The checkpoint manager, as an object that updates its lists, indexes, counters and cursors in place. */
module CheckpointManagers {
  import opened Log
  import opened Checkpoints
  import opened CheckpointLaws
  import opened CollapseLaws
  import opened ManagerState
  import opened ManagerFacts
  import opened Counting
  import opened Registration
  import opened Removal
  import opened Merging
  import opened Collapsing
  import opened Effects
  import Snapshots

  /** How `queueDirty` ends: with its result, or with one of its two errors. */
  datatype QueueOutcome = Done(isNew: bool) | NoOpenCheckpoint | NotInSnapshotRange

  /** How `registerCursor` ends: telling whether the checkpoint was found, or with its error. */
  datatype RegisterOutcome = Placed(found: bool) | NoCheckpoint

  /** How `registerCursorBySeqno` ends: with its pair, or with its error. */
  datatype CursorRegResult = Registered(first: nat, fromOldest: bool) | SeqnoTooHigh

  /** What `nextItem` returns when there is nothing to return. */
  const NO_ITEM := Item(Empty, "", 0, 0)

  class CheckpointManager {
    var checkpointList: seq<Checkpoint>
    var numItems: nat
    var lastBySeqno: nat
    var pCursorPreCheckpointId: nat
    var connCursors: map<Name, CheckpointCursor>

    /** What the state means. */
    ghost var view: View

    ghost predicate Valid()
      reads this
    {
      && Models(checkpointList, connCursors, numItems, view)
      && lastBySeqno == view.last && pCursorPreCheckpointId == view.preId
    }

    /** One open checkpoint, and the persistence cursor at its beginning. */
    constructor (lastSeqno: nat, snapStart: nat, snapEnd: nat, id: nat)
      requires id > 0
      ensures Valid()
      ensures view == View([Chk(id, snapStart, snapEnd, lastSeqno, [], Open)], map[PERSISTENCE := Cur(0, 0, false, false)], lastSeqno, 0)
      ensures |checkpointList| == 1 && numItems == 1
      ensures checkpointList[0].toWrite == [Item(Empty, DUMMY_KEY, lastSeqno, 0), Item(Start, START_KEY, lastSeqno + 1, id)]
    {
      checkpointList := [Opened(id, snapStart, snapEnd, lastSeqno).(names := {PERSISTENCE})];
      numItems, lastBySeqno, pCursorPreCheckpointId := 1, lastSeqno, 0;
      connCursors := map[PERSISTENCE := CheckpointCursor(0, 0, 0, false, false)];
      view := View([Chk(id, snapStart, snapEnd, lastSeqno, [], Open)], map[PERSISTENCE := Cur(0, 0, false, false)], lastSeqno, 0);
      new;
      StartModels(lastSeqno, snapStart, snapEnd, id);
    }

    /** One cursor of the loop below: the code compares mutation ids; that finds the cursors at or after the entry. */
    method NudgeCursor(k: Key, back: nat, p: nat, n: Name, ghost cursors: map<Name, CheckpointCursor>) returns (hit: bool)
      requires Models(checkpointList, cursors, numItems, view) && view.Back().phase.Open? && EntryAt(checkpointList, k, back, p)
      requires n in cursors && n in connCursors && connCursors[n] == cursors[n]
      modifies `connCursors
      ensures connCursors == old(connCursors)[n := Nudged(cursors[n], back, p)]
      ensures hit <==> AtOrAfter(cursors[n], back, p)
    {
      hide Inv, NamesAgree, TotalItems, CursorIs, Represents, ListRepresents, Chk.Items, Chk.Wf;
      var b := checkpointList[back];
      BackFacts(checkpointList, cursors, numItems, view, k);
      hit := false;
      var c := connCursors[n];
      if c.chk == back {
        ModelsFacts(checkpointList, cursors, numItems, view, n);
        var tqi := b.toWrite[c.pos];
        IdsOrderPositions(b, view.Back(), k, c.pos);
        if tqi.key in b.keyIndex && tqi.IsMutation() {
          if b.keyIndex[k].mutationId <= b.keyIndex[tqi.key].mutationId {
            c := c.DecrOffset(1);
            hit := true;
          }
        }
        if c.pos == p {
          c := c.DecrPos();
        }
      }
      connCursors := connCursors[n := c];
    }

    /** The cursor loop of `Checkpoint::queueDirty`, for an entry of the open checkpoint about to be superseded. */
    method NudgeCursors(k: Key, back: nat, p: nat) returns (rv: QueueResult)
      requires Models(checkpointList, connCursors, numItems, view) && view.Back().phase.Open? && EntryAt(checkpointList, k, back, p)
      modifies `connCursors
      ensures connCursors == (map n | n in old(connCursors) :: Nudged(old(connCursors)[n], back, p))
      ensures rv == if AtOrAfter(old(connCursors)[PERSISTENCE], back, p) then PERSIST_AGAIN else EXISTING_ITEM
    {
      hide Inv, NamesAgree, TotalItems, CursorsAre, ListRepresents, Nudged, AtOrAfter, EntryAt;
      rv := EXISTING_ITEM;
      ghost var cursors := connCursors;
      var todo := connCursors.Keys;
      while todo != {}
        invariant todo <= cursors.Keys == connCursors.Keys
        invariant forall n :: n in cursors ==> connCursors[n] == if n in todo then cursors[n] else Nudged(cursors[n], back, p)
        invariant rv == if PERSISTENCE !in todo && AtOrAfter(cursors[PERSISTENCE], back, p) then PERSIST_AGAIN else EXISTING_ITEM
        decreases todo
      {
        var n :| n in todo;
        todo := todo - {n};
        var hit := NudgeCursor(k, back, p, n, cursors);
        if hit && n == PERSISTENCE {
          rv := PERSIST_AGAIN;
        }
      }
    }

    /** `Checkpoint::queueDirty` for a mutation: push it to the open checkpoint, dropping the entry it supersedes
        and moving left the cursors at or after that entry. The caller has advanced `lastBySeqno` and counts a
        new item afterwards. */
    method QueueIntoOpen(qi: Item) returns (rv: QueueResult)
      requires Models(checkpointList, connCursors, numItems, view) && view.last < qi.seqno == lastBySeqno
      requires view.preId == pCursorPreCheckpointId && view.Back().phase.Open? && qi.IsMutation()
      modifies `checkpointList, `connCursors, `view
      ensures view == Enqueue(old(view), qi)
      ensures Models(checkpointList, connCursors, numItems + (if rv.NEW_ITEM? then 1 else 0), view)
      ensures rv == Result(old(view), qi.key)
    {
      hide Inv, NamesAgree, TotalItems, CursorsAre, ListRepresents, Enqueue, Result, AtOrAfter, Nudged, AfterErase;
      var back := |checkpointList| - 1;
      var b := checkpointList[back];
      ResultByIndex(checkpointList, connCursors, numItems, view, qi.key);
      if qi.key in b.keyIndex {
        var p := b.keyIndex[qi.key].position;
        QueueAgainModels(checkpointList, connCursors, numItems, view, qi, p);
        rv := NudgeCursors(qi.key, back, p);
        checkpointList := checkpointList[back := PushedAgain(b, qi, p)];
        connCursors := map n | n in connCursors :: AfterErase(connCursors[n], back, p);
        assert connCursors == map n | n in old(connCursors) :: AfterErase(Nudged(old(connCursors)[n], back, p), back, p);
      } else {
        rv := NEW_ITEM;
        QueueNewModels(checkpointList, connCursors, numItems, view, qi);
        checkpointList := checkpointList[back := PushedNew(b, qi)];
      }
      view := Enqueue(view, qi);
    }

    // ---- Closing and opening checkpoints

    method CloseOpenCheckpoint()
      requires Valid()
      modifies `checkpointList, `numItems, `view
      ensures Valid() && view == Close(old(view))
      ensures ClosesBack(old(view), view)
    {
      hide Inv, NamesAgree, TotalItems, CursorsAre, Chk.Items, ClosesBack;
      var back := |checkpointList| - 1;
      var b := checkpointList[back];
      assert Represents(b, view.Back());
      ClosesBackEffect(view);
      if b.closed {
        return;
      }
      CloseModels(checkpointList, connCursors, numItems, view);
      b := PushedMeta(b, MetaItem(End, b.id, lastBySeqno));
      numItems := numItems + 1;
      checkpointList := checkpointList[back := b.(closed := true)];
      view := Close(view);
    }

    /** One more item of its own checkpoint for a cursor. */
    method StepCursor(n: Name)
      requires Valid() && n in connCursors && connCursors[n].pos + 1 < view.chks[connCursors[n].chk].Size()
      modifies `connCursors, `view
      ensures Valid() && n in old(view).cursors
      ensures view == Move(old(view), n, old(view).cursors[n].(pos := old(view).cursors[n].pos + 1))
      ensures connCursors.Keys == old(connCursors).Keys
    {
      hide Inv, NamesAgree, TotalItems, ListRepresents, Chk.Size, OffsetOf;
      var c := connCursors[n];
      StepCursorModels(checkpointList, connCursors, numItems, view, n, c.pos + 1);
      c := c.(pos := c.pos + 1, offset := c.offset + 1);
      connCursors := connCursors[n := c];
      view := Move(view, n, c.At());
    }

    /** Called with the cursor past the last item of its checkpoint: `pos` designates that last item. */
    method MoveCursorToNextCheckpoint(n: Name) returns (moved: bool)
      requires Valid() && n in connCursors && connCursors[n].pos + 1 == view.chks[connCursors[n].chk].Size()
      modifies `checkpointList, `connCursors, `view
      ensures Valid() && connCursors.Keys == old(connCursors).Keys && n in old(view).cursors
      ensures moved <==> old(view).cursors[n].chk + 1 < |old(view).chks|
      ensures view == if moved then Move(old(view), n, old(view).cursors[n].(chk := old(view).cursors[n].chk + 1, pos := 0)) else old(view)
    {
      hide Inv, NamesAgree, TotalItems, ListRepresents, CursorIs, Renamed, Chk.Size, Chk.Items, OffsetOf;
      ModelsFacts(checkpointList, connCursors, numItems, view, n);
      var c := connCursors[n];
      if !checkpointList[c.chk].closed {
        return false;
      } else if c.chk + 1 == |checkpointList| {
        return false;
      }
      EnterModels(checkpointList, connCursors, numItems, view, n);
      checkpointList := Renamed(checkpointList, n, c.chk, c.chk + 1);
      c := c.(chk := c.chk + 1, pos := 0);
      connCursors := connCursors[n := c];
      view := Move(view, n, c.At());
      return true;
    }

    // ---- Advancing

    /** Step over the end of a checkpoint and the dummy of the next, if there is one. */
    method IncrCursor(n: Name) returns (more: bool)
      requires Valid() && n in connCursors
      modifies `checkpointList, `connCursors, `view
      ensures Valid() && connCursors.Keys == old(connCursors).Keys
      ensures n in old(view).cursors && CurIn(old(view).chks, old(view).cursors[n])
      ensures more <==> !AtEnd(old(view).chks, old(view).cursors[n])
      ensures view == Move(old(view), n, Step(old(view).chks, old(view).cursors[n]))
      decreases |checkpointList| - connCursors[n].chk
    {
      hide Models, Chk.Items, OffsetOf;
      ModelsFacts(checkpointList, connCursors, numItems, view, n);
      var c := connCursors[n];
      if c.pos + 1 != |checkpointList[c.chk].toWrite| {
        StepCursor(n);
        return true;
      }
      var moved := MoveCursorToNextCheckpoint(n);
      if !moved {
        assert view == Move(view, n, view.cursors[n]);
        return false;
      }
      ModelsFacts(checkpointList, connCursors, numItems, view, n);
      more := IncrCursor(n);
    }

    /** The next item for a cursor and whether it is the last mutation of its checkpoint; an empty item when
        there is none, or no such cursor. */
    method NextItem(n: Name) returns (qi: Item, isLastMutationItem: bool)
      requires Valid()
      modifies `checkpointList, `connCursors, `view
      ensures Valid() && connCursors.Keys == old(connCursors).Keys && connCursors.Keys == old(view).cursors.Keys
      ensures n !in connCursors ==> qi == NO_ITEM && view == old(view)
      ensures n in connCursors ==>
                && CurIn(old(view).chks, old(view).cursors[n])
                && view == Move(old(view), n, Step(old(view).chks, old(view).cursors[n]))
                && if Ahead(old(view).chks, old(view).cursors[n]) == [] then qi == NO_ITEM && !isLastMutationItem
                   else
                     && CurIn(view.chks, view.cursors[n])
                     && Ahead(old(view).chks, old(view).cursors[n]) == [qi] + Ahead(view.chks, view.cursors[n])
                     && (isLastMutationItem <==> MutsAhead(view.chks, view.cursors[n]) == AllMuts(view.chks[view.cursors[n].chk + 1..]))
    {
      hide Inv, NamesAgree, TotalItems, ListRepresents, CursorIs, Chk.Items, Chk.Size, OffsetOf, Ahead, MutsAhead, Step, AtEnd;
      if n !in connCursors {
        return NO_ITEM, false;
      }
      ModelsFacts(checkpointList, connCursors, numItems, view, n);
      StepAhead(view.chks, view.cursors[n]);
      if !AtEnd(view.chks, view.cursors[n]) {
        StepLands(view.chks, view.cursors[n]);
      }
      var more := IncrCursor(n);
      if !more {
        return NO_ITEM, false;
      }
      ModelsFacts(checkpointList, connCursors, numItems, view, n);
      var c := connCursors[n];
      var b := checkpointList[c.chk];
      if c.pos + 1 < |b.toWrite| {
        EndIsLast(view.chks[c.chk], c.pos + 1);
      }
      LastLeft(view.chks, view.cursors[n]);
      qi := b.toWrite[c.pos];
      isLastMutationItem := c.pos + 1 == |b.toWrite| || b.toWrite[c.pos + 1].op == End;
    }

    /** One round of `getAllItemsForCursor`: after a checkpoint_end the cursor enters the next checkpoint. */
    method TakeNext(n: Name) returns (more: bool, qi: Item)
      requires Valid() && n in connCursors
      modifies `checkpointList, `connCursors, `view
      ensures Valid() && connCursors.Keys == old(connCursors).Keys && n in old(view).cursors && n in view.cursors
      ensures CurIn(old(view).chks, old(view).cursors[n]) && CurIn(old(view).chks, view.cursors[n])
      ensures view == Move(old(view), n, view.cursors[n])
      ensures view.cursors[n] == old(view).cursors[n].(chk := view.cursors[n].chk, pos := view.cursors[n].pos)
      ensures more ==> Ahead(old(view).chks, old(view).cursors[n]) == [qi] + Ahead(old(view).chks, view.cursors[n])
      ensures !more ==> AtEnd(old(view).chks, old(view).cursors[n]) && view.cursors[n] == old(view).cursors[n]
    {
      hide Models, Chk.Items, Chk.Size, Ahead, AtEnd, Step;
      qi := NO_ITEM;
      ModelsFacts(checkpointList, connCursors, numItems, view, n);
      StepAhead(view.chks, view.cursors[n]);
      more := IncrCursor(n);
      ModelsFacts(checkpointList, connCursors, numItems, view, n);
      if more {
        qi := checkpointList[connCursors[n].chk].toWrite[connCursors[n].pos];
        if qi.op == End {
          EndIsLast(view.chks[connCursors[n].chk], connCursors[n].pos);
          ghost var c := view.cursors[n];
          var moved := MoveCursorToNextCheckpoint(n);
          if moved {
            EnterAhead(view.chks, c);
          }
        }
      } else {
        StayAtEnd(old(view).chks, old(view).cursors[n]);
      }
    }

    /** Everything ahead of a cursor, with the snapshot range it spans. */
    method GetAllItemsForCursor(n: Name) returns (items: seq<Item>, start: nat, end: nat)
      requires Valid()
      modifies `checkpointList, `connCursors, `view
      ensures Valid() && connCursors.Keys == old(connCursors).Keys && connCursors.Keys == old(view).cursors.Keys
      ensures n !in connCursors ==> items == [] && start == end == 0 && view == old(view)
      ensures n in connCursors ==>
                && CurIn(old(view).chks, old(view).cursors[n]) && |old(view).chks| > 0
                && items == Ahead(old(view).chks, old(view).cursors[n])
                && view == Move(old(view), n, LastPlace(old(view).chks, old(view).cursors[n]))
                && CurIn(view.chks, view.cursors[n]) && Ahead(view.chks, view.cursors[n]) == []
                && start == old(view).chks[old(view).cursors[n].chk].snapStart && end == old(view).Back().snapEnd
    {
      hide Models, CurIn, Chk.Items, Chk.Size, Ahead, AtEnd, LastPlace;
      items, start, end := [], 0, 0;
      KeysAgree(checkpointList, connCursors, numItems, view);
      if n !in connCursors {
        return;
      }
      RangeFacts(checkpointList, connCursors, numItems, view, n);
      ghost var cs, c0 := view.chks, view.cursors[n];
      start := checkpointList[connCursors[n].chk].snapStart;
      var more, qi := TakeNext(n);
      while more
        invariant Valid() && connCursors.Keys == old(connCursors).Keys && n in view.cursors
        invariant view == Move(old(view), n, view.cursors[n])
        invariant view.cursors[n] == c0.(chk := view.cursors[n].chk, pos := view.cursors[n].pos)
        invariant CurIn(cs, view.cursors[n])
        invariant items + (if more then [qi] else []) + Ahead(cs, view.cursors[n]) == Ahead(cs, c0)
        invariant !more ==> AtEnd(cs, view.cursors[n])
        decreases more, |Ahead(cs, view.cursors[n])|
      {
        items := items + [qi];
        more, qi := TakeNext(n);
      }
      DrainedTo(cs, c0, view.cursors[n], items);
      StepAhead(cs, view.cursors[n]);
      RangeFacts(checkpointList, connCursors, numItems, view, n);
      end := checkpointList[connCursors[n].chk].snapEnd;
    }

    // ---- Opening a new checkpoint

    /** One round of the cursor loop of `addNewCheckpoint`: a cursor that has nothing left in its checkpoint, or
        nothing but a checkpoint_end it need not send, enters the next. */
    method EnterNextIfDone(n: Name)
      requires Valid() && n in connCursors && connCursors[n].chk + 1 < |view.chks|
      modifies `checkpointList, `connCursors, `view
      ensures Valid() && connCursors.Keys == old(connCursors).Keys && n in old(view).cursors
      ensures view == Move(old(view), n, EnterNext(old(view).chks, old(view).cursors[n]))
    {
      hide Models, Chk.Items, OffsetOf;
      ModelsFacts(checkpointList, connCursors, numItems, view, n);
      var c := connCursors[n];
      var b := checkpointList[c.chk];
      if c.pos + 1 < |b.toWrite| {
        EndIsLast(view.chks[c.chk], c.pos + 1);
      }
      if !c.sendEnd && c.pos + 1 != |b.toWrite| && b.toWrite[c.pos + 1].op == End {
        StepCursor(n);
        ModelsFacts(checkpointList, connCursors, numItems, view, n);
      }
      if connCursors[n].pos + 1 == |b.toWrite| && b.closed {
        var moved := MoveCursorToNextCheckpoint(n);
      }
      assert old(view).cursors == old(view).cursors[n := old(view).cursors[n]];
    }

    method EnterNextAll()
      requires Valid() && forall n :: n in connCursors ==> connCursors[n].chk + 1 < |view.chks|
      modifies `checkpointList, `connCursors, `view
      ensures Valid()
      ensures view == old(view).(cursors := map n | n in old(view).cursors :: EnterNext(old(view).chks, old(view).cursors[n]))
    {
      hide Models, EnterNext;
      KeysAgree(checkpointList, connCursors, numItems, view);
      CursorsBelow(checkpointList, connCursors, numItems, view);
      ghost var v := view;
      var todo := connCursors.Keys;
      while todo != {}
        invariant Valid() && todo <= connCursors.Keys == view.cursors.Keys == v.cursors.Keys
        invariant view == v.(cursors := view.cursors)
        invariant forall n :: n in v.cursors ==> view.cursors[n] == if n in todo then v.cursors[n] else EnterNext(v.chks, v.cursors[n])
        invariant forall n :: n in v.cursors ==> v.cursors[n].chk + 1 < |v.chks|
        decreases todo
      {
        var n :| n in todo;
        todo := todo - {n};
        RangeFacts(checkpointList, connCursors, numItems, view, n);
        EnterNextIfDone(n);
        KeysAgree(checkpointList, connCursors, numItems, view);
      }
    }

    method AddNewCheckpoint(id: nat, snapStart: nat, snapEnd: nat)
      requires Valid() && view.Back().id < id
      modifies `checkpointList, `numItems, `connCursors, `view
      ensures Valid() && |old(view).chks| > 0 && view == Roll(old(view), id, snapStart, snapEnd)
      ensures OpensNext(old(view), id, snapStart, snapEnd, view)
    {
      hide Models, EnterNext, OpensNext, ClosesBack, Inv;
      ViewInv(checkpointList, connCursors, numItems, view);
      OpensNextEffect(view, id, snapStart, snapEnd);
      KeysAgree(checkpointList, connCursors, numItems, view);
      CloseOpenCheckpoint();
      KeysAgree(checkpointList, connCursors, numItems, view);
      ghost var v := view;
      CursorsBelow(checkpointList, connCursors, numItems, v);
      ExtendModels(checkpointList, connCursors, numItems, view, id, snapStart, snapEnd);
      numItems := numItems + 1;
      checkpointList := checkpointList + [Opened(id, snapStart, snapEnd, lastBySeqno)];
      view := Extended(view, Chk(id, snapStart, snapEnd, view.last, [], Open));
      EnterNextAll();
      EnterNextSame(v.chks, Chk(id, snapStart, snapEnd, v.last, [], Open), v.cursors);
    }

    /** On request, for an active vbucket: a new open checkpoint unless the last one is empty. */
    method CreateNewCheckpoint() returns (id: nat)
      requires Valid()
      modifies `checkpointList, `numItems, `connCursors, `view
      ensures Valid() && |old(view).chks| > 0
      ensures view == if old(view).Back().muts == [] then old(view) else Snapshots.NextOpen(old(view))
      ensures id == view.Back().id
      ensures if old(view).Back().muts == [] then view == old(view)
              else OpensNext(old(view), old(view).Back().id + 1, old(view).last, old(view).last, view)
    {
      hide Models, Roll, OpensNext;
      BackIs(checkpointList, connCursors, numItems, view);
      var b := checkpointList[|checkpointList| - 1];
      if b.numItems > 0 {
        AddNewCheckpoint(b.id + 1, lastBySeqno, lastBySeqno);
      }
      BackIs(checkpointList, connCursors, numItems, view);
      id := checkpointList[|checkpointList| - 1].id;
    }

    // ---- Snapshot ranges

    method SetSnapshotRange(snapStart: nat, snapEnd: nat)
      requires Valid()
      modifies `checkpointList, `view
      ensures Valid() && |old(view).chks| > 0 && view == WithRange(old(view), snapStart, snapEnd)
      ensures SetsRange(old(view), snapStart, snapEnd, view)
    {
      hide Inv, NamesAgree, TotalItems, CursorsAre, ListRepresents;
      RangeModels(checkpointList, connCursors, numItems, view, snapStart, snapEnd);
      var back := |checkpointList| - 1;
      checkpointList := checkpointList[back := checkpointList[back].(snapStart := snapStart, snapEnd := snapEnd)];
      view := WithRange(view, snapStart, snapEnd);
    }

    method CreateSnapshot(snapStart: nat, snapEnd: nat)
      requires Valid()
      modifies `checkpointList, `numItems, `connCursors, `view
      ensures Valid() && |old(view).chks| > 0 && view == Snapshots.CreateSnapshot(old(view), snapStart, snapEnd)
      ensures view.Back().snapStart == snapStart && view.Back().snapEnd == snapEnd && view.Back().muts == [] && view.Back().phase.Open?
      ensures if old(view).Back().phase.Open? && old(view).Back().muts == [] then SetsRange(old(view), snapStart, snapEnd, view)
              else OpensNext(old(view), old(view).Back().id + 1, snapStart, snapEnd, view)
    {
      hide Models, Roll, WithRange, OpensNext, SetsRange;
      BackIs(checkpointList, connCursors, numItems, view);
      var b := checkpointList[|checkpointList| - 1];
      if !b.closed && b.numItems == 0 {
        SetSnapshotRange(snapStart, snapEnd);
      } else {
        AddNewCheckpoint(b.id + 1, snapStart, snapEnd);
      }
      BackAfter(old(view), b.id + 1, snapStart, snapEnd, view);
    }

    /** For a snapshot marker that starts no checkpoint. */
    method UpdateCurrentSnapshotEnd(snapEnd: nat)
      requires Valid()
      modifies `checkpointList, `view
      ensures Valid() && |old(view).chks| > 0 && view == WithRange(old(view), old(view).Back().snapStart, snapEnd)
      ensures SetsRange(old(view), old(view).Back().snapStart, snapEnd, view)
    {
      hide Models, WithRange;
      BackIs(checkpointList, connCursors, numItems, view);
      SetSnapshotRange(checkpointList[|checkpointList| - 1].snapStart, snapEnd);
    }

    /** On promotion to active. */
    method ResetSnapshotRange()
      requires Valid()
      modifies `checkpointList, `view
      ensures Valid() && |old(view).chks| > 0 && view == Snapshots.ResetRange(old(view))
      ensures if old(view).Back().phase.Open? && old(view).Back().muts == []
              then SetsRange(old(view), old(view).last + 1, old(view).last + 1, view)
              else SetsRange(old(view), old(view).Back().snapStart, old(view).last, view)
    {
      hide Models;
      BackIs(checkpointList, connCursors, numItems, view);
      var b := checkpointList[|checkpointList| - 1];
      if !b.closed && b.numItems == 0 {
        SetSnapshotRange(lastBySeqno + 1, lastBySeqno + 1);
      } else {
        SetSnapshotRange(b.snapStart, lastBySeqno);
      }
    }

    // ---- Queueing

    /** The first half of `queueDirty`. Whether an active vbucket wants a new checkpoint now is the caller's policy. */
    method PrepareOpen(active: bool, maxCheckpoints: nat, wantNew: bool)
      requires Valid()
      modifies `checkpointList, `numItems, `connCursors, `view
      ensures Valid() && |old(view).chks| > 0 && view == Snapshots.Prepared(old(view), active, maxCheckpoints, wantNew)
    {
      hide Models, Roll, OpensNext;
      BackIs(checkpointList, connCursors, numItems, view);
      RoomIs(checkpointList, connCursors, numItems, view, maxCheckpoints);
      var canCreate := |checkpointList| < maxCheckpoints || (|checkpointList| == maxCheckpoints && checkpointList[0].names == {});
      if active && canCreate && wantNew {
        AddNewCheckpoint(checkpointList[|checkpointList| - 1].id + 1, lastBySeqno, lastBySeqno);
        BackIs(checkpointList, connCursors, numItems, view);
      }
      if checkpointList[|checkpointList| - 1].closed && active {
        AddNewCheckpoint(checkpointList[|checkpointList| - 1].id + 1, lastBySeqno, lastBySeqno);
      }
    }

    method QueueDirty(active: bool, maxCheckpoints: nat, wantNew: bool, item: Item, genSeqno: bool) returns (r: QueueOutcome)
      requires Valid() && item.IsMutation() && item.key != "" && (!genSeqno ==> lastBySeqno < item.seqno)
      modifies this
      ensures Valid() && |old(view).chks| > 0 && PERSISTENCE in old(view).cursors
      ensures view == Snapshots.Queued(old(view), active, maxCheckpoints, wantNew, item, genSeqno)
      ensures var w := Snapshots.Prepared(old(view), active, maxCheckpoints, wantNew);
              r == if w.Back().phase.Closed? then NoOpenCheckpoint
                   else if !Snapshots.InRange(w, item, genSeqno) then NotInSnapshotRange
                   else Done(Result(w, item.key) != EXISTING_ITEM)
      ensures QueuesItem(old(view), active, maxCheckpoints, wantNew, item, genSeqno, view)
      ensures var opens, s := Opens(old(view), active, maxCheckpoints, wantNew), if genSeqno then old(view).last + 1 else item.seqno;
              && (r.NoOpenCheckpoint? <==> old(view).Back().phase.Closed? && !opens)
              && (r.NotInSnapshotRange? <==> !(old(view).Back().phase.Closed? && !opens) && !Takes(old(view), opens, s, genSeqno))
      ensures r.Done? ==> view.Back().muts != [] && view.Back().muts[|view.Back().muts| - 1] == item.(seqno := view.last)
                          && view.last == (if genSeqno then old(view).last + 1 else item.seqno)
    {
      hide Models, Inv, Enqueue, Snapshots.Prepared, QueuesItem, Opens, Takes, SetsRange, OpensNext;
      ViewInv(checkpointList, connCursors, numItems, view);
      QueuesItemEffect(view, active, maxCheckpoints, wantNew, item, genSeqno);
      BackIs(checkpointList, connCursors, numItems, view);
      PrepareOpen(active, maxCheckpoints, wantNew);
      BackIs(checkpointList, connCursors, numItems, view);
      if checkpointList[|checkpointList| - 1].closed {
        return NoOpenCheckpoint;
      }
      var qi := item;
      if genSeqno {
        qi := qi.(seqno := lastBySeqno + 1);
        SetSnapshotRange(checkpointList[|checkpointList| - 1].snapStart, qi.seqno);
      }
      r := QueueNumbered(qi);
    }

    /** The second half: the sequence number is taken before the range check. */
    method QueueNumbered(qi: Item) returns (r: QueueOutcome)
      requires Valid() && qi.IsMutation() && view.last < qi.seqno && view.Back().phase.Open?
      modifies this
      ensures Valid() && PERSISTENCE in old(view).cursors
      ensures r == if old(view).Back().snapStart <= qi.seqno <= old(view).Back().snapEnd
                   then Done(Result(old(view), qi.key) != EXISTING_ITEM) else NotInSnapshotRange
      ensures view == if r.Done? then Enqueue(old(view), qi) else old(view).(last := qi.seqno)
    {
      hide Models, Enqueue, Result;
      BackIs(checkpointList, connCursors, numItems, view);
      var b := checkpointList[|checkpointList| - 1];
      lastBySeqno := qi.seqno;
      if !(b.snapStart <= lastBySeqno <= b.snapEnd) {
        LaterModels(checkpointList, connCursors, numItems, view, lastBySeqno);
        view := view.(last := lastBySeqno);
        return NotInSnapshotRange;
      }
      var result := QueueIntoOpen(qi);
      if result.NEW_ITEM? {
        numItems := numItems + 1;
      }
      return Done(!result.EXISTING_ITEM?);
    }

    // ---- Registering and removing cursors

    /** Put a cursor somewhere and its name with it. */
    method PlaceCursor(n: Name, c: CheckpointCursor)
      requires Valid() && CurIn(view.chks, c.At()) && c.offset == OffsetOf(view.chks, c.At())
      modifies `checkpointList, `connCursors, `view
      ensures Valid() && view == Move(old(view), n, c.At())
    {
      hide Models, Renamed, Named, CurIn, OffsetOf;
      PlaceFacts(checkpointList, connCursors, numItems, view, n, c);
      if n in connCursors {
        SetCursorModels(checkpointList, connCursors, numItems, view, n, c);
        checkpointList := Renamed(checkpointList, n, connCursors[n].chk, c.chk);
      } else {
        AddCursorModels(checkpointList, connCursors, numItems, view, n, c);
        checkpointList := Named(checkpointList, n, c.chk);
      }
      connCursors := connCursors[n := c];
      view := Move(view, n, c.At());
    }

    method FindCheckpoint(id: nat) returns (it: nat)
      requires Valid()
      ensures it == FindChk(view.chks, id) && it <= |view.chks| == |checkpointList|
    {
      hide Models;
      KeysAgree(checkpointList, connCursors, numItems, view);
      it := 0;
      while it < |checkpointList|
        invariant it <= |checkpointList| && FindChk(view.chks, id) == it + FindChk(view.chks[it..], id)
      {
        IdFacts(checkpointList, connCursors, numItems, view, it);
        if checkpointList[it].id == id {
          break;
        }
        assert view.chks[it..][1..] == view.chks[it + 1..];
        it := it + 1;
      }
    }

    method FindUnpersisted() returns (it: nat)
      requires Valid()
      ensures it == FirstUnpersisted(view.chks, view.preId) && it <= |view.chks| == |checkpointList|
    {
      hide Models;
      KeysAgree(checkpointList, connCursors, numItems, view);
      it := 0;
      while it < |checkpointList|
        invariant it <= |checkpointList|
        invariant FirstUnpersisted(view.chks, view.preId) == it + FirstUnpersisted(view.chks[it..], view.preId)
      {
        IdFacts(checkpointList, connCursors, numItems, view, it);
        if pCursorPreCheckpointId < checkpointList[it].id || pCursorPreCheckpointId == 0 {
          break;
        }
        assert view.chks[it..][1..] == view.chks[it + 1..];
        it := it + 1;
      }
    }

    /** The offset of a cursor at the beginning of checkpoint `it`. */
    method OffsetBefore(it: nat) returns (offset: nat)
      requires Valid() && it < |view.chks|
      ensures offset == Passed(view.chks[..it])
    {
      hide Models, Passed;
      KeysAgree(checkpointList, connCursors, numItems, view);
      offset := 0;
      var pos := 0;
      assert Passed(view.chks[..0]) == 0 by { NonePassed(view.chks); }
      while pos < it
        invariant pos <= it && offset == Passed(view.chks[..pos])
      {
        IdFacts(checkpointList, connCursors, numItems, view, pos);
        PassedOneMore(view.chks, pos);
        offset := offset + checkpointList[pos].numItems + 2;
        pos := pos + 1;
      }
    }

    /** Fails exactly when the checkpoint is not there and all are known to be persisted; the error leaves a
        registered cursor where it was but its name out of the checkpoint's set, so that `Valid()` is lost then. */
    method RegisterCursor(n: Name, id: nat, alwaysFromBeginning: bool, sendEnd: bool) returns (r: RegisterOutcome)
      requires Valid()
      modifies `checkpointList, `connCursors, `view
      ensures r.NoCheckpoint? <==> forall c :: c in old(view).chks ==> c.id != id && c.id <= old(view).preId
      ensures r.NoCheckpoint? ==> view == old(view) && connCursors == old(connCursors)
                                  && checkpointList == Forgotten(old(checkpointList), old(connCursors), n)
      ensures r.NoCheckpoint? ==>
                && |checkpointList| == |old(checkpointList)|
                && forall i :: 0 <= i < |checkpointList| ==>
                     checkpointList[i] == old(checkpointList)[i].(names := if n in connCursors && connCursors[n].chk == i
                                                                           then old(checkpointList)[i].names - {n} else old(checkpointList)[i].names)
      ensures r.Placed? ==> Valid() && view == Move(old(view), n, Registration.Registered(old(view), n, id, alwaysFromBeginning, sendEnd))
      ensures r.Placed? ==> (r.found <==> exists c :: c in old(view).chks && c.id == id)
      ensures r.Placed? ==>
                && n in view.cursors && view == Move(old(view), n, view.cursors[n])
                && PlacedFor(old(view), n, id, alwaysFromBeginning, sendEnd, view.cursors[n])
    {
      hide Models, Inv, Forgotten, FindChk, FirstUnpersisted, PlacedFor, Registration.Registered;
      ViewInv(checkpointList, connCursors, numItems, view);
      KeysAgree(checkpointList, connCursors, numItems, view);
      var it := FindCheckpoint(id);
      var found := it < |checkpointList|;
      FoundChk(checkpointList, connCursors, numItems, view, id);
      if !found {
        it := FindUnpersisted();
      }
      if it < |checkpointList| {
        RegisteredFor(view, n, id, alwaysFromBeginning, sendEnd);
        PlaceAt(n, it, found, id, alwaysFromBeginning, sendEnd);
        r := Placed(found);
      } else {
        ForgottenNames(checkpointList, connCursors, n);
        checkpointList := Forgotten(checkpointList, connCursors, n);
        r := NoCheckpoint;
      }
    }

    /** Put the cursor at checkpoint `it`, or leave it where it is if it is there already and may stay. */
    method PlaceAt(n: Name, it: nat, found: bool, ghost id: nat, alwaysFromBeginning: bool, sendEnd: bool)
      requires Valid() && it < |view.chks| && (found <==> FindChk(view.chks, id) < |view.chks|)
      requires it == if found then FindChk(view.chks, id) else FirstUnpersisted(view.chks, view.preId)
      modifies `checkpointList, `connCursors, `view
      ensures Valid() && view == Move(old(view), n, Registration.Registered(old(view), n, id, alwaysFromBeginning, sendEnd))
    {
      hide Models, Passed, Chk.Size, Chk.Items;
      KeysAgree(checkpointList, connCursors, numItems, view);
      if n in connCursors {
        ModelsFacts(checkpointList, connCursors, numItems, view, n);
      }
      var pos, offset;
      if found && !alwaysFromBeginning && n in connCursors && checkpointList[connCursors[n].chk].id == checkpointList[it].id {
        SameId(checkpointList, connCursors, numItems, view, connCursors[n].chk, it);
        pos, offset := connCursors[n].pos, connCursors[n].offset;
      } else {
        pos := 0;
        offset := OffsetBefore(it);
        FirstPlace(view.chks, Cur(it, 0, n != PERSISTENCE, sendEnd));
      }
      PlaceCursor(n, CheckpointCursor(it, pos, offset, n != PERSISTENCE, sendEnd));
    }

    /** The inner loop of `registerCursorBySeqno`. */
    method SkipTo(i: nat, seqno: nat) returns (it: nat)
      requires Valid() && i < |view.chks| && view.chks[i].base < seqno
      ensures FirstAbove(view.chks[i], it, seqno) && 2 <= it <= view.chks[i].Size()
    {
      hide Models, Chk.Items;
      KeysAgree(checkpointList, connCursors, numItems, view);
      ItemFacts(checkpointList, connCursors, numItems, view, i);
      HighIsLast(view.chks[i]);
      var items := checkpointList[i].toWrite;
      it := 1;
      while it != |items| && seqno >= items[it].seqno
        invariant 1 <= it <= |items| && forall j :: 1 <= j < it ==> items[j].seqno <= seqno
      {
        it := it + 1;
      }
    }

    /** The outer loop: the checkpoint and position that separate the mutations at or below `seqno` from those
        above, the offset there, and the first sequence number to announce. */
    method FindSeqno(seqno: nat, f: bool, e: bool) returns (c: CheckpointCursor, first: nat)
      requires Valid() && seqno <= High(view.Back())
      ensures c == CheckpointCursor(c.chk, c.pos, c.offset, f, e)
      ensures CurIn(view.chks, c.At()) && c.offset == OffsetOf(view.chks, c.At()) && Separates(view.chks, c.At(), seqno)
      ensures seqno < first && forall y :: y in MutsAhead(view.chks, c.At()) ==> first <= y.seqno
      ensures StartsAfter(view.chks, c.At(), seqno)
      ensures var items := view.chks[c.chk].Items();
              c.pos < |items| && first == if c.pos + 1 < |items| then items[c.pos + 1].seqno else items[c.pos].seqno + 1
    {
      hide Models, Separates, MutsAhead, OffsetOf, CurIn, High, FirstAbove, Passed, Chk.Size, Chk.Items, StartsAfter;
      KeysAgree(checkpointList, connCursors, numItems, view);
      var i, skipped := 0, 0;
      assert Passed(view.chks[..0]) == 0 by { NonePassed(view.chks); }
      while i < |checkpointList|
        invariant i < |checkpointList| == |view.chks|
        invariant skipped == Passed(view.chks[..i])
        invariant forall j :: 0 <= j < i ==> High(view.chks[j]) < seqno
      {
        ItemFacts(checkpointList, connCursors, numItems, view, i);
        HighIsLast(view.chks[i]);
        var items := checkpointList[i].toWrite;
        if seqno < items[1].seqno {
          SeparatesAtStart(checkpointList, connCursors, numItems, view, Cur(i, 0, f, e), seqno);
          SeparatedStarts(checkpointList, connCursors, numItems, view, Cur(i, 0, f, e), seqno);
          return CheckpointCursor(i, 0, skipped, f, e), items[1].seqno;
        } else if seqno <= items[|items| - 1].seqno {
          var it := SkipTo(i, seqno);
          SeparatesHere(checkpointList, connCursors, numItems, view, Cur(i, it - 1, f, e), it, seqno);
          SeparatedStarts(checkpointList, connCursors, numItems, view, Cur(i, it - 1, f, e), seqno);
          c := CheckpointCursor(i, it - 1, skipped + it - 1, f, e);
          first := if it == |items| then items[it - 1].seqno + 1 else items[it].seqno;
          return;
        }
        PassedOneMore(view.chks, i);
        skipped := skipped + checkpointList[i].numItems + 2;
        i := i + 1;
      }
    }

    /** Fails, changing nothing, for a sequence number above everything queued. Otherwise the cursor has ahead
        exactly the mutations above it, and the announced first sequence number leaves no gap. */
    method RegisterCursorBySeqno(n: Name, startBySeqno: nat, sendEnd: bool) returns (r: CursorRegResult)
      requires Valid()
      modifies `checkpointList, `connCursors, `view
      ensures Valid() && |old(view).chks| > 0
      ensures r.SeqnoTooHigh? <==> High(old(view).Back()) < startBySeqno
      ensures r.SeqnoTooHigh? ==> view == old(view)
      ensures r.Registered? ==>
                && n in view.cursors && view == Move(old(view), n, view.cursors[n]) && CurIn(view.chks, view.cursors[n])
                && MutsAhead(view.chks, view.cursors[n]) == Above(AllMuts(view.chks), startBySeqno)
                && view.cursors[n].sendEnd == sendEnd && !view.cursors[n].fromBeginning && StartsAfter(view.chks, view.cursors[n], startBySeqno)
                && (var items, p := view.chks[view.cursors[n].chk].Items(), view.cursors[n].pos;
                    p < |items| && r.first == if p + 1 < |items| then items[p + 1].seqno else items[p].seqno + 1)
                && startBySeqno < r.first && (forall y :: y in MutsAhead(view.chks, view.cursors[n]) ==> r.first <= y.seqno)
                && (r.fromOldest <==> r.first == view.chks[0].base + 1)
    {
      hide Models, Separates, MutsAhead, OffsetOf, CurIn, High, AllMuts, Above, Chk.Items, StartsAfter;
      KeysAgree(checkpointList, connCursors, numItems, view);
      ItemFacts(checkpointList, connCursors, numItems, view, |checkpointList| - 1);
      HighIsLast(view.Back());
      var items := checkpointList[|checkpointList| - 1].toWrite;
      if items[|items| - 1].seqno < startBySeqno {
        return SeqnoTooHigh;
      }
      var c, first := FindSeqno(startBySeqno, false, sendEnd);
      SeparatedModels(checkpointList, connCursors, numItems, view, c.At(), startBySeqno);
      PlaceCursor(n, c);
      KeysAgree(checkpointList, connCursors, numItems, view);
      ItemFacts(checkpointList, connCursors, numItems, view, 0);
      HighIsLast(view.chks[0]);
      return CursorRegResult.Registered(first, first == checkpointList[0].toWrite[1].seqno);
    }

    /** Without the persistence cursor, which this removes like any other, `Valid()` is lost. */
    method RemoveCursor(n: Name) returns (removed: bool)
      requires Valid()
      modifies `checkpointList, `connCursors, `view
      ensures removed <==> n in old(connCursors)
      ensures view == old(view).(cursors := old(view).cursors - {n}) && connCursors == old(connCursors) - {n}
      ensures if removed then Unnamed(old(checkpointList), n, checkpointList) else checkpointList == old(checkpointList)
      ensures Valid() <==> n != PERSISTENCE
    {
      hide Models, Unnamed;
      KeysAgree(checkpointList, connCursors, numItems, view);
      NeedsPersistence(checkpointList, connCursors, numItems, view);
      if n !in connCursors {
        assert view.cursors - {n} == view.cursors && connCursors - {n} == connCursors;
        return false;
      }
      ghost var list := checkpointList;
      RemoveName(n);
      if n != PERSISTENCE {
        DropModels(list, connCursors, numItems, view, n, checkpointList);
      }
      connCursors := connCursors - {n};
      view := Dropped(view, n);
      NeedsPersistence(checkpointList, connCursors, numItems, view);
      return true;
    }

    /** The loop of `removeCursor`: take the name out of every checkpoint. */
    method RemoveName(n: Name)
      modifies `checkpointList
      ensures Unnamed(old(checkpointList), n, checkpointList)
    {
      var i := 0;
      while i < |checkpointList|
        invariant i <= |checkpointList| == |old(checkpointList)|
        invariant forall j :: 0 <= j < |checkpointList| ==>
                    checkpointList[j] == if j < i then old(checkpointList)[j].(names := old(checkpointList)[j].names - {n})
                                         else old(checkpointList)[j]
      {
        checkpointList := checkpointList[i := checkpointList[i].(names := checkpointList[i].names - {n})];
        i := i + 1;
      }
    }

    /** All before the persistence cursor's checkpoint is on disk. */
    method ItemsPersisted()
      requires Valid()
      modifies `pCursorPreCheckpointId, `view
      ensures Valid() && PERSISTENCE in old(view).cursors && old(view).cursors[PERSISTENCE].chk < |old(view).chks|
      ensures view == old(view).(preId := view.preId)
      ensures view.preId + 1 == old(view).chks[old(view).cursors[PERSISTENCE].chk].id
    {
      hide Inv, ListRepresents, TotalItems, NamesAgree, OffsetOf, Chk.Items, Chk.Size;
      ModelsFacts(checkpointList, connCursors, numItems, view, PERSISTENCE);
      var id := checkpointList[connCursors[PERSISTENCE].chk].id;
      pCursorPreCheckpointId := if id > 0 then id - 1 else 0;
      PreIdModels(checkpointList, connCursors, numItems, view, pCursorPreCheckpointId);
      view := view.(preId := pCursorPreCheckpointId);
    }

    // ---- Removing checkpoints

    /** There never is an invalid name: the sweep takes nothing out. */
    method RemoveInvalidCursorsOnCheckpoint(i: nat)
      requires Valid() && i < |view.chks|
      modifies `checkpointList
      ensures checkpointList == old(checkpointList)
    {
      hide Models;
      KeysAgree(checkpointList, connCursors, numItems, view);
      NamesTell(checkpointList, connCursors, numItems, view, i);
      var todo, invalid := checkpointList[i].names, {};
      while todo != {}
        invariant todo <= checkpointList[i].names && invalid == {}
        invariant checkpointList == old(checkpointList)
        decreases todo
      {
        var n :| n in todo;
        todo := todo - {n};
        if n !in connCursors || connCursors[n].chk != i {
          invalid := invalid + {n};
        }
      }
      assert checkpointList[i].names - invalid == checkpointList[i].names;
      checkpointList := checkpointList[i := checkpointList[i].(names := checkpointList[i].names - invalid)];
      assert checkpointList == old(checkpointList);
    }

    /** The loop that counts the checkpoints to remove and their items. */
    method CountUnneeded(keepClosed: bool, maxCheckpoints: nat) returns (it: nat, unrefItems: nat, metaItems: nat)
      requires Valid()
      modifies `checkpointList
      ensures checkpointList == old(checkpointList) && RemovesTo(view, it, keepClosed, maxCheckpoints)
      ensures unrefItems == |AllMuts(view.chks[..it])| && unrefItems + metaItems == Passed(view.chks[..it])
    {
      hide Models, Passed, AllMuts, Removable;
      KeysAgree(checkpointList, connCursors, numItems, view);
      it, unrefItems, metaItems := 0, 0, 0;
      NothingYet(view);
      while it < |checkpointList|
        invariant it <= |checkpointList| == |view.chks| && checkpointList == old(checkpointList) && Removable(view, it)
        invariant unrefItems == |AllMuts(view.chks[..it])| && unrefItems + metaItems == Passed(view.chks[..it])
        invariant keepClosed && it > 0 ==> |view.chks| - it > maxCheckpoints
      {
        RemoveInvalidCursorsOnCheckpoint(it);
        NamesTell(checkpointList, connCursors, numItems, view, it);
        IdFacts(checkpointList, connCursors, numItems, view, it);
        var b := checkpointList[it];
        if |b.names| > 0 || b.id > pCursorPreCheckpointId {
          break;
        }
        PassedOneMore(view.chks, it);
        MutsOneMore(view.chks, it);
        RemovableOneMore(view, it);
        unrefItems, metaItems, it := unrefItems + b.numItems, metaItems + 2, it + 1;
        if keepClosed && |checkpointList| - it <= maxCheckpoints {
          break;
        }
      }
      RemovableChks(checkpointList, connCursors, numItems, view, it);
    }

    method DecrOffsets(names: set<Name>, total: nat)
      modifies `connCursors
      ensures connCursors == Decremented(old(connCursors), names, total)
    {
      ghost var cursors := connCursors;
      var todo := names * connCursors.Keys;
      while todo != {}
        invariant todo <= names * cursors.Keys && cursors.Keys == connCursors.Keys
        invariant forall n :: n in cursors ==>
                    connCursors[n] == if n in names && n !in todo then cursors[n].DecrOffset(total) else cursors[n]
        decreases todo
      {
        var n :| n in todo;
        todo := todo - {n};
        connCursors := connCursors[n := connCursors[n].DecrOffset(total)];
      }
    }

    /** Take the oldest unneeded checkpoints out of the list. */
    method RemoveUnneeded(keepClosed: bool, maxCheckpoints: nat) returns (unrefItems: nat, ghost k: nat)
      requires Valid()
      modifies `checkpointList, `numItems, `connCursors, `view
      ensures Valid() && RemovesTo(old(view), k, keepClosed, maxCheckpoints) && view == RemovePrefix(old(view), k)
      ensures unrefItems == |AllMuts(old(view).chks[..k])|
      ensures RemovesOldest(old(view), k, keepClosed, maxCheckpoints, view)
    {
      hide Models, Inv, Passed, AllMuts, RemovesTo, RemovePrefix, CheckpointCursor.DecrOffset, RemovesOldest;
      ViewInv(checkpointList, connCursors, numItems, view);
      var it, metaItems;
      it, unrefItems, metaItems := CountUnneeded(keepClosed, maxCheckpoints);
      k := it;
      RemovesFacts(view, it, keepClosed, maxCheckpoints);
      RemovesOldestEffect(view, it, keepClosed, maxCheckpoints);
      var total := unrefItems + metaItems;
      if total > 0 {
        DecrOffsets(connCursors.Keys, total);
      } else {
        NoDecrement(connCursors);
      }
      DecrementedModels(checkpointList, old(connCursors), numItems, view, it, total, connCursors);
      KeysAgree(checkpointList, old(connCursors), numItems, view);
      numItems := numItems - total;
      checkpointList := checkpointList[it..];
      connCursors := map n | n in connCursors :: connCursors[n].(chk := connCursors[n].chk - it);
      view := RemovePrefix(view, it);
    }

    // ---- Collapsing checkpoints

    /** One item of the loop below, for all the cursors still to be put. */
    method PutBefore(marks: map<Name, Mark>, chk: Checkpoint, at: nat, i: nat, todo: set<Name>,
                     ghost m: Chk, ghost was: map<Name, CheckpointCursor>) returns (rest: set<Name>)
      requires Represents(chk, m) && AllMutations(m.muts) && i < |chk.toWrite|
      requires PutSoFar(was, connCursors, marks, todo, chk.toWrite, at)
      requires forall n :: n in todo ==> was[n].fromBeginning || NoStops(chk.toWrite, marks[n], i)
      modifies `connCursors
      ensures rest <= todo && PutSoFar(was, connCursors, marks, rest, chk.toWrite, at)
      ensures forall n :: n in rest ==> was[n].fromBeginning || NoStops(chk.toWrite, marks[n], i + 1)
    {
      hide Represents, AllMutations, Place, MutationIdForKey;
      MarkIs(chk, m, i);
      var items := chk.toWrite;
      var id := MutationIdForKey(chk, items[i].key, !items[i].IsMutation());
      var last := if i == 0 then 0 else i - 1;
      rest := todo;
      var left := todo;
      while left != {}
        invariant left <= rest <= todo && PutSoFar(was, connCursors, marks, rest, items, at)
        invariant forall n :: n in rest ==> was[n].fromBeginning || NoStops(items, marks[n], if n in left then i else i + 1)
        decreases left
      {
        var n :| n in left;
        left := left - {n};
        var val := marks[n];
        if val.mutationId < id || (val.mutationId == id && val.onStart && items[last].op == Start) {
          if !connCursors[n].fromBeginning {
            PutStopped(was, connCursors, marks, rest, items, at, n, i);
            connCursors := connCursors[n := connCursors[n].(chk := at, pos := last, offset := last)];
            rest := rest - {n};
          }
        }
      }
    }

    method PutCursorsInCollapsedChk(marks: map<Name, Mark>, chk: Checkpoint, at: nat, ghost m: Chk)
      requires Represents(chk, m) && AllMutations(m.muts) && marks.Keys <= connCursors.Keys
      modifies `connCursors
      ensures PutSoFar(old(connCursors), connCursors, marks, {}, chk.toWrite, at)
    {
      hide Represents, AllMutations, Put, Stops;
      ghost var was := connCursors;
      var rest, i := marks.Keys, 0;
      LeadingIds(chk, m);
      while i < |chk.toWrite| && rest != {}
        invariant i <= |chk.toWrite| && PutSoFar(was, connCursors, marks, rest, chk.toWrite, at)
        invariant forall n :: n in rest ==> was[n].fromBeginning || NoStops(chk.toWrite, marks[n], i)
      {
        rest := PutBefore(marks, chk, at, i, rest, m, was);
        i := i + 1;
      }
      while rest != {}
        invariant rest != {} ==> i == |chk.toWrite|
        invariant PutSoFar(was, connCursors, marks, rest, chk.toWrite, at)
        invariant forall n :: n in rest ==> was[n].fromBeginning || NoStops(chk.toWrite, marks[n], i)
        decreases rest
      {
        var n :| n in rest;
        PutLeft(was, connCursors, marks, rest, chk.toWrite, at, n);
        var p := if connCursors[n].fromBeginning then 0 else i - 1;
        connCursors := connCursors[n := connCursors[n].(chk := at, pos := p, offset := p)];
        rest := rest - {n};
      }
    }

    /** Remember, for every cursor before checkpoint `hi`, its mutation id and whether it is on a checkpoint_start. */
    method CollectMarks(hi: nat) returns (marks: map<Name, Mark>)
      requires Valid()
      ensures Marks(checkpointList, connCursors, 0, hi, marks)
    {
      hide Models, MarkOf, Chk.Items, Chk.Size, OffsetOf;
      marks := map[];
      var todo := connCursors.Keys;
      while todo != {}
        invariant todo <= connCursors.Keys
        invariant forall n :: n in marks <==> n in connCursors && n !in todo && connCursors[n].chk < hi
        invariant forall n :: n in marks ==>
                    && connCursors[n].chk < |checkpointList| && connCursors[n].pos < |checkpointList[connCursors[n].chk].toWrite|
                    && marks[n] == MarkOf(checkpointList[connCursors[n].chk], connCursors[n].pos)
        decreases todo
      {
        var n :| n in todo;
        todo := todo - {n};
        ModelsFacts(checkpointList, connCursors, numItems, view, n);
        if connCursors[n].chk < hi {
          marks := marks[n := MarkOf(checkpointList[connCursors[n].chk], connCursors[n].pos)];
        }
      }
    }

    /** Whether a cursor in the newest closed checkpoint has not reached its mutations. */
    method Blocked(last: nat) returns (blocked: bool)
      requires Valid() && |view.chks| > 1 && last == |view.chks| - 2
      ensures blocked <==> CollapseBlocked(view)
    {
      hide Models, Chk.Items, Chk.Size, OffsetOf;
      KeysAgree(checkpointList, connCursors, numItems, view);
      NamesTell(checkpointList, connCursors, numItems, view, last);
      CursorsNamed(checkpointList, connCursors, numItems, view, last);
      var todo := checkpointList[last].names;
      while todo != {}
        invariant todo <= checkpointList[last].names
        invariant forall n :: n in checkpointList[last].names && n !in todo ==> n in view.cursors && view.cursors[n].pos >= 2
        decreases todo
      {
        var n :| n in todo;
        todo := todo - {n};
        ModelsFacts(checkpointList, connCursors, numItems, view, n);
        LeadingOps(view.chks[last], connCursors[n].pos);
        var op := checkpointList[last].toWrite[connCursors[n].pos].op;
        if op == Empty || op == Start {
          assert view.cursors[n].chk == |view.chks| - 2;
          return true;
        }
      }
      return false;
    }

    /** Merge all closed checkpoints into the newest, unless a cursor there has not reached its mutations. */
    method CollapseClosedCheckpoints()
      requires Valid()
      modifies `checkpointList, `numItems, `connCursors, `view
      ensures Valid() && |old(view).chks| > 0 && (forall n :: n in old(view).cursors ==> CurIn(old(view).chks, old(view).cursors[n]))
      ensures view == CollapseClosed(old(view))
      ensures MergesClosed(old(view), view)
    {
      hide Models, Inv, CollapseBlocked, CollapseClosed, CurIn, MergesClosed;
      ViewInv(checkpointList, connCursors, numItems, view);
      CollapseClosedEffect(view);
      CursorsWithin(checkpointList, connCursors, numItems, view);
      CollapseSkipped(view);
      if |checkpointList| <= 2 {
        return;
      }
      var last := |checkpointList| - 2;
      var blocked := Blocked(last);
      if blocked {
        return;
      }
      MergeClosed(last);
    }

    /** The merge itself, once nothing blocks it. */
    method MergeClosed(last: nat)
      requires Valid() && |view.chks| > 2 && !CollapseBlocked(view) && last == |view.chks| - 2
      modifies `checkpointList, `numItems, `connCursors, `view
      ensures Valid() && (forall n :: n in old(view).cursors ==> CurIn(old(view).chks, old(view).cursors[n]))
      ensures view == CollapseClosed(old(view))
    {
      hide Models, Marks, Merged, Duplicated, CollapseBlocked, CollapseClosed, Spread, Decremented, Spliced, PutSoFar, CurIn, NamesOfLast,
           Represents, AllMutations, ListRepresents, Mergeable;
      CursorsWithin(checkpointList, connCursors, numItems, view);
      var list, fast := checkpointList, checkpointList[last].names + checkpointList[last + 1].names;
      ghost var c0, m := connCursors, Merged(view.chks[..last + 1]);
      var marks := CollectMarks(last);
      MergeFacts(list, connCursors, numItems, view);
      var b, dup, metas := MergeIntoLast(list[..last + 1], view.chks[..last + 1]);
      MergedFacts(list, connCursors, numItems, view, b, m);
      var total, added := dup + metas, b.numItems - list[last].numItems;
      MarkedCursors(list, c0, 0, last, marks);
      connCursors := Spread(connCursors, last, added);
      SpreadKeys(c0, last, added);
      PutCursorsInCollapsedChk(marks, b, last, m);
      CollapseClosedDone(list, c0, numItems, view, last, m, b, dup, marks, fast, added, connCursors);
      DecrOffsets(fast, total);
      connCursors := Spliced(connCursors, last);
      numItems := numItems - total;
      checkpointList := [b.(names := b.names + marks.Keys), list[last + 1]];
      view := CollapseClosed(view);
    }

    /** Merge all checkpoints into one open checkpoint with the given id. The id is set last here: nothing before
        that reads it. */
    method CollapseCheckpoints(id: nat)
      requires Valid() && id > 0
      modifies `checkpointList, `numItems, `connCursors, `view
      ensures Valid() && |old(view).chks| > 0 && (forall n :: n in old(view).cursors ==> CurIn(old(view).chks, old(view).cursors[n]))
      ensures view == CollapseAll(old(view), id)
      ensures MergesAll(old(view), id, view)
    {
      hide Models, Inv, Marks, Merged, Duplicated, CollapseAll, PutSoFar, Represents, AllMutations, DistinctKeys, MergesAll;
      ViewInv(checkpointList, connCursors, numItems, view);
      CollapseAllEffect(view, id);
      CursorsWithin(checkpointList, connCursors, numItems, view);
      var list := checkpointList;
      ghost var c0, m0, m := connCursors, Merged(view.chks), MergedAll(view.chks, id);
      var marks := CollectMarks(|list|);
      MergeFacts(list, connCursors, numItems, view);
      assert list[..|list|] == list && view.chks[..|view.chks|] == view.chks;
      var b, dup, metas := MergeIntoLast(list, view.chks);
      var gone := dup + metas;
      MergedPhase(list, connCursors, numItems, view, b);
      DuplicatedAll(view.chks, id, dup);
      MarkedCursors(list, c0, 0, |list|, marks);
      if b.closed {
        ReopenedRepresents(b, m0);
        b := Reopened(b);
        gone := gone + 1;
      }
      WithIdRepresents(b, m0.(phase := Open), id);
      b := WithId(b, id);
      PutCursorsInCollapsedChk(marks, b, 0, m);
      NamesIrrelevant(b, b.names + marks.Keys, m);
      b := b.(names := b.names + marks.Keys);
      CollapseAllModels(list, c0, numItems, view, id, dup, m, b, marks, connCursors);
      numItems := numItems - gone;
      checkpointList := [b];
      view := CollapseAll(view, id);
    }

    /** The periodic clean-up: maybe open a checkpoint, remove the unneeded ones, and on a replica that does not keep
        closed checkpoints merge those that are left. Whether memory is below the high-water mark is an input. */
    method RemoveClosedUnrefCheckpoints(active: bool, replica: bool, maxCheckpoints: nat, wantNew: bool, keepClosed: bool,
                                        memoryLow: bool, mergeSupported: bool)
        returns (unrefItems: nat, newOpenCheckpointCreated: bool, ghost ready: View, ghost k: nat, ghost kept: View)
      requires Valid()
      modifies `checkpointList, `numItems, `connCursors, `view
      ensures Valid() && |old(view).chks| > 0
      ensures newOpenCheckpointCreated <==> active && wantNew && Snapshots.RoomForOne(old(view), maxCheckpoints)
      ensures ready == if newOpenCheckpointCreated then Snapshots.NextOpen(old(view)) else old(view)
      ensures if keepClosed && memoryLow && |ready.chks| <= maxCheckpoints then unrefItems == 0 && view == ready else
              && RemovesTo(ready, k, keepClosed, maxCheckpoints) && unrefItems == |AllMuts(ready.chks[..k])|
              && var w := RemovePrefix(ready, k);
              && |w.chks| > 0 && (forall n :: n in w.cursors ==> CurIn(w.chks, w.cursors[n]))
              && view == if mergeSupported && !keepClosed && replica then CollapseClosed(w) else w
      ensures newOpenCheckpointCreated <==>
                active && wantNew && (|old(view).chks| < maxCheckpoints ||
                                      (|old(view).chks| == maxCheckpoints && forall n :: n in old(view).cursors ==> old(view).cursors[n].chk != 0))
      ensures if newOpenCheckpointCreated then OpensNext(old(view), old(view).Back().id + 1, old(view).last, old(view).last, ready) else ready == old(view)
      ensures if keepClosed && memoryLow && |ready.chks| <= maxCheckpoints then view == ready else
              && RemovesOldest(ready, k, keepClosed, maxCheckpoints, kept)
              && if mergeSupported && !keepClosed && replica then MergesClosed(kept, view) else view == kept
    {
      hide Models, Roll, CollapseClosed, RemovePrefix, RemovesTo, CurIn, AllMuts, OpensNext, RemovesOldest, MergesClosed;
      BackIs(checkpointList, connCursors, numItems, view);
      RoomIs(checkpointList, connCursors, numItems, view, maxCheckpoints);
      unrefItems, k, newOpenCheckpointCreated := 0, 0, false;
      var canCreate := |checkpointList| < maxCheckpoints || (|checkpointList| == maxCheckpoints && checkpointList[0].names == {});
      if active && canCreate && wantNew {
        AddNewCheckpoint(checkpointList[|checkpointList| - 1].id + 1, lastBySeqno, lastBySeqno);
        newOpenCheckpointCreated := true;
      }
      ready, kept := view, view;
      KeysAgree(checkpointList, connCursors, numItems, view);
      if keepClosed && memoryLow && |checkpointList| <= maxCheckpoints {
        return;
      }
      unrefItems, k := RemoveUnneeded(keepClosed, maxCheckpoints);
      kept := view;
      CursorsWithin(checkpointList, connCursors, numItems, view);
      if mergeSupported && !keepClosed && replica {
        CollapseClosedCheckpoints();
      }
    }

    // ---- Asking what is left

    method HasNext(n: Name) returns (hasMore: bool)
      requires Valid()
      ensures connCursors.Keys == view.cursors.Keys
      ensures n !in connCursors ==> !hasMore
      ensures n in connCursors ==> CurIn(view.chks, view.cursors[n]) && (hasMore <==> Ahead(view.chks, view.cursors[n]) != [])
    {
      hide Models, Chk.Items, Chk.Size, Ahead, OffsetOf;
      KeysAgree(checkpointList, connCursors, numItems, view);
      if n !in connCursors {
        return false;
      }
      ModelsFacts(checkpointList, connCursors, numItems, view, n);
      StepAhead(view.chks, view.cursors[n]);
      var c := connCursors[n];
      hasMore := !(c.pos + 1 == |checkpointList[c.chk].toWrite| && c.chk == |checkpointList| - 1);
    }

    /** The meta items a cursor can skip. */
    method GetNumOfMetaItemsFromCursor(n: Name) returns (metaItems: nat)
      requires Valid() && n in connCursors
      ensures n in view.cursors && CurIn(view.chks, view.cursors[n])
      ensures metaItems == |Ahead(view.chks, view.cursors[n])| - |MutsAhead(view.chks, view.cursors[n])|
    {
      hide Models, Chk.Items, Chk.Size, Ahead, MutsAhead, OffsetOf;
      ModelsFacts(checkpointList, connCursors, numItems, view, n);
      AheadByKind(view.chks, view.cursors[n]);
      var c := connCursors[n];
      metaItems := MetaItemsHere(n);
      var i := c.chk + 1;
      assert view.chks[|view.chks|..] == [];
      while i < |checkpointList|
        invariant c.chk < i <= |checkpointList| == |view.chks|
        invariant metaItems + Metas(view.chks[i..]) == MetasHere(view.chks[c.chk], c.pos) + Metas(view.chks[c.chk + 1..])
      {
        ClosedFacts(checkpointList, connCursors, numItems, view, i);
        assert view.chks[i..][1..] == view.chks[i + 1..];
        if checkpointList[i].closed {
          metaItems := metaItems + 2;
        } else {
          metaItems := metaItems + 1;
        }
        i := i + 1;
      }
    }

    /** The first round of that loop, for the cursor's own checkpoint. */
    method MetaItemsHere(n: Name) returns (metaItems: nat)
      requires Valid() && n in connCursors
      ensures connCursors[n].chk < |view.chks| && metaItems == MetasHere(view.chks[connCursors[n].chk], connCursors[n].pos)
    {
      hide Models, Chk.Items, OffsetOf;
      ModelsFacts(checkpointList, connCursors, numItems, view, n);
      var c := connCursors[n];
      var b := checkpointList[c.chk];
      metaItems := 0;
      if c.pos + 1 == |b.toWrite| {
        return;
      }
      StartIsNext(view.chks[c.chk], c.pos);
      if b.toWrite[c.pos + 1].op == Start {
        metaItems := if b.closed then 2 else 1;
      } else if b.closed {
        metaItems := 1;
      }
    }

    /** The arithmetic count equals the number of mutations ahead. */
    method GetNumItemsForCursor(n: Name) returns (remains: nat)
      requires Valid()
      ensures connCursors.Keys == view.cursors.Keys
      ensures n !in connCursors ==> remains == 0
      ensures n in connCursors ==> CurIn(view.chks, view.cursors[n]) && remains == |MutsAhead(view.chks, view.cursors[n])|
    {
      hide Models, CurIn, Ahead, MutsAhead, Metas, MetasHere;
      KeysAgree(checkpointList, connCursors, numItems, view);
      remains := 0;
      if n in connCursors {
        var metas := GetNumOfMetaItemsFromCursor(n);
        RemainingModels(checkpointList, connCursors, numItems, view, n);
        AheadByKind(view.chks, view.cursors[n]);
        var offset := connCursors[n].offset + metas;
        remains := if numItems > offset then numItems - offset else 0;
      }
    }
  }
}
