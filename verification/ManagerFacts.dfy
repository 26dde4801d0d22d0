/** Facts read off a valid concrete state, one small set at a time. */
module ManagerFacts {
  import opened Log
  import opened Checkpoints
  import opened CheckpointLaws
  import opened ManagerState
  import opened Registration
  import opened Removal
  import Snapshots

  /** `queue_dirty_t`. */
  datatype QueueResult = EXISTING_ITEM | PERSIST_AGAIN | NEW_ITEM

  /** Whether a cursor is in checkpoint `back` at or after position `p`. */
  predicate AtOrAfter(c: CheckpointCursor, back: nat, p: nat) {
    c.chk == back && c.pos >= p
  }

  /** What queueing a key returns: a superseded entry is persisted again if the persistence cursor had reached it. */
  ghost function Result(v: View, k: Key): QueueResult
    requires |v.chks| > 0 && PERSISTENCE in v.cursors
  {
    var i, c := Find(v.Back().muts, k), v.cursors[PERSISTENCE];
    if i == |v.Back().muts| then NEW_ITEM
    else if c.chk == |v.chks| - 1 && c.pos >= i + 2 then PERSIST_AGAIN
    else EXISTING_ITEM
  }

  /** The result, read off the key index. */
  lemma {:induction false} ResultByIndex(list: seq<Checkpoint>, cursors: map<Name, CheckpointCursor>, num: nat, v: View, k: Key)
    requires Models(list, cursors, num, v)
    ensures PERSISTENCE in v.cursors
    ensures Result(v, k) == if k !in list[|list| - 1].keyIndex then NEW_ITEM
                            else if AtOrAfter(cursors[PERSISTENCE], |list| - 1, list[|list| - 1].keyIndex[k].position)
                            then PERSIST_AGAIN else EXISTING_ITEM
  {
    hide Inv, ListRepresents, NamesAgree, TotalItems, CursorsAre, Represents, Chk.Wf, DistinctKeys, Find;
    BackFacts(list, cursors, num, v, k);
  }

  /** No mutation of the cursor's own checkpoint is left. */
  predicate LastInChk(cs: seq<Chk>, c: Cur)
    requires CurIn(cs, c)
  {
    c.pos + 1 == cs[c.chk].Size() || (cs[c.chk].phase.Closed? && c.pos + 2 == cs[c.chk].Size())
  }

  /** Said of the mutations ahead: those left are all of later checkpoints. */
  lemma {:induction false} LastLeft(cs: seq<Chk>, c: Cur)
    requires CurIn(cs, c) && c.pos > 0
    ensures LastInChk(cs, c) <==> MutsAhead(cs, c) == AllMuts(cs[c.chk + 1..])
  {
    hide AllMuts;
    var b, rest := cs[c.chk], AllMuts(cs[c.chk + 1..]);
    assert |b.muts[b.Given(c.pos)..] + rest| == |b.muts| - b.Given(c.pos) + |rest|;
    if b.Given(c.pos) == |b.muts| {
      assert [] + rest == rest;
    }
  }

  lemma {:induction false} StepLands(cs: seq<Chk>, c: Cur)
    requires CurIn(cs, c) && !AtEnd(cs, c)
    ensures Step(cs, c).pos > 0
  {
  }

  lemma {:induction false} ViewInv(list: seq<Checkpoint>, cursors: map<Name, CheckpointCursor>, num: nat, v: View)
    requires Models(list, cursors, num, v)
    ensures Inv(v) && |v.chks| > 0
  {
    hide Inv, ListRepresents, NamesAgree, CursorsAre, TotalItems;
  }

  /** An item is the checkpoint_end exactly when the checkpoint is closed and it is the last. */
  lemma {:induction false} EndIsLast(c: Chk, pos: nat)
    requires pos < c.Size() && AllMutations(c.muts)
    ensures c.Items()[pos].op == End <==> c.phase.Closed? && pos + 1 == c.Size()
  {
    assert 2 <= pos < 2 + |c.muts| ==> c.Items()[pos] == c.muts[pos - 2];
  }

  lemma {:induction false} KeysAgree(list: seq<Checkpoint>, cursors: map<Name, CheckpointCursor>, num: nat, v: View)
    requires Models(list, cursors, num, v)
    ensures cursors.Keys == v.cursors.Keys && |list| == |v.chks| > 0
  {
  }

  lemma {:induction false} ClosedFacts(list: seq<Checkpoint>, cursors: map<Name, CheckpointCursor>, num: nat, v: View, i: nat)
    requires Models(list, cursors, num, v) && i < |list|
    ensures |list| == |v.chks| && list[i].closed == v.chks[i].phase.Closed?
  {
    assert Represents(list[i], v.chks[i]);
  }

  lemma {:induction false} CursorsBelow(list: seq<Checkpoint>, cursors: map<Name, CheckpointCursor>, num: nat, v: View)
    requires Models(list, cursors, num, v)
    ensures forall n :: n in cursors ==> n in v.cursors && cursors[n].chk == v.cursors[n].chk < |v.chks|
  {
    hide Inv, NamesAgree, TotalItems, ListRepresents, OffsetOf;
  }

  /** A checkpoint after the last changes nothing for the cursors in those before it. */
  lemma {:induction false} EnterNextSame(cs: seq<Chk>, b: Chk, at: map<Name, Cur>)
    requires forall n :: n in at ==> at[n].chk < |cs|
    ensures (map n | n in at :: EnterNext(cs + [b], at[n])) == (map n | n in at :: EnterNext(cs, at[n]))
  {
  }

  lemma {:induction false} BackIs(list: seq<Checkpoint>, cursors: map<Name, CheckpointCursor>, num: nat, v: View)
    requires Models(list, cursors, num, v)
    ensures |list| == |v.chks| > 0 && PERSISTENCE in v.cursors
    ensures var b, c := list[|list| - 1], v.Back();
            && b.id == c.id && b.closed == c.phase.Closed? && b.snapStart == c.snapStart && b.snapEnd == c.snapEnd
            && (b.numItems == 0 <==> c.muts == [])
  {
    hide Inv, NamesAgree, TotalItems, OffsetOf, Chk.Items, IndexAgrees, MetaIndex;
    assert Represents(list[|list| - 1], v.Back());
  }

  lemma {:induction false} RoomIs(list: seq<Checkpoint>, cursors: map<Name, CheckpointCursor>, num: nat, v: View, maxCheckpoints: nat)
    requires Models(list, cursors, num, v)
    ensures |list| < maxCheckpoints || (|list| == maxCheckpoints && list[0].names == {}) <==> Snapshots.RoomForOne(v, maxCheckpoints)
  {
    hide Inv, TotalItems, OffsetOf, ListRepresents;
    if list[0].names != {} {
      var n :| n in list[0].names;
      assert v.cursors[n].chk == 0;
    }
  }

  lemma {:induction false} LaterModels(list: seq<Checkpoint>, cursors: map<Name, CheckpointCursor>, num: nat, v: View, last: nat)
    requires Models(list, cursors, num, v) && v.last <= last
    ensures Models(list, cursors, num, v.(last := last))
  {
    hide ChksInv, NamesAgree, TotalItems, ListRepresents;
  }

  lemma {:induction false} PlaceFacts(list: seq<Checkpoint>, cursors: map<Name, CheckpointCursor>, num: nat, v: View, n: Name, c: CheckpointCursor)
    requires Models(list, cursors, num, v) && CurIn(v.chks, c.At())
    ensures c.chk < |list| && (n in cursors ==> cursors[n].chk < |list|)
  {
    hide Inv, NamesAgree, TotalItems, ListRepresents, OffsetOf;
  }

  lemma {:induction false} IdFacts(list: seq<Checkpoint>, cursors: map<Name, CheckpointCursor>, num: nat, v: View, i: nat)
    requires Models(list, cursors, num, v) && i < |list|
    ensures |list| == |v.chks| && list[i].id == v.chks[i].id && list[i].numItems == |v.chks[i].muts|
  {
    assert Represents(list[i], v.chks[i]);
  }

  lemma {:induction false} SameId(list: seq<Checkpoint>, cursors: map<Name, CheckpointCursor>, num: nat, v: View, i: nat, j: nat)
    requires Models(list, cursors, num, v) && i < |list| && j < |list|
    ensures list[i].id == list[j].id <==> i == j
  {
    hide NamesAgree, TotalItems, OffsetOf, Chk.Wf, Chk.Items, IndexAgrees, MetaIndex;
    assert Represents(list[i], v.chks[i]) && Represents(list[j], v.chks[j]);
  }

  lemma {:induction false} FirstPlace(cs: seq<Chk>, c: Cur)
    requires c.chk < |cs| && c.pos == 0
    ensures CurIn(cs, c) && OffsetOf(cs, c) == Passed(cs[..c.chk])
  {
  }

  lemma {:induction false} NonePassed(cs: seq<Chk>)
    ensures Passed(cs[..0]) == 0
  {
  }

  lemma {:induction false} ItemFacts(list: seq<Checkpoint>, cursors: map<Name, CheckpointCursor>, num: nat, v: View, i: nat)
    requires Models(list, cursors, num, v) && i < |list|
    ensures |list| == |v.chks| && list[i].toWrite == v.chks[i].Items() && |list[i].toWrite| == v.chks[i].Size() >= 2
    ensures list[i].numItems == |v.chks[i].muts|
  {
    hide Inv, NamesAgree, TotalItems, OffsetOf, Chk.Items, IndexAgrees, MetaIndex;
    assert Represents(list[i], v.chks[i]);
  }

  lemma {:induction false} SeparatesAtStart(list: seq<Checkpoint>, cursors: map<Name, CheckpointCursor>, num: nat, v: View, c: Cur, seqno: nat)
    requires Models(list, cursors, num, v) && c.chk < |v.chks| && c.pos == 0 && seqno <= v.chks[c.chk].base
    requires forall j :: 0 <= j < c.chk ==> High(v.chks[j]) < seqno
    ensures CurIn(v.chks, c) && OffsetOf(v.chks, c) == Passed(v.chks[..c.chk]) && Separates(v.chks, c, seqno)
    ensures forall y :: y in MutsAhead(v.chks, c) ==> v.chks[c.chk].base + 1 <= y.seqno
  {
    hide ListRepresents, NamesAgree, TotalItems, CursorsAre, MutsAhead, Increasing, DistinctKeys, AllMutations;
    AheadFrom(v.chks, c, v.chks[c.chk].base + 1);
  }

  lemma {:induction false} SeparatesHere(list: seq<Checkpoint>, cursors: map<Name, CheckpointCursor>, num: nat, v: View, c: Cur, it: nat, seqno: nat)
    requires Models(list, cursors, num, v) && c.chk < |v.chks| && FirstAbove(v.chks[c.chk], it, seqno) && c.pos == it - 1
    requires seqno <= High(v.chks[c.chk]) && forall j :: 0 <= j < c.chk ==> High(v.chks[j]) < seqno
    ensures CurIn(v.chks, c) && OffsetOf(v.chks, c) == Passed(v.chks[..c.chk]) + c.pos && Separates(v.chks, c, seqno)
    ensures var k := v.chks[c.chk];
            var first := if it == k.Size() then k.Items()[it - 1].seqno + 1 else k.Items()[it].seqno;
            seqno < first && forall y :: y in MutsAhead(v.chks, c) ==> first <= y.seqno
  {
    hide ListRepresents, NamesAgree, TotalItems, CursorsAre, MutsAhead, Increasing, DistinctKeys, AllMutations, Chk.Items;
    var k := v.chks[c.chk];
    FirstAboveSplits(k, it, seqno);
    HighIsLast(k);
    AheadFrom(v.chks, c, if it == k.Size() then k.Items()[it - 1].seqno + 1 else k.Items()[it].seqno);
  }

  lemma {:induction false} SeparatedModels(list: seq<Checkpoint>, cursors: map<Name, CheckpointCursor>, num: nat, v: View, c: Cur, seqno: nat)
    requires Models(list, cursors, num, v) && CurIn(v.chks, c) && Separates(v.chks, c, seqno)
    ensures MutsAhead(v.chks, c) == Above(AllMuts(v.chks), seqno)
  {
    hide ListRepresents, NamesAgree, TotalItems, CursorsAre, MutsAhead, Separates, ChksInv;
    SeparatedAhead(v.chks, c, seqno);
  }

  lemma {:induction false} PreIdModels(list: seq<Checkpoint>, cursors: map<Name, CheckpointCursor>, num: nat, v: View, preId: nat)
    requires Models(list, cursors, num, v)
    ensures Models(list, cursors, num, v.(preId := preId))
  {
    hide ChksInv, ListRepresents, NamesAgree, TotalItems, CursorsAre;
  }

  lemma {:induction false} NothingYet(v: View)
    ensures Passed(v.chks[..0]) == 0 && AllMuts(v.chks[..0]) == [] && Removable(v, 0)
  {
  }

  lemma {:induction false} MutsOneMore(cs: seq<Chk>, i: nat)
    requires i < |cs|
    ensures |AllMuts(cs[..i + 1])| == |AllMuts(cs[..i])| + |cs[i].muts|
  {
    assert cs[..i + 1] == cs[..i] + [cs[i]];
    AllMutsOfConcat(cs[..i], [cs[i]]);
    assert AllMuts([cs[i]]) == cs[i].muts + AllMuts([]);
  }

  lemma {:induction false} NoDecrement(cursors: map<Name, CheckpointCursor>)
    ensures cursors == map n | n in cursors :: cursors[n].DecrOffset(0)
  {
  }

  lemma {:induction false} RemovesFacts(v: View, k: nat, keepClosed: bool, maxCheckpoints: nat)
    requires RemovesTo(v, k, keepClosed, maxCheckpoints)
    ensures k < |v.chks| && Removable(v, k)
  {
  }

  lemma {:induction false} StayAtEnd(cs: seq<Chk>, c: Cur)
    requires CurIn(cs, c) && AtEnd(cs, c)
    ensures Step(cs, c) == c
  {
  }

  /** A cursor with nothing ahead that has been given `items` since it was at `c0` has been given all. */
  lemma {:induction false} DrainedTo(cs: seq<Chk>, c0: Cur, c: Cur, items: seq<Item>)
    requires CurIn(cs, c0) && CurIn(cs, c) && AtEnd(cs, c) && c == c0.(chk := c.chk, pos := c.pos)
    requires items + [] + Ahead(cs, c) == Ahead(cs, c0)
    ensures items == Ahead(cs, c0) && c == LastPlace(cs, c0) && c.chk == |cs| - 1
  {
    StepAhead(cs, c);
    assert items + [] + [] == items;
  }

  lemma {:induction false} RangeFacts(list: seq<Checkpoint>, cursors: map<Name, CheckpointCursor>, num: nat, v: View, n: Name)
    requires Models(list, cursors, num, v) && n in cursors
    ensures n in v.cursors && CurIn(v.chks, v.cursors[n]) && cursors[n].chk == v.cursors[n].chk < |list|
    ensures list[cursors[n].chk].snapStart == v.chks[v.cursors[n].chk].snapStart
    ensures list[cursors[n].chk].snapEnd == v.chks[v.cursors[n].chk].snapEnd
  {
    assert CurIn(v.chks, v.cursors[n]);
    assert Represents(list[cursors[n].chk], v.chks[cursors[n].chk]);
  }

  lemma {:induction false} CursorsNamed(list: seq<Checkpoint>, cursors: map<Name, CheckpointCursor>, num: nat, v: View, i: nat)
    requires Models(list, cursors, num, v) && i < |list|
    ensures forall n :: n in v.cursors && v.cursors[n].chk == i ==> n in list[i].names
  {
    hide Inv, TotalItems, OffsetOf, ListRepresents;
  }

  lemma {:induction false} LeadingOps(c: Chk, pos: nat)
    requires pos < c.Size() && AllMutations(c.muts)
    ensures c.Items()[pos].op == Empty || c.Items()[pos].op == Start <==> pos < 2
  {
    assert 2 <= pos < 2 + |c.muts| ==> c.Items()[pos] == c.muts[pos - 2];
  }

  lemma {:induction false} StartModels(last: nat, s: nat, e: nat, id: nat)
    requires id > 0
    ensures Models([Opened(id, s, e, last).(names := {PERSISTENCE})], map[PERSISTENCE := CheckpointCursor(0, 0, 0, false, false)], 1,
                   View([Chk(id, s, e, last, [], Open)], map[PERSISTENCE := Cur(0, 0, false, false)], last, 0))
  {
    hide Opened;
    OpenedRepresents(id, s, e, last);
    OneTotal(Chk(id, s, e, last, [], Open));
  }
}
