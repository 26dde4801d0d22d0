/** The concrete state after a collapse: cursors re-placed, offsets and counters brought down. */
module Collapsing {
  import opened Log
  import opened Checkpoints
  import opened CollapseLaws
  import opened ManagerState
  import opened Removal
  import opened Merging

  /** What is remembered of a slow cursor: the mutation id of its item, and whether that is a checkpoint_start. */
  datatype Mark = Mark(mutationId: nat, onStart: bool)

  function MarkOf(b: Checkpoint, pos: nat): Mark
    requires pos < |b.toWrite|
  {
    var x := b.toWrite[pos];
    Mark(MutationIdForKey(b, x.key, !x.IsMutation()), x.op == Start)
  }

  lemma {:induction false} MarkIsSeqno(b: Checkpoint, c: Chk, pos: nat)
    requires Represents(b, c) && AllMutations(c.muts) && pos < c.Size()
    ensures |b.toWrite| == c.Size() && MarkOf(b, pos) == Mark(c.Items()[pos].seqno, c.Items()[pos].op == Start)
  {
    hide IndexAgrees, MetaIndex, Chk.Items, MutationIdForKey;
    MutationIdIsSeqno(b, c, pos);
  }

  /** Where a marked cursor ends up in the merged list `items` of checkpoint `chk`. */
  function Put(c: CheckpointCursor, items: seq<Item>, m: Mark, chk: nat): CheckpointCursor {
    var p := if c.fromBeginning then 0 else Place(items, m.mutationId, m.onStart);
    c.(chk := chk, pos := p, offset := p)
  }

  lemma {:induction false} FirstStopIs(items: seq<Item>, seqno: nat, onStart: bool, i: nat)
    requires i <= |items| && (forall j :: 0 <= j < i ==> !Stops(items, j, seqno, onStart))
    requires i < |items| ==> Stops(items, i, seqno, onStart)
    ensures FirstStop(items, 0, seqno, onStart) == i
  {
  }

  /** The merge counts as duplicated what it does not carry over. */
  ghost predicate Duplicated(cs: seq<Chk>, m: Chk, dup: nat)
    requires |cs| > 0
  {
    dup + |m.muts| == |AllMuts(cs[..|cs| - 1])| + |cs[|cs| - 1].muts|
  }

  lemma {:induction false} PassedByKind(cs: seq<Chk>)
    ensures Passed(cs) == |AllMuts(cs)| + 2 * |cs|
  {
    if cs != [] {
      PassedByKind(cs[1..]);
    }
  }

  lemma {:induction false} MergeStep(cs: seq<Chk>, i: nat, m: Chk, dup: nat, m': Chk, added: nat)
    requires 0 < i < |cs| && m == Merged(cs[i..]) && m' == Absorb(m, cs[i - 1]) && Duplicated(cs[i..], m, dup)
    requires added + |m.muts| == |m'.muts| && added <= |cs[i - 1].muts|
    ensures m' == Merged(cs[i - 1..]) && Duplicated(cs[i - 1..], m', dup + |cs[i - 1].muts| - added)
  {
    assert cs[i - 1..][1..] == cs[i..];
    var t := cs[i - 1..][..|cs| - i];
    assert t[1..] == cs[i..][..|cs| - i - 1] && t[0] == cs[i - 1];
  }

  // ---- Collapsing the closed checkpoints

  /** How each cursor is left when checkpoints 0 to `k` become one, at 0, with `added` more mutations than `k` had. */
  function Settled(c: CheckpointCursor, k: nat, items: seq<Item>, m: Mark, added: nat, total: nat): CheckpointCursor {
    if c.chk < k then Put(c, items, m, 0)
    else if c.chk == k then c.DecrOffset(total).(chk := 0, pos := c.pos + added)
    else c.DecrOffset(total).(chk := 1)
  }

  lemma {:induction false} SettledIs(v: View, m: Chk, c: CheckpointCursor, at: Cur, mark: Mark, dup: nat, total: nat)
    requires |v.chks| > 2 && CurIn(v.chks, at) && CursorIs(v.chks, c, at)
    requires Duplicated(v.chks[..|v.chks| - 1], m, dup) && total == dup + 2 * (|v.chks| - 2)
    requires |m.muts| >= |v.chks[|v.chks| - 2].muts|
    requires at.chk < |v.chks| - 2 ==> var x := v.chks[at.chk].Items()[at.pos]; mark == Mark(x.seqno, x.op == Start)
    ensures CursorIs([m, v.Back()], Settled(c, |v.chks| - 2, m.Items(), mark, |m.muts| - |v.chks[|v.chks| - 2].muts|, total),
                     CollapsedCur(v, m, at))
  {
    hide AllMuts, Chk.Items, Place, Passed;
    var cs, k := v.chks, |v.chks| - 2;
    assert cs[..k + 1][..k] == cs[..k];
    PassedByKind(cs[..k]);
    PassedOneMore(cs, k);
    NoPassed(m, v.Back());
  }

  lemma {:induction false} NoPassed(m: Chk, b: Chk)
    ensures Passed([m, b][..0]) == 0 && Passed([m, b][..1]) == |m.muts| + 2
  {
    assert [m, b][..1] == [m];
  }

  lemma {:induction false} CollapsedTotal(cs: seq<Chk>, m: Chk, dup: nat)
    requires |cs| > 2 && (forall i :: 0 <= i < |cs| - 1 ==> cs[i].phase.Closed?) && m.phase.Closed?
    requires Duplicated(cs[..|cs| - 1], m, dup)
    ensures TotalItems(cs) == TotalItems([m, cs[|cs| - 1]]) + dup + 2 * (|cs| - 2)
  {
    hide AllMuts;
    var k := |cs| - 2;
    assert cs[..k + 1][..k] == cs[..k];
    TotalSplit(cs, k);
    PassedByKind(cs[..k]);
    TwoTotal(cs[k], cs[k + 1]);
    TwoTotal(m, cs[k + 1]);
    assert cs[k..] == [cs[k], cs[k + 1]];
  }

  lemma {:induction false} TwoTotal(a: Chk, b: Chk)
    ensures TotalItems([a, b]) == a.Size() + b.Size() - 2
  {
    assert [a, b][1..] == [b];
    OneTotal(b);
  }

  /** The name sets of the two checkpoints that are left. */
  lemma {:induction false} CollapsedNames(list: seq<Checkpoint>, cursors: map<Name, CheckpointCursor>, b: Checkpoint, cursors': map<Name, CheckpointCursor>)
    requires NamesAgree(list, cursors) && |list| > 2 && cursors'.Keys == cursors.Keys
    requires forall n :: n in cursors ==> cursors[n].chk < |list|
    requires forall n :: n in cursors ==> cursors'[n].chk == if cursors[n].chk == |list| - 1 then 1 else 0
    requires b.names == list[|list| - 2].names + set n | n in cursors && cursors[n].chk < |list| - 2
    ensures NamesAgree([b, list[|list| - 1]], cursors')
  {
  }

  lemma {:induction false} CollapsedInv(v: View)
    requires Inv(v) && |v.chks| > 2 && !CollapseBlocked(v)
    ensures var m := Merged(v.chks[..|v.chks| - 1]);
            && Inv(CollapseClosed(v)) && CollapseClosed(v).chks == [m, v.Back()] && m.phase.Closed?
            && |m.muts| >= |v.chks[|v.chks| - 2].muts|
            && forall i :: 0 <= i < |v.chks| - 1 ==> v.chks[i].phase.Closed?
  {
    hide Merged, Chk.Wf, Chk.Top, CollapsedCur, KeepLast, AllMuts;
    CollapseClosedInv(v);
    MergedClosedInv(v.chks);
  }

  /** The marks of the cursors in checkpoints `lo` up to `hi`. */
  ghost predicate Marks(list: seq<Checkpoint>, cursors: map<Name, CheckpointCursor>, lo: nat, hi: nat, marks: map<Name, Mark>) {
    && (forall n :: n in marks <==> n in cursors && lo <= cursors[n].chk < hi)
    && forall n :: n in marks ==> cursors[n].chk < |list| && cursors[n].pos < |list[cursors[n].chk].toWrite| &&
                                  marks[n] == MarkOf(list[cursors[n].chk], cursors[n].pos)
  }

  function MarkFor(marks: map<Name, Mark>, n: Name): Mark {
    if n in marks then marks[n] else Mark(0, false)
  }

  lemma {:induction false} MarkRight(list: seq<Checkpoint>, cursors: map<Name, CheckpointCursor>, num: nat, v: View, k: nat, marks: map<Name, Mark>, n: Name)
    requires Models(list, cursors, num, v) && Marks(list, cursors, 0, k, marks) && n in cursors
    ensures n in v.cursors && CurIn(v.chks, v.cursors[n]) && CursorIs(v.chks, cursors[n], v.cursors[n])
    ensures var at := v.cursors[n];
            at.chk < k ==> var x := v.chks[at.chk].Items()[at.pos]; MarkFor(marks, n) == Mark(x.seqno, x.op == Start)
  {
    hide NamesAgree, TotalItems, Represents, OffsetOf, Chk.Items, Chk.Top, MarkOf;
    if cursors[n].chk < k {
      MarkIsSeqno(list[cursors[n].chk], v.chks[cursors[n].chk], cursors[n].pos);
    }
  }

  lemma {:induction false} CollapseClosedModels(list: seq<Checkpoint>, cursors: map<Name, CheckpointCursor>, num: nat, v: View, k: nat,
                             m: Chk, b: Checkpoint, dup: nat, marks: map<Name, Mark>, cursors': map<Name, CheckpointCursor>)
    requires Models(list, cursors, num, v) && |v.chks| > 2 && !CollapseBlocked(v) && k == |v.chks| - 2
    requires m == Merged(v.chks[..k + 1]) && Represents(b, m) && Duplicated(v.chks[..k + 1], m, dup)
    requires Marks(list, cursors, 0, k, marks) && b.names == list[k].names + marks.Keys && cursors'.Keys == cursors.Keys
    requires |m.muts| >= |v.chks[k].muts|
    requires forall n :: n in cursors ==>
               cursors'[n] == Settled(cursors[n], k, b.toWrite, MarkFor(marks, n), |m.muts| - |v.chks[k].muts|, dup + 2 * k)
    ensures num >= dup + 2 * k && Models([b, list[k + 1]], cursors', num - (dup + 2 * k), CollapseClosed(v))
  {
    hide Inv, ListRepresents, NamesAgree, TotalItems, CursorIs, Represents, Duplicated, Marks, Settled, MarkFor, Merged,
         CollapseClosed;
    CollapsedInv(v);
    CollapsedTotal(v.chks, m, dup);
    CollapsedList(list, v.chks, b, m);
    CollapsedCursors(list, cursors, num, v, k, m, b, dup, marks, cursors');
    SettledNames(list, cursors, num, v, k, m, b, dup, marks, cursors');
  }

  lemma {:induction false} CollapsedList(list: seq<Checkpoint>, cs: seq<Chk>, b: Checkpoint, m: Chk)
    requires ListRepresents(list, cs) && |cs| > 2 && Represents(b, m)
    ensures ListRepresents([b, list[|list| - 1]], [m, cs[|cs| - 1]]) && b.toWrite == m.Items()
  {
    hide IndexAgrees, MetaIndex, Chk.Items;
    assert Represents(list[|list| - 1], cs[|cs| - 1]);
  }

  lemma {:induction false} CollapsedCursors(list: seq<Checkpoint>, cursors: map<Name, CheckpointCursor>, num: nat, v: View, k: nat,
                         m: Chk, b: Checkpoint, dup: nat, marks: map<Name, Mark>, cursors': map<Name, CheckpointCursor>)
    requires Models(list, cursors, num, v) && |v.chks| > 2 && !CollapseBlocked(v) && k == |v.chks| - 2
    requires m == Merged(v.chks[..k + 1]) && b.toWrite == m.Items() && Duplicated(v.chks[..k + 1], m, dup) && |m.muts| >= |v.chks[k].muts|
    requires Marks(list, cursors, 0, k, marks) && cursors'.Keys == cursors.Keys
    requires forall n :: n in cursors ==>
               cursors'[n] == Settled(cursors[n], k, m.Items(), MarkFor(marks, n), |m.muts| - |v.chks[k].muts|, dup + 2 * k)
    ensures (forall n :: n in v.cursors ==> CurIn(v.chks, v.cursors[n])) && CursorsAre([m, v.Back()], cursors', CollapseClosed(v).cursors)
  {
    hide ChksInv, ListRepresents, NamesAgree, TotalItems, CursorIs, Represents, Duplicated, Marks, Settled, MarkFor, Merged,
         CollapsedCur, CollapseBlocked;
    forall n | n in cursors ensures CursorIs([m, v.Back()], cursors'[n], CollapseClosed(v).cursors[n]) {
      MarkRight(list, cursors, num, v, k, marks, n);
      SettledIs(v, m, cursors[n], v.cursors[n], MarkFor(marks, n), dup, dup + 2 * k);
    }
  }

  lemma {:induction false} SettledNames(list: seq<Checkpoint>, cursors: map<Name, CheckpointCursor>, num: nat, v: View, k: nat,
                     m: Chk, b: Checkpoint, dup: nat, marks: map<Name, Mark>, cursors': map<Name, CheckpointCursor>)
    requires Models(list, cursors, num, v) && |v.chks| > 2 && k == |v.chks| - 2 && |m.muts| >= |v.chks[k].muts|
    requires Marks(list, cursors, 0, k, marks) && b.names == list[k].names + marks.Keys && cursors'.Keys == cursors.Keys
    requires forall n :: n in cursors ==>
               cursors'[n] == Settled(cursors[n], k, b.toWrite, MarkFor(marks, n), |m.muts| - |v.chks[k].muts|, dup + 2 * k)
    ensures NamesAgree([b, list[k + 1]], cursors')
  {
    hide Inv, ListRepresents, NamesAgree, TotalItems, OffsetOf, MarkOf, Place, MarkFor;
    assert marks.Keys == set n | n in cursors && cursors[n].chk < |list| - 2;
    CollapsedNames(list, cursors, b, cursors');
  }

  // ---- Merging a whole list

  ghost predicate Mergeable(cs: seq<Chk>) {
    forall i :: 0 <= i < |cs| ==> AllMutations(cs[i].muts) && DistinctKeys(cs[i].muts)
  }

  predicate NamesOfLast(m: Checkpoint, list: seq<Checkpoint>) {
    |list| > 0 && m.names == list[|list| - 1].names
  }

  /** `m` is the merge of all of `cs`, under the last one's cursors, and `dup` counts what is not carried over. */
  ghost predicate IsMerge(list: seq<Checkpoint>, cs: seq<Chk>, m: Checkpoint, dup: nat) {
    |cs| > 0 && Represents(m, Merged(cs)) && NamesOfLast(m, list) && Duplicated(cs, Merged(cs), dup)
  }

  /** Merge every checkpoint of a list into its last, newest first. */
  method MergeIntoLast(list: seq<Checkpoint>, ghost cs: seq<Chk>) returns (m: Checkpoint, numDuplicatedItems: nat, numMetaItems: nat)
    requires ListRepresents(list, cs) && |cs| > 0
    requires Mergeable(cs)
    ensures IsMerge(list, cs, m, numDuplicatedItems) && numMetaItems == 2 * (|list| - 1)
  {
    hide Represents, AllMutations, DistinctKeys, Merged, Absorb, Duplicated;
    m, numDuplicatedItems, numMetaItems := list[|list| - 1], 0, 0;
    var i := |list| - 1;
    LastAlone(cs);
    while i > 0
      invariant 0 <= i < |list| && numMetaItems == 2 * (|list| - 1 - i) && m.names == list[|list| - 1].names
      invariant Represents(m, Merged(cs[i..])) && Duplicated(cs[i..], Merged(cs[i..]), numDuplicatedItems)
    {
      var prev := list[i - 1];
      CountIs(prev, cs[i - 1]);
      ghost var c := Merged(cs[i..]);
      var added;
      m, added := MergePrevCheckpoint(m, prev, c, cs[i - 1]);
      MergeStep(cs, i, c, numDuplicatedItems, Absorb(c, cs[i - 1]), added);
      numDuplicatedItems := numDuplicatedItems + prev.numItems - added;
      numMetaItems := numMetaItems + 2;
      i := i - 1;
    }
    assert cs[0..] == cs;
  }

  lemma {:induction false} LastAlone(cs: seq<Chk>)
    requires |cs| > 0
    ensures Merged(cs[|cs| - 1..]) == cs[|cs| - 1] && Duplicated(cs[|cs| - 1..], cs[|cs| - 1], 0)
  {
    assert cs[|cs| - 1..][..0] == [];
  }

  lemma {:induction false} CountIs(b: Checkpoint, c: Chk)
    requires Represents(b, c)
    ensures b.numItems == |c.muts|
  {
  }

  // ---- Putting the cursors back

  /** Nothing before item `i` stops the search for a mark. */
  ghost predicate NoStops(items: seq<Item>, m: Mark, i: nat) {
    i <= |items| && forall j :: 0 <= j < i ==> !Stops(items, j, m.mutationId, m.onStart)
  }

  /** The marked cursors but those in `rest` are in their places; the others are as they were. */
  ghost predicate PutSoFar(was: map<Name, CheckpointCursor>, now: map<Name, CheckpointCursor>, marks: map<Name, Mark>,
                           rest: set<Name>, items: seq<Item>, chk: nat) {
    && rest <= marks.Keys <= was.Keys == now.Keys
    && forall n :: n in was ==> now[n] == if n in marks && n !in rest then Put(was[n], items, marks[n], chk) else was[n]
  }

  /** A cursor stopped by item `i`, and by none before it, goes just before it. */
  lemma {:induction false} PutStopped(was: map<Name, CheckpointCursor>, now: map<Name, CheckpointCursor>, marks: map<Name, Mark>, rest: set<Name>,
                   items: seq<Item>, chk: nat, n: Name, i: nat)
    requires PutSoFar(was, now, marks, rest, items, chk) && n in rest && !was[n].fromBeginning
    requires i < |items| && NoStops(items, marks[n], i) && Stops(items, i, marks[n].mutationId, marks[n].onStart)
    ensures var p := if i == 0 then 0 else i - 1;
            PutSoFar(was, now[n := now[n].(chk := chk, pos := p, offset := p)], marks, rest - {n}, items, chk)
  {
    hide Stops, Place, FirstStop;
    PlaceIs(items, marks[n], i);
  }

  /** A cursor that nothing stops goes to the last item, and one that restarts goes to the first. */
  lemma {:induction false} PutLeft(was: map<Name, CheckpointCursor>, now: map<Name, CheckpointCursor>, marks: map<Name, Mark>, rest: set<Name>,
                items: seq<Item>, chk: nat, n: Name)
    requires PutSoFar(was, now, marks, rest, items, chk) && n in rest && |items| > 0
    requires was[n].fromBeginning || NoStops(items, marks[n], |items|)
    ensures var p := if was[n].fromBeginning then 0 else |items| - 1;
            PutSoFar(was, now[n := now[n].(chk := chk, pos := p, offset := p)], marks, rest - {n}, items, chk)
  {
    hide Stops, Place, FirstStop;
    if !was[n].fromBeginning {
      PlaceIs(items, marks[n], |items|);
    }
  }

  lemma {:induction false} PlaceIs(items: seq<Item>, m: Mark, i: nat)
    requires NoStops(items, m, i) && (i < |items| ==> Stops(items, i, m.mutationId, m.onStart))
    ensures Place(items, m.mutationId, m.onStart) == if i == 0 then 0 else i - 1
  {
    FirstStopIs(items, m.mutationId, m.onStart, i);
  }

  // ---- The cursor updates of a collapse, one after the other

  /** The cursors of checkpoint `k` keep their items while `added` older ones are inserted before them. */
  function Spread(cursors: map<Name, CheckpointCursor>, k: nat, added: nat): map<Name, CheckpointCursor> {
    map n | n in cursors :: if cursors[n].chk == k then cursors[n].(pos := cursors[n].pos + added) else cursors[n]
  }

  function Decremented(cursors: map<Name, CheckpointCursor>, names: set<Name>, total: nat): map<Name, CheckpointCursor> {
    map n | n in cursors :: if n in names then cursors[n].DecrOffset(total) else cursors[n]
  }

  /** The checkpoints before `k` are spliced out. */
  function Spliced(cursors: map<Name, CheckpointCursor>, k: nat): map<Name, CheckpointCursor> {
    map n | n in cursors :: cursors[n].(chk := if cursors[n].chk >= k then cursors[n].chk - k else 0)
  }

  lemma {:induction false} StepsSettle(c0: map<Name, CheckpointCursor>, c2: map<Name, CheckpointCursor>, marks: map<Name, Mark>, fast: set<Name>,
                    items: seq<Item>, k: nat, added: nat, total: nat, n: Name)
    requires PutSoFar(Spread(c0, k, added), c2, marks, {}, items, k) && n in c0 && c0[n].chk < k + 2
    requires (n in marks <==> c0[n].chk < k) && (n in fast <==> c0[n].chk >= k)
    ensures n in Spliced(Decremented(c2, fast, total), k)
    ensures Spliced(Decremented(c2, fast, total), k)[n] == Settled(c0[n], k, items, MarkFor(marks, n), added, total)
  {
    hide Place;
  }

  lemma {:induction false} StepsKeys(c0: map<Name, CheckpointCursor>, c2: map<Name, CheckpointCursor>, marks: map<Name, Mark>, fast: set<Name>,
                  items: seq<Item>, k: nat, added: nat, total: nat)
    requires PutSoFar(Spread(c0, k, added), c2, marks, {}, items, k)
    ensures Spliced(Decremented(c2, fast, total), k).Keys == c0.Keys
  {
    hide Place;
  }

  /** The cursors with the nodes of the last closed checkpoint and of the open one are the fast ones. */
  lemma {:induction false} FastAndSlow(list: seq<Checkpoint>, cursors: map<Name, CheckpointCursor>, num: nat, v: View, k: nat, marks: map<Name, Mark>)
    requires Models(list, cursors, num, v) && Marks(list, cursors, 0, k, marks) && k + 2 == |v.chks|
    ensures forall n :: n in cursors ==> cursors[n].chk < k + 2 && (n in marks <==> cursors[n].chk < k) &&
                                         (n in list[k].names + list[k + 1].names <==> cursors[n].chk >= k)
    ensures marks.Keys <= cursors.Keys
  {
    hide Inv, ListRepresents, TotalItems, OffsetOf, MarkOf;
  }

  lemma {:induction false} AllStepsSettle(list: seq<Checkpoint>, c0: map<Name, CheckpointCursor>, num: nat, v: View, k: nat, marks: map<Name, Mark>,
                       fast: set<Name>, c2: map<Name, CheckpointCursor>, items: seq<Item>, added: nat, total: nat)
    requires Models(list, c0, num, v) && Marks(list, c0, 0, k, marks) && k + 2 == |v.chks| && fast == list[k].names + list[k + 1].names
    requires PutSoFar(Spread(c0, k, added), c2, marks, {}, items, k)
    ensures var c4 := Spliced(Decremented(c2, fast, total), k);
            c4.Keys == c0.Keys && forall n :: n in c0 ==> c4[n] == Settled(c0[n], k, items, MarkFor(marks, n), added, total)
  {
    hide Models, Marks, Settled, MarkFor, PutSoFar, Spread, Decremented, Spliced;
    FastAndSlow(list, c0, num, v, k, marks);
    StepsKeys(c0, c2, marks, fast, items, k, added, total);
    forall n | n in c0
      ensures Spliced(Decremented(c2, fast, total), k)[n] == Settled(c0[n], k, items, MarkFor(marks, n), added, total)
    {
      StepsSettle(c0, c2, marks, fast, items, k, added, total, n);
    }
  }

  lemma {:induction false} CollapseClosedDone(list: seq<Checkpoint>, c0: map<Name, CheckpointCursor>, num: nat, v: View, k: nat, m: Chk, b: Checkpoint,
                           dup: nat, marks: map<Name, Mark>, fast: set<Name>, added: nat, c2: map<Name, CheckpointCursor>)
    requires Models(list, c0, num, v) && |v.chks| > 2 && !CollapseBlocked(v) && k == |v.chks| - 2 == |list| - 2
    requires m == Merged(v.chks[..k + 1]) && Represents(b, m) && Duplicated(v.chks[..k + 1], m, dup) && NamesOfLast(b, list[..k + 1])
    requires Marks(list, c0, 0, k, marks) && fast == list[k].names + list[k + 1].names && added + |v.chks[k].muts| == |m.muts|
    requires PutSoFar(Spread(c0, k, added), c2, marks, {}, b.toWrite, k)
    ensures num >= dup + 2 * k && (forall n :: n in v.cursors ==> CurIn(v.chks, v.cursors[n]))
    ensures Models([b.(names := b.names + marks.Keys), list[k + 1]], Spliced(Decremented(c2, fast, dup + 2 * k), k),
                   num - (dup + 2 * k), CollapseClosed(v))
  {
    hide Models, Marks, Merged, Duplicated, CollapseBlocked, CollapseClosed, Settled, Spread, Decremented, Spliced,
         PutSoFar, Represents, MarkFor;
    CursorsWithin(list, c0, num, v);
    NamesIrrelevant(b, b.names + marks.Keys, m);
    AllStepsSettle(list, c0, num, v, k, marks, fast, c2, b.toWrite, added, dup + 2 * k);
    CollapseClosedModels(list, c0, num, v, k, m, b.(names := b.names + marks.Keys), dup, marks, Spliced(Decremented(c2, fast, dup + 2 * k), k));
  }

  lemma {:induction false} CursorsWithin(list: seq<Checkpoint>, cursors: map<Name, CheckpointCursor>, num: nat, v: View)
    requires Models(list, cursors, num, v)
    ensures |list| == |v.chks| > 0 && forall n :: n in v.cursors ==> CurIn(v.chks, v.cursors[n])
  {
    hide ListRepresents, TotalItems, NamesAgree, ChksInv, OffsetOf;
  }

  /** What the merge needs of the checkpoints, and gives. */
  lemma {:induction false} MergeFacts(list: seq<Checkpoint>, cursors: map<Name, CheckpointCursor>, num: nat, v: View)
    requires Models(list, cursors, num, v)
    ensures forall i :: 0 <= i <= |v.chks| ==> i <= |list| && ListRepresents(list[..i], v.chks[..i])
    ensures forall i :: 0 <= i <= |v.chks| ==> Mergeable(v.chks[..i])
  {
    hide Represents, NamesAgree, TotalItems, OffsetOf, AllMutations, DistinctKeys, Chk.Top;
  }

  lemma {:induction false} MergedFacts(list: seq<Checkpoint>, cursors: map<Name, CheckpointCursor>, num: nat, v: View, b: Checkpoint, m: Chk)
    requires Models(list, cursors, num, v) && |v.chks| > 2 && !CollapseBlocked(v)
    requires m == Merged(v.chks[..|v.chks| - 1]) && Represents(b, m)
    ensures AllMutations(m.muts) && b.numItems == |m.muts| >= list[|list| - 2].numItems == |v.chks[|v.chks| - 2].muts|
  {
    hide ChksInv, NamesAgree, TotalItems, OffsetOf, AllMutations, DistinctKeys, Merged, Chk.Items, IndexAgrees, MetaIndex,
         CollapseBlocked;
    MergedAllMutations(v.chks);
    CollapsedInv(v);
    assert Represents(list[|list| - 2], v.chks[|v.chks| - 2]);
  }

  lemma {:induction false} MergedAllMutations(cs: seq<Chk>)
    requires ChksInv(cs) && |cs| > 1
    ensures AllMutations(Merged(cs[..|cs| - 1]).muts)
  {
    hide Merged, AllMutations;
    SubInv(cs, 0, |cs| - 1);
    assert cs[0..|cs| - 1] == cs[..|cs| - 1];
    MergedWf(cs[..|cs| - 1]);
  }

  lemma {:induction false} SpreadKeys(cursors: map<Name, CheckpointCursor>, k: nat, added: nat)
    ensures Spread(cursors, k, added).Keys == cursors.Keys
  {
  }

  lemma {:induction false} NamesIrrelevant(b: Checkpoint, names: set<Name>, c: Chk)
    requires Represents(b, c)
    ensures Represents(b.(names := names), c)
  {
    hide IndexAgrees, MetaIndex, Chk.Items;
  }

  // ---- Collapsing everything into the open checkpoint

  /** `setOpenCheckpointId`: the checkpoint_start item carries the id too. */
  function WithId(b: Checkpoint, id: nat): Checkpoint
    requires |b.toWrite| >= 2
  {
    b.(id := id, toWrite := b.toWrite[1 := b.toWrite[1].(rev := id)])
  }

  lemma {:induction false} WithIdRepresents(b: Checkpoint, c: Chk, id: nat)
    requires Represents(b, c) && c.phase.Open?
    ensures |b.toWrite| >= 2 && Represents(WithId(b, id), c.(id := id))
  {
    hide IndexAgrees;
    assert WithId(b, id).toWrite == c.(id := id).Items();
  }

  /** `popBackCheckpointEndItem`, and the checkpoint open again. */
  function Reopened(b: Checkpoint): Checkpoint
    requires |b.toWrite| > 0
  {
    b.(closed := false, toWrite := b.toWrite[..|b.toWrite| - 1], metaKeyIndex := b.metaKeyIndex - {END_KEY})
  }

  lemma {:induction false} ReopenedRepresents(b: Checkpoint, c: Chk)
    requires Represents(b, c) && c.phase.Closed?
    ensures |b.toWrite| > 0 && Represents(Reopened(b), c.(phase := Open))
  {
    hide IndexAgrees;
    assert Reopened(b).toWrite == c.(phase := Open).Items();
    assert Reopened(b).metaKeyIndex == MetaIndex(c.(phase := Open));
  }

  lemma {:induction false} AllTotal(cs: seq<Chk>, m: Chk, dup: nat)
    requires ChksInv(cs) && m.phase.Open? && Duplicated(cs, m, dup)
    ensures TotalItems(cs) == TotalItems([m]) + dup + 2 * (|cs| - 1) + if cs[|cs| - 1].phase.Closed? then 1 else 0
  {
    hide AllMuts, Chk.Wf, Chk.Top;
    var k := |cs| - 1;
    TotalSplit(cs, k);
    PassedByKind(cs[..k]);
    OneTotal(cs[k]);
    OneTotal(m);
    assert cs[k..] == [cs[k]];
  }

  lemma {:induction false} AllNames(list: seq<Checkpoint>, cursors: map<Name, CheckpointCursor>, b: Checkpoint, cursors': map<Name, CheckpointCursor>)
    requires NamesAgree(list, cursors) && |list| > 0 && cursors'.Keys == cursors.Keys
    requires forall n :: n in cursors ==> cursors'[n].chk == 0
    requires b.names == list[|list| - 1].names + cursors.Keys
    ensures NamesAgree([b], cursors')
  {
  }

  /** Every cursor of the manager is re-placed. */
  lemma {:induction false} AllPut(list: seq<Checkpoint>, cursors: map<Name, CheckpointCursor>, num: nat, v: View, m: Chk, marks: map<Name, Mark>,
               cursors': map<Name, CheckpointCursor>, n: Name)
    requires Models(list, cursors, num, v) && Marks(list, cursors, 0, |list|, marks)
    requires PutSoFar(cursors, cursors', marks, {}, m.Items(), 0) && n in cursors
    ensures n in marks && n in cursors' && n in v.cursors && CurIn(v.chks, v.cursors[n]) && cursors'[n].chk == 0
    ensures CursorIs([m], cursors'[n], Replace(v.chks, m, v.cursors[n]))
  {
    hide Inv, ListRepresents, NamesAgree, TotalItems, MarkOf, Place, Chk.Items, OffsetOf;
    MarkRight(list, cursors, num, v, |list|, marks, n);
    AtZero([m], cursors'[n].At());
    assert CursorIs(v.chks, cursors[n], v.cursors[n]);
  }

  lemma {:induction false} AtZero(cs: seq<Chk>, c: Cur)
    requires |cs| > 0 && c.chk == 0
    ensures OffsetOf(cs, c) == c.pos
  {
  }

  lemma {:induction false} CollapseAllModels(list: seq<Checkpoint>, cursors: map<Name, CheckpointCursor>, num: nat, v: View, id: nat, dup: nat,
                          m: Chk, b: Checkpoint, marks: map<Name, Mark>, cursors': map<Name, CheckpointCursor>)
    requires Models(list, cursors, num, v) && id > 0 && |v.chks| > 0
    requires m == MergedAll(v.chks, id) && Represents(b, m) && Duplicated(v.chks, m, dup) && b.names == list[|list| - 1].names + marks.Keys
    requires Marks(list, cursors, 0, |list|, marks) && PutSoFar(cursors, cursors', marks, {}, b.toWrite, 0)
    ensures forall n :: n in v.cursors ==> CurIn(v.chks, v.cursors[n])
    ensures var gone := dup + 2 * (|v.chks| - 1) + if v.Back().phase.Closed? then 1 else 0;
            num >= gone && Models([b], cursors', num - gone, CollapseAll(v, id))
  {
    hide ChksInv, ListRepresents, NamesAgree, TotalItems, CursorIs, Represents, Duplicated, Marks, PutSoFar, Merged, CollapseAll;
    CollapseAllInv(v, id);
    AllTotal(v.chks, m, dup);
    AllCursors(list, cursors, num, v, id, m, b, marks, cursors');
    AllNamesToo(list, cursors, num, v, m, b, marks, cursors');
  }

  lemma {:induction false} AllNamesToo(list: seq<Checkpoint>, cursors: map<Name, CheckpointCursor>, num: nat, v: View,
                    m: Chk, b: Checkpoint, marks: map<Name, Mark>, cursors': map<Name, CheckpointCursor>)
    requires Models(list, cursors, num, v) && Represents(b, m) && b.names == list[|list| - 1].names + marks.Keys
    requires Marks(list, cursors, 0, |list|, marks) && PutSoFar(cursors, cursors', marks, {}, b.toWrite, 0)
    ensures NamesAgree([b], cursors')
  {
    hide Inv, ListRepresents, NamesAgree, TotalItems, OffsetOf, Represents, MarkOf, Place;
    assert marks.Keys == cursors.Keys;
    AllNames(list, cursors, b, cursors');
  }

  lemma {:induction false} AllCursors(list: seq<Checkpoint>, cursors: map<Name, CheckpointCursor>, num: nat, v: View, id: nat,
                   m: Chk, b: Checkpoint, marks: map<Name, Mark>, cursors': map<Name, CheckpointCursor>)
    requires Models(list, cursors, num, v) && id > 0 && |v.chks| > 0 && m == MergedAll(v.chks, id) && Represents(b, m)
    requires Marks(list, cursors, 0, |list|, marks) && PutSoFar(cursors, cursors', marks, {}, b.toWrite, 0)
    ensures cursors'.Keys == cursors.Keys && forall n :: n in v.cursors ==> CurIn(v.chks, v.cursors[n])
    ensures ListRepresents([b], [m]) && CursorsAre([m], cursors', CollapseAll(v, id).cursors)
  {
    hide ChksInv, NamesAgree, TotalItems, CursorIs, Duplicated, Marks, Merged, Replace, Put, IndexAgrees, MetaIndex,
         Chk.Items, MergedAll;
    AllReplaced(v, id);
    forall n | n in cursors ensures n in v.cursors && CurIn(v.chks, v.cursors[n]) && CursorIs([m], cursors'[n], CollapseAll(v, id).cursors[n]) {
      AllPut(list, cursors, num, v, m, marks, cursors', n);
    }
  }

  lemma {:induction false} AllReplaced(v: View, id: nat)
    requires |v.chks| > 0 && forall n :: n in v.cursors ==> CurIn(v.chks, v.cursors[n])
    ensures forall n :: n in v.cursors ==> CollapseAll(v, id).cursors[n] == Replace(v.chks, MergedAll(v.chks, id), v.cursors[n])
  {
    hide Merged, Replace;
    MergedRename(v.chks, id);
  }

  lemma {:induction false} MergedPhase(list: seq<Checkpoint>, cursors: map<Name, CheckpointCursor>, num: nat, v: View, b: Checkpoint)
    requires Models(list, cursors, num, v) && |v.chks| > 0 && Represents(b, Merged(v.chks))
    ensures Merged(v.chks).phase == v.Back().phase && b.closed == v.Back().phase.Closed? && AllMutations(Merged(v.chks).muts)
  {
    hide ListRepresents, TotalItems, NamesAgree, CursorsAre, ChksInv, Merged, IndexAgrees, MetaIndex, Chk.Items, AllMutations;
    MergedIsCompaction(v.chks);
    MergedWf(v.chks);
  }

  lemma {:induction false} DuplicatedAll(cs: seq<Chk>, id: nat, dup: nat)
    requires |cs| > 0 && Duplicated(cs, Merged(cs), dup)
    ensures Duplicated(cs, MergedAll(cs, id), dup)
  {
    hide Merged;
  }

  lemma {:induction false} MarkedCursors(list: seq<Checkpoint>, cursors: map<Name, CheckpointCursor>, lo: nat, hi: nat, marks: map<Name, Mark>)
    requires Marks(list, cursors, lo, hi, marks)
    ensures marks.Keys <= cursors.Keys
  {
    hide MarkOf;
  }
}
