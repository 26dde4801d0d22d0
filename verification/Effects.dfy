/** What the manager's operations do to every item ahead of a cursor, meta items included, and to the checkpoints, said
    without the functions that compute it. */
module Effects {
  import opened Log
  import opened Checkpoints
  import opened CheckpointLaws
  import opened CollapseLaws
  import opened Removal
  import Snapshots

  lemma {:induction false} AllItemsOfConcat(a: seq<Chk>, b: seq<Chk>)
    ensures AllItems(a + b) == AllItems(a) + AllItems(b)
  {
    hide Chk.Items;
    if a == [] {
      assert a + b == b;
    } else {
      assert (a + b)[1..] == a[1..] + b;
      AllItemsOfConcat(a[1..], b);
      assert a[0].Items()[1..] + (AllItems(a[1..]) + AllItems(b)) == (a[0].Items()[1..] + AllItems(a[1..])) + AllItems(b);
    }
  }

  lemma {:induction false} AllItemsOfOne(b: Chk)
    ensures AllItems([b]) == b.Items()[1..]
  {
    hide Chk.Items;
    assert [b][1..] == [];
  }

  /** For a cursor before the last checkpoint, that checkpoint's items come last. */
  lemma {:induction false} EarlierItems(cs: seq<Chk>, b: Chk, c: Cur)
    requires CurIn(cs, c)
    ensures CurIn(cs + [b], c) && Ahead(cs + [b], c) == Ahead(cs, c) + b.Items()[1..]
  {
    hide Chk.Items, AllItems;
    assert (cs + [b])[c.chk + 1..] == cs[c.chk + 1..] + [b];
    AllItemsOfConcat(cs[c.chk + 1..], [b]);
    AllItemsOfOne(b);
  }

  lemma {:induction false} LastItems(cs: seq<Chk>, c: Cur)
    requires CurIn(cs, c) && c.chk == |cs| - 1
    ensures Ahead(cs, c) == cs[c.chk].Items()[c.pos + 1..]
  {
    hide Chk.Items;
    assert cs[c.chk + 1..] == [];
  }

  /** What closing adds to the items. */
  function EndOf(v: View): seq<Item>
    requires |v.chks| > 0
  {
    if v.Back().phase.Open? then [Item(End, END_KEY, v.last, v.Back().id)] else []
  }

  lemma {:induction false} ClosedItems(b: Chk, last: nat)
    requires b.phase.Open?
    ensures b.(phase := Closed(last)).Items() == b.Items() + [Item(End, END_KEY, last, b.id)]
    ensures b.(phase := Closed(last)).Size() == b.Size() + 1 && |b.Items()| > 1
  {
  }

  /** Closing adds a checkpoint_end, numbered like the last mutation, to what every cursor has ahead. */
  lemma {:induction false} CloseItems(v: View, c: Cur)
    requires |v.chks| > 0 && CurIn(v.chks, c)
    ensures CurIn(Close(v).chks, c) && Ahead(Close(v).chks, c) == Ahead(v.chks, c) + EndOf(v)
  {
    hide Chk.Items, Ahead, Chk.Size;
    var k, b, w := |v.chks| - 1, v.Back(), Close(v);
    if b.phase.Open? {
      ClosedItems(b, v.last);
      if c.chk < k {
        assert v.chks == v.chks[..k] + [b] && w.chks == v.chks[..k] + [w.Back()];
        EarlierItems(v.chks[..k], b, c);
        EarlierItems(v.chks[..k], w.Back(), c);
        SplitTail(b.Items(), EndOf(v), 1);
        assert Ahead(v.chks[..k], c) + (b.Items()[1..] + EndOf(v)) == (Ahead(v.chks[..k], c) + b.Items()[1..]) + EndOf(v);
      } else {
        LastItems(v.chks, c);
        LastItems(w.chks, c);
        SplitTail(b.Items(), EndOf(v), c.pos + 1);
      }
    }
  }

  lemma {:induction false} SplitTail(a: seq<Item>, b: seq<Item>, k: nat)
    requires k <= |a|
    ensures (a + b)[k..] == a[k..] + b
  {
  }

  /** What a cursor has ahead once `added` comes after it: a checkpoint_end at the front is skipped unless the cursor
      asked for it. */
  function Onwards(ahead: seq<Item>, sendEnd: bool, added: seq<Item>): seq<Item> {
    var all := ahead + added;
    if !sendEnd && all != [] && all[0].op == End then all[1..] else all
  }

  lemma {:induction false} NextOp(cs: seq<Chk>, b: Chk, c: Cur)
    requires CurIn(cs, c) && AllMutations(cs[c.chk].muts) && cs[c.chk].phase.Closed? && b.muts == [] && b.phase.Open?
    requires c.chk + 1 < |cs| ==> AllMutations(cs[c.chk + 1].muts)
    ensures var all := Ahead(cs + [b], c);
            && CurIn(cs + [b], c) && all != []
            && (all[0].op == End <==> c.pos + 2 == cs[c.chk].Size())
  {
    var all := Ahead(cs + [b], c);
    if c.pos + 1 < cs[c.chk].Size() {
      assert all[0] == cs[c.chk].Items()[c.pos + 1];
    } else {
      assert all == AllItems((cs + [b])[c.chk + 1..]);
      assert all[0] == (cs + [b])[c.chk + 1].Items()[1];
    }
  }

  /** On rollover a cursor passes the end of its checkpoint without losing an item, save that checkpoint_end. */
  lemma {:induction false} EnterNextItems(cs: seq<Chk>, b: Chk, c: Cur)
    requires ChksInv(cs) && CurIn(cs, c) && (forall i :: 0 <= i < |cs| ==> cs[i].phase.Closed?) && b.muts == [] && b.phase.Open?
    ensures CurIn(cs + [b], EnterNext(cs, c)) && CurIn(cs + [b], c)
    ensures Ahead(cs + [b], EnterNext(cs, c)) == Onwards(Ahead(cs + [b], c), c.sendEnd, [])
  {
    hide Chk.Items, Ahead, Chk.Top, DistinctKeys, Increasing;
    var ds := cs + [b];
    assert cs[c.chk].Wf() && (c.chk + 1 < |cs| ==> cs[c.chk + 1].Wf());
    hide ChksInv;
    NextOp(cs, b, c);
    assert Ahead(ds, c) + [] == Ahead(ds, c);
    if c.pos + 1 == cs[c.chk].Size() {
      EnterAhead(ds, c);
    } else if !c.sendEnd && c.pos + 2 == cs[c.chk].Size() {
      StepWithin(ds, c);
      EnterAhead(ds, c.(pos := c.pos + 1));
    }
  }

  /** Rollover gives every cursor the checkpoint_end of the last checkpoint, if it was open, and the next one's
      checkpoint_start, after all it had ahead; one that did not ask for them skips a checkpoint_end at the front. */
  lemma {:induction false} RollItems(v: View, id: nat, s: nat, e: nat, n: Name)
    requires Inv(v) && n in v.cursors
    ensures var w, c := Roll(v, id, s, e), v.cursors[n];
            && CurIn(v.chks, c) && CurIn(w.chks, w.cursors[n])
            && w.cursors[n] == c.(chk := w.cursors[n].chk, pos := w.cursors[n].pos)
            && Ahead(w.chks, w.cursors[n]) == Onwards(Ahead(v.chks, c), c.sendEnd, EndOf(v) + [Item(Start, START_KEY, v.last + 1, id)])
  {
    hide ChksInv, Ahead, CurIn, Close;
    var b, c := Chk(id, s, e, v.last, [], Open), v.cursors[n];
    assert CurIn(v.chks, c);
    CloseItems(v, c);
    CloseInv(v);
    ClosedAll(v);
    EnterNextItems(Close(v).chks, b, c);
    EarlierItems(Close(v).chks, b, c);
    NewItems(b);
    assert (Ahead(v.chks, c) + EndOf(v)) + b.Items()[1..] + [] == Ahead(v.chks, c) + (EndOf(v) + b.Items()[1..]);
  }

  lemma {:induction false} NewItems(b: Chk)
    requires b.muts == [] && b.phase.Open?
    ensures b.Items()[1..] == [Item(Start, START_KEY, b.base + 1, b.id)]
  {
  }

  lemma {:induction false} ClosedAll(v: View)
    requires Inv(v)
    ensures |Close(v).chks| == |v.chks| && forall i :: 0 <= i < |v.chks| ==> Close(v).chks[i].phase.Closed?
  {
    hide Chk.Wf, Chk.Top;
  }

  /** Removing checkpoints behind a cursor takes no item from it. */
  lemma {:induction false} RemoveItems(cs: seq<Chk>, k: nat, c: Cur)
    requires CurIn(cs, c) && k <= c.chk
    ensures CurIn(cs[k..], c.(chk := c.chk - k)) && Ahead(cs[k..], c.(chk := c.chk - k)) == Ahead(cs, c)
  {
    hide Chk.Items;
    assert cs[k..][c.chk - k + 1..] == cs[c.chk + 1..];
  }

  // ---- The collapses

  /** Cursors in the newest closed checkpoint are all past its checkpoint_start. */
  ghost predicate PastStart(v: View) {
    forall n :: n in v.cursors && v.cursors[n].chk == |v.chks| - 2 ==> v.cursors[n].pos >= 2
  }

  lemma {:induction false} MergedFields(cs: seq<Chk>)
    requires |cs| > 0
    ensures var m, b := Merged(cs), cs[|cs| - 1];
            && m.id == b.id && m.phase == b.phase && m.snapEnd == b.snapEnd && m.base == cs[0].base
            && m.snapStart == if |cs| == 1 then b.snapStart else cs[0].base + 1
  {
    hide NotIn;
    if |cs| > 1 {
      MergedFields(cs[1..]);
    }
  }

  /** Whether the merged checkpoint's checkpoint_end is still ahead of a cursor that rested on number `s`: it has a larger
      number, or the cursor is before the checkpoint_start or just after it. */
  predicate EndAhead(m: Chk, s: nat, onStart: bool) {
    m.phase.Closed? && (s < m.phase.endSeqno || s == m.base || (onStart && s == m.Items()[2].seqno))
  }

  /** The items ahead of a re-placed cursor in the merged checkpoint `m`: its checkpoint_start exactly if the cursor had
      not come further than the oldest checkpoint's first number, the mutations `muts`, perhaps checkpoint_end. */
  function FromMerged(m: Chk, s: nat, onStart: bool, muts: seq<Item>): seq<Item> {
    (if s == m.base then [Item(Start, START_KEY, m.base + 1, m.id)] else []) + muts
    + if EndAhead(m, s, onStart) then [Item(End, END_KEY, m.phase.endSeqno, m.id)] else []
  }

  /** The items of a closed checkpoint that can stop the search for a place. */
  lemma {:induction false} StopsAhead(m: Chk, s: nat, onStart: bool, i: nat)
    requires m.Wf() && m.base <= s && m.phase.Closed? && i < m.Size() && Stops(m.Items(), i, s, onStart)
    ensures EndAhead(m, s, onStart) && i > 0
  {
    if 2 <= i < 2 + |m.muts| {
      assert m.Items()[i] == m.muts[i - 2];
      if i > 2 {
        assert m.Items()[i - 1] == m.muts[i - 3];
      }
    } else if i == m.Size() - 1 && m.muts != [] {
      assert m.Items()[i - 1] == m.muts[|m.muts| - 1];
    }
  }

  /** and the one that does. */
  lemma {:induction false} SomeStop(m: Chk, s: nat, onStart: bool)
    requires m.Wf() && m.base <= s && EndAhead(m, s, onStart)
    ensures exists i :: 0 <= i < m.Size() && Stops(m.Items(), i, s, onStart)
  {
    var items, e := m.Items(), m.Size() - 1;
    assert items[e] == Item(End, END_KEY, m.phase.endSeqno, m.id) && items[1].seqno == m.base + 1 && items[1].op == Start;
    assert s < m.phase.endSeqno ==> Stops(items, e, s, onStart);
    assert s == m.base ==> Stops(items, 1, s, onStart);
    assert onStart && s == items[2].seqno ==> Stops(items, 2, s, onStart);
  }

  /** Where the search for a place ends, told by the meta items. */
  lemma {:induction false} PlaceEnds(m: Chk, s: nat, onStart: bool)
    requires m.Wf() && m.base <= s
    ensures var p := Place(m.Items(), s, onStart);
            && p < m.Size() && (p == 0 <==> s == m.base)
            && (m.phase.Closed? ==> (p + 1 < m.Size() <==> EndAhead(m, s, onStart)))
  {
    var items := m.Items();
    var f := FirstStop(items, 0, s, onStart);
    assert !Stops(items, 0, s, onStart);
    assert Stops(items, 1, s, onStart) <==> s == m.base;
    hide Chk.Wf, Chk.Items, Stops, EndAhead;
    if m.phase.Closed? {
      if EndAhead(m, s, onStart) {
        SomeStop(m, s, onStart);
      }
      if f < m.Size() {
        StopsAhead(m, s, onStart, f);
      }
    }
  }

  lemma {:induction false} ItemsFromPlace(m: Chk, p: nat)
    requires p < m.Size()
    ensures m.Items()[p + 1..] ==
            (if p == 0 then [Item(Start, START_KEY, m.base + 1, m.id)] else []) + m.muts[m.Given(p)..]
            + if m.phase.Closed? && p + 1 < m.Size() then [Item(End, END_KEY, m.phase.endSeqno, m.id)] else []
  {
  }

  /** A re-placed cursor's items in the merged checkpoint. */
  lemma {:induction false} ReplacedItems(cs: seq<Chk>, m: Chk, c: Cur)
    requires ChksInv(cs) && CurIn(cs, c) && !c.fromBeginning && m.Wf() && m.base == cs[0].base
    ensures var p := Replace(cs, m, c).pos;
            p < m.Size() && m.Items()[p + 1..] == FromMerged(m, SeqnoAt(cs, c), c.pos == 1, m.muts[m.Given(p)..])
  {
    hide ChksInv, Chk.Items, Place, EndAhead, Chk.Wf;
    SeqnoAtLeast(cs, c);
    OnStart(cs, c);
    PlaceEnds(m, SeqnoAt(cs, c), c.pos == 1);
    ItemsFromPlace(m, Replace(cs, m, c).pos);
    NoEndWhenOpen(m, SeqnoAt(cs, c), c.pos == 1);
  }

  lemma {:induction false} NoEndWhenOpen(m: Chk, s: nat, onStart: bool)
    ensures EndAhead(m, s, onStart) ==> m.phase.Closed?
  {
  }

  lemma {:induction false} SeqnoAtLeast(cs: seq<Chk>, c: Cur)
    requires ChksInv(cs) && CurIn(cs, c)
    ensures cs[0].base <= SeqnoAt(cs, c)
  {
    hide ChksInv, Chk.Items;
    Neighbours(cs, c.chk);
    WithinChk(cs[c.chk], c.pos);
  }

  /** A cursor re-placed in the merged checkpoint, the first of `ds`: one flagged from-beginning has every item ahead, any other
      what comes after its number there, and all of what follows. */
  ghost predicate ReplacedIn(cs: seq<Chk>, c: Cur, ds: seq<Chk>, d: Cur) {
    && CurIn(cs, c) && CurIn(ds, d) && d.chk == 0
    && if c.fromBeginning then Ahead(ds, d) == AllItems(ds)
       else Ahead(ds, d) == FromMerged(ds[0], SeqnoAt(cs, c), c.pos == 1, ds[0].muts[ds[0].Given(d.pos)..]) + AllItems(ds[1..])
  }

  lemma {:induction false} ReplacedThere(cs: seq<Chk>, c: Cur, ds: seq<Chk>)
    requires ChksInv(cs) && CurIn(cs, c) && |ds| > 0 && ds[0].Wf() && ds[0].base == cs[0].base
    ensures ReplacedIn(cs, c, ds, Replace(cs, ds[0], c))
  {
    hide ChksInv, Chk.Wf, Chk.Items, Place, FromMerged, AllItems;
    var d := Replace(cs, ds[0], c);
    if c.fromBeginning {
      FirstOfAll(ds);
    } else {
      ReplacedItems(cs, ds[0], c);
    }
  }

  lemma {:induction false} FirstOfAll(ds: seq<Chk>)
    requires |ds| > 0
    ensures AllItems(ds) == ds[0].Items()[1..] + AllItems(ds[1..])
  {
  }

  /** What collapsing the closed checkpoints promises: nothing with at most one of them or while a cursor in the newest has
      not passed its checkpoint_start. Otherwise the newest takes in the compaction of all, from the oldest one's numbers
      on, the last checkpoint stays, each cursor keeps its flags, one in either of the two all it has ahead,
      and the others are re-placed. */
  ghost predicate MergesClosed(v: View, w: View) {
    var k := |v.chks| - 2;
    if k < 1 || !PastStart(v) then w == v
    else
      && |w.chks| == 2 && w.chks[1] == v.chks[k + 1]
      && w.chks[0] == Chk(v.chks[k].id, v.chks[0].base + 1, v.chks[k].snapEnd, v.chks[0].base,
                          KeepLast(AllMuts(v.chks[..k + 1])), v.chks[k].phase)
      && w.cursors.Keys == v.cursors.Keys && w.last == v.last && w.preId == v.preId
      && (forall n :: n in v.cursors ==> w.cursors[n] == v.cursors[n].(chk := w.cursors[n].chk, pos := w.cursors[n].pos))
      && (forall n :: n in v.cursors && v.cursors[n].chk >= k ==>
            CurIn(v.chks, v.cursors[n]) && CurIn(w.chks, w.cursors[n]) && Ahead(w.chks, w.cursors[n]) == Ahead(v.chks, v.cursors[n]))
      && (forall n :: n in v.cursors && v.cursors[n].chk < k ==> ReplacedIn(v.chks, v.cursors[n], w.chks, w.cursors[n]))
  }

  lemma {:induction false} CollapseClosedEffect(v: View)
    requires Inv(v)
    ensures MergesClosed(v, CollapseClosed(v))
  {
    hide ChksInv, KeepLast, AllMuts, Merged, Place, Chk.Items, Chk.Size, Chk.Wf, Ahead, CurIn, ReplacedIn;
    var k := |v.chks| - 2;
    if k >= 1 && PastStart(v) {
      MergedClosedInv(v.chks);
      MergedFields(v.chks[..k + 1]);
      forall n | n in v.cursors && v.cursors[n].chk >= k
        ensures var w := CollapseClosed(v);
                CurIn(v.chks, v.cursors[n]) && CurIn(w.chks, w.cursors[n]) && Ahead(w.chks, w.cursors[n]) == Ahead(v.chks, v.cursors[n])
      {
        KeptItems(v, n);
      }
      forall n | n in v.cursors && v.cursors[n].chk < k ensures ReplacedIn(v.chks, v.cursors[n], CollapseClosed(v).chks, CollapseClosed(v).cursors[n]) {
        assert CurIn(v.chks, v.cursors[n]);
        ReplacedThere(v.chks, v.cursors[n], [Merged(v.chks[..k + 1]), v.Back()]);
      }
    }
  }

  /** What collapsing all checkpoints promises: one is left, open, with the given id and the compaction of all. */
  ghost predicate MergesAll(v: View, id: nat, w: View) {
    var k := |v.chks| - 1;
    && k >= 0
    && w.chks == [Chk(id, if k == 0 then v.chks[0].snapStart else v.chks[0].base + 1, v.chks[k].snapEnd, v.chks[0].base,
                      KeepLast(AllMuts(v.chks)), Open)]
    && w.cursors.Keys == v.cursors.Keys && w.last == v.last && w.preId == v.preId
    && forall n :: n in v.cursors ==>
         w.cursors[n] == v.cursors[n].(chk := 0, pos := w.cursors[n].pos) && ReplacedIn(v.chks, v.cursors[n], w.chks, w.cursors[n])
  }

  lemma {:induction false} CollapseAllEffect(v: View, id: nat)
    requires Inv(v) && id > 0
    ensures MergesAll(v, id, CollapseAll(v, id))
  {
    hide ChksInv, KeepLast, AllMuts, Merged, Place, Chk.Items, Chk.Size, Chk.Wf, CurIn, ReplacedIn;
    CollapseAllInv(v, id);
    MergedAllInv(v.chks, id);
    MergedFields(v.chks);
    forall n | n in v.cursors ensures ReplacedIn(v.chks, v.cursors[n], CollapseAll(v, id).chks, CollapseAll(v, id).cursors[n]) {
      assert CurIn(v.chks, v.cursors[n]);
      ReplacedThere(v.chks, v.cursors[n], CollapseAll(v, id).chks);
    }
  }

  // ---- Removing

  /** What removing the oldest `k` checkpoints promises: each is closed, without cursors and known to be persisted, and
      takes no item from any cursor. The first one left is not like that, unless closed checkpoints are kept and their
      number has come down to the configured one; to that end no more than needed go, but at least one. */
  ghost predicate RemovesOldest(v: View, k: nat, keepClosed: bool, maxCheckpoints: nat, w: View) {
    && k < |v.chks| && w.chks == v.chks[k..] && w.cursors.Keys == v.cursors.Keys && w.last == v.last && w.preId == v.preId
    && (forall i :: 0 <= i < k ==> v.chks[i].phase.Closed? && v.chks[i].id <= v.preId && forall n :: n in v.cursors ==> v.cursors[n].chk != i)
    && (v.chks[k].id > v.preId || (exists n :: n in v.cursors && v.cursors[n].chk == k) ||
        (keepClosed && k > 0 && |v.chks| - k <= maxCheckpoints))
    && (keepClosed && k > 1 ==> |v.chks| - (k - 1) > maxCheckpoints)
    && forall n :: n in v.cursors ==>
         && CurIn(v.chks, v.cursors[n]) && CurIn(w.chks, w.cursors[n])
         && w.cursors[n] == v.cursors[n].(chk := w.cursors[n].chk) && Ahead(w.chks, w.cursors[n]) == Ahead(v.chks, v.cursors[n])
  }

  lemma {:induction false} RemovesOldestEffect(v: View, k: nat, keepClosed: bool, maxCheckpoints: nat)
    requires Inv(v) && RemovesTo(v, k, keepClosed, maxCheckpoints)
    ensures RemovesOldest(v, k, keepClosed, maxCheckpoints, RemovePrefix(v, k))
  {
    hide Ahead, Chk.Wf, Chk.Top, Chk.Size;
    var w := RemovePrefix(v, k);
    forall n | n in v.cursors
      ensures CurIn(v.chks, v.cursors[n]) && CurIn(w.chks, w.cursors[n]) && Ahead(w.chks, w.cursors[n]) == Ahead(v.chks, v.cursors[n])
    {
      RemoveItems(v.chks, k, v.cursors[n]);
    }
  }

  // ---- Queueing and the snapshot ranges

  /** Deduplicating append, as a filter. */
  lemma {:induction false} AppendFilters(s: seq<Item>, x: Item)
    requires DistinctKeys(s)
    ensures Append(s, x) == NotIn(s, [x]) + [x]
  {
    hide NotIn, DistinctKeys, Find;
    var i := Find(s, x.key);
    if i < |s| {
      NotInWithout(s, i, x);
    } else {
      OthersStay(s, x);
    }
  }

  lemma {:induction false} NotInWithout(s: seq<Item>, i: nat, x: Item)
    requires DistinctKeys(s) && i < |s| && s[i].key == x.key
    ensures NotIn(s, [x]) == Without(s, i)
  {
    hide NotIn;
    var a, b := s[..i], s[i + 1..];
    OthersStay(a, x);
    OthersStay(b, x);
    SupersededGoes(s[i], x);
    NotInOfConcat(a, [s[i]] + b, [x]);
    NotInOfConcat([s[i]], b, [x]);
    assert s == a + ([s[i]] + b);
  }

  lemma {:induction false} SupersededGoes(y: Item, x: Item)
    requires y.key == x.key
    ensures NotIn([y], [x]) == []
  {
    assert [x][0].key == y.key;
  }

  lemma {:induction false} OthersStay(s: seq<Item>, x: Item)
    requires forall i :: 0 <= i < |s| ==> s[i].key != x.key
    ensures NotIn(s, [x]) == s
  {
    if s != [] {
      OthersStay(s[1..], x);
    }
  }

  lemma {:induction false} NotInOfConcat(a: seq<Item>, b: seq<Item>, t: seq<Item>)
    ensures NotIn(a + b, t) == NotIn(a, t) + NotIn(b, t)
  {
    if a == [] {
      assert a + b == b;
    } else {
      assert (a + b)[1..] == a[1..] + b;
      NotInOfConcat(a[1..], b, t);
    }
  }

  /** An active vbucket opens a checkpoint first: it must if the last one is closed, and does if the caller wants it and
      there is room for one or the oldest holds no cursor. */
  ghost predicate Opens(v: View, active: bool, maxCheckpoints: nat, wantNew: bool)
    requires |v.chks| > 0
  {
    active && (v.Back().phase.Closed? ||
               (wantNew && (|v.chks| < maxCheckpoints || (|v.chks| == maxCheckpoints && forall n :: n in v.cursors ==> v.cursors[n].chk != 0))))
  }

  /** Whether a mutation numbered `s` is taken into the checkpoint it is meant for. */
  ghost predicate Takes(v: View, opens: bool, s: nat, genSeqno: bool)
    requires |v.chks| > 0
  {
    if opens then genSeqno else v.Back().snapStart <= s && (genSeqno || s <= v.Back().snapEnd)
  }

  /** What `queueDirty` leaves in the last checkpoint: a new one or the one there was, with its range carried on to a
      generated number, and the caller's mutation under its number behind all of other keys, if it is taken. */
  ghost function LastAfter(v: View, opens: bool, x: Item, s: nat, genSeqno: bool): Chk
    requires |v.chks| > 0
  {
    var b := if opens then Chk(v.Back().id + 1, v.last, v.last, v.last, [], Open) else v.Back();
    var y := x.(seqno := s);
    b.(snapEnd := if genSeqno then s else b.snapEnd,
       muts := if Takes(v, opens, s, genSeqno) then NotIn(b.muts, [y]) + [y] else b.muts)
  }

  lemma {:induction false} PreparedEffect(v: View, active: bool, maxCheckpoints: nat, wantNew: bool)
    requires Inv(v)
    ensures var w, opens := Snapshots.Prepared(v, active, maxCheckpoints, wantNew), Opens(v, active, maxCheckpoints, wantNew);
            && w.last == v.last && w.preId == v.preId
            && if opens then
                 && |w.chks| == |v.chks| + 1 && w.Back() == Chk(v.Back().id + 1, v.last, v.last, v.last, [], Open)
                 && w.chks[|v.chks| - 1] == v.Back().(phase := if v.Back().phase.Open? then Closed(v.last) else v.Back().phase)
                 && w.chks[..|v.chks| - 1] == v.chks[..|v.chks| - 1]
               else w == v
  {
    hide ChksInv, CurIn, EnterNext;
  }

  /** The whole call: with no checkpoint open and no right to open one, nothing; otherwise the number is taken, refused
      or not, and only the last checkpoint is queued to. */
  lemma {:induction false} QueuedEffect(v: View, active: bool, maxCheckpoints: nat, wantNew: bool, x: Item, genSeqno: bool)
    requires Inv(v)
    ensures var w, opens := Snapshots.Queued(v, active, maxCheckpoints, wantNew, x, genSeqno), Opens(v, active, maxCheckpoints, wantNew);
            var s := if genSeqno then v.last + 1 else x.seqno;
            if v.Back().phase.Closed? && !opens then w == v && !Snapshots.Accepted(v, active, maxCheckpoints, wantNew, x, genSeqno)
            else
              && (v.last < s ==> (Snapshots.Accepted(v, active, maxCheckpoints, wantNew, x, genSeqno) <==> Takes(v, opens, s, genSeqno)))
              && w.last == s && w.preId == v.preId && |w.chks| == |v.chks| + (if opens then 1 else 0)
              && (v.last < s ==> w.Back() == LastAfter(v, opens, x, s, genSeqno))
              && (opens ==> w.chks[|v.chks| - 1] == v.Back().(phase := if v.Back().phase.Open? then Closed(v.last) else v.Back().phase))
              && w.chks[..|v.chks| - 1] == v.chks[..|v.chks| - 1]
  {
    hide ChksInv, CurIn, Snapshots.Prepared, Append, NotIn;
    var u := Snapshots.Prepared(v, active, maxCheckpoints, wantNew);
    PreparedEffect(v, active, maxCheckpoints, wantNew);
    BackDistinct(v);
    var s := if genSeqno then v.last + 1 else x.seqno;
    AppendFilters(u.Back().muts, x.(seqno := s));
  }

  lemma {:induction false} BackDistinct(v: View)
    requires Inv(v)
    ensures DistinctKeys(v.Back().muts)
  {
    assert v.Back().Wf();
  }

  /** After a snapshot marker with its own checkpoint, a vbucket that is not active takes exactly the numbers of that
      snapshot, and the marker changes no other range and drops no mutation. */
  lemma {:induction false} SnapshotTakes(v: View, s: nat, e: nat, maxCheckpoints: nat, wantNew: bool, x: Item)
    requires Inv(v) && v.last < x.seqno
    ensures var w := Snapshots.CreateSnapshot(v, s, e);
            && w.Back().snapStart == s && w.Back().snapEnd == e && w.Back().muts == [] && w.last == v.last
            && (Snapshots.Accepted(w, false, maxCheckpoints, wantNew, x, false) <==> s <= x.seqno <= e)
            && AllMuts(w.chks) == AllMuts(v.chks)
            && (forall i :: 0 <= i < |w.chks| - 1 ==> i < |v.chks| && w.chks[i].snapStart == v.chks[i].snapStart && w.chks[i].snapEnd == v.chks[i].snapEnd)
  {
    hide ChksInv, CurIn, AllMuts, EnterNext;
    var w, k := Snapshots.CreateSnapshot(v, s, e), |v.chks| - 1;
    assert v.chks == v.chks[..k] + [v.Back()];
    AllMutsOfConcat(v.chks[..k], [v.Back()]);
    if |w.chks| == |v.chks| {
      assert w.chks == v.chks[..k] + [w.Back()];
      AllMutsOfConcat(v.chks[..k], [w.Back()]);
      SameMuts(v.Back(), w.Back());
    } else {
      assert w.chks == (v.chks[..k] + [w.chks[k]]) + [w.Back()];
      AllMutsOfConcat(v.chks[..k], [w.chks[k]]);
      AllMutsOfConcat(v.chks[..k] + [w.chks[k]], [w.Back()]);
      SameMuts(v.Back(), w.chks[k]);
      SameMuts(w.Back(), w.Back());
    }
  }

  lemma {:induction false} SameMuts(a: Chk, b: Chk)
    requires a.muts == b.muts
    ensures AllMuts([a]) == AllMuts([b]) == a.muts
  {
    assert [a][1..] == [] && [b][1..] == [];
    assert a.muts + [] == a.muts;
  }

  /** Queueing puts the mutation last among the items ahead and drops at most the entry it supersedes. */
  lemma {:induction false} EnqueueItems(v: View, x: Item, n: Name)
    requires |v.chks| > 0 && v.Back().phase.Open? && n in v.cursors && CurIn(v.chks, v.cursors[n])
    ensures var w := Enqueue(v, x);
            && CurIn(w.chks, w.cursors[n]) && w.cursors[n] == v.cursors[n].(pos := w.cursors[n].pos)
            && Appended(Ahead(v.chks, v.cursors[n]), x, Ahead(w.chks, w.cursors[n]))
  {
    hide Enqueue, Ahead, Append, Appended, Chk.Given, CurIn, Chk.Items, Chk.Size;
    var c, w, k := v.cursors[n], Enqueue(v, x), |v.chks| - 1;
    EnqueuePlace(v, x, n);
    OpenItems(v.Back());
    OpenItems(w.Back());
    if c.chk < k {
      assert v.chks == v.chks[..k] + [v.Back()] && w.chks == v.chks[..k] + [w.Back()];
      EarlierIn(v.chks, c);
      EarlierItems(v.chks[..k], v.Back(), c);
      EarlierItems(v.chks[..k], w.Back(), c);
      AppendedTail(Ahead(v.chks[..k], c), v.Back(), x);
    } else {
      LastItems(v.chks, c);
      LastItems(w.chks, w.cursors[n]);
      EnqueueItemsHere(v.Back(), x, c.pos);
    }
  }

  lemma {:induction false} EarlierIn(cs: seq<Chk>, c: Cur)
    requires CurIn(cs, c) && c.chk < |cs| - 1
    ensures CurIn(cs[..|cs| - 1], c)
  {
  }

  lemma {:induction false} OpenItems(b: Chk)
    requires b.phase.Open?
    ensures b.Items()[1..] == [Item(Start, START_KEY, b.base + 1, b.id)] + b.muts
  {
  }

  lemma {:induction false} AppendedTail(a: seq<Item>, b: Chk, x: Item)
    requires b.phase.Open?
    ensures Appended(a + b.Items()[1..], x, a + b.(muts := Append(b.muts, x)).Items()[1..])
  {
    hide Chk.Items, Append, Appended;
    var start := [Item(Start, START_KEY, b.base + 1, b.id)];
    OpenItems(b);
    OpenItems(b.(muts := Append(b.muts, x)));
    AppendedSuffix(a + start, b.muts, x);
    assert a + (start + b.muts) == (a + start) + b.muts;
    assert a + (start + Append(b.muts, x)) == (a + start) + Append(b.muts, x);
  }

  lemma {:induction false} ItemsAfter(b: Chk, pos: nat)
    requires b.phase.Open? && 1 <= pos < b.Size()
    ensures b.Items()[pos + 1..] == b.muts[b.Given(pos)..]
  {
  }

  lemma {:induction false} EnqueueItemsHere(b: Chk, x: Item, pos: nat)
    requires b.phase.Open? && pos < b.Size()
    ensures var i := Find(b.muts, x.key);
            var b' := b.(muts := Append(b.muts, x));
            var pos' := if i < |b.muts| && pos >= i + 2 then pos - 1 else pos;
            pos' < b'.Size() && Appended(b.Items()[pos + 1..], x, b'.Items()[pos' + 1..])
  {
    hide Append, Appended, Chk.Items, Find;
    var i, b' := Find(b.muts, x.key), b.(muts := Append(b.muts, x));
    var pos' := if i < |b.muts| && pos >= i + 2 then pos - 1 else pos;
    AppendLength(b.muts, x);
    if pos == 0 {
      AppendedTail([], b, x);
      assert [] + b.Items()[1..] == b.Items()[1..] && [] + b'.Items()[1..] == b'.Items()[1..];
    } else {
      ItemsAfter(b, pos);
      ItemsAfter(b', pos');
      EnqueueAheadHere(b, x, pos);
    }
  }

  lemma {:induction false} KeptItemsHere(cs: seq<Chk>, m: Chk, c: Cur)
    requires CurIn(cs, c) && |cs| > 2 && c.chk == |cs| - 2 && c.pos >= 2
    requires var b := cs[c.chk]; m.phase == b.phase && m.id == b.id && |m.muts| >= |b.muts| && m.muts[|m.muts| - |b.muts|..] == b.muts
    ensures var ds, d := [m, cs[|cs| - 1]], ShiftRight(c, |m.muts| - |cs[c.chk].muts|);
            CurIn(ds, d) && Ahead(ds, d) == Ahead(cs, c)
  {
    hide Chk.Items, AllItems;
    TailItems(cs[c.chk], m, c.pos);
    assert cs[c.chk + 1..] == [cs[|cs| - 1]] && [m, cs[|cs| - 1]][1..] == [cs[|cs| - 1]];
  }

  lemma {:induction false} KeptItemsLast(cs: seq<Chk>, m: Chk, c: Cur)
    requires CurIn(cs, c) && c.chk == |cs| - 1
    ensures var ds, d := [m, cs[|cs| - 1]], c.(chk := 1); CurIn(ds, d) && Ahead(ds, d) == Ahead(cs, c)
  {
    hide Chk.Items, AllItems;
    assert cs[c.chk + 1..] == [] == [m, cs[|cs| - 1]][2..];
  }

  /** Collapsing the closed checkpoints takes no item from a cursor in the newest of them or in the last checkpoint. */
  lemma {:induction false} KeptItems(v: View, n: Name)
    requires Inv(v) && |v.chks| > 2 && !CollapseBlocked(v) && n in v.cursors && v.cursors[n].chk >= |v.chks| - 2
    ensures var w := CollapseClosed(v);
            CurIn(v.chks, v.cursors[n]) && CurIn(w.chks, w.cursors[n]) && Ahead(w.chks, w.cursors[n]) == Ahead(v.chks, v.cursors[n])
  {
    hide ChksInv, Chk.Wf, Merged, AllMuts, KeepLast, Chk.Items, Ahead, Replace;
    var k, c := |v.chks| - 2, v.cursors[n];
    var m := Merged(v.chks[..k + 1]);
    assert CurIn(v.chks, c);
    MergedClosedInv(v.chks);
    MergedFields(v.chks[..k + 1]);
    if c.chk == k {
      KeptItemsHere(v.chks, m, c);
    } else {
      KeptItemsLast(v.chks, m, c);
    }
  }

  lemma {:induction false} TailItems(b: Chk, m: Chk, pos: nat)
    requires 2 <= pos < b.Size() && m.phase == b.phase && m.id == b.id && |m.muts| >= |b.muts| && m.muts[|m.muts| - |b.muts|..] == b.muts
    ensures var d := |m.muts| - |b.muts|; pos + d < m.Size() && m.Items()[pos + d + 1..] == b.Items()[pos + 1..]
  {
    var d := |m.muts| - |b.muts|;
    var x, y := m.Items()[pos + d + 1..], b.Items()[pos + 1..];
    assert |x| == |y|;
    forall j | 0 <= j < |x| ensures x[j] == y[j] {
      var p := pos + 1 + j;
      if p < 2 + |b.muts| {
        assert m.muts[d + p - 2] == m.muts[d..][p - 2];
      }
    }
  }

  // ---- What the calls promise

  /** Only the range of the last checkpoint is set. */
  ghost predicate SetsRange(v: View, s: nat, e: nat, w: View) {
    && |v.chks| == |w.chks| > 0 && w == v.(chks := w.chks)
    && w.chks[..|v.chks| - 1] == v.chks[..|v.chks| - 1] && w.Back() == v.Back().(snapStart := s, snapEnd := e)
  }

  /** Only the last checkpoint is closed, if it was open, and every cursor has its checkpoint_end to come. */
  ghost predicate ClosesBack(v: View, w: View) {
    && |v.chks| == |w.chks| > 0 && w == v.(chks := w.chks)
    && w.chks[..|v.chks| - 1] == v.chks[..|v.chks| - 1]
    && w.Back() == (if v.Back().phase.Open? then v.Back().(phase := Closed(v.last)) else v.Back())
    && forall n :: n in v.cursors ==>
         CurIn(v.chks, v.cursors[n]) && CurIn(w.chks, v.cursors[n]) && Ahead(w.chks, v.cursors[n]) == Ahead(v.chks, v.cursors[n]) + EndOf(v)
  }

  lemma {:induction false} ClosesBackEffect(v: View)
    requires Inv(v)
    ensures ClosesBack(v, Close(v))
  {
    hide ChksInv, Ahead, Chk.Size;
    forall n | n in v.cursors ensures CurIn(Close(v).chks, v.cursors[n]) && Ahead(Close(v).chks, v.cursors[n]) == Ahead(v.chks, v.cursors[n]) + EndOf(v) {
      CloseItems(v, v.cursors[n]);
    }
  }

  /** The last checkpoint is closed and a new one opened, with the given id and range, no mutation and the numbers from
      the last on; every cursor has all it had ahead, the checkpoint_end and the new checkpoint_start to come. */
  ghost predicate OpensNext(v: View, id: nat, s: nat, e: nat, w: View) {
    && |v.chks| > 0 && |w.chks| == |v.chks| + 1 && w.cursors.Keys == v.cursors.Keys && w.last == v.last && w.preId == v.preId
    && w.Back() == Chk(id, s, e, v.last, [], Open)
    && w.chks[|v.chks| - 1] == (if v.Back().phase.Open? then v.Back().(phase := Closed(v.last)) else v.Back())
    && w.chks[..|v.chks| - 1] == v.chks[..|v.chks| - 1]
    && forall n :: n in v.cursors ==>
         && CurIn(v.chks, v.cursors[n]) && CurIn(w.chks, w.cursors[n])
         && w.cursors[n] == v.cursors[n].(chk := w.cursors[n].chk, pos := w.cursors[n].pos)
         && Ahead(w.chks, w.cursors[n]) ==
            Onwards(Ahead(v.chks, v.cursors[n]), v.cursors[n].sendEnd, EndOf(v) + [Item(Start, START_KEY, v.last + 1, id)])
  }

  lemma {:induction false} OpensNextEffect(v: View, id: nat, s: nat, e: nat)
    requires Inv(v)
    ensures OpensNext(v, id, s, e, Roll(v, id, s, e))
  {
    hide ChksInv, Ahead, Onwards, CurIn, EnterNext, EndOf;
    forall n | n in v.cursors
      ensures var w := Roll(v, id, s, e);
              && CurIn(v.chks, v.cursors[n]) && CurIn(w.chks, w.cursors[n])
              && w.cursors[n] == v.cursors[n].(chk := w.cursors[n].chk, pos := w.cursors[n].pos)
              && Ahead(w.chks, w.cursors[n]) ==
                 Onwards(Ahead(v.chks, v.cursors[n]), v.cursors[n].sendEnd, EndOf(v) + [Item(Start, START_KEY, v.last + 1, id)])
    {
      RollItems(v, id, s, e, n);
    }
  }

  /** The last checkpoint after either. */
  lemma {:induction false} BackAfter(v: View, id: nat, s: nat, e: nat, w: View)
    requires OpensNext(v, id, s, e, w) || SetsRange(v, s, e, w)
    ensures |v.chks| > 0 && |w.chks| > 0
    ensures OpensNext(v, id, s, e, w) ==> w.Back() == Chk(id, s, e, v.last, [], Open)
    ensures SetsRange(v, s, e, w) ==> w.Back() == v.Back().(snapStart := s, snapEnd := e)
  {
    hide Ahead, CurIn, Onwards;
  }

  /** With no checkpoint open and no right to open one, nothing happens. Otherwise the number is taken, by a mutation
      that is refused too, and the last checkpoint is all that is queued to. */
  ghost predicate QueuesItem(v: View, active: bool, maxCheckpoints: nat, wantNew: bool, x: Item, genSeqno: bool, w: View) {
    && |v.chks| > 0
    && var opens, s := Opens(v, active, maxCheckpoints, wantNew), if genSeqno then v.last + 1 else x.seqno;
    if v.Back().phase.Closed? && !opens then w == v
    else
      && w.last == s && w.preId == v.preId && |w.chks| == |v.chks| + (if opens then 1 else 0)
      && w.Back() == LastAfter(v, opens, x, s, genSeqno)
      && (opens ==> w.chks[|v.chks| - 1] == if v.Back().phase.Open? then v.Back().(phase := Closed(v.last)) else v.Back())
      && w.chks[..|v.chks| - 1] == v.chks[..|v.chks| - 1]
      && w.cursors.Keys == v.cursors.Keys && forall n :: n in v.cursors ==> QueuedFor(v, opens, x.(seqno := s), Takes(v, opens, s, genSeqno), w, n)
  }

  /** What that means to a cursor: after all it had ahead, grown by the rollover if there is one, comes the mutation, and at
      most the entry it supersedes is gone. */
  ghost predicate QueuedFor(v: View, opens: bool, y: Item, taken: bool, w: View, n: Name)
    requires |v.chks| > 0 && n in v.cursors
  {
    var c := v.cursors[n];
    && n in w.cursors && CurIn(v.chks, c) && CurIn(w.chks, w.cursors[n]) && w.cursors[n] == c.(chk := w.cursors[n].chk, pos := w.cursors[n].pos)
    && var ahead := if opens then Onwards(Ahead(v.chks, c), c.sendEnd, EndOf(v) + [Item(Start, START_KEY, v.last + 1, v.Back().id + 1)])
                    else Ahead(v.chks, c);
    if taken then Appended(ahead, y, Ahead(w.chks, w.cursors[n])) else Ahead(w.chks, w.cursors[n]) == ahead
  }

  lemma {:induction false} RangeItems(v: View, s: nat, e: nat, c: Cur)
    requires |v.chks| > 0 && CurIn(v.chks, c)
    ensures CurIn(WithRange(v, s, e).chks, c) && Ahead(WithRange(v, s, e).chks, c) == Ahead(v.chks, c)
  {
    hide Ahead, Chk.Items, Chk.Size;
    var w, k := WithRange(v, s, e), |v.chks| - 1;
    SameItems(v.Back(), w.Back());
    if c.chk < k {
      assert v.chks == v.chks[..k] + [v.Back()] && w.chks == v.chks[..k] + [w.Back()];
      EarlierItems(v.chks[..k], v.Back(), c);
      EarlierItems(v.chks[..k], w.Back(), c);
    } else {
      LastItems(v.chks, c);
      LastItems(w.chks, c);
    }
  }

  lemma {:induction false} SameItems(a: Chk, b: Chk)
    requires b == a.(snapStart := b.snapStart, snapEnd := b.snapEnd)
    ensures a.Items() == b.Items() && a.Size() == b.Size()
  {
  }

  lemma {:induction false} PreparedFor(v: View, active: bool, maxCheckpoints: nat, wantNew: bool, n: Name)
    requires Inv(v) && n in v.cursors
    ensures var u, opens, c := Snapshots.Prepared(v, active, maxCheckpoints, wantNew), Opens(v, active, maxCheckpoints, wantNew), v.cursors[n];
            && CurIn(v.chks, c) && CurIn(u.chks, u.cursors[n]) && u.cursors[n] == c.(chk := u.cursors[n].chk, pos := u.cursors[n].pos)
            && Ahead(u.chks, u.cursors[n]) ==
               if opens then Onwards(Ahead(v.chks, c), c.sendEnd, EndOf(v) + [Item(Start, START_KEY, v.last + 1, v.Back().id + 1)])
               else Ahead(v.chks, c)
  {
    hide ChksInv, CurIn, Ahead, Onwards, EndOf, Roll;
    assert CurIn(v.chks, v.cursors[n]);
    RollItems(v, v.Back().id + 1, v.last, v.last, n);
  }

  lemma {:induction false} QueuedForAll(v: View, active: bool, maxCheckpoints: nat, wantNew: bool, x: Item, genSeqno: bool, n: Name)
    requires Inv(v) && (!genSeqno ==> v.last < x.seqno) && n in v.cursors
    ensures var opens, s := Opens(v, active, maxCheckpoints, wantNew), if genSeqno then v.last + 1 else x.seqno;
            (v.Back().phase.Closed? && !opens) ||
            QueuedFor(v, opens, x.(seqno := s), Takes(v, opens, s, genSeqno), Snapshots.Queued(v, active, maxCheckpoints, wantNew, x, genSeqno), n)
  {
    hide ChksInv, CurIn, Ahead, Onwards, EndOf, Snapshots.Prepared, Enqueue, WithRange, Appended, Takes, Opens;
    var u, opens := Snapshots.Prepared(v, active, maxCheckpoints, wantNew), Opens(v, active, maxCheckpoints, wantNew);
    var s := if genSeqno then v.last + 1 else x.seqno;
    PreparedEffect(v, active, maxCheckpoints, wantNew);
    PreparedFor(v, active, maxCheckpoints, wantNew, n);
    TakesIsInRange(v, active, maxCheckpoints, wantNew, x, genSeqno);
    RangeItems(u, u.Back().snapStart, u.last + 1, u.cursors[n]);
    if u.Back().phase.Open? && Snapshots.InRange(u, x, genSeqno) {
      EnqueueItems(Snapshots.Ranged(u, genSeqno), x.(seqno := s), n);
    }
  }

  lemma {:induction false} TakesIsInRange(v: View, active: bool, maxCheckpoints: nat, wantNew: bool, x: Item, genSeqno: bool)
    requires Inv(v) && (!genSeqno ==> v.last < x.seqno)
    ensures var u, opens := Snapshots.Prepared(v, active, maxCheckpoints, wantNew), Opens(v, active, maxCheckpoints, wantNew);
            && (u.Back().phase.Closed? <==> v.Back().phase.Closed? && !opens)
            && (u.Back().phase.Open? ==>
                  (Snapshots.InRange(u, x, genSeqno) <==> Takes(v, opens, if genSeqno then v.last + 1 else x.seqno, genSeqno)))
  {
    hide ChksInv, CurIn, Snapshots.Prepared;
    PreparedEffect(v, active, maxCheckpoints, wantNew);
  }

  lemma {:induction false} QueuedKeys(v: View, active: bool, maxCheckpoints: nat, wantNew: bool, x: Item, genSeqno: bool)
    requires |v.chks| > 0
    ensures Snapshots.Queued(v, active, maxCheckpoints, wantNew, x, genSeqno).cursors.Keys == v.cursors.Keys
  {
    hide Snapshots.Prepared, Enqueue;
  }

  lemma {:induction false} QueuesItemEffect(v: View, active: bool, maxCheckpoints: nat, wantNew: bool, x: Item, genSeqno: bool)
    requires Inv(v) && (!genSeqno ==> v.last < x.seqno)
    ensures var u, w := Snapshots.Prepared(v, active, maxCheckpoints, wantNew), Snapshots.Queued(v, active, maxCheckpoints, wantNew, x, genSeqno);
            var opens, s := Opens(v, active, maxCheckpoints, wantNew), if genSeqno then v.last + 1 else x.seqno;
            && QueuesItem(v, active, maxCheckpoints, wantNew, x, genSeqno, w)
            && (u.Back().phase.Closed? <==> v.Back().phase.Closed? && !opens)
            && (u.Back().phase.Open? ==> (Snapshots.InRange(u, x, genSeqno) <==> Takes(v, opens, s, genSeqno)))
            && (u.Back().phase.Open? && Takes(v, opens, s, genSeqno) ==>
                  w.Back().muts != [] && w.Back().muts[|w.Back().muts| - 1] == x.(seqno := w.last))
  {
    hide ChksInv, CurIn, Snapshots.Prepared, NotIn, Snapshots.Queued, Snapshots.InRange, QueuedFor, Opens;
    PreparedEffect(v, active, maxCheckpoints, wantNew);
    QueuedEffect(v, active, maxCheckpoints, wantNew, x, genSeqno);
    QueuedKeys(v, active, maxCheckpoints, wantNew, x, genSeqno);
    TakesIsInRange(v, active, maxCheckpoints, wantNew, x, genSeqno);
    var opens, s := Opens(v, active, maxCheckpoints, wantNew), if genSeqno then v.last + 1 else x.seqno;
    if !(v.Back().phase.Closed? && !opens) {
      forall n | n in v.cursors
        ensures QueuedFor(v, opens, x.(seqno := s), Takes(v, opens, s, genSeqno), Snapshots.Queued(v, active, maxCheckpoints, wantNew, x, genSeqno), n)
      {
        QueuedForAll(v, active, maxCheckpoints, wantNew, x, genSeqno, n);
      }
    }
  }
}
