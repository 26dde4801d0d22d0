/** Merging an older checkpoint into a newer one, in place, item by item. */
module Merging {
  import opened Log
  import opened Checkpoints
  import opened CollapseLaws
  import opened ManagerState

  /** The iterators held by an index after a node is inserted before position 2. */
  function Pushed(idx: Index): Index {
    map k | k in idx :: if idx[k].position >= 2 then idx[k].(position := idx[k].position + 1) else idx[k]
  }

  /** Insert an older mutation right after the two leading items. */
  function Inserted(b: Checkpoint, x: Item, mutationId: nat): Checkpoint
    requires |b.toWrite| >= 2
  {
    b.(toWrite := b.toWrite[..2] + [x] + b.toWrite[2..], numItems := b.numItems + 1,
       keyIndex := Pushed(b.keyIndex)[x.key := IndexEntry(2, mutationId)], metaKeyIndex := Pushed(b.metaKeyIndex))
  }

  lemma {:induction false} PushedAgrees(idx: Index, m: seq<Item>, x: Item)
    requires IndexAgrees(idx, m) && x.key !in idx
    ensures IndexAgrees(Pushed(idx)[x.key := IndexEntry(2, x.seqno)], [x] + m)
  {
    var idx', t := Pushed(idx)[x.key := IndexEntry(2, x.seqno)], [x] + m;
    forall i | 0 <= i < |t| ensures t[i].key in idx' && idx'[t[i].key] == IndexEntry(i + 2, t[i].seqno) {
      if i > 0 {
        assert t[i] == m[i - 1];
      }
    }
    forall k | k in idx' ensures 2 <= idx'[k].position < 2 + |t| && t[idx'[k].position - 2].key == k {
      if k != x.key {
        assert t[idx'[k].position - 2] == m[idx[k].position - 2];
      }
    }
  }

  lemma {:induction false} InsertedItems(c: Chk, x: Item)
    ensures c.Items()[..2] + [x] + c.Items()[2..] == c.(muts := [x] + c.muts).Items()
  {
    assert c.Items()[2..] == c.muts + c.Tail();
  }

  lemma {:induction false} InsertedRepresents(b: Checkpoint, c: Chk, x: Item)
    requires Represents(b, c) && x.key !in b.keyIndex
    ensures |b.toWrite| >= 2 && Represents(Inserted(b, x, x.seqno), c.(muts := [x] + c.muts))
  {
    hide IndexAgrees, Chk.Items;
    InsertedItems(c, x);
    PushedAgrees(b.keyIndex, c.muts, x);
    assert Pushed(b.metaKeyIndex) == MetaIndex(c.(muts := [x] + c.muts));
  }

  /** The two leading items take the older checkpoint's sequence numbers. */
  function Rebased(b: Checkpoint, dummy: nat, start: nat): Checkpoint
    requires |b.toWrite| >= 2 && DUMMY_KEY in b.metaKeyIndex && START_KEY in b.metaKeyIndex
  {
    b.(toWrite := b.toWrite[0 := b.toWrite[0].(seqno := dummy)][1 := b.toWrite[1].(seqno := start)],
       metaKeyIndex := b.metaKeyIndex[DUMMY_KEY := b.metaKeyIndex[DUMMY_KEY].(mutationId := dummy)]
                                     [START_KEY := b.metaKeyIndex[START_KEY].(mutationId := start)])
  }

  lemma {:induction false} RebasedRepresents(b: Checkpoint, c: Chk, base: nat)
    requires Represents(b, c)
    ensures |b.toWrite| >= 2 && DUMMY_KEY in b.metaKeyIndex && START_KEY in b.metaKeyIndex
    ensures Represents(Rebased(b, base, base + 1), c.(base := base))
  {
    hide IndexAgrees;
    assert Rebased(b, base, base + 1).toWrite == c.(base := base).Items();
  }

  /** `getMutationIdForKey`, which logs and returns 0 for a key it does not know. */
  function MutationIdForKey(b: Checkpoint, k: Key, isMeta: bool): nat {
    var idx := if isMeta then b.metaKeyIndex else b.keyIndex;
    if k in idx then idx[k].mutationId else 0
  }

  /** The indexes give every item its own sequence number. */
  lemma {:induction false} MutationIdIsSeqno(b: Checkpoint, c: Chk, pos: nat)
    requires Represents(b, c) && AllMutations(c.muts) && pos < c.Size()
    ensures var x := c.Items()[pos]; MutationIdForKey(b, x.key, !x.IsMutation()) == x.seqno
  {
    if 2 <= pos < 2 + |c.muts| {
      assert c.Items()[pos] == c.muts[pos - 2];
    }
  }

  lemma {:induction false} MarkIs(b: Checkpoint, c: Chk, pos: nat)
    requires Represents(b, c) && AllMutations(c.muts) && pos < |b.toWrite|
    ensures var x := b.toWrite[pos]; MutationIdForKey(b, x.key, !x.IsMutation()) == x.seqno
  {
    hide IndexAgrees, MetaIndex, MutationIdForKey, Chk.Items;
    MutationIdIsSeqno(b, c, pos);
  }

  lemma {:induction false} HasKeyByIndex(idx: Index, m: seq<Item>, k: Key)
    requires IndexAgrees(idx, m)
    ensures k in idx <==> HasKey(m, k)
  {
    if k in idx {
      assert m[idx[k].position - 2].key == k;
    }
  }

  /** Among older mutations not yet looked at, those of a key that is there already are exactly the superseded ones. */
  lemma {:induction false} StillNotIn(older: seq<Item>, newer: seq<Item>, j: nat, k: Key)
    requires DistinctKeys(older) && j < |older| && k == older[j].key
    ensures HasKey(NotIn(older[j + 1..], newer) + newer, k) <==> HasKey(newer, k)
  {
    var a := NotIn(older[j + 1..], newer);
    NotInElements(older[j + 1..], newer);
    HasKeyConcat(a, newer, k);
    forall i | 0 <= i < |a| ensures a[i].key != k {
      assert a[i] in older[j + 1..];
    }
  }

  /** One older mutation, from the back: inserted unless its key is there. */
  lemma {:induction false} MergeOne(b: Checkpoint, c: Chk, p: Chk, j: nat)
    requires j < |p.muts| && DistinctKeys(p.muts) && Represents(b, c.(muts := NotIn(p.muts[j + 1..], c.muts) + c.muts))
    ensures |b.toWrite| >= 2
    ensures |NotIn(p.muts[j..], c.muts)| == |NotIn(p.muts[j + 1..], c.muts)| + if p.muts[j].key in b.keyIndex then 0 else 1
    ensures p.muts[j].key in b.keyIndex ==> Represents(b, c.(muts := NotIn(p.muts[j..], c.muts) + c.muts))
    ensures p.muts[j].key !in b.keyIndex ==>
              Represents(Inserted(b, p.muts[j], p.muts[j].seqno), c.(muts := NotIn(p.muts[j..], c.muts) + c.muts))
  {
    hide IndexAgrees, Chk.Items, DistinctKeys, HasKey, Inserted;
    var x, t := p.muts[j], NotIn(p.muts[j + 1..], c.muts) + c.muts;
    StillNotIn(p.muts, c.muts, j, x.key);
    HasKeyByIndex(b.keyIndex, t, x.key);
    assert p.muts[j..][1..] == p.muts[j + 1..];
    if x.key !in b.keyIndex {
      InsertedRepresents(b, c.(muts := t), x);
      assert [x] + t == NotIn(p.muts[j..], c.muts) + c.muts;
    } else {
      assert NotIn(p.muts[j..], c.muts) == NotIn(p.muts[j + 1..], c.muts);
    }
  }

  /** How many mutations lie before item `i`. */
  function Before(p: Chk, i: nat): (g: nat)
    ensures g <= |p.muts|
  {
    if i < 2 then 0 else if i - 2 <= |p.muts| then i - 2 else |p.muts|
  }

  lemma {:induction false} LeadingIds(b: Checkpoint, c: Chk)
    requires Represents(b, c)
    ensures MutationIdForKey(b, DUMMY_KEY, true) == c.base && MutationIdForKey(b, START_KEY, true) == c.base + 1
    ensures |b.toWrite| == c.Size() && b.toWrite[1].seqno == c.base + 1 && |b.toWrite| >= 2
  {
  }

  lemma {:induction false} ItemBefore(b: Checkpoint, c: Chk, i: nat)
    requires Represents(b, c) && AllMutations(c.muts) && i < c.Size()
    ensures |b.toWrite| == c.Size()
    ensures var x := b.toWrite[i];
            if x.IsMutation() then
              && 2 <= i < 2 + |c.muts| && x == c.muts[i - 2] && MutationIdForKey(b, x.key, false) == x.seqno
              && Before(c, i) == i - 2 && Before(c, i + 1) == i - 1
            else Before(c, i) == Before(c, i + 1)
  {
    if 2 <= i < 2 + |c.muts| {
      assert c.Items()[i] == c.muts[i - 2];
    }
  }

  lemma {:induction false} NothingMerged(c: Chk, p: Chk)
    ensures NotIn(p.muts[Before(p, p.Size())..], c.muts) == []
    ensures c.(muts := NotIn(p.muts[Before(p, p.Size())..], c.muts) + c.muts) == c
  {
    assert [] + c.muts == c.muts;
  }

  lemma {:induction false} AllMerged(r: Checkpoint, c: Chk, p: Chk)
    requires Represents(r, c.(base := p.base, muts := NotIn(p.muts[Before(p, 0)..], c.muts) + c.muts))
    ensures |r.toWrite| >= 2 && Represents(r.(snapStart := r.toWrite[1].seqno), Absorb(c, p))
  {
    hide IndexAgrees, NotIn;
    assert p.muts[0..] == p.muts;
  }

  /** `Checkpoint::mergePrevCheckpoint`. */
  method MergePrevCheckpoint(b: Checkpoint, prev: Checkpoint, ghost c: Chk, ghost p: Chk) returns (r: Checkpoint, numNewItems: nat)
    requires Represents(b, c) && Represents(prev, p) && AllMutations(p.muts) && DistinctKeys(p.muts)
    ensures Represents(r, Absorb(c, p)) && r.names == b.names
    ensures numNewItems + |c.muts| == |Absorb(c, p).muts| && numNewItems <= |p.muts|
  {
    hide Represents, Chk.Items, Chk.Size, DistinctKeys, AllMutations, NotIn, Before;
    LeadingIds(prev, p);
    RebasedRepresents(b, c, p.base);
    r := Rebased(b, MutationIdForKey(prev, DUMMY_KEY, true), MutationIdForKey(prev, START_KEY, true));
    numNewItems := 0;
    var i := |prev.toWrite|;
    ghost var d := c.(base := p.base);
    NothingMerged(d, p);
    while i > 0
      invariant 0 <= i <= |prev.toWrite| == p.Size()
      invariant Represents(r, d.(muts := NotIn(p.muts[Before(p, i)..], c.muts) + c.muts))
      invariant r.names == b.names && numNewItems == |NotIn(p.muts[Before(p, i)..], c.muts)|
    {
      i := i - 1;
      ItemBefore(prev, p, i);
      var qi := prev.toWrite[i];
      if qi.IsMutation() {
        MergeOne(r, d, p, i - 2);
        if qi.key !in r.keyIndex {
          r := Inserted(r, qi, MutationIdForKey(prev, qi.key, false));
          numNewItems := numNewItems + 1;
        }
      }
    }
    AllMerged(r, c, p);
    r := r.(snapStart := r.toWrite[1].seqno);
    AbsorbedCount(c, p);
  }

  lemma {:induction false} AbsorbedCount(c: Chk, p: Chk)
    ensures |NotIn(p.muts[Before(p, 0)..], c.muts)| + |c.muts| == |Absorb(c, p).muts| <= |p.muts| + |c.muts|
  {
    assert p.muts[0..] == p.muts;
    FewerNotIn(p.muts, c.muts);
  }

  lemma {:induction false} FewerNotIn(s: seq<Item>, t: seq<Item>)
    ensures |NotIn(s, t)| <= |s|
  {
    if s != [] {
      FewerNotIn(s[1..], t);
    }
  }
}
