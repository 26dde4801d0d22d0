/** The manager's concrete state: item lists with the indexes, counters, name sets and cursor offsets that the
    code keeps beside them, and what it means for all of these to agree. An iterator into a list is the index
    of the node it designates, so erasing or inserting a node renumbers the iterators after it. */
module ManagerState {
  import opened Log
  import opened Checkpoints
  import opened CheckpointLaws

  datatype IndexEntry = IndexEntry(position: nat, mutationId: nat)

  type Index = map<Key, IndexEntry>

  datatype Checkpoint = Checkpoint(
    id: nat, closed: bool, snapStart: nat, snapEnd: nat, numItems: nat, names: set<Name>,
    toWrite: seq<Item>, keyIndex: Index, metaKeyIndex: Index)

  datatype CheckpointCursor = CheckpointCursor(chk: nat, pos: nat, offset: nat, fromBeginning: bool, sendEnd: bool) {
    function At(): Cur { Cur(chk, pos, fromBeginning, sendEnd) }

    /** `decrOffset`: clamps at zero. */
    function DecrOffset(d: nat): CheckpointCursor {
      if offset >= d then this.(offset := offset - d) else this.(offset := 0)
    }

    /** `decrPos`. */
    function DecrPos(): CheckpointCursor {
      if pos != 0 then this.(pos := pos - 1) else this
    }
  }

  /** The key index maps exactly the keys of the mutations to their positions and sequence numbers. */
  ghost predicate IndexAgrees(idx: Index, muts: seq<Item>) {
    && (forall i :: 0 <= i < |muts| ==> muts[i].key in idx && idx[muts[i].key] == IndexEntry(i + 2, muts[i].seqno))
    && (forall k :: k in idx ==> 2 <= idx[k].position < 2 + |muts| && muts[idx[k].position - 2].key == k)
  }

  function MetaIndex(c: Chk): Index {
    var m: Index := map[DUMMY_KEY := IndexEntry(0, c.base), START_KEY := IndexEntry(1, c.base + 1)];
    match c.phase
    case Open => m
    case Closed(e) => m[END_KEY := IndexEntry(2 + |c.muts|, e)]
  }

  /** `b` is the concrete form of `c`. */
  ghost predicate Represents(b: Checkpoint, c: Chk) {
    && b.id == c.id && b.closed == c.phase.Closed? && b.snapStart == c.snapStart && b.snapEnd == c.snapEnd
    && b.toWrite == c.Items() && b.numItems == |c.muts|
    && IndexAgrees(b.keyIndex, c.muts) && b.metaKeyIndex == MetaIndex(c)
  }

  /** `c` is the concrete form of `at`, its cached offset included. */
  ghost predicate CursorIs(cs: seq<Chk>, c: CheckpointCursor, at: Cur) {
    c.At() == at && c.chk < |cs| && c.offset == OffsetOf(cs, at)
  }

  ghost predicate CursorsAre(cs: seq<Chk>, cursors: map<Name, CheckpointCursor>, at: map<Name, Cur>) {
    cursors.Keys == at.Keys && forall n :: n in cursors ==> CursorIs(cs, cursors[n], at[n])
  }

  /** A checkpoint's name set holds exactly the cursors that rest in it. */
  ghost predicate NamesAgree(list: seq<Checkpoint>, cursors: map<Name, CheckpointCursor>) {
    && (forall i, n :: 0 <= i < |list| && n in list[i].names ==> n in cursors && cursors[n].chk == i)
    && (forall n :: n in cursors && cursors[n].chk < |list| ==> n in list[cursors[n].chk].names)
  }

  /** The index has as many entries as there are mutations. */
  lemma {:induction false} IndexSize(idx: Index, muts: seq<Item>)
    requires DistinctKeys(muts) && IndexAgrees(idx, muts)
    ensures |idx| == |muts|
  {
    var keys := set i | 0 <= i < |muts| :: muts[i].key;
    assert idx.Keys == keys;
    KeyCount(muts);
  }

  lemma {:induction false} KeyCount(s: seq<Item>)
    requires DistinctKeys(s)
    ensures |set i | 0 <= i < |s| :: s[i].key| == |s|
  {
    if s != [] {
      var k := |s| - 1;
      KeyCount(s[..k]);
      var a, b := (set i | 0 <= i < |s[..k]| :: s[..k][i].key), (set i | 0 <= i < |s| :: s[i].key);
      assert b == a + {s[k].key} by {
        forall x | x in b ensures x in a + {s[k].key} {
          var i :| 0 <= i < |s| && s[i].key == x;
          assert i < k ==> s[..k][i].key == x;
        }
        forall x | x in a ensures x in b {
          var i :| 0 <= i < k && s[..k][i].key == x;
          assert s[i].key == x;
        }
      }
      assert s[k].key !in a;
    }
  }

  // ---- Queueing into a checkpoint

  /** The iterators held by an index after the node at `p` is erased. */
  function Erased(idx: Index, p: nat): Index {
    map k | k in idx :: if idx[k].position > p then idx[k].(position := idx[k].position - 1) else idx[k]
  }

  /** Push `x` back under a new key. */
  function PushedNew(b: Checkpoint, x: Item): Checkpoint {
    b.(numItems := b.numItems + 1, toWrite := b.toWrite + [x],
       keyIndex := b.keyIndex[x.key := IndexEntry(|b.toWrite|, x.seqno)])
  }

  /** Push `x` back and erase the node at `p`. */
  function PushedAgain(b: Checkpoint, x: Item, p: nat): Checkpoint
    requires p < |b.toWrite|
  {
    b.(toWrite := Without(b.toWrite + [x], p),
       keyIndex := Erased(b.keyIndex, p)[x.key := IndexEntry(|b.toWrite| - 1, x.seqno)])
  }

  lemma {:induction false} FindByIndex(idx: Index, m: seq<Item>, k: Key)
    requires IndexAgrees(idx, m) && DistinctKeys(m)
    ensures k in idx <==> Find(m, k) < |m|
    ensures k in idx ==> idx[k] == IndexEntry(Find(m, k) + 2, m[Find(m, k)].seqno)
  {
    if k in idx {
      FindUnique(m, idx[k].position - 2);
    }
  }

  lemma {:induction false} PushedNewRepresents(b: Checkpoint, c: Chk, x: Item)
    requires Represents(b, c) && c.phase.Open? && x.key !in b.keyIndex && DistinctKeys(c.muts)
    ensures Represents(PushedNew(b, x), c.(muts := Append(c.muts, x)))
  {
    hide Find, DistinctKeys, Chk.Items, IndexAgrees;
    FindByIndex(b.keyIndex, c.muts, x.key);
    ItemsGrow(c, x);
    IndexGrows(b.keyIndex, c.muts, x);
  }

  lemma {:induction false} ItemsGrow(c: Chk, x: Item)
    requires c.phase.Open?
    ensures c.Items() + [x] == c.(muts := c.muts + [x]).Items()
  {
  }

  lemma {:induction false} IndexGrows(idx: Index, m: seq<Item>, x: Item)
    requires IndexAgrees(idx, m) && x.key !in idx
    ensures IndexAgrees(idx[x.key := IndexEntry(|m| + 2, x.seqno)], m + [x])
  {
  }

  lemma {:induction false} PushedAgainRepresents(b: Checkpoint, c: Chk, x: Item)
    requires Represents(b, c) && c.phase.Open? && x.key in b.keyIndex && DistinctKeys(c.muts)
    ensures b.keyIndex[x.key].position < |b.toWrite|
    ensures Represents(PushedAgain(b, x, b.keyIndex[x.key].position), c.(muts := Append(c.muts, x)))
  {
    hide DistinctKeys, Chk.Items, IndexAgrees, Erased;
    FindByIndex(b.keyIndex, c.muts, x.key);
    var i := b.keyIndex[x.key].position - 2;
    ItemsRequeued(c, i, x);
    ErasedAgrees(b.keyIndex, c.muts, i, x);
  }

  lemma {:induction false} ItemsRequeued(c: Chk, i: nat, x: Item)
    requires c.phase.Open? && i < |c.muts|
    ensures Without(c.Items() + [x], i + 2) == c.(muts := Without(c.muts, i) + [x]).Items()
  {
    var head := [Item(Empty, DUMMY_KEY, c.base, 0), Item(Start, START_KEY, c.base + 1, c.id)];
    assert c.Items() == head + c.muts;
    assert Without(head + c.muts + [x], i + 2) == Without(head + c.muts, i + 2) + [x];
    WithoutInSuffix(head, c.muts, i, x);
    assert c.(muts := Without(c.muts, i) + [x]).Items() == head + (Without(c.muts, i) + [x]);
  }

  lemma {:induction false} ErasedAgrees(idx: Index, m: seq<Item>, i: nat, x: Item)
    requires IndexAgrees(idx, m) && DistinctKeys(m) && i < |m| && m[i].key == x.key
    ensures IndexAgrees(Erased(idx, i + 2)[x.key := IndexEntry(|m| + 1, x.seqno)], Without(m, i) + [x])
  {
    hide Erased, Without, DistinctKeys;
    var t := Without(m, i) + [x];
    var idx' := Erased(idx, i + 2)[x.key := IndexEntry(|m| + 1, x.seqno)];
    forall j | 0 <= j < |t| ensures t[j].key in idx' && idx'[t[j].key] == IndexEntry(j + 2, t[j].seqno) {
      ErasedForward(idx, m, i, x, j);
    }
    forall k | k in idx' ensures 2 <= idx'[k].position < 2 + |t| && t[idx'[k].position - 2].key == k {
      ErasedBack(idx, m, i, x, k);
    }
  }

  lemma {:induction false} ErasedForward(idx: Index, m: seq<Item>, i: nat, x: Item, j: nat)
    requires IndexAgrees(idx, m) && DistinctKeys(m) && i < |m| && m[i].key == x.key && j < |Without(m, i) + [x]|
    ensures var t, idx' := Without(m, i) + [x], Erased(idx, i + 2)[x.key := IndexEntry(|m| + 1, x.seqno)];
            t[j].key in idx' && idx'[t[j].key] == IndexEntry(j + 2, t[j].seqno)
  {
    hide Erased, Without, IndexAgrees;
    WithoutEnds(m, i, x);
    if j < |m| - 1 {
      WithoutAt(m, i, x, j);
      var j' := if j < i then j else j + 1;
      IndexAt(idx, m, j');
      ErasedAt(idx, i + 2, m[j'].key);
    }
  }

  lemma {:induction false} ErasedBack(idx: Index, m: seq<Item>, i: nat, x: Item, k: Key)
    requires IndexAgrees(idx, m) && DistinctKeys(m) && i < |m| && m[i].key == x.key
    requires k in Erased(idx, i + 2)[x.key := IndexEntry(|m| + 1, x.seqno)]
    ensures var t, e := Without(m, i) + [x], Erased(idx, i + 2)[x.key := IndexEntry(|m| + 1, x.seqno)][k];
            2 <= e.position < 2 + |t| && t[e.position - 2].key == k
  {
    hide Erased, Without, IndexAgrees;
    WithoutEnds(m, i, x);
    if k != x.key {
      ErasedAt(idx, i + 2, k);
      IndexOf(idx, m, k);
      var j := idx[k].position - 2;
      WithoutAt(m, i, x, if j < i then j else j - 1);
    }
  }

  lemma {:induction false} IndexAt(idx: Index, m: seq<Item>, j: nat)
    requires IndexAgrees(idx, m) && j < |m|
    ensures m[j].key in idx && idx[m[j].key] == IndexEntry(j + 2, m[j].seqno)
  {
  }

  lemma {:induction false} IndexOf(idx: Index, m: seq<Item>, k: Key)
    requires IndexAgrees(idx, m) && k in idx
    ensures 2 <= idx[k].position < 2 + |m| && m[idx[k].position - 2].key == k
  {
  }

  lemma {:induction false} ErasedAt(idx: Index, p: nat, k: Key)
    ensures k in Erased(idx, p) <==> k in idx
    ensures k in idx ==> Erased(idx, p)[k] == if idx[k].position > p then idx[k].(position := idx[k].position - 1) else idx[k]
  {
  }

  lemma {:induction false} WithoutAt(m: seq<Item>, i: nat, x: Item, j: nat)
    requires i < |m| && j < |m| - 1
    ensures |Without(m, i)| == |m| - 1 && (Without(m, i) + [x])[j] == m[if j < i then j else j + 1]
  {
  }

  lemma {:induction false} WithoutEnds(m: seq<Item>, i: nat, x: Item)
    requires i < |m|
    ensures |Without(m, i)| == |m| - 1 && (Without(m, i) + [x])[|m| - 1] == x
  {
  }

  // ---- Assembling a valid state

  ghost predicate ListRepresents(list: seq<Checkpoint>, cs: seq<Chk>) {
    |list| == |cs| && forall i :: 0 <= i < |list| ==> Represents(list[i], cs[i])
  }

  /** Concrete state `(list, cursors, numItems)` has the abstract value `v` and all its parts agree. */
  ghost predicate Models(list: seq<Checkpoint>, cursors: map<Name, CheckpointCursor>, numItems: nat, v: View) {
    && |list| == |v.chks| > 0
    && ListRepresents(list, v.chks)
    && CursorsAre(v.chks, cursors, v.cursors)
    && Inv(v)
    && numItems == TotalItems(v.chks)
    && NamesAgree(list, cursors)
    && PERSISTENCE in cursors
  }

  // ---- Queueing: what it does to the cursors

  /** How the queueing loop leaves a cursor when the entry at `p` of checkpoint `back` is superseded. */
  function Nudged(c: CheckpointCursor, back: nat, p: nat): CheckpointCursor {
    if c.chk == back && c.pos >= p
    then c.(offset := if c.offset >= 1 then c.offset - 1 else 0, pos := if c.pos == p && c.pos != 0 then c.pos - 1 else c.pos)
    else c
  }

  /** A cursor's iterator after the node at `p` of checkpoint `back` is erased. */
  function AfterErase(c: CheckpointCursor, back: nat, p: nat): CheckpointCursor {
    if c.chk == back && c.pos > p then c.(pos := c.pos - 1) else c
  }

  /** The last checkpoint, at `back`, has an entry for `k` at position `p`. */
  predicate EntryAt(list: seq<Checkpoint>, k: Key, back: nat, p: nat) {
    back + 1 == |list| && k in list[back].keyIndex && list[back].keyIndex[k].position == p
  }

  /** Mutation ids come in the order of positions. */
  lemma {:induction false} IdsOrder(idx: Index, m: seq<Item>, k: Key, j: nat)
    requires IndexAgrees(idx, m) && Increasing(m) && k in idx && j < |m|
    ensures m[j].key in idx && (idx[k].mutationId <= idx[m[j].key].mutationId <==> j + 2 >= idx[k].position)
  {
    var i := idx[k].position - 2;
    assert m[i].key == k;
  }

  /** Mutation ids stand for positions: the code's test finds exactly the cursors at or after the entry. */
  lemma {:induction false} IdsOrderPositions(b: Checkpoint, c: Chk, k: Key, pos: nat)
    requires Represents(b, c) && c.Wf() && c.phase.Open? && k in b.keyIndex && pos < |b.toWrite|
    ensures var y := b.toWrite[pos];
            (y.key in b.keyIndex && y.IsMutation() && b.keyIndex[k].mutationId <= b.keyIndex[y.key].mutationId)
            <==> pos >= b.keyIndex[k].position
  {
    hide Increasing, DistinctKeys, Chk.Top;
    if pos >= 2 {
      IdsOrder(b.keyIndex, c.muts, k, pos - 2);
      assert b.toWrite[pos] == c.muts[pos - 2];
    }
  }

  lemma {:induction false} TotalOfConcat(a: seq<Chk>, b: seq<Chk>)
    ensures TotalItems(a + b) == TotalItems(a) + TotalItems(b)
  {
    if a == [] {
      assert a + b == b;
    } else {
      assert (a + b)[1..] == a[1..] + b;
      TotalOfConcat(a[1..], b);
    }
  }

  lemma {:induction false} PassedOfConcat(a: seq<Chk>, b: seq<Chk>)
    ensures Passed(a + b) == Passed(a) + Passed(b)
  {
    if a == [] {
      assert a + b == b;
    } else {
      assert (a + b)[1..] == a[1..] + b;
      PassedOfConcat(a[1..], b);
    }
  }

  lemma {:induction false} TotalWithBack(cs: seq<Chk>, c: Chk)
    requires |cs| > 0
    ensures TotalItems(cs[|cs| - 1 := c]) + cs[|cs| - 1].Size() == TotalItems(cs) + c.Size()
  {
    var k := |cs| - 1;
    assert cs == cs[..k] + [cs[k]] && cs[k := c] == cs[..k] + [c];
    TotalOfConcat(cs[..k], [cs[k]]);
    TotalOfConcat(cs[..k], [c]);
    assert TotalItems([c]) == c.Size() - 1 + TotalItems([]);
    assert TotalItems([cs[k]]) == cs[k].Size() - 1 + TotalItems([]);
  }

  lemma {:induction false} BackRepresents(list: seq<Checkpoint>, cs: seq<Chk>, b: Checkpoint, c: Chk)
    requires ListRepresents(list, cs) && |list| > 0 && Represents(b, c)
    ensures ListRepresents(list[|list| - 1 := b], cs[|cs| - 1 := c])
  {
    hide Represents;
  }

  /** Name sets only depend on which checkpoint each cursor is in. */
  lemma {:induction false} NamesKept(list: seq<Checkpoint>, cursors: map<Name, CheckpointCursor>,
                  list': seq<Checkpoint>, cursors': map<Name, CheckpointCursor>)
    requires NamesAgree(list, cursors) && |list'| == |list| && cursors'.Keys == cursors.Keys
    requires forall i :: 0 <= i < |list| ==> list'[i].names == list[i].names
    requires forall n :: n in cursors ==> cursors'[n].chk == cursors[n].chk
    ensures NamesAgree(list', cursors')
  {
  }

  /** The cursor that queueing `x` leaves for `c`. */
  function Requeued(v: View, k: Key, c: CheckpointCursor): (r: CheckpointCursor)
    requires |v.chks| > 0
    ensures r.chk == c.chk
  {
    var i, back := Find(v.Back().muts, k), |v.chks| - 1;
    if i < |v.Back().muts| then AfterErase(Nudged(c, back, i + 2), back, i + 2) else c
  }

  lemma {:induction false} RequeuedIs(v: View, x: Item, c: CheckpointCursor, at: Cur)
    requires |v.chks| > 0 && CursorIs(v.chks, c, at)
    ensures CursorIs(Enqueue(v, x).chks, Requeued(v, x.key, c), ShiftLeft(v, x.key, at))
  {
    hide Find, Passed;
    assert Enqueue(v, x).chks[..c.chk] == v.chks[..c.chk];
  }

  lemma {:induction false} TotalAfterEnqueue(v: View, x: Item)
    requires |v.chks| > 0
    ensures TotalItems(Enqueue(v, x).chks) ==
            TotalItems(v.chks) + if Find(v.Back().muts, x.key) < |v.Back().muts| then 0 else 1
  {
    TotalWithBack(v.chks, Enqueue(v, x).Back());
  }

  lemma {:induction false} EnqueueModels(list: seq<Checkpoint>, cursors: map<Name, CheckpointCursor>, num: nat, v: View, x: Item,
                      b': Checkpoint, cursors': map<Name, CheckpointCursor>)
    requires Models(list, cursors, num, v) && v.Back().phase.Open? && x.IsMutation() && v.last < x.seqno
    requires Represents(b', v.Back().(muts := Append(v.Back().muts, x))) && b'.names == list[|list| - 1].names
    requires cursors'.Keys == cursors.Keys && forall n :: n in cursors ==> cursors'[n] == Requeued(v, x.key, cursors[n])
    ensures Models(list[|list| - 1 := b'], cursors',
                   num + (if Find(v.Back().muts, x.key) < |v.Back().muts| then 0 else 1), Enqueue(v, x))
  {
    hide Inv, Represents, CursorIs, TotalItems, Append, Requeued, NamesAgree, Find, ShiftLeft;
    var w := Enqueue(v, x);
    EnqueueInv(v, x);
    TotalAfterEnqueue(v, x);
    BackRepresents(list, v.chks, b', w.Back());
    NamesKept(list, cursors, list[|list| - 1 := b'], cursors');
    forall n | n in cursors ensures CursorIs(w.chks, cursors'[n], w.cursors[n]) {
      RequeuedIs(v, x, cursors[n], v.cursors[n]);
    }
  }

  lemma {:induction false} BackFacts(list: seq<Checkpoint>, cursors: map<Name, CheckpointCursor>, num: nat, v: View, k: Key)
    requires Models(list, cursors, num, v)
    ensures var b := list[|list| - 1];
            && Represents(b, v.Back()) && v.Back().Wf() && DistinctKeys(v.Back().muts)
            && PERSISTENCE in v.cursors && cursors[PERSISTENCE].At() == v.cursors[PERSISTENCE]
            && (k in b.keyIndex <==> Find(v.Back().muts, k) < |v.Back().muts|)
            && (k in b.keyIndex ==> b.keyIndex[k].position == Find(v.Back().muts, k) + 2)
  {
    FindByIndex(list[|list| - 1].keyIndex, v.Back().muts, k);
  }

  lemma {:induction false} QueueNewModels(list: seq<Checkpoint>, cursors: map<Name, CheckpointCursor>, num: nat, v: View, x: Item)
    requires Models(list, cursors, num, v) && v.Back().phase.Open? && x.IsMutation() && v.last < x.seqno
    requires x.key !in list[|list| - 1].keyIndex
    ensures Models(list[|list| - 1 := PushedNew(list[|list| - 1], x)], cursors, num + 1, Enqueue(v, x))
  {
    hide Inv, CursorsAre, NamesAgree, TotalItems, ListRepresents, Represents, Enqueue, Chk.Wf, DistinctKeys, Append;
    BackFacts(list, cursors, num, v, x.key);
    PushedNewRepresents(list[|list| - 1], v.Back(), x);
    EnqueueModels(list, cursors, num, v, x, PushedNew(list[|list| - 1], x), cursors);
  }

  lemma {:induction false} QueueAgainModels(list: seq<Checkpoint>, cursors: map<Name, CheckpointCursor>, num: nat, v: View, x: Item, p: nat)
    requires Models(list, cursors, num, v) && v.Back().phase.Open? && x.IsMutation() && v.last < x.seqno
    requires x.key in list[|list| - 1].keyIndex && p == list[|list| - 1].keyIndex[x.key].position
    ensures p < |list[|list| - 1].toWrite|
    ensures Models(list[|list| - 1 := PushedAgain(list[|list| - 1], x, p)],
                   map n | n in cursors :: AfterErase(Nudged(cursors[n], |list| - 1, p), |list| - 1, p), num, Enqueue(v, x))
  {
    hide Inv, CursorsAre, NamesAgree, TotalItems, ListRepresents, Represents, Enqueue, Chk.Wf, DistinctKeys, Append,
         AfterErase, Nudged;
    BackFacts(list, cursors, num, v, x.key);
    PushedAgainRepresents(list[|list| - 1], v.Back(), x);
    var cursors' := map n | n in cursors :: AfterErase(Nudged(cursors[n], |list| - 1, p), |list| - 1, p);
    EnqueueModels(list, cursors, num, v, x, PushedAgain(list[|list| - 1], x, p), cursors');
  }

  // ---- Moving one cursor

  /** The name sets after cursor `n` goes from checkpoint `i` to checkpoint `j`. */
  function Renamed(list: seq<Checkpoint>, n: Name, i: nat, j: nat): (r: seq<Checkpoint>)
    requires i < |list| && j < |list|
    ensures |r| == |list|
    ensures forall k :: 0 <= k < |list| ==> r[k] == list[k].(names := r[k].names)
    ensures forall k :: 0 <= k < |list| ==> r[k].names == (if k == i then list[k].names - {n} else list[k].names) + if k == j then {n} else {}
  {
    var l := list[i := list[i].(names := list[i].names - {n})];
    l[j := l[j].(names := l[j].names + {n})]
  }

  lemma {:induction false} RenamedAgree(list: seq<Checkpoint>, cursors: map<Name, CheckpointCursor>, n: Name, c: CheckpointCursor)
    requires NamesAgree(list, cursors) && n in cursors && cursors[n].chk < |list| && c.chk < |list|
    ensures NamesAgree(Renamed(list, n, cursors[n].chk, c.chk), cursors[n := c])
  {
    hide Renamed;
  }

  lemma {:induction false} RenamedRepresents(list: seq<Checkpoint>, cs: seq<Chk>, n: Name, i: nat, j: nat)
    requires ListRepresents(list, cs) && i < |list| && j < |list|
    ensures ListRepresents(Renamed(list, n, i, j), cs)
  {
    hide Renamed, IndexAgrees, Chk.Items, MetaIndex;
    var r := Renamed(list, n, i, j);
    forall k | 0 <= k < |list| ensures Represents(r[k], cs[k]) {
      assert Represents(list[k], cs[k]) && r[k] == list[k].(names := r[k].names);
    }
  }

  /** Any cursor may be put anywhere, with the right offset and its name moved along. */
  lemma {:induction false} SetCursorModels(list: seq<Checkpoint>, cursors: map<Name, CheckpointCursor>, num: nat, v: View,
                        n: Name, c: CheckpointCursor)
    requires Models(list, cursors, num, v) && n in cursors && cursors[n].chk < |list|
    requires CurIn(v.chks, c.At()) && c.offset == OffsetOf(v.chks, c.At())
    ensures Models(Renamed(list, n, cursors[n].chk, c.chk), cursors[n := c], num, Move(v, n, c.At()))
  {
    hide Inv, NamesAgree, TotalItems, Represents, ListRepresents, Renamed, OffsetOf;
    RenamedAgree(list, cursors, n, c);
    RenamedRepresents(list, v.chks, n, cursors[n].chk, c.chk);
    MoveInv(v, n, c.At());
  }

  /** Within a checkpoint the name sets need no change. */
  lemma {:induction false} StepCursorModels(list: seq<Checkpoint>, cursors: map<Name, CheckpointCursor>, num: nat, v: View, n: Name, pos: nat)
    requires Models(list, cursors, num, v) && n in cursors && cursors[n].chk < |list|
    requires pos < v.chks[cursors[n].chk].Size() && pos >= cursors[n].pos
    ensures var c := cursors[n].(pos := pos, offset := cursors[n].offset + pos - cursors[n].pos);
            Models(list, cursors[n := c], num, Move(v, n, c.At()))
  {
    hide Inv, NamesAgree, TotalItems, ListRepresents, Passed;
    var c := cursors[n].(pos := pos, offset := cursors[n].offset + pos - cursors[n].pos);
    NamesKept(list, cursors, list, cursors[n := c]);
    MoveInv(v, n, c.At());
  }

  // ---- Closing and opening checkpoints

  /** `createCheckpointItem`. */
  function MetaItem(op: Op, id: nat, last: nat): Item
    requires op == Empty || op == Start || op == End
  {
    match op
    case Start => Item(Start, START_KEY, last + 1, id)
    case End => Item(End, END_KEY, last, id)
    case _ => Item(Empty, DUMMY_KEY, last, id)
  }

  /** Push a meta item back: `queueDirty` for an item that is not a mutation. */
  function PushedMeta(b: Checkpoint, x: Item): Checkpoint {
    b.(toWrite := b.toWrite + [x], metaKeyIndex := b.metaKeyIndex[x.key := IndexEntry(|b.toWrite|, x.seqno)])
  }

  function Emptied(id: nat, snapStart: nat, snapEnd: nat): Checkpoint {
    Checkpoint(id, false, snapStart, snapEnd, 0, {}, [], map[], map[])
  }

  /** A new checkpoint with its two leading items. */
  function Opened(id: nat, snapStart: nat, snapEnd: nat, last: nat): Checkpoint {
    PushedMeta(PushedMeta(Emptied(id, snapStart, snapEnd), MetaItem(Empty, 0, last)), MetaItem(Start, id, last))
  }

  lemma {:induction false} OpenedRepresents(id: nat, s: nat, e: nat, last: nat)
    ensures Represents(Opened(id, s, e, last), Chk(id, s, e, last, [], Open))
  {
    assert Opened(id, s, e, last).toWrite == Chk(id, s, e, last, [], Open).Items();
  }

  lemma {:induction false} CloseModels(list: seq<Checkpoint>, cursors: map<Name, CheckpointCursor>, num: nat, v: View)
    requires Models(list, cursors, num, v) && v.Back().phase.Open?
    ensures var b := list[|list| - 1];
            Models(list[|list| - 1 := PushedMeta(b, MetaItem(End, b.id, v.last)).(closed := true)], cursors, num + 1, Close(v))
  {
    hide Inv, NamesAgree, TotalItems, Passed, Represents, Chk.Items;
    var b := list[|list| - 1];
    var b' := PushedMeta(b, MetaItem(End, b.id, v.last)).(closed := true);
    assert Represents(b, v.Back());
    ClosedRepresents(b, v.Back(), v.last);
    BackRepresents(list, v.chks, b', Close(v).Back());
    NamesKept(list, cursors, list[|list| - 1 := b'], cursors);
    CloseInv(v);
    TotalWithBack(v.chks, Close(v).Back());
    forall n | n in cursors ensures CursorIs(Close(v).chks, cursors[n], v.cursors[n]) {
      assert Close(v).chks[..cursors[n].chk] == v.chks[..cursors[n].chk];
    }
  }

  lemma {:induction false} ClosedRepresents(b: Checkpoint, c: Chk, last: nat)
    requires Represents(b, c) && c.phase.Open?
    ensures Represents(PushedMeta(b, MetaItem(End, b.id, last)).(closed := true), c.(phase := Closed(last)))
  {
    hide IndexAgrees;
    assert PushedMeta(b, MetaItem(End, b.id, last)).toWrite == c.(phase := Closed(last)).Items();
  }

  /** The snapshot range is nobody else's business. */
  lemma {:induction false} RangeModels(list: seq<Checkpoint>, cursors: map<Name, CheckpointCursor>, num: nat, v: View, s: nat, e: nat)
    requires Models(list, cursors, num, v)
    ensures Models(list[|list| - 1 := list[|list| - 1].(snapStart := s, snapEnd := e)], cursors, num,
                   WithRange(v, s, e))
  {
    hide Inv, NamesAgree, TotalItems, Passed, Represents;
    var b, c := list[|list| - 1], v.Back().(snapStart := s, snapEnd := e);
    RangeRepresents(b, v.Back(), s, e);
    BackRepresents(list, v.chks, b.(snapStart := s, snapEnd := e), c);
    NamesKept(list, cursors, list[|list| - 1 := b.(snapStart := s, snapEnd := e)], cursors);
    TotalWithBack(v.chks, c);
    WithRangeInv(v, s, e);
    forall n | n in cursors ensures CursorIs(v.WithBack(c).chks, cursors[n], v.cursors[n]) {
      assert v.WithBack(c).chks[..cursors[n].chk] == v.chks[..cursors[n].chk];
    }
  }

  lemma {:induction false} RangeRepresents(b: Checkpoint, c: Chk, s: nat, e: nat)
    requires Represents(b, c)
    ensures Represents(b.(snapStart := s, snapEnd := e), c.(snapStart := s, snapEnd := e))
  {
    hide IndexAgrees;
  }

  /** The view once a new checkpoint is in the list and the cursors have not moved yet. */
  function Extended(v: View, c: Chk): View {
    v.(chks := v.chks + [c])
  }

  lemma {:induction false} ExtendModels(list: seq<Checkpoint>, cursors: map<Name, CheckpointCursor>, num: nat, v: View, id: nat, s: nat, e: nat)
    requires Models(list, cursors, num, v) && v.Back().phase.Closed? && v.Back().id < id
    ensures Models(list + [Opened(id, s, e, v.last)], cursors, num + 1, Extended(v, Chk(id, s, e, v.last, [], Open)))
  {
    hide Inv, TotalItems, Passed, Represents;
    var c := Chk(id, s, e, v.last, [], Open);
    OpenedRepresents(id, s, e, v.last);
    ExtendInv(v, c);
    TotalOfConcat(v.chks, [c]);
    assert TotalItems([c]) == 1 by { OneTotal(c); }
    forall n | n in cursors ensures CursorIs(Extended(v, c).chks, cursors[n], v.cursors[n]) {
      assert (v.chks + [c])[..cursors[n].chk] == v.chks[..cursors[n].chk];
    }
  }

  lemma {:induction false} OneTotal(c: Chk)
    ensures TotalItems([c]) == c.Size() - 1
  {
    assert TotalItems([c]) == c.Size() - 1 + TotalItems([]);
  }

  lemma {:induction false} ExtendInv(v: View, c: Chk)
    requires Inv(v) && v.Back().phase.Closed? && v.Back().id < c.id && c.base == v.last && c.muts == [] && c.phase == Open
    ensures Inv(Extended(v, c))
  {
    AddBack(v.chks, c);
  }

  lemma {:induction false} PassedOneMore(cs: seq<Chk>, i: nat)
    requires i < |cs|
    ensures Passed(cs[..i + 1]) == Passed(cs[..i]) + |cs[i].muts| + 2
  {
    assert cs[..i + 1] == cs[..i] + [cs[i]];
    PassedOfConcat(cs[..i], [cs[i]]);
    assert Passed([cs[i]]) == |cs[i].muts| + 2 + Passed([]);
  }

  /** From the last item of a closed checkpoint a cursor enters the next one with the offset it has. */
  lemma {:induction false} EnterModels(list: seq<Checkpoint>, cursors: map<Name, CheckpointCursor>, num: nat, v: View, n: Name)
    requires Models(list, cursors, num, v) && n in cursors && cursors[n].chk + 1 < |list|
    requires v.chks[cursors[n].chk].phase.Closed? && cursors[n].pos + 1 == v.chks[cursors[n].chk].Size()
    ensures var c := cursors[n].(chk := cursors[n].chk + 1, pos := 0);
            Models(Renamed(list, n, cursors[n].chk, c.chk), cursors[n := c], num, Move(v, n, c.At()))
  {
    hide Inv, NamesAgree, TotalItems, ListRepresents, Renamed, Passed;
    assert CursorIs(v.chks, cursors[n], v.cursors[n]);
    PassedOneMore(v.chks, cursors[n].chk);
    SetCursorModels(list, cursors, num, v, n, cursors[n].(chk := cursors[n].chk + 1, pos := 0));
  }

  lemma {:induction false} ModelsFacts(list: seq<Checkpoint>, cursors: map<Name, CheckpointCursor>, num: nat, v: View, n: Name)
    requires Models(list, cursors, num, v) && n in cursors
    ensures |list| == |v.chks| && cursors.Keys == v.cursors.Keys
    ensures n in v.cursors && cursors[n].At() == v.cursors[n] && CurIn(v.chks, v.cursors[n]) && cursors[n].chk < |list|
    ensures cursors[n].offset == OffsetOf(v.chks, v.cursors[n])
    ensures var b, c := list[cursors[n].chk], v.chks[cursors[n].chk];
            && b.toWrite == c.Items() && |b.toWrite| == c.Size() && b.closed == c.phase.Closed? && b.id == c.id > 0
            && b.numItems == |c.muts| && AllMutations(c.muts)
            && (cursors[n].chk + 1 < |list| ==> c.phase.Closed?)
  {
    hide IndexAgrees, MetaIndex, NamesAgree, TotalItems;
    assert CurIn(v.chks, v.cursors[n]);
    assert Represents(list[cursors[n].chk], v.chks[cursors[n].chk]);
  }
}
