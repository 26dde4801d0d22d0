/** The checkpoint list and its cursors as values: what each operation of the manager means,
    free of the counters, indexes and name sets that the code keeps beside the lists. */
module Checkpoints {
  import opened Log

  type Name = string

  const PERSISTENCE: Name := "persistence"

  datatype Phase = Open | Closed(endSeqno: nat)

  /** A checkpoint: the dummy item carries `base`, checkpoint_start `base + 1`, and checkpoint_end,
      present once closed, the last sequence number at closing time. */
  datatype Chk = Chk(id: nat, snapStart: nat, snapEnd: nat, base: nat, muts: seq<Item>, phase: Phase) {

    function Tail(): seq<Item> {
      match phase
      case Open => []
      case Closed(e) => [Item(End, END_KEY, e, id)]
    }

    /** The item list `toWrite`. */
    function Items(): (r: seq<Item>)
      ensures |r| == Size()
    {
      [Item(Empty, DUMMY_KEY, base, 0), Item(Start, START_KEY, base + 1, id)] + muts + Tail()
    }

    function Size(): nat { 2 + |muts| + if phase.Closed? then 1 else 0 }

    /** An upper bound of the sequence numbers of the mutations, and of `base`. */
    function Top(): nat {
      match phase
      case Open => if muts == [] then base else muts[|muts| - 1].seqno
      case Closed(e) => e
    }

    ghost predicate Wf() {
      && AllMutations(muts)
      && DistinctKeys(muts)
      && Increasing(muts)
      && (forall i :: 0 <= i < |muts| ==> base < muts[i].seqno <= Top())
      && base <= Top()
    }

    /** How many mutations lie at or before position `pos` of the list. */
    function Given(pos: nat): (g: nat)
      ensures g <= |muts|
    {
      if pos < 2 then 0 else if pos - 1 <= |muts| then pos - 1 else |muts|
    }
  }

  /** A cursor: the index of its checkpoint and of the item it rests on. */
  datatype Cur = Cur(chk: nat, pos: nat, fromBeginning: bool, sendEnd: bool)

  datatype View = View(chks: seq<Chk>, cursors: map<Name, Cur>, last: nat, preId: nat) {

    function Back(): Chk
      requires |chks| > 0
    {
      chks[|chks| - 1]
    }

    function WithBack(c: Chk): View
      requires |chks| > 0
    {
      this.(chks := chks[|chks| - 1 := c])
    }
  }

  ghost predicate ChksInv(cs: seq<Chk>) {
    && |cs| > 0
    && (forall i :: 0 <= i < |cs| ==> cs[i].Wf() && cs[i].id > 0)
    && (forall i :: 0 <= i < |cs| - 1 ==> cs[i].phase.Closed?)
    && (forall i, j :: 0 <= i < j < |cs| ==> cs[i].Top() <= cs[j].base && cs[i].id < cs[j].id)
  }

  predicate CurIn(cs: seq<Chk>, c: Cur) {
    c.chk < |cs| && c.pos < cs[c.chk].Size()
  }

  /** What every operation keeps. */
  ghost predicate Inv(v: View) {
    && |v.chks| > 0 && ChksInv(v.chks)
    && v.Back().Top() <= v.last
    && (forall n :: n in v.cursors ==> CurIn(v.chks, v.cursors[n]))
  }

  // ---- What is ahead of a cursor

  function AllMuts(cs: seq<Chk>): seq<Item> {
    if cs == [] then [] else cs[0].muts + AllMuts(cs[1..])
  }

  /** The mutations strictly after a cursor, across all checkpoints. */
  function MutsAhead(cs: seq<Chk>, c: Cur): seq<Item>
    requires CurIn(cs, c)
  {
    cs[c.chk].muts[cs[c.chk].Given(c.pos)..] + AllMuts(cs[c.chk + 1..])
  }

  /** Every item of `cs` but the dummies. */
  function AllItems(cs: seq<Chk>): seq<Item> {
    if cs == [] then [] else cs[0].Items()[1..] + AllItems(cs[1..])
  }

  /** All items strictly after a cursor, dummies excepted. */
  function Ahead(cs: seq<Chk>, c: Cur): seq<Item>
    requires CurIn(cs, c)
  {
    cs[c.chk].Items()[c.pos + 1..] + AllItems(cs[c.chk + 1..])
  }

  // ---- Counters

  /** What the manager's `numItems` counts: every item but the dummies. */
  function TotalItems(cs: seq<Chk>): nat {
    if cs == [] then 0 else cs[0].Size() - 1 + TotalItems(cs[1..])
  }

  /** The items of closed checkpoints, dummies excepted: what a cursor past them has behind it. */
  function Passed(cs: seq<Chk>): nat {
    if cs == [] then 0 else |cs[0].muts| + 2 + Passed(cs[1..])
  }

  /** What a cursor's `offset` counts. */
  function OffsetOf(cs: seq<Chk>, c: Cur): nat
    requires c.chk <= |cs|
  {
    Passed(cs[..c.chk]) + c.pos
  }

  // ---- Queueing

  /** The place of `k` in a list of distinct keys, or its length. */
  function Find(s: seq<Item>, k: Key): (i: nat)
    ensures i <= |s|
    ensures i < |s| ==> s[i].key == k
    ensures forall j :: 0 <= j < i ==> s[j].key != k
  {
    if s == [] || s[0].key == k then 0 else 1 + Find(s[1..], k)
  }

  /** Append `x`, dropping the entry it supersedes. */
  function Append(s: seq<Item>, x: Item): seq<Item> {
    var i := Find(s, x.key);
    (if i < |s| then Without(s, i) else s) + [x]
  }

  /** A cursor at or after the superseded entry moves left with it. */
  function ShiftLeft(v: View, k: Key, c: Cur): Cur
    requires |v.chks| > 0
  {
    var i := Find(v.Back().muts, k);
    if c.chk == |v.chks| - 1 && i < |v.Back().muts| && c.pos >= i + 2 then c.(pos := c.pos - 1) else c
  }

  function Enqueue(v: View, x: Item): (w: View)
    requires |v.chks| > 0
    ensures w.cursors.Keys == v.cursors.Keys && |w.chks| == |v.chks| && w.last == x.seqno && w.preId == v.preId
  {
    v.WithBack(v.Back().(muts := Append(v.Back().muts, x)))
      .(last := x.seqno, cursors := map n | n in v.cursors :: ShiftLeft(v, x.key, v.cursors[n]))
  }

  // ---- Closing and opening checkpoints

  function Close(v: View): (w: View)
    requires |v.chks| > 0
    ensures |w.chks| == |v.chks| && w == v.(chks := w.chks)
  {
    if v.Back().phase.Closed? then v else v.WithBack(v.Back().(phase := Closed(v.last)))
  }

  /** On rollover a cursor with nothing left in its checkpoint, or nothing but a checkpoint_end it
      need not send, enters the next one. */
  function EnterNext(cs: seq<Chk>, c: Cur): Cur {
    if c.chk < |cs| && (c.pos + 1 == cs[c.chk].Size() || (!c.sendEnd && c.pos + 2 == cs[c.chk].Size()))
    then c.(chk := c.chk + 1, pos := 0) else c
  }

  function Roll(v: View, id: nat, snapStart: nat, snapEnd: nat): (w: View)
    requires |v.chks| > 0
    ensures w.cursors.Keys == v.cursors.Keys && w.last == v.last && |w.chks| == |v.chks| + 1
  {
    var w := Close(v);
    w.(chks := w.chks + [Chk(id, snapStart, snapEnd, v.last, [], Open)],
       cursors := map n | n in v.cursors :: EnterNext(w.chks, v.cursors[n]))
  }

  function WithRange(v: View, s: nat, e: nat): (w: View)
    requires |v.chks| > 0
    ensures |w.chks| == |v.chks| && w == v.(chks := w.chks)
  {
    v.WithBack(v.Back().(snapStart := s, snapEnd := e))
  }

  // ---- Moving a cursor

  /** Where the next item for a cursor is, if there is one: the code steps over the dummy. */
  function Step(cs: seq<Chk>, c: Cur): (r: Cur)
    requires CurIn(cs, c)
    ensures r == c.(chk := r.chk, pos := r.pos)
  {
    if c.pos + 1 < cs[c.chk].Size() then c.(pos := c.pos + 1)
    else if c.chk + 1 < |cs| then c.(chk := c.chk + 1, pos := 1)
    else c
  }

  predicate AtEnd(cs: seq<Chk>, c: Cur)
    requires CurIn(cs, c)
  {
    c.chk + 1 == |cs| && c.pos + 1 == cs[c.chk].Size()
  }

  /** Where a drained cursor rests. */
  function LastPlace(cs: seq<Chk>, c: Cur): Cur
    requires |cs| > 0
  {
    c.(chk := |cs| - 1, pos := cs[|cs| - 1].Size() - 1)
  }

  function Move(v: View, n: Name, c: Cur): View {
    v.(cursors := v.cursors[n := c])
  }

  // ---- Removing and merging checkpoints

  /** The first `k` checkpoints hold no cursor and have ids up to `pCursorPreCheckpointId`. */
  ghost predicate Removable(v: View, k: nat)
    requires k <= |v.chks|
  {
    && (forall i :: 0 <= i < k ==> v.chks[i].id <= v.preId)
    && (forall n :: n in v.cursors ==> v.cursors[n].chk >= k)
  }

  function RemovePrefix(v: View, k: nat): (w: View)
    requires k <= |v.chks|
    ensures w.cursors.Keys == v.cursors.Keys && w.last == v.last && w.preId == v.preId
  {
    v.(chks := v.chks[k..],
       cursors := map n | n in v.cursors ::
         v.cursors[n].(chk := if v.cursors[n].chk >= k then v.cursors[n].chk - k else 0))
  }

  /** Merge the previous checkpoint into `c`: its two leading items and its unsuperseded mutations. */
  function Absorb(c: Chk, prev: Chk): Chk {
    c.(base := prev.base, snapStart := prev.base + 1, muts := NotIn(prev.muts, c.muts) + c.muts)
  }

  /** All of `cs` merged into the last of them, newest first. */
  function Merged(cs: seq<Chk>): Chk
    requires |cs| > 0
  {
    if |cs| == 1 then cs[0] else Absorb(Merged(cs[1..]), cs[0])
  }

  /** Whether the search for a place stops at item `i`: the cursor goes just before it. */
  predicate Stops(items: seq<Item>, i: nat, seqno: nat, onStart: bool)
    requires i < |items|
  {
    seqno < items[i].seqno ||
    (seqno == items[i].seqno && onStart && items[if i == 0 then 0 else i - 1].op == Start)
  }

  function FirstStop(items: seq<Item>, i: nat, seqno: nat, onStart: bool): (r: nat)
    requires i <= |items|
    ensures i <= r <= |items|
    ensures forall j :: i <= j < r ==> !Stops(items, j, seqno, onStart)
    ensures r < |items| ==> Stops(items, r, seqno, onStart)
    decreases |items| - i
  {
    if i == |items| || Stops(items, i, seqno, onStart) then i else FirstStop(items, i + 1, seqno, onStart)
  }

  /** Where a cursor that rested on an item with `seqno` goes in the merged list. */
  function Place(items: seq<Item>, seqno: nat, onStart: bool): nat {
    var i := FirstStop(items, 0, seqno, onStart);
    if i == 0 then 0 else i - 1
  }

  /** A cursor re-placed in checkpoint 0, which now holds `m`. */
  function Replace(cs: seq<Chk>, m: Chk, c: Cur): Cur
    requires CurIn(cs, c)
  {
    var x := cs[c.chk].Items()[c.pos];
    c.(chk := 0, pos := if c.fromBeginning then 0 else Place(m.Items(), x.seqno, x.op == Start))
  }

  /** A cursor in the checkpoint that absorbs the others keeps its item. */
  function ShiftRight(c: Cur, added: nat): Cur {
    c.(chk := 0, pos := c.pos + added)
  }

  /** Cursors in the newest closed checkpoint that have not reached its mutations block a collapse. */
  predicate CollapseBlocked(v: View)
    requires |v.chks| > 1
  {
    exists n :: n in v.cursors && v.cursors[n].chk == |v.chks| - 2 && v.cursors[n].pos < 2
  }

  /** Merge all closed checkpoints into the newest of them. */
  function CollapseClosed(v: View): (w: View)
    requires |v.chks| > 0 && forall n :: n in v.cursors ==> CurIn(v.chks, v.cursors[n])
    ensures w.cursors.Keys == v.cursors.Keys && w.last == v.last && w.preId == v.preId
  {
    if |v.chks| <= 2 || CollapseBlocked(v) then v else
    var k := |v.chks| - 2;
    var m := Merged(v.chks[..k + 1]);
    v.(chks := [m, v.Back()], cursors := map n | n in v.cursors :: CollapsedCur(v, m, v.cursors[n]))
  }

  function CollapsedCur(v: View, m: Chk, c: Cur): Cur
    requires |v.chks| > 2 && CurIn(v.chks, c)
  {
    var k := |v.chks| - 2;
    if c.chk < k then Replace(v.chks, m, c)
    else if c.chk == k then ShiftRight(c, if |m.muts| >= |v.chks[k].muts| then |m.muts| - |v.chks[k].muts| else 0)
    else c.(chk := 1)
  }

  /** Merge all checkpoints into one open checkpoint with the given id. */
  function CollapseAll(v: View, id: nat): (w: View)
    requires |v.chks| > 0 && forall n :: n in v.cursors ==> CurIn(v.chks, v.cursors[n])
    ensures w.cursors.Keys == v.cursors.Keys && w.last == v.last && w.preId == v.preId && |w.chks| == 1
  {
    var m := Merged(v.WithBack(v.Back().(id := id)).chks).(phase := Open);
    v.(chks := [m], cursors := map n | n in v.cursors :: Replace(v.chks, m, v.cursors[n]))
  }
}
