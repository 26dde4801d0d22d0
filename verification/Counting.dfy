/** The arithmetic the manager answers "how many items remain" with, against the items themselves. */
module Counting {
  import opened Log
  import opened Checkpoints
  import opened ManagerState

  /** The meta items of whole checkpoints, dummies excepted. */
  function Metas(cs: seq<Chk>): nat {
    if cs == [] then 0 else (if cs[0].phase.Closed? then 2 else 1) + Metas(cs[1..])
  }

  /** The meta items of its own checkpoint that a cursor has ahead. */
  function MetasHere(c: Chk, pos: nat): nat {
    if pos + 1 >= c.Size() then 0 else (if pos == 0 then 1 else 0) + if c.phase.Closed? then 1 else 0
  }

  lemma {:induction false} ItemsByKind(cs: seq<Chk>)
    ensures |AllItems(cs)| == TotalItems(cs) == |AllMuts(cs)| + Metas(cs)
  {
    if cs != [] {
      ItemsByKind(cs[1..]);
    }
  }

  /** What is ahead is mutations and meta items. */
  lemma {:induction false} AheadByKind(cs: seq<Chk>, c: Cur)
    requires CurIn(cs, c)
    ensures |Ahead(cs, c)| == |MutsAhead(cs, c)| + MetasHere(cs[c.chk], c.pos) + Metas(cs[c.chk + 1..])
  {
    hide AllItems, AllMuts, Metas, TotalItems;
    ItemsByKind(cs[c.chk + 1..]);
  }

  lemma {:induction false} PassedIsTotal(cs: seq<Chk>)
    requires forall i :: 0 <= i < |cs| ==> cs[i].phase.Closed?
    ensures Passed(cs) == TotalItems(cs)
  {
    if cs != [] {
      PassedIsTotal(cs[1..]);
    }
  }

  /** Every item but the dummies is either behind a cursor, as its offset counts, or ahead of it. */
  lemma {:induction false} BehindOrAhead(cs: seq<Chk>, c: Cur)
    requires ChksInv(cs) && CurIn(cs, c)
    ensures TotalItems(cs) == OffsetOf(cs, c) + |Ahead(cs, c)|
  {
    hide Chk.Wf, Chk.Top;
    var before, after := cs[..c.chk], cs[c.chk + 1..];
    assert cs == before + ([cs[c.chk]] + after);
    TotalOfConcat(before, [cs[c.chk]] + after);
    assert TotalItems([cs[c.chk]] + after) == cs[c.chk].Size() - 1 + TotalItems(after) by {
      assert ([cs[c.chk]] + after)[1..] == after;
    }
    PassedIsTotal(before);
    ItemsByKind(after);
  }

  /** The count of remaining items is the number of mutations ahead: the subtraction never goes below zero. */
  lemma {:induction false} RemainingIsMutsAhead(cs: seq<Chk>, c: Cur)
    requires ChksInv(cs) && CurIn(cs, c)
    ensures TotalItems(cs) - OffsetOf(cs, c) - (MetasHere(cs[c.chk], c.pos) + Metas(cs[c.chk + 1..])) == |MutsAhead(cs, c)|
  {
    hide ChksInv, Ahead, MutsAhead, MetasHere, TotalItems, OffsetOf, Metas;
    BehindOrAhead(cs, c);
    AheadByKind(cs, c);
  }

  /** From the concrete counters. */
  lemma {:induction false} RemainingModels(list: seq<Checkpoint>, cursors: map<Name, CheckpointCursor>, num: nat, v: View, n: Name)
    requires Models(list, cursors, num, v) && n in cursors
    ensures n in v.cursors && CurIn(v.chks, v.cursors[n])
    ensures var c := v.cursors[n];
            num - cursors[n].offset - (MetasHere(v.chks[c.chk], c.pos) + Metas(v.chks[c.chk + 1..])) == |MutsAhead(v.chks, c)|
  {
    hide ListRepresents, NamesAgree, TotalItems, OffsetOf, Metas, MetasHere, MutsAhead, ChksInv;
    RemainingIsMutsAhead(v.chks, v.cursors[n]);
  }

  lemma {:induction false} StartIsNext(c: Chk, pos: nat)
    requires pos + 1 < c.Size() && AllMutations(c.muts)
    ensures c.Items()[pos + 1].op == Start <==> pos == 0
  {
    if pos != 0 && pos - 1 < |c.muts| {
      assert c.Items()[pos + 1] == c.muts[pos - 1];
    }
  }

  // ---- The counters in the code's own terms

  /** The items of all lists but their dummies. */
  function ListItems(list: seq<Checkpoint>): int {
    if list == [] then 0 else |list[0].toWrite| - 1 + ListItems(list[1..])
  }

  /** What whole closed checkpoints add to an offset: their mutations, checkpoint_start and checkpoint_end. */
  function ListPassed(list: seq<Checkpoint>): nat {
    if list == [] then 0 else list[0].numItems + 2 + ListPassed(list[1..])
  }

  lemma {:induction false} ListCounts(list: seq<Checkpoint>, cs: seq<Chk>)
    requires ListRepresents(list, cs)
    ensures ListItems(list) == TotalItems(cs) && ListPassed(list) == Passed(cs)
  {
    hide IndexAgrees, MetaIndex, Chk.Items;
    if cs != [] {
      assert Represents(list[0], cs[0]);
      ListCounts(list[1..], cs[1..]);
    }
  }

  /** In every valid state the manager's item count is the length of all lists less the dummies, each cursor's offset is what
      whole checkpoints before it add plus its index in its own, and each checkpoint's item count is the size of its index. */
  lemma {:induction false} CountersAgree(list: seq<Checkpoint>, cursors: map<Name, CheckpointCursor>, num: nat, v: View)
    requires Models(list, cursors, num, v)
    ensures num == ListItems(list)
    ensures forall n :: n in cursors ==> cursors[n].chk < |list| && cursors[n].offset == ListPassed(list[..cursors[n].chk]) + cursors[n].pos
    ensures forall i :: 0 <= i < |list| ==> list[i].numItems == |list[i].keyIndex|
  {
    hide Chk.Items, MetaIndex, IndexAgrees, TotalItems, Passed, ListItems, ListPassed, NamesAgree, Chk.Top;
    ListCounts(list, v.chks);
    forall n | n in cursors ensures cursors[n].chk < |list| && cursors[n].offset == ListPassed(list[..cursors[n].chk]) + cursors[n].pos {
      assert CursorIs(v.chks, cursors[n], v.cursors[n]);
      ListCounts(list[..cursors[n].chk], v.chks[..cursors[n].chk]);
    }
    forall i | 0 <= i < |list| ensures list[i].numItems == |list[i].keyIndex| {
      assert Represents(list[i], v.chks[i]) && v.chks[i].Wf();
      IndexSize(list[i].keyIndex, v.chks[i].muts);
    }
  }
}
