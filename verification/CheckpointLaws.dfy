/** Every operation keeps the invariant, and what it does to the mutations ahead of each cursor. */
module CheckpointLaws {
  import opened Log
  import opened Checkpoints

  lemma {:induction false} AllMutsOfConcat(a: seq<Chk>, b: seq<Chk>)
    ensures AllMuts(a + b) == AllMuts(a) + AllMuts(b)
  {
    if a == [] {
      assert a + b == b;
    } else {
      assert (a + b)[1..] == a[1..] + b;
      AllMutsOfConcat(a[1..], b);
    }
  }

  // ---- Queueing

  lemma {:induction false} FindUnique(s: seq<Item>, i: nat)
    requires DistinctKeys(s) && i < |s|
    ensures Find(s, s[i].key) == i
  {
  }

  lemma {:induction false} AppendAt(s: seq<Item>, x: Item, j: nat)
    requires j + 1 < |Append(s, x)|
    ensures Append(s, x)[j] == s[if j < Find(s, x.key) then j else j + |s| + 1 - |Append(s, x)|]
  {
  }

  /** An old entry of the new list, and any later one. */
  lemma {:induction false} AppendPair(s: seq<Item>, x: Item, i: nat, j: nat)
    requires DistinctKeys(s) && Increasing(s) && (forall k :: 0 <= k < |s| ==> s[k].seqno < x.seqno) && i < j < |Append(s, x)|
    ensures var r := Append(s, x); r[i] in s && r[i].key != x.key && r[i].key != r[j].key && r[i].seqno < r[j].seqno
  {
    hide Append, Find;
    var r, p := Append(s, x), Find(s, x.key);
    AppendLength(s, x);
    AppendLast(s, x);
    AppendAt(s, x, i);
    var i' := if i < p then i else i + |s| + 1 - |r|;
    assert r[i] == s[i'] && (i' > p ==> s[p].key != s[i'].key);
    if j < |r| - 1 {
      AppendAt(s, x, j);
      var j' := if j < p then j else j + |s| + 1 - |r|;
      assert r[j] == s[j'] && i' < j';
    }
  }

  lemma {:induction false} AppendKeeps(s: seq<Item>, x: Item)
    requires AllMutations(s) && DistinctKeys(s) && Increasing(s) && x.IsMutation()
    requires forall i :: 0 <= i < |s| ==> s[i].seqno < x.seqno
    ensures var r := Append(s, x);
            && r != [] && r[|r| - 1] == x && AllMutations(r) && DistinctKeys(r) && Increasing(r)
            && forall i :: 0 <= i < |r| - 1 ==> r[i] in s && r[i].key != x.key
  {
    hide Append, Find;
    var r := Append(s, x);
    AppendLast(s, x);
    forall i, j | 0 <= i < j < |r| ensures r[i] in s && r[i].key != x.key && r[i].key != r[j].key && r[i].seqno < r[j].seqno {
      AppendPair(s, x, i, j);
    }
    forall i | 0 <= i < |r| - 1 ensures r[i] in s && r[i].key != x.key {
      AppendPair(s, x, i, |r| - 1);
    }
  }

  lemma {:induction false} AppendLength(s: seq<Item>, x: Item)
    ensures |Append(s, x)| == |s| + if Find(s, x.key) < |s| then 0 else 1
  {
  }

  lemma {:induction false} AppendLast(s: seq<Item>, x: Item)
    ensures Append(s, x) != [] && Append(s, x)[|Append(s, x)| - 1] == x
  {
  }

  lemma {:induction false} ChangeBack(cs: seq<Chk>, c: Chk)
    requires ChksInv(cs) && c.Wf()
    requires c.base == cs[|cs| - 1].base && c.id == cs[|cs| - 1].id
    ensures ChksInv(cs[|cs| - 1 := c])
  {
    var cs' := cs[|cs| - 1 := c];
    forall i, j | 0 <= i < j < |cs'| ensures cs'[i].Top() <= cs'[j].base && cs'[i].id < cs'[j].id {
      assert cs'[i] == cs[i];
    }
  }

  lemma {:induction false} EnqueueChk(c: Chk, x: Item)
    requires c.Wf() && c.phase.Open? && x.IsMutation() && c.Top() < x.seqno
    ensures var c' := c.(muts := Append(c.muts, x)); c'.Wf() && c'.Top() == x.seqno
  {
    hide AllMutations, DistinctKeys, Increasing, Append;
    AppendKeeps(c.muts, x);
  }

  lemma {:induction false} EnqueueInv(v: View, x: Item)
    requires Inv(v) && v.Back().phase.Open? && x.IsMutation() && v.last < x.seqno
    ensures Inv(Enqueue(v, x))
  {
    hide Chk.Wf, Append, Find, Chk.Size, ShiftLeft;
    var c := v.Back();
    EnqueueChk(c, x);
    ChangeBack(v.chks, c.(muts := Append(c.muts, x)));
    forall n | n in v.cursors ensures CurIn(Enqueue(v, x).chks, Enqueue(v, x).cursors[n]) {
      EnqueueAhead(v, x, n);
    }
  }

  lemma {:induction false} CloseWf(c: Chk, e: nat)
    requires c.Wf() && c.Top() <= e
    ensures c.(phase := Closed(e)).Wf()
  {
    hide AllMutations, DistinctKeys, Increasing;
  }

  lemma {:induction false} CloseInv(v: View)
    requires Inv(v)
    ensures Inv(Close(v))
  {
    hide Chk.Wf, Chk.Size, Increasing, DistinctKeys, AllMutations;
    if v.Back().phase.Open? {
      CloseWf(v.Back(), v.last);
      ChangeBack(v.chks, v.Back().(phase := Closed(v.last)));
      forall n | n in v.cursors ensures CurIn(Close(v).chks, v.cursors[n]) {
        CloseAhead(v, v.cursors[n]);
      }
    }
  }

  lemma {:induction false} AddBack(cs: seq<Chk>, c: Chk)
    requires ChksInv(cs) && cs[|cs| - 1].phase.Closed? && c.Wf()
    requires cs[|cs| - 1].Top() <= c.base && cs[|cs| - 1].id < c.id
    ensures ChksInv(cs + [c])
  {
    assert forall i :: 0 <= i < |cs| ==> cs[i].Top() <= cs[|cs| - 1].Top();
    hide Chk.Wf, Chk.Top;
  }

  lemma {:induction false} RollChks(v: View, id: nat, s: nat, e: nat)
    requires Inv(v) && v.Back().id < id
    ensures ChksInv(Roll(v, id, s, e).chks) && Roll(v, id, s, e).Back().Top() == v.last
  {
    CloseInv(v);
    AddBack(Close(v).chks, Chk(id, s, e, v.last, [], Open));
  }

  lemma {:induction false} RollInv(v: View, id: nat, s: nat, e: nat)
    requires Inv(v) && v.Back().id < id
    ensures Inv(Roll(v, id, s, e))
  {
    hide ChksInv, Chk.Top, Roll, MutsAhead;
    RollChks(v, id, s, e);
    forall n | n in v.cursors ensures CurIn(Roll(v, id, s, e).chks, Roll(v, id, s, e).cursors[n]) {
      RollAhead(v, id, s, e, n);
    }
  }

  lemma {:induction false} WithRangeInv(v: View, s: nat, e: nat)
    requires Inv(v) && |v.chks| > 0
    ensures Inv(WithRange(v, s, e))
  {
    hide Chk.Wf;
    RangeWf(v.Back(), s, e);
    ChangeBack(v.chks, v.Back().(snapStart := s, snapEnd := e));
  }

  lemma {:induction false} RangeWf(c: Chk, s: nat, e: nat)
    requires c.Wf()
    ensures c.(snapStart := s, snapEnd := e).Wf() && c.(snapStart := s, snapEnd := e).Top() == c.Top()
  {
    hide AllMutations, DistinctKeys, Increasing;
  }

  lemma {:induction false} LaterInv(v: View, last: nat)
    requires Inv(v) && v.last <= last
    ensures Inv(v.(last := last))
  {
    hide ChksInv;
  }

  lemma {:induction false} MoveInv(v: View, n: Name, c: Cur)
    requires Inv(v) && CurIn(v.chks, c)
    ensures Inv(Move(v, n, c))
  {
    hide ChksInv;
  }

  /** The persistence cursor's checkpoint is never removed. */
  lemma {:induction false} SomeLeft(v: View, k: nat)
    requires Inv(v) && k <= |v.chks| && Removable(v, k) && PERSISTENCE in v.cursors
    ensures k < |v.chks| && forall n :: n in v.cursors ==> v.cursors[n].chk >= k
  {
    assert k <= v.cursors[PERSISTENCE].chk;
  }

  // ---- What an operation does to the mutations ahead

  /** For a cursor before the last checkpoint, that checkpoint's mutations come last. */
  lemma {:induction false} AheadOfEarlier(cs: seq<Chk>, c: Cur)
    requires CurIn(cs, c) && c.chk < |cs| - 1
    ensures CurIn(cs[..|cs| - 1], c)
    ensures MutsAhead(cs, c) == MutsAhead(cs[..|cs| - 1], c) + cs[|cs| - 1].muts
  {
    var cs' := cs[..|cs| - 1];
    assert cs[c.chk + 1..] == cs'[c.chk + 1..] + [cs[|cs| - 1]];
    AllMutsOfConcat(cs'[c.chk + 1..], [cs[|cs| - 1]]);
    assert AllMuts([cs[|cs| - 1]]) == cs[|cs| - 1].muts;
  }

  lemma {:induction false} AppendedSuffix(a: seq<Item>, s: seq<Item>, x: Item)
    ensures Appended(a + s, x, a + Append(s, x))
  {
    var i := Find(s, x.key);
    if i == |s| {
      assert a + Append(s, x) == (a + s) + [x];
    } else {
      WithoutInSuffix(a, s, i, x);
      assert (a + s)[|a| + i].key == x.key;
    }
  }

  /** Queueing puts `x` last and drops at most the entry it supersedes, for every cursor. */
  lemma {:induction false} EnqueueAhead(v: View, x: Item, n: Name)
    requires |v.chks| > 0 && v.Back().phase.Open? && n in v.cursors && CurIn(v.chks, v.cursors[n])
    ensures CurIn(Enqueue(v, x).chks, Enqueue(v, x).cursors[n])
    ensures Appended(MutsAhead(v.chks, v.cursors[n]), x, MutsAhead(Enqueue(v, x).chks, Enqueue(v, x).cursors[n]))
  {
    hide Enqueue, MutsAhead, Append, Appended, Chk.Given, CurIn;
    var c, w := v.cursors[n], Enqueue(v, x);
    EnqueuePlace(v, x, n);
    if c.chk < |v.chks| - 1 {
      AheadOfEarlier(v.chks, c);
      AheadOfEarlier(w.chks, c);
      AppendedSuffix(MutsAhead(v.chks[..|v.chks| - 1], c), v.Back().muts, x);
    } else {
      EnqueueAheadHere(v.Back(), x, c.pos);
      LastAhead(v.chks, c);
      LastAhead(w.chks, w.cursors[n]);
    }
  }

  /** Where queueing leaves the checkpoints and a cursor. */
  lemma {:induction false} EnqueuePlace(v: View, x: Item, n: Name)
    requires |v.chks| > 0 && v.Back().phase.Open? && n in v.cursors && CurIn(v.chks, v.cursors[n])
    ensures var w, c := Enqueue(v, x), v.cursors[n];
            && CurIn(w.chks, w.cursors[n]) && w.cursors[n] == c.(pos := w.cursors[n].pos) && c.chk < |v.chks|
            && w.chks[..|w.chks| - 1] == v.chks[..|v.chks| - 1] && w.Back() == v.Back().(muts := Append(v.Back().muts, x))
            && (c.chk < |v.chks| - 1 ==> w.cursors[n] == c)
            && (c.chk == |v.chks| - 1 ==>
                  && c.pos < v.Back().Size()
                  && w.cursors[n].pos ==
                     if Find(v.Back().muts, x.key) < |v.Back().muts| && c.pos >= Find(v.Back().muts, x.key) + 2 then c.pos - 1 else c.pos)
  {
  }

  /** In the last checkpoint, what is ahead is the rest of its mutations. */
  lemma {:induction false} LastAhead(cs: seq<Chk>, c: Cur)
    requires CurIn(cs, c) && c.chk == |cs| - 1
    ensures MutsAhead(cs, c) == cs[c.chk].muts[cs[c.chk].Given(c.pos)..]
  {
    assert cs[c.chk + 1..] == [];
  }

  lemma {:induction false} EnqueueAheadHere(b: Chk, x: Item, pos: nat)
    requires b.phase.Open? && pos < b.Size()
    ensures var i := Find(b.muts, x.key);
            var b' := b.(muts := Append(b.muts, x));
            var pos' := if i < |b.muts| && pos >= i + 2 then pos - 1 else pos;
            Appended(b.muts[b.Given(pos)..], x, b'.muts[b'.Given(pos')..])
  {
    hide Without;
    var i, g := Find(b.muts, x.key), b.Given(pos);
    if i == |b.muts| {
      assert (b.muts + [x])[g..] == b.muts[g..] + [x];
    } else {
      WithoutShorter(b.muts, i);
      WithoutThenDrop(b.muts, i, x, g);
      assert g <= i ==> b.muts[g..][i - g].key == x.key;
    }
  }

  lemma {:induction false} WithoutShorter(s: seq<Item>, i: nat)
    requires i < |s|
    ensures |Without(s, i)| == |s| - 1
  {
  }

  lemma {:induction false} CloseAhead(v: View, c: Cur)
    requires |v.chks| > 0 && CurIn(v.chks, c)
    ensures CurIn(Close(v).chks, c)
    ensures MutsAhead(Close(v).chks, c) == MutsAhead(v.chks, c)
  {
    var w := Close(v);
    if c.chk < |v.chks| - 1 {
      AheadOfEarlier(v.chks, c);
      AheadOfEarlier(w.chks, c);
      assert w.chks[..|w.chks| - 1] == v.chks[..|v.chks| - 1];
    }
  }

  lemma {:induction false} RangeAhead(v: View, s: nat, e: nat, c: Cur)
    requires |v.chks| > 0 && CurIn(v.chks, c)
    ensures CurIn(WithRange(v, s, e).chks, c)
    ensures MutsAhead(WithRange(v, s, e).chks, c) == MutsAhead(v.chks, c)
  {
    var w := WithRange(v, s, e);
    if c.chk < |v.chks| - 1 {
      AheadOfEarlier(v.chks, c);
      AheadOfEarlier(w.chks, c);
      assert w.chks[..|w.chks| - 1] == v.chks[..|v.chks| - 1];
    }
  }

  /** Entering the next checkpoint skips no mutation. */
  lemma {:induction false} EnterNextAhead(cs: seq<Chk>, b: Chk, c: Cur)
    requires CurIn(cs, c) && (forall i :: 0 <= i < |cs| ==> cs[i].phase.Closed?) && b.muts == []
    ensures CurIn(cs + [b], EnterNext(cs, c))
    ensures MutsAhead(cs + [b], EnterNext(cs, c)) == MutsAhead(cs, c)
  {
    var cs', c' := cs + [b], EnterNext(cs, c);
    if c' == c {
      assert cs'[..|cs|] == cs;
      AheadOfEarlier(cs', c);
    } else {
      assert cs[c.chk].muts[cs[c.chk].Given(c.pos)..] == [];
      assert cs'[c.chk + 1..] == cs[c.chk + 1..] + [b];
      AllMutsOfConcat(cs[c.chk + 1..], [b]);
      assert cs'[c.chk + 1..][1..] == cs'[c.chk + 2..];
    }
  }

  /** Rollover leaves the mutations ahead of every cursor as they were. */
  lemma {:induction false} RollAhead(v: View, id: nat, s: nat, e: nat, n: Name)
    requires Inv(v) && n in v.cursors
    ensures var w := Roll(v, id, s, e);
            CurIn(w.chks, w.cursors[n]) && MutsAhead(w.chks, w.cursors[n]) == MutsAhead(v.chks, v.cursors[n])
  {
    CloseAhead(v, v.cursors[n]);
    EnterNextAhead(Close(v).chks, Chk(id, s, e, v.last, [], Open), v.cursors[n]);
  }

  lemma {:induction false} RemoveAhead(cs: seq<Chk>, k: nat, c: Cur)
    requires CurIn(cs, c) && k <= c.chk
    ensures CurIn(cs[k..], c.(chk := c.chk - k))
    ensures MutsAhead(cs[k..], c.(chk := c.chk - k)) == MutsAhead(cs, c)
  {
    assert cs[k..][c.chk - k + 1..] == cs[c.chk + 1..];
  }

  // ---- Advancing

  /** A cursor is given the first item ahead of it and has the rest left. */
  lemma {:induction false} StepAhead(cs: seq<Chk>, c: Cur)
    requires CurIn(cs, c)
    ensures CurIn(cs, Step(cs, c))
    ensures AtEnd(cs, c) <==> Ahead(cs, c) == []
    ensures !AtEnd(cs, c) ==>
              var d := Step(cs, c); Ahead(cs, c) == [cs[d.chk].Items()[d.pos]] + Ahead(cs, d)
  {
    hide Chk.Items, Ahead;
    if c.pos + 1 < cs[c.chk].Size() {
      StepWithin(cs, c);
    } else if c.chk + 1 < |cs| {
      StepOver(cs, c);
    } else {
      StepNowhere(cs, c);
    }
  }

  lemma {:induction false} StepWithin(cs: seq<Chk>, c: Cur)
    requires CurIn(cs, c) && c.pos + 1 < cs[c.chk].Size()
    ensures Ahead(cs, c) == [cs[c.chk].Items()[c.pos + 1]] + Ahead(cs, c.(pos := c.pos + 1))
  {
    hide Chk.Items, AllItems;
    var x, t := cs[c.chk].Items(), AllItems(cs[c.chk + 1..]);
    assert x[c.pos + 1..] == [x[c.pos + 1]] + x[c.pos + 2..];
    assert [x[c.pos + 1]] + x[c.pos + 2..] + t == [x[c.pos + 1]] + (x[c.pos + 2..] + t);
  }

  lemma {:induction false} StepOver(cs: seq<Chk>, c: Cur)
    requires CurIn(cs, c) && c.pos + 1 == cs[c.chk].Size() && c.chk + 1 < |cs|
    ensures CurIn(cs, c.(chk := c.chk + 1, pos := 1))
    ensures Ahead(cs, c) == [cs[c.chk + 1].Items()[1]] + Ahead(cs, c.(chk := c.chk + 1, pos := 1))
  {
    hide Chk.Items, Ahead;
    EnterAhead(cs, c);
    StepWithin(cs, c.(chk := c.chk + 1, pos := 0));
  }

  lemma {:induction false} StepNowhere(cs: seq<Chk>, c: Cur)
    requires CurIn(cs, c) && c.pos + 1 == cs[c.chk].Size() && c.chk + 1 == |cs|
    ensures Ahead(cs, c) == []
  {
    hide Chk.Items;
    assert cs[c.chk + 1..] == [];
  }

  lemma {:induction false} ItemsMutations(c: Chk, pos: nat)
    requires AllMutations(c.muts) && pos < c.Size()
    ensures Mutations(c.Items()[pos + 1..]) == c.muts[c.Given(pos)..]
  {
    hide Chk.Items, Mutations;
    var head, tail := ItemsFrom(c, pos);
    var m := c.muts[c.Given(pos)..];
    MutationsOfConcat(head + m, tail);
    MutationsOfConcat(head, m);
    MutationsOfMutations(m);
    assert [] + m + [] == m;
  }

  /** The items after a position: perhaps checkpoint_start, the rest of the mutations, perhaps checkpoint_end. */
  lemma {:induction false} ItemsFrom(c: Chk, pos: nat) returns (head: seq<Item>, tail: seq<Item>)
    requires pos < c.Size()
    ensures c.Items()[pos + 1..] == head + c.muts[c.Given(pos)..] + tail && Mutations(head) == [] && Mutations(tail) == []
  {
    head := if pos == 0 then [c.Items()[1]] else [];
    tail := if pos + 1 == c.Size() then [] else c.Tail();
  }

  lemma {:induction false} AllItemsMutations(cs: seq<Chk>)
    requires forall i :: 0 <= i < |cs| ==> AllMutations(cs[i].muts)
    ensures Mutations(AllItems(cs)) == AllMuts(cs)
  {
    if cs != [] {
      ItemsMutations(cs[0], 0);
      AllItemsMutations(cs[1..]);
      MutationsOfConcat(cs[0].Items()[1..], AllItems(cs[1..]));
    }
  }

  /** Of all the items ahead, the mutations are the ones counted as ahead. */
  lemma {:induction false} AheadMutations(cs: seq<Chk>, c: Cur)
    requires ChksInv(cs) && CurIn(cs, c)
    ensures Mutations(Ahead(cs, c)) == MutsAhead(cs, c)
  {
    ItemsMutations(cs[c.chk], c.pos);
    AllItemsMutations(cs[c.chk + 1..]);
    MutationsOfConcat(cs[c.chk].Items()[c.pos + 1..], AllItems(cs[c.chk + 1..]));
  }

  /** Queueing loses no mutation but the one it supersedes, and that one was in the open checkpoint. */
  lemma {:induction false} EnqueueAll(v: View, x: Item)
    requires |v.chks| > 0
    ensures forall y :: y in AllMuts(Enqueue(v, x).chks) ==> y == x || y in AllMuts(v.chks)
  {
    var w, k := Enqueue(v, x), |v.chks| - 1;
    assert v.chks == v.chks[..k] + [v.Back()] && w.chks == v.chks[..k] + [w.Back()];
    AllMutsOfConcat(v.chks[..k], [v.Back()]);
    AllMutsOfConcat(v.chks[..k], [w.Back()]);
    assert AllMuts([v.Back()]) == v.Back().muts && AllMuts([w.Back()]) == w.Back().muts;
  }

  /** Entering the next checkpoint from the last item of one leaves all that is ahead. */
  lemma {:induction false} EnterAhead(cs: seq<Chk>, c: Cur)
    requires CurIn(cs, c) && c.pos + 1 == cs[c.chk].Size() && c.chk + 1 < |cs|
    ensures CurIn(cs, c.(chk := c.chk + 1, pos := 0))
    ensures Ahead(cs, c.(chk := c.chk + 1, pos := 0)) == Ahead(cs, c)
  {
    hide Chk.Items;
    assert cs[c.chk + 1..][1..] == cs[c.chk + 2..];
  }

  lemma {:induction false} DrainedAhead(cs: seq<Chk>, c: Cur)
    requires |cs| > 0
    ensures CurIn(cs, LastPlace(cs, c)) && MutsAhead(cs, LastPlace(cs, c)) == []
    ensures Ahead(cs, LastPlace(cs, c)) == []
  {
    hide Chk.Items;
  }
}
