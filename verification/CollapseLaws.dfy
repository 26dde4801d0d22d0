/** Merging checkpoints: the merged list is the compaction of the originals, and where the cursors end up. */
module CollapseLaws {
  import opened Log
  import opened Checkpoints
  import opened CheckpointLaws

  // ---- The merged list

  lemma {:induction false} NotInSameKeys(s: seq<Item>, t: seq<Item>, t': seq<Item>)
    requires forall k :: HasKey(t, k) <==> HasKey(t', k)
    ensures NotIn(s, t) == NotIn(s, t')
  {
    if s != [] {
      NotInSameKeys(s[1..], t, t');
    }
  }

  lemma {:induction false} AllMutsOrdered(cs: seq<Chk>)
    requires ChksInv(cs)
    ensures AllMutations(AllMuts(cs)) && Increasing(AllMuts(cs))
    ensures forall x :: x in AllMuts(cs) ==> cs[0].base < x.seqno <= cs[|cs| - 1].Top()
    ensures cs[0].base <= cs[|cs| - 1].Top()
  {
    if |cs| == 1 {
      assert AllMuts(cs) == cs[0].muts + AllMuts([]) == cs[0].muts;
    } else {
      AllMutsOrdered(cs[1..]);
      assert cs[0].Top() <= cs[1].base;
      hide Chk.Top;
    }
  }

  /** Merging any number of checkpoints, newest first, keeps exactly each key's last mutation in order. */
  lemma {:induction false} MergedIsCompaction(cs: seq<Chk>)
    requires ChksInv(cs)
    ensures Merged(cs).muts == KeepLast(AllMuts(cs))
    ensures Merged(cs).base == cs[0].base
    ensures Merged(cs).id == cs[|cs| - 1].id && Merged(cs).phase == cs[|cs| - 1].phase
    ensures Merged(cs).snapEnd == cs[|cs| - 1].snapEnd
    ensures Merged(cs).snapStart == if |cs| == 1 then cs[0].snapStart else cs[0].base + 1
  {
    if |cs| == 1 {
      assert AllMuts(cs) == cs[0].muts + AllMuts([]) == cs[0].muts;
      KeepLastOfDistinct(cs[0].muts);
    } else {
      MergedIsCompaction(cs[1..]);
      KeepLastOfDistinct(cs[0].muts);
      KeepLastOfConcat(cs[0].muts, AllMuts(cs[1..]));
      KeepLastSubsequence(AllMuts(cs[1..]));
      NotInSameKeys(cs[0].muts, AllMuts(cs[1..]), KeepLast(AllMuts(cs[1..])));
      hide Chk.Wf, Increasing, DistinctKeys, AllMutations;
    }
  }

  /** Merging preserves meaning: on any starting map the merged list replays to the same map. */
  lemma {:induction false} MergedReplay(cs: seq<Chk>, m: map<Key, Item>)
    requires ChksInv(cs)
    ensures Replay(Merged(cs).muts, m) == Replay(AllMuts(cs), m)
  {
    MergedIsCompaction(cs);
    KeepLastReplay(AllMuts(cs), m);
  }

  lemma {:induction false} WfFromBounds(m: Chk, top: nat)
    requires AllMutations(m.muts) && DistinctKeys(m.muts) && Increasing(m.muts) && m.base <= top
    requires forall x :: x in m.muts ==> m.base < x.seqno <= top
    requires m.phase.Closed? ==> m.phase.endSeqno == top
    ensures m.Wf() && m.Top() <= top
  {
    hide AllMutations, DistinctKeys;
    forall i | 0 <= i < |m.muts| ensures m.base < m.muts[i].seqno <= m.Top() {
      assert m.muts[i] in m.muts;
    }
  }

  lemma {:induction false} MergedWf(cs: seq<Chk>)
    requires ChksInv(cs)
    ensures Merged(cs).Wf() && Merged(cs).Top() <= cs[|cs| - 1].Top()
    ensures Merged(cs).(phase := Open).Wf() && Merged(cs).(phase := Open).Top() <= cs[|cs| - 1].Top()
  {
    hide Chk.Wf, KeepLast, AllMuts, DistinctKeys, AllMutations, Increasing, Merged;
    MergedIsCompaction(cs);
    AllMutsOrdered(cs);
    KeepLastSubsequence(AllMuts(cs));
    WfFromBounds(Merged(cs), cs[|cs| - 1].Top());
    WfFromBounds(Merged(cs).(phase := Open), cs[|cs| - 1].Top());
  }

  // ---- Where a cursor goes

  lemma {:induction false} NotInElements(s: seq<Item>, t: seq<Item>)
    ensures forall x :: x in NotIn(s, t) <==> x in s && !HasKey(t, x.key)
  {
    if s != [] {
      NotInElements(s[1..], t);
      assert s == [s[0]] + s[1..];
    }
  }

  /** `x` is at or below `seqno` and `y` above it; a checkpoint_start's number may tie with the first of `y`. */
  ghost predicate SplitAt(base: nat, x: seq<Item>, y: seq<Item>, seqno: nat, onStart: bool) {
    && (forall i :: 0 <= i < |x| ==> x[i].seqno <= seqno && (onStart ==> x[i].seqno < seqno))
    && (forall i :: 0 <= i < |y| ==> seqno <= y[i].seqno && (i > 0 || !onStart ==> seqno < y[i].seqno))
    && base <= seqno && (x != [] || onStart ==> base < seqno)
  }

  /** In a merged list whose mutations split so, the search for a place ends between the two parts,
      or one too far when the tie is not right behind the checkpoint_start. */
  lemma {:induction false} PlaceSplits(m: Chk, x: seq<Item>, y: seq<Item>, seqno: nat, onStart: bool)
    requires m.muts == x + y && SplitAt(m.base, x, y, seqno, onStart) && AllMutations(m.muts)
    ensures var p := Place(m.Items(), seqno, onStart);
            && p < m.Size()
            && m.Given(p) == if onStart && x != [] && y != [] && y[0].seqno == seqno then |x| + 1 else |x|
  {
    hide FirstStop;
    var items := m.Items();
    var g := if onStart && x != [] && y != [] && y[0].seqno == seqno then |x| + 1 else |x|;
    assert items[0].op == Empty && items[1].op == Start && items[0].seqno == m.base && items[1].seqno == m.base + 1;
    assert forall j :: 2 <= j < 2 + |m.muts| ==> items[j] == m.muts[j - 2];
    if m.base < seqno {
      forall j | 0 <= j < 2 + g ensures !Stops(items, j, seqno, onStart) {
        assert j == 3 ==> items[2].op != Start;
      }
      if g < |m.muts| {
        assert items[2 + g] == y[g - |x|];
        assert Stops(items, 2 + g, seqno, onStart);
      }
    } else {
      assert !Stops(items, 0, seqno, onStart) && Stops(items, 1, seqno, onStart);
    }
  }

  /** The mutations at or before a cursor: what it has been given, or was registered past. */
  function MutsBehind(cs: seq<Chk>, c: Cur): seq<Item>
    requires CurIn(cs, c)
  {
    AllMuts(cs[..c.chk]) + cs[c.chk].muts[..cs[c.chk].Given(c.pos)]
  }

  /** The sequence number by which a collapse remembers a cursor. */
  function SeqnoAt(cs: seq<Chk>, c: Cur): nat
    requires CurIn(cs, c)
  {
    cs[c.chk].Items()[c.pos].seqno
  }

  lemma {:induction false} BehindAndAhead(cs: seq<Chk>, c: Cur)
    requires CurIn(cs, c)
    ensures AllMuts(cs) == MutsBehind(cs, c) + MutsAhead(cs, c)
  {
    assert cs == cs[..c.chk] + cs[c.chk..];
    AllMutsOfConcat(cs[..c.chk], cs[c.chk..]);
    assert cs[c.chk..][1..] == cs[c.chk + 1..];
  }

  lemma {:induction false} SubInv(cs: seq<Chk>, i: nat, j: nat)
    requires ChksInv(cs) && i < j <= |cs|
    ensures ChksInv(cs[i..j])
  {
    hide Chk.Wf, Chk.Top;
  }

  lemma {:induction false} RemoveInv(v: View, k: nat)
    requires Inv(v) && k < |v.chks| && forall n :: n in v.cursors ==> v.cursors[n].chk >= k
    ensures Inv(RemovePrefix(v, k)) && (forall i :: 0 <= i < k ==> v.chks[i].phase.Closed?)
  {
    hide Chk.Size, Chk.Top, Chk.Wf;
    SubInv(v.chks, k, |v.chks|);
    assert v.chks[k..|v.chks|] == v.chks[k..];
  }

  lemma {:induction false} WithinChk(b: Chk, pos: nat)
    requires b.Wf() && pos < b.Size()
    ensures var s, g := b.Items()[pos].seqno, b.Given(pos);
            && (forall i :: 0 <= i < g ==> b.muts[i].seqno <= s)
            && (forall i :: g <= i < |b.muts| ==> s <= b.muts[i].seqno && (pos != 1 ==> s < b.muts[i].seqno))
            && b.base <= s && if pos == 1 then s == b.base + 1 && g == 0 else s <= b.Top()
  {
    var g := b.Given(pos);
    assert 2 <= pos < 2 + |b.muts| ==> b.Items()[pos] == b.muts[g - 1];
  }

  lemma {:induction false} Neighbours(cs: seq<Chk>, i: nat)
    requires ChksInv(cs) && i < |cs|
    ensures cs[i].Wf() && cs[0].base <= cs[i].base <= cs[i].Top()
    ensures i > 0 ==> ChksInv(cs[..i]) && cs[i - 1].Top() <= cs[i].base
    ensures i + 1 < |cs| ==> ChksInv(cs[i + 1..]) && cs[i].Top() <= cs[i + 1].base
  {
    if i > 0 {
      SubInv(cs, 0, i);
      assert cs[0].base <= cs[0].Top() <= cs[i].base;
    }
    if i + 1 < |cs| {
      SubInv(cs, i + 1, |cs|);
    }
  }

  /** Behind a cursor lie the numbers up to its own; a checkpoint_start's number is not used yet. */
  lemma {:induction false} BehindBelow(cs: seq<Chk>, c: Cur, x: Item)
    requires ChksInv(cs) && CurIn(cs, c) && x in MutsBehind(cs, c)
    ensures cs[0].base < x.seqno <= SeqnoAt(cs, c) && (c.pos == 1 ==> x.seqno < SeqnoAt(cs, c))
  {
    hide ChksInv, Chk.Items;
    Neighbours(cs, c.chk);
    WithinChk(cs[c.chk], c.pos);
    if x in AllMuts(cs[..c.chk]) {
      AllMutsOrdered(cs[..c.chk]);
    }
  }

  /** Ahead of a cursor lie larger numbers; from a checkpoint_start the first may tie. */
  lemma {:induction false} AheadAbove(cs: seq<Chk>, c: Cur, x: Item)
    requires ChksInv(cs) && CurIn(cs, c) && x in MutsAhead(cs, c)
    ensures SeqnoAt(cs, c) <= x.seqno && (c.pos != 1 ==> SeqnoAt(cs, c) < x.seqno)
  {
    hide ChksInv, Chk.Items;
    Neighbours(cs, c.chk);
    WithinChk(cs[c.chk], c.pos);
    if x in AllMuts(cs[c.chk + 1..]) {
      AllMutsOrdered(cs[c.chk + 1..]);
    }
  }

  /** The case the tie-break misses: the cursor rests on a checkpoint_start, the next mutation carries the
      same number, and both that mutation and one behind the cursor survive the merge. */
  ghost predicate LosesNext(cs: seq<Chk>, c: Cur)
    requires CurIn(cs, c)
  {
    var b := MutsAhead(cs, c);
    && c.pos == 1
    && b != [] && b[0].seqno == SeqnoAt(cs, c) && !HasKey(b[1..], b[0].key)
    && exists a :: a in MutsBehind(cs, c) && !HasKey(b, a.key)
  }

  lemma {:induction false} SurvivorsBehind(a: seq<Item>, b: seq<Item>)
    ensures NotIn(KeepLast(a), b) != [] <==> exists x :: x in a && !HasKey(b, x.key)
  {
    NotInElements(KeepLast(a), b);
    KeepLastSubsequence(a);
    if x :| x in a && !HasKey(b, x.key) {
      assert HasKey(a, x.key);
      var i :| 0 <= i < |KeepLast(a)| && KeepLast(a)[i].key == x.key;
      assert KeepLast(a)[i] in NotIn(KeepLast(a), b);
    }
    if NotIn(KeepLast(a), b) != [] {
      assert NotIn(KeepLast(a), b)[0] in NotIn(KeepLast(a), b);
    }
  }

  lemma {:induction false} FirstSurvivor(b: seq<Item>, s: nat)
    requires Increasing(b) && forall i :: 0 <= i < |b| ==> s <= b[i].seqno
    ensures KeepLast(b) != [] && KeepLast(b)[0].seqno == s <==>
            b != [] && b[0].seqno == s && !HasKey(b[1..], b[0].key)
  {
    if b != [] {
      KeepLastSubsequence(b[1..]);
      forall x | x in KeepLast(b[1..]) ensures s < x.seqno {
        assert x in b[1..];
        var j :| 0 <= j < |b[1..]| && b[1..][j] == x;
        assert b[0].seqno < b[j + 1].seqno;
      }
    }
  }

  /** A re-placed cursor has ahead of it the compaction of what it had ahead, less the first mutation
      in exactly the case above. */
  lemma {:induction false} ReplacedAhead(cs: seq<Chk>, m: Chk, c: Cur)
    requires ChksInv(cs) && CurIn(cs, c) && !c.fromBeginning
    requires m.muts == KeepLast(AllMuts(cs)) && m.base == cs[0].base && m.Wf()
    ensures var p := Replace(cs, m, c).pos;
            var y := KeepLast(MutsAhead(cs, c));
            && p < m.Size()
            && (LosesNext(cs, c) ==> y != [])
            && m.muts[m.Given(p)..] == if LosesNext(cs, c) then y[1..] else y
  {
    hide ChksInv, Chk.Wf, KeepLast, NotIn, MutsBehind, MutsAhead, AllMuts, Chk.Items, SplitAt, Increasing, HasKey, Place,
         Chk.Size;
    var a, b, s := MutsBehind(cs, c), MutsAhead(cs, c), SeqnoAt(cs, c);
    BehindAndAhead(cs, c);
    KeepLastOfConcat(a, b);
    var x, y := NotIn(KeepLast(a), b), KeepLast(b);
    SurvivorsBehind(a, b);
    OrderedSplit(cs, c);
    FirstSurvivor(b, s);
    OnStart(cs, c);
    WfMutations(m);
    PlaceSplits(m, x, y, s, c.pos == 1);
  }

  lemma {:induction false} WfMutations(m: Chk)
    requires m.Wf()
    ensures AllMutations(m.muts)
  {
  }

  lemma {:induction false} OnStart(cs: seq<Chk>, c: Cur)
    requires ChksInv(cs) && CurIn(cs, c)
    ensures c.pos < |cs[c.chk].Items()| && (cs[c.chk].Items()[c.pos].op == Start <==> c.pos == 1)
  {
    hide Chk.Items;
    StartIsSecond(cs[c.chk], c.pos);
  }

  lemma {:induction false} StartIsSecond(c: Chk, pos: nat)
    requires AllMutations(c.muts) && pos < c.Size()
    ensures c.Items()[pos].op == Start <==> pos == 1
  {
    assert 2 <= pos < 2 + |c.muts| ==> c.Items()[pos] == c.muts[pos - 2];
  }

  lemma {:induction false} SplitFromBounds(base: nat, a: seq<Item>, b: seq<Item>, s: nat, onStart: bool)
    requires Increasing(b) && base <= s && (onStart ==> base < s)
    requires forall x :: x in a ==> base < x.seqno <= s && (onStart ==> x.seqno < s)
    requires forall x :: x in b ==> s <= x.seqno && (!onStart ==> s < x.seqno)
    ensures SplitAt(base, NotIn(KeepLast(a), b), KeepLast(b), s, onStart)
  {
    KeepLastSubsequence(a);
    KeepLastSubsequence(b);
    NotInElements(KeepLast(a), b);
    hide KeepLast, NotIn, HasKey, DistinctKeys, AllMutations;
    var x, y := NotIn(KeepLast(a), b), KeepLast(b);
    forall i | 0 <= i < |x| ensures base < x[i].seqno <= s && (onStart ==> x[i].seqno < s) {
      assert x[i] in x;
    }
    forall i | 0 <= i < |y| ensures s <= y[i].seqno && (i > 0 || !onStart ==> s < y[i].seqno) {
      assert y[i] in y && y[0] in y;
    }
    assert x != [] ==> base < x[0].seqno;
  }

  lemma {:induction false} TailOrdered(a: seq<Item>, b: seq<Item>)
    requires Increasing(a + b)
    ensures Increasing(b)
  {
    assert forall i :: 0 <= i < |b| ==> b[i] == (a + b)[|a| + i];
  }

  lemma {:induction false} OrderedSplit(cs: seq<Chk>, c: Cur)
    requires ChksInv(cs) && CurIn(cs, c)
    ensures var s, b := SeqnoAt(cs, c), MutsAhead(cs, c);
            && Increasing(b) && (forall i :: 0 <= i < |b| ==> s <= b[i].seqno)
            && SplitAt(cs[0].base, NotIn(KeepLast(MutsBehind(cs, c)), b), KeepLast(b), s, c.pos == 1)
  {
    hide ChksInv, Chk.Wf, KeepLast, NotIn, MutsBehind, MutsAhead, AllMuts, Chk.Items, HasKey, AllMutations, Chk.Top, SplitAt,
         Increasing;
    var s, a, b := SeqnoAt(cs, c), MutsBehind(cs, c), MutsAhead(cs, c);
    AllMutsOrdered(cs);
    BehindAndAhead(cs, c);
    Neighbours(cs, c.chk);
    WithinChk(cs[c.chk], c.pos);
    TailOrdered(a, b);
    forall x | x in a ensures cs[0].base < x.seqno <= s && (c.pos == 1 ==> x.seqno < s) {
      BehindBelow(cs, c, x);
    }
    forall x | x in b ensures s <= x.seqno && (c.pos != 1 ==> s < x.seqno) {
      AheadAbove(cs, c, x);
    }
    SplitFromBounds(cs[0].base, a, b, s, c.pos == 1);
  }

  // ---- The two collapses

  lemma {:induction false} CollapseSkipped(v: View)
    requires |v.chks| > 0 && forall n :: n in v.cursors ==> CurIn(v.chks, v.cursors[n])
    ensures |v.chks| <= 2 || CollapseBlocked(v) ==> CollapseClosed(v) == v
  {
    hide CollapseBlocked, CollapsedCur, Merged;
  }

  lemma {:induction false} MergedRename(cs: seq<Chk>, id: nat)
    requires |cs| > 0
    ensures Merged(cs[|cs| - 1 := cs[|cs| - 1].(id := id)]) == Merged(cs).(id := id)
  {
    if |cs| > 1 {
      MergedRename(cs[1..], id);
      assert cs[|cs| - 1 := cs[|cs| - 1].(id := id)][1..] == cs[1..][|cs| - 2 := cs[|cs| - 1].(id := id)];
    }
  }

  /** The cursor's part of a collapse, with what is known of the merged checkpoint. */
  lemma {:induction false} ReplacedAheadAny(cs: seq<Chk>, m: Chk, c: Cur)
    requires ChksInv(cs) && CurIn(cs, c)
    requires m.muts == KeepLast(AllMuts(cs)) && m.base == cs[0].base && m.Wf()
    ensures var c' := Replace(cs, m, c);
            && CurIn([m], c')
            && (c.fromBeginning ==> MutsAhead([m], c') == KeepLast(AllMuts(cs)))
            && (!c.fromBeginning ==>
                  && (LosesNext(cs, c) ==> KeepLast(MutsAhead(cs, c)) != [])
                  && MutsAhead([m], c') == if LosesNext(cs, c) then KeepLast(MutsAhead(cs, c))[1..] else KeepLast(MutsAhead(cs, c)))
  {
    hide ChksInv, Chk.Wf, KeepLast, LosesNext, Place;
    if !c.fromBeginning {
      ReplacedAhead(cs, m, c);
    }
    var c' := Replace(cs, m, c);
    assert MutsAhead([m], c') == m.muts[m.Given(c'.pos)..] + AllMuts([m][1..]);
  }

  lemma {:induction false} WfIgnoresId(m: Chk, id: nat)
    requires m.Wf()
    ensures m.(id := id).Wf() && m.(id := id).Top() == m.Top()
  {
    hide AllMutations, DistinctKeys, Increasing;
  }

  lemma {:induction false} InvOfOne(m: Chk)
    requires m.Wf() && m.id > 0
    ensures ChksInv([m])
  {
    hide Chk.Wf;
  }

  lemma {:induction false} InvOfTwo(m: Chk, b: Chk)
    requires m.Wf() && b.Wf() && 0 < m.id < b.id && m.phase.Closed? && m.Top() <= b.base
    ensures ChksInv([m, b])
  {
    hide Chk.Wf, Chk.Top;
  }

  function MergedAll(cs: seq<Chk>, id: nat): Chk
    requires |cs| > 0
  {
    Merged(cs).(id := id, phase := Open)
  }

  lemma {:induction false} MergedAllInv(cs: seq<Chk>, id: nat)
    requires ChksInv(cs) && id > 0
    ensures var m := MergedAll(cs, id);
            && m.Wf() && ChksInv([m]) && m.Top() <= cs[|cs| - 1].Top()
            && m.muts == KeepLast(AllMuts(cs)) && m.base == cs[0].base
  {
    hide Chk.Wf, KeepLast, Merged, AllMuts, Chk.Top;
    MergedWf(cs);
    MergedIsCompaction(cs);
    WfIgnoresId(Merged(cs).(phase := Open), id);
    InvOfOne(MergedAll(cs, id));
  }

  lemma {:induction false} CollapseAllInv(v: View, id: nat)
    requires Inv(v) && id > 0
    ensures Inv(CollapseAll(v, id))
    ensures CollapseAll(v, id).chks == [MergedAll(v.chks, id)]
  {
    hide ChksInv, Chk.Wf, KeepLast, Merged, AllMuts, Replace, Chk.Top;
    MergedRename(v.chks, id);
    var m := MergedAll(v.chks, id);
    MergedAllInv(v.chks, id);
    forall n | n in v.cursors ensures CurIn([m], Replace(v.chks, m, v.cursors[n])) {
      ReplacedAheadAny(v.chks, m, v.cursors[n]);
    }
  }

  /** Collapsing everything is sound for a cursor exactly when it is not in the missed case; and then the
      one thing it loses is its next mutation. A cursor flagged from-beginning is given everything again. */
  lemma {:induction false} CollapseAllAhead(v: View, id: nat, n: Name)
    requires Inv(v) && id > 0 && n in v.cursors
    ensures var w, c := CollapseAll(v, id), v.cursors[n];
            var y := KeepLast(MutsAhead(v.chks, c));
            && CurIn(w.chks, w.cursors[n])
            && (c.fromBeginning ==> MutsAhead(w.chks, w.cursors[n]) == KeepLast(AllMuts(v.chks)))
            && (!c.fromBeginning ==>
                  && (MutsAhead(w.chks, w.cursors[n]) == y <==> !LosesNext(v.chks, c))
                  && (LosesNext(v.chks, c) ==> y != [] && MutsAhead(w.chks, w.cursors[n]) == y[1..]))
  {
    hide ChksInv, Chk.Wf, KeepLast, Merged, AllMuts, Replace, LosesNext, MutsAhead, Chk.Items;
    CollapseAllInv(v, id);
    MergedRename(v.chks, id);
    MergedAllInv(v.chks, id);
    ReplacedAheadAny(v.chks, MergedAll(v.chks, id), v.cursors[n]);
  }

  // ---- Collapsing the closed checkpoints only

  lemma {:induction false} CollapseClosedInv(v: View)
    requires Inv(v)
    ensures Inv(CollapseClosed(v))
  {
    if |v.chks| > 2 && !CollapseBlocked(v) {
      var k := |v.chks| - 2;
      var cs := v.chks[..k + 1];
      var m := Merged(cs);
      MergedClosedInv(v.chks);
      hide ChksInv, Chk.Wf, KeepLast, Merged, AllMuts, Replace, Chk.Top, Chk.Size;
      forall n | n in v.cursors ensures CurIn([m, v.Back()], CollapsedCur(v, m, v.cursors[n])) {
        if v.cursors[n].chk >= k {
          CollapseClosedKept(v, n);
        } else {
          CollapseClosedSlow(v, n);
        }
      }
    }
  }

  lemma {:induction false} MergedClosedInv(cs: seq<Chk>)
    requires ChksInv(cs) && |cs| > 2
    ensures var m := Merged(cs[..|cs| - 1]);
            && ChksInv(cs[..|cs| - 1]) && m.Wf() && ChksInv([m, cs[|cs| - 1]])
            && m.muts == KeepLast(AllMuts(cs[..|cs| - 1])) && m.base == cs[0].base
            && |m.muts| >= |cs[|cs| - 2].muts|
            && m.muts[|m.muts| - |cs[|cs| - 2].muts|..] == cs[|cs| - 2].muts
            && m.phase == cs[|cs| - 2].phase
  {
    hide KeepLast, AllMuts, Merged, Chk.Wf, Chk.Top;
    var ds := cs[..|cs| - 1];
    SubInv(cs, 0, |cs| - 1);
    MergedWf(ds);
    MergedIsCompaction(ds);
    Neighbours(cs, |cs| - 1);
    assert ds[|ds| - 1].phase.Closed? && 0 < ds[|ds| - 1].id < cs[|cs| - 1].id;
    MergedEndsWithLast(ds);
    InvOfTwo(Merged(ds), cs[|cs| - 1]);
  }

  lemma {:induction false} MergedEndsWithLast(ds: seq<Chk>)
    requires ChksInv(ds)
    ensures var m, b := KeepLast(AllMuts(ds)), ds[|ds| - 1].muts;
            |m| >= |b| && m[|m| - |b|..] == b
  {
    var b := ds[|ds| - 1];
    assert ds == ds[..|ds| - 1] + [b];
    AllMutsOfConcat(ds[..|ds| - 1], [b]);
    assert AllMuts([b]) == b.muts;
    KeepLastOfConcat(AllMuts(ds[..|ds| - 1]), b.muts);
    KeepLastOfDistinct(b.muts);
  }

  /** A cursor in the newest closed checkpoint or in the open one sees none of the merged-in older items. */
  lemma {:induction false} CollapseClosedKept(v: View, n: Name)
    requires Inv(v) && |v.chks| > 2 && !CollapseBlocked(v) && n in v.cursors && v.cursors[n].chk >= |v.chks| - 2
    ensures var m, c := Merged(v.chks[..|v.chks| - 1]), v.cursors[n];
            var c' := CollapsedCur(v, m, c);
            CurIn([m, v.Back()], c') && MutsAhead([m, v.Back()], c') == MutsAhead(v.chks, c)
  {
    hide ChksInv, Merged, Chk.Wf, KeepLast, AllMuts, MutsAhead, Chk.Size;
    MergedClosedInv(v.chks);
    KeptInTwo(v.chks, Merged(v.chks[..|v.chks| - 1]), v.cursors[n]);
  }

  lemma {:induction false} KeptInTwo(cs: seq<Chk>, m: Chk, c: Cur)
    requires |cs| > 2 && CurIn(cs, c) && c.chk >= |cs| - 2 && (c.chk == |cs| - 2 ==> c.pos >= 2)
    requires |m.muts| >= |cs[|cs| - 2].muts| && m.phase == cs[|cs| - 2].phase
    requires m.muts[|m.muts| - |cs[|cs| - 2].muts|..] == cs[|cs| - 2].muts
    ensures var c' := if c.chk == |cs| - 2 then ShiftRight(c, |m.muts| - |cs[|cs| - 2].muts|) else c.(chk := 1);
            CurIn([m, cs[|cs| - 1]], c') && MutsAhead([m, cs[|cs| - 1]], c') == MutsAhead(cs, c)
  {
    if c.chk == |cs| - 2 {
      KeptAhead(cs[c.chk], m, c.pos);
      assert cs[c.chk + 1..] == [cs[|cs| - 1]];
    } else {
      assert cs[c.chk + 1..] == [];
    }
  }

  /** A cursor in an older closed checkpoint has ahead of it the compaction of what it had there, then
      the open checkpoint, exactly when it is not in the missed case. */
  lemma {:induction false} CollapseClosedSlow(v: View, n: Name)
    requires Inv(v) && |v.chks| > 2 && n in v.cursors && v.cursors[n].chk < |v.chks| - 2
    ensures var ds, c := v.chks[..|v.chks| - 1], v.cursors[n];
            var cs', c' := [Merged(ds), v.Back()], CollapsedCur(v, Merged(ds), c);
            && CurIn(cs', c') && CurIn(ds, c)
            && (c.fromBeginning ==> MutsAhead(cs', c') == KeepLast(AllMuts(ds)) + v.Back().muts)
            && (!c.fromBeginning ==>
                  var y := KeepLast(MutsAhead(ds, c));
                  && (MutsAhead(cs', c') == y + v.Back().muts <==> !LosesNext(ds, c))
                  && (LosesNext(ds, c) ==> y != [] && MutsAhead(cs', c') == y[1..] + v.Back().muts))
  {
    hide KeepLast, AllMuts, Merged, Chk.Wf, ChksInv, LosesNext, Chk.Items, Place, MutsAhead;
    var ds, c := v.chks[..|v.chks| - 1], v.cursors[n];
    var m := Merged(ds);
    MergedClosedInv(v.chks);
    assert CurIn(v.chks, c);
    ReplacedAheadAny(ds, m, c);
    var c' := Replace(ds, m, c);
    assert Replace(v.chks, m, c) == c';
    AheadOfEarlier([m, v.Back()], c');
    assert [m, v.Back()][..1] == [m];
  }

  /** A cursor past the two leading items keeps exactly what it had ahead. */
  lemma {:induction false} KeptAhead(b: Chk, m: Chk, pos: nat)
    requires |m.muts| >= |b.muts| && m.muts[|m.muts| - |b.muts|..] == b.muts && m.phase == b.phase
    requires 2 <= pos < b.Size()
    ensures var pos' := pos + |m.muts| - |b.muts|;
            pos' < m.Size() && m.muts[m.Given(pos')..] == b.muts[b.Given(pos)..]
  {
    var d := |m.muts| - |b.muts|;
    assert m.muts[d..][b.Given(pos)..] == m.muts[d + b.Given(pos)..];
  }
}
