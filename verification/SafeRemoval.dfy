/** When removing checkpoints is safe: only closed ones without cursors go, and only after all they held was
    handed to the persistence cursor and reported persisted, save what a collapse made that cursor skip. */
module SafeRemoval {
  import opened Log
  import opened LastWrites
  import opened Checkpoints
  import opened CheckpointLaws
  import opened CollapseLaws
  import opened Runs

  /** Every mutation still held is ahead of the persistence cursor, was given to it, or was missed by it. */
  ghost predicate Covered(v: View, c: Cur, given: seq<Item>, missed: set<Item>) {
    CurIn(v.chks, c) && forall x :: x in AllMuts(v.chks) ==> x in given || x in MutsAhead(v.chks, c) || x in missed
  }

  /** The least id under which the next mutation can be queued. */
  function NextId(v: View): nat
    requires |v.chks| > 0
  {
    if v.Back().phase.Open? then v.Back().id else v.Back().id + 1
  }

  /** Ids up to `pCursorPreCheckpointId` are used up, and those checkpoints hold only marked mutations and
      missed ones. */
  ghost predicate Marked(v: View, mark: seq<Item>, missed: set<Item>) {
    && |v.chks| > 0 && v.preId < NextId(v)
    && forall i :: 0 <= i < |v.chks| && v.chks[i].id <= v.preId ==>
         forall x :: x in v.chks[i].muts ==> x in mark || x in missed
  }

  /** The last checkpoint is not known to be persisted. */
  predicate Unpersisted(v: View) {
    |v.chks| > 0 && v.preId < v.Back().id
  }

  ghost predicate PersistenceInv(h: History)
    requires Tracked(h)
  {
    var c := h.v.cursors[PERSISTENCE];
    && !c.fromBeginning
    && (forall x :: x in h.mark ==> x in h.given[PERSISTENCE])
    && Covered(h.v, c, h.given[PERSISTENCE], h.missed[PERSISTENCE])
    && (!h.rewound ==> Unpersisted(h.v) && Marked(h.v, h.mark, h.missed[PERSISTENCE]))
  }

  lemma {:induction false} CoveredAfterHandover(v: View, w: View, c: Cur, c': Cur, d: seq<Item>, given: seq<Item>, missed: set<Item>)
    requires Covered(v, c, given, missed) && HandsOver(v.chks, c, d, w.chks, c')
    requires forall x :: x in AllMuts(w.chks) ==> x in AllMuts(v.chks)
    ensures Covered(w, c', given + d, missed)
  {
    hide MutsAhead, AllMuts;
  }

  lemma {:induction false} CoveredAfterMerge(v: View, a: Action, w: View, c: Cur, c': Cur, given: seq<Item>, missed: set<Item>)
    requires |v.chks| > 0 && Replaced(v, a, c) && CurIn(w.chks, c') && Covered(v, c, given, missed)
    requires Compacted(v, a, c, MutsAhead(v.chks, c), MutsAhead(w.chks, c'))
    requires AllMuts(v.chks) == AllMuts(MergedRange(v, a)) + Beyond(v, a)
    requires AllMuts(w.chks) == KeepLast(AllMuts(MergedRange(v, a))) + Beyond(v, a)
    ensures Covered(w, c', given, missed + SkippedBy(v, a, c))
  {
    hide MutsAhead, AllMuts, MergedRange, Beyond, Skips, KeepLast, NotIn, MutsBehind, FirstSurvives;
    RangeHasCursor(v, a, c);
    var r := MergedRange(v, a);
    var b, y := MutsBehind(r, c), MutsAhead(r, c);
    if Skips(v, a, c) {
      SkipsFirst(v, a, c);
      FirstOfKept(y);
    }
    BehindAndAhead(r, c);
    KeepLastOfConcat(b, y);
    NotInElements(KeepLast(b), y);
    KeepLastSubsequence(b + y);
    forall x | x in AllMuts(w.chks) ensures x in given || x in MutsAhead(w.chks, c') || x in missed + SkippedBy(v, a, c) {
      if x in y {
        assert HasKey(y, x.key);
      }
    }
  }

  lemma {:induction false} AppendedKeeps(s: seq<Item>, x: Item, t: seq<Item>, y: Item)
    requires Appended(s, x, t) && y in s && y.key != x.key
    ensures y in t
  {
    var j :| 0 <= j < |s| && s[j] == y;
    if t == s + [x] {
      assert t[j] == y;
    } else {
      var i :| 0 <= i < |s| && s[i].key == x.key && t == Without(s, i) + [x];
      assert t[if j < i then j else j - 1] == y;
    }
  }

  /** Queueing takes from ahead of a cursor only the superseded entry of the open checkpoint. */
  lemma {:induction false} EnqueueTakes(v: View, x: Item, n: Name, y: Item)
    requires |v.chks| > 0 && v.Back().phase.Open? && n in v.cursors && CurIn(v.chks, v.cursors[n])
    requires y in MutsAhead(v.chks, v.cursors[n]) && (y.key != x.key || y !in v.Back().muts)
    ensures CurIn(Enqueue(v, x).chks, Enqueue(v, x).cursors[n])
    ensures y in MutsAhead(Enqueue(v, x).chks, Enqueue(v, x).cursors[n])
  {
    hide Enqueue, MutsAhead, Appended, CurIn, Append;
    var w, c := Enqueue(v, x), v.cursors[n];
    EnqueueAhead(v, x, n);
    EnqueuePlace(v, x, n);
    if y.key != x.key {
      AppendedKeeps(MutsAhead(v.chks, c), x, MutsAhead(w.chks, w.cursors[n]), y);
    } else {
      if c.chk == |v.chks| - 1 {
        LastAhead(v.chks, c);
      }
      AheadOfEarlier(v.chks, c);
      AheadOfEarlier(w.chks, c);
    }
  }

  lemma {:induction false} EarlierNotInBack(cs: seq<Chk>, y: Item)
    requires ChksInv(cs) && y in AllMuts(cs[..|cs| - 1])
    ensures y !in cs[|cs| - 1].muts
  {
    Neighbours(cs, |cs| - 1);
    AllMutsOrdered(cs[..|cs| - 1]);
    hide ChksInv, AllMuts;
  }

  /** What is left after queueing is new, or has another key, or lies in an earlier checkpoint. */
  lemma {:induction false} EnqueueLeaves(v: View, x: Item, y: Item)
    requires Inv(v) && v.Back().phase.Open? && x.IsMutation() && v.last < x.seqno
    requires y in AllMuts(Enqueue(v, x).chks) && y != x
    ensures y in AllMuts(v.chks) && (y.key != x.key || y !in v.Back().muts)
  {
    hide ChksInv, AllMuts, Enqueue;
    EnqueueAll(v, x);
    EnqueueEither(v, x, y);
    if y in AllMuts(v.chks[..|v.chks| - 1]) {
      EarlierNotInBack(v.chks, y);
    }
  }

  lemma {:induction false} EnqueueEither(v: View, x: Item, y: Item)
    requires Inv(v) && v.Back().phase.Open? && x.IsMutation() && v.last < x.seqno
    requires y in AllMuts(Enqueue(v, x).chks) && y != x
    ensures y in AllMuts(v.chks[..|v.chks| - 1]) || y.key != x.key
  {
    hide ChksInv, AllMuts, Append;
    var w, k := Enqueue(v, x), |v.chks| - 1;
    BackAppended(v, x);
    assert w.chks == v.chks[..k] + [w.Back()];
    AllMutsOfConcat(v.chks[..k], [w.Back()]);
    OneHolds(w.Back());
  }

  lemma {:induction false} BackAppended(v: View, x: Item)
    requires Inv(v) && v.Back().phase.Open? && x.IsMutation() && v.last < x.seqno
    ensures forall y :: y in Append(v.Back().muts, x) && y != x ==> y.key != x.key
  {
    hide Append;
    AppendKeeps(v.Back().muts, x);
  }

  lemma {:induction false} CoveredAfterQueue(v: View, x: Item, n: Name, given: seq<Item>, missed: set<Item>)
    requires Inv(v) && v.Back().phase.Open? && x.IsMutation() && v.last < x.seqno && n in v.cursors
    requires Covered(v, v.cursors[n], given, missed)
    ensures Covered(Enqueue(v, x), Enqueue(v, x).cursors[n], given, missed)
  {
    hide ChksInv, AllMuts, MutsAhead, Enqueue;
    var w := Enqueue(v, x);
    EnqueueAhead(v, x, n);
    forall y | y in AllMuts(w.chks) ensures y in given || y in MutsAhead(w.chks, w.cursors[n]) || y in missed {
      if y != x {
        EnqueueLeaves(v, x, y);
        if y !in given && y !in missed {
          EnqueueTakes(v, x, n, y);
        }
      }
    }
  }

  // ---- Everything held comes from what was held, except what is queued

  lemma {:induction false} MergedHolds(v: View, a: Action)
    requires Inv(v) && (a.MergeClosed? || (a.MergeAll? && a.id > 0)) && MergedRange(v, a) != []
    ensures var w := if a.MergeClosed? then CollapseClosed(v) else CollapseAll(v, a.id);
            && AllMuts(v.chks) == AllMuts(MergedRange(v, a)) + Beyond(v, a)
            && AllMuts(w.chks) == KeepLast(AllMuts(MergedRange(v, a))) + Beyond(v, a)
  {
    hide ChksInv, KeepLast, CollapseAll, CollapseClosed, Merged, AllMuts;
    if a.MergeAll? {
      CollapseAllInv(v, a.id);
      MergedAllInv(v.chks, a.id);
      OneHolds(MergedAll(v.chks, a.id));
    } else {
      MergedClosedHolds(v);
    }
  }

  lemma {:induction false} OneHolds(c: Chk)
    ensures AllMuts([c]) == c.muts
  {
    assert AllMuts([c]) == c.muts + AllMuts([]);
  }

  lemma {:induction false} MergedClosedHolds(v: View)
    requires Inv(v) && |v.chks| > 2 && !CollapseBlocked(v)
    ensures var ds := v.chks[..|v.chks| - 1];
            && AllMuts(v.chks) == AllMuts(ds) + v.Back().muts
            && AllMuts(CollapseClosed(v).chks) == KeepLast(AllMuts(ds)) + v.Back().muts
  {
    hide ChksInv, KeepLast, Merged, AllMuts, CollapsedCur, CollapseBlocked;
    var k := |v.chks| - 1;
    MergedClosedInv(v.chks);
    assert v.chks == v.chks[..k] + [v.Back()];
    AllMutsOfConcat(v.chks[..k], [v.Back()]);
    AllMutsOfConcat([Merged(v.chks[..k])], [v.Back()]);
    OneHolds(v.Back());
    OneHolds(Merged(v.chks[..k]));
    assert [Merged(v.chks[..k])] + [v.Back()] == [Merged(v.chks[..k]), v.Back()];
  }

  lemma {:induction false} PlainHolds(h: History, a: Action, w: View)
    requires Tracked(h) && Enabled(h.v, a) && w == NextView(h.v, a)
    requires !a.Queue? && !a.MergeClosed? && !a.MergeAll?
    ensures forall x :: x in AllMuts(w.chks) ==> x in AllMuts(h.v.chks)
  {
    hide ChksInv, CurIn, AllMuts, Close, Roll, RemovePrefix, WithRange, Enqueue, CollapseClosed, CollapseAll, Step,
         LastPlace, Removable;
    match a
    case CloseOpen => CloseHolds(h.v);
    case SetRange(s, e) => RangeHolds(h.v, s, e);
    case RollOver(id, s, e) => RollHolds(h.v, id, s, e);
    case Remove(k) => RemoveHolds(h.v, k);
    case _ =>
  }

  lemma {:induction false} RollHolds(v: View, id: nat, s: nat, e: nat)
    requires |v.chks| > 0
    ensures AllMuts(Roll(v, id, s, e).chks) == AllMuts(v.chks)
  {
    CloseHolds(v);
    AllMutsOfConcat(Close(v).chks, [Chk(id, s, e, v.last, [], Open)]);
  }

  lemma {:induction false} RemoveHolds(v: View, k: nat)
    requires k <= |v.chks|
    ensures forall x :: x in AllMuts(RemovePrefix(v, k).chks) ==> x in AllMuts(v.chks)
  {
    assert v.chks == v.chks[..k] + v.chks[k..];
    AllMutsOfConcat(v.chks[..k], v.chks[k..]);
  }

  lemma {:induction false} CloseHolds(v: View)
    requires |v.chks| > 0
    ensures AllMuts(Close(v).chks) == AllMuts(v.chks)
  {
    var w, k := Close(v), |v.chks| - 1;
    assert v.chks == v.chks[..k] + [v.Back()] && w.chks == v.chks[..k] + [w.Back()];
    AllMutsOfConcat(v.chks[..k], [v.Back()]);
    AllMutsOfConcat(v.chks[..k], [w.Back()]);
  }

  lemma {:induction false} RangeHolds(v: View, s: nat, e: nat)
    requires |v.chks| > 0
    ensures AllMuts(WithRange(v, s, e).chks) == AllMuts(v.chks)
  {
    var w, k := WithRange(v, s, e), |v.chks| - 1;
    assert v.chks == v.chks[..k] + [v.Back()] && w.chks == v.chks[..k] + [w.Back()];
    AllMutsOfConcat(v.chks[..k], [v.Back()]);
    AllMutsOfConcat(v.chks[..k], [w.Back()]);
  }

  // ---- The persistence cursor covers what is held, in every step

  lemma {:induction false} StepCovered(h: History, a: Action, w: View, n: Name)
    requires Tracked(h) && Enabled(h.v, a) && w == NextView(h.v, a) && Inv(w) && n in h.v.cursors && n in w.cursors
    requires !h.v.cursors[n].fromBeginning && !Begins(h.v, a, n)
    requires Covered(h.v, h.v.cursors[n], h.given[n], h.missed[n])
    ensures Covered(w, w.cursors[n], h.given[n] + Delta(h.v, a, n), h.missed[n] + SkippedBy(h.v, a, h.v.cursors[n]))
  {
    hide ChksInv, MutsAhead, AllMuts, Covered, Enqueue, Close, Roll, RemovePrefix, CollapseClosed, CollapseAll, Removable,
         LosesNext, Compacted, HandsOver, CurIn, KeepLast, Step, LastPlace, AtEnd, Chk.Items, Chk.Size;
    var v, c, g, m := h.v, h.v.cursors[n], h.given[n], h.missed[n];
    assert g + [] == g && m + {} == m;
    match a
    case Queue(x) =>
      CoveredAfterQueue(v, x, n, g, m);
    case MergeAll(id) =>
      MergeAllChange(v, id, n);
      MergedHolds(v, a);
      CoveredAfterMerge(v, a, w, c, w.cursors[n], g, m);
    case MergeClosed => CoveredAfterMergeClosed(v, n, g, m);
    case _ =>
      PlainChange(h, a, w, n);
      PlainHolds(h, a, w);
      CoveredAfterHandover(v, w, c, w.cursors[n], Delta(v, a, n), g, m);
  }

  lemma {:induction false} CoveredAfterMergeClosed(v: View, n: Name, given: seq<Item>, missed: set<Item>)
    requires Inv(v) && n in v.cursors && !v.cursors[n].fromBeginning && Covered(v, v.cursors[n], given, missed)
    ensures Covered(CollapseClosed(v), CollapseClosed(v).cursors[n], given, missed + SkippedBy(v, MergeClosed, v.cursors[n]))
  {
    hide ChksInv, MutsAhead, AllMuts, CollapseClosed, LosesNext, Compacted, KeepLast, Beyond;
    var w, c := CollapseClosed(v), v.cursors[n];
    if MergedRange(v, MergeClosed) == [] {
      assert |v.chks| > 2 ==> v.chks[..|v.chks| - 1] != [];
      CollapseSkipped(v);
      assert missed + SkippedBy(v, MergeClosed, c) == missed;
    } else {
      MergeClosedChange(v, n);
      MergedHolds(v, MergeClosed);
      KeepLastSubsequence(AllMuts(MergedRange(v, MergeClosed)));
      hide MergedRange;
      if Replaced(v, MergeClosed, c) {
        CoveredAfterMerge(v, MergeClosed, w, c, w.cursors[n], given, missed);
      } else {
        SameHands(v, w, n);
        CoveredAfterHandover(v, w, c, w.cursors[n], [], given, missed);
        assert given + [] == given;
      }
    }
  }

  // ---- Marked checkpoints stay marked

  /** Steps that keep the marked checkpoints themselves, up to a shift of their indexes. */
  lemma {:induction false} MarksKept(v: View, w: View, mark: seq<Item>, missed: set<Item>, k: nat)
    requires Marked(v, mark, missed) && w.preId == v.preId && |w.chks| > 0 && NextId(v) <= NextId(w)
    requires forall j :: 0 <= j < |w.chks| && w.chks[j].id <= w.preId ==>
               j + k < |v.chks| && v.chks[j + k].id == w.chks[j].id && v.chks[j + k].muts == w.chks[j].muts
    ensures Marked(w, mark, missed)
  {
  }

  lemma {:induction false} MarkedAfterPersisted(v: View, c: Cur, given: seq<Item>, missed: set<Item>)
    requires Inv(v) && CurIn(v.chks, c) && Covered(v, c, given, missed)
    ensures Marked(v.(preId := v.chks[c.chk].id - 1), given, missed)
  {
    forall i | 0 <= i < |v.chks| && v.chks[i].id <= v.chks[c.chk].id - 1
      ensures forall x :: x in v.chks[i].muts ==> x in given || x in missed
    {
      assert i < c.chk;
      forall x | x in v.chks[i].muts ensures x in given || x in missed {
        HeldBehind(v.chks, c, i, x);
      }
    }
    assert v.chks[c.chk].id <= v.Back().id;
  }

  lemma {:induction false} NotInBoth(a: seq<Item>, b: seq<Item>, x: Item)
    requires Increasing(a + b) && x in a
    ensures x !in b
  {
    var p :| 0 <= p < |a| && a[p] == x;
    forall q | 0 <= q < |b| ensures b[q] != x {
      assert (a + b)[p].seqno < (a + b)[|a| + q].seqno;
    }
  }

  lemma {:induction false} InMutsBehind(cs: seq<Chk>, c: Cur, i: nat, x: Item)
    requires CurIn(cs, c) && i < c.chk && x in cs[i].muts
    ensures x in MutsBehind(cs, c)
  {
    assert cs[..c.chk] == cs[..i] + ([cs[i]] + cs[i + 1..c.chk]);
    AllMutsOfConcat(cs[..i], [cs[i]] + cs[i + 1..c.chk]);
    AllMutsOfConcat([cs[i]], cs[i + 1..c.chk]);
    OneHolds(cs[i]);
  }

  lemma {:induction false} HeldBehind(cs: seq<Chk>, c: Cur, i: nat, x: Item)
    requires ChksInv(cs) && CurIn(cs, c) && i < c.chk && x in cs[i].muts
    ensures x in AllMuts(cs) && x !in MutsAhead(cs, c)
  {
    hide ChksInv, AllMuts, MutsAhead, MutsBehind, Increasing;
    InMutsBehind(cs, c, i, x);
    BehindAndAhead(cs, c);
    AllMutsOrdered(cs);
    NotInBoth(MutsBehind(cs, c), MutsAhead(cs, c), x);
  }

  lemma {:induction false} InSomeChk(cs: seq<Chk>, x: Item) returns (i: nat)
    requires x in AllMuts(cs)
    ensures i < |cs| && x in cs[i].muts
  {
    if x in cs[0].muts {
      i := 0;
    } else {
      i := InSomeChk(cs[1..], x);
      i := i + 1;
    }
  }

  lemma {:induction false} MergedMarked(v: View, mark: seq<Item>, missed: set<Item>)
    requires ChksInv(v.chks) && |v.chks| > 2 && Marked(v, mark, missed)
    ensures var m := Merged(v.chks[..|v.chks| - 1]);
            m.id <= v.preId ==> forall x :: x in m.muts ==> x in mark || x in missed
  {
    var ds := v.chks[..|v.chks| - 1];
    SubInv(v.chks, 0, |v.chks| - 1);
    MergedIsCompaction(ds);
    if Merged(ds).id <= v.preId {
      assert forall i :: 0 <= i < |ds| ==> v.chks[i].id <= v.preId by {
        assert forall i :: 0 <= i < |ds| - 1 ==> v.chks[i].id < v.chks[|ds| - 1].id;
      }
      KeepLastSubsequence(AllMuts(ds));
      hide ChksInv, AllMuts, KeepLast, Merged;
      forall x | x in Merged(ds).muts ensures x in mark || x in missed {
        var i := InSomeChk(ds, x);
        assert x in v.chks[i].muts;
      }
    }
  }

  lemma {:induction false} MarkedAfterMergeClosed(v: View, mark: seq<Item>, missed: set<Item>)
    requires Inv(v) && Marked(v, mark, missed)
    ensures Marked(CollapseClosed(v), mark, missed)
  {
    hide ChksInv, AllMuts, KeepLast, Merged, Replace;
    if |v.chks| > 2 && !CollapseBlocked(v) {
      MergedMarked(v, mark, missed);
      assert CollapseClosed(v).chks == [Merged(v.chks[..|v.chks| - 1]), v.Back()];
      assert v.Back() == v.chks[|v.chks| - 1];
    }
  }

  /** A full collapse leaves things marked exactly when the new id lies above `pCursorPreCheckpointId`. */
  lemma {:induction false} MarkedAfterMergeAll(v: View, id: nat, mark: seq<Item>, missed: set<Item>)
    requires Inv(v) && id > 0
    ensures Marked(CollapseAll(v, id), mark, missed) <==> v.preId < id
  {
    hide ChksInv, Merged;
    CollapseAllInv(v, id);
  }

  lemma {:induction false} MarkedAfterQueue(v: View, x: Item, mark: seq<Item>, missed: set<Item>)
    requires |v.chks| > 0 && v.Back().phase.Open? && Marked(v, mark, missed)
    ensures Marked(Enqueue(v, x), mark, missed)
  {
    hide Append;
    MarksKept(v, Enqueue(v, x), mark, missed, 0);
  }

  lemma {:induction false} MarkedAfterRoll(v: View, id: nat, s: nat, e: nat, mark: seq<Item>, missed: set<Item>)
    requires |v.chks| > 0 && Marked(v, mark, missed) && v.Back().id < id
    ensures Marked(Close(v), mark, missed)
    ensures Marked(Roll(v, id, s, e), mark, missed)
  {
    hide Chk.Size, EnterNext;
    MarksKept(v, Close(v), mark, missed, 0);
    MarksKept(v, Roll(v, id, s, e), mark, missed, 0);
  }

  lemma {:induction false} MarkedAfterRange(v: View, s: nat, e: nat, mark: seq<Item>, missed: set<Item>)
    requires |v.chks| > 0 && Marked(v, mark, missed)
    ensures Marked(WithRange(v, s, e), mark, missed)
  {
    MarksKept(v, WithRange(v, s, e), mark, missed, 0);
  }

  lemma {:induction false} MarkedAfterRemove(v: View, k: nat, mark: seq<Item>, missed: set<Item>)
    requires k < |v.chks| && Marked(v, mark, missed)
    ensures Marked(RemovePrefix(v, k), mark, missed)
  {
    MarksKept(v, RemovePrefix(v, k), mark, missed, k);
  }

  lemma {:induction false} MarkedAfterMove(v: View, w: View, mark: seq<Item>, missed: set<Item>)
    requires Marked(v, mark, missed) && w.chks == v.chks && w.preId == v.preId
    ensures Marked(w, mark, missed)
  {
  }

  lemma {:induction false} StepMarked(v: View, a: Action, w: View, mark: seq<Item>, missed: set<Item>)
    requires Inv(v) && PERSISTENCE in v.cursors && Enabled(v, a) && w == NextView(v, a) && !a.Persisted?
    requires if a.MergeAll? then v.preId < a.id else Marked(v, mark, missed)
    ensures Marked(w, mark, missed)
  {
    hide ChksInv, Marked, Enqueue, Roll, WithRange, RemovePrefix, CollapseClosed, CollapseAll, Append, Chk.Size;
    match a
    case Queue(x) => MarkedAfterQueue(v, x, mark, missed);
    case CloseOpen => MarkedAfterRoll(v, v.Back().id + 1, 0, 0, mark, missed);
    case RollOver(id, s, e) => MarkedAfterRoll(v, id, s, e, mark, missed);
    case SetRange(s, e) => MarkedAfterRange(v, s, e, mark, missed);
    case Remove(k) =>
      SomeLeft(v, k);
      MarkedAfterRemove(v, k, mark, missed);
    case MergeAll(id) => MarkedAfterMergeAll(v, id, mark, missed);
    case MergeClosed => MarkedAfterMergeClosed(v, mark, missed);
    case _ => MarkedAfterMove(v, w, mark, missed);
  }

  lemma {:induction false} StepUnpersisted(v: View, a: Action, w: View)
    requires Inv(v) && PERSISTENCE in v.cursors && Enabled(v, a) && w == NextView(v, a)
    requires if a.MergeAll? then v.preId < a.id else a.Persisted? || Unpersisted(v)
    ensures Unpersisted(w)
  {
    hide ChksInv, CurIn, Append, Merged, CollapsedCur, CollapseBlocked, EnterNext, CollapseAll, Removable, Step, LastPlace, MergedAll;
    match a
    case MergeAll(id) => MergedAllId(v, id);
    case Remove(k) => SomeLeft(v, k);
    case Persisted => CursorId(v, PERSISTENCE);
    case _ =>
  }

  lemma {:induction false} MergedAllId(v: View, id: nat)
    requires Inv(v) && id > 0
    ensures var w := CollapseAll(v, id); |w.chks| == 1 && w.Back().id == id && w.preId == v.preId
  {
    hide ChksInv, CurIn, CollapseAll, Merged;
    CollapseAllInv(v, id);
  }

  lemma {:induction false} CursorId(v: View, n: Name)
    requires Inv(v) && n in v.cursors
    ensures v.cursors[n].chk < |v.chks| && 0 < v.chks[v.cursors[n].chk].id <= v.Back().id
  {
    hide Chk.Wf, Chk.Top;
    assert CurIn(v.chks, v.cursors[n]);
  }

  // ---- Runs

  lemma {:induction false} FlagKept(h: History, a: Action, w: View, n: Name)
    requires Tracked(h) && Enabled(h.v, a) && w == NextView(h.v, a) && n in h.v.cursors && n in w.cursors
    requires !(a.Join? && a.n == n)
    ensures w.cursors[n].fromBeginning == h.v.cursors[n].fromBeginning
  {
    hide Inv, Append, Place, Merged, Chk.Size, Chk.Items, CollapseBlocked, Find, Removable, Close, WithRange;
  }

  /** What a step does to the persistence cursor's record. */
  lemma {:induction false} NextRecord(h: History, a: Action, w: View)
    requires Tracked(h) && Enabled(h.v, a) && PERSISTENCE in w.cursors && !h.v.cursors[PERSISTENCE].fromBeginning
    ensures |h.v.chks| > 0
    ensures var h', n := Next(h, a, w), PERSISTENCE;
            && !Begins(h.v, a, n)
            && h'.given[n] == h.given[n] + Delta(h.v, a, n)
            && h'.missed[n] == h.missed[n] + SkippedBy(h.v, a, h.v.cursors[n])
  {
    hide ChksInv, MutsAhead, Delta, SkippedBy, Replaced, NextOwed;
  }

  lemma {:induction false} MoreMissed(v: View, mark: seq<Item>, missed: set<Item>, more: set<Item>)
    requires Marked(v, mark, missed)
    ensures Marked(v, mark, missed + more)
  {
  }

  lemma {:induction false} StepPersistence(h: History, a: Action, h': History)
    requires Tracked(h) && Tracked(h') && PersistenceInv(h) && Steps(h, a, h')
    ensures PersistenceInv(h')
  {
    hide ChksInv, Covered, Marked, Unpersisted, Inv, NextView, Begins, NextGiven, NextOwed, NextMissed, Delta, SkippedBy;
    var w, n := NextView(h.v, a), PERSISTENCE;
    NextViewFacts(h, a, w);
    FlagKept(h, a, w, n);
    NextRecord(h, a, w);
    StepCovered(h, a, w, n);
    if !h'.rewound {
      if a.Persisted? {
        PersistedMarks(h, w);
      } else {
        StepMarked(h.v, a, w, h.mark, h.missed[n]);
      }
      StepUnpersisted(h.v, a, w);
      MoreMissed(w, h'.mark, h.missed[n], SkippedBy(h.v, a, h.v.cursors[n]));
    }
  }

  lemma {:induction false} PersistedMarks(h: History, w: View)
    requires Tracked(h) && Enabled(h.v, Persisted) && w == NextView(h.v, Persisted)
    requires Covered(h.v, h.v.cursors[PERSISTENCE], h.given[PERSISTENCE], h.missed[PERSISTENCE])
    ensures Marked(w, h.given[PERSISTENCE], h.missed[PERSISTENCE])
  {
    hide Marked, Covered, ChksInv;
    MarkedAfterPersisted(h.v, h.v.cursors[PERSISTENCE], h.given[PERSISTENCE], h.missed[PERSISTENCE]);
  }

  lemma {:induction false} InitialPersistence(h: History)
    requires Initial(h) && Tracked(h)
    ensures PersistenceInv(h)
  {
    assert AllMuts(h.v.chks) == h.v.chks[0].muts + AllMuts(h.v.chks[1..]);
  }

  lemma {:induction false} RunTracked(hs: seq<History>, acts: seq<Action>)
    requires IsRun(hs, acts)
    ensures Tracked(hs[|acts|])
  {
    hide IsRun, Fair;
    RunIsFair(hs, acts);
  }

  lemma {:induction false} RunPersistence(hs: seq<History>, acts: seq<Action>)
    requires IsRun(hs, acts)
    ensures Tracked(hs[|acts|]) && PersistenceInv(hs[|acts|])
  {
    hide AllFair, Steps, PersistenceInv, Tracked, Initial;
    RunTracked(hs, acts);
    if acts == [] {
      InitialPersistence(hs[0]);
    } else {
      var k := |acts| - 1;
      assert IsRun(hs[..k + 1], acts[..k]);
      RunPersistence(hs[..k + 1], acts[..k]);
      assert Steps(hs[k], acts[k], hs[k + 1]);
      StepPersistence(hs[k], acts[k], hs[k + 1]);
    }
  }

  /** Behind the persistence cursor lies what it was given and what it missed, and nothing is both. */
  lemma {:induction false} BehindPersistence(h: History, i: nat, x: Item)
    requires AllFair(h) && PersistenceInv(h) && i < h.v.cursors[PERSISTENCE].chk && x in h.v.chks[i].muts
    ensures x in h.given[PERSISTENCE] <==> x !in h.missed[PERSISTENCE]
    ensures x in h.mark ==> x !in h.missed[PERSISTENCE]
    ensures !h.rewound && h.v.chks[i].id <= h.v.preId ==> (x in h.mark <==> x !in h.missed[PERSISTENCE])
  {
    hide ChksInv, AllMuts, MutsAhead, Agrees, Increasing;
    var c := h.v.cursors[PERSISTENCE];
    assert Fair(h.v, c, h.given[PERSISTENCE], h.owed[PERSISTENCE], h.missed[PERSISTENCE]);
    HeldBehind(h.v.chks, c, i, x);
  }

  /** Safe removal: after any run, whatever prefix the manager may remove leaves the open checkpoint, is
      closed and holds no cursor. Each mutation it holds was given to the persistence cursor if and only if
      no collapse made that cursor skip it; and unless the last full collapse reused a persisted id, those
      were all given before the last `itemsPersisted`. */
  lemma {:induction false} OnlyPersistedRemoved(hs: seq<History>, acts: seq<Action>, k: nat)
    requires IsRun(hs, acts)
    ensures var h := hs[|acts|];
            k <= |h.v.chks| && Removable(h.v, k) ==>
              && PERSISTENCE in h.given && PERSISTENCE in h.missed
              && k < |h.v.chks|
              && (forall i :: 0 <= i < k ==> h.v.chks[i].phase.Closed?)
              && (forall n :: n in h.v.cursors ==> h.v.cursors[n].chk >= k)
              && (forall i, x :: 0 <= i < k && x in h.v.chks[i].muts ==>
                    && (x in h.given[PERSISTENCE] <==> x !in h.missed[PERSISTENCE])
                    && (!h.rewound ==> (x in h.mark <==> x !in h.missed[PERSISTENCE])))
  {
    hide Initial, Steps, Covered, Marked, Chk.Wf, Chk.Top, Fair;
    RunIsFair(hs, acts);
    RunPersistence(hs, acts);
    var h := hs[|acts|];
    if k <= |h.v.chks| && Removable(h.v, k) {
      assert k <= h.v.cursors[PERSISTENCE].chk < |h.v.chks|;
      forall i, x | 0 <= i < k && x in h.v.chks[i].muts
        ensures x in h.given[PERSISTENCE] <==> x !in h.missed[PERSISTENCE]
        ensures !h.rewound ==> (x in h.mark <==> x !in h.missed[PERSISTENCE])
      {
        BehindPersistence(h, i, x);
      }
    }
  }

  /** Registration finds a checkpoint: after any run, unless the last full collapse reused a persisted id, the last
      checkpoint is not known to be persisted. */
  lemma {:induction false} RegistrationFinds(hs: seq<History>, acts: seq<Action>, id: nat)
    requires IsRun(hs, acts)
    ensures var h := hs[|acts|]; !h.rewound ==> exists c :: c in h.v.chks && (c.id == id || h.v.preId < c.id)
  {
    hide Initial, Steps, Covered, Marked, Inv;
    RunPersistence(hs, acts);
    var h := hs[|acts|];
    if !h.rewound {
      assert h.v.Back() in h.v.chks;
    }
  }
}
