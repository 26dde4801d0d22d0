/** Exactly when a collapse keeps the removal of checkpoints safe. */
module SafeCollapses {
  import opened Log
  import opened LastWrites
  import opened Checkpoints
  import opened CollapseLaws
  import opened Runs
  import opened SafeRemoval

  // ---- What the call does to the invariant behind safe removal

  lemma {:induction false} InOrderOnce(g: seq<Item>, x: Item, s: seq<Item>)
    requires Increasing(g + ([x] + s))
    ensures x !in g && x !in s
  {
    var u := g + ([x] + s);
    assert u[|g|] == x;
    forall i | 0 <= i < |g| ensures g[i] != x {
      assert u[i] == g[i];
    }
    forall i | 0 <= i < |s| ensures s[i] != x {
      assert u[|g| + 1 + i] == s[i];
    }
  }

  /** A skipped mutation is still held, but neither given nor ahead. */
  lemma {:induction false} SkippedUncovered(v: View, a: Action, w: View, c: Cur, c': Cur, given: seq<Item>, missed: set<Item>)
    requires |v.chks| > 0 && Skips(v, a, c) && CurIn(v.chks, c) && CurIn(w.chks, c')
    requires Compacted(v, a, c, MutsAhead(v.chks, c), MutsAhead(w.chks, c'))
    requires AllMuts(w.chks) == KeepLast(AllMuts(MergedRange(v, a))) + Beyond(v, a)
    requires Increasing(given + MutsAhead(v.chks, c)) && Apart(given + MutsAhead(v.chks, c), missed, v.last)
    ensures MutsAhead(MergedRange(v, a), c)[0] in AllMuts(w.chks)
    ensures !Covered(w, c', given, missed)
  {
    hide MutsAhead, AllMuts, MergedRange, Beyond, Skips, KeepLast, NotIn, MutsBehind, FirstSurvives, Increasing;
    SkipsFirst(v, a, c);
    var r := MergedRange(v, a);
    var b, y, z := MutsBehind(r, c), MutsAhead(r, c), Beyond(v, a);
    BehindAndAhead(r, c);
    KeepLastOfConcat(b, y);
    FirstOfKept(y);
    FirstOnce(given, y, z);
    assert y[0] in KeepLast(y);
    assert y[0] in given + MutsAhead(v.chks, c);
    assert y[0] !in MutsAhead(w.chks, c');
  }

  lemma {:induction false} FirstOnce(g: seq<Item>, y: seq<Item>, r: seq<Item>)
    requires Increasing(g + (y + r)) && FirstSurvives(y)
    ensures y != [] && KeepLast(y) != [] && y[0] !in g && y[0] !in KeepLast(y)[1..] + r
  {
    hide KeepLast, FirstSurvives, Increasing;
    FirstOfKept(y);
    KeptInOrder(g, y, r);
    assert KeepLast(y) + r == [y[0]] + (KeepLast(y)[1..] + r);
    InOrderOnce(g, y[0], KeepLast(y)[1..] + r);
  }

  lemma {:induction false} KeptInOrder(g: seq<Item>, y: seq<Item>, r: seq<Item>)
    requires Increasing(g + (y + r))
    ensures Increasing(g + (KeepLast(y) + r))
  {
    hide KeepLast;
    assert Increasing(y) by {
      assert forall i :: 0 <= i < |y| ==> y[i] == (g + (y + r))[|g| + i];
    }
    KeepLastSubsequence(y);
    hide Increasing, HasKey, DistinctKeys, AllMutations;
    CompactedIncreasing(g, y, KeepLast(y), r);
  }

  /** What the persistence cursor's record must satisfy: see `Fair`. */
  ghost predicate Recorded(v: View, c: Cur, given: seq<Item>, missed: set<Item>) {
    && !c.fromBeginning && Covered(v, c, given, missed)
    && Increasing(given + MutsAhead(v.chks, c)) && Apart(given + MutsAhead(v.chks, c), missed, v.last)
  }

  /** `collapseCheckpoints` leaves everything held covered exactly when the cursor does not lose its next
      mutation, and everything up to `pCursorPreCheckpointId` marked exactly when the new id lies above it. */
  lemma {:induction false} CollapseAllKeepsSafe(v: View, id: nat, n: Name, given: seq<Item>, mark: seq<Item>, missed: set<Item>)
    requires Inv(v) && id > 0 && n in v.cursors && Recorded(v, v.cursors[n], given, missed)
    ensures var w, c := CollapseAll(v, id), v.cursors[n];
            && CurIn(v.chks, c)
            && (Covered(w, w.cursors[n], given, missed) <==> !LosesNext(v.chks, c))
            && (Marked(w, mark, missed) <==> v.preId < id)
  {
    hide ChksInv, CollapseAll, KeepLast, AllMuts, LosesNext, MutsAhead, Increasing, Apart, Compacted, Covered, Marked;
    var a, w, c := MergeAll(id), CollapseAll(v, id), v.cursors[n];
    assert CurIn(v.chks, c);
    MergeAllChange(v, id, n);
    MergedHolds(v, a);
    if LosesNext(v.chks, c) {
      SkippedUncovered(v, a, w, c, w.cursors[n], given, missed);
    } else {
      CoveredAfterMerge(v, a, w, c, w.cursors[n], given, missed);
      assert missed + {} == missed;
    }
    MarkedAfterMergeAll(v, id, mark, missed);
  }

  /** The closed checkpoints are merged and `c`, re-placed among them, loses its next mutation. */
  ghost predicate LosesNextClosed(v: View, c: Cur)
    requires CurIn(v.chks, c)
  {
    |v.chks| > 2 && !CollapseBlocked(v) && c.chk < |v.chks| - 2 && LosesNext(v.chks[..|v.chks| - 1], c)
  }

  /** `collapseClosedCheckpoints` keeps the marks, and keeps everything covered exactly when it does not
      re-place the cursor where it loses its next mutation. */
  lemma {:induction false} CollapseClosedKeepsSafe(v: View, n: Name, given: seq<Item>, mark: seq<Item>, missed: set<Item>)
    requires Inv(v) && n in v.cursors && Recorded(v, v.cursors[n], given, missed) && Marked(v, mark, missed)
    ensures var w, c := CollapseClosed(v), v.cursors[n];
            && CurIn(v.chks, c)
            && (Covered(w, w.cursors[n], given, missed) <==> !LosesNextClosed(v, c))
            && Marked(w, mark, missed)
  {
    hide ChksInv, CollapseClosed, KeepLast, AllMuts, LosesNext, MutsAhead, Increasing, Apart, Compacted, Covered, Marked,
         LosesNextClosed, Beyond;
    var a, w, c := MergeClosed, CollapseClosed(v), v.cursors[n];
    assert CurIn(v.chks, c);
    MarkedAfterMergeClosed(v, mark, missed);
    CoveredAfterMergeClosed(v, n, given, missed);
    SkipsClosed(v, c);
    if Skips(v, a, c) {
      MergeClosedChange(v, n);
      MergedHolds(v, a);
      SkippedUncovered(v, a, w, c, w.cursors[n], given, missed);
    } else {
      assert missed + SkippedBy(v, a, c) == missed;
    }
  }

  lemma {:induction false} SkipsClosed(v: View, c: Cur)
    requires |v.chks| > 0 && CurIn(v.chks, c)
    ensures Skips(v, MergeClosed, c) <==> !c.fromBeginning && LosesNextClosed(v, c)
  {
    hide LosesNext, CollapseBlocked;
    if |v.chks| > 2 {
      assert v.chks[..|v.chks| - 1] != [] && v.chks[..|v.chks| - 1][0] == v.chks[0];
    }
  }

  // ---- What may happen after the call

  /** `hs` goes on from `h` by the actions `acts`. */
  ghost predicate Continues(h: History, hs: seq<History>, acts: seq<Action>) {
    && |hs| == |acts| + 1 && hs[0] == h
    && forall i :: 0 <= i < |acts| ==> Steps(hs[i], acts[i], hs[i + 1])
  }

  ghost predicate MergeFree(acts: seq<Action>) {
    forall i :: 0 <= i < |acts| ==> !acts[i].MergeAll? && !acts[i].MergeClosed?
  }

  /** Whatever may be removed holds only marked mutations and the given exceptions. */
  ghost predicate RemovalSafe(h: History, except: set<Item>) {
    forall k, i, x :: 0 <= i < k <= |h.v.chks| && Removable(h.v, k) && x in h.v.chks[i].muts ==> x in h.mark || x in except
  }

  /** No matter what happens up to the next collapse, only such mutations are removed. */
  ghost predicate StaysSafe(h: History, except: set<Item>) {
    forall hs, acts :: Continues(h, hs, acts) && MergeFree(acts) ==> RemovalSafe(hs[|acts|], except)
  }

  /** What every reached state satisfies: see `RunSound`. */
  ghost predicate Sound(h: History) {
    AllFair(h) && PersistenceInv(h)
  }

  lemma {:induction false} RunSound(hs: seq<History>, acts: seq<Action>)
    requires IsRun(hs, acts)
    ensures Sound(hs[|acts|])
  {
    hide IsRun, AllFair, PersistenceInv;
    RunIsFair(hs, acts);
    RunPersistence(hs, acts);
  }

  ghost predicate MarkedIn(h: History)
    requires Tracked(h)
  {
    Marked(h.v, h.mark, h.missed[PERSISTENCE])
  }

  /** Without a collapse the persistence cursor skips nothing more, and what is marked stays so. */
  lemma {:induction false} PlainStep(h: History, a: Action, h': History)
    requires Sound(h) && Steps(h, a, h') && !a.MergeAll? && !a.MergeClosed?
    ensures Sound(h') && h'.missed[PERSISTENCE] == h.missed[PERSISTENCE]
    ensures h'.mark == if a.Persisted? then h.given[PERSISTENCE] else h.mark
    ensures MarkedIn(h) ==> MarkedIn(h')
  {
    hide ChksInv, Fair, Covered, Marked, Enabled, NextView, NextGiven, NextOwed, NextMissed, SkippedBy;
    StepFair(h, a, h');
    StepPersistence(h, a, h');
    NextRecord(h, a, h'.v);
    NoSkip(h.v, a, h.v.cursors[PERSISTENCE]);
    assert h.missed[PERSISTENCE] + {} == h.missed[PERSISTENCE];
    if MarkedIn(h) {
      if a.Persisted? {
        PersistedMarks(h, h'.v);
      } else {
        StepMarked(h.v, a, h'.v, h.mark, h.missed[PERSISTENCE]);
      }
    }
  }

  lemma {:induction false} PlainRun(h: History, hs: seq<History>, acts: seq<Action>)
    requires Sound(h) && MarkedIn(h) && Continues(h, hs, acts) && MergeFree(acts)
    ensures RemovalSafe(hs[|acts|], h.missed[PERSISTENCE])
    decreases |acts|
  {
    hide Fair, Inv, PersistenceInv, Steps;
    if acts != [] {
      assert Steps(hs[0], acts[0], hs[1]);
      PlainStep(h, acts[0], hs[1]);
      assert Continues(hs[1], hs[1..], acts[1..]);
      hide Marked, RemovalSafe;
      PlainRun(hs[1], hs[1..], acts[1..]);
    }
  }

  // ---- What can go wrong after the call

  ghost predicate Reaches(h: History, e: History) {
    exists hs, acts :: Continues(h, hs, acts) && MergeFree(acts) && hs[|acts|] == e
  }

  lemma {:induction false} ReachesItself(h: History)
    ensures Reaches(h, h)
  {
    var hs, acts: seq<Action> := [h], [];
    assert Continues(h, hs, acts) && MergeFree(acts) && hs[|acts|] == h;
  }

  lemma {:induction false} Extends(h: History, hs: seq<History>, acts: seq<Action>, a: Action, e: History)
    requires Continues(h, hs, acts) && MergeFree(acts) && Steps(hs[|acts|], a, e) && !a.MergeAll? && !a.MergeClosed?
    ensures Continues(h, hs + [e], acts + [a]) && MergeFree(acts + [a])
  {
    hide Steps;
    var gs, bs := hs + [e], acts + [a];
    forall i | 0 <= i < |bs| ensures Steps(gs[i], bs[i], gs[i + 1]) {
      if i < |acts| {
        assert Steps(hs[i], acts[i], hs[i + 1]);
      }
    }
  }

  /** Taking one more step, other than a collapse. */
  lemma {:induction false} GoOn(h: History, e: History, a: Action) returns (e': History)
    requires Reaches(h, e) && Sound(e) && Enabled(e.v, a) && !a.MergeAll? && !a.MergeClosed?
    ensures Reaches(h, e') && Sound(e') && e'.v == NextView(e.v, a)
    ensures e'.missed[PERSISTENCE] == e.missed[PERSISTENCE]
    ensures e'.mark == if a.Persisted? then e.given[PERSISTENCE] else e.mark
  {
    hide ChksInv, Fair, PersistenceInv, Enabled, NextView, NextGiven, NextOwed, NextMissed, Reaches;
    e' := Next(e, a, NextView(e.v, a));
    PlainStep(e, a, e');
    Onward(h, e, a, e');
  }

  lemma {:induction false} Onward(h: History, e: History, a: Action, e': History)
    requires Reaches(h, e) && Steps(e, a, e') && !a.MergeAll? && !a.MergeClosed?
    ensures Reaches(h, e')
  {
    hide Steps, MergeFree;
    var hs, acts :| Continues(h, hs, acts) && MergeFree(acts) && hs[|acts|] == e;
    Extends(h, hs, acts, a, e');
    assert (hs + [e'])[|acts + [a]|] == e';
  }

  /** Draining cursors one after another takes them to the open checkpoint and changes nothing else. */
  lemma {:induction false} DrainAll(h: History, e: History, names: set<Name>) returns (f: History)
    requires Reaches(h, e) && Sound(e) && names <= e.v.cursors.Keys
    ensures Reaches(h, f) && Sound(f) && f.missed[PERSISTENCE] == e.missed[PERSISTENCE] && f.mark == e.mark
    ensures f.v == e.v.(cursors := f.v.cursors) && f.v.cursors.Keys == e.v.cursors.Keys
    ensures forall n :: n in f.v.cursors ==> if n in names then f.v.cursors[n].chk == |f.v.chks| - 1 else f.v.cursors[n] == e.v.cursors[n]
    decreases names
  {
    hide ChksInv, Fair, PersistenceInv, Reaches, CurIn;
    f := e;
    if names != {} {
      var n :| n in names;
      f := GoOn(h, e, Drain(n));
      assert f.v.cursors.Keys == e.v.cursors.Keys;
      f := DrainAll(h, f, names - {n});
    }
  }

  lemma {:induction false} Exposed(h: History, e: History, k: nat, i: nat, x: Item, except: set<Item>)
    requires Reaches(h, e) && i < k <= |e.v.chks| && Removable(e.v, k) && x in e.v.chks[i].muts && x !in e.mark && x !in except
    ensures !StaysSafe(h, except)
  {
    hide Steps, MergeFree, Removable;
    var hs, acts :| Continues(h, hs, acts) && MergeFree(acts) && hs[|acts|] == e;
    assert !RemovalSafe(hs[|acts|], except);
  }

  lemma {:induction false} RollKeeps(v: View, id: nat, i: nat)
    requires i < |v.chks|
    ensures var w := Roll(v, id, v.last, v.last);
            |w.chks| == |v.chks| + 1 && w.chks[i].id == v.chks[i].id && w.chks[i].muts == v.chks[i].muts
            && w.chks[|v.chks|].id == id && w.preId == v.preId
  {
  }

  /** Roll over, and let every cursor drain. */
  lemma {:induction false} LeaveBehind(h: History, e: History) returns (f: History)
    requires Reaches(h, e) && Sound(e)
    ensures Reaches(h, f) && Sound(f) && f.missed[PERSISTENCE] == e.missed[PERSISTENCE] && f.mark == e.mark
    ensures |f.v.chks| == |e.v.chks| + 1 && f.v.preId == e.v.preId && f.v.chks[|e.v.chks|].id == e.v.Back().id + 1
    ensures forall i :: 0 <= i < |e.v.chks| ==> f.v.chks[i].id == e.v.chks[i].id && f.v.chks[i].muts == e.v.chks[i].muts
    ensures forall n :: n in f.v.cursors ==> f.v.cursors[n].chk == |e.v.chks|
  {
    hide ChksInv, Fair, PersistenceInv, Reaches, CurIn, Roll;
    var id := e.v.Back().id + 1;
    f := GoOn(h, e, RollOver(id, e.v.last, e.v.last));
    forall i | 0 <= i < |e.v.chks|
      ensures f.v.chks[i].id == e.v.chks[i].id && f.v.chks[i].muts == e.v.chks[i].muts
    {
      RollKeeps(e.v, id, i);
    }
    RollKeeps(e.v, id, 0);
    f := DrainAll(h, f, f.v.cursors.Keys);
  }

  lemma {:induction false} Older(v: View, i: nat)
    requires Inv(v) && i < |v.chks|
    ensures v.chks[i].id <= v.Back().id
  {
  }

  /** A mutation that is held but missed can be removed without ever reaching the persistence cursor. */
  lemma {:induction false} MissedIsRemoved(h: History, x: Item, except: set<Item>)
    requires Sound(h) && x in AllMuts(h.v.chks) && x in h.missed[PERSISTENCE] && x !in except
    ensures !StaysSafe(h, except)
  {
    hide ChksInv, Fair, Reaches, CurIn, AllMuts, Covered, Marked, StaysSafe;
    ReachesItself(h);
    var k := |h.v.chks|;
    var i := InSomeChk(h.v.chks, x);
    var f := LeaveBehind(h, h);
    MissedNotGiven(f, x);
    var e := GoOn(h, f, Persisted);
    forall j | 0 <= j < k ensures e.v.chks[j].id <= e.v.preId {
      Older(h.v, j);
    }
    Exposed(h, e, k, i, x, except);
  }

  lemma {:induction false} MissedNotGiven(h: History, x: Item)
    requires Sound(h) && x in h.missed[PERSISTENCE]
    ensures x !in h.given[PERSISTENCE]
  {
    hide Inv, PersistenceInv, Agrees, Increasing;
    assert Fair(h.v, h.v.cursors[PERSISTENCE], h.given[PERSISTENCE], h.owed[PERSISTENCE], h.missed[PERSISTENCE]);
  }

  lemma {:induction false} NothingNewer(h: History)
    requires Sound(h)
    ensures forall x :: x in h.mark || x in h.missed[PERSISTENCE] ==> x.seqno <= h.v.last
  {
    hide Inv, Agrees, Increasing, Covered, Marked;
    assert Fair(h.v, h.v.cursors[PERSISTENCE], h.given[PERSISTENCE], h.owed[PERSISTENCE], h.missed[PERSISTENCE]);
  }

  lemma {:induction false} QueueHolds(v: View, x: Item)
    requires |v.chks| > 0
    ensures var w := Enqueue(v, x); x in w.Back().muts && w.Back().id == v.Back().id && |w.chks| == |v.chks| && w.preId == v.preId
  {
  }

  /** While the next mutation can get an id that counts as persisted, it can be removed before it is. */
  lemma {:induction false} NextIsRemoved(h: History)
    requires Sound(h) && NextId(h.v) <= h.v.preId
    ensures !StaysSafe(h, h.missed[PERSISTENCE])
  {
    hide ChksInv, Fair, Reaches, CurIn, AllMuts, StaysSafe, PersistenceInv;
    NothingNewer(h);
    var f, x := QueueNext(h);
    var g := LeaveBehind(h, f);
    var k := |f.v.chks|;
    forall j | 0 <= j < k ensures g.v.chks[j].id <= g.v.preId {
      Older(f.v, j);
    }
    Exposed(h, g, k, k - 1, x, h.missed[PERSISTENCE]);
  }

  /** Extend the open checkpoint's range as far as a new mutation needs, and queue it. */
  lemma {:induction false} QueueNext(h: History) returns (f: History, x: Item)
    requires Sound(h)
    ensures Reaches(h, f) && Sound(f) && f.missed[PERSISTENCE] == h.missed[PERSISTENCE] && f.mark == h.mark
    ensures f.v.preId == h.v.preId && f.v.Back().id == NextId(h.v) && x in f.v.Back().muts && h.v.last < x.seqno
  {
    hide ChksInv, Fair, Reaches, CurIn, PersistenceInv, Enqueue, Roll;
    var e := OpenNext(h);
    var start := e.v.Back().snapStart;
    var seqno := if start <= h.v.last then h.v.last + 1 else start;
    x := Item(Set, "k", seqno, 0);
    f := GoOn(h, e, SetRange(start, seqno));
    var r := f.v;
    assert r.Back() == e.v.Back().(snapEnd := seqno) && r.last == h.v.last;
    f := GoOn(h, f, Queue(x));
    QueueHolds(r, x);
  }

  /** Open a checkpoint with the least id, unless one is open. */
  lemma {:induction false} OpenNext(h: History) returns (e: History)
    requires Sound(h)
    ensures Reaches(h, e) && Sound(e) && e.missed[PERSISTENCE] == h.missed[PERSISTENCE] && e.mark == h.mark
    ensures e.v.Back().phase.Open? && e.v.Back().id == NextId(h.v) && e.v.last == h.v.last && e.v.preId == h.v.preId
  {
    hide ChksInv, Fair, Reaches, CurIn, PersistenceInv, EnterNext;
    ReachesItself(h);
    e := h;
    if h.v.Back().phase.Closed? {
      e := GoOn(h, h, RollOver(h.v.Back().id + 1, h.v.last, h.v.last));
    }
  }

  /** An unmarked mutation under an id that counts as persisted can be removed. */
  lemma {:induction false} UnmarkedIsRemoved(h: History, i: nat, x: Item)
    requires Sound(h) && i < |h.v.chks| && h.v.chks[i].id <= h.v.preId
    requires x in h.v.chks[i].muts && x !in h.mark && x !in h.missed[PERSISTENCE]
    ensures !StaysSafe(h, h.missed[PERSISTENCE])
  {
    hide Fair, Reaches, CurIn, AllMuts, StaysSafe, PersistenceInv, Chk.Wf, Chk.Top;
    ReachesItself(h);
    var f := LeaveBehind(h, h);
    Exposed(h, f, i + 1, i, x, h.missed[PERSISTENCE]);
  }

  // ---- The exact conditions

  /** In any state that a run reaches: whatever happens up to the next collapse, checkpoints go only with
      mutations persisted, or missed, if and only if `Marked` holds now. */
  lemma {:induction false} StaysSafeExactly(h: History)
    requires Sound(h)
    ensures StaysSafe(h, h.missed[PERSISTENCE]) <==> MarkedIn(h)
  {
    hide Steps, MergeFree, RemovalSafe, Fair, Inv, PersistenceInv, Marked;
    if MarkedIn(h) {
      forall hs, acts | Continues(h, hs, acts) && MergeFree(acts)
        ensures RemovalSafe(hs[|acts|], h.missed[PERSISTENCE])
      {
        PlainRun(h, hs, acts);
      }
    } else {
      NotMarked(h);
    }
  }

  lemma {:induction false} NotMarked(h: History)
    requires Sound(h) && !MarkedIn(h)
    ensures !StaysSafe(h, h.missed[PERSISTENCE])
  {
    hide Fair, ChksInv, PersistenceInv, StaysSafe;
    if NextId(h.v) <= h.v.preId {
      NextIsRemoved(h);
    } else {
      var i, x :| 0 <= i < |h.v.chks| && h.v.chks[i].id <= h.v.preId && x in h.v.chks[i].muts
                  && x !in h.mark && x !in h.missed[PERSISTENCE];
      UnmarkedIsRemoved(h, i, x);
    }
  }

  lemma {:induction false} AfterMerge(h: History, a: Action, h': History)
    requires Sound(h) && Steps(h, a, h')
    ensures Sound(h') && |h.v.chks| > 0
    ensures CurIn(h.v.chks, h.v.cursors[PERSISTENCE]) && !h.v.cursors[PERSISTENCE].fromBeginning
    ensures h'.missed[PERSISTENCE] == h.missed[PERSISTENCE] + SkippedBy(h.v, a, h.v.cursors[PERSISTENCE])
    ensures h'.v == NextView(h.v, a) && (a.Persisted? || h'.mark == h.mark)
  {
    hide ChksInv, Fair, Covered, Marked, NextView, Enabled, NextGiven, NextOwed, NextMissed, SkippedBy;
    StepFair(h, a, h');
    StepPersistence(h, a, h');
    NextRecord(h, a, h'.v);
  }

  /** Exactly when `collapseCheckpoints` is safe: from any state a run reaches, whatever happens after the call
      and up to the next collapse, checkpoints go only with persisted mutations or ones already missed before,
      if and only if the new id lies above `pCursorPreCheckpointId` and the persistence cursor does not lose
      its next mutation. */
  lemma {:induction false} CollapseAllStaysSafe(h: History, id: nat, h': History)
    requires Sound(h) && Steps(h, MergeAll(id), h')
    ensures CurIn(h.v.chks, h.v.cursors[PERSISTENCE])
    ensures StaysSafe(h', h.missed[PERSISTENCE]) <==> h.v.preId < id && !LosesNext(h.v.chks, h.v.cursors[PERSISTENCE])
  {
    hide Inv, PersistenceInv, Fair, StaysSafe, LosesNext, CollapseAll, MutsAhead, AllMuts, Next, Marked;
    AfterMerge(h, MergeAll(id), h');
    var c, missed := h.v.cursors[PERSISTENCE], h.missed[PERSISTENCE];
    MarkedAfterMergeAll(h.v, id, h'.mark, missed);
    if LosesNext(h.v.chks, c) {
      var x := SkippedHeld(h, MergeAll(id), h');
      MissedIsRemoved(h', x, missed);
    } else {
      assert missed + {} == missed;
      StaysSafeExactly(h');
    }
  }

  /** The mutation that a collapse makes the persistence cursor skip: still held, and not missed before. */
  lemma {:induction false} SkippedHeld(h: History, a: Action, h': History) returns (x: Item)
    requires Sound(h) && Steps(h, a, h') && (a.MergeAll? || a.MergeClosed?)
    requires |h.v.chks| > 0 && Skips(h.v, a, h.v.cursors[PERSISTENCE])
    ensures x in AllMuts(h'.v.chks) && x !in h.missed[PERSISTENCE] && x in SkippedBy(h.v, a, h.v.cursors[PERSISTENCE])
  {
    hide ChksInv, Covered, Marked, Skips, AllMuts, MutsAhead, KeepLast, Compacted, Increasing, Agrees, CollapseAll,
         CollapseClosed, Beyond, MergedRange, NextGiven, NextOwed, NextMissed;
    var v, c, n := h.v, h.v.cursors[PERSISTENCE], PERSISTENCE;
    assert Fair(v, c, h.given[n], h.owed[n], h.missed[n]);
    MergeChange(v, a, n, h'.v);
    SkippedUncovered(v, a, h'.v, c, h'.v.cursors[n], h.given[n], h.missed[n]);
    SkipInAhead(v, a, c, h'.v, h'.v.cursors[n]);
    x := MutsAhead(MergedRange(v, a), c)[0];
  }

  lemma {:induction false} MergeChange(v: View, a: Action, n: Name, w: View)
    requires Inv(v) && Enabled(v, a) && w == NextView(v, a) && (a.MergeAll? || a.MergeClosed?)
    requires n in v.cursors && Skips(v, a, v.cursors[n])
    ensures CurIn(v.chks, v.cursors[n]) && n in w.cursors && CurIn(w.chks, w.cursors[n])
    ensures Compacted(v, a, v.cursors[n], MutsAhead(v.chks, v.cursors[n]), MutsAhead(w.chks, w.cursors[n]))
    ensures AllMuts(w.chks) == KeepLast(AllMuts(MergedRange(v, a))) + Beyond(v, a)
  {
    hide ChksInv, LosesNext, AllMuts, MutsAhead, KeepLast, Compacted, CollapseAll, CollapseClosed, Beyond;
    if a.MergeAll? {
      MergeAllChange(v, a.id, n);
    } else {
      MergeClosedChange(v, n);
    }
    MergedHolds(v, a);
  }

  lemma {:induction false} SkipInAhead(v: View, a: Action, c: Cur, w: View, c': Cur)
    requires |v.chks| > 0 && Skips(v, a, c) && CurIn(v.chks, c) && CurIn(w.chks, c')
    requires Compacted(v, a, c, MutsAhead(v.chks, c), MutsAhead(w.chks, c'))
    ensures CurIn(MergedRange(v, a), c) && MutsAhead(MergedRange(v, a), c) != []
    ensures MutsAhead(MergedRange(v, a), c)[0] in MutsAhead(v.chks, c)
  {
    hide MutsAhead, AllMuts, KeepLast;
  }

  /** Exactly when `collapseClosedCheckpoints` keeps things safe, in the same sense: if and only if it does not
      re-place the persistence cursor where it loses its next mutation. */
  lemma {:induction false} CollapseClosedStaysSafe(h: History, h': History)
    requires Sound(h) && Steps(h, MergeClosed, h') && StaysSafe(h, h.missed[PERSISTENCE])
    ensures CurIn(h.v.chks, h.v.cursors[PERSISTENCE])
    ensures StaysSafe(h', h.missed[PERSISTENCE]) <==> !LosesNextClosed(h.v, h.v.cursors[PERSISTENCE])
  {
    hide Inv, PersistenceInv, Fair, StaysSafe, LosesNextClosed, CollapseClosed, MutsAhead, AllMuts, Next, Skips, Marked;
    StaysSafeExactly(h);
    AfterMerge(h, MergeClosed, h');
    MarkedAfterMergeClosed(h.v, h.mark, h.missed[PERSISTENCE]);
    var c, missed := h.v.cursors[PERSISTENCE], h.missed[PERSISTENCE];
    SkipsClosed(h.v, c);
    if Skips(h.v, MergeClosed, c) {
      var x := SkippedHeld(h, MergeClosed, h');
      MissedIsRemoved(h', x, missed);
    } else {
      assert missed + {} == missed;
      StaysSafeExactly(h');
    }
  }
}
