/** Whole runs of the checkpoint manager: what every interleaving of its operations guarantees each cursor. */
module Runs {
  import opened Log
  import opened LastWrites
  import opened Checkpoints
  import opened CheckpointLaws
  import opened CollapseLaws

  /** The manager's state with, per cursor, the mutations it was given and the ones it was owed since it
      registered: those ahead of it then, and all queued since. `mark` is what the persistence cursor had been
      given at the last `itemsPersisted`. `missed` holds the mutations that a collapse made a cursor skip;
      `rewound` tells that the last full collapse reused an id that counted as persisted, and that nothing was
      reported persisted since. A collapse that sends a cursor back
      to the beginning counts as registering it anew. */
  datatype History = History(v: View, given: map<Name, seq<Item>>, owed: map<Name, seq<Item>>, mark: seq<Item>,
                             missed: map<Name, set<Item>>, rewound: bool)

  /** What the manager can do; a refused mutation leaves its sequence number taken. A mutation is queued only
      with a key and into the open checkpoint's range; only an empty open checkpoint gets a new start of range. */
  datatype Action =
    | Queue(x: Item)
    | Refuse(seqno: nat)
    | Advance(n: Name)
    | Drain(n: Name)
    | CloseOpen
    | RollOver(id: nat, snapStart: nat, snapEnd: nat)
    | SetRange(snapStart: nat, snapEnd: nat)
    | Remove(k: nat)
    | MergeClosed
    | MergeAll(id: nat)
    | Join(n: Name, c: Cur)
    | Leave(n: Name)
    | Persisted

  ghost predicate Enabled(v: View, a: Action)
    requires Inv(v)
  {
    match a
    case Queue(x) =>
      && v.Back().phase.Open? && x.IsMutation() && x.key != "" && v.last < x.seqno
      && v.Back().snapStart <= x.seqno <= v.Back().snapEnd
    case Refuse(seqno) => v.last < seqno
    case Advance(n) => n in v.cursors
    case Drain(n) => n in v.cursors
    case CloseOpen => true
    case RollOver(id, _, _) => v.Back().id < id
    case SetRange(s, _) => s == v.Back().snapStart || (v.Back().phase.Open? && v.Back().muts == [])
    case Remove(k) => k <= |v.chks| && Removable(v, k)
    case MergeClosed => true
    case MergeAll(id) => id > 0
    case Join(n, c) => n != PERSISTENCE && CurIn(v.chks, c)
    case Leave(n) => n != PERSISTENCE
    case Persisted => PERSISTENCE in v.cursors
  }

  ghost function NextView(v: View, a: Action): View
    requires Inv(v) && Enabled(v, a)
  {
    match a
    case Queue(x) => Enqueue(v, x)
    case Refuse(seqno) => v.(last := seqno)
    case Advance(n) => Move(v, n, Step(v.chks, v.cursors[n]))
    case Drain(n) => Move(v, n, LastPlace(v.chks, v.cursors[n]))
    case CloseOpen => Close(v)
    case RollOver(id, s, e) => Roll(v, id, s, e)
    case SetRange(s, e) => WithRange(v, s, e)
    case Remove(k) => RemovePrefix(v, k)
    case MergeClosed => CollapseClosed(v)
    case MergeAll(id) => CollapseAll(v, id)
    case Join(n, c) => Move(v, n, c)
    case Leave(n) => v.(cursors := v.cursors - {n})
    case Persisted => v.(preId := v.chks[v.cursors[PERSISTENCE].chk].id - 1)
  }

  /** The checkpoints that an action merges. */
  ghost function MergedRange(v: View, a: Action): seq<Chk>
    requires |v.chks| > 0
  {
    match a
    case MergeAll(_) => v.chks
    case MergeClosed => if |v.chks| > 2 && !CollapseBlocked(v) then v.chks[..|v.chks| - 1] else []
    case _ => []
  }

  /** Whether an action re-places cursor `c`. */
  ghost predicate Replaced(v: View, a: Action, c: Cur)
    requires |v.chks| > 0
  {
    var r := MergedRange(v, a);
    r != [] && CurIn(r, c) && (a.MergeClosed? ==> c.chk < |r| - 1)
  }

  ghost predicate Restarts(v: View, a: Action, c: Cur)
    requires |v.chks| > 0
  {
    Replaced(v, a, c) && c.fromBeginning
  }

  ghost predicate Skips(v: View, a: Action, c: Cur)
    requires |v.chks| > 0
  {
    Replaced(v, a, c) && !c.fromBeginning && LosesNext(MergedRange(v, a), c)
  }

  /** The mutation an action makes a cursor skip, if any. */
  ghost function SkippedBy(v: View, a: Action, c: Cur): set<Item>
    requires |v.chks| > 0
  {
    if Skips(v, a, c) then {MutsAhead(MergedRange(v, a), c)[0]} else {}
  }

  ghost predicate Tracked(h: History) {
    && Inv(h.v) && h.given.Keys == h.owed.Keys == h.missed.Keys == h.v.cursors.Keys && PERSISTENCE in h.v.cursors
  }

  /** What a cursor is handed by an action. */
  ghost function Delta(v: View, a: Action, n: Name): seq<Item>
    requires n in v.cursors && CurIn(v.chks, v.cursors[n])
  {
    var c := v.cursors[n];
    if a == Advance(n) && !AtEnd(v.chks, c) then
      var d := Step(v.chks, c); if d.chk < |v.chks| && d.pos < v.chks[d.chk].Size() then Mutations([v.chks[d.chk].Items()[d.pos]]) else []
    else if a == Drain(n) then MutsAhead(v.chks, c)
    else []
  }

  /** Whether an action registers the cursor, directly or by sending it back to the beginning. */
  ghost predicate Begins(v: View, a: Action, n: Name)
    requires |v.chks| > 0
  {
    (a.Join? && a.n == n) || (n in v.cursors && Restarts(v, a, v.cursors[n]))
  }

  ghost function NextGiven(h: History, a: Action, n: Name): seq<Item>
    requires Tracked(h)
  {
    if Begins(h.v, a, n) || n !in h.given then [] else h.given[n] + Delta(h.v, a, n)
  }

  ghost function NextOwed(h: History, a: Action, w: View, n: Name): seq<Item>
    requires Tracked(h) && n in w.cursors
  {
    if Begins(h.v, a, n) || n !in h.owed then if CurIn(w.chks, w.cursors[n]) then MutsAhead(w.chks, w.cursors[n]) else []
    else h.owed[n] + if a.Queue? then [a.x] else []
  }

  ghost function NextMissed(h: History, a: Action, n: Name): set<Item>
    requires Tracked(h)
  {
    if Begins(h.v, a, n) || n !in h.missed then {} else h.missed[n] + SkippedBy(h.v, a, h.v.cursors[n])
  }

  /** The history after an action that makes the manager's state `w`. */
  ghost function Next(h: History, a: Action, w: View): History
    requires Tracked(h)
  {
    History(w,
            map n | n in w.cursors :: NextGiven(h, a, n),
            map n | n in w.cursors :: NextOwed(h, a, w, n),
            if a.Persisted? then h.given[PERSISTENCE] else h.mark,
            map n | n in w.cursors :: NextMissed(h, a, n),
            if a.Persisted? then false else if a.MergeAll? then a.id <= h.v.preId else h.rewound)
  }

  // ---- Every step keeps the invariant

  lemma {:induction false} StepInv(v: View, a: Action)
    requires Inv(v) && PERSISTENCE in v.cursors && Enabled(v, a)
    ensures Inv(NextView(v, a))
  {
    hide ChksInv, Enqueue, Close, Roll, RemovePrefix, CollapseClosed, CollapseAll, Move, Removable, WithRange;
    match a
    case Queue(x) => EnqueueInv(v, x);
    case Refuse(seqno) => LaterInv(v, seqno);
    case CloseOpen => CloseInv(v);
    case RollOver(id, s, e) => RollInv(v, id, s, e);
    case SetRange(s, e) => WithRangeInv(v, s, e);
    case Remove(k) =>
      SomeLeft(v, k);
      RemoveInv(v, k);
    case MergeClosed => CollapseClosedInv(v);
    case MergeAll(id) => CollapseAllInv(v, id);
    case Advance(n) =>
      StepAhead(v.chks, v.cursors[n]);
      MoveInv(v, n, Step(v.chks, v.cursors[n]));
    case Drain(n) => MoveInv(v, n, LastPlace(v.chks, v.cursors[n]));
    case Join(n, c) => MoveInv(v, n, c);
    case Leave(n) =>
    case Persisted =>
  }

  // ---- What a step does to the mutations ahead of a cursor

  /** The mutations beyond the merged checkpoints. */
  ghost function Beyond(v: View, a: Action): seq<Item>
    requires |v.chks| > 0
  {
    if a.MergeClosed? then v.Back().muts else []
  }

  /** A merge compacts what the cursor had ahead among the merged checkpoints, or leaves it alone. */
  ghost predicate Compacted(v: View, a: Action, c: Cur, ahead: seq<Item>, ahead': seq<Item>)
    requires |v.chks| > 0 && Replaced(v, a, c)
  {
    var y := MutsAhead(MergedRange(v, a), c);
    && ahead == y + Beyond(v, a)
    && (Skips(v, a, c) ==> KeepLast(y) != [])
    && ahead' == (if Skips(v, a, c) then KeepLast(y)[1..] else KeepLast(y)) + Beyond(v, a)
  }

  lemma {:induction false} MergeAllChange(v: View, id: nat, n: Name)
    requires Inv(v) && id > 0 && n in v.cursors && !v.cursors[n].fromBeginning
    ensures var a, w, c := MergeAll(id), CollapseAll(v, id), v.cursors[n];
            && CurIn(w.chks, w.cursors[n]) && Replaced(v, a, c)
            && Compacted(v, a, c, MutsAhead(v.chks, c), MutsAhead(w.chks, w.cursors[n]))
  {
    hide ChksInv, CollapseAll, KeepLast, AllMuts, LosesNext, MutsAhead;
    CollapseAllAhead(v, id, n);
    assert CurIn(v.chks, v.cursors[n]);
  }

  lemma {:induction false} MergeClosedChange(v: View, n: Name)
    requires Inv(v) && n in v.cursors && !Restarts(v, MergeClosed, v.cursors[n])
    ensures var a, w, c := MergeClosed, CollapseClosed(v), v.cursors[n];
            && CurIn(w.chks, w.cursors[n])
            && if Replaced(v, a, c) then Compacted(v, a, c, MutsAhead(v.chks, c), MutsAhead(w.chks, w.cursors[n]))
               else MutsAhead(w.chks, w.cursors[n]) == MutsAhead(v.chks, c)
  {
    hide ChksInv, KeepLast, AllMuts, LosesNext, Merged, MutsAhead;
    var c := v.cursors[n];
    assert CurIn(v.chks, c);
    if |v.chks| > 2 && !CollapseBlocked(v) {
      if c.chk >= |v.chks| - 2 {
        CollapseClosedKept(v, n);
      } else {
        CollapseClosedSlow(v, n);
        AheadOfEarlier(v.chks, c);
      }
    }
  }

  lemma {:induction false} AdvancedAhead(cs: seq<Chk>, c: Cur)
    requires ChksInv(cs) && CurIn(cs, c)
    ensures var d := Step(cs, c);
            && CurIn(cs, d)
            && MutsAhead(cs, c) == (if AtEnd(cs, c) then [] else Mutations([cs[d.chk].Items()[d.pos]])) + MutsAhead(cs, d)
  {
    hide ChksInv, Chk.Items, Chk.Size, MutsAhead, Ahead;
    var d := Step(cs, c);
    StepAhead(cs, c);
    AheadMutations(cs, c);
    AheadMutations(cs, d);
    if !AtEnd(cs, c) {
      MutationsOfConcat([cs[d.chk].Items()[d.pos]], Ahead(cs, d));
    }
  }

  /** A cursor is handed `d` from the front of what it has ahead. */
  ghost predicate HandsOver(cs: seq<Chk>, c: Cur, d: seq<Item>, cs': seq<Chk>, c': Cur) {
    CurIn(cs, c) && CurIn(cs', c') && MutsAhead(cs, c) == d + MutsAhead(cs', c')
  }

  lemma {:induction false} RemoveHands(v: View, k: nat, n: Name)
    requires k <= |v.chks| && Removable(v, k) && n in v.cursors && CurIn(v.chks, v.cursors[n])
    ensures HandsOver(v.chks, v.cursors[n], [], RemovePrefix(v, k).chks, RemovePrefix(v, k).cursors[n])
  {
    RemoveAhead(v.chks, k, v.cursors[n]);
  }

  lemma {:induction false} MoveHands(v: View, m: Name, c: Cur, n: Name)
    requires n in v.cursors && CurIn(v.chks, v.cursors[n]) && CurIn(v.chks, c)
    ensures n != m ==> HandsOver(v.chks, v.cursors[n], [], Move(v, m, c).chks, Move(v, m, c).cursors[n])
  {
  }

  lemma {:induction false} AdvanceHands(v: View, n: Name)
    requires ChksInv(v.chks) && n in v.cursors && CurIn(v.chks, v.cursors[n])
    ensures var w := Move(v, n, Step(v.chks, v.cursors[n]));
            HandsOver(v.chks, v.cursors[n], Delta(v, Advance(n), n), w.chks, w.cursors[n])
  {
    hide ChksInv, MutsAhead, Chk.Items;
    AdvancedAhead(v.chks, v.cursors[n]);
  }

  lemma {:induction false} DrainHands(v: View, n: Name)
    requires n in v.cursors && CurIn(v.chks, v.cursors[n])
    ensures var w := Move(v, n, LastPlace(v.chks, v.cursors[n]));
            HandsOver(v.chks, v.cursors[n], Delta(v, Drain(n), n), w.chks, w.cursors[n])
  {
    DrainedAhead(v.chks, v.cursors[n]);
  }

  lemma {:induction false} SameHands(v: View, w: View, n: Name)
    requires n in v.cursors && n in w.cursors && CurIn(v.chks, v.cursors[n]) && CurIn(w.chks, w.cursors[n])
    requires MutsAhead(v.chks, v.cursors[n]) == MutsAhead(w.chks, w.cursors[n])
    ensures HandsOver(v.chks, v.cursors[n], [], w.chks, w.cursors[n])
  {
    hide MutsAhead;
  }

  lemma {:induction false} PlainFacts(v: View, a: Action, n: Name)
    requires Inv(v) && n in v.cursors
    ensures |v.chks| > 0 && ChksInv(v.chks) && CurIn(v.chks, v.cursors[n]) && forall m :: m in v.cursors ==> CurIn(v.chks, v.cursors[m])
    ensures a == Advance(n) || a == Drain(n) || Delta(v, a, n) == []
  {
    hide MutsAhead;
  }

  /** Short of queueing and merging, a step only hands over mutations from the front. */
  lemma {:induction false} PlainChange(h: History, a: Action, w: View, n: Name)
    requires Tracked(h) && Enabled(h.v, a) && w == NextView(h.v, a) && n in h.v.cursors && n in w.cursors
    requires !a.Queue? && !a.MergeClosed? && !a.MergeAll? && !Begins(h.v, a, n)
    ensures HandsOver(h.v.chks, h.v.cursors[n], Delta(h.v, a, n), w.chks, w.cursors[n])
  {
    hide HandsOver, MutsAhead, Inv, Roll, Close, WithRange, RemovePrefix, Step, LastPlace, Delta, Restarts, CurIn, Enqueue,
         CollapseClosed, CollapseAll, Removable, AtEnd, Ahead;
    var v, c := h.v, h.v.cursors[n];
    PlainFacts(v, a, n);
    match a
    case Refuse(seqno) => SameHands(v, w, n);
    case CloseOpen =>
      CloseAhead(v, c);
      SameHands(v, w, n);
    case SetRange(s, e) =>
      RangeAhead(v, s, e, c);
      SameHands(v, w, n);
    case RollOver(id, s, e) =>
      RollAhead(v, id, s, e, n);
      SameHands(v, w, n);
    case Remove(k) => RemoveHands(v, k, n);
    case Advance(m) =>
      StepAhead(v.chks, v.cursors[m]);
      MoveHands(v, m, Step(v.chks, v.cursors[m]), n);
      if m == n { AdvanceHands(v, n); }
    case Drain(m) =>
      DrainedAhead(v.chks, v.cursors[m]);
      MoveHands(v, m, LastPlace(v.chks, v.cursors[m]), n);
      if m == n { DrainHands(v, n); }
    case Join(m, d) => MoveHands(v, m, d, n);
    case Leave(m) => SameHands(v, w, n);
    case Persisted => SameHands(v, w, n);
  }

  // ---- What each cursor can rely on

  /** The missed mutations were queued before and occur nowhere in `s`. */
  ghost predicate Apart(s: seq<Item>, missed: set<Item>, last: nat) {
    forall x :: x in missed ==> x !in s && x.seqno <= last
  }

  /** What is given and ahead comes in increasing order, holds nothing missed, and means what the cursor was
      owed on exactly the keys whose last write the cursor did not miss. */
  ghost predicate Fair(v: View, c: Cur, given: seq<Item>, owed: seq<Item>, missed: set<Item>) {
    && CurIn(v.chks, c)
    && Increasing(given + MutsAhead(v.chks, c))
    && (forall x :: x in given ==> x.seqno <= v.last)
    && Apart(given + MutsAhead(v.chks, c), missed, v.last)
    && Agrees(given + MutsAhead(v.chks, c), owed, missed)
  }

  ghost predicate AllFair(h: History) {
    Tracked(h) && forall n :: n in h.v.cursors ==> Fair(h.v, h.v.cursors[n], h.given[n], h.owed[n], h.missed[n])
  }

  lemma {:induction false} AheadBounds(v: View, c: Cur)
    requires Inv(v) && CurIn(v.chks, c)
    ensures Increasing(MutsAhead(v.chks, c))
    ensures forall x :: x in MutsAhead(v.chks, c) ==> x.seqno <= v.last
  {
    hide MutsAhead, AllMuts, MutsBehind, ChksInv, Increasing;
    AllMutsOrdered(v.chks);
    BehindAndAhead(v.chks, c);
    TailOrdered(MutsBehind(v.chks, c), MutsAhead(v.chks, c));
  }

  lemma {:induction false} FairAtStart(v: View, c: Cur)
    requires Inv(v) && CurIn(v.chks, c)
    ensures Fair(v, c, [], MutsAhead(v.chks, c), {})
  {
    hide MutsAhead;
    AheadBounds(v, c);
    AgreesWithItself(MutsAhead(v.chks, c));
    assert [] + MutsAhead(v.chks, c) == MutsAhead(v.chks, c);
  }

  lemma {:induction false} ApartAppended(g: seq<Item>, s: seq<Item>, x: Item, t: seq<Item>, missed: set<Item>, last: nat)
    requires Appended(s, x, t) && Apart(g + s, missed, last) && last < x.seqno
    ensures x !in missed && Apart(g + t, missed, x.seqno)
  {
    forall y | y in g + t ensures y in g + s || y == x {
      if t != s + [x] {
        var i :| 0 <= i < |s| && s[i].key == x.key && t == Without(s, i) + [x];
        assert forall z :: z in Without(s, i) ==> z in s;
      }
    }
  }

  lemma {:induction false} FairAfterQueue(v: View, x: Item, n: Name, given: seq<Item>, owed: seq<Item>, missed: set<Item>)
    requires Inv(v) && v.Back().phase.Open? && x.IsMutation() && v.last < x.seqno && n in v.cursors
    requires Fair(v, v.cursors[n], given, owed, missed)
    ensures Fair(Enqueue(v, x), Enqueue(v, x).cursors[n], given, owed + [x], missed)
  {
    hide MutsAhead, Inv, Enqueue, Increasing, Agrees, Appended, Apart;
    EnqueueAhead(v, x, n);
    AheadBounds(v, v.cursors[n]);
    var a, a' := MutsAhead(v.chks, v.cursors[n]), MutsAhead(Enqueue(v, x).chks, Enqueue(v, x).cursors[n]);
    assert Enqueue(v, x).last == x.seqno;
    AppendedIncreasing(given, a, x, a');
    ApartAppended(given, a, x, a', missed, v.last);
    AgreesAfterAppend(given, a, x, a', owed, missed);
  }

  lemma {:induction false} FairAfterHandover(v: View, w: View, c: Cur, c': Cur, d: seq<Item>, given: seq<Item>, owed: seq<Item>, missed: set<Item>)
    requires Inv(v) && v.last <= w.last && HandsOver(v.chks, c, d, w.chks, c') && Fair(v, c, given, owed, missed)
    ensures Fair(w, c', given + d, owed, missed)
  {
    hide MutsAhead, Inv, Increasing, Agrees;
    AheadBounds(v, c);
    assert given + (d + MutsAhead(w.chks, c')) == given + d + MutsAhead(w.chks, c');
  }

  lemma {:induction false} FairAfterMerge(v: View, a: Action, w: View, c: Cur, c': Cur, given: seq<Item>, owed: seq<Item>, missed: set<Item>)
    requires |v.chks| > 0 && Replaced(v, a, c) && v.last == w.last && CurIn(w.chks, c') && Fair(v, c, given, owed, missed)
    requires Inv(v) && Compacted(v, a, c, MutsAhead(v.chks, c), MutsAhead(w.chks, c'))
    ensures Fair(w, c', given, owed, missed + SkippedBy(v, a, c))
  {
    hide MutsAhead, KeepLast, Skips, MergedRange, Beyond, Agrees, Apart, Increasing, Inv, FirstSurvives;
    RangeHasCursor(v, a, c);
    var y, r := MutsAhead(MergedRange(v, a), c), Beyond(v, a);
    AheadBounds(v, c);
    FairAfterCompaction(given, y, r, owed, missed, v.last);
    if Skips(v, a, c) {
      SkipsFirst(v, a, c);
      FirstOfKept(y);
      assert KeepLast(y) + r == [y[0]] + (KeepLast(y)[1..] + r);
      FairAfterSkip(given, y[0], KeepLast(y)[1..] + r, owed, missed, v.last);
    } else {
      assert missed + {} == missed;
    }
  }

  lemma {:induction false} RangeHasCursor(v: View, a: Action, c: Cur)
    requires |v.chks| > 0 && Replaced(v, a, c)
    ensures CurIn(MergedRange(v, a), c)
  {
    hide MergedRange;
  }

  lemma {:induction false} SkipsFirst(v: View, a: Action, c: Cur)
    requires |v.chks| > 0 && Skips(v, a, c)
    ensures CurIn(MergedRange(v, a), c) && FirstSurvives(MutsAhead(MergedRange(v, a), c))
  {
    hide MergedRange, MutsAhead, MutsBehind;
  }

  /** The first of `y` is the last write of its key in `y`. */
  ghost predicate FirstSurvives(y: seq<Item>) {
    y != [] && !HasKey(y[1..], y[0].key)
  }

  lemma {:induction false} FirstOfKept(y: seq<Item>)
    requires FirstSurvives(y)
    ensures y != [] && KeepLast(y) != [] && KeepLast(y) == [y[0]] + KeepLast(y)[1..]
  {
  }

  lemma {:induction false} FairAfterCompaction(g: seq<Item>, y: seq<Item>, r: seq<Item>, owed: seq<Item>, missed: set<Item>, last: nat)
    requires Increasing(g + (y + r)) && Apart(g + (y + r), missed, last) && Agrees(g + (y + r), owed, missed)
    ensures var s := g + (KeepLast(y) + r); Increasing(s) && Apart(s, missed, last) && Agrees(s, owed, missed)
  {
    hide Agrees, KeepLast, HasKey, DistinctKeys, AllMutations;
    assert Increasing(y) by {
      assert forall i :: 0 <= i < |y| ==> y[i] == (g + (y + r))[|g| + i];
    }
    KeepLastSubsequence(y);
    hide Increasing;
    CompactedIncreasing(g, y, KeepLast(y), r);
    AgreesAfterCompaction(g, y, r, owed, missed);
  }

  lemma {:induction false} FairAfterSkip(g: seq<Item>, x: Item, s: seq<Item>, owed: seq<Item>, missed: set<Item>, last: nat)
    requires Increasing(g + ([x] + s)) && Apart(g + ([x] + s), missed, last) && Agrees(g + ([x] + s), owed, missed)
    requires x.seqno <= last
    ensures Increasing(g + s) && Apart(g + s, missed + {x}, last) && Agrees(g + s, owed, missed + {x})
  {
    hide Agrees;
    var u := g + ([x] + s);
    assert u[|g|] == x;
    assert forall i :: 0 <= i < |g + s| ==> (g + s)[i] == u[if i < |g| then i else i + 1];
    assert x !in g + s;
    assert forall y :: y in g + s ==> y in u;
    AgreesAfterSkip(g, x, s, owed, missed);
  }

  // ---- Runs

  lemma {:induction false} NextViewFacts(h: History, a: Action, w: View)
    requires Tracked(h) && Enabled(h.v, a) && w == NextView(h.v, a)
    ensures Inv(w) && w.last >= h.v.last
    ensures w.cursors.Keys == (match a case Join(n, _) => h.v.cursors.Keys + {n} case Leave(n) => h.v.cursors.Keys - {n} case _ => h.v.cursors.Keys)
  {
    hide ChksInv, CurIn, Enqueue, Roll, RemovePrefix, CollapseClosed, CollapseAll, Step, LastPlace, Removable;
    StepInv(h.v, a);
    match a
    case Join(n, c) => assert w.cursors.Keys == h.v.cursors.Keys + {n};
    case Leave(n) => assert w.cursors.Keys == h.v.cursors.Keys - {n};
    case Advance(n) => assert w.cursors.Keys == h.v.cursors.Keys;
    case Drain(n) => assert w.cursors.Keys == h.v.cursors.Keys;
    case _ =>
  }

  lemma {:induction false} FairAfterPlain(h: History, a: Action, w: View, n: Name)
    requires AllFair(h) && Enabled(h.v, a) && w == NextView(h.v, a) && Inv(w) && n in h.v.cursors && n in w.cursors
    requires !a.Queue? && !a.MergeClosed? && !a.MergeAll? && !Begins(h.v, a, n)
    ensures Fair(w, w.cursors[n], h.given[n] + Delta(h.v, a, n), h.owed[n], h.missed[n])
  {
    hide Inv, Enabled, NextView, Fair, Delta, Begins;
    NextViewFacts(h, a, w);
    PlainChange(h, a, w, n);
    FairAfterHandover(h.v, w, h.v.cursors[n], w.cursors[n], Delta(h.v, a, n), h.given[n], h.owed[n], h.missed[n]);
  }

  lemma {:induction false} FairAfterMergeAll(v: View, id: nat, n: Name, given: seq<Item>, owed: seq<Item>, missed: set<Item>)
    requires Inv(v) && id > 0 && n in v.cursors && !v.cursors[n].fromBeginning && Fair(v, v.cursors[n], given, owed, missed)
    ensures var w := CollapseAll(v, id);
            Fair(w, w.cursors[n], given, owed, missed + SkippedBy(v, MergeAll(id), v.cursors[n]))
  {
    hide ChksInv, MutsAhead, Fair, CollapseAll, Compacted, LosesNext;
    MergeAllChange(v, id, n);
    FairAfterMerge(v, MergeAll(id), CollapseAll(v, id), v.cursors[n], CollapseAll(v, id).cursors[n], given, owed, missed);
  }

  lemma {:induction false} FairAfterMergeClosed(v: View, n: Name, given: seq<Item>, owed: seq<Item>, missed: set<Item>)
    requires Inv(v) && n in v.cursors && !Restarts(v, MergeClosed, v.cursors[n]) && Fair(v, v.cursors[n], given, owed, missed)
    ensures var w := CollapseClosed(v);
            Fair(w, w.cursors[n], given, owed, missed + SkippedBy(v, MergeClosed, v.cursors[n]))
  {
    hide ChksInv, MutsAhead, Fair, CollapseClosed, Compacted, LosesNext, Restarts, Replaced;
    var w, c := CollapseClosed(v), v.cursors[n];
    assert CurIn(v.chks, c);
    MergeClosedChange(v, n);
    if Replaced(v, MergeClosed, c) {
      FairAfterMerge(v, MergeClosed, w, c, w.cursors[n], given, owed, missed);
    } else {
      SameHands(v, w, n);
      FairAfterHandover(v, w, c, w.cursors[n], [], given, owed, missed);
      assert given + [] == given && missed + SkippedBy(v, MergeClosed, c) == missed;
    }
  }

  /** How the record of a cursor that does not begin grows. */
  lemma {:induction false} StepRecord(h: History, a: Action, w: View, n: Name)
    requires Tracked(h) && n in h.v.cursors && n in w.cursors && !Begins(h.v, a, n) && CurIn(h.v.chks, h.v.cursors[n])
    ensures NextGiven(h, a, n) == h.given[n] + Delta(h.v, a, n)
    ensures NextOwed(h, a, w, n) == h.owed[n] + if a.Queue? then [a.x] else []
    ensures |h.v.chks| > 0 && (NextMissed(h, a, n) == h.missed[n] + SkippedBy(h.v, a, h.v.cursors[n]))
  {
    hide ChksInv, Delta, Skips, MutsAhead, Begins, CurIn;
  }

  lemma {:induction false} NoSkip(v: View, a: Action, c: Cur)
    requires |v.chks| > 0 && !a.MergeClosed? && !a.MergeAll?
    ensures SkippedBy(v, a, c) == {}
  {
  }

  lemma {:induction false} FairAfterStep(h: History, a: Action, w: View, n: Name)
    requires AllFair(h) && Enabled(h.v, a) && w == NextView(h.v, a) && Inv(w) && n in h.v.cursors && n in w.cursors && !Begins(h.v, a, n)
    ensures CurIn(h.v.chks, h.v.cursors[n]) && |h.v.chks| > 0
    ensures Fair(w, w.cursors[n], h.given[n] + Delta(h.v, a, n), h.owed[n] + (if a.Queue? then [a.x] else []),
                 h.missed[n] + SkippedBy(h.v, a, h.v.cursors[n]))
  {
    hide Inv, Fair, MutsAhead, Enqueue, Close, Roll, RemovePrefix, WithRange, CollapseClosed, CollapseAll, Skips, Removable,
         Step, LastPlace, Delta, CurIn, Replaced;
    var g, o := h.given[n], h.owed[n];
    assert g + [] == g && o + [] == o && h.missed[n] + {} == h.missed[n];
    PlainFacts(h.v, a, n);
    match a
    case Queue(x) =>
      NoSkip(h.v, a, h.v.cursors[n]);
      FairAfterQueue(h.v, x, n, g, o, h.missed[n]);
    case MergeAll(id) =>
      RestartsAll(h.v, id, n);
      FairAfterMergeAll(h.v, id, n, g, o, h.missed[n]);
    case MergeClosed => FairAfterMergeClosed(h.v, n, g, o, h.missed[n]);
    case _ =>
      NoSkip(h.v, a, h.v.cursors[n]);
      FairAfterPlain(h, a, w, n);
  }

  lemma {:induction false} RestartsAll(v: View, id: nat, n: Name)
    requires Inv(v) && n in v.cursors && !Restarts(v, MergeAll(id), v.cursors[n])
    ensures !v.cursors[n].fromBeginning
  {
    assert CurIn(v.chks, v.cursors[n]);
  }

  lemma {:induction false} StepFairTo(h: History, a: Action, w: View, n: Name)
    requires AllFair(h) && Enabled(h.v, a) && w == NextView(h.v, a) && Inv(w) && n in w.cursors
    ensures Fair(w, w.cursors[n], NextGiven(h, a, n), NextOwed(h, a, w, n), NextMissed(h, a, n))
  {
    hide Fair, MutsAhead, NextView, Delta, Skips, Enabled, ChksInv, Restarts, CurIn;
    NextViewFacts(h, a, w);
    if Begins(h.v, a, n) {
      FairAtStart(w, w.cursors[n]);
    } else {
      FairAfterStep(h, a, w, n);
      StepRecord(h, a, w, n);
    }
  }

  lemma {:induction false} NextTracked(h: History, a: Action, w: View)
    requires Tracked(h) && Inv(w) && PERSISTENCE in w.cursors
    ensures Tracked(Next(h, a, w))
  {
    hide Inv, NextGiven, NextOwed, NextMissed;
    assert Next(h, a, w).given.Keys == w.cursors.Keys && Next(h, a, w).owed.Keys == w.cursors.Keys
           && Next(h, a, w).missed.Keys == w.cursors.Keys;
  }

  lemma {:induction false} NextFair(h: History, a: Action, w: View)
    requires Tracked(h) && Tracked(Next(h, a, w))
    requires forall n :: n in w.cursors ==> Fair(w, w.cursors[n], NextGiven(h, a, n), NextOwed(h, a, w, n), NextMissed(h, a, n))
    ensures AllFair(Next(h, a, w))
  {
    hide Inv, Fair, NextGiven, NextOwed, NextMissed, Tracked;
  }

  ghost predicate Steps(h: History, a: Action, h': History) {
    Tracked(h) && Enabled(h.v, a) && h' == Next(h, a, NextView(h.v, a))
  }

  lemma {:induction false} PersistenceStays(h: History, a: Action, w: View)
    requires Tracked(h) && Enabled(h.v, a) && w == NextView(h.v, a)
    ensures PERSISTENCE in w.cursors
  {
    hide NextView, Inv;
    NextViewFacts(h, a, w);
  }

  /** Every step is fair to every cursor. */
  lemma {:induction false} StepFair(h: History, a: Action, h': History)
    requires AllFair(h) && Steps(h, a, h')
    ensures AllFair(h')
  {
    hide Inv, Fair, NextGiven, NextOwed, NextMissed, NextView, Next, Enabled;
    var w := NextView(h.v, a);
    NextViewFacts(h, a, w);
    PersistenceStays(h, a, w);
    NextTracked(h, a, w);
    forall n | n in w.cursors
      ensures Fair(w, w.cursors[n], NextGiven(h, a, n), NextOwed(h, a, w, n), NextMissed(h, a, n))
    {
      StepFairTo(h, a, w, n);
    }
    NextFair(h, a, w);
  }

  /** A new manager: one open checkpoint and the persistence cursor at its beginning. */
  ghost predicate Initial(h: History) {
    && |h.v.chks| == 1 && h.v.chks[0].id > 0 && h.v.chks[0].muts == [] && h.v.chks[0].phase == Open
    && h.v.chks[0].base == h.v.last && h.v.preId == 0
    && h.v.cursors == map[PERSISTENCE := Cur(0, 0, false, false)]
    && h.given == map[PERSISTENCE := []] && h.owed == map[PERSISTENCE := []]
    && h.missed == map[PERSISTENCE := {}] && h.mark == [] && !h.rewound
  }

  /** `hs` is the history of a run that takes the actions `acts` from a new manager. */
  ghost predicate IsRun(hs: seq<History>, acts: seq<Action>) {
    && |hs| == |acts| + 1 && Initial(hs[0])
    && forall i :: 0 <= i < |acts| ==> Steps(hs[i], acts[i], hs[i + 1])
  }

  lemma {:induction false} InitialTracked(h: History)
    requires Initial(h)
    ensures Tracked(h)
  {
  }

  lemma {:induction false} InitialFair(h: History)
    requires Initial(h)
    ensures AllFair(h)
  {
    hide ChksInv, Fair;
    InitialTracked(h);
    FairAtStart(h.v, h.v.cursors[PERSISTENCE]);
    assert MutsAhead(h.v.chks, h.v.cursors[PERSISTENCE]) == [];
  }

  lemma {:induction false} RunIsFair(hs: seq<History>, acts: seq<Action>)
    requires IsRun(hs, acts)
    ensures AllFair(hs[|acts|])
  {
    hide Initial, AllFair, Steps;
    if acts == [] {
      InitialFair(hs[0]);
    } else {
      var k := |acts| - 1;
      assert IsRun(hs[..k + 1], acts[..k]);
      RunIsFair(hs[..k + 1], acts[..k]);
      assert Steps(hs[k], acts[k], hs[k + 1]);
      StepFair(hs[k], acts[k], hs[k + 1]);
    }
  }

  /** No lost update: after any run, for every cursor and key, what the cursor was given and what it has ahead
      replay, on any map, to what all it was owed since it registered replays to, if and only if no collapse made
      the cursor skip the last write of that key. */
  lemma {:induction false} NoLostUpdate(hs: seq<History>, acts: seq<Action>, n: Name, k: Key)
    requires IsRun(hs, acts)
    ensures var h := hs[|acts|];
            n in h.v.cursors ==>
              && n in h.given && n in h.owed && n in h.missed && CurIn(h.v.chks, h.v.cursors[n])
              && var s := h.given[n] + MutsAhead(h.v.chks, h.v.cursors[n]);
              ((forall base :: At(Replay(s, base), k) == At(Replay(h.owed[n], base), k)) <==> !Misses(h.owed[n], k, h.missed[n]))
  {
    hide MutsAhead, Increasing, Apart, Replay, Initial, Steps;
    RunIsFair(hs, acts);
    var h := hs[|acts|];
    if n in h.v.cursors {
      assert Fair(h.v, h.v.cursors[n], h.given[n], h.owed[n], h.missed[n]);
      ReplaysAgree(h.given[n] + MutsAhead(h.v.chks, h.v.cursors[n]), h.owed[n], k);
    }
  }

  /** In particular a cursor that no collapse made skip ends with the same map. */
  lemma {:induction false} UnskippedGetsAll(hs: seq<History>, acts: seq<Action>, n: Name, base: map<Key, Item>)
    requires IsRun(hs, acts)
    ensures var h := hs[|acts|];
            n in h.v.cursors && n in h.missed && h.missed[n] == {} ==>
              && n in h.given && n in h.owed && CurIn(h.v.chks, h.v.cursors[n])
              && Replay(h.given[n] + MutsAhead(h.v.chks, h.v.cursors[n]), base) == Replay(h.owed[n], base)
  {
    hide MutsAhead, Increasing, Apart, Replay, Initial, Steps;
    RunIsFair(hs, acts);
    var h := hs[|acts|];
    if n in h.v.cursors && h.missed[n] == {} {
      var s, t := h.given[n] + MutsAhead(h.v.chks, h.v.cursors[n]), h.owed[n];
      forall k ensures At(Replay(s, base), k) == At(Replay(t, base), k) {
        ReplayAt(s, base, k);
        ReplayAt(t, base, k);
      }
      SameMaps(Replay(s, base), Replay(t, base));
    }
  }

  /** Every cursor is given mutations in strictly increasing order, and all it has ahead is newer still. */
  lemma {:induction false} GivenInOrder(hs: seq<History>, acts: seq<Action>, n: Name)
    requires IsRun(hs, acts)
    ensures var h := hs[|acts|];
            n in h.v.cursors ==>
              && n in h.given && CurIn(h.v.chks, h.v.cursors[n])
              && Increasing(h.given[n] + MutsAhead(h.v.chks, h.v.cursors[n]))
  {
    hide IsRun, MutsAhead, Increasing, Agrees, Apart;
    RunIsFair(hs, acts);
  }
}
