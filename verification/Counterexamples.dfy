/** Runs in which the two collapses break what holds otherwise. */
module Counterexamples {
  import opened Log
  import opened Checkpoints
  import opened CollapseLaws
  import opened Runs
  import opened SafeRemoval
  import opened SafeCollapses

  /** A new manager whose first checkpoint has the given id and the range of one mutation. */
  ghost function Begin(id: nat): History {
    History(View([Chk(id, 0, 1, 0, [], Open)], map[PERSISTENCE := Cur(0, 0, false, false)], 0, 0),
            map[PERSISTENCE := []], map[PERSISTENCE := []], [], map[PERSISTENCE := {}], false)
  }

  /** A mutation that a manager takes, with the given number. */
  predicate Mutates(x: Item, seqno: nat) {
    x.IsMutation() && x.key != "" && x.seqno == seqno
  }

  lemma {:induction false} BeginSound(id: nat)
    requires id > 0
    ensures Initial(Begin(id)) && Sound(Begin(id))
  {
    hide Sound;
    assert Initial(Begin(id));
    assert IsRun([Begin(id)], []);
    RunSound([Begin(id)], []);
  }

  /** What a step does to the persistence cursor's record. */
  lemma {:induction false} TakeStep(h: History, a: Action) returns (h': History)
    requires Sound(h) && Enabled(h.v, a)
    ensures Steps(h, a, h') && Sound(h') && h'.v == NextView(h.v, a)
    ensures |h.v.chks| > 0 && h'.missed[PERSISTENCE] == h.missed[PERSISTENCE] + SkippedBy(h.v, a, h.v.cursors[PERSISTENCE])
    ensures h'.mark == if a.Persisted? then h.given[PERSISTENCE] else h.mark
    ensures h'.rewound == if a.Persisted? then false else if a.MergeAll? then a.id <= h.v.preId else h.rewound
    ensures h'.owed[PERSISTENCE] == h.owed[PERSISTENCE] + if a.Queue? then [a.x] else []
  {
    hide ChksInv, Fair, Covered, Marked, NextView, NextGiven, NextOwed, NextMissed, Enabled, SkippedBy;
    h' := Next(h, a, NextView(h.v, a));
    AfterMerge(h, a, h');
    NextRecord(h, a, h'.v);
    StepRecord(h, a, h'.v, PERSISTENCE);
  }

  // ---- A mutation that a collapse makes the persistence cursor skip

  /** A cursor reads the checkpoint_start of a second checkpoint, and the next mutation carries its number. */
  ghost function LosingScript(a: Item, b: Item): seq<Action> {
    [Queue(a), Drain(PERSISTENCE), RollOver(2, 1, 2), Drain(PERSISTENCE), Queue(b), MergeAll(2), RollOver(3, 2, 2), Persisted]
  }

  /** One open checkpoint, with the persistence cursor at `pos`. */
  function One(id: nat, muts: seq<Item>, pos: nat, last: nat, preId: nat): View {
    View([Chk(id, 0, 1, 0, muts, Open)], map[PERSISTENCE := Cur(0, pos, false, false)], last, preId)
  }

  /** A closed checkpoint with `a`, and an open one with `muts`, where the persistence cursor is. */
  function Two(a: Item, muts: seq<Item>, pos: nat, last: nat): View {
    View([Chk(1, 0, 1, 0, [a], Closed(1)), Chk(2, 1, 2, 1, muts, Open)], map[PERSISTENCE := Cur(1, pos, false, false)], last, 0)
  }

  lemma {:induction false} QueueFirst(id: nat, x: Item, preId: nat)
    ensures Enqueue(One(id, [], 0, 0, preId), x) == One(id, [x], 0, x.seqno, preId)
  {
    var w := Enqueue(One(id, [], 0, 0, preId), x);
    assert w.cursors == map[PERSISTENCE := Cur(0, 0, false, false)];
    assert Append([], x) == [x];
  }

  lemma {:induction false} DrainOne(id: nat, x: Item, pos: nat, preId: nat)
    ensures var v := One(id, [x], pos, 1, preId);
            Move(v, PERSISTENCE, LastPlace(v.chks, v.cursors[PERSISTENCE])) == One(id, [x], 2, 1, preId)
  {
    var v := One(id, [x], pos, 1, preId);
    assert v.cursors[PERSISTENCE := Cur(0, 2, false, false)] == map[PERSISTENCE := Cur(0, 2, false, false)];
  }

  lemma {:induction false} RollToTwo(a: Item)
    ensures Roll(One(1, [a], 2, 1, 0), 2, 1, 2) == Two(a, [], 0, 1)
  {
    var w := Roll(One(1, [a], 2, 1, 0), 2, 1, 2);
    assert w.cursors == map[PERSISTENCE := Cur(1, 0, false, false)];
    assert w.chks == Two(a, [], 0, 1).chks;
  }

  lemma {:induction false} DrainTwo(a: Item)
    ensures var v := Two(a, [], 0, 1);
            Move(v, PERSISTENCE, LastPlace(v.chks, v.cursors[PERSISTENCE])) == Two(a, [], 1, 1)
  {
    var v := Two(a, [], 0, 1);
    assert v.cursors[PERSISTENCE := Cur(1, 1, false, false)] == map[PERSISTENCE := Cur(1, 1, false, false)];
  }

  lemma {:induction false} QueueSecond(a: Item, b: Item)
    requires b.seqno == 2
    ensures Enqueue(Two(a, [], 1, 1), b) == Two(a, [b], 1, 2)
  {
    var w := Enqueue(Two(a, [], 1, 1), b);
    assert w.cursors == map[PERSISTENCE := Cur(1, 1, false, false)];
    assert Append([], b) == [b];
    assert w.chks == Two(a, [b], 1, 2).chks;
  }

  lemma {:induction false} TwoLose(a: Item, b: Item)
    requires a.key != b.key && b.seqno == 2
    ensures var v := Two(a, [b], 1, 2);
            var c := v.cursors[PERSISTENCE];
            CurIn(v.chks, c) && MutsAhead(v.chks, c) == [b] && LosesNext(v.chks, c)
  {
    var v := Two(a, [b], 1, 2);
    var c := v.cursors[PERSISTENCE];
    assert v.chks[..1] == [v.chks[0]];
    assert AllMuts([v.chks[0]]) == [a];
    assert MutsBehind(v.chks, c) == [a];
    assert a in MutsBehind(v.chks, c);
  }

  /** The merged checkpoint, behind the cursor that skipped `b`. */
  function Joined(a: Item, b: Item): View {
    View([Chk(2, 1, 2, 0, [a, b], Open)], map[PERSISTENCE := Cur(0, 3, false, false)], 2, 0)
  }

  lemma {:induction false} MergeTwo(a: Item, b: Item)
    requires Mutates(a, 1) && Mutates(b, 2) && a.key != b.key
    requires Inv(Two(a, [b], 1, 2))
    ensures CollapseAll(Two(a, [b], 1, 2), 2) == Joined(a, b)
  {
    hide ChksInv, MutsAhead, LosesNext, Place;
    var v := Two(a, [b], 1, 2);
    var w := CollapseAll(v, 2);
    MergedTwo(a, b);
    TwoLose(a, b);
    CollapseAllAhead(v, 2, PERSISTENCE);
    KeepLastOfDistinct([b]);
    CollapseAllInv(v, 2);
    NothingAhead(w.chks[0], w.cursors[PERSISTENCE]);
    assert w.cursors == map[PERSISTENCE := Cur(0, 3, false, false)];
  }

  lemma {:induction false} NothingAhead(m: Chk, c: Cur)
    requires CurIn([m], c) && MutsAhead([m], c) == [] && m.phase.Open? && |m.muts| == 2
    ensures c.chk == 0 && c.pos == 3
  {
  }

  lemma {:induction false} MergedTwo(a: Item, b: Item)
    requires a.key != b.key
    ensures CollapseAll(Two(a, [b], 1, 2), 2).chks == Joined(a, b).chks
  {
    hide Place;
    var v := Two(a, [b], 1, 2);
    var ds := v.WithBack(v.Back().(id := 2)).chks;
    assert ds[1..] == [v.chks[1]];
    assert Merged(ds) == Absorb(v.chks[1], v.chks[0]);
    assert [b][0].key == b.key;
    assert NotIn([a], [b]) == [a] && [a] + [b] == [a, b];
  }

  lemma {:induction false} RollJoined(a: Item, b: Item)
    ensures var w := Roll(Joined(a, b), 3, 2, 2);
            |w.chks| == 2 && w.chks[0].id == 2 && w.chks[1].id == 3 && w.chks[0].muts == [a, b]
            && w.cursors == map[PERSISTENCE := Cur(1, 0, false, false)]
  {
    var w := Roll(Joined(a, b), 3, 2, 2);
    assert w.cursors == map[PERSISTENCE := Cur(1, 0, false, false)];
  }

  lemma {:induction false} LosingStart(a: Item) returns (h1: History, h2: History, h3: History, h4: History)
    requires Mutates(a, 1)
    ensures Initial(Begin(1)) && Steps(Begin(1), Queue(a), h1) && Steps(h1, Drain(PERSISTENCE), h2)
    ensures Steps(h2, RollOver(2, 1, 2), h3) && Steps(h3, Drain(PERSISTENCE), h4)
    ensures Sound(h4) && h4.v == Two(a, [], 1, 1) && !h4.rewound
  {
    hide ChksInv, Fair, PersistenceInv, Initial, Steps, Enqueue, Roll, Move, CurIn;
    BeginSound(1);
    QueueFirst(1, a, 0);
    h1 := TakeStep(Begin(1), Queue(a));
    DrainOne(1, a, 0, 0);
    h2 := TakeStep(h1, Drain(PERSISTENCE));
    RollToTwo(a);
    h3 := TakeStep(h2, RollOver(2, 1, 2));
    DrainTwo(a);
    h4 := TakeStep(h3, Drain(PERSISTENCE));
  }

  lemma {:induction false} LosingMerge(a: Item, b: Item, h4: History) returns (h5: History, h6: History)
    requires Mutates(a, 1) && Mutates(b, 2) && a.key != b.key
    requires Sound(h4) && h4.v == Two(a, [], 1, 1) && !h4.rewound
    ensures Steps(h4, Queue(b), h5) && Steps(h5, MergeAll(2), h6)
    ensures Sound(h5) && h5.v == Two(a, [b], 1, 2) && b in h5.owed[PERSISTENCE]
    ensures Sound(h6) && h6.v == Joined(a, b) && b in h6.owed[PERSISTENCE] && b in h6.missed[PERSISTENCE] && !h6.rewound
  {
    hide ChksInv, Fair, PersistenceInv, Steps, Enqueue, CollapseAll, CurIn, LosesNext, MutsAhead;
    QueueSecond(a, b);
    h5 := TakeStep(h4, Queue(b));
    MergeTwo(a, b);
    TwoLose(a, b);
    h6 := TakeStep(h5, MergeAll(2));
    assert Skips(h5.v, MergeAll(2), h5.v.cursors[PERSISTENCE]);
  }

  lemma {:induction false} LosingEnd(a: Item, b: Item, h6: History) returns (h7: History, h8: History)
    requires Sound(h6) && h6.v == Joined(a, b) && b in h6.missed[PERSISTENCE] && !h6.rewound
    ensures Steps(h6, RollOver(3, 2, 2), h7) && Steps(h7, Persisted, h8)
    ensures Sound(h8) && |h8.v.chks| == 2 && Removable(h8.v, 1) && b in h8.v.chks[0].muts && b !in h8.given[PERSISTENCE]
    ensures !h8.rewound
  {
    hide ChksInv, Fair, PersistenceInv, Steps, Roll, CurIn;
    RollJoined(a, b);
    h7 := TakeStep(h6, RollOver(3, 2, 2));
    h8 := TakeStep(h7, Persisted);
    MissedNotGiven(h8, b);
  }

  /** A run in which a collapse takes away the one mutation that the persistence cursor still had to come, so
      that it is removed without ever being handed over, although no id was reused. */
  lemma {:induction false} CollapseCanLoseMutation(a: Item, b: Item) returns (hs: seq<History>)
    requires Mutates(a, 1) && Mutates(b, 2) && a.key != b.key
    ensures IsRun(hs, LosingScript(a, b))
    ensures var v, w, e, n := hs[5].v, hs[6].v, hs[8], PERSISTENCE;
            && n in v.cursors && CurIn(v.chks, v.cursors[n]) && MutsAhead(v.chks, v.cursors[n]) == [b]
            && n in w.cursors && CurIn(w.chks, w.cursors[n]) && MutsAhead(w.chks, w.cursors[n]) == []
            && |e.v.chks| > 1 && Removable(e.v, 1) && b in e.v.chks[0].muts
            && n in e.given && b !in e.given[n] && !e.rewound
  {
    hide Initial, Steps, Fair, PersistenceInv, Inv, Removable, Begin;
    var h1, h2, h3, h4 := LosingStart(a);
    var h5, h6 := LosingMerge(a, b, h4);
    TwoLose(a, b);
    var h7, h8 := LosingEnd(a, b, h6);
    hs := [Begin(1), h1, h2, h3, h4, h5, h6, h7, h8];
  }

  // ---- A checkpoint removed before it was persisted

  /** A collapse to id 1 while id 2 counts as persisted, then a drain and a rollover. */
  ghost function ReusingScript(x: Item): seq<Action> {
    [Persisted, Queue(x), MergeAll(1), Drain(PERSISTENCE), RollOver(2, 1, 1)]
  }

  lemma {:induction false} MergeOne(x: Item)
    ensures CurIn(One(3, [x], 0, 1, 2).chks, Cur(0, 0, false, false))
    ensures exists p :: CollapseAll(One(3, [x], 0, 1, 2), 1) == One(1, [x], p, 1, 2)
  {
    hide Place, Chk.Items;
    var v := One(3, [x], 0, 1, 2);
    var w := CollapseAll(v, 1);
    assert w.chks == [Chk(1, 0, 1, 0, [x], Open)];
    assert w.cursors == map[PERSISTENCE := w.cursors[PERSISTENCE]];
    assert w == One(1, [x], w.cursors[PERSISTENCE].pos, 1, 2);
  }

  lemma {:induction false} RollOne(x: Item)
    ensures var w := Roll(One(1, [x], 2, 1, 2), 2, 1, 1);
            |w.chks| == 2 && w.chks[0].id == 1 && w.chks[0].muts == [x] && w.preId == 2
            && w.cursors == map[PERSISTENCE := Cur(1, 0, false, false)]
  {
    var w := Roll(One(1, [x], 2, 1, 2), 2, 1, 1);
    assert w.cursors == map[PERSISTENCE := Cur(1, 0, false, false)];
  }

  lemma {:induction false} ReusingStart(x: Item) returns (h1: History, h2: History)
    requires Mutates(x, 1)
    ensures Initial(Begin(3)) && Steps(Begin(3), Persisted, h1) && Steps(h1, Queue(x), h2)
    ensures Sound(h2) && h2.v == One(3, [x], 0, 1, 2) && h2.mark == []
  {
    hide ChksInv, Fair, PersistenceInv, Initial, Steps, Enqueue, CurIn;
    BeginSound(3);
    h1 := TakeStep(Begin(3), Persisted);
    QueueFirst(3, x, 2);
    h2 := TakeStep(h1, Queue(x));
  }

  lemma {:induction false} ReusingMerge(x: Item, h2: History) returns (h3: History, h4: History)
    requires Sound(h2) && h2.v == One(3, [x], 0, 1, 2) && h2.mark == []
    ensures Steps(h2, MergeAll(1), h3) && Steps(h3, Drain(PERSISTENCE), h4)
    ensures Sound(h4) && h4.v == One(1, [x], 2, 1, 2) && h4.mark == [] && h4.rewound
  {
    hide ChksInv, Fair, PersistenceInv, Steps, Move, CollapseAll, CurIn;
    MergeOne(x);
    h3 := TakeStep(h2, MergeAll(1));
    var p :| h3.v == One(1, [x], p, 1, 2);
    DrainOne(1, x, p, 2);
    h4 := TakeStep(h3, Drain(PERSISTENCE));
  }

  lemma {:induction false} ReusingEnd(x: Item, h4: History) returns (h5: History)
    requires Sound(h4) && h4.v == One(1, [x], 2, 1, 2) && h4.mark == [] && h4.rewound
    ensures Steps(h4, RollOver(2, 1, 1), h5)
    ensures |h5.v.chks| > 1 && Removable(h5.v, 1) && x in h5.v.chks[0].muts && x !in h5.mark && h5.rewound
  {
    hide ChksInv, Fair, PersistenceInv, Steps, Roll, CurIn;
    RollOne(x);
    h5 := TakeStep(h4, RollOver(2, 1, 1));
  }

  /** A run in which a collapse reuses an id that counts as persisted, and a checkpoint may be removed whose
      mutation was handed to the persistence cursor but never reported persisted. */
  lemma {:induction false} RemovalCanPrecedePersistence(x: Item) returns (hs: seq<History>)
    requires Mutates(x, 1)
    ensures IsRun(hs, ReusingScript(x))
    ensures var h := hs[5];
            |h.v.chks| > 1 && Removable(h.v, 1) && x in h.v.chks[0].muts && x !in h.mark && h.rewound
  {
    hide Initial, Steps, Fair, PersistenceInv, Inv, Removable, Begin;
    var h1, h2 := ReusingStart(x);
    var h3, h4 := ReusingMerge(x, h2);
    var h5 := ReusingEnd(x, h4);
    hs := [Begin(3), h1, h2, h3, h4, h5];
  }
}
