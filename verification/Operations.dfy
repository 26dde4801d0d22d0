/** The manager's calls are runs of its elementary actions, so what holds over all runs holds of every sequence of calls. */
module Operations {
  import opened Log
  import opened Checkpoints
  import opened CheckpointLaws
  import opened Runs
  import opened SafeRemoval
  import opened Removal
  import opened ManagerFacts
  import Snapshots

  ghost predicate Plays(v: View, acts: seq<Action>, w: View)
    decreases acts
  {
    && Inv(v) && PERSISTENCE in v.cursors
    && if acts == [] then w == v else Enabled(v, acts[0]) && Plays(NextView(v, acts[0]), acts[1..], w)
  }

  lemma {:induction false} PlaysConcat(v: View, a: seq<Action>, u: View, b: seq<Action>, w: View)
    requires Plays(v, a, u) && Plays(u, b, w)
    ensures Plays(v, a + b, w)
    decreases a
  {
    hide Inv, Enabled, NextView;
    if a == [] {
      assert a + b == b;
    } else {
      PlaysConcat(NextView(v, a[0]), a[1..], u, b, w);
      assert (a + b)[1..] == a[1..] + b;
    }
  }

  lemma {:induction false} PlaysOne(v: View, a: Action, w: View)
    requires Inv(v) && PERSISTENCE in v.cursors && Enabled(v, a) && w == NextView(v, a) && PERSISTENCE in w.cursors
    ensures Plays(v, [a], w)
  {
    hide Inv, Enabled, NextView;
    StepInv(v, a);
    assert Plays(w, [], w);
  }

  lemma {:induction false} PlaysEnds(v: View, acts: seq<Action>, w: View)
    requires Plays(v, acts, w)
    ensures Inv(w) && PERSISTENCE in w.cursors
    decreases acts
  {
    hide Inv, Enabled, NextView;
    if acts != [] {
      PlaysEnds(NextView(v, acts[0]), acts[1..], w);
    }
  }

  /** No cursor is handed anything. */
  ghost predicate Silent(acts: seq<Action>) {
    forall i :: 0 <= i < |acts| ==> !acts[i].Advance? && !acts[i].Drain?
  }

  /** The mutations that a run queues, in order. */
  function QueuedItems(acts: seq<Action>): seq<Item> {
    if acts == [] then [] else (if acts[0].Queue? then [acts[0].x] else []) + QueuedItems(acts[1..])
  }

  lemma {:induction false} QueuedOfConcat(a: seq<Action>, b: seq<Action>)
    ensures QueuedItems(a + b) == QueuedItems(a) + QueuedItems(b)
  {
    if a == [] {
      assert a + b == b;
    } else {
      var head := if a[0].Queue? then [a[0].x] else [];
      assert (a + b)[1..] == a[1..] + b;
      QueuedOfConcat(a[1..], b);
      assert head + (QueuedItems(a[1..]) + QueuedItems(b)) == (head + QueuedItems(a[1..])) + QueuedItems(b);
    }
  }

  lemma {:induction false} QueuedOfOne(a: Action)
    ensures QueuedItems([a]) == if a.Queue? then [a.x] else []
  {
    assert [a][1..] == [];
  }

  /** Nothing is handed to a cursor and nothing queued. */
  ghost predicate Quiet(acts: seq<Action>) {
    Silent(acts) && QueuedItems(acts) == []
  }

  lemma {:induction false} QuietOne(a: Action)
    requires !a.Advance? && !a.Drain? && !a.Queue?
    ensures Quiet([a]) && Quiet([])
  {
    QueuedOfOne(a);
  }

  lemma {:induction false} QuietConcat(a: seq<Action>, b: seq<Action>)
    requires Quiet(a) && Quiet(b)
    ensures Quiet(a + b)
  {
    QueuedOfConcat(a, b);
  }

  // ---- Queueing

  lemma {:induction false} PrepareIsRun(v: View, active: bool, maxCheckpoints: nat, wantNew: bool) returns (acts: seq<Action>)
    requires Inv(v) && PERSISTENCE in v.cursors
    ensures Plays(v, acts, Snapshots.Prepared(v, active, maxCheckpoints, wantNew)) && Quiet(acts)
  {
    hide Inv, Roll, Snapshots.RoomForOne, Plays;
    BackThere(v);
    var w := Snapshots.Prepared(v, active, maxCheckpoints, wantNew);
    if w == v {
      acts := [];
      PlaysNothing(v);
    } else {
      var a := RollOver(v.Back().id + 1, v.last, v.last);
      acts := [a];
      QuietOne(a);
      PlaysOne(v, a, w);
    }
  }

  lemma {:induction false} BackThere(v: View)
    requires Inv(v)
    ensures |v.chks| > 0
  {
  }

  lemma {:induction false} PlaysNothing(v: View)
    requires Inv(v) && PERSISTENCE in v.cursors
    ensures Plays(v, [], v)
  {
    hide Inv;
  }

  lemma {:induction false} RangedIsRun(v: View, genSeqno: bool) returns (acts: seq<Action>)
    requires Inv(v) && PERSISTENCE in v.cursors && |v.chks| > 0
    ensures Plays(v, acts, Snapshots.Ranged(v, genSeqno)) && Quiet(acts)
  {
    hide Inv, Plays;
    if genSeqno {
      var a := SetRange(v.Back().snapStart, v.last + 1);
      acts := [a];
      QuietOne(a);
      PlaysOne(v, a, Snapshots.Ranged(v, genSeqno));
    } else {
      acts := [];
      PlaysNothing(v);
    }
  }

  /** A call of `queueDirty`, accepted or refused. */
  lemma {:induction false} QueueIsRun(v: View, active: bool, maxCheckpoints: nat, wantNew: bool, x: Item, genSeqno: bool) returns (acts: seq<Action>)
    requires Inv(v) && PERSISTENCE in v.cursors && x.IsMutation() && x.key != "" && (!genSeqno ==> v.last < x.seqno)
    ensures |v.chks| > 0 && Plays(v, acts, Snapshots.Queued(v, active, maxCheckpoints, wantNew, x, genSeqno)) && Silent(acts)
    ensures QueuedItems(acts) == if Snapshots.Accepted(v, active, maxCheckpoints, wantNew, x, genSeqno)
                                 then [x.(seqno := if genSeqno then v.last + 1 else x.seqno)] else []
  {
    hide Inv, Plays, Snapshots.Prepared, Snapshots.Ranged, Enqueue, QueuedItems;
    BackThere(v);
    var u := Snapshots.Prepared(v, active, maxCheckpoints, wantNew);
    acts := PrepareIsRun(v, active, maxCheckpoints, wantNew);
    PlaysEnds(v, acts, u);
    if u.Back().phase.Open? {
      var r, s := Snapshots.Ranged(u, genSeqno), Snapshots.SeqnoFor(u, x, genSeqno);
      var more := RangedIsRun(u, genSeqno);
      PlaysConcat(v, acts, u, more, r);
      PlaysEnds(u, more, r);
      var a := if Snapshots.InRange(u, x, genSeqno) then Queue(x.(seqno := s)) else Refuse(s);
      PlaysOne(r, a, Snapshots.Queued(v, active, maxCheckpoints, wantNew, x, genSeqno));
      PlaysConcat(v, acts + more, r, [a], Snapshots.Queued(v, active, maxCheckpoints, wantNew, x, genSeqno));
      QuietConcat(acts, more);
      QueuedOfConcat(acts + more, [a]);
      QueuedOfOne(a);
      acts := acts + more + [a];
    }
  }

  lemma {:induction false} SnapshotIsRun(v: View, s: nat, e: nat) returns (acts: seq<Action>)
    requires Inv(v) && PERSISTENCE in v.cursors
    ensures |v.chks| > 0 && Plays(v, acts, Snapshots.CreateSnapshot(v, s, e)) && Quiet(acts)
  {
    hide Inv, Plays, Roll;
    BackThere(v);
    var a := if v.Back().phase.Open? && v.Back().muts == [] then SetRange(s, e) else RollOver(v.Back().id + 1, s, e);
    acts := [a];
    QuietOne(a);
    PlaysOne(v, a, Snapshots.CreateSnapshot(v, s, e));
  }

  lemma {:induction false} ResetIsRun(v: View) returns (acts: seq<Action>)
    requires Inv(v) && PERSISTENCE in v.cursors
    ensures |v.chks| > 0 && Plays(v, acts, Snapshots.ResetRange(v)) && Quiet(acts)
  {
    hide Inv, Plays;
    BackThere(v);
    var w := Snapshots.ResetRange(v);
    acts := [SetRange(w.Back().snapStart, w.Back().snapEnd)];
    QuietOne(acts[0]);
    PlaysOne(v, acts[0], w);
  }

  // ---- Cleaning up

  /** A call of `removeClosedUnrefCheckpoints`. */
  lemma {:induction false} CleanUpIsRun(v: View, opens: bool, k: nat, keepClosed: bool, maxCheckpoints: nat, merges: bool) returns (acts: seq<Action>, w: View)
    requires Inv(v) && PERSISTENCE in v.cursors && |v.chks| > 0
    requires RemovesTo(if opens then Snapshots.NextOpen(v) else v, k, keepClosed, maxCheckpoints)
    ensures var r := RemovePrefix(if opens then Snapshots.NextOpen(v) else v, k);
            && |r.chks| > 0 && (forall n :: n in r.cursors ==> CurIn(r.chks, r.cursors[n]))
            && w == if merges then CollapseClosed(r) else r
    ensures Plays(v, acts, w) && Quiet(acts)
  {
    hide Plays, Roll, CollapseClosed, RemovePrefix, ChksInv;
    var u := if opens then Snapshots.NextOpen(v) else v;
    acts := OpenIsRun(v, opens);
    PlaysEnds(v, acts, u);
    var r := RemovePrefix(u, k);
    acts := ThenOne(v, acts, u, Remove(k), r);
    PlaysEnds(v, acts, r);
    w := r;
    if merges {
      w := CollapseClosed(r);
      acts := ThenOne(v, acts, r, MergeClosed, w);
    }
  }

  lemma {:induction false} OpenIsRun(v: View, opens: bool) returns (acts: seq<Action>)
    requires Inv(v) && PERSISTENCE in v.cursors && |v.chks| > 0
    ensures Plays(v, acts, if opens then Snapshots.NextOpen(v) else v) && Quiet(acts)
  {
    hide Inv, Plays, Roll;
    acts := [];
    PlaysNothing(v);
    if opens {
      acts := [RollOver(v.Back().id + 1, v.last, v.last)];
      QuietOne(acts[0]);
      PlaysOne(v, acts[0], Snapshots.NextOpen(v));
    }
  }

  lemma {:induction false} ThenOne(v: View, acts: seq<Action>, u: View, a: Action, w: View) returns (more: seq<Action>)
    requires Plays(v, acts, u) && Quiet(acts) && !a.Advance? && !a.Drain? && !a.Queue?
    requires Inv(u) && PERSISTENCE in u.cursors && Enabled(u, a) && w == NextView(u, a) && PERSISTENCE in w.cursors
    ensures Plays(v, more, w) && Quiet(more)
  {
    hide Inv, Plays, Enabled, NextView;
    PlaysOne(u, a, w);
    PlaysConcat(v, acts, u, [a], w);
    QuietOne(a);
    QuietConcat(acts, [a]);
    more := acts + [a];
  }

  // ---- From calls to histories

  /** The first action of a run, as a step of the history. */
  lemma {:induction false} FirstStep(h: History, acts: seq<Action>, w: View) returns (h': History)
    requires Tracked(h) && acts != [] && Plays(h.v, acts, w)
    ensures Steps(h, acts[0], h') && Tracked(h') && Plays(h'.v, acts[1..], w)
  {
    hide Enabled, NextView, Inv, NextGiven, NextOwed, NextMissed;
    var v' := NextView(h.v, acts[0]);
    h' := Next(h, acts[0], v');
    PlaysStart(v', acts[1..], w);
    NextTracked(h, acts[0], v');
  }

  /** Any such sequence of actions, from a tracked state, has a history: what is proved of all runs applies to it. */
  lemma {:induction false} PlaysHasHistory(h: History, acts: seq<Action>, w: View) returns (hs: seq<History>)
    requires Tracked(h) && Plays(h.v, acts, w)
    ensures |hs| == |acts| + 1 && hs[0] == h && hs[|acts|].v == w
    ensures forall i :: 0 <= i < |acts| ==> Steps(hs[i], acts[i], hs[i + 1])
    decreases acts
  {
    hide Steps, Tracked, Plays;
    hs := [h];
    if acts == [] {
      PlaysNowhere(h.v, w);
    } else {
      var h' := FirstStep(h, acts, w);
      var rest := PlaysHasHistory(h', acts[1..], w);
      hs := [h] + rest;
      forall i | 0 <= i < |acts| ensures Steps(hs[i], acts[i], hs[i + 1]) {
        if i > 0 {
          assert Steps(rest[i - 1], acts[1..][i - 1], rest[i]);
        }
      }
    }
  }

  lemma {:induction false} PlaysNowhere(v: View, w: View)
    requires Plays(v, [], w)
    ensures v == w
  {
    hide Inv;
  }

  lemma {:induction false} PlaysStart(v: View, acts: seq<Action>, w: View)
    requires Plays(v, acts, w)
    ensures Inv(v) && PERSISTENCE in v.cursors
  {
    hide Inv;
  }

  // ---- What a cursor is owed

  /** The cursor is there before and after the step, and does not begin again. */
  ghost predicate StaysOn(h: History, a: Action, h': History, n: Name) {
    Steps(h, a, h') && n in h.v.cursors && n in h'.v.cursors && !Begins(h.v, a, n)
  }

  ghost function OwedTo(h: History, n: Name): seq<Item> {
    if n in h.owed then h.owed[n] else []
  }

  /** As long as a cursor stays on, it is owed what it was owed at first and all that is queued from then on. */
  lemma {:induction false} OwedGrows(hs: seq<History>, acts: seq<Action>, n: Name)
    requires |hs| == |acts| + 1 && forall i :: 0 <= i < |acts| ==> StaysOn(hs[i], acts[i], hs[i + 1], n)
    ensures OwedTo(hs[|acts|], n) == OwedTo(hs[0], n) + QueuedItems(acts)
    decreases acts
  {
    hide StaysOn, QueuedItems, OwedTo;
    if acts == [] {
      NothingQueued();
      assert OwedTo(hs[0], n) + [] == OwedTo(hs[0], n);
    } else {
      var k := |acts| - 1;
      OwedGrows(hs[..k + 1], acts[..k], n);
      assert StaysOn(hs[k], acts[k], hs[k + 1], n);
      StepOwed(hs[k], acts[k], hs[k + 1], n);
      assert acts == acts[..k] + [acts[k]];
      QueuedOfConcat(acts[..k], [acts[k]]);
      QueuedOfOne(acts[k]);
      assert OwedTo(hs[0], n) + (QueuedItems(acts[..k]) + QueuedItems([acts[k]])) == (OwedTo(hs[0], n) + QueuedItems(acts[..k])) + QueuedItems([acts[k]]);
    }
  }

  lemma {:induction false} NothingQueued()
    ensures QueuedItems([]) == []
  {
  }

  lemma {:induction false} StepOwed(h: History, a: Action, h': History, n: Name)
    requires StaysOn(h, a, h', n)
    ensures OwedTo(h', n) == OwedTo(h, n) + if a.Queue? then [a.x] else []
  {
    hide ChksInv, NextView, Enabled, Begins, NextGiven, NextMissed, MutsAhead, CurIn;
  }

  /** In any run the persistence cursor is owed exactly what was queued. */
  lemma {:induction false} PersistenceOwed(hs: seq<History>, acts: seq<Action>)
    requires IsRun(hs, acts)
    ensures OwedTo(hs[|acts|], PERSISTENCE) == QueuedItems(acts)
  {
    hide Steps, Initial, OwedTo, QueuedItems, StaysOn;
    forall i | 0 <= i < |acts| ensures StaysOn(hs[i], acts[i], hs[i + 1], PERSISTENCE) {
      assert IsRun(hs[..i + 1], acts[..i]);
      RunPersistence(hs[..i + 1], acts[..i]);
      assert Steps(hs[i], acts[i], hs[i + 1]);
      PersistenceStaysOn(hs[i], acts[i], hs[i + 1]);
    }
    OwedGrows(hs, acts, PERSISTENCE);
    NoneOwed(hs[0]);
    assert [] + QueuedItems(acts) == QueuedItems(acts);
  }

  lemma {:induction false} NoneOwed(h: History)
    requires Initial(h)
    ensures OwedTo(h, PERSISTENCE) == []
  {
  }

  lemma {:induction false} PersistenceStaysOn(h: History, a: Action, h': History)
    requires Tracked(h) && PersistenceInv(h) && Steps(h, a, h')
    ensures StaysOn(h, a, h', PERSISTENCE)
  {
    hide ChksInv, NextView, Covered, Marked, NextGiven, NextOwed, NextMissed, Replaced;
    PersistenceStays(h, a, h'.v);
    NextRecord(h, a, h'.v);
  }

  // ---- What the result of a queueing tells

  lemma {:induction false} CountHere(b: Chk, x: Item, pos: nat)
    requires b.phase.Open? && pos < b.Size()
    ensures var i, b' := Find(b.muts, x.key), b.(muts := Append(b.muts, x));
            var pos' := if i < |b.muts| && pos >= i + 2 then pos - 1 else pos;
            |b'.muts| - b'.Given(pos') == |b.muts| - b.Given(pos) + if i < |b.muts| && pos < i + 2 then 0 else 1
  {
    hide Append, Find;
    AppendLength(b.muts, x);
  }

  lemma {:induction false} CountEarlier(v: View, x: Item, n: Name)
    requires |v.chks| > 0 && n in v.cursors && v.cursors[n].chk < |v.chks| - 1 && CurIn(v.chks, v.cursors[n])
    ensures Enqueue(v, x).cursors[n] == v.cursors[n] && CurIn(Enqueue(v, x).chks, v.cursors[n])
    ensures |MutsAhead(Enqueue(v, x).chks, v.cursors[n])| ==
            |MutsAhead(v.chks, v.cursors[n])| + if Find(v.Back().muts, x.key) < |v.Back().muts| then 0 else 1
  {
    hide Append, MutsAhead, Chk.Size;
    var w, c := Enqueue(v, x), v.cursors[n];
    AheadOfEarlier(v.chks, c);
    AheadOfEarlier(w.chks, c);
    assert w.chks[..|w.chks| - 1] == v.chks[..|v.chks| - 1];
    AppendLength(v.Back().muts, x);
  }

  /** `queueDirty` answers true exactly when the persistence cursor has one more mutation to come than before. */
  lemma {:induction false} QueuedCount(v: View, x: Item)
    requires Inv(v) && v.Back().phase.Open? && PERSISTENCE in v.cursors
    ensures CurIn(v.chks, v.cursors[PERSISTENCE]) && CurIn(Enqueue(v, x).chks, Enqueue(v, x).cursors[PERSISTENCE])
    ensures |MutsAhead(Enqueue(v, x).chks, Enqueue(v, x).cursors[PERSISTENCE])| ==
            |MutsAhead(v.chks, v.cursors[PERSISTENCE])| + if Result(v, x.key) == EXISTING_ITEM then 0 else 1
  {
    hide ChksInv, MutsAhead, Append, Find, Appended, Chk.Given;
    var w, c := Enqueue(v, x), v.cursors[PERSISTENCE];
    EnqueueAhead(v, x, PERSISTENCE);
    if c.chk < |v.chks| - 1 {
      CountEarlier(v, x, PERSISTENCE);
    } else {
      CountHere(v.Back(), x, c.pos);
      LastAhead(v.chks, c);
      LastAhead(w.chks, w.cursors[PERSISTENCE]);
    }
  }

  // ---- Draining is repeated stepping

  /** The items of `k` steps, and where they lead. */
  ghost function Stepped(cs: seq<Chk>, c: Cur, k: nat): (r: (seq<Item>, Cur))
    requires CurIn(cs, c)
    decreases k
  {
    var d := Step(cs, c);
    if k == 0 || !CurIn(cs, d) then ([], c) else
    var rest := Stepped(cs, d, k - 1);
    ([cs[d.chk].Items()[d.pos]] + rest.0, rest.1)
  }

  lemma {:induction false} SteppedAhead(cs: seq<Chk>, c: Cur, k: nat)
    requires CurIn(cs, c) && k <= |Ahead(cs, c)|
    ensures var r := Stepped(cs, c, k);
            && CurIn(cs, r.1) && Ahead(cs, c) == r.0 + Ahead(cs, r.1) && |r.0| == k && r.1 == c.(chk := r.1.chk, pos := r.1.pos)
    decreases k
  {
    hide Ahead, Step, Chk.Items, AtEnd;
    StepAhead(cs, c);
    if k == 0 {
      assert [] + Ahead(cs, c) == Ahead(cs, c);
    } else {
      var d := Step(cs, c);
      var x, rest := cs[d.chk].Items()[d.pos], Stepped(cs, d, k - 1);
      SteppedAhead(cs, d, k - 1);
      assert [x] + (rest.0 + Ahead(cs, rest.1)) == ([x] + rest.0) + Ahead(cs, rest.1);
    }
  }

  /** As many steps as there are items ahead give exactly what one drain gives and leave the cursor where it does,
      with nothing left to count. */
  lemma {:induction false} DrainIsStepping(cs: seq<Chk>, c: Cur)
    requires CurIn(cs, c)
    ensures Stepped(cs, c, |Ahead(cs, c)|) == (Ahead(cs, c), LastPlace(cs, c))
    ensures MutsAhead(cs, LastPlace(cs, c)) == []
  {
    hide Ahead, LastPlace, MutsAhead, Chk.Items, Stepped;
    var r := Stepped(cs, c, |Ahead(cs, c)|);
    SteppedAhead(cs, c, |Ahead(cs, c)|);
    StepAhead(cs, r.1);
    DrainedTo(cs, c, r.1, r.0);
    DrainedAhead(cs, c);
  }
}
