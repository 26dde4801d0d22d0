/** Conflict resolution between a stored document and an incoming mutation, and where replicas that receive the same
    mutations in different orders end up. */
module ConflictResolution {

  datatype Meta = Meta(cas: nat, revSeqno: nat, flags: nat, exptime: nat)

  datatype Mode = RevisionSeqno | LastWriteWins

  /** A mutation of one key, and what a replica stores of it: a set or a deletion, with its metadata and mode. */
  datatype Mutation = Mutation(meta: Meta, deletion: bool, mode: Mode)

  /** `Absent` is the temporary item of a key that does not exist. */
  datatype Stored = Absent | Present(m: Mutation)

  // ---- The code

  function ResolveLww(v: Stored, meta: Meta, deletion: bool): bool {
    if v.Absent? then true
    else
      var s := v.m.meta;
      if s.cas > meta.cas then false
      else if s.cas == meta.cas then
        if s.revSeqno > meta.revSeqno then false
        else if s.revSeqno == meta.revSeqno then
          if deletion || s.exptime > meta.exptime then false
          else if s.exptime == meta.exptime then s.flags < meta.flags
          else true
        else true
      else true
  }

  function ResolveRevSeqno(v: Stored, meta: Meta, deletion: bool): bool {
    if v.Absent? then true
    else
      var s := v.m.meta;
      if s.revSeqno > meta.revSeqno then false
      else if s.revSeqno == meta.revSeqno then
        if s.cas > meta.cas then false
        else if s.cas == meta.cas then
          if deletion || s.exptime > meta.exptime then false
          else if s.exptime == meta.exptime then s.flags < meta.flags
          else true
        else true
      else true
  }

  /** Whether the incoming mutation wins. */
  function Resolve(timeSync: bool, v: Stored, meta: Meta, deletion: bool, mode: Mode): bool {
    if timeSync && (v.Present? ==> v.m.mode == LastWriteWins) && mode == LastWriteWins then ResolveLww(v, meta, deletion)
    else ResolveRevSeqno(v, meta, deletion)
  }

  function Apply(timeSync: bool, v: Stored, m: Mutation): Stored {
    if Resolve(timeSync, v, m.meta, m.deletion, m.mode) then Present(m) else v
  }

  /** What a replica that receives `ms` in order ends with. */
  function Fold(timeSync: bool, v: Stored, ms: seq<Mutation>): Stored
    decreases ms
  {
    if ms == [] then v else Fold(timeSync, Apply(timeSync, v, ms[0]), ms[1..])
  }

  // ---- The order behind it

  datatype Rank = Rank(first: nat, second: nat)

  predicate Lower(a: Rank, b: Rank) {
    a.first < b.first || (a.first == b.first && a.second < b.second)
  }

  /** The fields compared first, in the order of the mode in force. */
  function Major(lww: bool, m: Meta): Rank {
    if lww then Rank(m.cas, m.revSeqno) else Rank(m.revSeqno, m.cas)
  }

  function Minor(m: Meta): Rank { Rank(m.exptime, m.flags) }

  /** `w` ranks above `m`: by cas and revision, or, if it is a set, by expiry and flags among equals. */
  predicate Above(lww: bool, m: Mutation, w: Mutation) {
    Lower(Major(lww, m.meta), Major(lww, w.meta)) ||
    (Major(lww, m.meta) == Major(lww, w.meta) && !w.deletion && Lower(Minor(m.meta), Minor(w.meta)))
  }

  /** All mutations are under one mode; only with time synchronisation does it matter which. */
  ghost predicate Uniform(timeSync: bool, mode: Mode, xs: set<Mutation>, lww: bool) {
    lww == (timeSync && mode == LastWriteWins) && forall m :: m in xs ==> m.mode == mode
  }

  /** The code's decision is that order. */
  lemma {:induction false} ResolveIsAbove(timeSync: bool, mode: Mode, xs: set<Mutation>, lww: bool, s: Mutation, m: Mutation)
    requires Uniform(timeSync, mode, xs, lww) && s in xs && m in xs
    ensures Resolve(timeSync, Present(s), m.meta, m.deletion, m.mode) <==> Above(lww, s, m)
  {
  }

  // ---- Convergence

  function Elements(ms: seq<Mutation>): set<Mutation> { set m | m in ms }

  /** Whether `m` replaces a stored `s`. */
  predicate Beats(timeSync: bool, s: Mutation, m: Mutation) {
    Resolve(timeSync, Present(s), m.meta, m.deletion, m.mode)
  }

  /** `w` replaces every other mutation of `xs` and is replaced by none. */
  ghost predicate Best(timeSync: bool, xs: set<Mutation>, w: Mutation) {
    w in xs && forall m :: m in xs && m != w ==> Beats(timeSync, m, w) && !Beats(timeSync, w, m)
  }

  lemma {:induction false} FoldKeepsBest(timeSync: bool, xs: set<Mutation>, w: Mutation, ms: seq<Mutation>)
    requires Best(timeSync, xs, w) && Elements(ms) <= xs
    ensures Fold(timeSync, Present(w), ms) == Present(w)
  {
    hide Resolve;
    if ms != [] {
      assert ms[0] in Elements(ms);
      assert ms[0] != w ==> !Beats(timeSync, w, ms[0]);
      assert Elements(ms[1..]) <= Elements(ms);
      FoldKeepsBest(timeSync, xs, w, ms[1..]);
    }
  }

  /** A replica that gets to see the best mutation ends with it, whatever it held before. */
  lemma {:induction false} FoldReachesBest(timeSync: bool, xs: set<Mutation>, w: Mutation, v: Stored, ms: seq<Mutation>)
    requires Best(timeSync, xs, w) && Elements(ms) <= xs && w in ms && (v.Present? ==> v.m in xs)
    ensures Fold(timeSync, v, ms) == Present(w)
    decreases ms
  {
    assert ms[0] in Elements(ms);
    assert Elements(ms[1..]) <= Elements(ms);
    if ms[0] == w {
      assert v.Present? && v.m != w ==> Beats(timeSync, v.m, w);
      assert Apply(timeSync, v, w) == Present(w);
      FoldKeepsBest(timeSync, xs, w, ms[1..]);
    } else {
      FoldReachesBest(timeSync, xs, w, Apply(timeSync, v, ms[0]), ms[1..]);
    }
  }

  /** Without the mutation `w`, a replica does not come to hold it. */
  lemma {:induction false} FoldHoldsSeen(timeSync: bool, v: Stored, ms: seq<Mutation>, w: Mutation)
    requires v != Present(w) && w !in ms
    ensures Fold(timeSync, v, ms) != Present(w)
    decreases ms
  {
    hide Resolve;
    if ms != [] {
      FoldHoldsSeen(timeSync, Apply(timeSync, v, ms[0]), ms[1..], w);
    }
  }

  /** Some order of a finite set. */
  lemma {:induction false} SomeOrder(xs: set<Mutation>) returns (ms: seq<Mutation>)
    ensures Elements(ms) == xs
  {
    if xs == {} {
      ms := [];
    } else {
      var m :| m in xs;
      var rest := SomeOrder(xs - {m});
      ms := [m] + rest;
      ElementsOfConcat([m], rest);
      assert Elements([m]) == {m};
    }
  }

  lemma {:induction false} ElementsOfConcat(a: seq<Mutation>, b: seq<Mutation>)
    ensures Elements(a + b) == Elements(a) + Elements(b)
  {
  }

  lemma {:induction false} OneByOne(timeSync: bool, v: Stored, a: Mutation, b: Mutation, rest: seq<Mutation>)
    ensures Fold(timeSync, v, [a, b] + rest) == Fold(timeSync, Apply(timeSync, Apply(timeSync, v, a), b), rest)
  {
    hide Apply;
    assert ([a, b] + rest)[1..] == [b] + rest;
    assert ([b] + rest)[1..] == rest;
  }

  lemma {:induction false} FoldLast(timeSync: bool, v: Stored, ms: seq<Mutation>, m: Mutation)
    ensures Fold(timeSync, v, ms + [m]) == Apply(timeSync, Fold(timeSync, v, ms), m)
    decreases ms
  {
    hide Apply;
    if ms != [] {
      assert (ms + [m])[1..] == ms[1..] + [m];
      FoldLast(timeSync, Apply(timeSync, v, ms[0]), ms[1..], m);
    }
  }

  /** Every order in which a replica may receive `xs`, with any repetitions, ends with `w`. */
  ghost predicate Converges(timeSync: bool, xs: set<Mutation>, w: Mutation) {
    forall ms :: Elements(ms) == xs ==> Fold(timeSync, Absent, ms) == Present(w)
  }

  /** Else `m` received first would stay. */
  lemma {:induction false} MustBeat(timeSync: bool, xs: set<Mutation>, w: Mutation, m: Mutation)
    requires Converges(timeSync, xs, w) && w in xs && m in xs && m != w
    ensures Beats(timeSync, m, w)
  {
    hide Resolve;
    var rest := SomeOrder(xs - {m, w});
    var order := [m, w] + rest;
    assert w !in rest by {
      assert w in rest ==> w in Elements(rest);
    }
    ElementsOfConcat([m, w], rest);
    assert Elements([m, w]) == {m, w};
    assert Elements(order) == xs;
    OneByOne(timeSync, Absent, m, w, rest);
    AbsentTakes(timeSync, m);
    if !Beats(timeSync, m, w) {
      FoldHoldsSeen(timeSync, Present(m), rest, w);
    }
  }

  lemma {:induction false} AbsentTakes(timeSync: bool, m: Mutation)
    ensures Apply(timeSync, Absent, m) == Present(m)
  {
  }

  /** Else `m` received once more would replace it. */
  lemma {:induction false} MustHold(timeSync: bool, xs: set<Mutation>, w: Mutation, m: Mutation)
    requires Converges(timeSync, xs, w) && m in xs && m != w
    ensures !Beats(timeSync, w, m)
  {
    hide Resolve;
    var order := SomeOrder(xs);
    ElementsOfConcat(order, [m]);
    assert Elements([m]) == {m};
    assert Elements(order + [m]) == xs;
    FoldLast(timeSync, Absent, order, m);
  }

  /** Replicas converge to `w`, in every order and with any repetitions, exactly when `w` replaces every other
      mutation and is replaced by none: whatever the modes. */
  lemma {:induction false} ConvergesExactly(timeSync: bool, xs: set<Mutation>, w: Mutation)
    ensures Converges(timeSync, xs, w) <==> Best(timeSync, xs, w)
  {
    hide Fold, Beats;
    if Converges(timeSync, xs, w) {
      MustBeReceived(timeSync, xs, w);
      forall m | m in xs && m != w ensures Beats(timeSync, m, w) && !Beats(timeSync, w, m) {
        MustBeat(timeSync, xs, w, m);
        MustHold(timeSync, xs, w, m);
      }
    }
    if Best(timeSync, xs, w) {
      forall ms | Elements(ms) == xs ensures Fold(timeSync, Absent, ms) == Present(w) {
        assert w in Elements(ms);
        FoldReachesBest(timeSync, xs, w, Absent, ms);
      }
    }
  }

  lemma {:induction false} MustBeReceived(timeSync: bool, xs: set<Mutation>, w: Mutation)
    requires Converges(timeSync, xs, w)
    ensures w in xs
  {
    var order := SomeOrder(xs);
    if w !in xs {
      assert w in order ==> w in Elements(order);
      FoldHoldsSeen(timeSync, Absent, order, w);
    }
  }

  lemma {:induction false} HoldsSomething(timeSync: bool, v: Stored, ms: seq<Mutation>)
    requires v.Present? || ms != []
    ensures Fold(timeSync, v, ms).Present?
    decreases ms
  {
    if ms != [] {
      HoldsSomething(timeSync, Apply(timeSync, v, ms[0]), ms[1..]);
    }
  }

  /** All replicas that receive `xs` agree exactly when there is such a mutation. */
  lemma {:induction false} AgreeExactly(timeSync: bool, xs: set<Mutation>)
    requires xs != {}
    ensures (forall a, b :: Elements(a) == xs && Elements(b) == xs ==> Fold(timeSync, Absent, a) == Fold(timeSync, Absent, b))
            <==> exists w :: Best(timeSync, xs, w)
  {
    hide Fold, Best;
    var order := SomeOrder(xs);
    assert order != [] by {
      assert order == [] ==> Elements(order) == {};
    }
    HoldsSomething(timeSync, Absent, order);
    ConvergesExactly(timeSync, xs, Fold(timeSync, Absent, order).m);
    if w :| Best(timeSync, xs, w) {
      ConvergesExactly(timeSync, xs, w);
    }
  }

  // ---- Under one mode

  /** `w` ranks above every other mutation of `xs`. */
  ghost predicate Tops(lww: bool, xs: set<Mutation>, w: Mutation) {
    w in xs && forall m :: m in xs && m != w ==> Above(lww, m, w)
  }

  lemma {:induction false} TopsStays(lww: bool, w: Mutation, m: Mutation)
    requires Above(lww, m, w)
    ensures !Above(lww, w, m)
  {
  }

  /** Under one mode the best mutation is the one that ranks above every other. */
  lemma {:induction false} BestIsTop(timeSync: bool, mode: Mode, xs: set<Mutation>, lww: bool, w: Mutation)
    requires Uniform(timeSync, mode, xs, lww)
    ensures Best(timeSync, xs, w) <==> Tops(lww, xs, w)
  {
    hide Above, Resolve, Uniform;
    if w in xs {
      forall m | m in xs && m != w ensures Beats(timeSync, m, w) && !Beats(timeSync, w, m) <==> Above(lww, m, w) {
        ResolveIsAbove(timeSync, mode, xs, lww, m, w);
        ResolveIsAbove(timeSync, mode, xs, lww, w, m);
        if Above(lww, m, w) {
          TopsStays(lww, w, m);
        }
      }
    }
  }

  lemma {:induction false} ConvergesToTop(timeSync: bool, mode: Mode, xs: set<Mutation>, lww: bool, w: Mutation)
    requires Uniform(timeSync, mode, xs, lww)
    ensures Converges(timeSync, xs, w) <==> Tops(lww, xs, w)
  {
    hide Converges, Best, Tops;
    ConvergesExactly(timeSync, xs, w);
    BestIsTop(timeSync, mode, xs, lww, w);
  }

  lemma {:induction false} AboveTransitive(lww: bool, a: Mutation, b: Mutation, c: Mutation)
    requires Above(lww, a, b) && Above(lww, b, c)
    ensures Above(lww, a, c)
  {
  }

  /** Any two mutations are comparable: they are sets, or differ in cas or revision. */
  ghost predicate Comparable(xs: set<Mutation>) {
    forall a, b :: a in xs && b in xs && a != b ==>
      (!a.deletion && !b.deletion) || a.meta.cas != b.meta.cas || a.meta.revSeqno != b.meta.revSeqno
  }

  lemma {:induction false} OneIsAbove(timeSync: bool, mode: Mode, xs: set<Mutation>, lww: bool, a: Mutation, b: Mutation)
    requires Uniform(timeSync, mode, xs, lww) && Comparable(xs) && a in xs && b in xs && a != b
    ensures Above(lww, a, b) || Above(lww, b, a)
  {
    assert a.mode == b.mode;
  }

  lemma {:induction false} TopExists(timeSync: bool, mode: Mode, xs: set<Mutation>, lww: bool) returns (w: Mutation)
    requires Uniform(timeSync, mode, xs, lww) && Comparable(xs) && xs != {}
    ensures Tops(lww, xs, w)
    decreases xs
  {
    hide Above;
    var m :| m in xs;
    var rest := xs - {m};
    assert xs == rest + {m};
    if rest == {} {
      w := m;
    } else {
      var t := TopExists(timeSync, mode, rest, lww);
      OneIsAbove(timeSync, mode, xs, lww, m, t);
      w := if Above(lww, t, m) then m else t;
      forall x | x in xs && x != w ensures Above(lww, x, w) {
        if w == m && x != t {
          AboveTransitive(lww, x, t, m);
        }
      }
    }
  }

  lemma {:induction false} SomeElement(ms: seq<Mutation>)
    ensures ms != [] ==> Elements(ms) != {}
  {
    if ms != [] {
      assert ms[0] in Elements(ms);
    }
  }

  /** Under one mode, replicas that receive the same sets, or the same sets and deletions of which no deletion shares its
      revision and cas with another mutation, agree in the end, in whatever order and however often they receive them. */
  lemma {:induction false} ReplicasAgree(timeSync: bool, mode: Mode, xs: set<Mutation>, lww: bool, a: seq<Mutation>, b: seq<Mutation>)
    requires Uniform(timeSync, mode, xs, lww) && Comparable(xs) && Elements(a) == xs && Elements(b) == xs
    ensures Fold(timeSync, Absent, a) == Fold(timeSync, Absent, b)
    ensures xs != {} ==> Fold(timeSync, Absent, a).Present? && Tops(lww, xs, Fold(timeSync, Absent, a).m)
  {
    hide Uniform, Comparable, Fold, Above, Best;
    if xs == {} {
      SomeElement(a);
      SomeElement(b);
    } else {
      var w := TopExists(timeSync, mode, xs, lww);
      BestIsTop(timeSync, mode, xs, lww, w);
      ConvergesExactly(timeSync, xs, w);
    }
  }

  // ---- and when there is not

  /** A deletion and a set with the same revision and cas: whichever comes first may stay. */
  lemma {:induction false} DeletionTieDiverges()
    ensures var d, x := Mutation(Meta(7, 3, 0, 0), true, RevisionSeqno), Mutation(Meta(7, 3, 0, 0), false, RevisionSeqno);
            Fold(false, Absent, [d, x]) == Present(d) && Fold(false, Absent, [x, d]) == Present(x)
  {
    var d, x := Mutation(Meta(7, 3, 0, 0), true, RevisionSeqno), Mutation(Meta(7, 3, 0, 0), false, RevisionSeqno);
    OneByOne(false, Absent, d, x, []);
    OneByOne(false, Absent, x, d, []);
    assert [d, x] + [] == [d, x] && [x, d] + [] == [x, d];
  }

  /** With time synchronisation and both modes about, the comparisons can go round in a circle. */
  lemma {:induction false} MixedModesDiverge()
    ensures var a, b, c := Mutation(Meta(10, 1, 0, 0), false, LastWriteWins), Mutation(Meta(5, 3, 0, 0), false, LastWriteWins),
                           Mutation(Meta(1, 2, 0, 0), false, RevisionSeqno);
            Fold(true, Absent, [a, b, c]) == Present(c) && Fold(true, Absent, [c, a, b]) == Present(b)
  {
    var a, b, c := Mutation(Meta(10, 1, 0, 0), false, LastWriteWins), Mutation(Meta(5, 3, 0, 0), false, LastWriteWins),
                   Mutation(Meta(1, 2, 0, 0), false, RevisionSeqno);
    OneByOne(true, Absent, a, b, [c]);
    OneByOne(true, Absent, c, a, [b]);
    assert [a, b] + [c] == [a, b, c] && [c, a] + [b] == [c, a, b];
  }
}
