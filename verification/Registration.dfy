/** Registering and removing cursors. */
module Registration {
  import opened Log
  import opened Checkpoints
  import opened CheckpointLaws
  import opened ManagerState

  // ---- What a registered cursor has ahead

  /** From the beginning of a checkpoint: all its items and those after it. */
  lemma {:induction false} AheadFromStart(cs: seq<Chk>, c: Cur)
    requires c.chk < |cs| && c.pos == 0
    ensures CurIn(cs, c) && Ahead(cs, c) == AllItems(cs[c.chk..]) && MutsAhead(cs, c) == AllMuts(cs[c.chk..])
  {
    hide Chk.Items;
    assert cs[c.chk..][0] == cs[c.chk] && cs[c.chk..][1..] == cs[c.chk + 1..];
  }

  /** The mutations above a sequence number. */
  function Above(s: seq<Item>, seqno: nat): seq<Item> {
    if s == [] then [] else (if s[0].seqno > seqno then [s[0]] else []) + Above(s[1..], seqno)
  }

  lemma {:induction false} AboveOfConcat(a: seq<Item>, b: seq<Item>, seqno: nat)
    ensures Above(a + b, seqno) == Above(a, seqno) + Above(b, seqno)
  {
    if a == [] {
      assert a + b == b;
    } else {
      assert (a + b)[1..] == a[1..] + b;
      AboveOfConcat(a[1..], b, seqno);
    }
  }

  lemma {:induction false} AllAbove(s: seq<Item>, seqno: nat)
    requires forall i :: 0 <= i < |s| ==> s[i].seqno > seqno
    ensures Above(s, seqno) == s
  {
    if s != [] {
      AllAbove(s[1..], seqno);
    }
  }

  lemma {:induction false} NoneAbove(s: seq<Item>, seqno: nat)
    requires forall i :: 0 <= i < |s| ==> s[i].seqno <= seqno
    ensures Above(s, seqno) == []
  {
    if s != [] {
      NoneAbove(s[1..], seqno);
    }
  }

  /** A position of the log that separates the mutations at or below `seqno` from those above it. */
  ghost predicate Separates(cs: seq<Chk>, c: Cur, seqno: nat)
    requires CurIn(cs, c)
  {
    var k, g := cs[c.chk], cs[c.chk].Given(c.pos);
    && (forall i :: 0 <= i < c.chk ==> cs[i].Top() <= seqno)
    && (forall i :: 0 <= i < g ==> k.muts[i].seqno <= seqno)
    && (forall i :: g <= i < |k.muts| ==> seqno < k.muts[i].seqno)
    && (c.chk + 1 < |cs| ==> seqno <= k.Top())
  }

  lemma {:induction false} TopsBound(cs: seq<Chk>, seqno: nat)
    requires forall i :: 0 <= i < |cs| ==> cs[i].Wf() && cs[i].Top() <= seqno
    ensures Above(AllMuts(cs), seqno) == []
  {
    hide Chk.Top, AllMutations, DistinctKeys, Increasing;
    if cs != [] {
      NoneAbove(cs[0].muts, seqno);
      TopsBound(cs[1..], seqno);
      AboveOfConcat(cs[0].muts, AllMuts(cs[1..]), seqno);
    }
  }

  lemma {:induction false} BasesBound(cs: seq<Chk>, seqno: nat)
    requires forall i :: 0 <= i < |cs| ==> cs[i].Wf() && seqno <= cs[i].base
    ensures Above(AllMuts(cs), seqno) == AllMuts(cs)
  {
    hide Chk.Top, AllMutations, DistinctKeys, Increasing;
    if cs != [] {
      AllAbove(cs[0].muts, seqno);
      BasesBound(cs[1..], seqno);
      AboveOfConcat(cs[0].muts, AllMuts(cs[1..]), seqno);
    }
  }

  lemma {:induction false} SplitAll(cs: seq<Chk>, i: nat)
    requires i < |cs|
    ensures AllMuts(cs) == AllMuts(cs[..i]) + (cs[i].muts + AllMuts(cs[i + 1..]))
  {
    assert cs == cs[..i] + cs[i..];
    AllMutsOfConcat(cs[..i], cs[i..]);
    assert cs[i..][1..] == cs[i + 1..];
  }

  lemma {:induction false} SplitAbove(s: seq<Item>, g: nat, seqno: nat)
    requires g <= |s|
    requires forall i :: 0 <= i < g ==> s[i].seqno <= seqno
    requires forall i :: g <= i < |s| ==> seqno < s[i].seqno
    ensures Above(s, seqno) == s[g..]
  {
    assert s == s[..g] + s[g..];
    AboveOfConcat(s[..g], s[g..], seqno);
    NoneAbove(s[..g], seqno);
    AllAbove(s[g..], seqno);
  }

  lemma {:induction false} AroundAbove(cs: seq<Chk>, c: Cur, seqno: nat)
    requires ChksInv(cs) && CurIn(cs, c) && Separates(cs, c, seqno)
    ensures Above(AllMuts(cs[..c.chk]), seqno) == []
    ensures Above(AllMuts(cs[c.chk + 1..]), seqno) == AllMuts(cs[c.chk + 1..])
  {
    hide AllMuts, Above, Chk.Wf;
    TopsBound(cs[..c.chk], seqno);
    BasesBound(cs[c.chk + 1..], seqno);
  }

  /** A cursor at a separating place has ahead exactly the mutations above `seqno`. */
  lemma {:induction false} SeparatedAhead(cs: seq<Chk>, c: Cur, seqno: nat)
    requires ChksInv(cs) && CurIn(cs, c) && Separates(cs, c, seqno)
    ensures MutsAhead(cs, c) == Above(AllMuts(cs), seqno)
  {
    hide AllMuts, Above, ChksInv;
    var k := cs[c.chk];
    SplitAll(cs, c.chk);
    AboveOfConcat(AllMuts(cs[..c.chk]), k.muts + AllMuts(cs[c.chk + 1..]), seqno);
    AboveOfConcat(k.muts, AllMuts(cs[c.chk + 1..]), seqno);
    SplitAbove(k.muts, k.Given(c.pos), seqno);
    AroundAbove(cs, c, seqno);
  }

  // ---- The search for a sequence number

  /** `getHighSeqno`: the sequence number of the last item. */
  function High(c: Chk): (h: nat)
    ensures c.Top() <= h
  {
    match c.phase
    case Open => if c.muts == [] then c.base + 1 else c.muts[|c.muts| - 1].seqno
    case Closed(e) => e
  }

  lemma {:induction false} HighIsLast(c: Chk)
    ensures c.Items()[c.Size() - 1].seqno == High(c) && c.Items()[1].seqno == c.base + 1
  {
  }

  /** `it` is the first item after checkpoint_start above `seqno`, or the end. */
  ghost predicate FirstAbove(c: Chk, it: nat, seqno: nat) {
    && 2 <= it <= c.Size()
    && (forall j :: 1 <= j < it ==> c.Items()[j].seqno <= seqno)
    && (it < c.Size() ==> seqno < c.Items()[it].seqno)
  }

  lemma {:induction false} FirstAboveSplits(c: Chk, it: nat, seqno: nat)
    requires c.Wf() && FirstAbove(c, it, seqno)
    ensures var g := c.Given(it - 1);
            && (forall i :: 0 <= i < g ==> c.muts[i].seqno <= seqno)
            && (forall i :: g <= i < |c.muts| ==> seqno < c.muts[i].seqno && it < c.Size() && c.Items()[it].seqno <= c.muts[i].seqno)
            && (it < c.Size() && c.phase.Closed? ==> c.Items()[it].seqno <= c.Top())
  {
    var g := c.Given(it - 1);
    forall i | 0 <= i < g ensures c.muts[i].seqno <= seqno {
      assert c.Items()[i + 2] == c.muts[i];
    }
    if g < |c.muts| {
      assert c.Items()[it] == c.muts[g];
    }
  }

  lemma {:induction false} LaterAbove(cs: seq<Chk>, bound: nat)
    requires forall i :: 0 <= i < |cs| ==> cs[i].Wf() && bound <= cs[i].base
    ensures forall y :: y in AllMuts(cs) ==> bound < y.seqno
  {
    hide Chk.Top, AllMutations, DistinctKeys, Increasing;
    if cs != [] {
      LaterAbove(cs[1..], bound);
    }
  }

  /** The first sequence number a registration announces is not above any mutation the cursor will be given. */
  lemma {:induction false} AheadFrom(cs: seq<Chk>, c: Cur, first: nat)
    requires ChksInv(cs) && CurIn(cs, c)
    requires forall i :: cs[c.chk].Given(c.pos) <= i < |cs[c.chk].muts| ==> first <= cs[c.chk].muts[i].seqno
    requires c.chk + 1 < |cs| ==> first <= cs[c.chk].Top() + 1
    ensures forall y :: y in MutsAhead(cs, c) ==> first <= y.seqno
  {
    hide Chk.Wf, AllMuts;
    if c.chk + 1 < |cs| {
      LaterAbove(cs[c.chk + 1..], cs[c.chk].Top());
    } else {
      assert cs[c.chk + 1..] == [];
      assert AllMuts([]) == [] by { NoMuts(); }
    }
  }

  lemma {:induction false} NoMuts()
    ensures AllMuts([]) == []
  {
  }

  // ---- and the meta items

  lemma {:induction false} InSomeItems(cs: seq<Chk>, x: Item) returns (i: nat, p: nat)
    requires x in AllItems(cs)
    ensures i < |cs| && 1 <= p < cs[i].Size() && cs[i].Items()[p] == x
  {
    hide Chk.Items;
    if x in cs[0].Items()[1..] {
      var q :| 0 <= q < |cs[0].Items()[1..]| && cs[0].Items()[1..][q] == x;
      i, p := 0, q + 1;
    } else {
      i, p := InSomeItems(cs[1..], x);
      i := i + 1;
    }
  }

  lemma {:induction false} AllItemsHas(cs: seq<Chk>, i: nat, p: nat)
    requires i < |cs| && 1 <= p < cs[i].Size()
    ensures cs[i].Items()[p] in AllItems(cs)
    decreases i
  {
    hide Chk.Items;
    if i == 0 {
      assert cs[0].Items()[1..][p - 1] == cs[0].Items()[p];
    } else {
      AllItemsHas(cs[1..], i - 1, p);
    }
  }

  lemma {:induction false} AheadHas(cs: seq<Chk>, c: Cur, i: nat, p: nat)
    requires CurIn(cs, c) && i < |cs| && 1 <= p < cs[i].Size() && (c.chk < i || (c.chk == i && c.pos < p))
    ensures cs[i].Items()[p] in Ahead(cs, c)
  {
    hide Chk.Items, AllItems;
    if i == c.chk {
      assert cs[i].Items()[c.pos + 1..][p - c.pos - 1] == cs[i].Items()[p];
    } else {
      AllItemsHas(cs[c.chk + 1..], i - c.chk - 1, p);
    }
  }

  lemma {:induction false} InAhead(cs: seq<Chk>, c: Cur, x: Item) returns (i: nat, p: nat)
    requires CurIn(cs, c) && x in Ahead(cs, c)
    ensures i < |cs| && 1 <= p < cs[i].Size() && cs[i].Items()[p] == x && (c.chk < i || (c.chk == i && c.pos < p))
  {
    hide Chk.Items;
    var here := cs[c.chk].Items()[c.pos + 1..];
    if x in here {
      var q :| 0 <= q < |here| && here[q] == x;
      i, p := c.chk, c.pos + 1 + q;
    } else {
      i, p := InSomeItems(cs[c.chk + 1..], x);
      i := c.chk + 1 + i;
    }
  }

  /** The numbers of a checkpoint's items: a checkpoint_start's is one above the base, the others lie between. */
  lemma {:induction false} ItemNumbers(b: Chk, p: nat)
    requires b.Wf() && 1 <= p < b.Size()
    ensures var x := b.Items()[p];
            && x.seqno <= High(b) + 1 && (b.base < High(b) ==> x.seqno <= High(b))
            && (x.op != End ==> b.base < x.seqno) && (p == 1 ==> x.seqno == b.base + 1)
            && (p >= 2 && x.op != End ==> p - 2 < |b.muts| && x == b.muts[p - 2])
  {
    if 2 <= p < 2 + |b.muts| {
      assert b.Items()[p] == b.muts[p - 2];
    }
  }

  /** A cursor placed for `seqno` has ahead every item above it, and besides those only checkpoint_ends. */
  lemma {:induction false} SeparatedItems(cs: seq<Chk>, c: Cur, seqno: nat, x: Item)
    requires ChksInv(cs) && CurIn(cs, c) && Separates(cs, c, seqno)
    requires forall j :: 0 <= j < c.chk ==> High(cs[j]) < seqno
    requires if c.pos == 0 then seqno <= cs[c.chk].base else FirstAbove(cs[c.chk], c.pos + 1, seqno)
    ensures x in AllItems(cs) && seqno < x.seqno ==> x in Ahead(cs, c)
    ensures x in Ahead(cs, c) && x.op != End ==> seqno < x.seqno
  {
    hide Chk.Items, Ahead, AllItems, Chk.Wf, High;
    if x in AllItems(cs) && seqno < x.seqno {
      var i, p := InSomeItems(cs, x);
      ItemNumbers(cs[i], p);
      if c.chk < i || (c.chk == i && c.pos < p) {
        AheadHas(cs, c, i, p);
      }
    }
    if x in Ahead(cs, c) && x.op != End {
      var i, p := InAhead(cs, c, x);
      ItemNumbers(cs[i], p);
      if i == c.chk && p >= 2 {
        assert cs[i].Given(c.pos) <= p - 2;
      }
    }
  }

  /** What a cursor that starts after `seqno` has ahead: every item above it, and besides those only checkpoint_ends. */
  ghost predicate StartsAfter(cs: seq<Chk>, c: Cur, seqno: nat) {
    && CurIn(cs, c)
    && (forall x :: x in AllItems(cs) && seqno < x.seqno ==> x in Ahead(cs, c))
    && (forall x :: x in Ahead(cs, c) && x.op != End ==> seqno < x.seqno)
  }

  lemma {:induction false} SeparatedStarts(list: seq<Checkpoint>, cursors: map<Name, CheckpointCursor>, num: nat, v: View, c: Cur, seqno: nat)
    requires Models(list, cursors, num, v) && CurIn(v.chks, c) && Separates(v.chks, c, seqno)
    requires forall j :: 0 <= j < c.chk ==> High(v.chks[j]) < seqno
    requires if c.pos == 0 then seqno <= v.chks[c.chk].base else FirstAbove(v.chks[c.chk], c.pos + 1, seqno)
    ensures StartsAfter(v.chks, c, seqno)
  {
    hide ListRepresents, NamesAgree, CursorsAre, TotalItems, ChksInv, CurIn, Separates, FirstAbove, High, Ahead, AllItems;
    forall x ensures x in AllItems(v.chks) && seqno < x.seqno ==> x in Ahead(v.chks, c) {
      SeparatedItems(v.chks, c, seqno, x);
    }
    forall x ensures x in Ahead(v.chks, c) && x.op != End ==> seqno < x.seqno {
      SeparatedItems(v.chks, c, seqno, x);
    }
  }

  // ---- The name sets

  function Named(list: seq<Checkpoint>, n: Name, j: nat): (r: seq<Checkpoint>)
    requires j < |list|
    ensures |r| == |list|
  {
    list[j := list[j].(names := list[j].names + {n})]
  }

  lemma {:induction false} NamedRepresents(list: seq<Checkpoint>, cs: seq<Chk>, n: Name, j: nat)
    requires ListRepresents(list, cs) && j < |list|
    ensures ListRepresents(Named(list, n, j), cs)
  {
    hide IndexAgrees, Chk.Items, MetaIndex;
    forall k | 0 <= k < |list| ensures Represents(Named(list, n, j)[k], cs[k]) {
      assert Represents(list[k], cs[k]);
    }
  }

  lemma {:induction false} NamedAgree(list: seq<Checkpoint>, cursors: map<Name, CheckpointCursor>, n: Name, c: CheckpointCursor)
    requires NamesAgree(list, cursors) && n !in cursors && c.chk < |list|
    ensures NamesAgree(Named(list, n, c.chk), cursors[n := c])
  {
  }

  lemma {:induction false} AddCursorModels(list: seq<Checkpoint>, cursors: map<Name, CheckpointCursor>, num: nat, v: View,
                        n: Name, c: CheckpointCursor)
    requires Models(list, cursors, num, v) && n !in cursors && c.chk < |list|
    requires CurIn(v.chks, c.At()) && c.offset == OffsetOf(v.chks, c.At())
    ensures Models(Named(list, n, c.chk), cursors[n := c], num, Move(v, n, c.At()))
  {
    hide Inv, NamesAgree, TotalItems, Represents, ListRepresents, Named, OffsetOf;
    NamedAgree(list, cursors, n, c);
    NamedRepresents(list, v.chks, n, c.chk);
    MoveInv(v, n, c.At());
  }

  /** The name sets with one name taken out everywhere. */
  ghost predicate Unnamed(list: seq<Checkpoint>, n: Name, r: seq<Checkpoint>) {
    |r| == |list| && forall i :: 0 <= i < |list| ==> r[i] == list[i].(names := list[i].names - {n})
  }

  function Dropped(v: View, n: Name): View {
    v.(cursors := v.cursors - {n})
  }

  lemma {:induction false} NeedsPersistence(list: seq<Checkpoint>, cursors: map<Name, CheckpointCursor>, num: nat, v: View)
    ensures Models(list, cursors, num, v) ==> PERSISTENCE in cursors
  {
  }

  lemma {:induction false} DropModels(list: seq<Checkpoint>, cursors: map<Name, CheckpointCursor>, num: nat, v: View, n: Name, r: seq<Checkpoint>)
    requires Models(list, cursors, num, v) && n != PERSISTENCE && Unnamed(list, n, r)
    ensures Models(r, cursors - {n}, num, Dropped(v, n))
  {
    hide ChksInv, NamesAgree, TotalItems, Represents, ListRepresents, OffsetOf, Unnamed;
    UnnamedRepresents(list, v.chks, n, r);
    UnnamedAgree(list, cursors, n, r);
  }

  lemma {:induction false} UnnamedRepresents(list: seq<Checkpoint>, cs: seq<Chk>, n: Name, r: seq<Checkpoint>)
    requires ListRepresents(list, cs) && Unnamed(list, n, r)
    ensures ListRepresents(r, cs) && |r| == |list|
  {
    hide IndexAgrees, Chk.Items, MetaIndex;
    forall k | 0 <= k < |list| ensures Represents(r[k], cs[k]) {
      assert Represents(list[k], cs[k]);
    }
  }

  lemma {:induction false} UnnamedAgree(list: seq<Checkpoint>, cursors: map<Name, CheckpointCursor>, n: Name, r: seq<Checkpoint>)
    requires NamesAgree(list, cursors) && Unnamed(list, n, r)
    ensures NamesAgree(r, cursors - {n})
  {
  }

  // ---- Which checkpoint a registration starts from

  /** The first checkpoint with the given id, or the length. */
  function FindChk(cs: seq<Chk>, id: nat): (i: nat)
    ensures i <= |cs| && (forall j :: 0 <= j < i ==> cs[j].id != id) && (i < |cs| ==> cs[i].id == id)
  {
    if cs == [] || cs[0].id == id then 0 else 1 + FindChk(cs[1..], id)
  }

  /** The first checkpoint not known to be persisted, or the length. */
  function FirstUnpersisted(cs: seq<Chk>, preId: nat): (i: nat)
    ensures i <= |cs| && (forall j :: 0 <= j < i ==> 0 < preId && cs[j].id <= preId)
    ensures i < |cs| ==> preId < cs[i].id || preId == 0
  {
    if cs == [] || preId < cs[0].id || preId == 0 then 0 else 1 + FirstUnpersisted(cs[1..], preId)
  }

  /** Where `registerCursor` puts a cursor: at the named checkpoint, staying where it is if it is already there
      and may, or else at the first checkpoint not known to be persisted. */
  ghost function Registered(v: View, n: Name, id: nat, alwaysFromBeginning: bool, sendEnd: bool): Cur {
    var i := FindChk(v.chks, id);
    if i == |v.chks| then Cur(FirstUnpersisted(v.chks, v.preId), 0, n != PERSISTENCE, sendEnd)
    else if !alwaysFromBeginning && n in v.cursors && v.cursors[n].chk == i
    then Cur(i, v.cursors[n].pos, n != PERSISTENCE, sendEnd)
    else Cur(i, 0, n != PERSISTENCE, sendEnd)
  }

  /** The name of a registered cursor taken out of the set it is in. */
  function Forgotten(list: seq<Checkpoint>, cursors: map<Name, CheckpointCursor>, n: Name): seq<Checkpoint> {
    if n in cursors && cursors[n].chk < |list|
    then list[cursors[n].chk := list[cursors[n].chk].(names := list[cursors[n].chk].names - {n})]
    else list
  }

  lemma {:induction false} ForgottenNames(list: seq<Checkpoint>, cursors: map<Name, CheckpointCursor>, n: Name)
    ensures var r := Forgotten(list, cursors, n);
            |r| == |list| && forall i :: 0 <= i < |list| ==>
              r[i] == list[i].(names := if n in cursors && cursors[n].chk == i then list[i].names - {n} else list[i].names)
  {
  }

  /** What the two searches tell. */
  lemma {:induction false} FoundChk(list: seq<Checkpoint>, cursors: map<Name, CheckpointCursor>, num: nat, v: View, id: nat)
    requires Models(list, cursors, num, v)
    ensures FindChk(v.chks, id) < |v.chks| <==> exists c :: c in v.chks && c.id == id
    ensures FirstUnpersisted(v.chks, v.preId) == |v.chks| <==> forall c :: c in v.chks ==> c.id <= v.preId
  {
    hide FindChk, FirstUnpersisted, ListRepresents, NamesAgree, CursorsAre, TotalItems;
    var i, j := FindChk(v.chks, id), FirstUnpersisted(v.chks, v.preId);
    assert i < |v.chks| ==> v.chks[i] in v.chks;
    assert j < |v.chks| ==> v.chks[j] in v.chks && v.chks[j].id > 0;
  }

  /** What registering a cursor for checkpoint `id` promises of its place `c`: in that checkpoint if it is there, and else
      in the first one not known to be persisted. A cursor that is in the checkpoint already and may stay there keeps
      what it has ahead; any other has ahead every item from the beginning of its checkpoint on. */
  ghost predicate PlacedFor(v: View, n: Name, id: nat, alwaysFromBeginning: bool, sendEnd: bool, c: Cur) {
    && CurIn(v.chks, c) && c.sendEnd == sendEnd && c.fromBeginning == (n != PERSISTENCE)
    && (if exists b :: b in v.chks && b.id == id then v.chks[c.chk].id == id
        else && (v.preId == 0 || v.preId < v.chks[c.chk].id)
             && forall i :: 0 <= i < c.chk ==> 0 < v.preId && v.chks[i].id <= v.preId)
    && if v.chks[c.chk].id == id && !alwaysFromBeginning && n in v.cursors && v.cursors[n].chk == c.chk
       then CurIn(v.chks, v.cursors[n]) && Ahead(v.chks, c) == Ahead(v.chks, v.cursors[n]) && MutsAhead(v.chks, c) == MutsAhead(v.chks, v.cursors[n])
       else Ahead(v.chks, c) == AllItems(v.chks[c.chk..]) && MutsAhead(v.chks, c) == AllMuts(v.chks[c.chk..])
  }

  lemma {:induction false} RegisteredFor(v: View, n: Name, id: nat, alwaysFromBeginning: bool, sendEnd: bool)
    requires Inv(v) && (FindChk(v.chks, id) < |v.chks| || FirstUnpersisted(v.chks, v.preId) < |v.chks|)
    ensures PlacedFor(v, n, id, alwaysFromBeginning, sendEnd, Registered(v, n, id, alwaysFromBeginning, sendEnd))
  {
    hide FindChk, FirstUnpersisted, Ahead, MutsAhead, AllItems, AllMuts, Chk.Wf, Chk.Top, Chk.Size;
    var c, i := Registered(v, n, id, alwaysFromBeginning, sendEnd), FindChk(v.chks, id);
    assert i < |v.chks| ==> v.chks[i] in v.chks;
    AheadFromStart(v.chks, c.(pos := 0));
    if n in v.cursors && v.cursors[n].chk == c.chk {
      assert CurIn(v.chks, v.cursors[n]);
      SamePlace(v.chks, c.(pos := v.cursors[n].pos), v.cursors[n]);
    }
  }

  lemma {:induction false} SamePlace(cs: seq<Chk>, c: Cur, d: Cur)
    requires CurIn(cs, d) && c.chk == d.chk && c.pos == d.pos
    ensures CurIn(cs, c) && Ahead(cs, c) == Ahead(cs, d) && MutsAhead(cs, c) == MutsAhead(cs, d)
  {
  }
}
