/** Removing the oldest checkpoints from the concrete state. */
module Removal {
  import opened Checkpoints
  import opened CheckpointLaws
  import opened CollapseLaws
  import opened ManagerState
  import opened Counting

  /** No cursor is in checkpoint `i`, and all of it is persisted. */
  ghost predicate Unneeded(v: View, i: nat) {
    i < |v.chks| && v.chks[i].id <= v.preId && forall n :: n in v.cursors ==> v.cursors[n].chk != i
  }

  /** How many checkpoints are removed: the longest run of unneeded ones, or, where closed checkpoints are kept,
      only as many of them, but at least one, as it takes to come down to the configured number. */
  ghost predicate RemovesTo(v: View, k: nat, keepClosed: bool, maxCheckpoints: nat) {
    && k < |v.chks| && Removable(v, k)
    && (keepClosed && k > 1 ==> |v.chks| - (k - 1) > maxCheckpoints)
    && (Unneeded(v, k) ==> keepClosed && k > 0 && |v.chks| - k <= maxCheckpoints)
  }

  lemma {:induction false} RemovableOneMore(v: View, k: nat)
    requires k < |v.chks| && Removable(v, k) && Unneeded(v, k)
    ensures Removable(v, k + 1)
  {
  }

  /** A cursor after the oldest `k` checkpoints, with `total` items, are gone. */
  function Kept(c: CheckpointCursor, k: nat, total: nat): CheckpointCursor
    requires k <= c.chk
  {
    c.DecrOffset(total).(chk := c.chk - k)
  }

  lemma {:induction false} PassedSplit(cs: seq<Chk>, k: nat, i: nat)
    requires k <= i <= |cs|
    ensures Passed(cs[..i]) == Passed(cs[..k]) + Passed(cs[k..][..i - k])
  {
    assert cs[..i] == cs[..k] + cs[k..][..i - k];
    PassedOfConcat(cs[..k], cs[k..][..i - k]);
  }

  /** Every offset covers what is removed, so the subtraction does not clamp. */
  lemma {:induction false} KeptIs(cs: seq<Chk>, c: CheckpointCursor, at: Cur, k: nat)
    requires CursorIs(cs, c, at) && k <= c.chk
    ensures c.offset >= Passed(cs[..k])
    ensures CursorIs(cs[k..], Kept(c, k, Passed(cs[..k])), at.(chk := at.chk - k))
  {
    hide Passed;
    PassedSplit(cs, k, c.chk);
  }

  lemma {:induction false} TotalSplit(cs: seq<Chk>, k: nat)
    requires k <= |cs| && forall i :: 0 <= i < k ==> cs[i].phase.Closed?
    ensures TotalItems(cs) == Passed(cs[..k]) + TotalItems(cs[k..])
  {
    assert cs == cs[..k] + cs[k..];
    TotalOfConcat(cs[..k], cs[k..]);
    PassedIsTotal(cs[..k]);
  }

  lemma {:induction false} RemovedNames(list: seq<Checkpoint>, cursors: map<Name, CheckpointCursor>, k: nat, cursors': map<Name, CheckpointCursor>)
    requires NamesAgree(list, cursors) && k < |list| && cursors'.Keys == cursors.Keys
    requires forall n :: n in cursors ==> cursors[n].chk >= k && cursors'[n].chk == cursors[n].chk - k
    ensures NamesAgree(list[k..], cursors')
  {
    assert forall i :: 0 <= i < |list[k..]| ==> list[k..][i] == list[k + i];
  }

  lemma {:induction false} RemovedList(list: seq<Checkpoint>, cs: seq<Chk>, k: nat)
    requires ListRepresents(list, cs) && k <= |list|
    ensures ListRepresents(list[k..], cs[k..])
  {
    hide Represents;
  }

  lemma {:induction false} RemoveModels(list: seq<Checkpoint>, cursors: map<Name, CheckpointCursor>, num: nat, v: View, k: nat,
                     cursors': map<Name, CheckpointCursor>)
    requires Models(list, cursors, num, v) && k < |v.chks| && Removable(v, k) && cursors'.Keys == cursors.Keys
    requires forall n :: n in cursors ==> cursors[n].chk >= k && cursors'[n] == Kept(cursors[n], k, Passed(v.chks[..k]))
    ensures num >= Passed(v.chks[..k])
    ensures Models(list[k..], cursors', num - Passed(v.chks[..k]), RemovePrefix(v, k))
  {
    hide Inv, ListRepresents, NamesAgree, TotalItems, Passed, CursorIs, Removable;
    SomeLeft(v, k);
    RemoveInv(v, k);
    TotalSplit(v.chks, k);
    RemovedList(list, v.chks, k);
    RemovedNames(list, cursors, k, cursors');
    RemovedCursors(v, cursors, k, cursors');
  }

  lemma {:induction false} RemovedCursors(v: View, cursors: map<Name, CheckpointCursor>, k: nat, cursors': map<Name, CheckpointCursor>)
    requires CursorsAre(v.chks, cursors, v.cursors) && k < |v.chks| && cursors'.Keys == cursors.Keys
    requires forall n :: n in cursors ==> cursors[n].chk >= k && cursors'[n] == Kept(cursors[n], k, Passed(v.chks[..k]))
    ensures CursorsAre(RemovePrefix(v, k).chks, cursors', RemovePrefix(v, k).cursors)
  {
    hide Passed, Kept;
    forall n | n in cursors ensures CursorIs(v.chks[k..], cursors'[n], RemovePrefix(v, k).cursors[n]) {
      KeptIs(v.chks, cursors[n], v.cursors[n], k);
    }
  }

  lemma {:induction false} DecrementedModels(list: seq<Checkpoint>, cursors: map<Name, CheckpointCursor>, num: nat, v: View, k: nat,
                          total: nat, decr: map<Name, CheckpointCursor>)
    requires Models(list, cursors, num, v) && k < |v.chks| && Removable(v, k) && total == Passed(v.chks[..k])
    requires decr == map n | n in cursors :: cursors[n].DecrOffset(total)
    ensures num >= total && forall n :: n in decr ==> decr[n].chk >= k
    ensures Models(list[k..], map n | n in decr :: decr[n].(chk := decr[n].chk - k), num - total, RemovePrefix(v, k))
  {
    hide Models, Passed, Removable, RemovePrefix;
    RemovableChks(list, cursors, num, v, k);
    RemoveModels(list, cursors, num, v, k, map n | n in decr :: decr[n].(chk := decr[n].chk - k));
  }

  /** The name sets tell which checkpoints hold a cursor. */
  lemma {:induction false} NamesTell(list: seq<Checkpoint>, cursors: map<Name, CheckpointCursor>, num: nat, v: View, i: nat)
    requires Models(list, cursors, num, v) && i < |list|
    ensures list[i].names == {} <==> forall n :: n in v.cursors ==> v.cursors[n].chk != i
    ensures forall n :: n in list[i].names ==> n in cursors && cursors[n].chk == i
  {
    hide Inv, TotalItems, OffsetOf, ListRepresents;
    if list[i].names != {} {
      var n :| n in list[i].names;
      assert v.cursors[n].chk == i;
    }
  }

  lemma {:induction false} RemovableChks(list: seq<Checkpoint>, cursors: map<Name, CheckpointCursor>, num: nat, v: View, k: nat)
    requires Models(list, cursors, num, v) && k <= |v.chks| && Removable(v, k)
    ensures k < |v.chks| && forall n :: n in cursors ==> cursors[n].chk >= k
  {
    hide ListRepresents, TotalItems, OffsetOf, NamesAgree, ChksInv;
    SomeLeft(v, k);
  }
}
