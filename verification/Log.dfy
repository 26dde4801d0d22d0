/** Queued items, and what a sequence of them means when it is replayed. */
module Log {

  type Key = string

  /** `queue_operation`, without `queue_op_flush`, which nothing queues. */
  datatype Op = Set | Del | Empty | Start | End

  /** A queued item: `rev` is the revision number, or the checkpoint id of a meta item. */
  datatype Item = Item(op: Op, key: Key, seqno: nat, rev: nat) {
    /** The negation of `isCheckPointMetaItem`. */
    predicate IsMutation() { op == Set || op == Del }
  }

  const DUMMY_KEY: Key := "dummy_key"
  const START_KEY: Key := "checkpoint_start"
  const END_KEY: Key := "checkpoint_end"

  /** The mutations of a log, in order. */
  function Mutations(s: seq<Item>): seq<Item> {
    if s == [] then []
    else (if s[0].IsMutation() then [s[0]] else []) + Mutations(s[1..])
  }

  ghost predicate AllMutations(s: seq<Item>) {
    forall i :: 0 <= i < |s| ==> s[i].IsMutation()
  }

  /** Sequence numbers strictly increase. */
  ghost predicate Increasing(s: seq<Item>) {
    forall i, j :: 0 <= i < j < |s| ==> s[i].seqno < s[j].seqno
  }

  /** No key occurs twice. */
  ghost predicate DistinctKeys(s: seq<Item>) {
    forall i, j :: 0 <= i < j < |s| ==> s[i].key != s[j].key
  }

  predicate HasKey(s: seq<Item>, k: Key) {
    exists i :: 0 <= i < |s| && s[i].key == k
  }

  /** The last-write map: what a consumer that applies `s` on top of `base` ends with. */
  function Replay(s: seq<Item>, base: map<Key, Item>): map<Key, Item> {
    if s == [] then base else Replay(s[1..], base[s[0].key := s[0]])
  }

  /** The items of `s` whose key does not reappear later in `s`, in order. */
  function KeepLast(s: seq<Item>): seq<Item> {
    if s == [] then []
    else (if HasKey(s[1..], s[0].key) then [] else [s[0]]) + KeepLast(s[1..])
  }

  /** The items of `s` whose key does not occur in `t`. */
  function NotIn(s: seq<Item>, t: seq<Item>): seq<Item> {
    if s == [] then []
    else (if HasKey(t, s[0].key) then [] else [s[0]]) + NotIn(s[1..], t)
  }

  /** `s` without its element at `i`. */
  function Without<T>(s: seq<T>, i: nat): seq<T>
    requires i < |s|
  {
    s[..i] + s[i + 1..]
  }

  lemma {:induction false} MutationsOfConcat(a: seq<Item>, b: seq<Item>)
    ensures Mutations(a + b) == Mutations(a) + Mutations(b)
  {
    if a == [] {
      assert a + b == b;
    } else {
      var head := if a[0].IsMutation() then [a[0]] else [];
      assert (a + b)[1..] == a[1..] + b;
      MutationsOfConcat(a[1..], b);
      assert head + (Mutations(a[1..]) + Mutations(b)) == (head + Mutations(a[1..])) + Mutations(b);
    }
  }

  lemma {:induction false} MutationsOfMutations(s: seq<Item>)
    requires AllMutations(s)
    ensures Mutations(s) == s
  {
    if s != [] {
      MutationsOfMutations(s[1..]);
    }
  }

  lemma {:induction false} MutationsAreMutations(s: seq<Item>)
    ensures AllMutations(Mutations(s))
    ensures forall x :: x in Mutations(s) <==> x in s && x.IsMutation()
  {
    if s != [] {
      MutationsAreMutations(s[1..]);
      assert s == [s[0]] + s[1..];
    }
  }

  lemma {:induction false} ReplayOfConcat(a: seq<Item>, b: seq<Item>, base: map<Key, Item>)
    ensures Replay(a + b, base) == Replay(b, Replay(a, base))
  {
    if a == [] {
      assert a + b == b;
    } else {
      assert (a + b)[1..] == a[1..] + b;
      ReplayOfConcat(a[1..], b, base[a[0].key := a[0]]);
    }
  }

  /** A write to `k` before `s` is invisible after `s` when `s` writes `k` itself. */
  lemma {:induction false} ReplayShadows(s: seq<Item>, x: Item, base: map<Key, Item>)
    requires HasKey(s, x.key)
    ensures Replay(s, base[x.key := x]) == Replay(s, base)
  {
    if s[0].key == x.key {
      assert base[x.key := x][s[0].key := s[0]] == base[s[0].key := s[0]];
    } else {
      assert base[x.key := x][s[0].key := s[0]] == base[s[0].key := s[0]][x.key := x];
      assert HasKey(s[1..], x.key) by {
        var i :| 0 <= i < |s| && s[i].key == x.key;
        assert s[1..][i - 1].key == x.key;
      }
      ReplayShadows(s[1..], x, base[s[0].key := s[0]]);
    }
  }

  /** Compaction preserves meaning: keeping only each key's last item replays to the same map. */
  lemma {:induction false} KeepLastReplay(s: seq<Item>, base: map<Key, Item>)
    ensures Replay(KeepLast(s), base) == Replay(s, base)
  {
    if s != [] {
      var base' := base[s[0].key := s[0]];
      if HasKey(s[1..], s[0].key) {
        KeepLastReplay(s[1..], base);
        ReplayShadows(s[1..], s[0], base);
        assert KeepLast(s) == KeepLast(s[1..]);
      } else {
        KeepLastReplay(s[1..], base');
        assert KeepLast(s)[1..] == KeepLast(s[1..]);
      }
    }
  }

  lemma {:induction false} HasKeyConcat(a: seq<Item>, b: seq<Item>, k: Key)
    ensures HasKey(a + b, k) <==> HasKey(a, k) || HasKey(b, k)
  {
    if HasKey(a, k) {
      var i :| 0 <= i < |a| && a[i].key == k;
      assert (a + b)[i].key == k;
    }
    if HasKey(b, k) {
      var i :| 0 <= i < |b| && b[i].key == k;
      assert (a + b)[|a| + i].key == k;
    }
  }

  /** Survivors of a concatenation: the older part loses what the newer part rewrites. */
  lemma {:induction false} KeepLastOfConcat(a: seq<Item>, b: seq<Item>)
    ensures KeepLast(a + b) == NotIn(KeepLast(a), b) + KeepLast(b)
  {
    if a == [] {
      assert a + b == b;
    } else {
      assert (a + b)[1..] == a[1..] + b;
      KeepLastOfConcat(a[1..], b);
      HasKeyConcat(a[1..], b, a[0].key);
      if HasKey(a[1..], a[0].key) {
        assert KeepLast(a) == KeepLast(a[1..]);
      } else {
        assert KeepLast(a)[1..] == KeepLast(a[1..]);
      }
    }
  }

  lemma {:induction false} KeepLastSubsequence(s: seq<Item>)
    ensures forall x :: x in KeepLast(s) ==> x in s
    ensures forall k :: HasKey(KeepLast(s), k) <==> HasKey(s, k)
    ensures DistinctKeys(KeepLast(s))
    ensures Increasing(s) ==> Increasing(KeepLast(s))
    ensures AllMutations(s) ==> AllMutations(KeepLast(s))
  {
    if s != [] {
      KeepLastSubsequence(s[1..]);
      assert s == [s[0]] + s[1..];
      forall k ensures HasKey(KeepLast(s), k) <==> HasKey(s, k) {
        HasKeyConcat([s[0]], s[1..], k);
        HasKeyConcat(if HasKey(s[1..], s[0].key) then [] else [s[0]], KeepLast(s[1..]), k);
        assert [s[0]][0].key == s[0].key;
      }
      if Increasing(s) && !HasKey(s[1..], s[0].key) {
        forall j | 0 <= j < |KeepLast(s[1..])| ensures s[0].seqno < KeepLast(s[1..])[j].seqno {
          assert KeepLast(s[1..])[j] in s[1..];
        }
      }
    }
  }

  lemma {:induction false} KeepLastOfDistinct(s: seq<Item>)
    requires DistinctKeys(s)
    ensures KeepLast(s) == s
  {
    if s != [] {
      KeepLastOfDistinct(s[1..]);
    }
  }

  lemma {:induction false} WithoutInSuffix<T>(a: seq<T>, s: seq<T>, i: nat, x: T)
    requires i < |s|
    ensures a + (Without(s, i) + [x]) == Without(a + s, |a| + i) + [x]
  {
    assert (a + s)[..|a| + i] == a + s[..i];
    assert (a + s)[|a| + i + 1..] == s[i + 1..];
  }

  lemma {:induction false} WithoutThenDrop<T>(s: seq<T>, i: nat, x: T, g: nat)
    requires i < |s| && g <= |s|
    ensures g <= i ==> (Without(s, i) + [x])[g..] == Without(s[g..], i - g) + [x]
    ensures g > i ==> (Without(s, i) + [x])[g - 1..] == s[g..] + [x]
  {
  }

  /** `t` is `s` with `x` appended and at most one earlier entry for its key dropped. */
  ghost predicate Appended(s: seq<Item>, x: Item, t: seq<Item>) {
    t == s + [x] || exists i :: 0 <= i < |s| && s[i].key == x.key && t == Without(s, i) + [x]
  }

  /** `t` is a subsequence of `s`, as far as order is concerned. */
  lemma {:induction false} AppendedIncreasing(g: seq<Item>, s: seq<Item>, x: Item, t: seq<Item>)
    requires Appended(s, x, t) && Increasing(g + s) && (forall y :: y in g + s ==> y.seqno < x.seqno)
    ensures Increasing(g + t)
  {
    if t == s + [x] {
      assert g + t == (g + s) + [x];
    } else {
      var i :| 0 <= i < |s| && s[i].key == x.key && t == Without(s, i) + [x];
      WithoutInSuffix(g, s, i, x);
      WithoutIncreasing(g + s, |g| + i, x);
    }
  }

  lemma {:induction false} WithoutIncreasing(s: seq<Item>, i: nat, x: Item)
    requires i < |s| && Increasing(s) && forall y :: y in s ==> y.seqno < x.seqno
    ensures Increasing(Without(s, i) + [x])
  {
    var t := Without(s, i) + [x];
    forall j, k | 0 <= j < k < |t| ensures t[j].seqno < t[k].seqno {
      assert t[j] == s[if j < i then j else j + 1];
      assert k < |t| - 1 ==> t[k] == s[if k < i then k else k + 1];
    }
  }

  lemma {:induction false} CompactedIncreasing(g: seq<Item>, y: seq<Item>, z: seq<Item>, r: seq<Item>)
    requires Increasing(g + (y + r)) && Increasing(z) && (forall x :: x in z ==> x in y)
    ensures Increasing(g + (z + r))
  {
    var s, t := g + (y + r), g + (z + r);
    forall i, j | 0 <= i < j < |t| ensures t[i].seqno < t[j].seqno {
      var i' := OldIndex(g, y, z, r, i);
      var j' := OldIndex(g, y, z, r, j);
      if |g| <= i < j < |g| + |z| {
        assert z[i - |g|].seqno < z[j - |g|].seqno;
      }
    }
  }

  lemma {:induction false} OldIndex(g: seq<Item>, y: seq<Item>, z: seq<Item>, r: seq<Item>, i: nat) returns (k: nat)
    requires i < |g| + |z| + |r| && forall x :: x in z ==> x in y
    ensures k < |g| + |y| + |r| && (g + (y + r))[k] == (g + (z + r))[i]
    ensures i < |g| <==> k < |g|
    ensures i < |g| ==> k == i
    ensures i >= |g| + |z| <==> k >= |g| + |y|
    ensures i >= |g| + |z| ==> k == i - |z| + |y|
  {
    if i < |g| {
      k := i;
    } else if i < |g| + |z| {
      assert z[i - |g|] in y;
      var q :| 0 <= q < |y| && y[q] == z[i - |g|];
      k := |g| + q;
    } else {
      k := i - |z| + |y|;
    }
  }
}
