/** Which write of a key is the last, and where two logs disagree about it. */
module LastWrites {
  import opened Log

  datatype Write = Unwritten | Wrote(x: Item)

  /** The last item of a log with a given key. */
  function LastWrite(s: seq<Item>, k: Key): Write {
    if s == [] then Unwritten
    else if s[|s| - 1].key == k then Wrote(s[|s| - 1])
    else LastWrite(s[..|s| - 1], k)
  }

  /** What a map holds for a key. */
  function At(m: map<Key, Item>, k: Key): Write {
    if k in m then Wrote(m[k]) else Unwritten
  }

  lemma {:induction false} LastWriteOfConcat(a: seq<Item>, b: seq<Item>, k: Key)
    ensures LastWrite(a + b, k) == if LastWrite(b, k).Wrote? then LastWrite(b, k) else LastWrite(a, k)
  {
    if b == [] {
      assert a + b == a;
    } else {
      assert (a + b)[..|a + b| - 1] == a + b[..|b| - 1];
      LastWriteOfConcat(a, b[..|b| - 1], k);
    }
  }

  lemma {:induction false} LastWriteOfOne(x: Item, k: Key)
    ensures LastWrite([x], k) == if x.key == k then Wrote(x) else Unwritten
  {
    assert [x][..0] == [];
  }

  lemma {:induction false} LastWriteIsMember(s: seq<Item>, k: Key)
    ensures LastWrite(s, k).Wrote? <==> HasKey(s, k)
    ensures LastWrite(s, k).Wrote? ==> LastWrite(s, k).x in s && LastWrite(s, k).x.key == k
  {
    hide HasKey;
    if s == [] {
      NoKeyInEmpty(k);
    } else {
      var r, x := s[..|s| - 1], s[|s| - 1];
      assert s == r + [x];
      LastWriteIsMember(r, k);
      HasKeyConcat(r, [x], k);
      HasKeyOfOne(x, k);
    }
  }

  lemma {:induction false} NoKeyInEmpty(k: Key)
    ensures !HasKey([], k)
  {
  }

  lemma {:induction false} HasKeyOfOne(x: Item, k: Key)
    ensures HasKey([x], k) <==> x.key == k
  {
    assert [x][0].key == x.key;
  }

  /** A replay holds for each key the last write, or what the map had. */
  lemma {:induction false} ReplayAt(s: seq<Item>, base: map<Key, Item>, k: Key)
    ensures At(Replay(s, base), k) == if LastWrite(s, k).Wrote? then LastWrite(s, k) else At(base, k)
  {
    if s != [] {
      LastWriteOfConcat([s[0]], s[1..], k);
      assert [s[0]] + s[1..] == s;
      ReplayAt(s[1..], base[s[0].key := s[0]], k);
    }
  }

  lemma {:induction false} SameMaps(m: map<Key, Item>, n: map<Key, Item>)
    requires forall k :: At(m, k) == At(n, k)
    ensures m == n
  {
    forall k ensures k in m <==> k in n {
      assert At(m, k) == At(n, k);
    }
    forall k | k in m ensures m[k] == n[k] {
      assert At(m, k) == At(n, k);
    }
  }

  lemma {:induction false} KeepLastWrites(s: seq<Item>, k: Key)
    ensures LastWrite(KeepLast(s), k) == LastWrite(s, k)
  {
    if s != [] {
      KeepLastWrites(s[1..], k);
      LastWriteOfConcat([s[0]], s[1..], k);
      assert [s[0]] + s[1..] == s;
      LastWriteIsMember(s[1..], k);
      var head := if HasKey(s[1..], s[0].key) then [] else [s[0]];
      LastWriteOfConcat(head, KeepLast(s[1..]), k);
    }
  }

  /** Whether the last write of a key is among the `missed` ones. */
  ghost predicate Misses(t: seq<Item>, k: Key, missed: set<Item>) {
    LastWrite(t, k).Wrote? && LastWrite(t, k).x in missed
  }

  /** `s` means the same as `t` for exactly the keys whose last write in `t` is not among the missed ones. */
  ghost predicate Agrees(s: seq<Item>, t: seq<Item>, missed: set<Item>) {
    forall k :: LastWrite(s, k) == LastWrite(t, k) <==> !Misses(t, k, missed)
  }

  /** For any two logs: the replays agree on a key, whatever map they start from, exactly when the last
      writes do. */
  lemma {:induction false} ReplaysAgree(s: seq<Item>, t: seq<Item>, k: Key)
    ensures (forall base :: At(Replay(s, base), k) == At(Replay(t, base), k)) <==> LastWrite(s, k) == LastWrite(t, k)
  {
    forall base ensures LastWrite(s, k) == LastWrite(t, k) ==> At(Replay(s, base), k) == At(Replay(t, base), k) {
      ReplayAt(s, base, k);
      ReplayAt(t, base, k);
    }
    ReplayAt(s, map[], k);
    ReplayAt(t, map[], k);
    assert At(Replay(s, map[]), k) == LastWrite(s, k) && At(Replay(t, map[]), k) == LastWrite(t, k);
  }

  lemma {:induction false} AgreesWithItself(s: seq<Item>)
    ensures Agrees(s, s, {})
  {
  }

  lemma {:induction false} LastWriteAppended(s: seq<Item>, x: Item, t: seq<Item>, k: Key)
    requires Appended(s, x, t)
    ensures LastWrite(t, k) == if k == x.key then Wrote(x) else LastWrite(s, k)
  {
    hide LastWrite;
    LastWriteOfOne(x, k);
    LastWriteOfConcat(s, [x], k);
    if t != s + [x] {
      var i :| 0 <= i < |s| && s[i].key == x.key && t == Without(s, i) + [x];
      LastWriteOfConcat(Without(s, i), [x], k);
      if k != x.key {
        LastWriteWithout(s, i, k);
      }
    }
  }

  lemma {:induction false} LastWriteWithout(s: seq<Item>, i: nat, k: Key)
    requires i < |s| && s[i].key != k
    ensures LastWrite(Without(s, i), k) == LastWrite(s, k)
  {
    hide LastWrite;
    var a, b := s[..i], s[i + 1..];
    LastWriteOfConcat(a, [s[i]] + b, k);
    LastWriteOfConcat([s[i]], b, k);
    LastWriteOfOne(s[i], k);
    LastWriteOfConcat(a, b, k);
    assert s == a + ([s[i]] + b);
  }

  /** Queueing appends to both logs and may drop from one the entry it supersedes. */
  lemma {:induction false} AgreesAfterAppend(g: seq<Item>, s: seq<Item>, x: Item, s': seq<Item>, t: seq<Item>, missed: set<Item>)
    requires Appended(s, x, s') && Agrees(g + s, t, missed) && x !in missed
    ensures Agrees(g + s', t + [x], missed)
  {
    forall k ensures LastWrite(g + s', k) == LastWrite(t + [x], k) <==> !Misses(t + [x], k, missed) {
      LastWriteAppended(s, x, s', k);
      LastWriteOfConcat(g, s, k);
      LastWriteOfConcat(g, s', k);
      LastWriteAppended(t, x, t + [x], k);
      assert LastWrite(g + s, k) == LastWrite(t, k) <==> !Misses(t, k, missed);
    }
  }

  /** Compacting a stretch of one log changes no last write. */
  lemma {:induction false} CompactedWrites(g: seq<Item>, y: seq<Item>, r: seq<Item>, k: Key)
    ensures LastWrite(g + (KeepLast(y) + r), k) == LastWrite(g + (y + r), k)
  {
    KeepLastWrites(y, k);
    LastWriteOfConcat(g, y + r, k);
    LastWriteOfConcat(y, r, k);
    LastWriteOfConcat(g, KeepLast(y) + r, k);
    LastWriteOfConcat(KeepLast(y), r, k);
  }

  lemma {:induction false} AgreesAfterCompaction(g: seq<Item>, y: seq<Item>, r: seq<Item>, t: seq<Item>, missed: set<Item>)
    requires Agrees(g + (y + r), t, missed)
    ensures Agrees(g + (KeepLast(y) + r), t, missed)
  {
    forall k ensures LastWrite(g + (KeepLast(y) + r), k) == LastWrite(t, k) <==> !Misses(t, k, missed) {
      CompactedWrites(g, y, r, k);
    }
  }

  /** Skipping an item that occurs nowhere else makes it missed, and touches no other key. */
  lemma {:induction false} SkippedWrites(g: seq<Item>, x: Item, s: seq<Item>, k: Key)
    requires x !in g + s
    ensures x.key != k ==> LastWrite(g + s, k) == LastWrite(g + ([x] + s), k)
    ensures LastWrite(g + ([x] + s), k) != Wrote(x) ==> LastWrite(g + s, k) == LastWrite(g + ([x] + s), k)
    ensures LastWrite(g + s, k) != Wrote(x)
  {
    LastWriteOfConcat(g, [x] + s, k);
    LastWriteOfConcat([x], s, k);
    LastWriteOfConcat(g, s, k);
    LastWriteIsMember(g + s, k);
  }

  lemma {:induction false} AgreesAfterSkip(g: seq<Item>, x: Item, s: seq<Item>, t: seq<Item>, missed: set<Item>)
    requires Agrees(g + ([x] + s), t, missed) && x !in g + s && forall m :: m in missed ==> m !in g + ([x] + s)
    ensures Agrees(g + s, t, missed + {x})
  {
    forall k ensures LastWrite(g + s, k) == LastWrite(t, k) <==> !Misses(t, k, missed + {x}) {
      assert LastWrite(g + ([x] + s), k) == LastWrite(t, k) <==> !Misses(t, k, missed);
      SkippedWrites(g, x, s, k);
      LastWriteIsMember(g + s, k);
      assert LastWrite(g + s, k).Wrote? ==> LastWrite(g + s, k).x in g + ([x] + s);
    }
  }
}
