/** The Bloom filter and its status machine, for any hash function, any positive size and any number of hashes. */
module BloomFilters {

  type Key = string

  datatype Status = DISABLED | PENDING | COMPACTING | ENABLED

  /** The filter answers from its bits only in these two states. */
  predicate Answers(s: Status) { s == COMPACTING || s == ENABLED }

  /** Where a request for status `to` leads. */
  function Transition(s: Status, to: Status): Status {
    match s
    case DISABLED => if to == ENABLED then PENDING else s
    case PENDING => if to == DISABLED || to == COMPACTING then to else s
    case COMPACTING => if to == DISABLED || to == ENABLED then to else s
    case ENABLED => if to == DISABLED || to == COMPACTING then to else s
  }

  /** A filter leaves the disabled state only to become pending, is filled by a compaction before it is enabled, and can be
      disabled from every state. */
  lemma {:induction false} StatusMachine(s: Status, to: Status)
    ensures var r := Transition(s, to);
            && (r == s || r == to || (s == DISABLED && to == ENABLED && r == PENDING))
            && (to == DISABLED ==> r == DISABLED)
            && (s == DISABLED ==> (r != s <==> to == ENABLED) && r != ENABLED && r != COMPACTING)
            && (r == ENABLED && s != ENABLED ==> s == COMPACTING)
            && (s == COMPACTING && to == ENABLED ==> r == ENABLED)
            && (to == COMPACTING && s != DISABLED ==> r == COMPACTING)
            && (r == PENDING && s != PENDING ==> s == DISABLED)
  {
  }

  // ---- Bits

  function Count(bits: seq<bool>): nat {
    if bits == [] then 0 else (if bits[0] then 1 else 0) + Count(bits[1..])
  }

  /** Set the bits at `ps`. */
  function Filled(bits: seq<bool>, ps: seq<nat>): (r: seq<bool>)
    requires forall i :: 0 <= i < |ps| ==> ps[i] < |bits|
    ensures |r| == |bits|
    decreases ps
  {
    if ps == [] then bits else Filled(bits[ps[0] := true], ps[1..])
  }

  predicate AllSet(bits: seq<bool>, ps: seq<nat>)
    requires forall i :: 0 <= i < |ps| ==> ps[i] < |bits|
  {
    forall i :: 0 <= i < |ps| ==> bits[ps[i]]
  }

  /** A bit is set afterwards exactly if it was before or is one of those. */
  lemma {:induction false} FilledAt(bits: seq<bool>, ps: seq<nat>, j: nat)
    requires (forall i :: 0 <= i < |ps| ==> ps[i] < |bits|) && j < |bits|
    ensures Filled(bits, ps)[j] <==> bits[j] || j in ps
    decreases ps
  {
    if ps != [] {
      FilledAt(bits[ps[0] := true], ps[1..], j);
      assert ps == [ps[0]] + ps[1..];
    }
  }

  /** Adding a key sets its own bits and clears none of another's. */
  lemma {:induction false} FilledAnswers(bits: seq<bool>, ps: seq<nat>, qs: seq<nat>)
    requires forall i :: 0 <= i < |ps| ==> ps[i] < |bits|
    requires forall i :: 0 <= i < |qs| ==> qs[i] < |bits|
    ensures AllSet(Filled(bits, ps), ps)
    ensures AllSet(bits, qs) ==> AllSet(Filled(bits, ps), qs)
  {
    hide Filled;
    forall i | 0 <= i < |ps| ensures Filled(bits, ps)[ps[i]] {
      FilledAt(bits, ps, ps[i]);
    }
    if AllSet(bits, qs) {
      forall i | 0 <= i < |qs| ensures Filled(bits, ps)[qs[i]] {
        FilledAt(bits, ps, qs[i]);
      }
    }
  }

  lemma {:induction false} CountSet(bits: seq<bool>, j: nat)
    requires j < |bits|
    ensures Count(bits[j := true]) == Count(bits) + if bits[j] then 0 else 1
  {
    if j == 0 {
      assert bits[0 := true][1..] == bits[1..];
    } else {
      assert bits[j := true][1..] == bits[1..][j - 1 := true];
      CountSet(bits[1..], j - 1);
    }
  }

  /** Unless all its bits were set, a key adds at least one. */
  lemma {:induction false} FilledCount(bits: seq<bool>, ps: seq<nat>)
    requires forall i :: 0 <= i < |ps| ==> ps[i] < |bits|
    ensures Count(Filled(bits, ps)) >= Count(bits) + if AllSet(bits, ps) then 0 else 1
    decreases ps
  {
    if ps != [] {
      CountSet(bits, ps[0]);
      FilledCount(bits[ps[0] := true], ps[1..]);
      if bits[ps[0]] {
        assert bits[ps[0] := true] == bits;
        assert AllSet(bits, ps[1..]) ==> AllSet(bits, ps) by {
          assert ps == [ps[0]] + ps[1..];
        }
      }
    }
  }

  lemma {:induction false} FilledConcat(bits: seq<bool>, ps: seq<nat>, p: nat)
    requires (forall i :: 0 <= i < |ps| ==> ps[i] < |bits|) && p < |bits|
    ensures Filled(bits, ps + [p]) == Filled(bits, ps)[p := true]
    decreases ps
  {
    if ps == [] {
      assert ps + [p] == [p];
    } else {
      assert (ps + [p])[1..] == ps[1..] + [p];
      FilledConcat(bits[ps[0] := true], ps[1..], p);
    }
  }

  class BloomFilter {
    const filterSize: nat
    const noOfHashes: nat
    const hash: (Key, nat) -> nat
    var keyCounter: nat
    var status: Status
    var bitArray: seq<bool>

    /** The keys added since the filter was last disabled. */
    ghost var added: set<Key>

    /** The bits of a key. */
    function Positions(key: Key): (ps: seq<nat>)
      requires filterSize > 0
      ensures |ps| == noOfHashes && forall i :: 0 <= i < |ps| ==> ps[i] == hash(key, i) % filterSize
    {
      seq(noOfHashes, i requires 0 <= i < noOfHashes => hash(key, i) % filterSize)
    }

    lemma {:induction false} SetPositions(key: Key, j: nat)
      requires filterSize > 0
      ensures j in Positions(key) <==> exists i :: 0 <= i < noOfHashes && hash(key, i) % filterSize == j
    {
      if i :| 0 <= i < noOfHashes && hash(key, i) % filterSize == j {
        assert Positions(key)[i] == j;
      }
    }

    /** A filter that was disabled has no bits any more; it is replaced, not used again. */
    predicate InUse()
      reads this
    {
      |bitArray| == filterSize
    }

    ghost predicate Valid()
      reads this
    {
      && filterSize > 0
      && (InUse() ==> keyCounter <= Count(bitArray))
      && (!InUse() ==> bitArray == [] && added == {})
      && (InUse() ==> forall k :: k in added ==> AllSet(bitArray, Positions(k)))
    }

    constructor (filterSize: nat, noOfHashes: nat, hash: (Key, nat) -> nat, status: Status)
      requires filterSize > 0
      ensures Valid() && InUse() && added == {} && keyCounter == 0 && this.status == status && true !in bitArray
      ensures this.filterSize == filterSize && this.noOfHashes == noOfHashes && this.hash == hash
    {
      this.filterSize, this.noOfHashes, this.hash := filterSize, noOfHashes, hash;
      this.status, keyCounter, added := status, 0, {};
      bitArray := seq(filterSize, i => false);
    }

    /** Disabling a filter forgets its bits but not its key count. */
    method SetStatus(to: Status)
      requires Valid()
      modifies `status, `bitArray, `added
      ensures Valid() && status == Transition(old(status), to)
      ensures if status == DISABLED && old(status) != DISABLED then bitArray == [] && added == {}
              else bitArray == old(bitArray) && added == old(added)
      ensures old(InUse()) ==> (keyCounter <= Count(bitArray) <==> keyCounter == 0 || status != DISABLED || old(status) == DISABLED)
    {
      match status
      case DISABLED =>
        if to == ENABLED {
          status := PENDING;
        }
      case PENDING =>
        if to == DISABLED {
          status, bitArray, added := to, [], {};
        } else if to == COMPACTING {
          status := to;
        }
      case COMPACTING =>
        if to == DISABLED {
          status, bitArray, added := to, [], {};
        } else if to == ENABLED {
          status := to;
        }
      case ENABLED =>
        if to == DISABLED {
          status, bitArray, added := to, [], {};
        } else if to == COMPACTING {
          status := to;
        }
    }

    method AddKey(key: Key)
      requires Valid() && (Answers(status) ==> InUse())
      modifies `keyCounter, `bitArray, `added
      ensures Valid() && |bitArray| == old(|bitArray|)
      ensures added == if Answers(status) then old(added) + {key} else old(added)
      ensures keyCounter == old(keyCounter) + if Answers(status) && !AllSet(old(bitArray), Positions(key)) then 1 else 0
      ensures bitArray == if Answers(status) then Filled(old(bitArray), Positions(key)) else old(bitArray)
      ensures forall j :: 0 <= j < |bitArray| ==>
                (bitArray[j] <==> old(bitArray)[j] ||
                                  ((status == COMPACTING || status == ENABLED) && exists i :: 0 <= i < noOfHashes && hash(key, i) % filterSize == j))
    {
      if Answers(status) {
        ghost var bits, ps := bitArray, Positions(key);
        var overlap := true;
        var i := 0;
        while i < noOfHashes
          invariant 0 <= i <= noOfHashes && |bitArray| == |bits| == filterSize && keyCounter == old(keyCounter) && added == old(added)
          invariant bitArray == Filled(bits, ps[..i]) && (overlap <==> AllSet(bits, ps[..i]))
        {
          var p := hash(key, i) % filterSize;
          FilledAt(bits, ps[..i], p);
          FilledConcat(bits, ps[..i], p);
          assert ps[..i + 1] == ps[..i] + [p];
          if overlap && !bitArray[p] {
            overlap := false;
          }
          bitArray := bitArray[p := true];
          i := i + 1;
        }
        assert ps[..noOfHashes] == ps;
        forall j | 0 <= j < |bits| ensures bitArray[j] <==> bits[j] || exists i :: 0 <= i < noOfHashes && hash(key, i) % filterSize == j {
          FilledAt(bits, ps, j);
          SetPositions(key, j);
        }
        FilledCount(bits, ps);
        FilledAnswers(bits, ps, ps);
        forall k | k in added ensures AllSet(bitArray, Positions(k)) {
          FilledAnswers(bits, ps, Positions(k));
        }
        if !overlap {
          keyCounter := keyCounter + 1;
        }
        added := added + {key};
      }
    }

    /** No false negative: a key added since the filter was last disabled is never denied, and nothing is denied while the
        filter does not answer. */
    method MaybeKeyExists(key: Key) returns (r: bool)
      requires Valid() && (Answers(status) ==> InUse())
      ensures r <==> (Answers(status) ==> AllSet(bitArray, Positions(key)))
      ensures key in added || !Answers(status) ==> r
      ensures r <==> ((status == COMPACTING || status == ENABLED) ==>
                        |bitArray| == filterSize && forall i :: 0 <= i < noOfHashes ==> bitArray[hash(key, i) % filterSize])
    {
      if Answers(status) {
        var i := 0;
        while i < noOfHashes
          invariant 0 <= i <= noOfHashes && forall j :: 0 <= j < i ==> bitArray[Positions(key)[j]]
        {
          if !bitArray[hash(key, i) % filterSize] {
            assert !bitArray[Positions(key)[i]];
            return false;
          }
          i := i + 1;
        }
      }
      return true;
    }
  }

  /** A key count can outlive the bits it counted. */
  method DisabledKeepsCount() returns (keys: nat, bits: nat)
    ensures keys == 1 && bits == 0
  {
    var f := new BloomFilter(1, 1, (k, i) => 0, ENABLED);
    assert f.Positions("key")[0] == 0 && !f.bitArray[0];
    f.AddKey("key");
    f.SetStatus(DISABLED);
    keys, bits := f.keyCounter, Count(f.bitArray);
  }
}
