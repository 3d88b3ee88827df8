/** Range and prefix reads against pointwise reads. */
module MvccRange {
  import opened RaftTypes
  import opened Keys
  import opened MvccSpec
  import opened MvccHistory

  ghost predicate InRange(k: Key, start: Key, end: Key) {
    !Less(k, start) && Less(k, end)
  }

  // ---------- the keys visited ----------

  lemma {:induction false} BetweenIs(keys: seq<Key>, start: Key, end: Key)
    requires Sorted(keys)
    ensures Sorted(Between(keys, start, end))
    ensures forall k :: k in Between(keys, start, end) <==> k in keys && InRange(k, start, end)
  {
    if keys != [] {
      BetweenIs(keys[1..], start, end);
      TailIn(keys);
      var rest := Between(keys[1..], start, end);
      forall j | 0 <= j < |rest|
        ensures Less(keys[0], rest[j])
      {
        assert rest[j] in keys[1..];
        var i :| 0 <= i < |keys[1..]| && keys[1..][i] == rest[j];
        assert keys[i + 1] == rest[j];
      }
    }
  }

  /** The slice of the index that is visited misses no key of the interval. */
  lemma SliceCovers(keys: seq<Key>, start: Key, end: Key, k: Key)
    requires Sorted(keys) && k in keys && InRange(k, start, end)
    ensures k in RangeKeys(keys, start, end)
  {
    var i :| 0 <= i < |keys| && keys[i] == k;
    var from := LowerBound(keys, start);
    var tail := keys[from..];
    assert i >= from;
    assert tail[i - from] == k;
    if end != [] {
      assert Sorted(tail);
      var to := LowerBound(tail, end);
      if i - from >= to { AboveBound(tail, end, i - from); }
      assert tail[..to][i - from] == k;
    }
  }

  lemma SliceWithin(keys: seq<Key>, start: Key, end: Key)
    requires Sorted(keys)
    ensures Sorted(RangeKeys(keys, start, end))
    ensures forall k :: k in RangeKeys(keys, start, end) ==> k in keys
  {
  }

  lemma VisitedKeys(keys: seq<Key>, start: Key, end: Key)
    requires Sorted(keys)
    ensures var visited := Between(RangeKeys(keys, start, end), start, end);
      Sorted(visited) && forall k :: k in visited <==> k in keys && InRange(k, start, end)
  {
    SliceWithin(keys, start, end);
    BetweenIs(RangeKeys(keys, start, end), start, end);
    forall k | k in keys && InRange(k, start, end)
      ensures k in RangeKeys(keys, start, end)
    {
      SliceCovers(keys, start, end, k);
    }
  }

  // ---------- what is collected ----------

  ghost predicate Shows(st: State, rev: int, kv: KeyValue) {
    Visible(Versions(st, kv.key), rev) == Some(Version(kv.rev, kv.value, false))
  }

  lemma VisibleIsLive(vs: seq<Version>, rev: int)
    ensures Visible(vs, rev).Some? ==>
      Visible(vs, rev).value == Version(Visible(vs, rev).value.rev, Visible(vs, rev).value.value, false)
  {
  }

  ghost predicate Ascending(kvs: seq<KeyValue>) {
    forall i, j :: 0 <= i < j < |kvs| ==> Less(kvs[i].key, kvs[j].key)
  }

  lemma {:induction false} CollectIs(st: State, keys: seq<Key>, rev: int)
    requires Sorted(keys)
    ensures Ascending(Collect(st, keys, rev))
    ensures forall kv :: kv in Collect(st, keys, rev) <==> kv.key in keys && Shows(st, rev, kv)
  {
    if keys != [] {
      var k0, rest := keys[0], Collect(st, keys[1..], rev);
      CollectIs(st, keys[1..], rev);
      TailIn(keys);
      VisibleIsLive(Versions(st, k0), rev);
      forall j | 0 <= j < |rest|
        ensures Less(k0, rest[j].key)
      {
        assert rest[j] in rest;
        var i :| 0 <= i < |keys[1..]| && keys[1..][i] == rest[j].key;
        assert keys[i + 1] == rest[j].key;
      }
      CollectStep(st, keys, rev);
    }
  }

  lemma CollectStep(st: State, keys: seq<Key>, rev: int)
    requires keys != []
    requires forall k :: k in keys[1..] <==> k in keys && k != keys[0]
    requires forall kv :: kv in Collect(st, keys[1..], rev) <==> kv.key in keys[1..] && Shows(st, rev, kv)
    ensures forall kv :: kv in Collect(st, keys, rev) <==> kv.key in keys && Shows(st, rev, kv)
  {
  }

  // ---------- Range ----------

  ghost predicate Lists(out: seq<KeyValue>, k: Key, v: Bytes) {
    exists kv :: kv in out && kv.key == k && kv.value == v
  }

  /** `out` is the ascending list of exactly the keys of the interval that a pointwise Get finds at `rev`,
      with the values it finds. */
  ghost predicate IsPointwise(st: State, out: seq<KeyValue>, start: Key, end: Key, rev: int) {
    && Ascending(out)
    && forall k, v :: Lists(out, k, v) <==> InRange(k, start, end) && Get(st, k, rev) == Some(v)
  }

  /** Whatever is collected at the revision Get would use is the pointwise list. */
  lemma CollectedIsPointwise(st: State, ws: seq<Write>, start: Key, end: Key, rev: int)
    requires Refines(st, ws) && (rev == 0 || rev > st.compactRev)
    ensures IsPointwise(st, Collected(st, start, end, rev), start, end, rev)
  {
    var at := if rev == 0 then st.currentRev else rev;
    var out := Collected(st, start, end, rev);
    VisitedKeys(st.sortedKeys, start, end);
    CollectIs(st, Between(RangeKeys(st.sortedKeys, start, end), start, end), at);
    forall k, v
      ensures Lists(out, k, v) <==> InRange(k, start, end) && Get(st, k, rev) == Some(v)
    {
      assert k in st.sortedKeys <==> k in ToSet(st.sortedKeys);
      VisibleIsLive(Versions(st, k), at);
      if Lists(out, k, v) {
        var kv :| kv in out && kv.key == k && kv.value == v;
        assert Shows(st, at, kv);
      }
      if InRange(k, start, end) && Get(st, k, rev) == Some(v) {
        var x := Visible(st.data[k], at).value;
        assert Shows(st, at, KeyValue(k, v, x.rev));
        assert KeyValue(k, v, x.rev) in out;
      }
    }
  }

  function Collected(st: State, start: Key, end: Key, rev: int): seq<KeyValue> {
    Collect(st, Between(RangeKeys(st.sortedKeys, start, end), start, end), if rev == 0 then st.currentRev else rev)
  }

  /** Range is pointwise at every revision but 0, answerable or not. An empty end is an empty interval. */
  lemma RangeIsPointwise(st: State, ws: seq<Write>, start: Key, end: Key, rev: int)
    requires Refines(st, ws) && rev != 0
    ensures IsPointwise(st, Range(st, start, end, rev), start, end, rev)
  {
    if rev > st.compactRev {
      CollectedIsPointwise(st, ws, start, end, rev);
    } else {
      forall k, v ensures !Lists([], k, v) { }
    }
  }

  /** At revision 0 it is pointwise if and only if something was written after the compacted revision, or
      nothing in the interval is live: right after compacting the current revision it answers nothing. */
  lemma RangeAtZero(st: State, ws: seq<Write>, start: Key, end: Key)
    requires Refines(st, ws)
    ensures IsPointwise(st, Range(st, start, end, 0), start, end, 0) <==>
      st.currentRev > st.compactRev || forall k :: InRange(k, start, end) ==> Get(st, k, 0) == None
  {
    CollectedIsPointwise(st, ws, start, end, 0);
    if st.currentRev <= st.compactRev {
      forall k, v ensures !Lists([], k, v) { }
      if k :| InRange(k, start, end) && Get(st, k, 0).Some? {
        assert !Lists([], k, Get(st, k, 0).value);
      }
    }
  }

  /** `out` lists exactly the live keys with the prefix. */
  ghost predicate IsPrefixList(st: State, out: seq<KeyValue>, prefix: Key, rev: int) {
    && Ascending(out)
    && forall k, v :: Lists(out, k, v) <==> HasPrefix(k, prefix) && Get(st, k, rev) == Some(v)
  }

  /** An interval read of the prefix's interval is a prefix read. */
  lemma PointwiseIsPrefixList(st: State, out: seq<KeyValue>, prefix: Key, rev: int)
    requires IsPointwise(st, out, prefix, PrefixEnd(prefix), rev) && !AllMax(prefix)
    ensures IsPrefixList(st, out, prefix, rev)
  {
    forall k, v
      ensures Lists(out, k, v) <==> HasPrefix(k, prefix) && Get(st, k, rev) == Some(v)
    {
      PrefixIsInterval(k, prefix);
    }
  }

  lemma EmptyIsPrefixListIff(st: State, prefix: Key, rev: int)
    ensures IsPrefixList(st, [], prefix, rev) <==> forall k :: HasPrefix(k, prefix) ==> Get(st, k, rev) == None
  {
    forall k, v ensures !Lists([], k, v) { }
    if k :| HasPrefix(k, prefix) && Get(st, k, rev).Some? {
      assert !Lists([], k, Get(st, k, rev).value);
    }
  }

  lemma HasFirst(keys: seq<Key>)
    requires keys != []
    ensures exists k :: k in keys
  {
    assert keys[0] in keys;
  }

  /** With an empty end Range finds nothing. */
  lemma EmptyEnd(st: State, ws: seq<Write>, start: Key, rev: int)
    requires Refines(st, ws)
    ensures Range(st, start, [], rev) == []
  {
    var keys := Between(RangeKeys(st.sortedKeys, start, []), start, []);
    VisitedKeys(st.sortedKeys, start, []);
    if keys != [] { HasFirst(keys); assert false; }
  }

  /** PrefixRange is right if and only if the prefix has a byte below 0xff and, at revision 0, something was
      written after the compacted revision; or no live key has the prefix. For an empty prefix, or one of 0xff
      bytes only, the end is empty and nothing is found. */
  lemma PrefixRangeIff(st: State, ws: seq<Write>, prefix: Key, rev: int)
    requires Refines(st, ws)
    ensures IsPrefixList(st, PrefixRange(st, prefix, rev), prefix, rev) <==>
      (!AllMax(prefix) && (rev == 0 ==> st.currentRev > st.compactRev))
      || forall k :: HasPrefix(k, prefix) ==> Get(st, k, rev) == None
  {
    PrefixEndEmpty(prefix);
    EmptyIsPrefixListIff(st, prefix, rev);
    if AllMax(prefix) {
      EmptyEnd(st, ws, prefix, rev);
    } else if rev != 0 {
      RangeIsPointwise(st, ws, prefix, PrefixEnd(prefix), rev);
      PointwiseIsPrefixList(st, PrefixRange(st, prefix, rev), prefix, rev);
    } else if st.currentRev > st.compactRev {
      RangeAtZero(st, ws, prefix, PrefixEnd(prefix));
      PointwiseIsPrefixList(st, PrefixRange(st, prefix, 0), prefix, 0);
    }
  }
}
