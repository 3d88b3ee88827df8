/** One list of all writes, where write number r has revision r, explains every part of the store: the
    histories, the event log, the index, and every read at every revision that is not compacted away. */
module MvccHistory {
  import opened RaftTypes
  import opened Keys
  import opened MvccSpec

  // ---------- the list of writes ----------

  /** Key `k` after the first `r` writes. */
  function Replay(ws: seq<Write>, k: Key, r: nat): Option<Bytes>
    requires r <= |ws|
  {
    if r == 0 then None
    else if ws[r - 1].key == k then (if ws[r - 1].deleted then None else Some(ws[r - 1].value))
    else Replay(ws, k, r - 1)
  }

  /** All versions `k` ever had. */
  function History(ws: seq<Write>, k: Key): (vs: seq<Version>)
    ensures forall v :: v in vs ==> 1 <= v.rev <= |ws|
  {
    if ws == [] then []
    else
      var w := ws[|ws| - 1];
      History(ws[..|ws| - 1], k) + (if w.key == k then [VersionOf(w, |ws|)] else [])
  }

  function EventsFrom(ws: seq<Write>, rev: nat): (es: seq<Event>)
    requires rev <= |ws|
    ensures |es| == |ws| - rev
    ensures forall i :: 0 <= i < |es| ==> es[i] == EventOf(ws[rev + i], rev + i + 1)
  {
    seq(|ws| - rev, i requires 0 <= i < |ws| - rev => EventOf(ws[rev + i], rev + i + 1))
  }

  // ---------- what ties a store to it ----------

  ghost predicate IsSuffix(vs: seq<Version>, h: seq<Version>) {
    |vs| <= |h| && vs == h[|h| - |vs|..]
  }

  lemma SuffixAppend(vs: seq<Version>, h: seq<Version>, x: Version)
    requires IsSuffix(vs, h)
    ensures IsSuffix(vs + [x], h + [x])
  {
  }

  lemma SuffixOfSuffix(c: seq<Version>, vs: seq<Version>, h: seq<Version>)
    requires IsSuffix(c, vs) && IsSuffix(vs, h)
    ensures IsSuffix(c, h)
  {
  }

  /** A history is a suffix of all versions; what was dropped is covered by a compacted version. */
  ghost predicate KeyOk(st: State, ws: seq<Write>, k: Key) {
    var h, vs := History(ws, k), Versions(st, k);
    && (k in st.data <==> h != []) && (k in st.data ==> vs != [])
    && IsSuffix(vs, h)
    && (|vs| < |h| ==> vs[0].rev <= st.compactRev)
  }

  ghost predicate Refines(st: State, ws: seq<Write>) {
    && st.currentRev == |ws| && st.compactRev <= |ws|
    && (forall k {:trigger KeyOk(st, ws, k)} :: KeyOk(st, ws, k))
    && st.events == EventsFrom(ws, st.compactRev)
    && Sorted(st.sortedKeys) && ToSet(st.sortedKeys) == st.data.Keys
  }

  lemma RefinesAtStart()
    ensures Refines(EMPTY, [])
  {
  }

  /** Steps that touch neither histories, events nor revisions. */
  lemma RefinesSame(st: State, st': State, ws: seq<Write>)
    requires Refines(st, ws)
    requires st' == st.(leases := st'.leases, keyLease := st'.keyLease, nextLeaseID := st'.nextLeaseID)
    ensures Refines(st', ws)
  {
    forall k ensures KeyOk(st', ws, k) { assert KeyOk(st, ws, k); }
  }

  lemma {:induction false} HistoryIncreasing(ws: seq<Write>, k: Key)
    ensures Increasing(History(ws, k))
  {
    if ws != [] { HistoryIncreasing(ws[..|ws| - 1], k); }
  }

  lemma SuffixIncreasing(vs: seq<Version>, j: nat)
    requires Increasing(vs) && j <= |vs|
    ensures Increasing(vs[j..])
  {
  }

  /** Histories stay strictly increasing, whatever compaction dropped. */
  lemma VersionsIncreasing(st: State, ws: seq<Write>, k: Key)
    requires Refines(st, ws)
    ensures Increasing(Versions(st, k))
    ensures k in st.data ==> Versions(st, k) != [] && forall v :: v in Versions(st, k) ==> v.rev <= st.currentRev
  {
    assert KeyOk(st, ws, k);
    HistoryIncreasing(ws, k);
    SuffixIncreasing(History(ws, k), |History(ws, k)| - |Versions(st, k)|);
  }

  lemma HistoryAfter(ws: seq<Write>, w: Write, k: Key)
    ensures History(ws + [w], k) == History(ws, k) + (if w.key == k then [VersionOf(w, |ws| + 1)] else [])
  {
  }

  lemma KeyAppend(st: State, ws: seq<Write>, w: Write, k: Key)
    requires KeyOk(st, ws, k) && st.currentRev == |ws|
    ensures KeyOk(Append(st, w), ws + [w], k)
  {
    HistoryAfter(ws, w, k);
    var h, vs := History(ws, k), Versions(st, k);
    if k == w.key {
      var x := VersionOf(w, |ws| + 1);
      assert Versions(Append(st, w), k) == vs + [x];
      SuffixAppend(vs, h, x);
    } else {
      assert Versions(Append(st, w), k) == vs;
    }
  }

  /** A put or a delete appends one write. */
  lemma RefinesAppend(st: State, ws: seq<Write>, w: Write)
    requires Refines(st, ws)
    ensures Refines(Append(st, w), ws + [w])
  {
    forall k
      ensures KeyOk(Append(st, w), ws + [w], k)
    {
      assert KeyOk(st, ws, k);
      KeyAppend(st, ws, w, k);
    }
    IndexAppend(st, w);
    EventsAfter(ws, w, st.compactRev);
  }

  lemma IndexAppend(st: State, w: Write)
    requires Sorted(st.sortedKeys) && ToSet(st.sortedKeys) == st.data.Keys
    ensures Sorted(Append(st, w).sortedKeys) && ToSet(Append(st, w).sortedKeys) == Append(st, w).data.Keys
  {
    InsertKeeps(st.sortedKeys, w.key);
  }

  lemma EventsAfter(ws: seq<Write>, w: Write, rev: nat)
    requires rev <= |ws|
    ensures EventsFrom(ws + [w], rev) == EventsFrom(ws, rev) + [EventOf(w, |ws| + 1)]
  {
  }

  // ---------- reads ----------

  /** The last version not newer than `r` is what replaying `r` writes leaves. */
  lemma {:induction false} LatestIsReplay(ws: seq<Write>, k: Key, r: nat)
    requires r <= |ws|
    ensures var v := Visible(History(ws, k), r); Replay(ws, k, r) == if v.Some? then Some(v.value.value) else None
    decreases |ws|
  {
    if ws != [] {
      var init, w := ws[..|ws| - 1], ws[|ws| - 1];
      var h := History(init, k);
      if r < |ws| {
        LatestIsReplay(init, k, r);
        ReplayPrefix(ws, init, k, r);
        if w.key == k { assert (h + [VersionOf(w, |ws|)])[..|h|] == h; } else { assert h + [] == h; }
      } else if w.key != k {
        LatestIsReplay(init, k, r - 1);
        ReplayPrefix(ws, init, k, r - 1);
        LatestBeyond(h, |init|, r);
        assert h + [] == h;
      }
    }
  }

  lemma {:induction false} ReplayPrefix(ws: seq<Write>, vs: seq<Write>, k: Key, r: nat)
    requires r <= |vs| <= |ws| && forall i :: 0 <= i < r ==> ws[i] == vs[i]
    ensures Replay(ws, k, r) == Replay(vs, k, r)
  {
    if r > 0 { ReplayPrefix(ws, vs, k, r - 1); }
  }

  /** Past the newest version the revision asked for no longer matters. */
  lemma LatestBeyond(vs: seq<Version>, a: int, b: int)
    requires forall v :: v in vs ==> v.rev <= a
    requires a <= b
    ensures Latest(vs, a) == Latest(vs, b)
  {
  }

  /** Dropping what a kept version covers does not show at that version's revision or later. */
  lemma {:induction false} LatestOfSuffix(vs: seq<Version>, j: nat, rev: int)
    requires Increasing(vs) && j < |vs| && vs[j].rev <= rev
    ensures Latest(vs[j..], rev) == Latest(vs, rev)
    decreases |vs|
  {
    if vs[|vs| - 1].rev > rev {
      assert j < |vs| - 1;
      assert vs[j..][..|vs| - 1 - j] == vs[..|vs| - 1][j..];
      LatestOfSuffix(vs[..|vs| - 1], j, rev);
    }
  }

  lemma LatestOfKept(vs: seq<Version>, h: seq<Version>, rev: int)
    requires Increasing(h) && IsSuffix(vs, h) && (|vs| < |h| ==> vs != [] && vs[0].rev <= rev)
    ensures Latest(vs, rev) == Latest(h, rev)
  {
    if |vs| < |h| {
      LatestOfSuffix(h, |h| - |vs|, rev);
    } else {
      assert h[0..] == h;
    }
  }

  /** A history shows, at every revision after the compacted one, what all versions would show. */
  lemma LatestSurvives(st: State, ws: seq<Write>, k: Key, rev: int)
    requires Refines(st, ws) && rev >= st.compactRev
    ensures Latest(Versions(st, k), rev) == Latest(History(ws, k), rev)
  {
    assert KeyOk(st, ws, k);
    HistoryIncreasing(ws, k);
    LatestOfKept(Versions(st, k), History(ws, k), rev);
  }

  lemma VisibleIsReplay(st: State, ws: seq<Write>, k: Key, at: nat)
    requires Refines(st, ws) && at >= st.compactRev
    ensures var v := Visible(Versions(st, k), at);
      Replay(ws, k, Min(at, |ws|)) == if v.Some? then Some(v.value.value) else None
  {
    LatestSurvives(st, ws, k, at);
    LatestIsReplay(ws, k, Min(at, |ws|));
    if at > |ws| { LatestBeyond(History(ws, k), |ws|, at); }
  }

  /** Historical reads refine replay: Get at 0, or at any revision after the compacted one, returns what
      replaying that many writes, or all of them, gives. */
  lemma GetIsReplay(st: State, ws: seq<Write>, k: Key, rev: int)
    requires Refines(st, ws)
    requires rev == 0 || rev > st.compactRev
    ensures Get(st, k, rev) == Replay(ws, k, if rev == 0 then |ws| else Min(rev, |ws|))
  {
    VisibleIsReplay(st, ws, k, if rev == 0 then st.currentRev else rev);
  }

  // ---------- compaction ----------

  /** What compaction keeps of one history: a suffix that starts at the version visible at `rev`. */
  lemma CompactHistoryIsSuffix(vs: seq<Version>, rev: int)
    ensures var c := CompactHistory(vs, rev);
      && IsSuffix(c, vs) && (vs != [] ==> c != [])
      && (|c| < |vs| ==> c[0].rev <= rev)
  {
  }

  ghost predicate Rewritten(st: State, s: State, keys: seq<Key>, rev: int) {
    && s == st.(data := s.data) && s.data.Keys == st.data.Keys
    && forall k :: k in st.data ==> s.data[k] == if k in keys then CompactHistory(st.data[k], rev) else st.data[k]
  }

  lemma RewrittenFirst(st: State, k0: Key, rev: int)
    requires k0 in st.data && st.data[k0] != []
    ensures CompactKey(st, k0, rev) == st.(data := st.data[k0 := CompactHistory(st.data[k0], rev)])
  {
  }

  lemma RewrittenThen(st: State, s1: State, s: State, keys: seq<Key>, rev: int)
    requires keys != [] && keys[0] in st.data
    requires s1 == st.(data := st.data[keys[0] := CompactHistory(st.data[keys[0]], rev)])
    requires Rewritten(s1, s, keys[1..], rev) && forall k :: k in keys[1..] <==> k in keys && k != keys[0]
    ensures Rewritten(st, s, keys, rev)
  {
  }

  /** The loop over the index rewrites each history once and nothing else. */
  lemma {:induction false} CompactKeysEffect(st: State, keys: seq<Key>, rev: int)
    requires Sorted(keys) && (forall k :: k in keys ==> k in st.data && st.data[k] != [])
    ensures Rewritten(st, CompactKeys(st, keys, rev), keys, rev)
    decreases |keys|
  {
    if keys != [] {
      RewrittenFirst(st, keys[0], rev);
      var s1 := CompactKey(st, keys[0], rev);
      TailIn(keys);
      CompactKeysEffect(s1, keys[1..], rev);
      RewrittenThen(st, s1, CompactKeys(st, keys, rev), keys, rev);
    }
  }

  lemma TailIn(keys: seq<Key>)
    requires Sorted(keys) && keys != []
    ensures forall k :: k in keys[1..] <==> k in keys && k != keys[0]
  {
    TailSet(keys);
    forall k
      ensures k in keys[1..] <==> k in keys && k != keys[0]
    {
      assert k in keys[1..] <==> k in ToSet(keys[1..]);
      assert k in keys <==> k in ToSet(keys);
    }
  }

  lemma KeyCompact(st: State, st': State, ws: seq<Write>, k: Key, rev: int)
    requires KeyOk(st, ws, k) && st.compactRev <= rev == st'.compactRev
    requires k in st'.data <==> k in st.data
    requires k in st.data ==> st'.data[k] == CompactHistory(st.data[k], rev)
    ensures KeyOk(st', ws, k)
  {
    var h, vs, vs' := History(ws, k), Versions(st, k), Versions(st', k);
    CompactHistoryIsSuffix(vs, rev);
    if k in st.data { SuffixOfSuffix(vs', vs, h); }
  }

  lemma {:induction false} AfterAll(es: seq<Event>, rev: int)
    requires forall i :: 0 <= i < |es| ==> es[i].rev > rev
    ensures Later(es, rev) == es
  {
    if es != [] {
      AfterAll(es[1..], rev);
      assert es == [es[0]] + es[1..];
    }
  }

  /** The filter over the event log leaves exactly the events of the revisions after `rev`. */
  lemma {:induction false} AfterIsSuffix(ws: seq<Write>, c: nat, rev: nat)
    requires c <= rev <= |ws|
    ensures Later(EventsFrom(ws, c), rev) == EventsFrom(ws, rev)
    decreases rev - c
  {
    if c == rev {
      AfterAll(EventsFrom(ws, c), rev);
    } else {
      assert EventsFrom(ws, c)[1..] == EventsFrom(ws, c + 1);
      AfterIsSuffix(ws, c + 1, rev);
    }
  }

  /** Compaction forgets history but no write: the store still refines the same list. */
  lemma RefinesCompact(st: State, ws: seq<Write>, rev: int)
    requires Refines(st, ws)
    ensures Refines(Compact(st, rev).0, ws)
    ensures Compact(st, rev).1.Ok? <==> st.compactRev < rev <= st.currentRev
    ensures Compact(st, rev).1.Ok? ==> Compact(st, rev).0.compactRev == rev
  {
    if st.compactRev < rev <= st.currentRev {
      var st' := Compact(st, rev).0;
      forall k | k in st.sortedKeys
        ensures k in st.data && st.data[k] != []
      {
        assert k in ToSet(st.sortedKeys) && KeyOk(st, ws, k);
      }
      CompactKeysEffect(st, st.sortedKeys, rev);
      forall k
        ensures KeyOk(st', ws, k)
      {
        assert KeyOk(st, ws, k);
        assert k in st.sortedKeys <==> k in ToSet(st.sortedKeys);
        KeyCompact(st, st', ws, k, rev);
      }
      AfterIsSuffix(ws, st.compactRev, rev);
    }
  }

  /** Compaction preserves meaning: at the compacted revision and after it every key shows the same
      version as before. */
  lemma CompactKeepsVisible(st: State, ws: seq<Write>, rev: int, k: Key, r: int)
    requires Refines(st, ws) && st.compactRev < rev <= st.currentRev && r >= rev
    ensures Visible(Versions(Compact(st, rev).0, k), r) == Visible(Versions(st, k), r)
  {
    RefinesCompact(st, ws, rev);
    LatestSurvives(st, ws, k, r);
    LatestSurvives(Compact(st, rev).0, ws, k, r);
  }
}
