/** Where the store answers less than asked, on concrete operations. */
module MvccLimits {
  import opened RaftTypes
  import opened Keys
  import opened MvccSpec
  import opened MvccLease
  import opened MvccRun
  import Q = MvccRange
  import S = MvccSnapshot

  lemma AfterOne(a: Op)
    requires Allowed(EMPTY, a)
    ensures Possible([a]) && After([a]).0 == Do(EMPTY, a)
  {
    assert [a][..0] == [];
    assert After([]) == (EMPTY, []);
    assert Possible([]);
  }

  lemma AfterTwo(a: Op, b: Op)
    requires Allowed(EMPTY, a) && Allowed(Do(EMPTY, a), b)
    ensures Possible([a, b]) && After([a, b]).0 == Do(Do(EMPTY, a), b)
  {
    AfterOne(a);
    assert [a, b][..1] == [a];
  }

  lemma AfterThree(a: Op, b: Op, c: Op)
    requires Allowed(EMPTY, a) && Allowed(Do(EMPTY, a), b) && Allowed(Do(Do(EMPTY, a), b), c)
    ensures Possible([a, b, c]) && After([a, b, c]).0 == Do(Do(Do(EMPTY, a), b), c)
  {
    AfterTwo(a, b);
    assert [a, b, c][..2] == [a, b];
  }

  /** The store after one put. */
  lemma OnePut(k: Key, v: Bytes)
    ensures var st := Do(EMPTY, DoPut(k, v, 0, 0));
      && st.data == map[k := [Version(1, v, false)]] && st.sortedKeys == [k]
      && st.currentRev == 1 && st.compactRev == 0 && st.leases == map[] && st.keyLease == map[]
  {
    var x := Version(1, v, false);
    assert [] + [x] == [x];
  }

  lemma TwoPuts(k: Key, v: Bytes)
    ensures var st := Do(Do(EMPTY, DoPut(k, v, 0, 0)), DoPut(k, v, 0, 0));
      && st.data == map[k := [Version(1, v, false), Version(2, v, false)]] && st.sortedKeys == [k]
      && st.currentRev == 2 && st.compactRev == 0 && st.leases == map[] && st.keyLease == map[]
  {
    OnePut(k, v);
    assert [Version(1, v, false)] + [Version(2, v, false)] == [Version(1, v, false), Version(2, v, false)];
  }

  lemma TwoPutsCompacted(k: Key, v: Bytes)
    ensures var ops := [DoPut(k, v, 0, 0), DoPut(k, v, 0, 0), DoCompact(2)];
      && Possible(ops)
      && var st := After(ops).0;
        && st.data.Keys == {k} && st.data[k] == [Version(2, v, false)] && st.sortedKeys == [k]
        && st.currentRev == 2 && st.leases == map[] && st.keyLease == map[]
  {
    var put, compact := DoPut(k, v, 0, 0), DoCompact(2);
    AfterThree(put, put, compact);
    AfterTwo(put, put);
    TwoPuts(k, v);
    RunSound([put, put]);
    var st2 := Do(Do(EMPTY, put), put);
    CompactData(st2, After([put, put]).1, 2);
    assert FirstAfter(st2.data[k], 2) == -1;
    assert CompactHistory(st2.data[k], 2) == [Version(2, v, false)];
  }

  /** Two puts of one key, compacted at the second: the snapshot is rejected and a restart finds nothing. */
  lemma CompactedSnapshotIsRejected(k: Key, v: Bytes) returns (visit: S.Visit)
    ensures var ops := [DoPut(k, v, 0, 0), DoPut(k, v, 0, 0), DoCompact(2)];
      && Possible(ops) && S.VisitOf(visit, After(ops).0)
      && Get(After(ops).0, k, 0) == Some(v)
      && !S.Accepts(S.Take(After(ops).0, visit)) && S.Restore(EMPTY, S.Take(After(ops).0, visit)) == EMPTY
  {
    var ops := [DoPut(k, v, 0, 0), DoPut(k, v, 0, 0), DoCompact(2)];
    TwoPutsCompacted(k, v);
    RunSound(ops);
    var st := After(ops).0;
    visit := S.Visit([k], [], map[]);
    assert S.Total(st, [k]) == 1 by { assert [k][1..] == []; }
    S.AcceptsIff(st, After(ops).1, visit);
    assert Latest(st.data[k], 2) == Some(Version(2, v, false));
  }

  /** A put, compacted at its own revision: Range at revision 0 finds nothing, Get finds it. */
  lemma RangeMissesLiveKey(k: Key, v: Bytes, start: Key, end: Key)
    ensures var ops := [DoPut(k, v, 0, 0), DoCompact(1)];
      && Possible(ops) && Get(After(ops).0, k, 0) == Some(v) && Range(After(ops).0, start, end, 0) == []
  {
    var put, compact := DoPut(k, v, 0, 0), DoCompact(1);
    AfterTwo(put, compact);
    OnePut(k, v);
    AfterOne(put);
    RunSound([put]);
    CompactData(Do(EMPTY, put), After([put]).1, 1);
    var st := After([put, compact]).0;
    assert st.data[k] == [Version(1, v, false)];
    assert Latest(st.data[k], 1) == Some(Version(1, v, false));
  }

  /** A put of the key 0xff: it is read by Get and found under neither of its prefixes. */
  lemma PrefixesMissLiveKey(v: Bytes, prefix: Key, rev: int)
    requires prefix == [] || prefix == [255]
    ensures var ops := [DoPut([255], v, 0, 0)];
      && Possible(ops) && HasPrefix([255], prefix) && Get(After(ops).0, [255], 1) == Some(v)
      && PrefixRange(After(ops).0, prefix, rev) == []
  {
    var put := DoPut([255], v, 0, 0);
    AfterOne(put);
    OnePut([255], v);
    RunSound([put]);
    assert AllMax(prefix);
    PrefixEndEmpty(prefix);
    Q.EmptyEnd(After([put]).0, After([put]).1, prefix, rev);
    assert Latest(After([put]).0.data[[255]], 1) == Some(Version(1, v, false));
  }

  /** A grant and an attach: the key is leased and was never written. */
  lemma AttachBindsDeadKey(k: Key, ttl: nat)
    ensures var ops := [DoGrant(ttl, 0), DoAttach(k, 1, 0)];
      && Possible(ops) && BoundTo(After(ops).0, k, 1) && HeldBy(After(ops).0, k, 1) && Get(After(ops).0, k, 0) == None
  {
    AfterTwo(DoGrant(ttl, 0), DoAttach(k, 1, 0));
    assert Do(EMPTY, DoGrant(ttl, 0)).leases == map[1 := Lease(ttl, ttl * SECOND, {})];
  }
}
