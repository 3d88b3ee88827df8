/** Keys as Go compares strings: byte by byte. The sorted key index of the memory backend. */
module Keys {
  import opened RaftTypes

  type Key = Bytes

  predicate Less(a: Key, b: Key) {
    |b| > 0 && (|a| == 0 || a[0] < b[0] || (a[0] == b[0] && Less(a[1..], b[1..])))
  }

  lemma {:induction false} LessTransitive(a: Key, b: Key, c: Key)
    requires Less(a, b) && Less(b, c)
    ensures Less(a, c)
  {
    if |a| > 0 && a[0] == b[0] && b[0] == c[0] { LessTransitive(a[1..], b[1..], c[1..]); }
  }

  lemma {:induction false} LessIrreflexive(a: Key)
    ensures !Less(a, a)
  {
    if |a| > 0 { LessIrreflexive(a[1..]); }
  }

  lemma {:induction false} LessTotal(a: Key, b: Key)
    ensures Less(a, b) || a == b || Less(b, a)
  {
    if |a| > 0 && |b| > 0 && a[0] == b[0] {
      LessTotal(a[1..], b[1..]);
      assert a == [a[0]] + a[1..] && b == [b[0]] + b[1..];
    }
  }

  lemma LessAsymmetric(a: Key, b: Key)
    requires Less(a, b)
    ensures !Less(b, a)
  {
  }

  // ---------- the sorted index ----------

  ghost predicate Sorted(keys: seq<Key>) {
    forall i, j :: 0 <= i < j < |keys| ==> Less(keys[i], keys[j])
  }

  function ToSet(keys: seq<Key>): set<Key> {
    set k | k in keys
  }

  /** The first position whose key is not below `target`. */
  function LowerBound(keys: seq<Key>, target: Key): (r: nat)
    ensures r <= |keys|
    ensures forall j :: 0 <= j < r ==> Less(keys[j], target)
    ensures r < |keys| ==> !Less(keys[r], target)
  {
    if keys == [] || !Less(keys[0], target) then 0 else 1 + LowerBound(keys[1..], target)
  }

  function InsertKey(keys: seq<Key>, key: Key): seq<Key> {
    var pos := LowerBound(keys, key);
    if pos < |keys| && keys[pos] == key then keys else keys[..pos] + [key] + keys[pos..]
  }

  function DeleteKey(keys: seq<Key>, key: Key): seq<Key> {
    var pos := LowerBound(keys, key);
    if pos < |keys| && keys[pos] == key then keys[..pos] + keys[pos + 1..] else keys
  }

  /** From the lower bound on, a sorted index has only keys not below the target. */
  lemma AboveBound(keys: seq<Key>, target: Key, j: nat)
    requires Sorted(keys) && LowerBound(keys, target) <= j < |keys|
    ensures !Less(keys[j], target)
  {
    var r := LowerBound(keys, target);
    if r < j && Less(keys[j], target) {
      LessTransitive(keys[r], keys[j], target);
      assert false;
    }
  }

  lemma InsertKeeps(keys: seq<Key>, key: Key)
    requires Sorted(keys)
    ensures Sorted(InsertKey(keys, key)) && ToSet(InsertKey(keys, key)) == ToSet(keys) + {key}
  {
    var pos := LowerBound(keys, key);
    var out := InsertKey(keys, key);
    if pos == |keys| || keys[pos] != key {
      forall j | pos <= j < |keys|
        ensures Less(key, keys[j])
      {
        AboveBound(keys, key, j);
        LessTotal(key, keys[j]);
        if j > pos {
          LessTotal(key, keys[pos]);
          AboveBound(keys, key, pos);
          LessTransitive(key, keys[pos], keys[j]);
        }
      }
      assert forall i :: 0 <= i < |out| ==>
        out[i] == if i < pos then keys[i] else if i == pos then key else keys[i - 1];
      InsertedSet(keys, key, pos);
    } else {
      assert keys[pos] in keys;
    }
  }

  lemma InsertedSet(keys: seq<Key>, key: Key, pos: nat)
    requires pos <= |keys|
    ensures ToSet(keys[..pos] + [key] + keys[pos..]) == ToSet(keys) + {key}
  {
  }

  lemma RemoveKeeps(keys: seq<Key>, key: Key)
    requires Sorted(keys)
    ensures Sorted(DeleteKey(keys, key)) && ToSet(DeleteKey(keys, key)) == ToSet(keys) - {key}
  {
    var pos := LowerBound(keys, key);
    if pos < |keys| && keys[pos] == key { WithoutAt(keys, pos); } else { NotFound(keys, key); }
  }

  lemma WithoutAt(keys: seq<Key>, pos: nat)
    requires Sorted(keys) && pos < |keys|
    ensures var out := keys[..pos] + keys[pos + 1..];
      Sorted(out) && ToSet(out) == ToSet(keys) - {keys[pos]}
  {
    var out := keys[..pos] + keys[pos + 1..];
    assert forall i :: 0 <= i < |out| ==> out[i] == if i < pos then keys[i] else keys[i + 1];
    assert keys == keys[..pos] + [keys[pos]] + keys[pos + 1..];
    LessIrreflexive(keys[pos]);
    forall k
      ensures k in out <==> k in keys && k != keys[pos]
    {
    }
  }

  lemma NotFound(keys: seq<Key>, key: Key)
    requires Sorted(keys) && (LowerBound(keys, key) < |keys| ==> keys[LowerBound(keys, key)] != key)
    ensures key !in keys
  {
    var pos := LowerBound(keys, key);
    LessIrreflexive(key);
    forall j | 0 <= j < |keys|
      ensures keys[j] != key
    {
      if j > pos { assert Less(keys[pos], keys[j]); }
    }
  }

  lemma NonEmptySet(keys: seq<Key>)
    requires keys != []
    ensures ToSet(keys) != {}
  {
    assert keys[0] in ToSet(keys);
  }

  /** A sorted index is determined by its set of keys. */
  lemma {:induction false} SortedUnique(a: seq<Key>, b: seq<Key>)
    requires Sorted(a) && Sorted(b) && ToSet(a) == ToSet(b)
    ensures a == b
  {
    if a == [] {
      if b != [] { NonEmptySet(b); assert false; }
    } else {
      assert a[0] in ToSet(a);
      var i :| 0 <= i < |b| && b[i] == a[0];
      assert b[0] in ToSet(b);
      var j :| 0 <= j < |a| && a[j] == b[0];
      if i > 0 {
        if j > 0 { LessAsymmetric(a[0], a[j]); } else { LessIrreflexive(a[0]); }
        assert false;
      }
      TailSet(a);
      TailSet(b);
      SortedUnique(a[1..], b[1..]);
      assert a == [a[0]] + a[1..] && b == [b[0]] + b[1..];
    }
  }

  lemma TailSet(a: seq<Key>)
    requires Sorted(a) && a != []
    ensures ToSet(a[1..]) == ToSet(a) - {a[0]}
  {
    LessIrreflexive(a[0]);
    forall k
      ensures k in a[1..] <==> k in a && k != a[0]
    {
      if k in a && k != a[0] {
        var i :| 0 <= i < |a| && a[i] == k;
        assert a[1..][i - 1] == k;
      }
    }
  }

  // ---------- prefixes ----------

  predicate HasPrefix(k: Key, prefix: Key) {
    |prefix| <= |k| && k[..|prefix|] == prefix
  }

  /** `prefixEnd`: drop trailing 0xff bytes and add one to the byte before them. */
  function PrefixEnd(prefix: Key): Key {
    if prefix == [] then []
    else
      var last := prefix[|prefix| - 1];
      if last < 255 then prefix[..|prefix| - 1] + [last + 1] else PrefixEnd(prefix[..|prefix| - 1])
  }

  predicate AllMax(prefix: Key) {
    forall i :: 0 <= i < |prefix| ==> prefix[i] == 255
  }

  lemma {:induction false} PrefixEndEmpty(prefix: Key)
    ensures PrefixEnd(prefix) == [] <==> AllMax(prefix)
  {
    if prefix != [] { PrefixEndEmpty(prefix[..|prefix| - 1]); }
  }

  /** A common first byte can be dropped from a comparison. */
  lemma {:induction false} PrefixEndTail(prefix: Key)
    requires |prefix| > 0 && !AllMax(prefix[1..])
    ensures PrefixEnd(prefix) == [prefix[0]] + PrefixEnd(prefix[1..])
  {
    var last := prefix[|prefix| - 1];
    assert prefix[1..][|prefix| - 2] == last;
    var init := prefix[..|prefix| - 1];
    assert init[1..] == prefix[1..][..|prefix| - 2];
    if last < 255 {
      assert init + [last + 1] == [prefix[0]] + (init[1..] + [last + 1]);
    } else {
      PrefixEndTail(init);
    }
  }

  lemma {:induction false} PrefixEndOfMax(b: Byte, rest: Key)
    requires AllMax(rest) && b < 255
    ensures PrefixEnd([b] + rest) == [b + 1]
  {
    var prefix := [b] + rest;
    if rest != [] {
      assert prefix[..|prefix| - 1] == [b] + rest[..|rest| - 1];
      PrefixEndOfMax(b, rest[..|rest| - 1]);
    }
  }

  lemma {:induction false} PrefixIsLowerBound(k: Key, prefix: Key)
    requires HasPrefix(k, prefix)
    ensures !Less(k, prefix)
  {
    if prefix != [] {
      assert k[1..][..|prefix| - 1] == k[..|prefix|][1..];
      PrefixIsLowerBound(k[1..], prefix[1..]);
    }
  }

  /** Bytewise, the keys with a prefix are those from the prefix up to its end. */
  lemma {:induction false} PrefixIsInterval(k: Key, prefix: Key)
    requires !AllMax(prefix)
    ensures HasPrefix(k, prefix) <==> !Less(k, prefix) && Less(k, PrefixEnd(prefix))
  {
    var b, rest := prefix[0], prefix[1..];
    assert prefix == [b] + rest;
    if AllMax(rest) {
      PrefixEndOfMax(b, rest);
      MaxPrefix(k, prefix);
    } else {
      PrefixEndTail(prefix);
      var end := PrefixEnd(prefix);
      assert end[1..] == PrefixEnd(rest);
      if |k| > 0 && k[0] == b {
        PrefixIsInterval(k[1..], rest);
        assert HasPrefix(k, prefix) <==> HasPrefix(k[1..], rest) by {
          if |prefix| <= |k| {
            assert k[..|prefix|] == [k[0]] + k[1..][..|rest|];
            assert k[..|prefix|][1..] == k[1..][..|rest|];
          }
        }
      } else if |k| >= |prefix| {
        assert k[..|prefix|][0] == k[0];
      }
    }
  }

  /** For a prefix that is one byte below 0xff followed by 0xff bytes, the end is the next byte. */
  lemma {:induction false} MaxPrefix(k: Key, prefix: Key)
    requires |prefix| > 0 && prefix[0] < 255 && AllMax(prefix[1..])
    ensures HasPrefix(k, prefix) <==> !Less(k, prefix) && Less(k, [prefix[0] + 1])
  {
    if |k| > 0 && k[0] == prefix[0] {
      AboveMax(k[1..], prefix[1..]);
      assert HasPrefix(k, prefix) <==> HasPrefix(k[1..], prefix[1..]) by {
        if |prefix| <= |k| {
          assert k[..|prefix|] == [k[0]] + k[1..][..|prefix| - 1];
          assert prefix == [prefix[0]] + prefix[1..];
          assert k[..|prefix|][1..] == k[1..][..|prefix| - 1];
        }
      }
    } else if |k| >= |prefix| {
      assert k[..|prefix|][0] == k[0];
    }
  }

  lemma {:induction false} AboveMax(k: Key, max: Key)
    requires AllMax(max)
    ensures HasPrefix(k, max) <==> !Less(k, max)
  {
    if max != [] && |k| > 0 && k[0] == 255 {
      AboveMax(k[1..], max[1..]);
      if |max| <= |k| {
        assert k[..|max|] == [k[0]] + k[1..][..|max| - 1];
        assert max == [max[0]] + max[1..];
        assert k[..|max|][1..] == k[1..][..|max| - 1];
      }
    } else if max != [] && |k| >= |max| {
      assert k[..|max|][0] == k[0];
    }
  }
}
