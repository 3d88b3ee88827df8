/** The watcher lists as the source keeps them: by id, and by key or prefix in order of registration. */
module WatchHub {
  import opened RaftTypes
  import opened Keys
  import opened MvccSpec
  import opened Watch

  /** The lists of one kind hold exactly the watchers of that kind, each once, under its key. */
  ghost predicate ListsOk(lists: map<Key, seq<nat>>, byID: map<nat, Watcher>, prefix: bool) {
    && (forall key, id :: key in lists && id in lists[key] ==>
          id in byID && byID[id].prefix == prefix && byID[id].key == key)
    && (forall id :: id in byID && byID[id].prefix == prefix ==> byID[id].key in lists && id in lists[byID[id].key])
    && (forall key :: key in lists ==> Distinct(lists[key]))
  }

  lemma DistinctAppend(ids: seq<nat>, id: nat)
    requires Distinct(ids) && id !in ids
    ensures Distinct(ids + [id])
  {
  }

  lemma DistinctConcat(a: seq<nat>, b: seq<nat>)
    requires Distinct(a) && Distinct(b) && forall id :: id in a ==> id !in b
    ensures Distinct(a + b)
  {
    var c := a + b;
    forall i, j | 0 <= i < j < |c|
      ensures c[i] != c[j]
    {
      if i < |a| <= j { assert a[i] in a && b[j - |a|] in b; }
    }
  }

  function ListAt(lists: map<Key, seq<nat>>, key: Key): seq<nat> {
    if key in lists then lists[key] else []
  }

  lemma ListsAdd(lists: map<Key, seq<nat>>, byID: map<nat, Watcher>, prefix: bool, n: nat, w: Watcher)
    requires ListsOk(lists, byID, prefix) && n !in byID
    ensures var lists' := if w.prefix == prefix then lists[w.key := ListAt(lists, w.key) + [n]] else lists;
      ListsOk(lists', byID[n := w], prefix)
  {
    assert n !in ListAt(lists, w.key);
    DistinctAppend(ListAt(lists, w.key), n);
  }

  lemma ListsRemove(lists: map<Key, seq<nat>>, byID: map<nat, Watcher>, id: nat, rest: seq<nat>)
    requires id in byID && ListsOk(lists, byID, byID[id].prefix)
    requires Distinct(rest) && forall x :: x in rest <==> x in lists[byID[id].key] && x != id
    ensures var key := byID[id].key;
      ListsOk(if rest == [] then lists - {key} else lists[key := rest], byID - {id}, byID[id].prefix)
  {
  }

  lemma ListsOther(lists: map<Key, seq<nat>>, byID: map<nat, Watcher>, prefix: bool, id: nat)
    requires ListsOk(lists, byID, prefix) && id in byID && byID[id].prefix != prefix
    ensures ListsOk(lists, byID - {id}, prefix)
  {
  }

  lemma ListsUpdate(lists: map<Key, seq<nat>>, byID: map<nat, Watcher>, prefix: bool, id: nat, w: Watcher)
    requires ListsOk(lists, byID, prefix) && id in byID && w.key == byID[id].key && w.prefix == byID[id].prefix
    ensures ListsOk(lists, byID[id := w], prefix)
  {
  }

  /** The loop of `CancelWatcher` over one list. */
  method Without(ids: seq<nat>, id: nat) returns (rest: seq<nat>)
    requires Distinct(ids)
    ensures Distinct(rest) && forall x :: x in rest <==> x in ids && x != id
  {
    for i := 0 to |ids|
      invariant forall j :: 0 <= j < i ==> ids[j] != id
    {
      if ids[i] == id {
        rest := ids[..i] + ids[i + 1..];
        assert ids == ids[..i] + [id] + ids[i + 1..];
        return;
      }
    }
    return ids;
  }

  /** The lists of one kind without a watcher of that kind; a list that becomes empty is dropped. */
  method Delisted(lists: map<Key, seq<nat>>, byID: map<nat, Watcher>, id: nat) returns (rest: map<Key, seq<nat>>)
    requires id in byID && ListsOk(lists, byID, byID[id].prefix)
    ensures ListsOk(rest, byID - {id}, byID[id].prefix)
  {
    var key := byID[id].key;
    var ids := Without(lists[key], id);
    ListsRemove(lists, byID, id, ids);
    if |ids| == 0 {
      rest := lists - {key};
    } else {
      rest := lists[key := ids];
    }
  }

  /** The dispatcher's loop over a copied list, up to where the process stops. */
  function ServeMany(s: Feed, todo: seq<nat>, e: Event, full: seq<bool>): Feed
    requires |full| == |todo|
    decreases |todo|
  {
    if todo == [] || s.crashed then s else ServeMany(ServeOne(s, todo[0], e, full[0]), todo[1..], e, full[1..])
  }

  ghost predicate Serves(s: Feed, full: seq<bool>) {
    && (s.phase.Exact? || s.phase.Prefixes?) && |full| == |s.phase.todo|
    && 1 <= s.taken <= |s.log| && s.compactRev <= |s.log|
  }

  /** The same as steps of the feed. */
  ghost function ServeSteps(s: Feed, full: seq<bool>): Feed
    requires Serves(s, full)
    decreases |full|
  {
    if full == [] || s.crashed then s else ServeSteps(Next(s, Serve(full[0])), full[1..])
  }

  lemma {:induction false} ServeManyIsSteps(s: Feed, full: seq<bool>)
    requires Serves(s, full)
    ensures ServeSteps(s, full).(phase := s.phase) == ServeMany(s, s.phase.todo, s.log[s.taken - 1], full)
    decreases |full|
  {
    if full != [] && !s.crashed {
      var s', e := Next(s, Serve(full[0])), s.log[s.taken - 1];
      OneServed(s, full[0]);
      ServeManyIsSteps(s', full[1..]);
      PhaseIsIdle(s', s.phase, s.phase.todo[1..], e, full[1..]);
    }
  }

  lemma OneServed(s: Feed, full: bool)
    requires Enabled(s, Serve(full)) && s.compactRev <= |s.log|
    ensures var s', todo := Next(s, Serve(full)), s.phase.todo;
      && s'.(phase := s.phase) == ServeOne(s, todo[0], s.log[s.taken - 1], full)
      && s'.log == s.log && s'.taken == s.taken && s'.compactRev == s.compactRev
      && s'.phase == s.phase.(todo := todo[1..])
  {
  }

  /** Serving does not look at the phase. */
  lemma {:induction false} PhaseIsIdle(s: Feed, phase: Phase, todo: seq<nat>, e: Event, full: seq<bool>)
    requires |full| == |todo|
    ensures ServeMany(s.(phase := phase), todo, e, full) == ServeMany(s, todo, e, full).(phase := phase)
    decreases |todo|
  {
    if todo != [] && !s.crashed { PhaseIsIdle(ServeOne(s, todo[0], e, full[0]), phase, todo[1..], e, full[1..]); }
  }

  /** The prefix watchers of one of `keys` that `key` starts with. */
  ghost predicate Gathered(order: seq<nat>, byID: map<nat, Watcher>, keys: seq<Key>, key: Key) {
    forall id :: id in order <==>
      id in byID && byID[id].prefix && byID[id].key in keys && HasPrefix(key, byID[id].key)
  }

  lemma GatheredMore(order: seq<nat>, lists: map<Key, seq<nat>>, byID: map<nat, Watcher>, keys: seq<Key>, k: Key,
                     key: Key)
    requires Gathered(order, byID, keys, key) && ListsOk(lists, byID, true) && k in lists && k !in keys
    ensures Gathered(if HasPrefix(key, k) then order + lists[k] else order, byID, keys + [k], key)
    ensures HasPrefix(key, k) ==> forall id :: id in order ==> id !in lists[k]
  {
  }

  class Hub {
    var watchersByID: map<nat, Watcher>
    var watchers: map<Key, seq<nat>>
    var prefixWatchers: map<Key, seq<nat>>
    var nextWatcherID: nat
    var cancelled: map<nat, Watcher>
    var crashed: bool

    ghost predicate Valid()
      reads this
    {
      && ListsOk(watchers, watchersByID, false) && ListsOk(prefixWatchers, watchersByID, true)
      && forall id :: id in watchersByID ==> id < nextWatcherID
    }

    /** The feed with these watchers. */
    function In(f: Feed): Feed
      reads this
    {
      f.(watchers := watchersByID, nextID := nextWatcherID, closed := cancelled, crashed := crashed)
    }

    constructor ()
      ensures Valid() && In(START) == START
    {
      watchersByID, watchers, prefixWatchers, nextWatcherID := map[], map[], map[], 0;
      cancelled, crashed := map[], false;
    }

    /** `f` is the store at the moment the lock is held. */
    method WatchFrom(f: Feed, key: Key, fromRev: int, prefix: bool) returns (id: Option<nat>)
      requires Valid() && f.compactRev <= |f.log| && !crashed
      modifies this
      ensures Valid() && In(f) == Next(old(In(f)), Register(key, fromRev, prefix))
      ensures id == if fromRev <= f.compactRev then None else Some(old(nextWatcherID))
    {
      if fromRev <= f.compactRev {
        return None;
      }
      var n := nextWatcherID;
      var backlog, lastSentRev := CollectBacklog(f.log[f.compactRev..], key, prefix, fromRev);
      Enlist(Watcher(key, prefix, fromRev, lastSentRev, |f.log|, backlog, [], 0, false, []));
      return Some(n);
    }

    method Enlist(w: Watcher)
      requires Valid()
      modifies this
      ensures Valid() && watchersByID == old(watchersByID)[old(nextWatcherID) := w]
      ensures nextWatcherID == old(nextWatcherID) + 1
      ensures cancelled == old(cancelled) && crashed == old(crashed)
    {
      var n := nextWatcherID;
      nextWatcherID := nextWatcherID + 1;
      ListsAdd(watchers, watchersByID, false, n, w);
      ListsAdd(prefixWatchers, watchersByID, true, n, w);
      if w.prefix {
        prefixWatchers := prefixWatchers[w.key := ListAt(prefixWatchers, w.key) + [n]];
      } else {
        watchers := watchers[w.key := ListAt(watchers, w.key) + [n]];
      }
      watchersByID := watchersByID[n := w];
    }

    /** The channel is closed; whoever still holds the watcher does not learn of it. */
    method CancelWatcher(id: nat)
      requires Valid()
      modifies this`watchersByID, this`watchers, this`prefixWatchers, this`cancelled
      ensures Valid() && watchersByID == old(watchersByID) - {id}
      ensures cancelled == if id in old(watchersByID) then old(cancelled)[id := old(watchersByID)[id]]
        else old(cancelled)
    {
      if id !in watchersByID {
        return;
      }
      var w := watchersByID[id];
      if w.prefix {
        ListsOther(watchers, watchersByID, false, id);
        prefixWatchers := Delisted(prefixWatchers, watchersByID, id);
      } else {
        ListsOther(prefixWatchers, watchersByID, true, id);
        watchers := Delisted(watchers, watchersByID, id);
      }
      watchersByID := watchersByID - {id};
      cancelled := cancelled[id := w];
    }

    /** The copy the dispatcher takes for the event's own key. */
    method CopyOfExact(f: Feed, e: Event) returns (order: seq<nat>)
      requires Valid()
      ensures Copies(In(f), order, false, e)
    {
      order := ListAt(watchers, e.key);
    }

    /** The copies for the prefixes of the event's key; `keys` is the order in which the map is visited. */
    method CopyOfPrefixes(f: Feed, e: Event, keys: seq<Key>) returns (order: seq<nat>)
      requires Valid() && OrderOf(keys, prefixWatchers.Keys)
      ensures Copies(In(f), order, true, e)
    {
      order := [];
      for i := 0 to |keys|
        invariant Distinct(order)
        invariant Gathered(order, watchersByID, keys[..i], e.key)
      {
        assert keys[i] in ToSet(keys);
        assert keys[..i + 1] == keys[..i] + [keys[i]] && keys[i] !in keys[..i];
        GatheredMore(order, prefixWatchers, watchersByID, keys[..i], keys[i], e.key);
        if HasPrefix(e.key, keys[i]) {
          DistinctConcat(order, prefixWatchers[keys[i]]);
          order := order + prefixWatchers[keys[i]];
        }
      }
      assert keys[..|keys|] == keys;
      assert forall key :: key in keys <==> key in ToSet(keys);
    }

    /** Serves a copied list; `full` says whose channel has no room. A full channel cancels its watcher, and a send
        to one cancelled since the list was copied stops the process. */
    method ServeAll(f: Feed, todo: seq<nat>, e: Event, full: seq<bool>)
      requires Valid() && |full| == |todo|
      modifies this`watchersByID, this`watchers, this`prefixWatchers, this`cancelled, this`crashed
      ensures Valid() && In(f) == ServeMany(old(In(f)), todo, e, full)
    {
      ghost var goal := ServeMany(In(f), todo, e, full);
      assert todo[0..] == todo && full[0..] == full;
      var i := 0;
      while i < |todo| && !crashed
        invariant 0 <= i <= |todo| && Valid() && ServeMany(In(f), todo[i..], e, full[i..]) == goal
      {
        assert todo[i..][0] == todo[i] && todo[i..][1..] == todo[i + 1..];
        assert full[i..][0] == full[i] && full[i..][1..] == full[i + 1..];
        Offer(f, todo[i], e, full[i]);
        i := i + 1;
      }
    }

    method Offer(f: Feed, id: nat, e: Event, full: bool)
      requires Valid()
      modifies this`watchersByID, this`watchers, this`prefixWatchers, this`cancelled, this`crashed
      ensures Valid() && In(f) == ServeOne(old(In(f)), id, e, full)
    {
      if id in watchersByID {
        var w := watchersByID[id];
        if e.rev <= w.lastSentRev {
          assert watchersByID[id := w] == watchersByID;
          return;
        }
        if full {
          CancelWatcher(id);
        } else {
          ListsUpdate(watchers, watchersByID, false, id, Served(w, e));
          ListsUpdate(prefixWatchers, watchersByID, true, id, Served(w, e));
          w := w.(live := w.live + [e], lastSentRev := e.rev, channel := w.channel + [e]);
          watchersByID := watchersByID[id := w];
        }
      } else if id in cancelled && e.rev > cancelled[id].lastSentRev {
        crashed := true;
      }
    }
  }
}
