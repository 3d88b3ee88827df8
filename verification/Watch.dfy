/** Watchers of internal/storage/mvcc/watcher.go: one writer, one queue, one dispatcher, and watchers that
    register at any moment. A write, its queueing and its dispatch are separate steps, and so is every send of a
    watcher's backlog, which a goroutine of its own puts on the same channel as the dispatcher. */
module Watch {
  import opened RaftTypes
  import opened Keys
  import opened MvccSpec

  /** `from` is the log's length when the watcher registered; `backlog` and `live` what it was handed. The first
      `pushed` of the backlog have been offered to the channel, `lost` says that one of them found it full, and
      `channel` is everything sent, in the order of sending. */
  datatype Watcher = Watcher(key: Key, prefix: bool, startRev: nat, lastSentRev: nat, from: nat,
                             backlog: seq<Event>, live: seq<Event>, pushed: nat, lost: bool, channel: seq<Event>)

  /** What the dispatcher is at: the copied lists of watchers still to be served. */
  datatype Phase = Idle | Taken | Exact(todo: seq<nat>) | Prefixes(todo: seq<nat>)

  /** `log` is every event ever written; the store keeps those after `compactRev`. Those of the revisions `restored`
      came with a snapshot and are never queued. Of the others, those up to `queued` were sent to the queue and those
      up to `taken` received from it. `closed` are the cancelled watchers, whose channels are closed; a send on one of
      them stops the process. */
  datatype Feed = Feed(log: seq<Event>, compactRev: nat, restored: set<nat>, queued: nat, taken: nat, phase: Phase,
                       watchers: map<nat, Watcher>, nextID: nat, closed: map<nat, Watcher>, crashed: bool)

  const START := Feed([], 0, {}, 0, 0, Idle, map[], 0, map[], false)

  predicate Matches(key: Key, prefix: bool, e: Event) {
    if prefix then HasPrefix(e.key, key) else e.key == key
  }

  // ---------- registering ----------

  function Filter(events: seq<Event>, key: Key, prefix: bool, fromRev: int): seq<Event> {
    if events == [] then []
    else
      var e := events[|events| - 1];
      Filter(events[..|events| - 1], key, prefix, fromRev)
      + if Matches(key, prefix, e) && e.rev >= fromRev then [e] else []
  }

  function Newest(es: seq<Event>, start: nat): nat {
    if es == [] then start else Max(Newest(es[..|es| - 1], start), es[|es| - 1].rev)
  }

  /** The loop of `Watch` over the stored events. */
  method CollectBacklog(events: seq<Event>, key: Key, prefix: bool, fromRev: nat)
    returns (backlog: seq<Event>, lastSentRev: nat)
    requires fromRev >= 1
    ensures backlog == Filter(events, key, prefix, fromRev)
    ensures lastSentRev == Newest(backlog, fromRev - 1)
  {
    backlog, lastSentRev := [], fromRev - 1;
    for i := 0 to |events|
      invariant backlog == Filter(events[..i], key, prefix, fromRev)
      invariant lastSentRev == Newest(backlog, fromRev - 1)
    {
      var e := events[i];
      assert events[..i + 1][..i] == events[..i];
      if Matches(key, prefix, e) && e.rev >= fromRev {
        assert (backlog + [e])[..|backlog|] == backlog;
        backlog := backlog + [e];
        if e.rev > lastSentRev {
          lastSentRev := e.rev;
        }
      }
    }
    assert events[..|events|] == events;
  }

  // ---------- steps ----------

  datatype Step =
    | Commit(writes: seq<Write>)
    | Queue
    | Take
    | CopyExact(order: seq<nat>)
    | CopyPrefixes(order: seq<nat>)
    | Serve(full: bool)
    | Push(id: nat, full: bool)
    | Finish
    | Register(key: Key, fromRev: int, prefix: bool)
    | Cancel(id: nat)
    | Trim(rev: nat)
    | Restore(whole: seq<Event>, compact: nat)

  function Revised(writes: seq<Write>, n: nat): (es: seq<Event>)
    ensures |es| == |writes| && forall i :: 0 <= i < |es| ==> es[i].rev == n + i + 1
  {
    seq(|writes|, i requires 0 <= i < |writes| => EventOf(writes[i], n + i + 1))
  }

  ghost predicate Copies(s: Feed, order: seq<nat>, prefix: bool, e: Event) {
    && (forall id :: id in order <==>
          id in s.watchers && s.watchers[id].prefix == prefix && Matches(s.watchers[id].key, prefix, e))
    && Distinct(order)
  }

  ghost predicate Enabled(s: Feed, a: Step) {
    && !s.crashed
    && match a
    case Queue => s.queued <= |s.log| && PastRestored(s.restored, s.queued, |s.log|) < |s.log|
    case Take => s.phase.Idle? && s.taken <= s.queued && PastRestored(s.restored, s.taken, s.queued) < s.queued
    case CopyExact(order) => s.phase.Taken? && 1 <= s.taken <= |s.log| && Copies(s, order, false, s.log[s.taken - 1])
    case CopyPrefixes(order) =>
      s.phase == Exact([]) && 1 <= s.taken <= |s.log| && Copies(s, order, true, s.log[s.taken - 1])
    case Push(id, _) => HasBacklog(s.watchers, id) || HasBacklog(s.closed, id)
    case Serve(_) => (s.phase.Exact? || s.phase.Prefixes?) && s.phase.todo != [] && 1 <= s.taken <= |s.log|
    case Finish => s.phase == Prefixes([])
    case Trim(rev) => s.compactRev < rev <= |s.log|
    case Restore(whole, compact) => s.log <= whole && IsLog(whole) && compact <= |whole|
    case _ => true
  }

  /** The revisions after `lo` up to `hi`. */
  function Revisions(lo: nat, hi: nat): (r: set<nat>)
    ensures forall n :: n in r <==> lo < n <= hi
  {
    if hi <= lo then {} else Revisions(lo, hi - 1) + {hi}
  }

  /** The last revision up to `hi` before which, from `n` on, all came with a snapshot. */
  function PastRestored(restored: set<nat>, n: nat, hi: nat): (m: nat)
    requires n <= hi
    ensures n <= m <= hi && (forall k :: n < k <= m ==> k in restored) && (m < hi ==> m + 1 !in restored)
    decreases hi - n
  {
    if n == hi || n + 1 !in restored then n else PastRestored(restored, n + 1, hi)
  }

  predicate HasBacklog(watchers: map<nat, Watcher>, id: nat) {
    id in watchers && watchers[id].pushed < |watchers[id].backlog|
  }

  function Served(w: Watcher, e: Event): Watcher {
    if e.rev <= w.lastSentRev then w else w.(live := w.live + [e], lastSentRev := e.rev, channel := w.channel + [e])
  }

  function Pushed(w: Watcher, full: bool): Watcher
    requires w.pushed < |w.backlog|
  {
    if full then w.(pushed := w.pushed + 1, lost := true)
    else w.(pushed := w.pushed + 1, channel := w.channel + [w.backlog[w.pushed]])
  }

  function Close(s: Feed, id: nat): Feed {
    if id in s.watchers then s.(watchers := s.watchers - {id}, closed := s.closed[id := s.watchers[id]]) else s
  }

  /** The dispatcher's treatment of one watcher: skipped if it had the event, cancelled if its channel is full; a
      send to one that was cancelled since the list was copied stops the process. */
  function ServeOne(s: Feed, id: nat, e: Event, full: bool): Feed {
    if id in s.watchers then
      if full && e.rev > s.watchers[id].lastSentRev then Close(s, id)
      else s.(watchers := s.watchers[id := Served(s.watchers[id], e)])
    else if id in s.closed && e.rev > s.closed[id].lastSentRev then s.(crashed := true)
    else s
  }

  /** The backlog goroutine's next send; on a closed channel it stops the process. */
  function PushOne(s: Feed, id: nat, full: bool): Feed
    requires HasBacklog(s.watchers, id) || HasBacklog(s.closed, id)
  {
    if HasBacklog(s.watchers, id) then s.(watchers := s.watchers[id := Pushed(s.watchers[id], full)])
    else s.(crashed := true)
  }

  function NewWatcher(s: Feed, key: Key, fromRev: nat, prefix: bool): Watcher
    requires fromRev > s.compactRev && s.compactRev <= |s.log|
  {
    var backlog := Filter(s.log[s.compactRev..], key, prefix, fromRev);
    Watcher(key, prefix, fromRev, Newest(backlog, fromRev - 1), |s.log|, backlog, [], 0, false, [])
  }

  ghost function Next(s: Feed, a: Step): Feed
    requires Enabled(s, a) && s.compactRev <= |s.log|
  {
    match a
    case Commit(writes) => s.(log := s.log + Revised(writes, |s.log|))
    case Queue => s.(queued := PastRestored(s.restored, s.queued, |s.log|) + 1)
    case Take => s.(taken := PastRestored(s.restored, s.taken, s.queued) + 1, phase := Taken)
    case CopyExact(order) => s.(phase := Exact(order))
    case CopyPrefixes(order) => s.(phase := Prefixes(order))
    case Serve(full) =>
      ServeOne(s, s.phase.todo[0], s.log[s.taken - 1], full).(phase := s.phase.(todo := s.phase.todo[1..]))
    case Push(id, full) => PushOne(s, id, full)
    case Finish => s.(phase := Idle)
    case Register(key, fromRev, prefix) =>
      if fromRev <= s.compactRev then s
      else s.(watchers := s.watchers[s.nextID := NewWatcher(s, key, fromRev, prefix)], nextID := s.nextID + 1)
    case Cancel(id) => Close(s, id)
    case Trim(rev) => s.(compactRev := rev)
    case Restore(whole, compact) =>
      s.(log := whole, compactRev := compact, restored := s.restored + Revisions(|s.log|, |whole|))
  }

  // ---------- what a watcher should have ----------

  /** The matching events with revisions lo..hi but not in `skip`, oldest first. */
  function Select(log: seq<Event>, skip: set<nat>, key: Key, prefix: bool, lo: nat, hi: nat): seq<Event>
    requires hi <= |log|
  {
    if hi < lo || hi == 0 then []
    else
      Select(log, skip, key, prefix, lo, hi - 1)
      + if hi !in skip && Matches(key, prefix, log[hi - 1]) then [log[hi - 1]] else []
  }

  function Since(restored: set<nat>, from: nat): set<nat> {
    set n | n in restored && n > from
  }

  /** How far the dispatcher is with a watcher. */
  function Handled(s: Feed, id: nat, prefix: bool): nat {
    match s.phase
    case Idle => s.taken
    case Taken => s.taken - if s.taken > 0 then 1 else 0
    case Exact(todo) => if prefix || id in todo then s.taken - (if s.taken > 0 then 1 else 0) else s.taken
    case Prefixes(todo) => if prefix && id in todo then s.taken - (if s.taken > 0 then 1 else 0) else s.taken
  }

  /** The watcher's account up to event `h`: every matching revision from its start that it found or that was queued
      is in the backlog or was sent live, none is in both, and the mark separates what it has from what it lacks. */
  ghost predicate Account(log: seq<Event>, restored: set<nat>, w: Watcher, h: nat) {
    && h <= |log| && w.from <= |log| && w.startRev >= 1
    && w.backlog == Select(log, {}, w.key, w.prefix, w.startRev, w.from)
    && w.live == Select(log, restored, w.key, w.prefix, Max(w.from + 1, w.startRev), h)
    && w.lastSentRev >= w.startRev - 1
    && (forall i {:trigger log[i]} ::
          w.startRev - 1 <= i < w.from && Matches(w.key, w.prefix, log[i]) ==> i < w.lastSentRev)
    && (w.lastSentRev == w.startRev - 1 || w.lastSentRev <= Max(w.from, h))
  }

  ghost predicate AccountOf(s: Feed, id: nat) {
    id in s.watchers ==> Account(s.log, s.restored, s.watchers[id], Handled(s, id, s.watchers[id].prefix))
  }

  ghost predicate Basic(s: Feed) {
    && s.taken <= s.queued <= |s.log| && s.compactRev <= |s.log|
    && (!s.phase.Idle? ==> s.taken >= 1 && s.taken !in s.restored)
    && IsLog(s.log) && (forall n :: n in s.restored ==> 1 <= n <= |s.log|)
    && (forall id :: id in s.watchers ==> id < s.nextID)
    && (forall id :: id in s.closed ==> id < s.nextID && id !in s.watchers)
  }

  ghost predicate Distinct(todo: seq<nat>) {
    forall i, j :: 0 <= i < j < |todo| ==> todo[i] != todo[j]
  }

  /** A watcher that is due is of the kind being served and matches the event. */
  ghost predicate DueFor(s: Feed, id: nat) {
    && id < s.nextID
    && (id in s.watchers ==>
          && s.watchers[id].prefix == s.phase.Prefixes?
          && 1 <= s.taken <= |s.log| && Matches(s.watchers[id].key, s.watchers[id].prefix, s.log[s.taken - 1]))
  }

  ghost predicate Due(s: Feed) {
    s.phase.Exact? || s.phase.Prefixes? ==>
      Distinct(s.phase.todo) && forall id {:trigger DueFor(s, id)} :: id in s.phase.todo ==> DueFor(s, id)
  }

  ghost predicate Inv(s: Feed) {
    Basic(s) && Due(s) && forall id {:trigger AccountOf(s, id)} :: AccountOf(s, id)
  }

  // ---------- selections ----------

  ghost predicate IsLog(log: seq<Event>) {
    forall i :: 0 <= i < |log| ==> log[i].rev == i + 1
  }

  lemma {:induction false} SelectStable(log: seq<Event>, more: seq<Event>, skip: set<nat>, skip': set<nat>,
                                        key: Key, prefix: bool, lo: nat, hi: nat)
    requires hi <= |log| && forall n :: lo <= n <= hi ==> (n in skip <==> n in skip')
    ensures Select(log + more, skip', key, prefix, lo, hi) == Select(log, skip, key, prefix, lo, hi)
    decreases hi
  {
    if hi >= lo && hi > 0 { SelectStable(log, more, skip, skip', key, prefix, lo, hi - 1); }
  }

  /** A matching event of the log with a revision in lo..hi. */
  predicate Falls(log: seq<Event>, key: Key, prefix: bool, lo: nat, hi: nat, e: Event) {
    1 <= e.rev && lo <= e.rev <= hi && e.rev <= |log| && log[e.rev - 1] == e && Matches(key, prefix, e)
  }

  lemma {:induction false} SelectHas(log: seq<Event>, skip: set<nat>, key: Key, prefix: bool, lo: nat, hi: nat,
                                     e: Event)
    requires hi <= |log| && IsLog(log)
    ensures e in Select(log, skip, key, prefix, lo, hi) <==> Falls(log, key, prefix, lo, hi, e) && e.rev !in skip
    decreases hi
  {
    if hi >= lo && hi > 0 {
      SelectHas(log, skip, key, prefix, lo, hi - 1, e);
      assert log[hi - 1].rev == hi;
    }
  }

  ghost predicate Ascending(es: seq<Event>) {
    forall i, j :: 0 <= i < j < |es| ==> es[i].rev < es[j].rev
  }

  lemma {:induction false} SelectIncreases(log: seq<Event>, skip: set<nat>, key: Key, prefix: bool, lo: nat, hi: nat)
    requires hi <= |log| && IsLog(log)
    ensures Ascending(Select(log, skip, key, prefix, lo, hi))
    decreases hi
  {
    if hi >= lo && hi > 0 {
      SelectIncreases(log, skip, key, prefix, lo, hi - 1);
      var init := Select(log, skip, key, prefix, lo, hi - 1);
      forall e | e in init ensures e.rev < log[hi - 1].rev { SelectHas(log, skip, key, prefix, lo, hi - 1, e); }
    }
  }

  lemma {:induction false} SelectSplits(log: seq<Event>, skip: set<nat>, key: Key, prefix: bool, lo: nat, mid: nat,
                                        hi: nat)
    requires mid <= hi <= |log|
    ensures Select(log, skip, key, prefix, lo, hi)
      == Select(log, skip, key, prefix, lo, mid) + Select(log, skip, key, prefix, Max(mid + 1, lo), hi)
    decreases hi
  {
    if hi > mid { SelectSplits(log, skip, key, prefix, lo, mid, hi - 1); }
  }

  lemma {:induction false} FilterIsSelect(log: seq<Event>, c: nat, key: Key, prefix: bool, fromRev: nat, hi: nat)
    requires IsLog(log) && c <= hi <= |log| && fromRev > c
    ensures Filter(log[c..hi], key, prefix, fromRev) == Select(log, {}, key, prefix, fromRev, hi)
    decreases hi
  {
    if hi > c {
      FilterIsSelect(log, c, key, prefix, fromRev, hi - 1);
      var es := log[c..hi];
      assert es[..|es| - 1] == log[c..hi - 1] && es[|es| - 1] == log[hi - 1];
      if hi < fromRev { assert Select(log, {}, key, prefix, fromRev, hi - 1) == []; }
    }
  }

  lemma {:induction false} NewestIs(es: seq<Event>, start: nat)
    ensures Newest(es, start) >= start && forall e :: e in es ==> e.rev <= Newest(es, start)
    ensures Newest(es, start) == start || exists e :: e in es && e.rev == Newest(es, start)
  {
    if es != [] {
      var init, last := es[..|es| - 1], es[|es| - 1];
      NewestIs(init, start);
      assert es == init + [last];
      assert last in es;
    }
  }

  // ---------- one watcher ----------

  /** The mark of a new watcher covers its backlog and nothing later. */
  lemma MarkOfBacklog(log: seq<Event>, key: Key, prefix: bool, fromRev: nat)
    requires IsLog(log) && fromRev >= 1
    ensures var mark := Newest(Select(log, {}, key, prefix, fromRev, |log|), fromRev - 1);
      && fromRev - 1 <= mark && (mark == fromRev - 1 || mark <= |log|)
      && forall i {:trigger log[i]} :: fromRev - 1 <= i < |log| && Matches(key, prefix, log[i]) ==> i < mark
  {
    var es := Select(log, {}, key, prefix, fromRev, |log|);
    var mark := Newest(es, fromRev - 1);
    NewestIs(es, fromRev - 1);
    forall i | fromRev - 1 <= i < |log| && Matches(key, prefix, log[i])
      ensures i < mark
    {
      SelectHas(log, {}, key, prefix, fromRev, |log|, log[i]);
    }
    if mark != fromRev - 1 {
      var e :| e in es && e.rev == mark;
      SelectHas(log, {}, key, prefix, fromRev, |log|, e);
    }
  }

  lemma AccountAtStart(s: Feed, key: Key, fromRev: nat, prefix: bool, h: nat)
    requires Basic(s) && fromRev > s.compactRev && h <= |s.log|
    ensures Account(s.log, s.restored, NewWatcher(s, key, fromRev, prefix), h)
  {
    assert s.log[s.compactRev..|s.log|] == s.log[s.compactRev..];
    FilterIsSelect(s.log, s.compactRev, key, prefix, fromRev, |s.log|);
    MarkOfBacklog(s.log, key, prefix, fromRev);
  }

  lemma AccountGrows(log: seq<Event>, more: seq<Event>, restored: set<nat>, restored': set<nat>, w: Watcher, h: nat)
    requires Account(log, restored, w, h) && forall n :: n <= |log| ==> (n in restored <==> n in restored')
    ensures Account(log + more, restored', w, h)
  {
    SelectStable(log, more, {}, {}, w.key, w.prefix, w.startRev, w.from);
    SelectStable(log, more, restored, restored', w.key, w.prefix, Max(w.from + 1, w.startRev), h);
  }

  /** One event further: a matching event that is dispatched is sent exactly when the backlog does not have it and the
      watcher asked for it. */
  lemma AccountNext(log: seq<Event>, restored: set<nat>, w: Watcher, h: nat)
    requires Account(log, restored, w, h) && h < |log| && IsLog(log)
    ensures var sent := h + 1 !in restored && Matches(w.key, w.prefix, log[h]);
      Account(log, restored, if sent then Served(w, log[h]) else w, h + 1)
  {
    var e := log[h];
    if h + 1 !in restored && Matches(w.key, w.prefix, e) {
      assert e.rev == h + 1;
      assert e.rev > w.lastSentRev <==> h + 1 > w.from && h + 1 >= w.startRev;
    }
  }

  /** Nothing for the watcher between `h` and `h'`. */
  ghost predicate Quiet(log: seq<Event>, restored: set<nat>, w: Watcher, h: nat, h': nat) {
    && h <= h' <= |log|
    && forall k {:trigger log[k]} :: h <= k < h' ==> k + 1 in restored || !Matches(w.key, w.prefix, log[k])
  }

  lemma {:induction false} AccountOn(log: seq<Event>, restored: set<nat>, w: Watcher, h: nat, h': nat)
    requires Account(log, restored, w, h) && IsLog(log) && Quiet(log, restored, w, h, h')
    ensures Account(log, restored, w, h')
    decreases h' - h
  {
    if h < h' {
      AccountNext(log, restored, w, h);
      AccountOn(log, restored, w, h + 1, h');
    }
  }

  // ---------- every step ----------

  /** What is due stays due while the dispatcher rests. */
  lemma DueStays(s: Feed, s': Feed)
    requires Basic(s) && Due(s) && s'.phase == s.phase && s'.taken == s.taken && s.log <= s'.log
    requires s.nextID <= s'.nextID
    requires forall id :: id in s'.watchers && id < s.nextID ==>
      id in s.watchers && s'.watchers[id].key == s.watchers[id].key && s'.watchers[id].prefix == s.watchers[id].prefix
    ensures Due(s')
  {
    if s.phase.Exact? || s.phase.Prefixes? {
      forall id | id in s.phase.todo ensures DueFor(s', id) { assert DueFor(s, id); }
    }
  }

  /** A longer log: what was not dispatched is not dispatched yet. */
  lemma GrowKeeps(s: Feed, s': Feed)
    requires Inv(s) && Basic(s') && s.log <= s'.log
    requires forall n :: n <= |s.log| ==> (n in s.restored <==> n in s'.restored)
    requires s' == s.(log := s'.log, restored := s'.restored, compactRev := s'.compactRev)
    ensures Inv(s')
  {
    DueStays(s, s');
    assert s'.log == s.log + s'.log[|s.log|..];
    forall id
      ensures AccountOf(s', id)
    {
      assert AccountOf(s, id);
      if id in s.watchers {
        var w := s.watchers[id];
        AccountGrows(s.log, s'.log[|s.log|..], s.restored, s'.restored, w, Handled(s, id, w.prefix));
      }
    }
  }

  /** Steps that leave the log and the watchers: one that is not due moves on past events it ignores. */
  lemma PhaseKeeps(s: Feed, s': Feed)
    requires Inv(s) && Basic(s') && Due(s')
    requires s' == s.(queued := s'.queued, taken := s'.taken, phase := s'.phase)
    requires forall id :: id in s.watchers ==>
      var w := s.watchers[id];
      Quiet(s.log, s.restored, w, Handled(s, id, w.prefix), Handled(s', id, w.prefix))
    ensures Inv(s')
  {
    forall id
      ensures AccountOf(s', id)
    {
      assert AccountOf(s, id);
      if id in s.watchers {
        var w := s.watchers[id];
        AccountOn(s.log, s.restored, w, Handled(s, id, w.prefix), Handled(s', id, w.prefix));
      }
    }
  }

  lemma TodoTail(todo: seq<nat>)
    requires Distinct(todo) && todo != []
    ensures Distinct(todo[1..]) && forall id :: id in todo[1..] <==> id in todo && id != todo[0]
  {
  }

  lemma ServeDue(s: Feed, full: bool)
    requires Basic(s) && Due(s) && Enabled(s, Serve(full))
    ensures Basic(Next(s, Serve(full))) && Due(Next(s, Serve(full)))
  {
    var s' := Next(s, Serve(full));
    TodoTail(s.phase.todo);
    forall id | id in s'.phase.todo
      ensures DueFor(s', id)
    {
      assert DueFor(s, id);
    }
  }

  lemma ServedAccount(s: Feed, full: bool)
    requires Basic(s) && Due(s) && Enabled(s, Serve(full)) && Distinct(s.phase.todo[1..])
    requires s.phase.todo[0] !in s.phase.todo[1..]
    requires AccountOf(s, s.phase.todo[0])
    ensures AccountOf(Next(s, Serve(full)), s.phase.todo[0])
  {
    var id, s' := s.phase.todo[0], Next(s, Serve(full));
    if id in s'.watchers {
      var w, e := s.watchers[id], s.log[s.taken - 1];
      assert DueFor(s, id);
      assert s'.watchers[id] == Served(w, e) && Handled(s, id, w.prefix) == s.taken - 1
        && Handled(s', id, w.prefix) == s.taken;
      AccountNext(s.log, s.restored, w, s.taken - 1);
    }
  }

  lemma OtherAccount(s: Feed, full: bool, id: nat)
    requires Basic(s) && Enabled(s, Serve(full)) && AccountOf(s, id) && id != s.phase.todo[0]
    requires id in s.phase.todo[1..] <==> id in s.phase.todo
    ensures AccountOf(Next(s, Serve(full)), id)
  {
    var s' := Next(s, Serve(full));
    assert id in s'.watchers ==> id in s.watchers && s'.watchers[id] == s.watchers[id];
  }

  lemma ServeKeeps(s: Feed, full: bool)
    requires Inv(s) && Enabled(s, Serve(full))
    ensures Inv(Next(s, Serve(full)))
  {
    ServeDue(s, full);
    TodoTail(s.phase.todo);
    forall id
      ensures AccountOf(Next(s, Serve(full)), id)
    {
      assert AccountOf(s, id);
      if id == s.phase.todo[0] { ServedAccount(s, full); } else { OtherAccount(s, full, id); }
    }
  }

  lemma RegisterKeeps(s: Feed, key: Key, fromRev: int, prefix: bool)
    requires Inv(s) && Enabled(s, Register(key, fromRev, prefix))
    ensures Inv(Next(s, Register(key, fromRev, prefix)))
  {
    var s' := Next(s, Register(key, fromRev, prefix));
    DueStays(s, s');
    forall id
      ensures AccountOf(s', id)
    {
      assert AccountOf(s, id);
      if fromRev > s.compactRev && id == s.nextID { AccountAtStart(s, key, fromRev, prefix, Handled(s', id, prefix)); }
    }
  }

  /** Alike but for the channel. */
  ghost predicate SameAccount(w: Watcher, v: Watcher) {
    w == v.(pushed := w.pushed, lost := w.lost, channel := w.channel)
  }

  lemma RemovalKeeps(s: Feed, s': Feed)
    requires Inv(s) && Basic(s')
    requires s' == s.(watchers := s'.watchers, compactRev := s'.compactRev, closed := s'.closed, crashed := s'.crashed)
    requires forall id :: id in s'.watchers ==> id in s.watchers && SameAccount(s'.watchers[id], s.watchers[id])
    ensures Inv(s')
  {
    DueStays(s, s');
    forall id ensures AccountOf(s', id) { assert AccountOf(s, id); }
  }

  lemma CloseKeeps(s: Feed, id: nat)
    requires Inv(s)
    ensures Inv(Close(s, id))
  {
    RemovalKeeps(s, Close(s, id));
  }

  lemma PushKeeps(s: Feed, id: nat, full: bool)
    requires Inv(s) && Enabled(s, Push(id, full))
    ensures Inv(PushOne(s, id, full))
  {
    RemovalKeeps(s, PushOne(s, id, full));
  }

  lemma CopyKeeps(s: Feed, a: Step)
    requires Inv(s) && Enabled(s, a) && (a.CopyExact? || a.CopyPrefixes?)
    ensures Inv(Next(s, a))
  {
    PhaseKeeps(s, Next(s, a));
  }

  lemma MoveKeeps(s: Feed, a: Step)
    requires Inv(s) && Enabled(s, a) && (a.Queue? || a.Take? || a.Finish?)
    ensures Inv(Next(s, a))
  {
    if a.Queue? { DueStays(s, Next(s, a)); }
    if a.Take? {
      var m := PastRestored(s.restored, s.taken, s.queued);
      forall k {:trigger s.log[k]} | s.taken <= k < m ensures k + 1 in s.restored { assert s.taken < k + 1 <= m; }
    }
    PhaseKeeps(s, Next(s, a));
  }

  lemma StepKeeps(s: Feed, a: Step)
    requires Inv(s) && Enabled(s, a)
    ensures Inv(Next(s, a))
  {
    match a
    case Commit(writes) => GrowKeeps(s, Next(s, a));
    case Restore(whole, compact) => GrowKeeps(s, Next(s, a));
    case Serve(full) => ServeKeeps(s, full);
    case Register(key, fromRev, prefix) => RegisterKeeps(s, key, fromRev, prefix);
    case Cancel(id) => CloseKeeps(s, id);
    case Trim(rev) => RemovalKeeps(s, Next(s, a));
    case Push(id, full) => PushKeeps(s, id, full);
    case CopyExact(order) => CopyKeeps(s, a);
    case CopyPrefixes(order) => CopyKeeps(s, a);
    case _ => MoveKeeps(s, a);
  }

  // ---------- whole runs ----------

  ghost predicate IsRun(feeds: seq<Feed>, steps: seq<Step>) {
    && |feeds| == |steps| + 1 && feeds[0] == START
    && forall i :: 0 <= i < |steps| ==>
      Enabled(feeds[i], steps[i]) && feeds[i].compactRev <= |feeds[i].log| && feeds[i + 1] == Next(feeds[i], steps[i])
  }

  lemma {:induction false} RunInv(feeds: seq<Feed>, steps: seq<Step>, i: nat)
    requires IsRun(feeds, steps) && i < |feeds|
    ensures Inv(feeds[i])
  {
    if i > 0 {
      RunInv(feeds, steps, i - 1);
      StepKeeps(feeds[i - 1], steps[i - 1]);
    }
  }

  /** Wherever a watcher registered between a write, its queueing and its dispatch: backlog and live together are
      exactly the matching events from its start that no snapshot brought since, oldest first, as far as the dispatcher
      has come with it. */
  lemma HandOff(feeds: seq<Feed>, steps: seq<Step>, i: nat, id: nat)
    requires IsRun(feeds, steps) && i < |feeds| && id in feeds[i].watchers
    ensures var s := feeds[i];
      var w := s.watchers[id];
      var reached := Max(w.from, Handled(s, id, w.prefix));
      && reached <= |s.log|
      && w.backlog + w.live == Select(s.log, Since(s.restored, w.from), w.key, w.prefix, w.startRev, reached)
  {
    RunInv(feeds, steps, i);
    assert AccountOf(feeds[i], id);
    var w := feeds[i].watchers[id];
    AccountWhole(feeds[i].log, feeds[i].restored, w, Handled(feeds[i], id, w.prefix));
  }

  lemma AccountWhole(log: seq<Event>, restored: set<nat>, w: Watcher, h: nat)
    requires Account(log, restored, w, h)
    ensures w.backlog + w.live == Select(log, Since(restored, w.from), w.key, w.prefix, w.startRev, Max(w.from, h))
  {
    var skip, lo := Since(restored, w.from), Max(w.from + 1, w.startRev);
    assert log + [] == log;
    SelectStable(log, [], {}, skip, w.key, w.prefix, w.startRev, w.from);
    SelectStable(log, [], restored, skip, w.key, w.prefix, lo, h);
    if h >= w.from {
      SelectSplits(log, skip, w.key, w.prefix, w.startRev, w.from, h);
    } else {
      assert w.live == [];
    }
  }

  /** Each event goes to the backlog or to the live stream, by its revision alone; live revisions strictly increase. */
  lemma HandsOverOnce(feeds: seq<Feed>, steps: seq<Step>, i: nat, id: nat, e: Event)
    requires IsRun(feeds, steps) && i < |feeds| && id in feeds[i].watchers
    ensures var (s, w) := (feeds[i], feeds[i].watchers[id]);
      && (e in w.backlog <==> Falls(s.log, w.key, w.prefix, w.startRev, w.from, e))
      && (e in w.live <==> Falls(s.log, w.key, w.prefix, Max(w.from + 1, w.startRev), Handled(s, id, w.prefix), e)
                           && e.rev !in s.restored)
      && Ascending(w.live)
  {
    RunInv(feeds, steps, i);
    var s := feeds[i];
    assert AccountOf(s, id);
    var w := s.watchers[id];
    var lo, h := Max(w.from + 1, w.startRev), Handled(s, id, w.prefix);
    SelectHas(s.log, {}, w.key, w.prefix, w.startRev, w.from, e);
    SelectHas(s.log, s.restored, w.key, w.prefix, lo, h, e);
    SelectIncreases(s.log, s.restored, w.key, w.prefix, lo, h);
  }

  /** The dispatcher rests and has had everything that is ever queued. */
  predicate Drained(s: Feed) {
    s.phase.Idle? && forall n :: s.taken < n <= |s.log| ==> n in s.restored
  }

  /** Once the queue is drained, a matching event from the start was handed over, and then on exactly one side, if and
      only if it did not come with a snapshot after the watcher registered. */
  lemma MissedIff(feeds: seq<Feed>, steps: seq<Step>, i: nat, id: nat, e: Event)
    requires IsRun(feeds, steps) && i < |feeds| && id in feeds[i].watchers && Drained(feeds[i])
    requires e in feeds[i].log && e.rev >= feeds[i].watchers[id].startRev
    requires Matches(feeds[i].watchers[id].key, feeds[i].watchers[id].prefix, e)
    ensures var w := feeds[i].watchers[id];
      && (e in w.backlog || e in w.live <==> e.rev !in Since(feeds[i].restored, w.from))
      && !(e in w.backlog && e in w.live)
  {
    RunInv(feeds, steps, i);
    HandsOverOnce(feeds, steps, i, id, e);
    var n :| 0 <= n < |feeds[i].log| && feeds[i].log[n] == e;
    assert AccountOf(feeds[i], id);
  }

  lemma {:induction false} NoneRestored(feeds: seq<Feed>, steps: seq<Step>, i: nat)
    requires IsRun(feeds, steps) && i < |feeds| && forall n :: 0 <= n < i ==> !steps[n].Restore?
    ensures feeds[i].restored == {}
  {
    if i > 0 { NoneRestored(feeds, steps, i - 1); }
  }

  /** Where no snapshot is restored, every matching event from the start is handed over on exactly one side. */
  lemma NothingIsMissed(feeds: seq<Feed>, steps: seq<Step>, i: nat, id: nat, e: Event)
    requires IsRun(feeds, steps) && i < |feeds| && forall n :: 0 <= n < i ==> !steps[n].Restore?
    requires id in feeds[i].watchers && feeds[i].phase.Idle? && feeds[i].taken == |feeds[i].log|
    requires e in feeds[i].log && e.rev >= feeds[i].watchers[id].startRev
    requires Matches(feeds[i].watchers[id].key, feeds[i].watchers[id].prefix, e)
    ensures e in feeds[i].watchers[id].backlog <==> e !in feeds[i].watchers[id].live
  {
    NoneRestored(feeds, steps, i);
    MissedIff(feeds, steps, i, id, e);
  }
}
