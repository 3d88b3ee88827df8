/** Runs in which a watcher is not served as it should be: the process stops, a channel is out of order, an event is
    dropped, an event is missed. */
module WatchScenario {
  import opened Keys
  import opened MvccSpec
  import opened Watch

  const KEY: Key := [1]
  const PUT := Write(KEY, [], false)
  const CAPACITY := 16

  function Ev(rev: nat): Event {
    EventOf(PUT, rev)
  }

  /** A feed with one watcher of `KEY` from revision 1 on. */
  function With(log: seq<Event>, queued: nat, taken: nat, phase: Phase, w: Watcher): Feed {
    Feed(log, 0, {}, queued, taken, phase, map[0 := w], 1, map[], false)
  }

  function Mine(from: nat, backlog: seq<Event>, live: seq<Event>, mark: nat, pushed: nat, lost: bool,
                channel: seq<Event>): Watcher {
    Watcher(KEY, false, 1, mark, from, backlog, live, pushed, lost, channel)
  }

  ghost predicate EndsIn(feeds: seq<Feed>, steps: seq<Step>, s: Feed) {
    IsRun(feeds, steps) && feeds[|steps|] == s
  }

  lemma Extend(feeds: seq<Feed>, steps: seq<Step>, s: Feed, a: Step, s': Feed) returns (more: seq<Feed>)
    requires EndsIn(feeds, steps, s) && Enabled(s, a) && s.compactRev <= |s.log| && s' == Next(s, a)
    ensures EndsIn(more, steps + [a], s')
  {
    more := feeds + [s'];
    var steps' := steps + [a];
    forall i | 0 <= i < |steps'|
      ensures Enabled(more[i], steps'[i]) && more[i].compactRev <= |more[i].log|
      ensures more[i + 1] == Next(more[i], steps'[i])
    {
      if i < |steps| { assert steps'[i] == steps[i]; }
    }
  }

  // ---------- a send on a closed channel ----------

  lemma Written() returns (feeds: seq<Feed>)
    ensures EndsIn(feeds, [Commit([PUT])], Feed([Ev(1)], 0, {}, 0, 0, Idle, map[], 0, map[], false))
  {
    assert Revised([PUT], 0) == [Ev(1)];
    feeds := Extend([START], [], START, Commit([PUT]), Feed([Ev(1)], 0, {}, 0, 0, Idle, map[], 0, map[], false));
  }

  const REGISTER := Register(KEY, 1, false)
  const FIRST := Mine(1, [Ev(1)], [], 1, 0, false, [])

  lemma Registered() returns (feeds: seq<Feed>)
    ensures EndsIn(feeds, [Commit([PUT]), REGISTER], With([Ev(1)], 0, 0, Idle, FIRST))
  {
    var s := Feed([Ev(1)], 0, {}, 0, 0, Idle, map[], 0, map[], false);
    feeds := Written();
    assert s.log[0..] == [Ev(1)] && [Ev(1)][..0] == [];
    assert Filter([Ev(1)], KEY, false, 1) == [Ev(1)];
    assert NewWatcher(s, KEY, 1, false) == FIRST;
    feeds := Extend(feeds, [Commit([PUT])], s, REGISTER, With([Ev(1)], 0, 0, Idle, FIRST));
  }

  /** A key is written, a watcher of it registers and is cancelled before its backlog was sent: the next send stops the
      process. */
  lemma CancelStops() returns (feeds: seq<Feed>, steps: seq<Step>)
    ensures IsRun(feeds, steps) && steps == [Commit([PUT]), REGISTER, Cancel(0), Push(0, false)] && feeds[4].crashed
  {
    var s := With([Ev(1)], 0, 0, Idle, FIRST);
    var s' := Feed([Ev(1)], 0, {}, 0, 0, Idle, map[], 1, map[0 := FIRST], false);
    feeds := Registered();
    feeds := Extend(feeds, [Commit([PUT]), REGISTER], s, Cancel(0), s');
    feeds := Extend(feeds, [Commit([PUT]), REGISTER, Cancel(0)], s', Push(0, false), s'.(crashed := true));
    steps := [Commit([PUT]), REGISTER, Cancel(0), Push(0, false)];
  }

  // ---------- a live event overtakes the backlog ----------

  const TWO := [Ev(1), Ev(2)]
  const QUEUED := [Commit([PUT]), REGISTER, Commit([PUT]), Queue, Queue]

  lemma SecondWritten() returns (feeds: seq<Feed>)
    ensures EndsIn(feeds, [Commit([PUT]), REGISTER, Commit([PUT])], With(TWO, 0, 0, Idle, FIRST))
  {
    feeds := Registered();
    assert Revised([PUT], 1) == [Ev(2)] && [Ev(1)] + [Ev(2)] == TWO;
    feeds := Extend(feeds, [Commit([PUT]), REGISTER], With([Ev(1)], 0, 0, Idle, FIRST), Commit([PUT]),
                    With(TWO, 0, 0, Idle, FIRST));
  }

  lemma SecondQueued() returns (feeds: seq<Feed>)
    ensures EndsIn(feeds, QUEUED, With(TWO, 2, 0, Idle, FIRST))
  {
    feeds := SecondWritten();
    feeds := Extend(feeds, [Commit([PUT]), REGISTER, Commit([PUT])], With(TWO, 0, 0, Idle, FIRST), Queue,
                    With(TWO, 1, 0, Idle, FIRST));
    feeds := Extend(feeds, [Commit([PUT]), REGISTER, Commit([PUT]), Queue], With(TWO, 1, 0, Idle, FIRST), Queue,
                    With(TWO, 2, 0, Idle, FIRST));
  }

  /** What the dispatcher does with one event for which the watcher is the only one. */
  const DISPATCH := [Take, CopyExact([0]), Serve(false), CopyPrefixes([]), Finish]

  lemma Serving(s: Feed, w: Watcher, n: nat)
    requires n < 2 && s == With(TWO, 2, n + 1, Exact([0]), w)
    ensures Enabled(s, Serve(false)) && Next(s, Serve(false)) == With(TWO, 2, n + 1, Exact([]), Served(w, TWO[n]))
  {
    assert [0][1..] == [] && map[0 := w][0 := Served(w, TWO[n])] == map[0 := Served(w, TWO[n])];
  }

  lemma CopiedOnce(feeds: seq<Feed>, steps: seq<Step>, n: nat, w: Watcher) returns (more: seq<Feed>)
    requires n < 2 && w.key == KEY && !w.prefix && EndsIn(feeds, steps, With(TWO, 2, n, Idle, w))
    ensures EndsIn(more, steps + [Take] + [CopyExact([0])], With(TWO, 2, n + 1, Exact([0]), w))
  {
    more := Extend(feeds, steps, With(TWO, 2, n, Idle, w), Take, With(TWO, 2, n + 1, Taken, w));
    more := Extend(more, steps + [Take], With(TWO, 2, n + 1, Taken, w), CopyExact([0]),
                   With(TWO, 2, n + 1, Exact([0]), w));
  }

  lemma Dispatched(feeds: seq<Feed>, steps: seq<Step>, n: nat, w: Watcher) returns (more: seq<Feed>)
    requires n < 2 && w.key == KEY && !w.prefix && EndsIn(feeds, steps, With(TWO, 2, n, Idle, w))
    ensures EndsIn(more, steps + DISPATCH, With(TWO, 2, n + 1, Idle, Served(w, TWO[n])))
  {
    var w' := Served(w, TWO[n]);
    more := CopiedOnce(feeds, steps, n, w);
    Serving(With(TWO, 2, n + 1, Exact([0]), w), w, n);
    more := Extend(more, steps + [Take] + [CopyExact([0])], With(TWO, 2, n + 1, Exact([0]), w), Serve(false),
                   With(TWO, 2, n + 1, Exact([]), w'));
    var head := steps + [Take] + [CopyExact([0])] + [Serve(false)];
    more := Extend(more, head, With(TWO, 2, n + 1, Exact([]), w'), CopyPrefixes([]),
                   With(TWO, 2, n + 1, Prefixes([]), w'));
    more := Extend(more, head + [CopyPrefixes([])], With(TWO, 2, n + 1, Prefixes([]), w'), Finish,
                   With(TWO, 2, n + 1, Idle, w'));
    assert head + [CopyPrefixes([])] + [Finish] == steps + DISPATCH;
  }

  /** Two writes of a key, one before a watcher of it registers and one after: the second is dispatched before the
      backlog is sent, and the channel carries them in the wrong order. */
  lemma BacklogComesLate() returns (feeds: seq<Feed>, steps: seq<Step>)
    ensures IsRun(feeds, steps) && steps == QUEUED + DISPATCH + DISPATCH + [Push(0, false)]
    ensures 0 in feeds[|steps|].watchers && feeds[|steps|].watchers[0].channel == [Ev(2), Ev(1)]
  {
    feeds := SecondQueued();
    feeds := Dispatched(feeds, QUEUED, 0, FIRST);
    feeds := Dispatched(feeds, QUEUED + DISPATCH, 1, FIRST);
    var w := Mine(1, [Ev(1)], [Ev(2)], 2, 0, false, [Ev(2)]);
    assert Served(FIRST, Ev(2)) == w;
    var w' := Mine(1, [Ev(1)], [Ev(2)], 2, 1, false, [Ev(2), Ev(1)]);
    assert Pushed(w, false) == w';
    feeds := Extend(feeds, QUEUED + DISPATCH + DISPATCH, With(TWO, 2, 2, Idle, w), Push(0, false),
                    With(TWO, 2, 2, Idle, w'));
    steps := QUEUED + DISPATCH + DISPATCH + [Push(0, false)];
  }

  // ---------- a backlog longer than the channel ----------

  function Many(n: nat): (es: seq<Event>)
    ensures |es| == n && forall i :: 0 <= i < n ==> es[i] == Ev(i + 1)
  {
    seq(n, i requires i >= 0 => Ev(i + 1))
  }

  lemma {:induction false} AllMatch(n: nat)
    ensures Filter(Many(n), KEY, false, 1) == Many(n) && Newest(Many(n), 0) == n
  {
    if n > 0 {
      assert Many(n)[..n - 1] == Many(n - 1) && Many(n) == Many(n - 1) + [Ev(n)];
      AllMatch(n - 1);
    }
  }

  /** A watcher with a backlog of `n` that found room for the first `k`. */
  function Filling(n: nat, k: nat): Feed
    requires k <= n
  {
    With(Many(n), 0, 0, Idle, Mine(n, Many(n), [], n, k, false, Many(n)[..k]))
  }

  lemma Backlogged(n: nat) returns (feeds: seq<Feed>, steps: seq<Step>)
    ensures EndsIn(feeds, steps, Filling(n, 0))
  {
    var writes := seq(n, _ => PUT);
    var s := Feed(Many(n), 0, {}, 0, 0, Idle, map[], 0, map[], false);
    assert Revised(writes, 0) == Many(n) && [] + Many(n) == Many(n);
    feeds := Extend([START], [], START, Commit(writes), s);
    AllMatch(n);
    assert s.log[0..] == Many(n);
    feeds := Extend(feeds, [] + [Commit(writes)], s, REGISTER, Filling(n, 0));
    steps := [] + [Commit(writes)] + [REGISTER];
  }

  lemma {:induction false} Filled(n: nat, k: nat) returns (feeds: seq<Feed>, steps: seq<Step>)
    requires k <= n
    ensures EndsIn(feeds, steps, Filling(n, k))
  {
    if k == 0 {
      feeds, steps := Backlogged(n);
    } else {
      feeds, steps := Filled(n, k - 1);
      assert Many(n)[..k] == Many(n)[..k - 1] + [Many(n)[k - 1]];
      feeds := Extend(feeds, steps, Filling(n, k - 1), Push(0, false), Filling(n, k));
      steps := steps + [Push(0, false)];
    }
  }

  /** A backlog of one more than the channel holds, and nobody reads: the last event of it is dropped. */
  lemma LongBacklogDrops() returns (feeds: seq<Feed>, steps: seq<Step>)
    ensures IsRun(feeds, steps) && 0 in feeds[|steps|].watchers
    ensures var w := feeds[|steps|].watchers[0];
      w.backlog == Many(CAPACITY + 1) && w.pushed == CAPACITY + 1 && w.channel == Many(CAPACITY)
  {
    feeds, steps := Filled(CAPACITY + 1, CAPACITY);
    var s := Filling(CAPACITY + 1, CAPACITY);
    assert Many(CAPACITY + 1)[..CAPACITY] == Many(CAPACITY);
    feeds := Extend(feeds, steps, s, Push(0, true), Next(s, Push(0, true)));
    steps := steps + [Push(0, true)];
  }

  // ---------- a snapshot is restored under a watcher ----------

  /** A watcher registers and the store is replaced by a snapshot with one more event, which it is never handed. */
  lemma RestoreMisses() returns (feeds: seq<Feed>, steps: seq<Step>)
    ensures IsRun(feeds, steps) && steps == [REGISTER, Restore([Ev(1)], 0)]
    ensures var s := feeds[2];
      && s.log == [Ev(1)] && Drained(s) && 0 in s.watchers && s.watchers[0].startRev == 1 && s.watchers[0].key == KEY
      && s.watchers[0].backlog == [] && s.watchers[0].live == []
  {
    var w := Mine(0, [], [], 0, 0, false, []);
    feeds := Extend([START], [], START, REGISTER, With([], 0, 0, Idle, w));
    var s := With([], 0, 0, Idle, w);
    feeds := Extend(feeds, [] + [REGISTER], s, Restore([Ev(1)], 0), Next(s, Restore([Ev(1)], 0)));
    steps := [REGISTER, Restore([Ev(1)], 0)];
  }
}
