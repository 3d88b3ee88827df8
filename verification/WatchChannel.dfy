/** What arrives on a watcher's channel, on which its backlog goroutine and the dispatcher both send: when all of it
    arrives, when it arrives in order, and when a send meets a closed channel. */
module WatchChannel {
  import opened RaftTypes
  import opened MvccSpec
  import opened Watch

  // ---------- two senders ----------

  /** The events up to revision `from`, or those after it, in the order sent. */
  function Part(ch: seq<Event>, from: nat, past: bool): seq<Event> {
    if ch == [] then []
    else Part(ch[..|ch| - 1], from, past) + if (ch[|ch| - 1].rev <= from) == past then [ch[|ch| - 1]] else []
  }

  lemma PartAdd(ch: seq<Event>, e: Event, from: nat, past: bool)
    ensures Part(ch + [e], from, past) == Part(ch, from, past) + if (e.rev <= from) == past then [e] else []
  {
    assert (ch + [e])[..|ch|] == ch;
  }

  lemma {:induction false} PartHas(ch: seq<Event>, from: nat, past: bool, e: Event)
    ensures e in Part(ch, from, past) <==> e in ch && (e.rev <= from) == past
  {
    if ch != [] {
      PartHas(ch[..|ch| - 1], from, past, e);
      assert ch == ch[..|ch| - 1] + [ch[|ch| - 1]];
    }
  }

  lemma {:induction false} PartsAreAll(ch: seq<Event>, from: nat)
    ensures |ch| == |Part(ch, from, true)| + |Part(ch, from, false)|
  {
    if ch != [] { PartsAreAll(ch[..|ch| - 1], from); }
  }

  /** A channel in order has everything old before everything new. */
  lemma {:induction false} AscendingSplits(ch: seq<Event>, from: nat)
    requires Ascending(ch)
    ensures ch == Part(ch, from, true) + Part(ch, from, false)
  {
    if ch != [] {
      var init, e := ch[..|ch| - 1], ch[|ch| - 1];
      AscendingSplits(init, from);
      assert ch == init + [e];
      if e.rev <= from {
        NoneNew(init, from);
        assert Part(init, from, true) + [] == Part(init, from, true);
      }
    }
  }

  lemma {:induction false} NoneNew(ch: seq<Event>, from: nat)
    requires forall i :: 0 <= i < |ch| ==> ch[i].rev <= from
    ensures Part(ch, from, false) == []
  {
    if ch != [] { NoneNew(ch[..|ch| - 1], from); }
  }

  // ---------- one watcher's channel ----------

  ghost predicate ChannelOk(w: Watcher) {
    && w.pushed <= |w.backlog|
    && Part(w.channel, w.from, false) == w.live
    && (!w.lost ==> Part(w.channel, w.from, true) == w.backlog[..w.pushed])
    && (w.lost ==> |Part(w.channel, w.from, true)| < w.pushed)
    && (forall e :: e in w.channel && e.rev <= w.from ==> e in w.backlog[..w.pushed])
  }

  ghost predicate ChannelOf(s: Feed, id: nat) {
    id in s.watchers ==> ChannelOk(s.watchers[id])
  }

  /** The revisions of backlog and live. */
  lemma RevisionsOf(log: seq<Event>, restored: set<nat>, w: Watcher, h: nat)
    requires Account(log, restored, w, h) && IsLog(log)
    ensures Ascending(w.backlog) && (forall e :: e in w.backlog ==> e.rev <= w.from)
    ensures Ascending(w.live) && (forall e :: e in w.live ==> w.from < e.rev <= h)
  {
    var lo := Max(w.from + 1, w.startRev);
    forall e ensures e in w.backlog ==> e.rev <= w.from { SelectHas(log, {}, w.key, w.prefix, w.startRev, w.from, e); }
    forall e ensures e in w.live ==> w.from < e.rev <= h { SelectHas(log, restored, w.key, w.prefix, lo, h, e); }
    SelectIncreases(log, {}, w.key, w.prefix, w.startRev, w.from);
    SelectIncreases(log, restored, w.key, w.prefix, lo, h);
  }

  lemma SentIsNew(log: seq<Event>, restored: set<nat>, w: Watcher, h: nat)
    requires Account(log, restored, w, h) && h < |log| && IsLog(log)
    requires Matches(w.key, w.prefix, log[h]) && log[h].rev > w.lastSentRev
    ensures log[h].rev > w.from && log[h].rev > h
  {
  }

  lemma ServedOk(w: Watcher, e: Event)
    requires ChannelOk(w) && (e.rev > w.lastSentRev ==> e.rev > w.from)
    ensures ChannelOk(Served(w, e))
  {
    PartAdd(w.channel, e, w.from, false);
    PartAdd(w.channel, e, w.from, true);
  }

  lemma ServedChannel(log: seq<Event>, restored: set<nat>, w: Watcher, h: nat)
    requires Account(log, restored, w, h) && h < |log| && IsLog(log) && Matches(w.key, w.prefix, log[h]) && ChannelOk(w)
    ensures ChannelOk(Served(w, log[h])) && (Ascending(w.channel) ==> Ascending(Served(w, log[h]).channel))
  {
    if log[h].rev > w.lastSentRev {
      SentIsNew(log, restored, w, h);
      RevisionsOf(log, restored, w, h);
      forall e | e in w.channel ensures e.rev < log[h].rev { PartHas(w.channel, w.from, false, e); }
      if Ascending(w.channel) { AscendingAdd(w.channel, log[h]); }
    }
    ServedOk(w, log[h]);
  }

  lemma PushedOk(w: Watcher, full: bool)
    requires ChannelOk(w) && w.pushed < |w.backlog| && w.backlog[w.pushed].rev <= w.from
    ensures ChannelOk(Pushed(w, full))
  {
    var next := w.backlog[w.pushed];
    assert w.backlog[..w.pushed + 1] == w.backlog[..w.pushed] + [next];
    PartAdd(w.channel, next, w.from, false);
    PartAdd(w.channel, next, w.from, true);
  }

  /** Behind what is in order an event is in order if it is later than all of it, */
  lemma AscendingAdd(ch: seq<Event>, e: Event)
    requires Ascending(ch) && forall x :: x in ch ==> x.rev < e.rev
    ensures Ascending(ch + [e])
  {
  }

  /** and out of order if one of it is later. */
  lemma NotAscendingAdd(ch: seq<Event>, e: Event, x: Event)
    requires x in ch && x.rev > e.rev
    ensures !Ascending(ch + [e])
  {
    var i :| 0 <= i < |ch| && ch[i] == x;
    assert (ch + [e])[i].rev > (ch + [e])[|ch|].rev;
  }

  lemma BacklogBefore(backlog: seq<Event>, n: nat, e: Event)
    requires Ascending(backlog) && n < |backlog| && e in backlog[..n]
    ensures e.rev < backlog[n].rev
  {
  }

  lemma PushedChannel(log: seq<Event>, restored: set<nat>, w: Watcher, h: nat, full: bool)
    requires Account(log, restored, w, h) && IsLog(log) && ChannelOk(w) && w.pushed < |w.backlog|
    ensures ChannelOk(Pushed(w, full))
    ensures Ascending(w.channel) ==> (Ascending(Pushed(w, full).channel) <==> full || w.live == [])
  {
    RevisionsOf(log, restored, w, h);
    var next := w.backlog[w.pushed];
    assert next in w.backlog;
    PushedOk(w, full);
    if !full && Ascending(w.channel) {
      if w.live == [] {
        forall e | e in w.channel ensures e.rev < next.rev {
          PartHas(w.channel, w.from, false, e);
          BacklogBefore(w.backlog, w.pushed, e);
        }
        AscendingAdd(w.channel, next);
      } else {
        assert w.live[0] in w.live;
        PartHas(w.channel, w.from, false, w.live[0]);
        NotAscendingAdd(w.channel, next, w.live[0]);
      }
    }
  }

  // ---------- every step ----------

  predicate Sends(s: Feed, a: Step, id: nat) {
    a.Push? && a.id == id && HasBacklog(s.watchers, id)
  }

  /** A backlog event of the watcher is sent only while nothing has been sent live, */
  predicate Timely(s: Feed, a: Step, id: nat) {
    Sends(s, a, id) && !a.full ==> s.watchers[id].live == []
  }

  /** and never finds the channel full. */
  predicate Room(s: Feed, a: Step, id: nat) {
    Sends(s, a, id) ==> !a.full
  }

  lemma {:induction false} PrefixAscends(a: seq<Event>, b: seq<Event>)
    requires a <= b && Ascending(b)
    ensures Ascending(a)
  {
    forall i, j | 0 <= i < j < |a| ensures a[i].rev < a[j].rev { assert b[i].rev < b[j].rev; }
  }

  /** What a step makes of the channel of a watcher that stays. */
  ghost predicate ChannelStep(w: Watcher, w': Watcher, timely: bool, room: bool) {
    && ChannelOk(w') && w'.backlog == w.backlog && w.pushed <= w'.pushed && w.channel <= w'.channel
    && (Ascending(w'.channel) <==> Ascending(w.channel) && timely) && (w'.lost <==> w.lost || !room)
  }

  lemma ServedStep(log: seq<Event>, restored: set<nat>, w: Watcher, h: nat)
    requires Account(log, restored, w, h) && h < |log| && IsLog(log) && Matches(w.key, w.prefix, log[h]) && ChannelOk(w)
    ensures ChannelStep(w, Served(w, log[h]), true, true)
  {
    ServedChannel(log, restored, w, h);
    var w' := Served(w, log[h]);
    assert w.channel <= w'.channel;
    if Ascending(w'.channel) { PrefixAscends(w.channel, w'.channel); }
  }

  /** What serving makes of one watcher that stays. */
  lemma ServeLeaves(s: Feed, full: bool, id: nat)
    requires Enabled(s, Serve(full)) && s.compactRev <= |s.log| && id in Next(s, Serve(full)).watchers
    ensures id in s.watchers
    ensures Next(s, Serve(full)).watchers[id]
      == if id == s.phase.todo[0] then Served(s.watchers[id], s.log[s.taken - 1]) else s.watchers[id]
  {
  }

  lemma ServeKeepsChannel(s: Feed, full: bool, id: nat)
    requires Inv(s) && Enabled(s, Serve(full)) && ChannelOf(s, id) && id in Next(s, Serve(full)).watchers
    ensures id in s.watchers && ChannelStep(s.watchers[id], Next(s, Serve(full)).watchers[id], true, true)
  {
    ServeLeaves(s, full, id);
    assert AccountOf(s, id);
    if id == s.phase.todo[0] {
      assert DueFor(s, id);
      ServedStep(s.log, s.restored, s.watchers[id], s.taken - 1);
    }
  }

  lemma PushKeepsChannel(s: Feed, id: nat, full: bool)
    requires Inv(s) && Enabled(s, Push(id, full)) && HasBacklog(s.watchers, id) && ChannelOf(s, id)
    ensures var a := Push(id, full);
      ChannelStep(s.watchers[id], Next(s, a).watchers[id], Timely(s, a, id), Room(s, a, id))
  {
    assert AccountOf(s, id);
    var w, w' := s.watchers[id], Pushed(s.watchers[id], full);
    PushedChannel(s.log, s.restored, w, Handled(s, id, w.prefix), full);
    assert w.channel <= w'.channel;
    if Ascending(w'.channel) { PrefixAscends(w.channel, w'.channel); }
  }

  lemma ChannelKept(s: Feed, a: Step, id: nat)
    requires Inv(s) && Enabled(s, a) && id in s.watchers && ChannelOf(s, id)
    ensures id in Next(s, a).watchers ==>
      ChannelStep(s.watchers[id], Next(s, a).watchers[id], Timely(s, a, id), Room(s, a, id))
  {
    if a.Serve? {
      if id in Next(s, a).watchers { ServeKeepsChannel(s, a.full, id); }
    } else if Sends(s, a, id) {
      PushKeepsChannel(s, id, a.full);
    } else {
      assert id in Next(s, a).watchers ==> Next(s, a).watchers[id] == s.watchers[id];
    }
  }

  /** A watcher that a step adds has a new number and an empty channel. */
  lemma NewChannel(s: Feed, a: Step, id: nat)
    requires Inv(s) && Enabled(s, a) && id !in s.watchers && id in Next(s, a).watchers
    ensures id == s.nextID
    ensures var w := Next(s, a).watchers[id];
      w.channel == [] && !w.lost && w.pushed == 0 && ChannelOk(w)
  {
  }

  // ---------- whole runs ----------

  lemma {:induction false} NumbersGrow(feeds: seq<Feed>, steps: seq<Step>, i: nat, j: nat)
    requires IsRun(feeds, steps) && i <= j < |feeds|
    ensures feeds[i].nextID <= feeds[j].nextID
    decreases j
  {
    if i < j { NumbersGrow(feeds, steps, i, j - 1); }
  }

  lemma RunNumbers(feeds: seq<Feed>, steps: seq<Step>, i: nat, id: nat)
    requires IsRun(feeds, steps) && i < |feeds| && id in feeds[i].watchers
    ensures id < feeds[i].nextID
  {
    RunInv(feeds, steps, i);
  }

  lemma RunNew(feeds: seq<Feed>, steps: seq<Step>, i: nat, id: nat)
    requires IsRun(feeds, steps) && i < |steps| && id in feeds[i + 1].watchers && id !in feeds[i].watchers
    ensures id == feeds[i].nextID
    ensures var w := feeds[i + 1].watchers[id];
      w.channel == [] && !w.lost && w.pushed == 0 && ChannelOk(w)
  {
    RunInv(feeds, steps, i);
    NewChannel(feeds[i], steps[i], id);
  }

  /** A watcher that a step adds was not there before: its number is not used again. */
  lemma NotBefore(feeds: seq<Feed>, steps: seq<Step>, i: nat, n: nat, id: nat)
    requires IsRun(feeds, steps) && n <= i < |steps| && id in feeds[i + 1].watchers && id !in feeds[i].watchers
    ensures id !in feeds[n].watchers
  {
    RunNew(feeds, steps, i, id);
    NumbersGrow(feeds, steps, n, i);
    if id in feeds[n].watchers { RunNumbers(feeds, steps, n, id); }
  }

  lemma RunStep(feeds: seq<Feed>, steps: seq<Step>, i: nat, id: nat)
    requires IsRun(feeds, steps) && i < |steps| && id in feeds[i].watchers && id in feeds[i + 1].watchers
    requires ChannelOf(feeds[i], id)
    ensures ChannelStep(feeds[i].watchers[id], feeds[i + 1].watchers[id],
                        Timely(feeds[i], steps[i], id), Room(feeds[i], steps[i], id))
  {
    RunInv(feeds, steps, i);
    ChannelKept(feeds[i], steps[i], id);
  }

  lemma {:induction false} RunChannel(feeds: seq<Feed>, steps: seq<Step>, i: nat, id: nat)
    requires IsRun(feeds, steps) && i < |feeds|
    ensures ChannelOf(feeds[i], id)
  {
    if i > 0 {
      RunChannel(feeds, steps, i - 1, id);
      if id in feeds[i].watchers {
        if id in feeds[i - 1].watchers { RunStep(feeds, steps, i - 1, id); } else { RunNew(feeds, steps, i - 1, id); }
      }
    }
  }

  ghost predicate AllTimely(feeds: seq<Feed>, steps: seq<Step>, i: nat, id: nat) {
    i <= |steps| <= |feeds| && forall n :: 0 <= n < i ==> Timely(feeds[n], steps[n], id)
  }

  ghost predicate AllRoom(feeds: seq<Feed>, steps: seq<Step>, i: nat, id: nat) {
    i <= |steps| <= |feeds| && forall n :: 0 <= n < i ==> Room(feeds[n], steps[n], id)
  }

  /** In every state of a run, whatever befell other watchers: what was sent on a watcher's channel is in order if and
      only if none of its backlog was sent after its first live event, and nothing of its backlog was lost if and only
      if no send of it found the channel full. */
  lemma {:induction false} InOrderIff(feeds: seq<Feed>, steps: seq<Step>, i: nat, id: nat)
    requires IsRun(feeds, steps) && i < |feeds| && id in feeds[i].watchers
    ensures Ascending(feeds[i].watchers[id].channel) <==> AllTimely(feeds, steps, i, id)
    ensures !feeds[i].watchers[id].lost <==> AllRoom(feeds, steps, i, id)
  {
    if i > 0 {
      if id in feeds[i - 1].watchers {
        InOrderIff(feeds, steps, i - 1, id);
        RunChannel(feeds, steps, i - 1, id);
        RunStep(feeds, steps, i - 1, id);
      } else {
        RunNew(feeds, steps, i - 1, id);
        NewInOrder(feeds, steps, i, id);
      }
    }
  }

  lemma NewInOrder(feeds: seq<Feed>, steps: seq<Step>, i: nat, id: nat)
    requires IsRun(feeds, steps) && 0 < i < |feeds| && id in feeds[i].watchers && id !in feeds[i - 1].watchers
    ensures AllTimely(feeds, steps, i, id) && AllRoom(feeds, steps, i, id)
  {
    forall n | 0 <= n < i
      ensures Timely(feeds[n], steps[n], id) && Room(feeds[n], steps[n], id)
    {
      NotBefore(feeds, steps, i - 1, n, id);
    }
  }

  /** The channel is backlog and live, one after the other, exactly when it is in order and whole. */
  lemma ChannelIsAllIff(log: seq<Event>, restored: set<nat>, w: Watcher, h: nat)
    requires Account(log, restored, w, h) && IsLog(log) && ChannelOk(w)
    ensures w.channel == w.backlog + w.live <==> Ascending(w.channel) && !w.lost && w.pushed == |w.backlog|
  {
    PartsAreAll(w.channel, w.from);
    if Ascending(w.channel) && !w.lost && w.pushed == |w.backlog| {
      AscendingSplits(w.channel, w.from);
      assert w.backlog[..w.pushed] == w.backlog;
    }
    if w.channel == w.backlog + w.live {
      RevisionsOf(log, restored, w, h);
      AscendingConcat(w.backlog, w.live, w.from);
    }
  }

  lemma AscendingConcat(a: seq<Event>, b: seq<Event>, from: nat)
    requires Ascending(a) && Ascending(b)
    requires (forall e :: e in a ==> e.rev <= from) && (forall e :: e in b ==> from < e.rev)
    ensures Ascending(a + b)
  {
    forall i, j | 0 <= i < j < |a + b| ensures (a + b)[i].rev < (a + b)[j].rev {
      if i < |a| <= j { assert a[i] in a && b[j - |a|] in b; }
    }
  }

  /** A channel has carried exactly the matching events that no snapshot brought since, in order, as far as the
      dispatcher has come, if and only if the backlog is through, each send of it found room, and each came before the
      first live event. */
  lemma ArrivesIff(feeds: seq<Feed>, steps: seq<Step>, i: nat, id: nat)
    requires IsRun(feeds, steps) && i < |feeds| && id in feeds[i].watchers
    ensures var s := feeds[i];
      var w := s.watchers[id];
      var reached := Max(w.from, Handled(s, id, w.prefix));
      && reached <= |s.log|
      && (w.channel == Select(s.log, Since(s.restored, w.from), w.key, w.prefix, w.startRev, reached)
          <==> w.pushed == |w.backlog| && AllRoom(feeds, steps, i, id) && AllTimely(feeds, steps, i, id))
  {
    HandOff(feeds, steps, i, id);
    InOrderIff(feeds, steps, i, id);
    RunInv(feeds, steps, i);
    RunChannel(feeds, steps, i, id);
    assert AccountOf(feeds[i], id);
    var w := feeds[i].watchers[id];
    ChannelIsAllIff(feeds[i].log, feeds[i].restored, w, Handled(feeds[i], id, w.prefix));
  }

  // ---------- what a full channel drops ----------

  /** The event is behind the backlog's place and not in the channel. */
  ghost predicate Gone(w: Watcher, e: Event) {
    w.pushed <= |w.backlog| && e in w.backlog[..w.pushed] && e !in w.channel
  }

  lemma PushedGone(w: Watcher, full: bool, e: Event)
    requires Ascending(w.backlog) && w.pushed < |w.backlog| && Gone(w, e)
    ensures Gone(Pushed(w, full), e)
  {
    BacklogBefore(w.backlog, w.pushed, e);
    assert w.backlog[..w.pushed + 1] == w.backlog[..w.pushed] + [w.backlog[w.pushed]];
  }

  lemma ServedGone(log: seq<Event>, restored: set<nat>, w: Watcher, h: nat, e: Event)
    requires Account(log, restored, w, h) && h < |log| && IsLog(log) && Matches(w.key, w.prefix, log[h]) && Gone(w, e)
    ensures Gone(Served(w, log[h]), e)
  {
    RevisionsOf(log, restored, w, h);
    assert e in w.backlog;
    if log[h].rev > w.lastSentRev { SentIsNew(log, restored, w, h); }
  }

  lemma ServeKeepsGone(s: Feed, full: bool, id: nat, e: Event)
    requires Inv(s) && Enabled(s, Serve(full)) && id in s.watchers && id in Next(s, Serve(full)).watchers
    requires Gone(s.watchers[id], e)
    ensures Gone(Next(s, Serve(full)).watchers[id], e)
  {
    ServeLeaves(s, full, id);
    if id == s.phase.todo[0] {
      assert AccountOf(s, id) && DueFor(s, id);
      ServedGone(s.log, s.restored, s.watchers[id], s.taken - 1, e);
    }
  }

  lemma PushKeepsGone(s: Feed, id: nat, full: bool, e: Event)
    requires Inv(s) && Enabled(s, Push(id, full)) && HasBacklog(s.watchers, id) && Gone(s.watchers[id], e)
    ensures Gone(Next(s, Push(id, full)).watchers[id], e)
  {
    assert AccountOf(s, id);
    var w := s.watchers[id];
    RevisionsOf(s.log, s.restored, w, Handled(s, id, w.prefix));
    PushedGone(w, full, e);
  }

  lemma GoneStays(s: Feed, a: Step, id: nat, e: Event)
    requires Inv(s) && Enabled(s, a) && id in s.watchers && id in Next(s, a).watchers && Gone(s.watchers[id], e)
    ensures Gone(Next(s, a).watchers[id], e)
  {
    if a.Serve? {
      ServeKeepsGone(s, a.full, id, e);
    } else if Sends(s, a, id) {
      PushKeepsGone(s, id, a.full, e);
    } else {
      assert Next(s, a).watchers[id] == s.watchers[id];
    }
  }

  lemma DropIsGone(s: Feed, id: nat)
    requires Inv(s) && Enabled(s, Push(id, true)) && HasBacklog(s.watchers, id) && ChannelOf(s, id)
    ensures var w := s.watchers[id];
      Gone(Next(s, Push(id, true)).watchers[id], w.backlog[w.pushed])
  {
    assert AccountOf(s, id);
    var w := s.watchers[id];
    var e := w.backlog[w.pushed];
    RevisionsOf(s.log, s.restored, w, Handled(s, id, w.prefix));
    assert e in w.backlog && w.backlog[..w.pushed + 1][w.pushed] == e;
    if e in w.channel { BacklogBefore(w.backlog, w.pushed, e); }
  }

  lemma WasThere(feeds: seq<Feed>, steps: seq<Step>, i: nat, j: nat, id: nat)
    requires IsRun(feeds, steps) && i < j < |feeds| && id in feeds[i].watchers && id in feeds[j].watchers
    ensures id in feeds[j - 1].watchers
  {
    if id !in feeds[j - 1].watchers { NotBefore(feeds, steps, j - 1, i, id); }
  }

  lemma {:induction false} StillThere(feeds: seq<Feed>, steps: seq<Step>, i: nat, j: nat, id: nat)
    requires IsRun(feeds, steps) && i < j < |feeds| && id in feeds[i].watchers && id in feeds[j].watchers
    ensures id in feeds[i + 1].watchers
    decreases j
  {
    if i + 1 < j {
      WasThere(feeds, steps, i, j, id);
      StillThere(feeds, steps, i, j - 1, id);
    }
  }

  lemma RunGoneStep(feeds: seq<Feed>, steps: seq<Step>, i: nat, id: nat, e: Event)
    requires IsRun(feeds, steps) && i < |steps| && id in feeds[i].watchers && id in feeds[i + 1].watchers
    requires Gone(feeds[i].watchers[id], e)
    ensures Gone(feeds[i + 1].watchers[id], e)
  {
    RunInv(feeds, steps, i);
    GoneStays(feeds[i], steps[i], id, e);
  }

  lemma {:induction false} RunGone(feeds: seq<Feed>, steps: seq<Step>, i: nat, j: nat, id: nat, e: Event)
    requires IsRun(feeds, steps) && i <= j < |feeds| && id in feeds[i].watchers && id in feeds[j].watchers
    requires Gone(feeds[i].watchers[id], e)
    ensures Gone(feeds[j].watchers[id], e)
    decreases j - i
  {
    if i < j {
      StillThere(feeds, steps, i, j, id);
      RunGoneStep(feeds, steps, i, id, e);
      RunGone(feeds, steps, i + 1, j, id, e);
    }
  }

  /** A backlog event that found the channel full never arrives: the goroutine goes on with the next one. */
  lemma DroppedNeverArrives(feeds: seq<Feed>, steps: seq<Step>, i: nat, j: nat, id: nat)
    requires IsRun(feeds, steps) && i < j < |feeds| && steps[i] == Push(id, true)
    requires HasBacklog(feeds[i].watchers, id) && id in feeds[j].watchers
    ensures feeds[i].watchers[id].backlog[feeds[i].watchers[id].pushed] !in feeds[j].watchers[id].channel
  {
    RunInv(feeds, steps, i);
    RunChannel(feeds, steps, i, id);
    DropIsGone(feeds[i], id);
    RunGone(feeds, steps, i + 1, j, id, feeds[i].watchers[id].backlog[feeds[i].watchers[id].pushed]);
  }

  // ---------- closed channels ----------

  predicate IsDue(s: Feed, id: nat) {
    (s.phase.Exact? || s.phase.Prefixes?) && id in s.phase.todo
  }

  /** A cancelled watcher on whose channel someone is still going to send. */
  predicate Doomed(s: Feed, id: nat) {
    HasBacklog(s.closed, id)
    || (id in s.closed && IsDue(s, id) && 1 <= s.taken <= |s.log| && s.log[s.taken - 1].rev > s.closed[id].lastSentRev)
  }

  ghost predicate Hazard(s: Feed) {
    exists id :: Doomed(s, id)
  }

  /** A cancellation while the backlog is not through, or while the dispatcher still has the event for the watcher. */
  predicate Unsafe(s: Feed, a: Step) {
    match a
    case Cancel(id) =>
      HasBacklog(s.watchers, id)
      || (id in s.watchers && IsDue(s, id) && 1 <= s.taken <= |s.log|
        && s.log[s.taken - 1].rev > s.watchers[id].lastSentRev)
    case Serve(full) =>
      (s.phase.Exact? || s.phase.Prefixes?) && s.phase.todo != [] && 1 <= s.taken <= |s.log|
      && full && HasBacklog(s.watchers, s.phase.todo[0])
      && s.log[s.taken - 1].rev > s.watchers[s.phase.todo[0]].lastSentRev
    case _ => false
  }

  lemma DoomedNext(s: Feed, a: Step, id: nat)
    requires Inv(s) && Enabled(s, a) && !Doomed(s, id)
    ensures Doomed(Next(s, a), id) ==> Unsafe(s, a)
    ensures Unsafe(s, a) && (a.Cancel? ==> id == a.id) && (a.Serve? ==> s.phase.todo != [] && id == s.phase.todo[0]) ==>
      Doomed(Next(s, a), id)
  {
    if a.Serve? { TodoTail(s.phase.todo); }
  }

  /** Without a hazard no step stops the process, and a step makes one if and only if it is an unsafe cancellation. */
  lemma HazardIff(s: Feed, a: Step)
    requires Inv(s) && Enabled(s, a) && !Hazard(s)
    ensures !Next(s, a).crashed && (Hazard(Next(s, a)) <==> Unsafe(s, a))
  {
    if a.Serve? { assert !Doomed(s, s.phase.todo[0]); }
    if a.Push? { assert !Doomed(s, a.id); }
    forall id ensures Doomed(Next(s, a), id) ==> Unsafe(s, a) { assert !Doomed(s, id); DoomedNext(s, a, id); }
    if Unsafe(s, a) {
      var id := if a.Cancel? then a.id else s.phase.todo[0];
      assert !Doomed(s, id);
      DoomedNext(s, a, id);
    }
  }

  /** With only safe cancellations no run stops the process. */
  lemma {:induction false} SafeRunsGoOn(feeds: seq<Feed>, steps: seq<Step>, i: nat)
    requires IsRun(feeds, steps) && i < |feeds| && forall n :: 0 <= n < i ==> !Unsafe(feeds[n], steps[n])
    ensures !Hazard(feeds[i]) && !feeds[i].crashed
  {
    if i > 0 {
      SafeRunsGoOn(feeds, steps, i - 1);
      RunInv(feeds, steps, i - 1);
      HazardIff(feeds[i - 1], steps[i - 1]);
    }
  }

  ghost predicate Stops(s: Feed, steps: seq<Step>)
    decreases |steps|
  {
    && steps != [] && Enabled(s, steps[0]) && s.compactRev <= |s.log|
    && (Next(s, steps[0]).crashed || Stops(Next(s, steps[0]), steps[1..]))
  }

  /** After an unsafe one the process can be stopped: by the backlog's next send, or when the dispatcher gets there. */
  lemma {:induction false} HazardStops(s: Feed, id: nat) returns (steps: seq<Step>)
    requires Inv(s) && !s.crashed && Doomed(s, id)
    ensures Stops(s, steps)
    decreases if s.phase.Exact? || s.phase.Prefixes? then |s.phase.todo| else 0
  {
    if HasBacklog(s.closed, id) {
      steps := [Push(id, false)];
    } else {
      var s' := Next(s, Serve(false));
      if s'.crashed {
        steps := [Serve(false)];
      } else {
        StepKeeps(s, Serve(false));
        TodoTail(s.phase.todo);
        var rest := HazardStops(s', id);
        steps := [Serve(false)] + rest;
        assert steps[1..] == rest;
      }
    }
  }
}
