/** The sliding window of outcomes (circuit_breaker/failure_tracker.py). */
module FailureTrackers {

  datatype Event = Event(at: real, failed: bool)

  /** Drops old events from the front, stopping at the first recent one. */
  function Prune(events: seq<Event>, cutoff: real): seq<Event> {
    if events != [] && events[0].at < cutoff then Prune(events[1..], cutoff) else events
  }

  /** `later` is what is left of `events` once the first `n`, all older than the
      cutoff, are gone, and starts with a recent one. */
  ghost predicate DropsFirst(events: seq<Event>, later: seq<Event>, cutoff: real, n: nat) {
    && n <= |events| && later == events[n..]
    && (forall i :: 0 <= i < n ==> events[i].at < cutoff)
    && (later != [] ==> later[0].at >= cutoff)
  }

  ghost predicate DropsOld(events: seq<Event>, later: seq<Event>, cutoff: real) {
    exists n: nat :: DropsFirst(events, later, cutoff, n)
  }

  lemma DropsOneMore(events: seq<Event>, later: seq<Event>, cutoff: real, n: nat)
    requires events != [] && events[0].at < cutoff && DropsFirst(events[1..], later, cutoff, n)
    ensures DropsFirst(events, later, cutoff, n + 1)
  {
    assert events[1..][n..] == events[n + 1..];
    forall i | 0 <= i < n + 1
      ensures events[i].at < cutoff
    {
      if i > 0 { assert events[i] == events[1..][i - 1]; }
    }
  }

  lemma {:induction false} PruneDropsOld(events: seq<Event>, cutoff: real)
    ensures DropsOld(events, Prune(events, cutoff), cutoff)
    decreases |events|
  {
    hide DropsFirst;
    if events != [] && events[0].at < cutoff {
      PruneDropsOld(events[1..], cutoff);
      var n: nat :| DropsFirst(events[1..], Prune(events[1..], cutoff), cutoff, n);
      DropsOneMore(events, Prune(events[1..], cutoff), cutoff, n);
    } else {
      DropsNone(events, cutoff);
    }
  }

  lemma DropsNone(events: seq<Event>, cutoff: real)
    requires events != [] ==> events[0].at >= cutoff
    ensures DropsFirst(events, events, cutoff, 0)
  {
    assert events[0..] == events;
  }

  /** A recent event at the back stays there. */
  lemma RecentLastStays(events: seq<Event>, cutoff: real)
    requires events != [] && events[|events| - 1].at >= cutoff
    ensures Prune(events, cutoff) != [] && Prune(events, cutoff)[|Prune(events, cutoff)| - 1] == events[|events| - 1]
  {
    hide Prune;
    PruneDropsOld(events, cutoff);
    var n: nat :| DropsFirst(events, Prune(events, cutoff), cutoff, n);
  }

  function Record(window: real, events: seq<Event>, now: real, failed: bool): seq<Event> {
    Prune(events + [Event(now, failed)], now - window)
  }

  function Count(events: seq<Event>, failed: bool): nat {
    if events == [] then 0
    else Count(events[..|events| - 1], failed) + if events[|events| - 1].failed == failed then 1 else 0
  }

  /** The positions of the failed or of the successful events. */
  function Positions(events: seq<Event>, failed: bool): set<nat> {
    set i: nat | i < |events| && events[i].failed == failed
  }

  lemma {:induction false} CountIsNumber(events: seq<Event>, failed: bool)
    ensures Count(events, failed) == |Positions(events, failed)|
  {
    if events == [] {
      assert Positions(events, failed) == {};
    } else {
      var init, last := events[..|events| - 1], |events| - 1;
      CountIsNumber(init, failed);
      assert Positions(events, failed)
          == Positions(init, failed) + if events[last].failed == failed then {last} else {};
    }
  }

  lemma {:induction false} CountsAddUp(events: seq<Event>)
    ensures Count(events, false) + Count(events, true) == |events|
  {
    if events != [] { CountsAddUp(events[..|events| - 1]); }
  }

  function Percentage(events: seq<Event>): real {
    var total := Count(events, false) + Count(events, true);
    if total == 0 then 0.0 else Count(events, true) as real / total as real * 100.0
  }

  class FailureTracker {
    const window: real
    var events: seq<Event>

    constructor (window: real)
      ensures this.window == window && events == []
    {
      this.window := window;
      events := [];
    }

    method PruneBefore(now: real)
      modifies this
      ensures events == Prune(old(events), now - window)
    {
      var cutoff := now - window;
      while events != [] && events[0].at < cutoff
        invariant Prune(events, cutoff) == Prune(old(events), cutoff)
        decreases |events|
      {
        events := events[1..];
      }
    }

    method RecordOutcome(now: real, failed: bool)
      modifies this
      ensures events == Record(window, old(events), now, failed)
    {
      events := events + [Event(now, failed)];
      PruneBefore(now);
    }

    method GetCounts(now: real) returns (successes: nat, failures: nat)
      modifies this
      ensures events == Prune(old(events), now - window)
      ensures successes == Count(events, false) && failures == Count(events, true)
      ensures successes == |set i: nat | i < |events| && !events[i].failed|
      ensures failures == |set i: nat | i < |events| && events[i].failed|
    {
      PruneBefore(now);
      successes, failures := 0, 0;
      for i := 0 to |events|
        invariant successes == Count(events[..i], false) && failures == Count(events[..i], true)
      {
        assert events[..i + 1][..i] == events[..i];
        if events[i].failed { failures := failures + 1; } else { successes := successes + 1; }
      }
      assert events[..|events|] == events;
      CountIsNumber(events, false);
      CountIsNumber(events, true);
      assert Positions(events, true) == set i: nat | i < |events| && events[i].failed;
      assert Positions(events, false) == set i: nat | i < |events| && !events[i].failed;
    }

    method FailurePercentage(now: real) returns (percent: real)
      modifies this
      ensures events == Prune(old(events), now - window) && percent == Percentage(events)
      ensures events == [] ==> percent == 0.0
      ensures percent * |events| as real == 100.0 * |set i: nat | i < |events| && events[i].failed| as real
    {
      CountsAddUp(Prune(events, now - window));
      var successes, failures := GetCounts(now);
      var total := successes + failures;
      if total == 0 { return 0.0; }
      return failures as real / total as real * 100.0;
    }
  }

  // ---------------------------------------------------------------------
  // The pruned queue is the filtered history
  // ---------------------------------------------------------------------

  datatype Op = Outcome(now: real, failed: bool) | Query(now: real)

  /** What one operation does to the queue. */
  function Step(window: real, events: seq<Event>, op: Op): seq<Event> {
    match op
    case Outcome(now, failed) => Record(window, events, now, failed)
    case Query(now) => Prune(events, now - window)
  }

  function After(window: real, ops: seq<Op>): seq<Event> {
    if ops == [] then [] else Step(window, After(window, ops[..|ops| - 1]), ops[|ops| - 1])
  }

  function Recorded(op: Op): seq<Event> {
    match op
    case Outcome(now, failed) => [Event(now, failed)]
    case Query(_) => []
  }

  /** Everything ever recorded. */
  function History(ops: seq<Op>): seq<Event> {
    if ops == [] then [] else History(ops[..|ops| - 1]) + Recorded(ops[|ops| - 1])
  }

  /** The events that are not older than the cutoff, wherever they stand. */
  function Recent(events: seq<Event>, cutoff: real): seq<Event> {
    if events == [] then []
    else
      var rest := Recent(events[..|events| - 1], cutoff);
      if events[|events| - 1].at >= cutoff then rest + [events[|events| - 1]] else rest
  }

  /** The clock never runs backwards. */
  ghost predicate Timed(ops: seq<Op>) {
    forall i :: 0 < i < |ops| ==> ops[i - 1].now <= ops[i].now
  }

  ghost predicate InOrder(events: seq<Event>) {
    forall i, j :: 0 <= i < j < |events| ==> events[i].at <= events[j].at
  }

  lemma {:induction false} HistoryInOrder(ops: seq<Op>)
    requires Timed(ops)
    ensures InOrder(History(ops))
    ensures forall e :: e in History(ops) ==> ops != [] && e.at <= ops[|ops| - 1].now
  {
    if ops != [] {
      HistoryInOrder(ops[..|ops| - 1]);
      var older := History(ops[..|ops| - 1]);
      forall i | 0 <= i < |older|
        ensures older[i].at <= ops[|ops| - 1].now
      {
        assert older[i] in older;
      }
    }
  }

  lemma {:induction false} AllRecent(events: seq<Event>, cutoff: real)
    requires forall i :: 0 <= i < |events| ==> events[i].at >= cutoff
    ensures Recent(events, cutoff) == events
  {
    if events != [] {
      AllRecent(events[..|events| - 1], cutoff);
      assert events == events[..|events| - 1] + [events[|events| - 1]];
    }
  }

  lemma {:induction false} RecentWithoutFirst(events: seq<Event>, cutoff: real)
    requires events != [] && events[0].at < cutoff
    ensures Recent(events, cutoff) == Recent(events[1..], cutoff)
  {
    if |events| > 1 {
      RecentWithoutFirst(events[..|events| - 1], cutoff);
      assert events[1..][..|events| - 2] == events[..|events| - 1][1..];
    }
  }

  lemma {:induction false} PruneIsRecent(events: seq<Event>, cutoff: real)
    requires InOrder(events)
    ensures Prune(events, cutoff) == Recent(events, cutoff)
    decreases |events|
  {
    if events != [] && events[0].at < cutoff {
      RecentWithoutFirst(events, cutoff);
      PruneIsRecent(events[1..], cutoff);
    } else {
      AllRecent(events, cutoff);
    }
  }

  lemma {:induction false} RecentOfRecent(events: seq<Event>, early: real, late: real)
    requires early <= late
    ensures Recent(Recent(events, early), late) == Recent(events, late)
  {
    if events != [] {
      var init, last := events[..|events| - 1], events[|events| - 1];
      RecentOfRecent(init, early, late);
      assert (Recent(init, early) + [last])[..|Recent(init, early)|] == Recent(init, early);
    }
  }

  lemma {:induction false} RecentInOrder(events: seq<Event>, cutoff: real)
    requires InOrder(events)
    ensures InOrder(Recent(events, cutoff))
    ensures forall e :: e in Recent(events, cutoff) ==> e in events
  {
    if events != [] {
      var init, last := events[..|events| - 1], events[|events| - 1];
      RecentInOrder(init, cutoff);
      assert events == init + [last];
      var kept := Recent(init, cutoff);
      forall i | 0 <= i < |kept|
        ensures kept[i].at <= last.at
      {
        assert kept[i] in init;
      }
    }
  }

  lemma AppendInOrder(events: seq<Event>, added: seq<Event>, now: real)
    requires InOrder(events) && |added| <= 1
    requires forall e :: e in events ==> e.at <= now
    requires forall e :: e in added ==> e.at == now
    ensures InOrder(events + added)
  {
    forall i, j | 0 <= i < j < |events + added|
      ensures (events + added)[i].at <= (events + added)[j].at
    {
      assert events[i] in events;
      if j == |events| { assert added[0] in added; }
    }
  }

  /** One operation takes the recent part of a history to the recent part of the longer history. */
  lemma StepKeepsWindow(window: real, history: seq<Event>, early: real, op: Op)
    requires InOrder(history) && early <= op.now - window
    requires forall e :: e in history ==> e.at <= op.now
    ensures Step(window, Recent(history, early), op) == Recent(history + Recorded(op), op.now - window)
  {
    hide Recent, Prune;
    var queue, added := Recent(history, early), Recorded(op);
    RecentAppends(history, added, early, op.now - window);
    RecentInOrder(history, early);
    AppendInOrder(queue, added, op.now);
    PruneIsRecent(queue + added, op.now - window);
    assert added == [] ==> queue + added == queue;
  }

  /** After any operation the queue holds exactly the events of the whole
      history that are not older than the window, in order. */
  lemma {:induction false} WindowIsFilteredHistory(window: real, ops: seq<Op>)
    requires Timed(ops) && ops != []
    ensures After(window, ops) == Recent(History(ops), ops[|ops| - 1].now - window)
  {
    hide Prune, Step, Recorded, Recent, InOrder;
    var init, last := ops[..|ops| - 1], ops[|ops| - 1];
    var early := if init == [] then last.now - window else init[|init| - 1].now - window;
    assert After(window, init) == Recent(History(init), early) by {
      if init == [] { NothingRecent(early); } else { WindowIsFilteredHistory(window, init); }
    }
    HistoryInOrder(init);
    assert forall e :: e in History(init) ==> e.at <= last.now;
    StepKeepsWindow(window, History(init), early, last);
  }

  lemma NothingRecent(cutoff: real)
    ensures Recent([], cutoff) == []
  {
  }

  lemma RecentAppends(events: seq<Event>, added: seq<Event>, early: real, late: real)
    requires early <= late && |added| <= 1
    ensures Recent(Recent(events, early) + added, late) == Recent(events + added, late)
  {
    RecentOfRecent(events, early, late);
    if added == [] {
      assert Recent(events, early) + added == Recent(events, early) && events + added == events;
    } else {
      assert (events + added)[..|events|] == events;
      assert (Recent(events, early) + added)[..|Recent(events, early)|] == Recent(events, early);
    }
  }
}
