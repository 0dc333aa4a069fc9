/** The breaker that combines the state machine with the failure rate (circuit_breaker/breaker.py). */
module Breakers {
  import opened CircuitBreakers
  import opened FailureTrackers

  datatype Settings = Settings(circuit: Config, rateThreshold: real, window: real)

  datatype BreakerState = BreakerState(circuit: Circuit, events: seq<Event>)

  /** The five clock readings of one recorded failure. */
  datatype FailureTimes = FailureTimes(tracked: real, noted: real, openedAt: real, rated: real, forced: real)

  function ObserveBreaker(s: Settings, b: BreakerState, now: real): BreakerState {
    b.(circuit := Observe(s.circuit, b.circuit, now))
  }

  function RateBreaker(s: Settings, b: BreakerState, now: real): BreakerState {
    b.(events := Prune(b.events, now - s.window))
  }

  function SucceedBreaker(s: Settings, b: BreakerState, now: real): BreakerState {
    BreakerState(RecordSuccess(s.circuit, b.circuit), Record(s.window, b.events, now, false))
  }

  function FailBreaker(s: Settings, b: BreakerState, t: FailureTimes): BreakerState {
    var noted := RecordFailure(s.circuit, b.circuit, t.noted, t.openedAt);
    var events := Prune(Record(s.window, b.events, t.tracked, true), t.rated - s.window);
    BreakerState(if Percentage(events) > s.rateThreshold then Transition(noted, OPEN, t.forced) else noted, events)
  }

  class Breaker {
    const settings: Settings
    const cb: CircuitBreaker
    const tracker: FailureTracker
    ghost const Repr: set<object>

    ghost predicate Valid() {
      && Repr == {this, cb, tracker}
      && cb.cfg == settings.circuit
      && tracker.window == settings.window
    }

    ghost function View(): BreakerState
      reads cb, tracker
    {
      BreakerState(cb.View(), tracker.events)
    }

    constructor (settings: Settings)
      ensures Valid() && fresh(Repr) && this.settings == settings
      ensures View() == BreakerState(FRESH, [])
    {
      this.settings := settings;
      var machine := new CircuitBreaker(settings.circuit);
      var window := new FailureTracker(settings.window);
      cb, tracker := machine, window;
      Repr := {this, machine, window};
    }

    method GetState(now: real) returns (mode: Mode)
      requires Valid()
      modifies cb
      ensures View() == ObserveBreaker(settings, old(View()), now) && mode == View().circuit.mode
    {
      mode := cb.GetState(now);
    }

    method AllowRequest(now: real) returns (allowed: bool)
      requires Valid()
      modifies cb
      ensures View() == ObserveBreaker(settings, old(View()), now) && allowed == !View().circuit.mode.OPEN?
    {
      allowed := cb.AllowRequest(now);
    }

    method FailurePercentage(now: real) returns (percent: real)
      requires Valid()
      modifies tracker
      ensures View() == RateBreaker(settings, old(View()), now) && percent == Percentage(View().events)
    {
      percent := tracker.FailurePercentage(now);
    }

    method Succeed(now: real)
      requires Valid()
      modifies cb, tracker
      ensures View() == SucceedBreaker(settings, old(View()), now)
    {
      tracker.RecordOutcome(now, false);
      cb.Succeed();
    }

    method Fail(t: FailureTimes)
      requires Valid()
      modifies cb, tracker
      ensures View() == FailBreaker(settings, old(View()), t)
    {
      tracker.RecordOutcome(t.tracked, true);
      cb.Fail(t.noted, t.openedAt);
      var percent := tracker.FailurePercentage(t.rated);
      if percent > settings.rateThreshold {
        cb.SetMode(OPEN, t.forced);
      }
    }
  }

  // ---------------------------------------------------------------------
  // Runs of a breaker
  // ---------------------------------------------------------------------

  datatype Call = Observed(now: real) | Rated(now: real) | Succeeded(now: real) | Failed(times: FailureTimes)

  function Apply(s: Settings, b: BreakerState, call: Call): BreakerState {
    match call
    case Observed(now) => ObserveBreaker(s, b, now)
    case Rated(now) => RateBreaker(s, b, now)
    case Succeeded(now) => SucceedBreaker(s, b, now)
    case Failed(times) => FailBreaker(s, b, times)
  }

  function AfterCalls(s: Settings, calls: seq<Call>): BreakerState {
    if calls == [] then BreakerState(FRESH, []) else Apply(s, AfterCalls(s, calls[..|calls| - 1]), calls[|calls| - 1])
  }

  /** What the window sees of a call. */
  function WindowOpsOf(call: Call): seq<FailureTrackers.Op> {
    match call
    case Observed(_) => []
    case Rated(now) => [Query(now)]
    case Succeeded(now) => [Outcome(now, false)]
    case Failed(t) => [Outcome(t.tracked, true), Query(t.rated)]
  }

  /** What the state machine sees of a call; the rate rule appears as Force. */
  function MachineOpsOf(s: Settings, b: BreakerState, call: Call): seq<CircuitBreakers.Op> {
    match call
    case Observed(now) => [Look(now)]
    case Rated(_) => []
    case Succeeded(_) => [Success]
    case Failed(t) =>
      if Percentage(FailBreaker(s, b, t).events) > s.rateThreshold
      then [Failure(t.noted, t.openedAt), Force(t.forced)]
      else [Failure(t.noted, t.openedAt)]
  }

  function WindowOps(calls: seq<Call>): seq<FailureTrackers.Op> {
    if calls == [] then [] else WindowOps(calls[..|calls| - 1]) + WindowOpsOf(calls[|calls| - 1])
  }

  function MachineOps(s: Settings, calls: seq<Call>): seq<CircuitBreakers.Op> {
    if calls == [] then []
    else MachineOps(s, calls[..|calls| - 1]) + MachineOpsOf(s, AfterCalls(s, calls[..|calls| - 1]), calls[|calls| - 1])
  }

  lemma MachineAppends(cfg: Config, ops: seq<CircuitBreakers.Op>, op: CircuitBreakers.Op)
    ensures CircuitBreakers.After(cfg, ops + [op]) == CircuitBreakers.Step(cfg, CircuitBreakers.After(cfg, ops), op)
  {
    assert (ops + [op])[..|ops|] == ops;
  }

  lemma WindowAppends(window: real, ops: seq<FailureTrackers.Op>, op: FailureTrackers.Op)
    ensures FailureTrackers.After(window, ops + [op])
         == FailureTrackers.Step(window, FailureTrackers.After(window, ops), op)
  {
    assert (ops + [op])[..|ops|] == ops;
  }

  lemma CallDrivesMachine(s: Settings, b: BreakerState, call: Call, ops: seq<CircuitBreakers.Op>)
    requires b.circuit == CircuitBreakers.After(s.circuit, ops)
    ensures Apply(s, b, call).circuit == CircuitBreakers.After(s.circuit, ops + MachineOpsOf(s, b, call))
  {
    hide Percentage, RecordFailure, RecordSuccess, Observe, Transition, Prune, FailureTrackers.Record;
    hide CircuitBreakers.After;
    var more := MachineOpsOf(s, b, call);
    if more == [] {
      assert ops + more == ops;
    } else {
      MachineAppends(s.circuit, ops, more[0]);
      if |more| == 2 {
        MachineAppends(s.circuit, ops + [more[0]], more[1]);
        assert ops + [more[0]] + [more[1]] == ops + more;
      }
    }
  }

  lemma CallDrivesWindow(s: Settings, b: BreakerState, call: Call, ops: seq<FailureTrackers.Op>)
    requires b.events == FailureTrackers.After(s.window, ops)
    ensures Apply(s, b, call).events == FailureTrackers.After(s.window, ops + WindowOpsOf(call))
  {
    hide Percentage, RecordFailure, RecordSuccess, Observe, Transition, Prune, FailureTrackers.Record;
    hide FailureTrackers.After;
    var more := WindowOpsOf(call);
    if more == [] {
      assert ops + more == ops;
    } else {
      WindowAppends(s.window, ops, more[0]);
      if |more| == 2 {
        WindowAppends(s.window, ops + [more[0]], more[1]);
        assert ops + [more[0]] + [more[1]] == ops + more;
      }
    }
  }

  /** A run of the breaker is a run of its state machine and a run of its
      window, so every theorem about those holds of it, forced openings included. */
  lemma {:induction false} BreakerRunsBothParts(s: Settings, calls: seq<Call>)
    ensures AfterCalls(s, calls).circuit == CircuitBreakers.After(s.circuit, MachineOps(s, calls))
    ensures AfterCalls(s, calls).events == FailureTrackers.After(s.window, WindowOps(calls))
  {
    if calls != [] {
      var init := calls[..|calls| - 1];
      BreakerRunsBothParts(s, init);
      CallDrivesMachine(s, AfterCalls(s, init), calls[|calls| - 1], MachineOps(s, init));
      CallDrivesWindow(s, AfterCalls(s, init), calls[|calls| - 1], WindowOps(init));
    }
  }

  /** The call recorded a failure, or a success, at or after the cutoff. */
  predicate Counts(call: Call, failed: bool, cutoff: real) {
    if failed then call.Failed? && call.times.tracked >= cutoff else call.Succeeded? && call.now >= cutoff
  }

  /** The calls that recorded an outcome, failed or not, at or after the cutoff. */
  function OutcomesSince(calls: seq<Call>, failed: bool, cutoff: real): set<nat> {
    set k: nat | k < |calls| && Counts(calls[k], failed, cutoff)
  }

  /** More than `rate` percent of the outcomes recorded since the cutoff failed. */
  predicate TooMany(calls: seq<Call>, rate: real, cutoff: real) {
    var failures := |OutcomesSince(calls, true, cutoff)|;
    var total := failures + |OutcomesSince(calls, false, cutoff)|;
    if total == 0 then 0.0 > rate else 100.0 * failures as real > rate * total as real
  }

  /** The failures since the circuit was last CLOSED anew and since the last success. */
  ghost function FailedInARow(s: Settings, calls: seq<Call>): set<nat> {
    set k: nat | k < |calls| && calls[k].Failed?
                 && (forall j :: k < j < |calls| ==> !calls[j].Succeeded?)
                 && ClosedSince(s, calls, k)
  }

  ghost predicate ClosedSince(s: Settings, calls: seq<Call>, k: nat) {
    forall j :: k <= j <= |calls| ==> AfterCalls(s, calls[..j]).circuit.mode.CLOSED?
  }

  lemma PercentageAbove(events: seq<Event>, rate: real)
    ensures Percentage(events) > rate
       <==> if events == [] then 0.0 > rate else 100.0 * Count(events, true) as real > rate * |events| as real
  {
    CountsAddUp(events);
    if events != [] { Ratio(Count(events, true) as real, |events| as real, rate); }
  }

  lemma Ratio(f: real, n: real, rate: real)
    requires n > 0.0
    ensures f / n * 100.0 > rate <==> 100.0 * f > rate * n
  {
    var q := f / n;
    assert q * n == f;
    if q * 100.0 > rate {
      assert (q * 100.0 - rate) * n > 0.0;
    } else {
      assert (rate - q * 100.0) * n >= 0.0;
    }
  }

  /** The outcome a call records, if any. */
  function Noted(call: Call): seq<Event> {
    match call
    case Succeeded(now) => [Event(now, false)]
    case Failed(t) => [Event(t.tracked, true)]
    case _ => []
  }

  /** What the calls recorded, in order. */
  function Outcomes(calls: seq<Call>): seq<Event> {
    if calls == [] then [] else Outcomes(calls[..|calls| - 1]) + Noted(calls[|calls| - 1])
  }

  lemma {:induction false} HistoriesAppend(xs: seq<FailureTrackers.Op>, ys: seq<FailureTrackers.Op>)
    ensures History(xs + ys) == History(xs) + History(ys)
  {
    hide Recorded;
    if ys == [] {
      assert xs + ys == xs;
    } else {
      var init, last := ys[..|ys| - 1], ys[|ys| - 1];
      HistoriesAppend(xs, init);
      assert (xs + ys)[..|xs + ys| - 1] == xs + init && (xs + ys)[|xs + ys| - 1] == last;
      assert History(xs + ys) == History(xs) + History(init) + Recorded(last);
    }
  }

  lemma OneRecorded(op: FailureTrackers.Op)
    ensures History([op]) == Recorded(op)
  {
    assert [op][..0] == [];
  }

  lemma HistoryOfCall(call: Call)
    ensures History(WindowOpsOf(call)) == Noted(call)
  {
    hide History;
    match call
    case Observed(_) => NoHistory();
    case Rated(now) => OneRecorded(Query(now));
    case Succeeded(now) => OneRecorded(Outcome(now, false));
    case Failed(t) =>
      OneRecorded(Outcome(t.tracked, true));
      OneRecorded(Query(t.rated));
      HistoriesAppend([Outcome(t.tracked, true)], [Query(t.rated)]);
      assert WindowOpsOf(call) == [Outcome(t.tracked, true)] + [Query(t.rated)];
  }

  lemma {:induction false} HistoryIsOutcomes(calls: seq<Call>)
    ensures History(WindowOps(calls)) == Outcomes(calls)
  {
    hide History, WindowOpsOf, Noted;
    if calls == [] {
      NoHistory();
    } else {
      var init, last := calls[..|calls| - 1], calls[|calls| - 1];
      HistoryIsOutcomes(init);
      HistoriesAppend(WindowOps(init), WindowOpsOf(last));
      HistoryOfCall(last);
    }
  }

  lemma NoHistory()
    ensures History([]) == []
  {
  }

  lemma RecentOfOneMore(events: seq<Event>, e: Event, cutoff: real)
    ensures Recent(events + [e], cutoff) == Recent(events, cutoff) + if e.at >= cutoff then [e] else []
  {
    assert (events + [e])[..|events|] == events;
  }

  lemma CountOfOneMore(events: seq<Event>, e: Event, failed: bool)
    ensures Count(events + [e], failed) == Count(events, failed) + if e.failed == failed then 1 else 0
  {
    assert (events + [e])[..|events|] == events;
  }

  lemma OneMoreCounts(calls: seq<Call>, failed: bool, cutoff: real)
    requires calls != []
    ensures |OutcomesSince(calls, failed, cutoff)|
         == |OutcomesSince(calls[..|calls| - 1], failed, cutoff)|
            + if Counts(calls[|calls| - 1], failed, cutoff) then 1 else 0
  {
    hide Counts;
    var init, last := calls[..|calls| - 1], |calls| - 1;
    forall k: nat
      ensures k in OutcomesSince(calls, failed, cutoff)
         <==> k in OutcomesSince(init, failed, cutoff) || (k == last && Counts(calls[last], failed, cutoff))
    {
      if k < last { assert init[k] == calls[k]; }
    }
    if Counts(calls[last], failed, cutoff) {
      assert OutcomesSince(calls, failed, cutoff) == OutcomesSince(init, failed, cutoff) + {last};
    } else {
      assert OutcomesSince(calls, failed, cutoff) == OutcomesSince(init, failed, cutoff);
    }
  }

  lemma OneMoreRecent(events: seq<Event>, call: Call, failed: bool, cutoff: real)
    ensures Count(Recent(events + Noted(call), cutoff), failed)
         == Count(Recent(events, cutoff), failed) + if Counts(call, failed, cutoff) then 1 else 0
  {
    hide Recent, Count;
    var more := Noted(call);
    if more == [] {
      assert events + more == events;
    } else {
      RecentOfOneMore(events, more[0], cutoff);
      CountOfOneMore(Recent(events, cutoff), more[0], failed);
      assert Recent(events, cutoff) + [] == Recent(events, cutoff);
    }
  }

  /** Counting the recent outcomes of the queue is counting the calls. */
  lemma {:induction false} RecentCounts(calls: seq<Call>, failed: bool, cutoff: real)
    ensures Count(Recent(Outcomes(calls), cutoff), failed) == |OutcomesSince(calls, failed, cutoff)|
  {
    hide Recent, Count, Noted, Counts;
    if calls == [] {
      assert OutcomesSince(calls, failed, cutoff) == {};
      NothingRecent(cutoff);
      NothingCounted(failed);
    } else {
      RecentCounts(calls[..|calls| - 1], failed, cutoff);
      OneMoreCounts(calls, failed, cutoff);
      OneMoreRecent(Outcomes(calls[..|calls| - 1]), calls[|calls| - 1], failed, cutoff);
    }
  }

  lemma NothingCounted(failed: bool)
    ensures Count([], failed) == 0
  {
  }

  lemma FailedEnds(calls: seq<Call>, t: FailureTimes)
    ensures WindowOps(calls + [Failed(t)]) == WindowOps(calls) + [Outcome(t.tracked, true), Query(t.rated)]
  {
    assert (calls + [Failed(t)])[..|calls|] == calls;
  }

  lemma LatestWindow(s: Settings, calls: seq<Call>, t: FailureTimes)
    requires FailureTrackers.Timed(WindowOps(calls + [Failed(t)]))
    ensures AfterCalls(s, calls + [Failed(t)]).events == Recent(Outcomes(calls + [Failed(t)]), t.rated - s.window)
  {
    hide WindowOps, AfterCalls, Recent, History, FailureTrackers.Timed, FailureTrackers.After, Outcomes;
    hide CircuitBreakers.After, MachineOps;
    var all := calls + [Failed(t)];
    FailedEnds(calls, t);
    BreakerRunsBothParts(s, all);
    WindowIsFilteredHistory(s.window, WindowOps(all));
    HistoryIsOutcomes(all);
  }

  lemma RateExceededExactlyWhen(s: Settings, calls: seq<Call>, t: FailureTimes)
    requires FailureTrackers.Timed(WindowOps(calls + [Failed(t)]))
    ensures Percentage(AfterCalls(s, calls + [Failed(t)]).events) > s.rateThreshold
       <==> TooMany(calls + [Failed(t)], s.rateThreshold, t.rated - s.window)
  {
    hide WindowOps, AfterCalls, Recent, Outcomes, FailureTrackers.Timed, Percentage, OutcomesSince, Count;
    var all, cutoff := calls + [Failed(t)], t.rated - s.window;
    var events := AfterCalls(s, all).events;
    LatestWindow(s, calls, t);
    PercentageAbove(events, s.rateThreshold);
    CountsAddUp(events);
    RecentCounts(all, true, cutoff);
    RecentCounts(all, false, cutoff);
  }

  lemma FailOpens(s: Settings, b: BreakerState, t: FailureTimes)
    ensures FailBreaker(s, b, t).circuit.mode.OPEN? <==>
      (|| !b.circuit.mode.CLOSED?
       || b.circuit.failures + 1 >= s.circuit.failureThreshold
       || Percentage(FailBreaker(s, b, t).events) > s.rateThreshold)
  {
    hide Percentage, Prune, FailureTrackers.Record;
  }

  lemma ClosedSinceBefore(s: Settings, calls: seq<Call>, k: nat)
    requires k < |calls|
    ensures ClosedSince(s, calls, k)
       <==> AfterCalls(s, calls).circuit.mode.CLOSED? && ClosedSince(s, calls[..|calls| - 1], k)
  {
    hide AfterCalls;
    var init := calls[..|calls| - 1];
    assert calls[..|calls|] == calls;
    forall j | k <= j <= |init|
      ensures init[..j] == calls[..j]
    {
    }
    if AfterCalls(s, calls).circuit.mode.CLOSED? && ClosedSince(s, init, k) {
      forall j | k <= j <= |calls|
        ensures AfterCalls(s, calls[..j]).circuit.mode.CLOSED?
      {
        if j < |calls| { assert init[..j] == calls[..j]; }
      }
    }
  }

  lemma ClosedAtTheEnd(s: Settings, calls: seq<Call>, k: nat)
    requires k <= |calls|
    ensures ClosedSince(s, calls, k) ==> AfterCalls(s, calls).circuit.mode.CLOSED?
    ensures k == |calls| && AfterCalls(s, calls).circuit.mode.CLOSED? ==> ClosedSince(s, calls, k)
  {
    hide AfterCalls;
    assert calls[..|calls|] == calls;
  }

  lemma FailedInARowGrows(s: Settings, calls: seq<Call>)
    requires calls != [] && AfterCalls(s, calls).circuit.mode.CLOSED?
    ensures var init := calls[..|calls| - 1];
            |FailedInARow(s, calls)|
            == if !AfterCalls(s, init).circuit.mode.CLOSED? || calls[|calls| - 1].Succeeded? then 0
               else |FailedInARow(s, init)| + if calls[|calls| - 1].Failed? then 1 else 0
  {
    hide AfterCalls, ClosedSince;
    var init, last := calls[..|calls| - 1], |calls| - 1;
    forall k: nat
      ensures k in FailedInARow(s, calls) <==>
                && AfterCalls(s, init).circuit.mode.CLOSED? && !calls[last].Succeeded?
                && (k in FailedInARow(s, init) || (k == last && calls[last].Failed?))
    {
      if k < |calls| {
        ClosedSinceBefore(s, calls, k);
        ClosedAtTheEnd(s, init, k);
        if k < last {
          assert (forall j :: k < j < |calls| ==> !calls[j].Succeeded?)
            <==> !calls[last].Succeeded? && forall j :: k < j < |init| ==> !init[j].Succeeded?;
        }
      }
    }
    if AfterCalls(s, init).circuit.mode.CLOSED? && !calls[last].Succeeded? {
      assert FailedInARow(s, calls) == FailedInARow(s, init) + if calls[last].Failed? then {last} else {};
    } else {
      assert FailedInARow(s, calls) == {};
    }
  }

  lemma FailuresStep(s: Settings, b: BreakerState, call: Call)
    requires Apply(s, b, call).circuit.mode.CLOSED?
    ensures b.circuit.mode.CLOSED? || call.Succeeded?
    ensures Apply(s, b, call).circuit.failures
         == if !b.circuit.mode.CLOSED? || call.Succeeded? then 0
            else b.circuit.failures + if call.Failed? then 1 else 0
  {
    hide Percentage, Prune, FailureTrackers.Record;
  }

  lemma {:induction false} FailuresMatchCalls(s: Settings, calls: seq<Call>)
    requires AfterCalls(s, calls).circuit.mode.CLOSED?
    ensures AfterCalls(s, calls).circuit.failures == |FailedInARow(s, calls)|
  {
    hide Apply, FailedInARow;
    if calls == [] {
      NoCallsFailed(s);
    } else {
      var init := calls[..|calls| - 1];
      FailuresStep(s, AfterCalls(s, init), calls[|calls| - 1]);
      FailedInARowGrows(s, calls);
      if AfterCalls(s, init).circuit.mode.CLOSED? { FailuresMatchCalls(s, init); }
    }
  }

  lemma NoCallsFailed(s: Settings)
    ensures |FailedInARow(s, [])| == 0
  {
    assert FailedInARow(s, []) == {};
  }

  /** The opening rule, over the whole history of the breaker: after a recorded
      failure it is OPEN exactly when it was not CLOSED, when with this one the
      failures in a row reached the threshold, or when too many of the
      outcomes recorded within the last window are failures. */
  lemma OpensExactlyWhen(s: Settings, calls: seq<Call>, t: FailureTimes)
    requires FailureTrackers.Timed(WindowOps(calls + [Failed(t)]))
    ensures
      AfterCalls(s, calls + [Failed(t)]).circuit.mode.OPEN? <==>
        (|| !AfterCalls(s, calls).circuit.mode.CLOSED?
         || |FailedInARow(s, calls)| + 1 >= s.circuit.failureThreshold
         || TooMany(calls + [Failed(t)], s.rateThreshold, t.rated - s.window))
  {
    hide Percentage, TooMany, WindowOps, FailBreaker, FailureTrackers.Timed, FailedInARow;
    var b, after := AfterCalls(s, calls), AfterCalls(s, calls + [Failed(t)]);
    assert after == FailBreaker(s, b, t) by {
      assert (calls + [Failed(t)])[..|calls|] == calls;
    }
    FailOpens(s, b, t);
    RateExceededExactlyWhen(s, calls, t);
    if b.circuit.mode.CLOSED? { FailuresMatchCalls(s, calls); }
  }
}
