/** What reaches the breakers over whole runs of the dashboard: which calls, and
    that the outcomes they record are the bookings each server served. */
module DashboardBreakers {
  import opened Metrics
  import opened Booking
  import opened Breakers
  import opened Cluster
  import opened DashboardRuns
  import C = CircuitBreakers
  import T = FailureTrackers

  /** The server an attempt was sent to: it locked the seat or was struck. */
  ghost function ServedBy(a: App, e: Event): Option<string>
    requires WellFormed(a)
  {
    if !e.BookSeat? then None
    else match Answer(a, e.request)
      case Granted(id) => Some(id)
      case TransientFailure => e.request.choose(MetricsOf(a.servers, a.breakers, SERVER_IDS, e.request.status))
      case _ => None
  }

  /** The metrics ask for the state of a server that is switched on, and for every failure rate. */
  ghost function PollCalls(s: Server, r: StatusReading): seq<Call> {
    (if s.online then [Observed(r.state)] else []) + [Rated(r.rate)]
  }

  /** An attempt is admitted twice and its outcome recorded; after a success the state is reported. */
  ghost function ServeCalls(t: CallTimes, granted: bool): seq<Call> {
    [Observed(t.route), Observed(t.call)]
    + if granted then [Succeeded(t.success), Observed(t.report)] else [Failed(t.failure)]
  }

  /** The calls an event makes on the breaker of server `id`. */
  ghost function CallsOf(a: App, e: Event, id: string): seq<Call>
    requires WellFormed(a) && Possible(a, e) && id in SERVER_IDS
  {
    match e
    case BookSeat(r) =>
      var answer := Answer(a, r);
      if answer.NoSuchSeat? || answer.AlreadyReserved? || answer.CurrentlyLeased? then []
      else if ServedBy(a, e) != Some(id) then PollCalls(a.servers[id], r.status(id))
      else PollCalls(a.servers[id], r.status(id)) + ServeCalls(r.times, answer.Granted?)
    case Snapshot(_, status, shown) =>
      PollCalls(a.servers[id], status(id)) + [Observed(shown(id).state), Rated(shown(id).rate)]
    case _ => []
  }

  /** The breaker after some more calls. */
  ghost function RunCalls(b: BreakerState, calls: seq<Call>): BreakerState {
    if calls == [] then b else Breakers.Apply(BREAKER, RunCalls(b, calls[..|calls| - 1]), calls[|calls| - 1])
  }

  lemma {:induction false} CallsContinue(xs: seq<Call>, ys: seq<Call>)
    ensures AfterCalls(BREAKER, xs + ys) == RunCalls(AfterCalls(BREAKER, xs), ys)
  {
    hide Breakers.Apply;
    if ys == [] {
      assert xs + ys == xs;
    } else {
      CallsContinue(xs, ys[..|ys| - 1]);
      assert (xs + ys)[..|xs + ys| - 1] == xs + ys[..|ys| - 1];
    }
  }

  lemma OneMoreRun(b: BreakerState, calls: seq<Call>, call: Call)
    ensures RunCalls(b, calls + [call]) == Breakers.Apply(BREAKER, RunCalls(b, calls), call)
  {
    assert (calls + [call])[..|calls|] == calls;
  }

  lemma PollRuns(s: Server, b: BreakerState, r: StatusReading)
    ensures RunCalls(b, PollCalls(s, r)) == PolledBreaker(s, b, r)
  {
    hide ObserveBreaker, RateBreaker, RunCalls;
    assert RunCalls(b, []) == b by { NoCalls(b); }
    var looks: seq<Call> := if s.online then [Observed(r.state)] else [];
    if s.online {
      OneMoreRun(b, [], Observed(r.state));
      assert [] + [Observed(r.state)] == looks;
    }
    OneMoreRun(b, looks, Rated(r.rate));
  }

  lemma NoCalls(b: BreakerState)
    ensures RunCalls(b, []) == b
  {
  }

  lemma {:induction false} RunTwice(b: BreakerState, xs: seq<Call>, ys: seq<Call>)
    ensures RunCalls(b, xs + ys) == RunCalls(RunCalls(b, xs), ys)
  {
    hide Breakers.Apply;
    if ys == [] {
      assert xs + ys == xs;
    } else {
      RunTwice(b, xs, ys[..|ys| - 1]);
      assert (xs + ys)[..|xs + ys| - 1] == xs + ys[..|ys| - 1];
    }
  }

  lemma AdmittedTwice(b: BreakerState, t: CallTimes)
    requires !b.circuit.mode.OPEN?
    ensures RunCalls(b, [Observed(t.route), Observed(t.call)]) == b
  {
    hide RunCalls;
    NoCalls(b);
    OneMoreRun(b, [], Observed(t.route));
    assert [] + [Observed(t.route)] == [Observed(t.route)];
    OneMoreRun(b, [Observed(t.route)], Observed(t.call));
    assert [Observed(t.route)] + [Observed(t.call)] == [Observed(t.route), Observed(t.call)];
  }

  lemma ServeRuns(b: BreakerState, t: CallTimes, granted: bool)
    requires !b.circuit.mode.OPEN?
    ensures RunCalls(b, ServeCalls(t, granted))
         == if granted then SucceedThenLook(b, t) else FailBreaker(BREAKER, b, t.failure)
  {
    hide ObserveBreaker, SucceedBreaker, FailBreaker, RunCalls;
    var admitted := [Observed(t.route), Observed(t.call)];
    AdmittedTwice(b, t);
    if granted {
      OneMoreRun(b, admitted, Succeeded(t.success));
      OneMoreRun(b, admitted + [Succeeded(t.success)], Observed(t.report));
      assert ServeCalls(t, granted) == admitted + [Succeeded(t.success)] + [Observed(t.report)];
    } else {
      OneMoreRun(b, admitted, Failed(t.failure));
    }
  }

  /** The calls one request makes on the breaker of the server it is sent to. */
  ghost function RequestCalls(answer: BookResult, t: CallTimes): seq<Call> {
    [Observed(t.call)]
    + match answer
      case Granted(_) => [Succeeded(t.success), Observed(t.report)]
      case CircuitOpen => []
      case ServerOffline => [Failed(t.offline), Failed(t.failure)]
      case _ => [Failed(t.failure)]
  }

  lemma RequestRuns(b: BreakerState, answer: BookResult, t: CallTimes)
    ensures RunCalls(b, RequestCalls(answer, t))
         == var seen := ObserveBreaker(BREAKER, b, t.call);
            match answer
            case Granted(_) => SucceedThenLook(seen, t)
            case CircuitOpen => seen
            case ServerOffline => FailBreaker(BREAKER, FailBreaker(BREAKER, seen, t.offline), t.failure)
            case _ => FailBreaker(BREAKER, seen, t.failure)
  {
    hide ObserveBreaker, SucceedBreaker, FailBreaker, RunCalls;
    NoCalls(b);
    OneMoreRun(b, [], Observed(t.call));
    assert [] + [Observed(t.call)] == [Observed(t.call)];
    match answer
    case Granted(_) =>
      OneMoreRun(b, [Observed(t.call)], Succeeded(t.success));
      OneMoreRun(b, [Observed(t.call)] + [Succeeded(t.success)], Observed(t.report));
      assert RequestCalls(answer, t) == [Observed(t.call)] + [Succeeded(t.success)] + [Observed(t.report)];
    case CircuitOpen =>
      assert RequestCalls(answer, t) == [Observed(t.call)];
    case ServerOffline =>
      OneMoreRun(b, [Observed(t.call)], Failed(t.offline));
      OneMoreRun(b, [Observed(t.call)] + [Failed(t.offline)], Failed(t.failure));
      assert RequestCalls(answer, t) == [Observed(t.call)] + [Failed(t.offline)] + [Failed(t.failure)];
    case _ =>
      OneMoreRun(b, [Observed(t.call)], Failed(t.failure));
  }

  /** A request sent to any server in any state: what it is answered, and the
      calls on that server's breaker; no other breaker is touched. */
  lemma RequestMakesCalls(a: App, server: string, r: Request)
    requires WellFormed(a) && server in SERVER_IDS && PRIMARY in a.core.stores
    ensures var (d, answer) := CallBreaker(a, server, r);
            var admitted, online := Admits(a.breakers[server], r.times.call), a.servers[server].online;
            var leases := a.core.leases.bySeat;
            var held := r.seat in leases && leases[r.seat].expiresAt > r.times.acquireSweep;
            && answer == (if !admitted then CircuitOpen else if !online then ServerOffline
                          else if r.flaky then TransientFailure else if held then LeaseConflict
                          else Granted(server))
            && d.breakers == a.breakers[server := RunCalls(a.breakers[server], RequestCalls(answer, r.times))]
  {
    hide SERVER_IDS, WritePrimary, SucceedBreaker, FailBreaker, RunCalls;
    RequestRuns(a.breakers[server], CallBreaker(a, server, r).1, r.times);
  }

  // ---------------------------------------------------------------------
  // Every event
  // ---------------------------------------------------------------------

  lemma PollMakesCalls(a: App, at: string -> StatusReading, id: string)
    requires WellFormed(a) && id in SERVER_IDS
    ensures Poll(a.servers, a.breakers, SERVER_IDS, at)[id]
         == RunCalls(a.breakers[id], PollCalls(a.servers[id], at(id)))
  {
    hide Poll, PollCalls, RunCalls;
    ServersDistinct();
    PolledOnce(a.servers, a.breakers, SERVER_IDS, at, id);
    PollRuns(a.servers[id], a.breakers[id], at(id));
  }

  lemma ServerIsReady(a: App, r: Request, id: string)
    requires WellFormed(a) && Inv(a.core) && RoutesOnline(r.choose) && ServedBy(a, BookSeat(r)) == Some(id)
    ensures id in SERVER_IDS && r.choose(MetricsOf(a.servers, a.breakers, SERVER_IDS, r.status)) == Some(id)
    ensures a.servers[id].online
    ensures !Poll(a.servers, a.breakers, SERVER_IDS, r.status)[id].circuit.mode.OPEN?
  {
    hide Book, Inv, MetricsOf, Poll, RoutesOnline, SweepSeats, Struck, Cluster.Served;
    BookingLeaves(a, r);
    PickIsReady(a.servers, a.breakers, r.status, r.choose);
  }

  lemma BookingMakesCalls(a: App, r: Request, id: string)
    requires WellFormed(a) && Inv(a.core) && RoutesOnline(r.choose) && id in SERVER_IDS
    ensures PRIMARY in a.core.stores
    ensures id in Book(a, r).0.breakers
    ensures Book(a, r).0.breakers[id] == RunCalls(a.breakers[id], CallsOf(a, BookSeat(r), id))
  {
    hide SERVER_IDS, Book, Expected, Inv, MetricsOf, Poll, RoutesOnline, SweepSeats, Lock, FailBreaker;
    hide SucceedThenLook, PollCalls, ServeCalls, RunCalls;
    BookingLeaves(a, r);
    PollMakesCalls(a, r.status, id);
    NoCalls(a.breakers[id]);
    var answer := Answer(a, r);
    var served := ServedBy(a, BookSeat(r));
    if served.Some? { ServerIsReady(a, r, served.value); }
    if served == Some(id) {
      ServeRuns(Poll(a.servers, a.breakers, SERVER_IDS, r.status)[id], r.times, answer.Granted?);
      RunTwice(a.breakers[id], PollCalls(a.servers[id], r.status(id)), ServeCalls(r.times, answer.Granted?));
    }
  }

  lemma {:induction false} ShownOnce(breakers: map<string, BreakerState>, ids: seq<string>,
                                     at: string -> StatusReading, id: string)
    requires Distinct(ids) && forall k :: k in ids ==> k in breakers
    ensures id in breakers ==>
              Shown(breakers, ids, at)[id]
              == if id !in ids then breakers[id]
                 else RateBreaker(BREAKER, ObserveBreaker(BREAKER, breakers[id], at(id).state), at(id).rate)
  {
    hide ObserveBreaker, RateBreaker;
    if ids != [] {
      var init, last := ids[..|ids| - 1], ids[|ids| - 1];
      assert ids == init + [last];
      ShownOnce(breakers, init, at, id);
      ShownOnce(breakers, init, at, last);
    }
  }

  lemma SnapshotMakesCalls(a: App, e: Event, id: string)
    requires WellFormed(a) && e.Snapshot? && id in SERVER_IDS
    ensures id in TakeSnapshot(a, e.sweep, e.status, e.shown).breakers
    ensures TakeSnapshot(a, e.sweep, e.status, e.shown).breakers[id] == RunCalls(a.breakers[id], CallsOf(a, e, id))
  {
    hide SERVER_IDS, Poll, Shown, PollCalls, RunCalls, ObserveBreaker, RateBreaker, SweepSeats;
    var polled, calls := Poll(a.servers, a.breakers, SERVER_IDS, e.status), PollCalls(a.servers[id], e.status(id));
    ServersDistinct();
    PollMakesCalls(a, e.status, id);
    ShownOnce(polled, SERVER_IDS, e.shown, id);
    OneMoreRun(a.breakers[id], calls, Observed(e.shown(id).state));
    OneMoreRun(a.breakers[id], calls + [Observed(e.shown(id).state)], Rated(e.shown(id).rate));
    assert CallsOf(a, e, id) == calls + [Observed(e.shown(id).state)] + [Rated(e.shown(id).rate)];
  }

  lemma OthersLeaveBreakers(a: App, e: Event)
    requires WellFormed(a) && Possible(a, e) && !e.BookSeat? && !e.Snapshot?
    ensures Next(a, e).breakers == a.breakers
  {
    hide SERVER_IDS, Confirm, Cancel, Renew, Deliver, Recover, Reset;
  }

  /** Every event takes each breaker through exactly its calls. */
  lemma EventMakesCalls(a: App, e: Event, id: string)
    requires WellFormed(a) && Inv(a.core) && Possible(a, e) && id in SERVER_IDS
    ensures id in Next(a, e).breakers
    ensures Next(a, e).breakers[id] == RunCalls(a.breakers[id], CallsOf(a, e, id))
  {
    hide SERVER_IDS, Inv, RunCalls, Book, TakeSnapshot;
    if e.BookSeat? {
      BookingMakesCalls(a, e.request, id);
    } else if e.Snapshot? {
      SnapshotMakesCalls(a, e, id);
    } else {
      hide Next;
      OthersLeaveBreakers(a, e);
      NoCalls(a.breakers[id]);
    }
  }

  // ---------------------------------------------------------------------
  // Whole runs
  // ---------------------------------------------------------------------

  /** The calls a run makes on the breaker of server `id`. */
  ghost function CallsAlong(a: App, es: seq<Event>, id: string): seq<Call>
    requires id in SERVER_IDS
  {
    if es == [] then []
    else
      var before, e := AfterEvents(a, es[..|es| - 1]), es[|es| - 1];
      CallsAlong(a, es[..|es| - 1], id)
      + if WellFormed(before) && Possible(before, e) then CallsOf(before, e, id) else []
  }

  /** In every run of the dashboard from a fresh start the breaker of a server is
      where exactly these calls take a fresh breaker, so every theorem about
      breakers applies to it. */
  lemma {:induction false} BreakersRunCalls(es: seq<Event>, id: string)
    requires id in SERVER_IDS
    ensures var d := AfterEvents(Start(), es);
            id in d.breakers && d.breakers[id] == AfterCalls(BREAKER, CallsAlong(Start(), es, id))
  {
    hide SERVER_IDS, Inv, WellFormed, Possible, CallsOf, Next, RunCalls, AfterCalls;
    if es == [] {
      FreshBreaker(id);
    } else {
      var init, e := es[..|es| - 1], es[|es| - 1];
      var before := AfterEvents(Start(), init);
      BreakersRunCalls(init, id);
      StartIsSound();
      RunsAreProtocolRuns(Start(), init);
      if Possible(before, e) {
        EventMakesCalls(before, e, id);
        CallsContinue(CallsAlong(Start(), init, id), CallsOf(before, e, id));
      } else {
        assert CallsAlong(Start(), es, id) == CallsAlong(Start(), init, id);
      }
    }
  }

  lemma FreshBreaker(id: string)
    requires id in SERVER_IDS
    ensures id in Start().breakers && Start().breakers[id] == AfterCalls(BREAKER, [])
    ensures AfterEvents(Start(), []) == Start() && CallsAlong(Start(), [], id) == []
  {
    hide FreshSeats, FreshStores;
  }

  /** What an event has the server serve: a success for a booking granted through
      it, a failure for one that was struck there. */
  ghost function OutcomeOf(a: App, e: Event, id: string): seq<T.Event>
    requires WellFormed(a)
  {
    if !e.BookSeat? || ServedBy(a, e) != Some(id) then []
    else if Answer(a, e.request).Granted? then [T.Event(e.request.times.success, false)]
    else [T.Event(e.request.times.failure.tracked, true)]
  }

  /** The outcomes of the bookings server `id` served, in order. */
  ghost function Served(a: App, es: seq<Event>, id: string): seq<T.Event> {
    if es == [] then []
    else
      var before, e := AfterEvents(a, es[..|es| - 1]), es[|es| - 1];
      Served(a, es[..|es| - 1], id)
      + if WellFormed(before) && Possible(before, e) then OutcomeOf(before, e, id) else []
  }

  lemma {:induction false} OutcomesAppend(xs: seq<Call>, ys: seq<Call>)
    ensures Outcomes(xs + ys) == Outcomes(xs) + Outcomes(ys)
  {
    hide Noted;
    if ys == [] {
      assert xs + ys == xs;
    } else {
      var init := ys[..|ys| - 1];
      OutcomesAppend(xs, init);
      assert (xs + ys)[..|xs + ys| - 1] == xs + init && (xs + ys)[|xs + ys| - 1] == ys[|ys| - 1];
      assert Outcomes(xs + ys) == Outcomes(xs) + Outcomes(init) + Noted(ys[|ys| - 1]);
    }
  }

  lemma OneOutcome(calls: seq<Call>, call: Call)
    ensures Outcomes(calls + [call]) == Outcomes(calls) + Noted(call)
  {
    assert (calls + [call])[..|calls|] == calls;
  }

  lemma NoOutcomes()
    ensures Outcomes([]) == []
  {
  }

  lemma PollNotesNothing(s: Server, r: StatusReading)
    ensures Outcomes(PollCalls(s, r)) == []
  {
    hide Outcomes;
    NoOutcomes();
    OneOutcome([], Observed(r.state));
    var looks: seq<Call> := if s.online then [Observed(r.state)] else [];
    assert s.online ==> [] + [Observed(r.state)] == looks;
    OneOutcome(looks, Rated(r.rate));
  }

  lemma ServeNotesOutcome(t: CallTimes, granted: bool)
    ensures Outcomes(ServeCalls(t, granted))
         == [if granted then T.Event(t.success, false) else T.Event(t.failure.tracked, true)]
  {
    hide Outcomes;
    NoOutcomes();
    OneOutcome([], Observed(t.route));
    assert [] + [Observed(t.route)] == [Observed(t.route)];
    OneOutcome([Observed(t.route)], Observed(t.call));
    var admitted := [Observed(t.route), Observed(t.call)];
    assert [Observed(t.route)] + [Observed(t.call)] == admitted;
    OneOutcome(admitted, if granted then Succeeded(t.success) else Failed(t.failure));
    if granted {
      OneOutcome(admitted + [Succeeded(t.success)], Observed(t.report));
      assert ServeCalls(t, granted) == admitted + [Succeeded(t.success)] + [Observed(t.report)];
    }
  }

  lemma CallsNoteOutcome(a: App, e: Event, id: string)
    requires WellFormed(a) && Possible(a, e) && id in SERVER_IDS
    ensures Outcomes(CallsOf(a, e, id)) == OutcomeOf(a, e, id)
  {
    hide SERVER_IDS, PollCalls, ServeCalls, Outcomes, Answer, MetricsOf;
    NoOutcomes();
    if e.BookSeat? {
      var r := e.request;
      PollNotesNothing(a.servers[id], r.status(id));
      ServeNotesOutcome(r.times, Answer(a, r).Granted?);
      OutcomesAppend(PollCalls(a.servers[id], r.status(id)), ServeCalls(r.times, Answer(a, r).Granted?));
    } else if e.Snapshot? {
      var calls := PollCalls(a.servers[id], e.status(id));
      PollNotesNothing(a.servers[id], e.status(id));
      OneOutcome(calls, Observed(e.shown(id).state));
      OneOutcome(calls + [Observed(e.shown(id).state)], Rated(e.shown(id).rate));
      assert CallsOf(a, e, id) == calls + [Observed(e.shown(id).state)] + [Rated(e.shown(id).rate)];
    }
  }

  /** In every run of the dashboard: the outcomes ever recorded on a server's
      breaker are, in order, the bookings it served, a success for each
      granted one and a failure for each struck one. */
  lemma {:induction false} OutcomesAreBookings(a: App, es: seq<Event>, id: string)
    requires id in SERVER_IDS
    ensures Outcomes(CallsAlong(a, es, id)) == Served(a, es, id)
  {
    hide SERVER_IDS, Outcomes, WellFormed, Possible, CallsOf, OutcomeOf, AfterEvents;
    NoOutcomes();
    if es != [] {
      var init, e := es[..|es| - 1], es[|es| - 1];
      var before := AfterEvents(a, init);
      OutcomesAreBookings(a, init, id);
      if WellFormed(before) && Possible(before, e) {
        CallsNoteOutcome(before, e, id);
        OutcomesAppend(CallsAlong(a, init, id), CallsOf(before, e, id));
      } else {
        assert CallsAlong(a, es, id) == CallsAlong(a, init, id);
      }
    }
  }

  /** `later` is the end of `events`. */
  ghost predicate EndOf(events: seq<T.Event>, later: seq<T.Event>) {
    exists n: nat :: n <= |events| && later == events[n..]
  }

  lemma AppendedEnd(events: seq<T.Event>, later: seq<T.Event>, more: seq<T.Event>)
    requires EndOf(events, later)
    ensures EndOf(events + more, later + more)
  {
    var n: nat :| n <= |events| && later == events[n..];
    assert later + more == (events + more)[n..];
  }

  lemma PrunedEnd(events: seq<T.Event>, later: seq<T.Event>, cutoff: real)
    requires EndOf(events, later)
    ensures EndOf(events, T.Prune(later, cutoff))
  {
    hide T.Prune;
    var n: nat :| n <= |events| && later == events[n..];
    T.PruneDropsOld(later, cutoff);
    var k: nat :| T.DropsFirst(later, T.Prune(later, cutoff), cutoff, k);
    assert events[n..][k..] == events[n + k..];
  }

  lemma CallKeepsEnd(b: BreakerState, call: Call, events: seq<T.Event>)
    requires EndOf(events, b.events)
    ensures EndOf(events + Noted(call), Breakers.Apply(BREAKER, b, call).events)
  {
    hide EndOf, T.Prune, T.Percentage, C.RecordFailure, C.RecordSuccess, C.Observe, C.Transition;
    match call
    case Observed(_) => assert events + Noted(call) == events;
    case Rated(now) =>
      assert events + Noted(call) == events;
      PrunedEnd(events, b.events, now - BREAKER.window);
    case Succeeded(now) =>
      AppendedEnd(events, b.events, Noted(call));
      PrunedEnd(events + Noted(call), b.events + Noted(call), now - BREAKER.window);
    case Failed(t) =>
      var all, queue := events + Noted(call), b.events + Noted(call);
      AppendedEnd(events, b.events, Noted(call));
      PrunedEnd(all, queue, t.tracked - BREAKER.window);
      PrunedEnd(all, T.Prune(queue, t.tracked - BREAKER.window), t.rated - BREAKER.window);
  }

  lemma {:induction false} WindowIsEnd(calls: seq<Call>)
    ensures EndOf(Outcomes(calls), AfterCalls(BREAKER, calls).events)
  {
    hide EndOf, Noted, Breakers.Apply;
    if calls == [] {
      EmptyEnd();
    } else {
      WindowIsEnd(calls[..|calls| - 1]);
      CallKeepsEnd(AfterCalls(BREAKER, calls[..|calls| - 1]), calls[|calls| - 1], Outcomes(calls[..|calls| - 1]));
    }
  }

  lemma EmptyEnd()
    ensures EndOf([], [])
  {
    var none: seq<T.Event> := [];
    assert none[0..] == none;
  }

  /** In every run of the dashboard from a fresh start, whatever the clock does:
      the window of a server's breaker holds the latest of the bookings it
      served, in order, and nothing else. */
  lemma WindowHoldsBookings(es: seq<Event>, id: string)
    requires id in SERVER_IDS
    ensures var d := AfterEvents(Start(), es);
            id in d.breakers && EndOf(Served(Start(), es, id), d.breakers[id].events)
  {
    hide SERVER_IDS, Start, AfterEvents, EndOf, Outcomes, AfterCalls;
    BreakersRunCalls(es, id);
    OutcomesAreBookings(Start(), es, id);
    WindowIsEnd(CallsAlong(Start(), es, id));
  }

  // ---------------------------------------------------------------------
  // What follows for each server's breaker
  // ---------------------------------------------------------------------

  lemma RunIsSound(calls: seq<Call>)
    ensures var b := AfterCalls(BREAKER, calls);
            && C.Chain(b.circuit.changes, b.circuit.mode)
            && (b.circuit.mode.CLOSED? ==> 0 <= b.circuit.failures < 3)
            && (b.circuit.mode.HALF_OPEN? ==> b.circuit.trialSuccesses == 0)
  {
    hide C.Chain, C.After, C.Trials, C.InARow;
    BreakerRunsBothParts(BREAKER, calls);
    C.CountersMatchHistory(BREAKER.circuit, MachineOps(BREAKER, calls));
    C.ChangesFormAChain(BREAKER.circuit, MachineOps(BREAKER, calls));
  }

  /** In every run of the dashboard, whatever the clock does, each server's
      breaker is where a run of breaker calls leads to: its events form a legal
      chain, a CLOSED one has fewer than three failures against it, and a
      HALF_OPEN one no success yet. */
  lemma BreakersAlwaysSound(es: seq<Event>, id: string)
    requires id in SERVER_IDS
    ensures var d := AfterEvents(Start(), es);
            && id in d.breakers
            && C.Chain(d.breakers[id].circuit.changes, d.breakers[id].circuit.mode)
            && (d.breakers[id].circuit.mode.CLOSED? ==> 0 <= d.breakers[id].circuit.failures < 3)
            && (d.breakers[id].circuit.mode.HALF_OPEN? ==> d.breakers[id].circuit.trialSuccesses == 0)
  {
    hide SERVER_IDS, Start, AfterEvents, AfterCalls, C.Chain;
    BreakersRunCalls(es, id);
    RunIsSound(CallsAlong(Start(), es, id));
  }

  /** The event is a booking that is granted. */
  ghost predicate IsGranted(a: App, e: Event) {
    e.BookSeat? && Answer(a, e.request).Granted?
  }

  lemma SuccessCloses(b: BreakerState, t: CallTimes)
    requires !b.circuit.mode.OPEN? && (b.circuit.mode.HALF_OPEN? ==> b.circuit.trialSuccesses == 0)
    ensures var d := SucceedThenLook(b, t);
            && d.circuit.mode.CLOSED? && d.circuit.failures == 0
            && d.events != [] && d.events[|d.events| - 1] == T.Event(t.success, false)
  {
    hide T.Prune;
    var queue := b.events + [T.Event(t.success, false)];
    T.RecentLastStays(queue, t.success - BREAKER.window);
  }

  /** A granted booking leaves the breaker of the server that served it CLOSED,
      with no failures against it and the success as the latest outcome in its
      window, every other breaker as polled, and so opens none. */
  lemma GrantedBookingCloses(es: seq<Event>, e: Event, id: string)
    requires id in SERVER_IDS && IsGranted(AfterEvents(Start(), es), e)
    ensures var before, d := AfterEvents(Start(), es), AfterEvents(Start(), es + [e]);
            && WellFormed(before) && id in d.breakers
            && (Answer(before, e.request) == Granted(id) ==>
                  && d.breakers[id].circuit.mode.CLOSED? && d.breakers[id].circuit.failures == 0
                  && d.breakers[id].events != []
                  && d.breakers[id].events[|d.breakers[id].events| - 1] == T.Event(e.request.times.success, false))
            && (Answer(before, e.request) != Granted(id) ==>
                  d.breakers[id] == Poll(before.servers, before.breakers, SERVER_IDS, e.request.status)[id])
            && (d.breakers[id].circuit.mode.OPEN? ==> before.breakers[id].circuit.mode.OPEN?)
  {
    hide SERVER_IDS, Start, Book, Inv, Lock, SweepSeats, Poll, RoutesOnline, Expected, AfterCalls, SucceedThenLook;
    var before, r := AfterEvents(Start(), es), e.request;
    StartIsSound();
    RunsAreProtocolRuns(Start(), es);
    OneEvent(Start(), es, e);
    BookingLeaves(before, r);
    BookStep(before, r);
    PollLooks(before.servers, before.breakers, r.status, id);
    PollTrials(es, r.status, id);
    if Answer(before, r) == Granted(id) {
      ServerIsReady(before, r, id);
      SuccessCloses(Poll(before.servers, before.breakers, SERVER_IDS, r.status)[id], r.times);
    }
  }

  lemma OneEvent(a: App, es: seq<Event>, e: Event)
    ensures AfterEvents(a, es + [e]) == Step(AfterEvents(a, es), e)
  {
    assert (es + [e])[..|es|] == es;
  }

  lemma PollTrials(es: seq<Event>, at: string -> StatusReading, id: string)
    requires id in SERVER_IDS
    ensures var a := AfterEvents(Start(), es);
            && WellFormed(a)
            && var d := Poll(a.servers, a.breakers, SERVER_IDS, at)[id];
               d.circuit.mode.HALF_OPEN? ==> d.circuit.trialSuccesses == 0
  {
    hide SERVER_IDS, Start, Inv, AfterEvents, AfterCalls, Poll;
    StartIsSound();
    RunsAreProtocolRuns(Start(), es);
    var a := AfterEvents(Start(), es);
    BreakersRunCalls(es, id);
    PollMakesCalls(a, at, id);
    var calls := CallsAlong(Start(), es, id);
    CallsContinue(calls, PollCalls(a.servers[id], at(id)));
    RunIsSound(calls + PollCalls(a.servers[id], at(id)));
  }

  /** The calls on the breaker of server `id` up to the failure that the struck
      booking `e` records there. */
  ghost function UpToFailure(a: App, es: seq<Event>, e: Event, id: string): seq<Call>
    requires id in SERVER_IDS && e.BookSeat? && WellFormed(AfterEvents(a, es))
  {
    CallsAlong(a, es, id) + PollCalls(AfterEvents(a, es).servers[id], e.request.status(id))
    + [Observed(e.request.times.route), Observed(e.request.times.call)]
  }

  /** A booking struck on a server opens its circuit exactly if it was on trial,
      if it is the third failure in a row, or if it makes the failures more than
      60 percent of the outcomes recorded there in the last 60 seconds. */
  lemma StruckBookingOpensExactlyWhen(es: seq<Event>, e: Event, id: string)
    requires id in SERVER_IDS && e.BookSeat?
    requires var before := AfterEvents(Start(), es);
             && WellFormed(before)
             && Answer(before, e.request).TransientFailure? && ServedBy(before, e) == Some(id)
             && T.Timed(WindowOps(UpToFailure(Start(), es, e, id) + [Failed(e.request.times.failure)]))
    ensures var calls, t := UpToFailure(Start(), es, e, id), e.request.times.failure;
            var d := AfterEvents(Start(), es + [e]);
            && id in d.breakers
            && (d.breakers[id].circuit.mode.OPEN? <==>
                  (|| AfterCalls(BREAKER, calls).circuit.mode.HALF_OPEN?
                   || |FailedInARow(BREAKER, calls)| + 1 >= 3
                   || TooMany(calls + [Failed(t)], 60.0, t.rated - 60.0)))
  {
    hide SERVER_IDS, Start, Answer, ServedBy, WellFormed, AfterEvents, CallsAlong, UpToFailure;
    hide AfterCalls, T.Timed, FailedInARow, TooMany, WindowOps, RoutesOnline;
    var before, calls, t := AfterEvents(Start(), es), UpToFailure(Start(), es, e, id), e.request.times.failure;
    StruckCalls(Start(), es, e, id);
    BreakersRunCalls(es + [e], id);
    OpensExactlyWhen(BREAKER, calls, t);
    AnsweredRoutes(before, e.request);
    NotOpenBefore(es, e, id);
  }

  lemma AnsweredRoutes(a: App, r: Request)
    requires !Answer(a, r).NoServer?
    ensures WellFormed(a) && PRIMARY in a.core.stores && RoutesOnline(r.choose)
  {
  }

  lemma StruckCalls(a: App, es: seq<Event>, e: Event, id: string)
    requires id in SERVER_IDS && e.BookSeat? && WellFormed(AfterEvents(a, es))
    requires Answer(AfterEvents(a, es), e.request).TransientFailure? && ServedBy(AfterEvents(a, es), e) == Some(id)
    ensures CallsAlong(a, es + [e], id) == UpToFailure(a, es, e, id) + [Failed(e.request.times.failure)]
  {
    hide SERVER_IDS, Book, AfterEvents, PollCalls, MetricsOf;
    assert (es + [e])[..|es|] == es;
    assert Possible(AfterEvents(a, es), e);
  }

  lemma NotOpenBefore(es: seq<Event>, e: Event, id: string)
    requires id in SERVER_IDS && e.BookSeat? && RoutesOnline(e.request.choose)
    requires WellFormed(AfterEvents(Start(), es)) && ServedBy(AfterEvents(Start(), es), e) == Some(id)
    ensures !AfterCalls(BREAKER, UpToFailure(Start(), es, e, id)).circuit.mode.OPEN?
  {
    hide SERVER_IDS, Start, Inv, AfterEvents, AfterCalls, Poll, PollCalls, RunCalls, ServedBy, RoutesOnline;
    var before, r := AfterEvents(Start(), es), e.request;
    var admitted := [Observed(r.times.route), Observed(r.times.call)];
    StartIsSound();
    RunsAreProtocolRuns(Start(), es);
    BreakersRunCalls(es, id);
    PollMakesCalls(before, r.status, id);
    assert e == BookSeat(r);
    ServerIsReady(before, r, id);
    var calls := CallsAlong(Start(), es, id);
    CallsContinue(calls, PollCalls(before.servers[id], r.status(id)));
    CallsContinue(calls + PollCalls(before.servers[id], r.status(id)), admitted);
    AdmittedTwice(AfterCalls(BREAKER, calls + PollCalls(before.servers[id], r.status(id))), r.times);
  }
}
