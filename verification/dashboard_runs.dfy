/** Every public entry point of the dashboard as a step of its whole state,
    and the proof that its runs are runs of the booking protocol. */
module DashboardRuns {
  import opened Metrics
  import opened Booking
  import opened Breakers
  import F = FailoverManagers
  import L = LeaseManagers
  import opened Cluster
  import opened Replication
  import opened Conservation
  import C = CircuitBreakers
  import R = Retries
  import S = Synchronization

  datatype Event =
    | BookSeat(request: Request)
    | ConfirmSeat(seat: int, now: real)
    | CancelLock(seat: int)
    | RenewLease(seat: int, sweepAt: real, renewAt: real)
    | Snapshot(sweep: real, status: string -> StatusReading, shown: string -> StatusReading)
    | ToggleServer(id: string)
    | SyncDelivered(message: S.Message)
    | ResetAll

  function FreshServers(): map<string, Server> {
    map id | id in SERVER_IDS :: Server(true, 0)
  }

  function FreshBreakers(): map<string, BreakerState> {
    map id | id in SERVER_IDS :: BreakerState(C.FRESH, [])
  }

  /** Every server has sent one heartbeat. */
  function FreshHealth(): map<string, F.Health> {
    map id | id in SERVER_IDS :: F.Report(THRESHOLDS, F.UNKNOWN, true)
  }

  /** A dashboard that has just started. */
  function Start(): App {
    App(FreshCore(0, multiset{}), FreshServers(), FreshBreakers(), FreshHealth(), 0)
  }

  /** A refused request counts as a failure. */
  function Answered(a: App, core: Core, ok: bool): App {
    a.(core := core, failures := if ok then a.failures else a.failures + 1)
  }

  /** The breakers once the snapshot has shown the listed servers' states and rates. */
  function Shown(breakers: map<string, BreakerState>, ids: seq<string>, at: string -> StatusReading):
    map<string, BreakerState>
    requires forall id :: id in ids ==> id in breakers
    ensures Shown(breakers, ids, at).Keys == breakers.Keys
  {
    if ids == [] then breakers
    else
      var id := ids[|ids| - 1];
      var rest := Shown(breakers, ids[..|ids| - 1], at);
      rest[id := RateBreaker(BREAKER, ObserveBreaker(BREAKER, rest[id], at(id).state), at(id).rate)]
  }

  function TakeSnapshot(a: App, sweep: real, status: string -> StatusReading, shown: string -> StatusReading): App
    requires WellFormed(a)
  {
    a.(core := SweepSeats(a.core, sweep),
       breakers := Shown(Poll(a.servers, a.breakers, SERVER_IDS, status), SERVER_IDS, shown))
  }

  /** A server goes down, or comes back and, unless it is the primary, catches up. */
  function Toggle(a: App, id: string): App
    requires WellFormed(a)
  {
    if id !in a.servers then a
    else
      var up := !a.servers[id].online;
      a.(servers := a.servers[id := a.servers[id].(online := up)],
         health := a.health[id := F.Report(THRESHOLDS, F.HealthOf(a.health, id), up)],
         core := if up && id != PRIMARY then Recover(a.core, id) else a.core)
  }

  /** What the callers and the timers may bring about. */
  ghost predicate Possible(a: App, e: Event) {
    match e
    case BookSeat(r) => RoutesOnline(r.choose)
    case SyncDelivered(m) => m in a.core.timers && m.peer in a.core.stores
    case _ => true
  }

  ghost function Next(a: App, e: Event): App
    requires WellFormed(a) && Possible(a, e)
  {
    match e
    case BookSeat(r) => Book(a, r).0
    case ConfirmSeat(seat, now) => var (core, ok) := Confirm(a.core, seat, now); Answered(a, core, ok)
    case CancelLock(seat) => var (core, ok) := Cancel(a.core, seat); Answered(a, core, ok)
    case RenewLease(seat, sweepAt, renewAt) =>
      var (core, ok) := Renew(a.core, seat, sweepAt, renewAt);
      Answered(a, core, ok)
    case Snapshot(sweep, status, shown) => TakeSnapshot(a, sweep, status, shown)
    case ToggleServer(id) => Toggle(a, id)
    case SyncDelivered(m) => a.(core := Deliver(a.core, m))
    case ResetAll => a.(core := Reset(a.core), failures := 0)
  }

  /** The steps of the protocol an event consists of. */
  ghost function Acts(a: App, e: Event): seq<Act>
    requires WellFormed(a) && Possible(a, e)
  {
    match e
    case BookSeat(r) => ActsOf(a, r)
    case ConfirmSeat(seat, now) => [Confirming(seat, now)]
    case CancelLock(seat) => [Cancelling(seat)]
    case RenewLease(seat, sweepAt, renewAt) => [Renewing(seat, sweepAt, renewAt)]
    case Snapshot(sweep, _, _) => [Sweeping(sweep)]
    case ToggleServer(id) =>
      if id in a.servers && !a.servers[id].online && id != PRIMARY then [Recovering(id)] else []
    case SyncDelivered(m) => [Delivering(m)]
    case ResetAll => [Resetting]
  }

  lemma OneAct(c: Core, a: Act)
    ensures After(c, [a]) == Do(c, a)
  {
    assert [a][..0] == [] && After(c, []) == c;
  }

  lemma NoAct(c: Core)
    ensures After(c, []) == c
  {
  }

  lemma EventIsOneAct(a: App, e: Event)
    requires WellFormed(a) && Possible(a, e) && !e.BookSeat?
    ensures Next(a, e).core == After(a.core, Acts(a, e))
  {
    hide SERVER_IDS, After, Lock, Confirm, Cancel, Renew, SweepSeats, Deliver, Recover, Reset, F.Report, Poll, Shown;
    PrimaryIsServer();
    if Acts(a, e) == [] { NoAct(a.core); } else { OneAct(a.core, Acts(a, e)[0]); }
  }

  lemma EventKeepsRows(a: App, e: Event)
    requires WellFormed(a) && Possible(a, e) && !e.BookSeat?
    ensures SameRows(a, Next(a, e))
  {
    hide SERVER_IDS, Confirm, Cancel, Renew, SweepSeats, Deliver, Recover, Reset, F.Report;
    PrimaryIsServer();
  }

  lemma EventIsBooking(a: App, r: Request)
    requires WellFormed(a) && Inv(a.core) && Possible(a, BookSeat(r))
    ensures Next(a, BookSeat(r)).core == After(a.core, Acts(a, BookSeat(r)))
    ensures SameRows(a, Next(a, BookSeat(r)))
  {
    hide Inv, Book, ActsOf, After;
    BookingIsProtocolRun(a, r);
    BookingKeepsRows(a, r);
  }

  lemma EventIsProtocolRun(a: App, e: Event)
    requires WellFormed(a) && Inv(a.core) && Possible(a, e)
    ensures WellFormed(Next(a, e)) && Inv(Next(a, e).core)
    ensures Next(a, e).core == After(a.core, Acts(a, e))
  {
    hide Inv, Next, Acts, After;
    if e.BookSeat? {
      EventIsBooking(a, e.request);
    } else {
      EventIsOneAct(a, e);
      EventKeepsRows(a, e);
    }
    InvAlways(a.core, Acts(a, e));
    StoresOf(Next(a, e).core);
  }

  lemma StoresOf(c: Core)
    requires Inv(c)
    ensures forall id :: id in c.stores <==> id in SERVER_IDS
  {
  }

  ghost predicate SameRows(a: App, b: App) {
    b.servers.Keys == a.servers.Keys && b.breakers.Keys == a.breakers.Keys
  }

  /** No server is switched, and nothing is reported about any. */
  ghost predicate SameSwitches(a: App, b: App) {
    && SameRows(a, b) && b.health == a.health
    && forall id :: id in a.servers ==> b.servers[id].online == a.servers[id].online
  }

  lemma CircuitSafeKeepsRows(a: App, pick: string, ms: seq<ServerMetrics>, t: CallTimes)
    requires WellFormed(a) && pick in SERVER_IDS && forall m :: m in ms ==> m.serverId in SERVER_IDS
    ensures SameSwitches(a, CircuitSafe(a, pick, ms, t).0)
  {
    hide SERVER_IDS, ObserveBreaker, F.Target;
  }

  lemma CallBreakerKeepsRows(a: App, server: string, r: Request)
    requires WellFormed(a) && server in SERVER_IDS && PRIMARY in a.core.stores
    ensures SameSwitches(a, CallBreaker(a, server, r).0)
  {
    hide SERVER_IDS, Lock, FailBreaker, SucceedBreaker, ObserveBreaker;
  }

  lemma BookingKeepsRows(a: App, r: Request)
    requires WellFormed(a) && PRIMARY in a.core.stores && RoutesOnline(r.choose)
    ensures SameSwitches(a, Book(a, r).0)
  {
    hide SERVER_IDS, SweepSeats, MetricsOf, Poll, RoutesOnline, CircuitSafe, CallBreaker;
    var a1 := a.(core := SweepSeats(a.core, r.sweep));
    SweepLeavesStores(a.core, r.sweep);
    var ms := MetricsOf(a1.servers, a1.breakers, SERVER_IDS, r.status);
    var a2 := a1.(breakers := Poll(a1.servers, a1.breakers, SERVER_IDS, r.status));
    if r.choose(ms).Some? {
      PickIsReady(a1.servers, a1.breakers, r.status, r.choose);
      MetricsNameServers(a1.servers, a1.breakers, SERVER_IDS, r.status);
      CircuitSafeKeepsRows(a2, r.choose(ms).value, ms, r.times);
      var (a3, target) := CircuitSafe(a2, r.choose(ms).value, ms, r.times);
      if target.Some? { CallBreakerKeepsRows(a3, target.value, r); }
    }
  }

  // ---------------------------------------------------------------------
  // Whole runs
  // ---------------------------------------------------------------------

  /** An event that is not possible does not happen. */
  ghost function Step(a: App, e: Event): App {
    if WellFormed(a) && Possible(a, e) then Next(a, e) else a
  }

  /** What each step is, for a dashboard with all its rows. */
  lemma BookStep(a: App, r: Request)
    requires WellFormed(a) && PRIMARY in a.core.stores && RoutesOnline(r.choose)
    ensures (Step(a, BookSeat(r)), Answer(a, r)) == Book(a, r)
  {
    hide Book, RoutesOnline;
  }

  lemma AnsweredStep(a: App, e: Event)
    requires WellFormed(a) && PRIMARY in a.core.stores && (e.ConfirmSeat? || e.CancelLock? || e.RenewLease?)
    ensures e.ConfirmSeat? ==>
              (var (core, ok) := Confirm(a.core, e.seat, e.now); Step(a, e) == Answered(a, core, ok))
    ensures e.CancelLock? ==>
              (var (core, ok) := Cancel(a.core, e.seat); Step(a, e) == Answered(a, core, ok))
    ensures e.RenewLease? ==>
              (var (core, ok) := Renew(a.core, e.seat, e.sweepAt, e.renewAt); Step(a, e) == Answered(a, core, ok))
  {
    hide Answered, Confirm, Cancel, Renew;
  }

  lemma SnapshotStep(a: App, sweep: real, status: string -> StatusReading, shown: string -> StatusReading)
    requires WellFormed(a)
    ensures Step(a, Snapshot(sweep, status, shown)) == TakeSnapshot(a, sweep, status, shown)
  {
    hide TakeSnapshot;
  }

  lemma ToggleStep(a: App, id: string)
    requires WellFormed(a)
    ensures Step(a, ToggleServer(id)) == Toggle(a, id)
  {
    hide Toggle;
  }

  lemma DeliverStep(a: App, m: S.Message)
    requires WellFormed(a) && m in a.core.timers && m.peer in a.core.stores
    ensures Step(a, SyncDelivered(m)) == a.(core := Deliver(a.core, m))
  {
    hide Deliver;
  }

  lemma ResetStep(a: App)
    requires WellFormed(a)
    ensures Step(a, ResetAll) == a.(core := Reset(a.core), failures := 0)
  {
    hide Reset;
  }

  ghost function AfterEvents(a: App, es: seq<Event>): App {
    if es == [] then a else Step(AfterEvents(a, es[..|es| - 1]), es[|es| - 1])
  }

  ghost function StepActs(a: App, e: Event): seq<Act> {
    if WellFormed(a) && Possible(a, e) then Acts(a, e) else []
  }

  /** The protocol run behind a run of the dashboard. */
  ghost function ActsAlong(a: App, es: seq<Event>): seq<Act> {
    if es == [] then []
    else ActsAlong(a, es[..|es| - 1]) + StepActs(AfterEvents(a, es[..|es| - 1]), es[|es| - 1])
  }

  lemma {:induction false} AfterBoth(c: Core, xs: seq<Act>, ys: seq<Act>)
    ensures After(c, xs + ys) == After(After(c, xs), ys)
  {
    hide Do;
    if ys == [] {
      assert xs + ys == xs;
    } else {
      AfterBoth(c, xs, ys[..|ys| - 1]);
      assert (xs + ys)[..|xs + ys| - 1] == xs + ys[..|ys| - 1];
    }
  }

  /** Every run of the dashboard, whatever is called in whatever order, is a
      run of the protocol. */
  lemma {:induction false} RunsAreProtocolRuns(a: App, es: seq<Event>)
    requires WellFormed(a) && Inv(a.core)
    ensures WellFormed(AfterEvents(a, es)) && Inv(AfterEvents(a, es).core)
    ensures AfterEvents(a, es).core == After(a.core, ActsAlong(a, es))
  {
    hide Inv, Next, Acts, After, WellFormed;
    if es == [] {
      NoAct(a.core);
    } else {
      var before, e := AfterEvents(a, es[..|es| - 1]), es[|es| - 1];
      RunsAreProtocolRuns(a, es[..|es| - 1]);
      AfterBoth(a.core, ActsAlong(a, es[..|es| - 1]), StepActs(before, e));
      if Possible(before, e) { EventIsProtocolRun(before, e); } else { NoAct(before.core); }
    }
  }

  /** Every reset of the run meets no reservation in flight. */
  ghost predicate SafeResets(a: App, es: seq<Event>) {
    es == [] ||
    (SafeResets(a, es[..|es| - 1]) &&
     (es[|es| - 1].ResetAll? ==>
        forall m :: m in AfterEvents(a, es[..|es| - 1]).core.timers ==> !m.update.mode.Reserved?))
  }

  /** Every reset of the run meets nothing in flight at all. */
  ghost predicate QuietResets(a: App, es: seq<Event>) {
    es == [] ||
    (QuietResets(a, es[..|es| - 1]) &&
     (es[|es| - 1].ResetAll? ==> AfterEvents(a, es[..|es| - 1]).core.timers == multiset{}))
  }

  lemma ActsOfEvent(a: App, e: Event)
    requires WellFormed(a) && Possible(a, e)
    ensures if e.ResetAll? then Next(a, e).core == Reset(a.core) else NoReset(Acts(a, e))
  {
    hide Book, Reset;
  }

  lemma EventKeepsNoPhantom(a: App, e: Event)
    requires WellFormed(a) && Inv(a.core) && Possible(a, e) && NoPhantom(a.core)
    requires e.ResetAll? ==> forall m :: m in a.core.timers ==> !m.update.mode.Reserved?
    ensures NoPhantom(Next(a, e).core)
  {
    hide Inv, NoPhantom, Next, Acts, After, FreshCore;
    ActsOfEvent(a, e);
    EventIsProtocolRun(a, e);
    if e.ResetAll? {
      FreshHasNoPhantom(a.core.leases.nextId, a.core.timers);
    } else {
      NoPhantomAlways(a.core, Acts(a, e));
    }
  }

  lemma EventKeepsSynced(a: App, e: Event)
    requires WellFormed(a) && Inv(a.core) && Possible(a, e) && Synced(a.core)
    requires e.ResetAll? ==> a.core.timers == multiset{}
    ensures Synced(Next(a, e).core)
  {
    hide Inv, Synced, Next, Acts, After, FreshCore;
    ActsOfEvent(a, e);
    EventIsProtocolRun(a, e);
    if e.ResetAll? {
      FreshSynced(a.core.leases.nextId);
    } else {
      SyncedAlways(a.core, Acts(a, e));
    }
  }

  lemma {:induction false} NoPhantomThroughout(a: App, es: seq<Event>)
    requires WellFormed(a) && Inv(a.core) && NoPhantom(a.core) && SafeResets(a, es)
    ensures NoPhantom(AfterEvents(a, es).core)
  {
    hide Inv, NoPhantom, Next, WellFormed, Possible;
    if es != [] {
      var before, e := AfterEvents(a, es[..|es| - 1]), es[|es| - 1];
      NoPhantomThroughout(a, es[..|es| - 1]);
      RunsAreProtocolRuns(a, es[..|es| - 1]);
      if Possible(before, e) { EventKeepsNoPhantom(before, e); }
    }
  }

  lemma {:induction false} SyncedThroughout(a: App, es: seq<Event>)
    requires WellFormed(a) && Inv(a.core) && Synced(a.core) && QuietResets(a, es)
    ensures Synced(AfterEvents(a, es).core)
  {
    hide Inv, Synced, Next, WellFormed, Possible;
    if es != [] {
      var before, e := AfterEvents(a, es[..|es| - 1]), es[|es| - 1];
      SyncedThroughout(a, es[..|es| - 1]);
      RunsAreProtocolRuns(a, es[..|es| - 1]);
      if Possible(before, e) { EventKeepsSynced(before, e); }
    }
  }

  lemma StartIsSound()
    ensures WellFormed(Start()) && Inv(Start().core)
    ensures NoPhantom(Start().core) && Synced(Start().core) && NoPast(Start().core)
  {
    hide Inv, NoPhantom, Synced, NoPast, FreshSeats, FreshStores, F.Report;
    FreshInv(0, multiset{});
    FreshHasNoPast(0);
    FreshHasNoPhantom(0, multiset{});
    FreshSynced(0);
    StoresOf(Start().core);
  }

  /** A toggle changes seats, leases, stores or timers only if it brings a peer back. */
  lemma OnlyComingBackCatchesUp(a: App, id: string)
    requires WellFormed(a) && Toggle(a, id).core != a.core
    ensures IsPeer(id) && !a.servers[id].online
  {
    hide Recover, F.Report;
  }

  lemma {:induction false} NoResetAlong(a: App, es: seq<Event>)
    requires forall e :: e in es ==> !e.ResetAll?
    ensures NoReset(ActsAlong(a, es))
  {
    hide Acts, WellFormed, Possible, Next;
    if es != [] {
      var before, e := AfterEvents(a, es[..|es| - 1]), es[|es| - 1];
      NoResetAlong(a, es[..|es| - 1]);
      assert e in es;
      if WellFormed(before) && Possible(before, e) { ActsOfEvent(before, e); }
    }
  }

  lemma ComingBackRecovers(a: App, id: string)
    requires WellFormed(a) && IsPeer(id) && !a.servers[id].online
    ensures PRIMARY in a.core.stores && Toggle(a, id).core == Recover(a.core, id)
    ensures Next(a, ToggleServer(id)) == Toggle(a, id)
  {
    hide SERVER_IDS, F.Report, S.CatchUp;
    PrimaryIsServer();
  }

  /** A peer that is switched on again shows what the primary shows, at once,
      and what was in flight to it then changes nothing whenever it arrives. */
  lemma ComingBackCatchesUp(a: App, id: string, es: seq<Event>, m: S.Message)
    requires WellFormed(a) && Inv(a.core) && Synced(a.core)
    requires IsPeer(id) && !a.servers[id].online && forall e :: e in es ==> !e.ResetAll?
    ensures var d := Toggle(a, id).core;
            id in d.stores && PRIMARY in d.stores && Primary(d) == Primary(a.core) == d.stores[id].seats
    ensures m in a.core.timers && m.peer == id ==>
              var d := AfterEvents(Toggle(a, id), es).core;
              id in d.stores && S.Apply(d.stores[id], m.update) == d.stores[id]
  {
    hide Inv, Synced, Toggle, Next, Recover, S.Apply, After, AfterEvents, ActsAlong;
    ComingBackRecovers(a, id);
    var b := Toggle(a, id);
    EventIsProtocolRun(a, ToggleServer(id));
    RunsAreProtocolRuns(b, es);
    NoResetAlong(b, es);
    RecoveryCatchesUp(a.core, id, ActsAlong(b, es), m);
  }

  // ---------------------------------------------------------------------
  // What replicas show was once the primary's
  // ---------------------------------------------------------------------

  lemma SweepShowsTheSame(c: Core, now: real, u: S.SeatState)
    ensures Circulates(SweepSeats(c, now), u) <==> Circulates(c, u)
  {
    hide L.Expired, L.Sweep;
  }

  lemma BookingShowsItsUpdate(a: App, r: Request, u: S.SeatState)
    requires WellFormed(a) && Inv(a.core) && RoutesOnline(r.choose) && Circulates(Next(a, BookSeat(r)).core, u)
    ensures Circulates(a.core, u) || Holds(Next(a, BookSeat(r)).core, u)
  {
    hide Inv, Circulates, Holds, Book, Lock, SweepSeats, RoutesOnline, WellFormed;
    BookingIsProtocolRun(a, r);
    var sweep := Sweeping(r.sweep);
    OneAct(a.core, sweep);
    SweepKeepsInv(a.core, r.sweep);
    SweepShowsTheSame(a.core, r.sweep, u);
    var acts := ActsOf(a, r);
    if |acts| == 2 {
      assert acts[..1] == [sweep];
      NothingElseNew(SweepSeats(a.core, r.sweep), acts[1], u);
    }
  }

  lemma EventShowsItsUpdate(a: App, e: Event, u: S.SeatState)
    requires WellFormed(a) && Inv(a.core) && Possible(a, e) && Circulates(Next(a, e).core, u)
    ensures Circulates(a.core, u) || Holds(Next(a, e).core, u)
  {
    hide Inv, Circulates, Holds, Do, Next, After, WellFormed, Acts;
    if e.BookSeat? {
      BookingShowsItsUpdate(a, e.request, u);
    } else {
      EventIsOneAct(a, e);
      AtMostOneAct(a, e);
      if Acts(a, e) == [] {
        NoAct(a.core);
      } else {
        OneAct(a.core, Acts(a, e)[0]);
        NothingElseNew(a.core, Acts(a, e)[0], u);
      }
    }
  }

  lemma AtMostOneAct(a: App, e: Event)
    requires WellFormed(a) && Possible(a, e) && !e.BookSeat?
    ensures Acts(a, e) == [] || Acts(a, e) == [Acts(a, e)[0]]
  {
  }

  /** At some point of the run the primary's row of that seat was `u`. */
  ghost predicate WasHeld(a: App, es: seq<Event>, u: S.SeatState) {
    exists n: nat :: n <= |es| && Holds(AfterEvents(a, es[..n]).core, u)
  }

  /** In every run of the dashboard: a replica or a timer has nothing of a seat
      that the primary did not have at some point of the run. */
  lemma {:induction false} ReplicasShowHistory(a: App, es: seq<Event>, u: S.SeatState)
    requires WellFormed(a) && Inv(a.core) && NoPast(a.core) && Circulates(AfterEvents(a, es).core, u)
    ensures WasHeld(a, es, u)
  {
    hide Inv, Circulates, Holds, WellFormed, Possible, Next;
    if es == [] {
      assert Holds(AfterEvents(a, es[..0]).core, u);
    } else {
      var init, e := es[..|es| - 1], es[|es| - 1];
      var before := AfterEvents(a, init);
      RunsAreProtocolRuns(a, init);
      if Circulates(before.core, u) {
        ReplicasShowHistory(a, init, u);
        var n: nat :| n <= |init| && Holds(AfterEvents(a, init[..n]).core, u);
        assert init[..n] == es[..n];
      } else {
        EventShowsItsUpdate(before, e, u);
        assert es[..|es|] == es;
      }
    }
  }

  /** From a fresh start, in every run: leases, seats and primary agree and the
      bookings add up; replicas and timers have only what the primary once had;
      as long as every reset meets no reservation in flight, no replica shows a
      reservation the seat table lacks; and as long as every reset meets
      nothing in flight, every replica lags by what is. */
  lemma WholeSystem(es: seq<Event>)
    ensures var d := AfterEvents(Start(), es).core;
            && Inv(d)
            && Balanced(d, TallyOf(Start().core, ActsAlong(Start(), es)))
            && (forall u :: Circulates(d, u) ==> WasHeld(Start(), es, u))
            && (SafeResets(Start(), es) ==> NoPhantom(d))
            && (QuietResets(Start(), es) ==> Synced(d))
  {
    hide Inv, NoPhantom, Synced, Balanced, After, TallyOf, ActsAlong, WellFormed, SafeResets, QuietResets, NoPast;
    hide Circulates, WasHeld;
    StartIsSound();
    RunsAreProtocolRuns(Start(), es);
    BookingsAccountedFor(0, ActsAlong(Start(), es));
    forall u | Circulates(AfterEvents(Start(), es).core, u)
      ensures WasHeld(Start(), es, u)
    {
      ReplicasShowHistory(Start(), es, u);
    }
    if SafeResets(Start(), es) { NoPhantomThroughout(Start(), es); }
    if QuietResets(Start(), es) { SyncedThroughout(Start(), es); }
  }

  // ---------------------------------------------------------------------
  // Booking with retries, among everything else that goes on
  // ---------------------------------------------------------------------

  /** The state before attempt k: the lock is free between attempts, so any
      events `others(k)` may come before it. */
  ghost function StateAt(a: App, others: nat -> seq<Event>, requests: nat -> Request, k: nat): App {
    if k == 0 then AfterEvents(a, others(0))
    else AfterEvents(Step(StateAt(a, others, requests, k - 1), BookSeat(requests(k - 1))), others(k))
  }

  ghost function Answer(a: App, r: Request): BookResult {
    if WellFormed(a) && PRIMARY in a.core.stores && RoutesOnline(r.choose) then Book(a, r).1 else NoServer
  }

  lemma {:induction false} StateAtIsSound(a: App, others: nat -> seq<Event>, requests: nat -> Request, k: nat)
    requires WellFormed(a) && Inv(a.core)
    ensures WellFormed(StateAt(a, others, requests, k)) && Inv(StateAt(a, others, requests, k).core)
  {
    hide Inv, WellFormed, Next, AfterEvents;
    if k == 0 {
      RunsAreProtocolRuns(a, others(0));
    } else {
      var before, e := StateAt(a, others, requests, k - 1), BookSeat(requests(k - 1));
      StateAtIsSound(a, others, requests, k - 1);
      if Possible(before, e) { EventIsProtocolRun(before, e); }
      RunsAreProtocolRuns(Step(before, e), others(k));
    }
  }

  /** What the retry manager makes of an answer. */
  function OutcomeOf(r: BookResult): R.Outcome {
    if r.Granted? then R.Returned else if Retryable(r) then R.Retryable else R.Fatal
  }

  /** An attempt that will be tried again was struck by the injected failure:
      it has swept, polled the breakers and recorded a failure on the picked
      one, and leased nothing. */
  lemma RetriedMeansStruck(a: App, r: Request)
    requires WellFormed(a) && Inv(a.core) && RoutesOnline(r.choose) && Retryable(Answer(a, r))
    ensures Answer(a, r) == TransientFailure && r.flaky
    ensures Step(a, BookSeat(r)) == Struck(a, r)
  {
    hide Inv, WellFormed, Book, Struck, SweepSeats, MetricsOf, Lock;
    BookingNeverShortCircuits(a, r);
    StruckBooking(a, r);
  }

  datatype Final = Booked(server: string) | NotRetryable(why: BookResult) | RetryFailed

  /** `answers(k)` is what attempt k got in the state it found. At most three
      attempts are made; all but the last were struck by the injected failure
      and leased nothing, so the seat is leased at most once, by the last; it
      gives up only when the third is struck too; the sleeps are a quarter and
      half a second, give or take a fifth, and add up to 0.9 s at most. */
  method BookWithRetry(answers: nat -> BookResult, draws: nat -> real,
                       ghost a: App, ghost others: nat -> seq<Event>, ghost requests: nat -> Request)
    returns (final: Final, calls: nat, slept: seq<real>)
    requires WellFormed(a) && Inv(a.core)
    requires forall k: nat :: RoutesOnline(requests(k).choose)
    requires forall k: nat :: answers(k) == Answer(StateAt(a, others, requests, k), requests(k))
    requires forall k: nat :: 0.0 <= draws(k) <= 1.0
    ensures 1 <= calls <= 3
    ensures forall k: nat :: k < calls - 1 ==>
              && answers(k) == TransientFailure && requests(k).flaky
              && var before := StateAt(a, others, requests, k);
                 WellFormed(before) && Step(before, BookSeat(requests(k))) == Struck(before, requests(k))
    ensures final.Booked? <==> answers(calls - 1).Granted?
    ensures final.Booked? ==> answers(calls - 1) == Granted(final.server)
    ensures final.NotRetryable? ==> answers(calls - 1) == final.why
    ensures final.RetryFailed? <==> answers(calls - 1) == TransientFailure
    ensures final.RetryFailed? ==> calls == 3
    ensures |slept| == calls - 1 && 0.0 <= R.Total(slept) <= 0.9
    ensures |slept| >= 1 ==> 0.2 <= slept[0] <= 0.3
    ensures |slept| == 2 ==> 0.4 <= slept[1] <= 0.6
  {
    hide Inv, WellFormed, StateAt, Step, Struck, RoutesOnline, Answer, R.ComputeDelay, R.Total;
    var manager := new R.RetryManager(3, 0.25, 2.0, 1.0, true);
    var verdict;
    var outcomes := (k: nat) => OutcomeOf(answers(k));
    verdict, calls, slept := manager.Call(outcomes, draws);
    R.SleepNeverRefused(manager.policy, 3, outcomes, draws, verdict, calls, slept);
    forall k: nat | outcomes(k).Retryable?
      ensures answers(k) == TransientFailure && requests(k).flaky
      ensures var before := StateAt(a, others, requests, k);
              WellFormed(before) && Step(before, BookSeat(requests(k))) == Struck(before, requests(k))
    {
      StateAtIsSound(a, others, requests, k);
      RetriedMeansStruck(StateAt(a, others, requests, k), requests(k));
    }
    var last := answers(calls - 1);
    final := match verdict
      case Succeeded => if last.Granted? then Booked(last.server) else RetryFailed
      case Propagated => NotRetryable(last)
      case _ => RetryFailed;
    R.SleepWithinSeries(manager.policy, slept, draws);
    R.SleepWithinCap(manager.policy, slept, draws);
    SeriesOfTwo(|slept|);
    if |slept| >= 1 { BackoffOfTwo(1, draws(0)); }
    if |slept| == 2 { BackoffOfTwo(2, draws(1)); }
  }

  lemma BackoffOfTwo(attempt: nat, draw: real)
    requires 1 <= attempt <= 2 && 0.0 <= draw <= 1.0
    ensures var d := R.ComputeDelay(R.Policy(0.25, 2.0, 1.0, true), attempt, draw);
            var plain := if attempt == 1 then 0.25 else 0.5;
            0.8 * plain <= d <= 1.2 * plain
  {
    assert R.Power(2.0, 0) == 1.0 && R.Power(2.0, 1) == 2.0;
    R.DelayBounds(R.Policy(0.25, 2.0, 1.0, true), attempt, draw);
  }

  lemma SeriesOfTwo(n: nat)
    requires n <= 2
    ensures 1.2 * (0.25 * R.Power(2.0, n) - 0.25) <= 0.9
  {
    assert R.Power(2.0, 1) == 2.0 && R.Power(2.0, 2) == 4.0;
  }
}
