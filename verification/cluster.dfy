/** The dashboard's whole state, and how one booking request runs through
    metrics, strategy, circuit breakers, failover and the reservation. */
module Cluster {
  import opened Metrics
  import opened Booking
  import B = Booking
  import opened Breakers
  import opened FailoverManagers
  import C = CircuitBreakers
  import T = FailureTrackers

  const BREAKER := Settings(C.Config(3, 8.0, 1), 60.0, 60.0)
  const THRESHOLDS := Thresholds(2, 2)

  datatype Server = Server(online: bool, requests: nat)

  datatype App = App(
    core: Core,
    servers: map<string, Server>,
    breakers: map<string, BreakerState>,
    health: map<string, Health>,
    failures: nat)

  /** Every server has its row, its breaker and its store. */
  ghost predicate WellFormed(a: App) {
    && (forall id :: id in a.servers <==> id in SERVER_IDS)
    && (forall id :: id in a.breakers <==> id in SERVER_IDS)
    && (forall id :: id in a.core.stores <==> id in SERVER_IDS)
  }

  // ---------------------------------------------------------------------
  // Metrics and routing
  // ---------------------------------------------------------------------

  /** Clock readings of one server's turn in the metrics: for its state, then its failure rate. */
  datatype StatusReading = StatusReading(state: real, rate: real)

  /** The state of an offline server's breaker is not looked at. */
  function Seen(s: Server, b: BreakerState, r: StatusReading): BreakerState {
    if s.online then ObserveBreaker(BREAKER, b, r.state) else b
  }

  function StatusOf(s: Server, b: BreakerState, r: StatusReading): Status {
    if s.online && !Seen(s, b, r).circuit.mode.OPEN? then Online else Offline
  }

  function PolledBreaker(s: Server, b: BreakerState, r: StatusReading): BreakerState {
    RateBreaker(BREAKER, Seen(s, b, r), r.rate)
  }

  /** The breakers once the listed servers have had their turn. */
  function Poll(servers: map<string, Server>, breakers: map<string, BreakerState>, ids: seq<string>,
                at: string -> StatusReading): map<string, BreakerState>
    requires forall id :: id in ids ==> id in servers && id in breakers
    ensures Poll(servers, breakers, ids, at).Keys == breakers.Keys
  {
    if ids == [] then breakers
    else
      var id := ids[|ids| - 1];
      var rest := Poll(servers, breakers, ids[..|ids| - 1], at);
      rest[id := PolledBreaker(servers[id], rest[id], at(id))]
  }

  function MetricsOf(servers: map<string, Server>, breakers: map<string, BreakerState>, ids: seq<string>,
                     at: string -> StatusReading): seq<ServerMetrics>
    requires forall id :: id in ids ==> id in servers && id in breakers
  {
    if ids == [] then []
    else
      var id := ids[|ids| - 1];
      var before := Poll(servers, breakers, ids[..|ids| - 1], at);
      MetricsOf(servers, breakers, ids[..|ids| - 1], at)
      + [ServerMetrics(id, StatusOf(servers[id], before[id], at(id)))]
  }

  /** A server listed as online is up, and its breaker is not OPEN after the poll. */
  lemma {:induction false} OnlineMeansReady(servers: map<string, Server>, breakers: map<string, BreakerState>,
                                            ids: seq<string>, at: string -> StatusReading, id: string)
    requires Distinct(ids) && forall k :: k in ids ==> k in servers && k in breakers
    ensures id !in ids ==> !IsOnline(MetricsOf(servers, breakers, ids, at), id)
    ensures id !in ids && id in breakers ==> Poll(servers, breakers, ids, at)[id] == breakers[id]
    ensures id in ids ==>
              (IsOnline(MetricsOf(servers, breakers, ids, at), id) <==>
                 servers[id].online && !Poll(servers, breakers, ids, at)[id].circuit.mode.OPEN?)
  {
    if ids != [] {
      var init, last := ids[..|ids| - 1], ids[|ids| - 1];
      assert ids == init + [last];
      OnlineMeansReady(servers, breakers, init, at, id);
      OnlineMeansReady(servers, breakers, init, at, last);
      var ms := MetricsOf(servers, breakers, init, at);
      var m := ServerMetrics(last, StatusOf(servers[last], Poll(servers, breakers, init, at)[last], at(last)));
      assert MetricsOf(servers, breakers, ids, at) == ms + [m];
    }
  }

  /** The poll gives each listed server its turn once, from the state it is in. */
  lemma {:induction false} PolledOnce(servers: map<string, Server>, breakers: map<string, BreakerState>,
                                      ids: seq<string>, at: string -> StatusReading, id: string)
    requires Distinct(ids) && forall k :: k in ids ==> k in servers && k in breakers
    ensures id in breakers ==>
              Poll(servers, breakers, ids, at)[id]
              == if id in ids then PolledBreaker(servers[id], breakers[id], at(id)) else breakers[id]
  {
    hide PolledBreaker;
    if ids != [] {
      var init, last := ids[..|ids| - 1], ids[|ids| - 1];
      assert ids == init + [last];
      PolledOnce(servers, breakers, init, at, id);
      PolledOnce(servers, breakers, init, at, last);
    }
  }

  /** A breaker lets a request through unless it is OPEN and less than 8 seconds
      have passed since the latest failure. */
  predicate Admits(b: BreakerState, now: real) {
    !b.circuit.mode.OPEN? || now - b.circuit.lastFailure >= 8.0
  }

  /** A server takes requests if it is switched on and its circuit is not OPEN,
      or has been for 8 seconds since the latest failure. */
  predicate TakesRequests(s: Server, b: BreakerState, now: real) {
    s.online && Admits(b, now)
  }

  lemma StatusIsReadiness(s: Server, b: BreakerState, r: StatusReading)
    ensures StatusOf(s, b, r) == if TakesRequests(s, b, r.state) then Online else Offline
  {
  }

  /** The metrics list every server once, in the given order, as online exactly
      if it takes requests at its own reading of the clock. */
  lemma {:induction false} MetricsInOrder(servers: map<string, Server>, breakers: map<string, BreakerState>,
                                          ids: seq<string>, at: string -> StatusReading)
    requires Distinct(ids) && forall k :: k in ids ==> k in servers && k in breakers
    ensures |MetricsOf(servers, breakers, ids, at)| == |ids|
    ensures forall i :: 0 <= i < |ids| ==>
              var status := if TakesRequests(servers[ids[i]], breakers[ids[i]], at(ids[i]).state)
                            then Online else Offline;
              MetricsOf(servers, breakers, ids, at)[i] == ServerMetrics(ids[i], status)
  {
    hide StatusOf, TakesRequests, Poll;
    if ids != [] {
      var init, last := ids[..|ids| - 1], ids[|ids| - 1];
      MetricsInOrder(servers, breakers, init, at);
      PolledOnce(servers, breakers, init, at, last);
      StatusIsReadiness(servers[last], breakers[last], at(last));
      assert last !in init;
    }
  }

  /** What the poll does to a breaker: an OPEN circuit of a server that is switched
      on goes to HALF_OPEN if 8 seconds have passed since the latest failure,
      every other circuit stays as it is, and outcomes older than 60 seconds
      are dropped from the front of the window. */
  lemma PollLooks(servers: map<string, Server>, breakers: map<string, BreakerState>, at: string -> StatusReading,
                  id: string)
    requires id in SERVER_IDS && forall k :: k in SERVER_IDS ==> k in servers && k in breakers
    ensures var b, d := breakers[id], Poll(servers, breakers, SERVER_IDS, at)[id];
            var moves := servers[id].online && b.circuit.mode.OPEN?
                         && at(id).state - b.circuit.lastFailure >= 8.0;
            && d.circuit.mode == (if moves then C.HALF_OPEN else b.circuit.mode)
            && (!moves ==> d.circuit == b.circuit)
            && T.DropsOld(b.events, d.events, at(id).rate - 60.0)
  {
    hide SERVER_IDS, Poll;
    ServersDistinct();
    PolledOnce(servers, breakers, SERVER_IDS, at, id);
    T.PruneDropsOld(breakers[id].events, at(id).rate - 60.0);
  }

  lemma ServersDistinct()
    ensures Distinct(SERVER_IDS)
  {
    assert SERVER_IDS[0][7] != SERVER_IDS[1][7] && SERVER_IDS[0][7] != SERVER_IDS[2][7]
        && SERVER_IDS[1][7] != SERVER_IDS[2][7];
  }

  /** What a strategy picks is a known server that is up and whose breaker is not OPEN. */
  lemma PickIsReady(servers: map<string, Server>, breakers: map<string, BreakerState>, at: string -> StatusReading,
                    choose: seq<ServerMetrics> -> Option<string>)
    requires forall k :: k in SERVER_IDS ==> k in servers && k in breakers
    requires RoutesOnline(choose) && choose(MetricsOf(servers, breakers, SERVER_IDS, at)).Some?
    ensures var id := choose(MetricsOf(servers, breakers, SERVER_IDS, at)).value;
            && id in SERVER_IDS && servers[id].online
            && id in Poll(servers, breakers, SERVER_IDS, at)
            && !Poll(servers, breakers, SERVER_IDS, at)[id].circuit.mode.OPEN?
  {
    hide MetricsOf, Poll;
    ServersDistinct();
    OnlineMeansReady(servers, breakers, SERVER_IDS, at, choose(MetricsOf(servers, breakers, SERVER_IDS, at)).value);
  }

  lemma {:induction false} MetricsNameServers(servers: map<string, Server>, breakers: map<string, BreakerState>,
                                              ids: seq<string>, at: string -> StatusReading)
    requires forall id :: id in ids ==> id in servers && id in breakers
    ensures forall m :: m in MetricsOf(servers, breakers, ids, at) ==> m.serverId in ids
  {
    if ids != [] { MetricsNameServers(servers, breakers, ids[..|ids| - 1], at); }
  }

  /** The clock readings of a booking after the metrics. */
  datatype CallTimes = CallTimes(
    route: real, redirect: real, call: real,
    offline: FailureTimes, acquireSweep: real, grant: real,
    failure: FailureTimes, success: real, report: real)

  /** A booking request and everything the environment decides for it: the
      clock, the strategy's choice and whether the injected failure strikes. */
  datatype Request = Request(
    seat: int, requester: string,
    sweep: real, status: string -> StatusReading,
    choose: seq<ServerMetrics> -> Option<string>,
    flaky: bool, times: CallTimes)

  datatype BookResult =
    | Granted(server: string)
    | NoSuchSeat | AlreadyReserved | CurrentlyLeased | NoServer | CircuitOpen | LeaseConflict
    | ServerOffline | TransientFailure

  /** The results RetryManager tries again. */
  predicate Retryable(r: BookResult) {
    r.ServerOffline? || r.TransientFailure?
  }

  /** The chosen server if its breaker lets it through, else the failover target. */
  function CircuitSafe(a: App, pick: string, ms: seq<ServerMetrics>, t: CallTimes): (App, Option<string>)
    requires WellFormed(a) && pick in SERVER_IDS && forall m :: m in ms ==> m.serverId in SERVER_IDS
    ensures WellFormed(CircuitSafe(a, pick, ms, t).0)
    ensures CircuitSafe(a, pick, ms, t).1.Some? ==> CircuitSafe(a, pick, ms, t).1.value in SERVER_IDS
    ensures CircuitSafe(a, pick, ms, t).0.core == a.core
  {
    var b := ObserveBreaker(BREAKER, a.breakers[pick], t.route);
    var a1 := a.(breakers := a.breakers[pick := b]);
    if !b.circuit.mode.OPEN? then (a1, Some(pick))
    else
      var target := Target(a.health, ms);
      TargetIsFirstUsable(a.health, ms);
      if target.None? || target.value == pick then (a1, None)
      else
        var other := ObserveBreaker(BREAKER, a1.breakers[target.value], t.redirect);
        (a1.(breakers := a1.breakers[target.value := other]),
         if other.circuit.mode.OPEN? then None else target)
  }

  function Reserve(a: App, server: string, r: Request): (App, BookResult)
    requires WellFormed(a) && server in SERVER_IDS && PRIMARY in a.core.stores
  {
    if !a.servers[server].online then
      (a.(breakers := a.breakers[server := FailBreaker(BREAKER, a.breakers[server], r.times.offline)]), ServerOffline)
    else if r.flaky then (a, TransientFailure)
    else
      var (core, lease) := Lock(a.core, r.seat, r.requester, server, r.times.acquireSweep, r.times.grant);
      (a.(core := core), if lease.Some? then Granted(server) else LeaseConflict)
  }

  /** The reservation under the server's breaker, which records how it went. */
  function CallBreaker(a: App, server: string, r: Request): (App, BookResult)
    requires WellFormed(a) && server in SERVER_IDS && PRIMARY in a.core.stores
  {
    var b := ObserveBreaker(BREAKER, a.breakers[server], r.times.call);
    var a1 := a.(breakers := a.breakers[server := b]);
    if b.circuit.mode.OPEN? then (a1, CircuitOpen)
    else
      var (a2, result) := Reserve(a1, server, r);
      if result.Granted? then
        var succeeded := SucceedBreaker(BREAKER, a2.breakers[server], r.times.success);
        var done := ObserveBreaker(BREAKER, succeeded, r.times.report);
        (a2.(breakers := a2.breakers[server := done],
             servers := a2.servers[server := a2.servers[server].(requests := a2.servers[server].requests + 1)]), result)
      else
        (a2.(breakers := a2.breakers[server := FailBreaker(BREAKER, a2.breakers[server], r.times.failure)]), result)
  }

  function Book(a: App, r: Request): (App, BookResult)
    requires WellFormed(a) && PRIMARY in a.core.stores && RoutesOnline(r.choose)
  {
    var a1 := a.(core := SweepSeats(a.core, r.sweep));
    if r.seat !in a1.core.seats then (a1, NoSuchSeat)
    else if a1.core.seats[r.seat].mode.Reserved? then (a1, AlreadyReserved)
    else if a1.core.seats[r.seat].mode.Locked? then (a1, CurrentlyLeased)
    else
      var ms := MetricsOf(a1.servers, a1.breakers, SERVER_IDS, r.status);
      var a2 := a1.(breakers := Poll(a1.servers, a1.breakers, SERVER_IDS, r.status));
      var pick := r.choose(ms);
      if pick.None? then (a2, NoServer)
      else
        PickIsReady(a1.servers, a1.breakers, r.status, r.choose);
        MetricsNameServers(a1.servers, a1.breakers, SERVER_IDS, r.status);
        var (a3, target) := CircuitSafe(a2, pick.value, ms, r.times);
        if target.None? then (a3, CircuitOpen) else CallBreaker(a3, target.value, r)
  }

  // ---------------------------------------------------------------------
  // Routing never short-circuits
  // ---------------------------------------------------------------------

  /** The picked server if its breaker admits; else the first usable server of the
      list, if that is another one whose breaker admits; else none. */
  lemma RedirectsExactlyWhen(a: App, pick: string, ms: seq<ServerMetrics>, t: CallTimes)
    requires WellFormed(a) && pick in SERVER_IDS && forall m :: m in ms ==> m.serverId in SERVER_IDS
    ensures var safe, target := CircuitSafe(a, pick, ms, t).1, Target(a.health, ms);
            && (Admits(a.breakers[pick], t.route) ==> safe == Some(pick))
            && (!Admits(a.breakers[pick], t.route) ==>
                  && (safe.Some? <==> target.Some? && target.value in SERVER_IDS && target.value != pick
                                      && Admits(a.breakers[target.value], t.redirect))
                  && (safe.Some? ==> safe == target))
  {
    hide SERVER_IDS, Target;
    TargetIsFirstUsable(a.health, ms);
  }

  /** The breaker of a server that served a booking, once its state is reported. */
  function SucceedThenLook(b: BreakerState, t: CallTimes): BreakerState {
    ObserveBreaker(BREAKER, SucceedBreaker(BREAKER, b, t.success), t.report)
  }

  /** A ready server's breaker lets the request through twice over: no
      redirect, no short circuit. */
  lemma ReadyGoesThrough(a: App, server: string, ms: seq<ServerMetrics>, r: Request)
    requires WellFormed(a) && Inv(a.core) && server in SERVER_IDS && forall m :: m in ms ==> m.serverId in SERVER_IDS
    requires a.servers[server].online && !a.breakers[server].circuit.mode.OPEN?
    requires r.seat in a.core.seats && a.core.seats[r.seat].mode.Available?
    ensures PRIMARY in a.core.stores
    ensures CircuitSafe(a, server, ms, r.times) == (a, Some(server))
    ensures CallBreaker(a, server, r).1 == if r.flaky then TransientFailure else Granted(server)
    ensures CallBreaker(a, server, r).0.core
         == if r.flaky then a.core
            else Lock(a.core, r.seat, r.requester, server, r.times.acquireSweep, r.times.grant).0
    ensures r.flaky ==>
              CallBreaker(a, server, r).0
              == a.(breakers := a.breakers[server := FailBreaker(BREAKER, a.breakers[server], r.times.failure)])
    ensures !r.flaky ==>
              CallBreaker(a, server, r).0
              == a.(core := Lock(a.core, r.seat, r.requester, server, r.times.acquireSweep, r.times.grant).0,
                    breakers := a.breakers[server := SucceedThenLook(a.breakers[server], r.times)],
                    servers := a.servers[server := a.servers[server].(requests := a.servers[server].requests + 1)])
  {
    hide SERVER_IDS, Lock, FailBreaker, SucceedBreaker, Inv;
    assert PRIMARY in a.core.stores by { InvHasPrimary(a.core); }
    assert a.breakers[server := a.breakers[server]] == a.breakers;
    if !r.flaky {
      LockKeepsInv(a.core, r.seat, r.requester, server, r.times.acquireSweep, r.times.grant);
    }
  }

  /** What a booking comes to, decided by the seat, the strategy's choice and
      the injected failure alone: the breaker never cuts it short, it is never
      redirected, the lease never conflicts and the server is never offline. */
  function Expected(a: App, r: Request): BookResult
    requires WellFormed(a)
  {
    var seats := SweepSeats(a.core, r.sweep).seats;
    if r.seat !in seats then NoSuchSeat
    else if seats[r.seat].mode.Reserved? then AlreadyReserved
    else if seats[r.seat].mode.Locked? then CurrentlyLeased
    else
      match r.choose(MetricsOf(a.servers, a.breakers, SERVER_IDS, r.status))
      case None => NoServer
      case Some(id) => if r.flaky then TransientFailure else Granted(id)
  }

  /** The state an attempt struck by the injected failure leaves: swept, every
      breaker polled, and a failure recorded on the breaker of the picked server. */
  function Struck(a: App, r: Request): App
    requires WellFormed(a)
  {
    var polled := Poll(a.servers, a.breakers, SERVER_IDS, r.status);
    var pick := r.choose(MetricsOf(a.servers, a.breakers, SERVER_IDS, r.status));
    a.(core := SweepSeats(a.core, r.sweep),
       breakers := if pick.Some? && pick.value in polled
                   then polled[pick.value := FailBreaker(BREAKER, polled[pick.value], r.times.failure)]
                   else polled)
  }

  /** What a granted booking leaves: the seat locked, every breaker polled, and on
      the server that served it one request more and a success on its breaker. */
  function Served(a: App, r: Request, server: string): App
    requires WellFormed(a) && PRIMARY in a.core.stores && server in SERVER_IDS
  {
    var polled := Poll(a.servers, a.breakers, SERVER_IDS, r.status);
    var swept := SweepSeats(a.core, r.sweep);
    a.(core := Lock(swept, r.seat, r.requester, server, r.times.acquireSweep, r.times.grant).0,
       breakers := polled[server := SucceedThenLook(polled[server], r.times)],
       servers := a.servers[server := a.servers[server].(requests := a.servers[server].requests + 1)])
  }

  /** The whole state after one booking attempt, whatever it comes to. */
  lemma BookingLeaves(a: App, r: Request)
    requires WellFormed(a) && Inv(a.core) && RoutesOnline(r.choose)
    ensures PRIMARY in a.core.stores
    ensures var (d, answer) := Book(a, r);
            var swept := a.(core := SweepSeats(a.core, r.sweep));
            && answer == Expected(a, r)
            && !answer.CircuitOpen? && !answer.LeaseConflict? && !answer.ServerOffline?
            && (answer.Granted? ==> answer.server in SERVER_IDS && d == Served(a, r, answer.server))
            && (answer.TransientFailure? ==> d == Struck(a, r) && r.flaky)
            && (answer.NoServer? ==> d == swept.(breakers := Poll(a.servers, a.breakers, SERVER_IDS, r.status)))
            && (answer.NoSuchSeat? || answer.AlreadyReserved? || answer.CurrentlyLeased? ==> d == swept)
  {
    hide SERVER_IDS, Inv, SweepSeats, CircuitSafe, CallBreaker, MetricsOf, Poll, Lock, RoutesOnline;
    hide FailBreaker, SucceedThenLook;
    InvHasPrimary(a.core);
    var swept := SweepSeats(a.core, r.sweep);
    SweepKeepsInv(a.core, r.sweep);
    assert swept.stores == a.core.stores by { SweepLeavesStores(a.core, r.sweep); }
    if r.seat in swept.seats && !swept.seats[r.seat].mode.Reserved? && !swept.seats[r.seat].mode.Locked? {
      assert swept.seats[r.seat].mode.Available? by { NeverFailed(swept, r.seat); }
      var ms := MetricsOf(a.servers, a.breakers, SERVER_IDS, r.status);
      if r.choose(ms).Some? {
        PickIsReady(a.servers, a.breakers, r.status, r.choose);
        MetricsNameServers(a.servers, a.breakers, SERVER_IDS, r.status);
        var a2 := a.(core := swept, breakers := Poll(a.servers, a.breakers, SERVER_IDS, r.status));
        ReadyGoesThrough(a2, r.choose(ms).value, ms, r);
      }
    }
  }

  lemma BookingNeverShortCircuits(a: App, r: Request)
    requires WellFormed(a) && Inv(a.core) && RoutesOnline(r.choose)
    ensures PRIMARY in a.core.stores
    ensures Book(a, r).1 == Expected(a, r)
    ensures Book(a, r).0.core
         == (var swept := SweepSeats(a.core, r.sweep);
             if Expected(a, r).Granted?
             then Lock(swept, r.seat, r.requester, Expected(a, r).server, r.times.acquireSweep, r.times.grant).0
             else swept)
  {
    hide SERVER_IDS, Inv, Book, Expected, SweepSeats, Poll, Lock, MetricsOf, RoutesOnline;
    BookingLeaves(a, r);
  }

  lemma StruckBooking(a: App, r: Request)
    requires WellFormed(a) && Inv(a.core) && RoutesOnline(r.choose) && Expected(a, r).TransientFailure?
    ensures PRIMARY in a.core.stores
    ensures Book(a, r).0 == Struck(a, r) && r.flaky
  {
    hide Inv, Book, Expected, Struck, RoutesOnline;
    BookingLeaves(a, r);
  }

  lemma SweepLeavesStores(c: Core, now: real)
    ensures SweepSeats(c, now).stores == c.stores
  {
  }

  lemma NeverFailed(c: Core, k: int)
    requires Inv(c) && k in c.seats
    ensures !c.seats[k].mode.Failed?
  {
  }

  ghost function ActsOf(a: App, r: Request): seq<Act>
    requires WellFormed(a) && PRIMARY in a.core.stores && RoutesOnline(r.choose)
  {
    var result := Book(a, r).1;
    if result.Granted? then
      [Sweeping(r.sweep), Locking(r.seat, r.requester, result.server, r.times.acquireSweep, r.times.grant)]
    else [Sweeping(r.sweep)]
  }

  /** A booking is two steps of the protocol at most: the sweep, and a lock of
      an available seat when it is granted; so every theorem about its runs
      covers the bookings. A booking that is not granted leases nothing and
      touches no seat but those the sweep returns. */
  lemma BookingIsProtocolRun(a: App, r: Request)
    requires WellFormed(a) && Inv(a.core) && RoutesOnline(r.choose)
    ensures PRIMARY in a.core.stores
    ensures Book(a, r).0.core == B.After(a.core, ActsOf(a, r))
    ensures Inv(Book(a, r).0.core)
  {
    hide Inv, SweepSeats, Lock, Book;
    BookingNeverShortCircuits(a, r);
    var sweep := Sweeping(r.sweep);
    InvHasPrimary(a.core);
    assert [sweep][..0] == [] && B.After(a.core, []) == a.core;
    var swept := SweepSeats(a.core, r.sweep);
    assert B.After(a.core, [sweep]) == swept;
    SweepKeepsInv(a.core, r.sweep);
    if Book(a, r).1.Granted? {
      var lock := Locking(r.seat, r.requester, Book(a, r).1.server, r.times.acquireSweep, r.times.grant);
      NeverFailed(swept, r.seat);
      InvHasPrimary(swept);
      assert [sweep, lock][..1] == [sweep];
      assert B.After(a.core, [sweep, lock]) == Do(swept, lock);
      DoKeepsInv(swept, lock);
    }
  }
}
