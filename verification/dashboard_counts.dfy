/** What the dashboard's counters count, over whole runs. */
module DashboardCounts {
  import opened Metrics
  import opened Booking
  import opened Cluster
  import opened DashboardRuns
  import opened SeatSafety
  import F = FailoverManagers
  import L = LeaseManagers
  import S = Synchronization

  /** Event `i` of the run is a booking granted through server `id`. */
  ghost predicate GrantedThrough(a: App, es: seq<Event>, i: nat, id: string)
    requires i < |es|
  {
    es[i].BookSeat? && Answer(AfterEvents(a, es[..i]), es[i].request) == Granted(id)
  }

  /** Event `i` of the run is a granted booking. */
  ghost predicate GrantedAt(a: App, es: seq<Event>, i: nat)
    requires i < |es|
  {
    es[i].BookSeat? && Answer(AfterEvents(a, es[..i]), es[i].request).Granted?
  }

  /** Event `i` of the run is a request about a held seat that the seat table or
      the leases refuse: a confirm or renewal of a seat that is not locked with
      its own lease in the table and running, a cancel of one that is not locked. */
  ghost predicate RefusedAt(a: App, es: seq<Event>, i: nat)
    requires i < |es|
  {
    var c := AfterEvents(a, es[..i]).core;
    match es[i]
    case ConfirmSeat(k, now) => !Runs(c, k, now)
    case RenewLease(k, sweepAt, _) => !Runs(c, k, sweepAt)
    case CancelLock(k) => !HasRow(c, k, S.Locked)
    case _ => false
  }

  /** Seat `k` is locked, and its lease is in the table and runs past `now`. */
  ghost predicate Runs(c: Core, k: int, now: real) {
    HasRow(c, k, S.Locked) && k in c.leases.bySeat && c.leases.bySeat[k].expiresAt > now
  }

  ghost predicate NoResetAfter(es: seq<Event>, i: nat) {
    forall j :: i < j < |es| ==> !es[j].ResetAll?
  }

  // ---------------------------------------------------------------------
  // Servers: the switch and the requests
  // ---------------------------------------------------------------------

  lemma BookingServerRow(a: App, r: Request, id: string)
    requires WellFormed(a) && Inv(a.core) && RoutesOnline(r.choose) && id in SERVER_IDS
    ensures PRIMARY in a.core.stores && id in Book(a, r).0.servers
    ensures Book(a, r).0.servers[id]
         == Server(a.servers[id].online, a.servers[id].requests + if Book(a, r).1 == Granted(id) then 1 else 0)
  {
    hide SERVER_IDS, Inv, Book, Expected, SweepSeats, Poll, Lock, MetricsOf, RoutesOnline, SucceedThenLook;
    BookingLeaves(a, r);
  }

  /** One event and one server: only its toggle turns the switch, only a booking
      granted through it raises its requests, by one. */
  lemma EventServerRow(a: App, e: Event, id: string)
    requires WellFormed(a) && Inv(a.core) && Possible(a, e) && id in SERVER_IDS
    ensures id in Next(a, e).servers
    ensures Next(a, e).servers[id]
         == Server(if e.ToggleServer? && e.id == id then !a.servers[id].online else a.servers[id].online,
                   a.servers[id].requests + if e.BookSeat? && Answer(a, e.request) == Granted(id) then 1 else 0)
  {
    hide SERVER_IDS, Inv, Book, Confirm, Cancel, Renew, Deliver, Recover, Reset, Poll, Shown, SweepSeats, F.Report;
    if e.BookSeat? { BookingServerRow(a, e.request, id); }
  }

  /** The toggles of server `id` in the run. */
  ghost function Toggles(es: seq<Event>, id: string): set<nat> {
    set i: nat | i < |es| && es[i].ToggleServer? && es[i].id == id
  }

  ghost function GrantsThrough(a: App, es: seq<Event>, id: string): set<nat> {
    set i: nat | i < |es| && GrantedThrough(a, es, i, id)
  }

  lemma TogglesGrow(es: seq<Event>, id: string)
    requires es != []
    ensures var e := es[|es| - 1];
            |Toggles(es, id)| == |Toggles(es[..|es| - 1], id)| + if e.ToggleServer? && e.id == id then 1 else 0
  {
    var last := |es| - 1;
    assert Toggles(es, id)
        == Toggles(es[..last], id) + if es[last].ToggleServer? && es[last].id == id then {last} else {};
  }

  lemma GrantsThroughGrow(a: App, es: seq<Event>, id: string)
    requires es != []
    ensures |GrantsThrough(a, es, id)|
         == |GrantsThrough(a, es[..|es| - 1], id)| + if GrantedThrough(a, es, |es| - 1, id) then 1 else 0
  {
    hide Answer, AfterEvents;
    var init, last := es[..|es| - 1], |es| - 1;
    assert forall i: nat :: i < last ==> init[..i] == es[..i];
    assert GrantsThrough(a, es, id)
        == GrantsThrough(a, init, id) + if GrantedThrough(a, es, last, id) then {last} else {};
  }

  /** In every run of the dashboard: a server is switched on exactly if it was and
      has been toggled an even number of times, or was not and an odd number;
      and its requests are the bookings granted through it. */
  lemma {:induction false} ServerRowCounts(a: App, es: seq<Event>, id: string)
    requires WellFormed(a) && Inv(a.core) && id in SERVER_IDS
    ensures var d := AfterEvents(a, es);
            && id in d.servers
            && (d.servers[id].online <==> a.servers[id].online == (|Toggles(es, id)| % 2 == 0))
            && d.servers[id].requests == a.servers[id].requests + |GrantsThrough(a, es, id)|
  {
    hide SERVER_IDS, Inv, WellFormed, Next, Toggles, GrantsThrough;
    if es == [] {
      NothingYet(a, id);
    } else {
      var init, e := es[..|es| - 1], es[|es| - 1];
      var before := AfterEvents(a, init);
      ServerRowCounts(a, init, id);
      RunsAreProtocolRuns(a, init);
      TogglesGrow(es, id);
      GrantsThroughGrow(a, es, id);
      if Possible(before, e) { EventServerRow(before, e, id); }
    }
  }

  lemma NothingYet(a: App, id: string)
    requires WellFormed(a) && id in SERVER_IDS
    ensures AfterEvents(a, []) == a && id in a.servers
    ensures |Toggles([], id)| == 0 && |GrantsThrough(a, [], id)| == 0
  {
    assert Toggles([], id) == {} && GrantsThrough(a, [], id) == {};
  }

  // ---------------------------------------------------------------------
  // Granted and refused requests
  // ---------------------------------------------------------------------

  /** The bookings granted since the last reset. */
  ghost function GrantsKept(a: App, es: seq<Event>): set<nat> {
    set i: nat | i < |es| && NoResetAfter(es, i) && GrantedAt(a, es, i)
  }

  /** The requests refused since the last reset. */
  ghost function RefusalsKept(a: App, es: seq<Event>): set<nat> {
    set i: nat | i < |es| && NoResetAfter(es, i) && RefusedAt(a, es, i)
  }

  lemma LastReset(es: seq<Event>, i: nat)
    requires i < |es| - 1
    ensures NoResetAfter(es, i) <==> NoResetAfter(es[..|es| - 1], i) && !es[|es| - 1].ResetAll?
  {
    var init := es[..|es| - 1];
    assert forall j :: i < j < |init| ==> init[j] == es[j];
  }

  lemma GrantsKeptGrow(a: App, es: seq<Event>)
    requires es != []
    ensures |GrantsKept(a, es)|
         == if es[|es| - 1].ResetAll? then 0
            else |GrantsKept(a, es[..|es| - 1])| + if GrantedAt(a, es, |es| - 1) then 1 else 0
  {
    hide Answer, AfterEvents, NoResetAfter;
    var init, last := es[..|es| - 1], |es| - 1;
    forall i: nat
      ensures i in GrantsKept(a, es) <==>
                && !es[last].ResetAll?
                && (i in GrantsKept(a, init) || (i == last && GrantedAt(a, es, last)))
    {
      NothingAfterLast(es);
      if i < last {
        LastReset(es, i);
        assert init[..i] == es[..i];
      }
    }
    if es[last].ResetAll? {
      assert GrantsKept(a, es) == {};
    } else {
      assert GrantsKept(a, es) == GrantsKept(a, init) + if GrantedAt(a, es, last) then {last} else {};
    }
  }

  lemma NothingAfterLast(es: seq<Event>)
    requires es != []
    ensures NoResetAfter(es, |es| - 1)
  {
  }

  lemma RefusalsKeptGrow(a: App, es: seq<Event>)
    requires es != []
    ensures |RefusalsKept(a, es)|
         == if es[|es| - 1].ResetAll? then 0
            else |RefusalsKept(a, es[..|es| - 1])| + if RefusedAt(a, es, |es| - 1) then 1 else 0
  {
    hide AfterEvents, NoResetAfter, HasRow, Runs;
    var init, last := es[..|es| - 1], |es| - 1;
    forall i: nat
      ensures i in RefusalsKept(a, es) <==>
                && !es[last].ResetAll?
                && (i in RefusalsKept(a, init) || (i == last && RefusedAt(a, es, last)))
    {
      NothingAfterLast(es);
      if i < last {
        LastReset(es, i);
        assert init[..i] == es[..i];
      }
    }
    if es[last].ResetAll? {
      assert RefusalsKept(a, es) == {};
    } else {
      assert RefusalsKept(a, es) == RefusalsKept(a, init) + if RefusedAt(a, es, last) then {last} else {};
    }
  }

  lemma LockCountsOne(c: Core, seat: int, owner: string, server: string, sweepAt: real, grantAt: real)
    requires Inv(c) && HasRow(c, seat, S.Available)
    ensures PRIMARY in c.stores && Lock(c, seat, owner, server, sweepAt, grantAt).0.granted == c.granted + 1
  {
    hide SERVER_IDS, L.Acquire, Leased, PrimaryTracks, Hall, S.Sane, S.Broadcast, Peers, S.Update;
    InvHasPrimary(c);
    LockLeased(c.seats, c.leases, seat, owner, server, sweepAt, grantAt);
  }

  lemma SweepCountsNothing(c: Core, now: real)
    ensures SweepSeats(c, now).granted == c.granted
  {
  }

  /** A granted booking counts once, and a booking never counts as a failure. */
  lemma BookingCounts(a: App, r: Request)
    requires WellFormed(a) && Inv(a.core) && RoutesOnline(r.choose)
    ensures PRIMARY in a.core.stores
    ensures Book(a, r).0.core.granted == a.core.granted + if Book(a, r).1.Granted? then 1 else 0
    ensures Book(a, r).0.failures == a.failures
  {
    hide SERVER_IDS, Inv, Book, SweepSeats, Poll, Lock, MetricsOf, RoutesOnline, SucceedThenLook;
    BookingLeaves(a, r);
    SweepCountsNothing(a.core, r.sweep);
    SweepKeepsInv(a.core, r.sweep);
    if Book(a, r).1.Granted? {
      var swept := SweepSeats(a.core, r.sweep);
      NeverFailed(swept, r.seat);
      LockCountsOne(swept, r.seat, r.requester, Book(a, r).1.server, r.times.acquireSweep, r.times.grant);
    }
  }

  lemma DeskCountsNothing(c: Core, e: Event)
    requires Inv(c) && (e.ConfirmSeat? || e.CancelLock? || e.RenewLease?)
    ensures PRIMARY in c.stores
    ensures e.ConfirmSeat? ==>
              && Confirm(c, e.seat, e.now).0.granted == c.granted
              && (Confirm(c, e.seat, e.now).1 <==> Runs(c, e.seat, e.now))
    ensures e.CancelLock? ==>
              Cancel(c, e.seat).0.granted == c.granted && (Cancel(c, e.seat).1 <==> HasRow(c, e.seat, S.Locked))
    ensures e.RenewLease? ==>
              && Renew(c, e.seat, e.sweepAt, e.renewAt).0.granted == c.granted
              && (Renew(c, e.seat, e.sweepAt, e.renewAt).1 <==> Runs(c, e.seat, e.sweepAt))
  {
    hide Inv, L.Sweep, L.Release, L.Renew, S.Broadcast, Peers, S.Update;
    InvHasPrimary(c);
    if e.ConfirmSeat? {
      ConfirmsExactlyWhenLeased(c, e.seat, e.now);
    } else if e.CancelLock? {
      CancelFrees(c, e.seat);
    } else if HasRow(c, e.seat, S.Locked) {
      RenewExtends(c, e.seat, e.sweepAt, e.renewAt);
    }
  }

  lemma OthersCountNothing(a: App, e: Event)
    requires WellFormed(a) && Possible(a, e)
    requires e.Snapshot? || e.ToggleServer? || e.SyncDelivered?
    ensures Next(a, e).core.granted == a.core.granted && Next(a, e).failures == a.failures
  {
    hide SERVER_IDS, Poll, Shown, F.Report, S.Apply, S.CatchUp, L.Expired;
    PrimaryIsServer();
  }

  lemma ResetCountsFromZero(a: App, e: Event)
    requires WellFormed(a) && e.ResetAll?
    ensures Next(a, e).core.granted == 0 && Next(a, e).failures == 0
  {
    hide FreshSeats, FreshStores;
  }

  /** One event counts as a granted booking, as a refused request, or not at all. */
  lemma EventCounts(a: App, e: Event)
    requires WellFormed(a) && Inv(a.core) && Possible(a, e)
    ensures e.ResetAll? ==> Next(a, e).core.granted == 0 && Next(a, e).failures == 0
    ensures !e.ResetAll? ==>
              && Next(a, e).core.granted
                 == a.core.granted + (if e.BookSeat? && Answer(a, e.request).Granted? then 1 else 0)
              && Next(a, e).failures == a.failures + (if RefusedAt(a, [e], 0) then 1 else 0)
  {
    hide Inv, Book, Confirm, Cancel, Renew, Runs, HasRow, RoutesOnline, TakeSnapshot, Toggle, Deliver, Reset;
    assert [e][..0] == [] && AfterEvents(a, []) == a;
    match e
    case BookSeat(r) => BookingCounts(a, r);
    case ConfirmSeat(_, _) => DeskCountsNothing(a.core, e);
    case CancelLock(_) => DeskCountsNothing(a.core, e);
    case RenewLease(_, _, _) => DeskCountsNothing(a.core, e);
    case ResetAll => ResetCountsFromZero(a, e);
    case _ => OthersCountNothing(a, e);
  }

  lemma RefusedNow(a: App, es: seq<Event>)
    requires es != []
    ensures RefusedAt(a, es, |es| - 1) <==> RefusedAt(AfterEvents(a, es[..|es| - 1]), [es[|es| - 1]], 0)
  {
    hide HasRow, Runs, Step;
    assert [es[|es| - 1]][..0] == [];
    assert AfterEvents(AfterEvents(a, es[..|es| - 1]), []) == AfterEvents(a, es[..|es| - 1]);
  }

  lemma ImpossibleGrantsNothing(a: App, e: Event)
    requires WellFormed(a) && !Possible(a, e)
    ensures !RefusedAt(a, [e], 0) && !e.ResetAll?
    ensures e.BookSeat? ==> !Answer(a, e.request).Granted?
  {
    hide HasRow, Runs;
  }

  /** In every run of the dashboard from a fresh start: `success_count` is the
      number of bookings granted since the last reset, and `failure_count` the
      number of confirms, cancels and renewals refused since then. */
  lemma {:induction false} CountersCount(es: seq<Event>)
    ensures AfterEvents(Start(), es).core.granted == |GrantsKept(Start(), es)|
    ensures AfterEvents(Start(), es).failures == |RefusalsKept(Start(), es)|
  {
    hide Start, Inv, WellFormed, Possible, Next, Answer, GrantsKept, RefusalsKept, RefusedAt;
    if es == [] {
      NothingCounted();
    } else {
      var init, e := es[..|es| - 1], es[|es| - 1];
      var before := AfterEvents(Start(), init);
      CountersCount(init);
      StartIsSound();
      RunsAreProtocolRuns(Start(), init);
      GrantsKeptGrow(Start(), es);
      RefusalsKeptGrow(Start(), es);
      RefusedNow(Start(), es);
      if Possible(before, e) { EventCounts(before, e); } else { ImpossibleGrantsNothing(before, e); }
    }
  }

  lemma NothingCounted()
    ensures AfterEvents(Start(), []).core.granted == |GrantsKept(Start(), [])|
    ensures AfterEvents(Start(), []).failures == |RefusalsKept(Start(), [])|
  {
    hide FreshSeats, FreshStores;
    assert GrantsKept(Start(), []) == {} && RefusalsKept(Start(), []) == {};
  }
}
