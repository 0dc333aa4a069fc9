/** Granted bookings over whole runs of the dashboard: no seat is granted
    twice, and every taken seat was granted to the owner it has. */
module DashboardGrants {
  import opened Metrics
  import opened Booking
  import opened Cluster
  import opened DashboardRuns
  import opened SeatSafety
  import L = LeaseManagers
  import S = Synchronization

  /** The time of the sweep an event starts with, if it does. */
  ghost function SweepOf(e: Event): Option<real> {
    match e
    case BookSeat(r) => Some(r.sweep)
    case Snapshot(sweep, _, _) => Some(sweep)
    case _ => None
  }

  /** The events that free a taken seat: its own cancel while it is locked, one
      whose sweep finds its lease in the table and expired, and a reset. */
  ghost predicate EventFrees(a: App, e: Event, k: int) {
    && Possible(a, e)
    && (|| (e.CancelLock? && e.seat == k && Frees(a.core, Cancelling(k), k))
        || (SweepOf(e).Some? && Frees(a.core, Sweeping(SweepOf(e).value), k))
        || e.ResetAll?)
  }

  /** The event is a booking of seat `k`, and it is granted. */
  ghost predicate Grants(a: App, e: Event, k: int) {
    e.BookSeat? && e.request.seat == k && RoutesOnline(e.request.choose) && Answer(a, e.request).Granted?
  }

  lemma SweepTakesNothing(c: Core, now: real, k: int)
    requires Inv(c) && Taken(SweepSeats(c, now), k)
    ensures Taken(c, k) && !Frees(c, Sweeping(now), k) && SweepSeats(c, now).seats[k] == c.seats[k]
  {
    hide Filled, PrimaryTracks, L.Sweep;
  }

  /** Seat `k` is locked by the owner under the given lease id. */
  ghost predicate FreshGrant(c: Core, k: int, owner: string, id: nat) {
    HasRow(c, k, S.Locked) && c.seats[k].owner == owner && c.seats[k].leaseId == Some(id)
  }

  lemma SweepHandsOutNothing(c: Core, now: real)
    ensures SweepSeats(c, now).leases.nextId == c.leases.nextId
  {
    hide L.Expired;
  }

  /** What a booking leaves of seat `k`: taken by this very grant, or taken before and not freed. */
  lemma BookingRow(a: App, r: Request, k: int)
    requires WellFormed(a) && Inv(a.core) && RoutesOnline(r.choose)
    ensures PRIMARY in a.core.stores
    ensures Grants(a, BookSeat(r), k) ==>
              && Taken(Book(a, r).0.core, k) && FreshGrant(Book(a, r).0.core, k, r.requester, a.core.leases.nextId)
              && (Taken(a.core, k) ==> EventFrees(a, BookSeat(r), k))
    ensures !Grants(a, BookSeat(r), k) ==>
              && (Taken(Book(a, r).0.core, k) <==> Taken(a.core, k) && !EventFrees(a, BookSeat(r), k))
              && (Taken(Book(a, r).0.core, k) ==> Book(a, r).0.core.seats[k] == a.core.seats[k])
  {
    hide Inv, SweepSeats, Lock, Book, MetricsOf, RoutesOnline, Taken, Frees, FreshGrant;
    BookingNeverShortCircuits(a, r);
    var swept := SweepSeats(a.core, r.sweep);
    SweepKeepsInv(a.core, r.sweep);
    if Taken(a.core, k) { SweptRow(a.core, r.sweep, k); }
    if Taken(swept, k) {
      TakenIsSeat(swept, k);
      SweepTakesNothing(a.core, r.sweep, k);
    }
    if Expected(a, r).Granted? {
      NeverFailed(swept, r.seat);
      SweepHandsOutNothing(a.core, r.sweep);
      GrantedRow(swept, r, Expected(a, r).server, k);
    }
  }

  lemma GrantedRow(c: Core, r: Request, server: string, k: int)
    requires Inv(c) && HasRow(c, r.seat, S.Available)
    ensures PRIMARY in c.stores && !Taken(c, r.seat)
    ensures var d := Lock(c, r.seat, r.requester, server, r.times.acquireSweep, r.times.grant).0;
            && (k == r.seat ==> Taken(d, k) && FreshGrant(d, k, r.requester, c.leases.nextId))
            && (k != r.seat ==> (Taken(d, k) <==> Taken(c, k)))
            && (k != r.seat && k in c.seats ==> k in d.seats && d.seats[k] == c.seats[k])
  {
    hide Inv, Lock;
    InvHasPrimary(c);
    LockedRow(c, r.seat, r.requester, server, r.times.acquireSweep, r.times.grant);
  }

  lemma ActOfEvent(a: App, e: Event, k: int)
    requires WellFormed(a) && Possible(a, e) && !e.BookSeat?
    ensures |Acts(a, e)| <= 1
    ensures Acts(a, e) != [] ==>
              && !Acts(a, e)[0].Locking?
              && (EventFrees(a, e, k) <==> Frees(a.core, Acts(a, e)[0], k) || Acts(a, e)[0].Resetting?)
    ensures Acts(a, e) == [] ==> !EventFrees(a, e, k)
  {
  }

  lemma ActRow(c: Core, act: Act, k: int)
    requires Inv(c) && !act.Locking?
    ensures Taken(Do(c, act), k) <==> Taken(c, k) && !Frees(c, act, k) && !act.Resetting?
    ensures Taken(Do(c, act), k) ==> SameGrant(c, Do(c, act), k)
  {
    hide Inv, Do, Frees, SameGrant;
    DoKeepsInv(c, act);
    if Taken(c, k) {
      FreedExactly(c, act, k);
      if Taken(Do(c, act), k) { GrantKept(c, act, k); }
    } else {
      SeatsOfTheHall(c, k);
      SeatsOfTheHall(Do(c, act), k);
      if Taken(Do(c, act), k) { BookedNow(c, act, k); }
    }
  }

  /** What any other event leaves of seat `k`: taken exactly if it was and is not freed. */
  lemma OtherEventRow(a: App, e: Event, k: int)
    requires WellFormed(a) && Inv(a.core) && Possible(a, e) && !e.BookSeat?
    ensures Taken(Next(a, e).core, k) <==> Taken(a.core, k) && !EventFrees(a, e, k)
    ensures Taken(Next(a, e).core, k) ==> SameGrant(a.core, Next(a, e).core, k)
  {
    hide Inv, Next, Acts, After, Do, Frees, EventFrees;
    EventIsOneAct(a, e);
    ActOfEvent(a, e, k);
    if Acts(a, e) == [] {
      NoAct(a.core);
    } else {
      var act := Acts(a, e)[0];
      assert Acts(a, e) == [act];
      OneAct(a.core, act);
      ActRow(a.core, act, k);
    }
  }

  /** One event and one seat: afterwards it is taken exactly if the event grants
      it, locked by its requester under a new lease id, or if it was taken and is
      not freed, under the same grant; and what is taken is granted only if the
      event itself frees it first. */
  lemma EventRow(a: App, e: Event, k: int)
    requires WellFormed(a) && Inv(a.core)
    ensures var d := Step(a, e).core;
            && (Taken(d, k) <==> Grants(a, e, k) || (Taken(a.core, k) && !EventFrees(a, e, k)))
            && (Grants(a, e, k) ==> FreshGrant(d, k, e.request.requester, a.core.leases.nextId))
            && (Taken(d, k) && !Grants(a, e, k) ==> SameGrant(a.core, d, k))
            && (Grants(a, e, k) && Taken(a.core, k) ==> EventFrees(a, e, k))
  {
    hide Inv, Next, Book, EventFrees, Taken, RoutesOnline, FreshGrant;
    if e.BookSeat? && Possible(a, e) {
      BookingRow(a, e.request, k);
      BookStep(a, e.request);
      if Taken(Book(a, e.request).0.core, k) { TakenIsSeat(Book(a, e.request).0.core, k); }
    } else if Possible(a, e) {
      OtherEventRow(a, e, k);
    } else {
      ImpossibleFreesNothing(a, e, k);
    }
    if Taken(Step(a, e).core, k) { TakenIsSeat(Step(a, e).core, k); }
    if Taken(a.core, k) { TakenIsSeat(a.core, k); }
  }

  lemma ImpossibleFreesNothing(a: App, e: Event, k: int)
    requires !Possible(a, e)
    ensures !EventFrees(a, e, k) && !Grants(a, e, k)
  {
  }

  /** What a booking is answered, by the seat before it, the clock reading of its
      sweep, the pick of the strategy and the injected failure. */
  lemma AnswersExactly(a: App, r: Request)
    requires WellFormed(a) && Inv(a.core) && RoutesOnline(r.choose)
    ensures var c, k, answer := a.core, r.seat, Answer(a, r);
            var lapsed := HasRow(c, k, S.Locked) && k in c.leases.bySeat && c.leases.bySeat[k].expiresAt <= r.sweep;
            var free := HasRow(c, k, S.Available) || lapsed;
            var pick := r.choose(MetricsOf(a.servers, a.breakers, SERVER_IDS, r.status));
            && (answer.NoSuchSeat? <==> !(1 <= k <= 20))
            && (answer.AlreadyReserved? <==> HasRow(c, k, S.Reserved))
            && (answer.CurrentlyLeased? <==> HasRow(c, k, S.Locked) && !lapsed)
            && (answer.NoServer? <==> free && pick.None?)
            && (answer.TransientFailure? <==> free && pick.Some? && r.flaky)
            && (answer.Granted? <==> free && pick.Some? && !r.flaky)
            && (answer.Granted? ==> pick == Some(answer.server))
  {
    hide Inv, Book, SweepSeats, MetricsOf, RoutesOnline;
    BookingLeaves(a, r);
    SweptMode(a.core, r.sweep, r.seat);
  }

  /** What the sweep makes of one seat. */
  lemma SweptMode(c: Core, now: real, k: int)
    requires Inv(c)
    ensures var d := SweepSeats(c, now);
            var lapsed := HasRow(c, k, S.Locked) && k in c.leases.bySeat && c.leases.bySeat[k].expiresAt <= now;
            && (k in d.seats <==> 1 <= k <= 20) && (k in c.seats <==> 1 <= k <= 20)
            && (HasRow(d, k, S.Reserved) <==> HasRow(c, k, S.Reserved))
            && (HasRow(d, k, S.Locked) <==> HasRow(c, k, S.Locked) && !lapsed)
            && (HasRow(d, k, S.Available) <==> HasRow(c, k, S.Available) || lapsed)
            && (k in d.seats ==> !d.seats[k].mode.Failed?)
  {
    hide PrimaryTracks, L.Sweep, Hall, S.Sane, Sendable;
  }

  // ---------------------------------------------------------------------
  // Whole runs
  // ---------------------------------------------------------------------

  /** Event `i` of the run is a granted booking of seat `k`. */
  ghost predicate GrantsAt(a: App, es: seq<Event>, i: nat, k: int)
    requires i < |es|
  {
    Grants(AfterEvents(a, es[..i]), es[i], k)
  }

  ghost predicate FreesAt(a: App, es: seq<Event>, n: nat, k: int)
    requires n < |es|
  {
    EventFrees(AfterEvents(a, es[..n]), es[n], k)
  }

  lemma OneEventMore(a: App, es: seq<Event>, i: nat)
    requires i < |es|
    ensures AfterEvents(a, es[..i + 1]) == Step(AfterEvents(a, es[..i]), es[i])
  {
    assert es[..i + 1][..i] == es[..i];
  }

  lemma {:induction false} TakenUntilEventFrees(a: App, es: seq<Event>, i: nat, j: nat, k: int)
    requires WellFormed(a) && Inv(a.core) && i <= j <= |es| && Taken(AfterEvents(a, es[..i]).core, k)
    requires forall n :: i <= n < j ==> !FreesAt(a, es, n, k)
    ensures Taken(AfterEvents(a, es[..j]).core, k)
  {
    hide Inv, WellFormed, AfterEvents, Step, Taken, EventFrees, Grants;
    if i < j {
      TakenUntilEventFrees(a, es, i, j - 1, k);
      RunsAreProtocolRuns(a, es[..j - 1]);
      assert !FreesAt(a, es, j - 1, k);
      OneEventMore(a, es, j - 1);
      EventRow(AfterEvents(a, es[..j - 1]), es[j - 1], k);
    }
  }

  /** In every run of the dashboard: between two granted bookings of one seat
      it was cancelled, swept up with its lease expired, at the latest by the
      second booking itself, or everything was reset. */
  lemma NoDoubleGrant(a: App, es: seq<Event>, i: nat, j: nat, k: int)
    requires WellFormed(a) && Inv(a.core) && i < j < |es| && GrantsAt(a, es, i, k) && GrantsAt(a, es, j, k)
    ensures exists n :: i < n <= j && FreesAt(a, es, n, k)
  {
    hide Inv, WellFormed, AfterEvents, Step, Taken, EventFrees, Grants;
    RunsAreProtocolRuns(a, es[..i]);
    OneEventMore(a, es, i);
    EventRow(AfterEvents(a, es[..i]), es[i], k);
    if forall n :: i < n < j ==> !FreesAt(a, es, n, k) {
      TakenUntilEventFrees(a, es, i + 1, j, k);
      RunsAreProtocolRuns(a, es[..j]);
      EventRow(AfterEvents(a, es[..j]), es[j], k);
      assert FreesAt(a, es, j, k);
    }
  }

  /** The booking at `i` is the one behind seat `k` as it stands at the end: for
      its owner, under the lease id handed out then, and not freed since. */
  ghost predicate GrantBehind(a: App, es: seq<Event>, i: nat, k: int)
    requires i < |es|
  {
    && GrantsAt(a, es, i, k)
    && k in AfterEvents(a, es).core.seats
    && AfterEvents(a, es).core.seats[k].owner == es[i].request.requester
    && (AfterEvents(a, es).core.seats[k].leaseId.Some? ==>
          AfterEvents(a, es).core.seats[k].leaseId == Some(AfterEvents(a, es[..i]).core.leases.nextId))
    && forall n :: i < n < |es| ==> !FreesAt(a, es, n, k)
  }

  lemma GrantStaysBehind(a: App, es: seq<Event>, i: nat, k: int)
    requires WellFormed(a) && Inv(a.core) && i < |es| - 1 && GrantBehind(a, es[..|es| - 1], i, k)
    requires Taken(AfterEvents(a, es).core, k) && !GrantsAt(a, es, |es| - 1, k)
    ensures GrantBehind(a, es, i, k)
  {
    hide Inv, WellFormed, Step, Taken, EventFrees, Grants;
    var init := es[..|es| - 1];
    RunsAreProtocolRuns(a, init);
    EventRow(AfterEvents(a, init), es[|es| - 1], k);
    TakenIsSeat(AfterEvents(a, es).core, k);
    assert init[..i] == es[..i];
    forall n | i < n < |es|
      ensures !FreesAt(a, es, n, k)
    {
      if n < |init| {
        assert init[..n] == es[..n];
        assert !FreesAt(a, init, n, k);
      }
    }
  }

  /** In every run of the dashboard: a seat that was free and is now locked or
      reserved was granted by a booking of the run, to the requester who owns
      it now, and nothing has freed it since. */
  lemma {:induction false} TakenWasGrantedTo(a: App, es: seq<Event>, k: int)
    requires WellFormed(a) && Inv(a.core) && !Taken(a.core, k) && Taken(AfterEvents(a, es).core, k)
    ensures exists i: nat :: i < |es| && GrantBehind(a, es, i, k)
  {
    hide Inv, WellFormed, Step, Taken, EventFrees, Grants, GrantBehind;
    if es != [] {
      var init := es[..|es| - 1];
      RunsAreProtocolRuns(a, init);
      EventRow(AfterEvents(a, init), es[|es| - 1], k);
      if GrantsAt(a, es, |es| - 1, k) {
        LastGrant(a, es, k);
      } else {
        TakenWasGrantedTo(a, init, k);
        var i: nat :| i < |init| && GrantBehind(a, init, i, k);
        GrantStaysBehind(a, es, i, k);
      }
    }
  }

  lemma LastGrant(a: App, es: seq<Event>, k: int)
    requires WellFormed(a) && Inv(a.core) && es != [] && GrantsAt(a, es, |es| - 1, k)
    ensures GrantBehind(a, es, |es| - 1, k)
  {
    hide Inv, WellFormed, Step, Taken, EventFrees, Grants;
    var init := es[..|es| - 1];
    RunsAreProtocolRuns(a, init);
    EventRow(AfterEvents(a, init), es[|es| - 1], k);
    TakenIsSeat(AfterEvents(a, es).core, k);
  }

  lemma NothingTakenAtStart(k: int)
    ensures WellFormed(Start()) && Inv(Start().core) && !Taken(Start().core, k)
  {
    hide FreshSeats, FreshStores, FreshServers, FreshBreakers, FreshHealth, Inv, WellFormed;
    StartIsSound();
    FreshSeatsAreFree(SEAT_COUNT);
  }

  /** From a fresh start: every seat that is locked or reserved belongs to the
      requester of the granted booking behind it. */
  lemma OwnersHoldGrants(es: seq<Event>, k: int)
    requires Taken(AfterEvents(Start(), es).core, k)
    ensures exists i: nat :: i < |es| && GrantBehind(Start(), es, i, k)
  {
    hide Start, WellFormed, Inv, Taken, GrantBehind, AfterEvents;
    NothingTakenAtStart(k);
    TakenWasGrantedTo(Start(), es, k);
  }

  // ---------------------------------------------------------------------
  // Reserved seats
  // ---------------------------------------------------------------------

  lemma ReservingAct(c: Core, act: Act, k: int)
    requires Inv(c) && !act.Locking? && !HasRow(c, k, S.Reserved) && HasRow(Do(c, act), k, S.Reserved)
    ensures act.Confirming? && act.seat == k && HasRow(c, k, S.Locked)
    ensures k in c.leases.bySeat && c.leases.bySeat[k].expiresAt > act.now
    ensures c.seats[k].leaseId == Some(c.leases.bySeat[k].id)
  {
    hide Inv, Do, Frees;
    NotReset(c, act, k);
    ActRow(c, act, k);
    ReservationStep(c, act, k);
    IdMeansLocked(c, k);
  }

  /** Only a confirm of the seat, with its own lease in the table and unexpired, reserves it. */
  lemma ReservingEvent(a: App, e: Event, k: int)
    requires WellFormed(a) && Inv(a.core) && !HasRow(a.core, k, S.Reserved) && HasRow(Step(a, e).core, k, S.Reserved)
    ensures e.ConfirmSeat? && e.seat == k && HasRow(a.core, k, S.Locked)
    ensures k in a.core.leases.bySeat && a.core.leases.bySeat[k].expiresAt > e.now
    ensures a.core.seats[k].leaseId == Some(a.core.leases.bySeat[k].id)
  {
    hide Inv, WellFormed, Possible, Next, Acts, After, Do, Grants, EventFrees;
    assert Possible(a, e);
    if e.BookSeat? {
      BookingReservesNothing(a, e.request, k);
    } else {
      EventIsOneAct(a, e);
      AtMostOneAct(a, e);
      if Acts(a, e) == [] {
        NoAct(a.core);
      } else {
        OneAct(a.core, Acts(a, e)[0]);
        ConfirmingAct(a, e);
        ReservingAct(a.core, Acts(a, e)[0], k);
      }
    }
  }

  lemma BookingReservesNothing(a: App, r: Request, k: int)
    requires WellFormed(a) && Inv(a.core) && Possible(a, BookSeat(r))
    requires HasRow(Next(a, BookSeat(r)).core, k, S.Reserved)
    ensures HasRow(a.core, k, S.Reserved)
  {
    hide Inv, WellFormed, Book, Grants, EventFrees, RoutesOnline;
    BookingRow(a, r, k);
  }

  lemma ConfirmingAct(a: App, e: Event)
    requires WellFormed(a) && Possible(a, e) && Acts(a, e) != [] && !e.BookSeat?
    ensures !Acts(a, e)[0].Locking?
    ensures Acts(a, e)[0].Confirming? ==> e.ConfirmSeat? && Acts(a, e)[0] == Confirming(e.seat, e.now)
  {
  }

  /** Event `n` is a successful confirm of seat `k`, under the unexpired lease
      that the booking at `i` was granted. */
  ghost predicate ConfirmsGrantAt(a: App, es: seq<Event>, i: nat, n: nat, k: int)
    requires i < |es| && n < |es|
  {
    && es[n].ConfirmSeat? && es[n].seat == k
    && var before := AfterEvents(a, es[..n]).core;
       && PRIMARY in before.stores && Confirm(before, k, es[n].now).1
       && k in before.leases.bySeat && before.leases.bySeat[k].expiresAt > es[n].now
       && before.leases.bySeat[k].id == AfterEvents(a, es[..i]).core.leases.nextId
  }

  lemma ConfirmStaysBehind(a: App, es: seq<Event>, i: nat, n: nat, k: int)
    requires i < n < |es| - 1 && ConfirmsGrantAt(a, es[..|es| - 1], i, n, k)
    ensures ConfirmsGrantAt(a, es, i, n, k)
  {
    hide AfterEvents, Confirm;
    var init := es[..|es| - 1];
    assert init[..i] == es[..i] && init[..n] == es[..n];
  }

  lemma LastConfirm(a: App, es: seq<Event>, i: nat, k: int)
    requires WellFormed(a) && Inv(a.core) && i < |es| - 1 && GrantBehind(a, es[..|es| - 1], i, k)
    requires !HasRow(AfterEvents(a, es[..|es| - 1]).core, k, S.Reserved)
    requires HasRow(AfterEvents(a, es).core, k, S.Reserved)
    ensures ConfirmsGrantAt(a, es, i, |es| - 1, k)
  {
    hide Inv, WellFormed, Step, Grants, EventFrees, Confirm;
    var init, e := es[..|es| - 1], es[|es| - 1];
    var before := AfterEvents(a, init);
    RunsAreProtocolRuns(a, init);
    ReservingEvent(before, e, k);
    InvHasPrimary(before.core);
    ConfirmsExactlyWhenLeased(before.core, k, e.now);
    assert init[..i] == es[..i];
  }

  /** In every run of the dashboard: a seat that was free and is now reserved was
      granted by a booking of the run, to the requester who owns it now, and
      later confirmed, under that booking's lease before it ran out, and
      nothing has freed it since the booking. */
  lemma {:induction false} ReservedWasConfirmed(a: App, es: seq<Event>, k: int)
    requires WellFormed(a) && Inv(a.core) && !Taken(a.core, k) && HasRow(AfterEvents(a, es).core, k, S.Reserved)
    ensures exists i: nat, n: nat :: i < n < |es| && GrantBehind(a, es, i, k) && ConfirmsGrantAt(a, es, i, n, k)
  {
    hide Inv, WellFormed, Step, EventFrees, Grants, GrantBehind, ConfirmsGrantAt;
    if es != [] {
      var init, last := es[..|es| - 1], |es| - 1;
      var before := AfterEvents(a, init);
      RunsAreProtocolRuns(a, init);
      EventRow(before, es[last], k);
      assert !GrantsAt(a, es, last, k) && Taken(before.core, k);
      if HasRow(before.core, k, S.Reserved) {
        ReservedWasConfirmed(a, init, k);
        var i: nat, n: nat :| i < n < |init| && GrantBehind(a, init, i, k) && ConfirmsGrantAt(a, init, i, n, k);
        GrantStaysBehind(a, es, i, k);
        ConfirmStaysBehind(a, es, i, n, k);
      } else {
        TakenWasGrantedTo(a, init, k);
        var i: nat :| i < |init| && GrantBehind(a, init, i, k);
        GrantStaysBehind(a, es, i, k);
        LastConfirm(a, es, i, k);
      }
    }
  }

  /** From a fresh start: behind every reserved seat there is a granted booking
      of its owner, and its confirmation in time. */
  lemma ReservationsWereConfirmed(es: seq<Event>, k: int)
    requires HasRow(AfterEvents(Start(), es).core, k, S.Reserved)
    ensures exists i: nat, n: nat ::
              i < n < |es| && GrantBehind(Start(), es, i, k) && ConfirmsGrantAt(Start(), es, i, n, k)
  {
    hide Start, WellFormed, Inv, Taken, GrantBehind, ConfirmsGrantAt, AfterEvents;
    NothingTakenAtStart(k);
    ReservedWasConfirmed(Start(), es, k);
  }
}
