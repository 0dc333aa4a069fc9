/** What can happen to a seat: locks, leases that lapse, reservations. */
module SeatSafety {
  import opened Metrics
  import opened Synchronization
  import opened Booking
  import L = LeaseManagers

  ghost predicate HasRow(c: Core, k: int, mode: SeatMode) {
    k in c.seats && c.seats[k].mode == mode
  }

  // ---------------------------------------------------------------------
  // Reservations
  // ---------------------------------------------------------------------

  /** A confirm succeeds exactly for a locked seat whose own lease is present
      and has not expired. */
  lemma ConfirmsExactlyWhenLeased(c: Core, k: int, now: real)
    requires Inv(c)
    ensures Confirm(c, k, now).1 <==>
      HasRow(c, k, Locked) && k in c.leases.bySeat && c.leases.bySeat[k].expiresAt > now
  {
    hide Filled, PrimaryTracks, WritePrimary, L.Release;
  }

  /** What a confirm does when it succeeds: the row of its own lease's owner
      becomes reserved, its lease is gone, and every other row and lease that
      had not expired is untouched. */
  lemma ConfirmReserves(c: Core, k: int, now: real)
    requires Inv(c) && Confirm(c, k, now).1
    ensures var d := Confirm(c, k, now).0;
            && d.seats == c.seats[k := Seat(Reserved, c.leases.bySeat[k].owner, None, 0.0, c.leases.bySeat[k].holder)]
            && d.leases.bySeat == L.Sweep(c.leases, now).bySeat - {k}
            && PRIMARY in d.stores && k in d.stores[PRIMARY].seats
            && d.stores[PRIMARY].seats[k].mode.Reserved? && d.stores[PRIMARY].seats[k].owner == c.leases.bySeat[k].owner
  {
    hide PrimaryTracks, Broadcast, Peers;
    ConfirmsExactlyWhenLeased(c, k, now);
  }

  /** A renewal succeeds exactly like a confirm would, and then the row and its
      lease run 30 seconds from now; no other row and no unexpired other lease changes. */
  lemma RenewExtends(c: Core, k: int, sweepAt: real, renewAt: real)
    requires Inv(c) && HasRow(c, k, Locked)
    ensures var (d, ok) := Renew(c, k, sweepAt, renewAt);
            && (ok <==> k in c.leases.bySeat && c.leases.bySeat[k].expiresAt > sweepAt)
            && d.seats == (if ok then c.seats[k := c.seats[k].(expiresAt := renewAt + 30.0)] else c.seats)
            && (var swept := L.Sweep(c.leases, sweepAt).bySeat;
                d.leases.bySeat
                == if ok then swept[k := c.leases.bySeat[k].(expiresAt := renewAt + 30.0)] else swept)
            && d.stores == c.stores && d.timers == c.timers
  {
    hide Filled, PrimaryTracks;
  }

  /** A cancel frees exactly a locked seat, with or without a lease, and its
      lease is gone for good; the primary is not told. */
  lemma CancelFrees(c: Core, k: int)
    requires Inv(c)
    ensures var (d, ok) := Cancel(c, k);
            && (ok <==> HasRow(c, k, Locked))
            && d.seats == (if ok then c.seats[k := FREE] else c.seats)
            && d.leases.bySeat == (if ok then c.leases.bySeat - {k} else c.leases.bySeat)
            && (ok ==> c.seats[k].leaseId.Some? && c.seats[k].leaseId.value !in d.leases.byId)
            && d.stores == c.stores && d.timers == c.timers
  {
    hide Filled, PrimaryTracks;
    if HasRow(c, k, Locked) && k !in c.leases.bySeat { assert c.leases.bySeat - {k} == c.leases.bySeat; }
  }

  /** No step but a reset changes a reserved row, and only its own confirm
      reserves a row: for the owner of a lease that had not expired. */
  lemma ReservationStep(c: Core, a: Act, k: int)
    requires Inv(c) && !a.Resetting? && k in c.seats
    ensures k in Do(c, a).seats
    ensures c.seats[k].mode.Reserved? ==> Do(c, a).seats[k] == c.seats[k]
    ensures !c.seats[k].mode.Reserved? && Do(c, a).seats[k].mode.Reserved? ==>
              && a.Confirming? && a.seat == k
              && k in c.leases.bySeat && c.leases.bySeat[k].expiresAt > a.now
              && c.seats[k].leaseId == Some(c.leases.bySeat[k].id)
              && Do(c, a).seats[k].owner == c.leases.bySeat[k].owner
  {
    hide Inv, Do, Enabled;
    if a.Confirming? {
      ConfirmingRow(c, a, k);
    } else if !Enabled(c, a) {
      DisabledDoesNothing(c, a);
    } else if AtTheDesk(a) {
      UnconfirmedRow(c, a, k);
    } else {
      ReplicasApart(c, a);
    }
  }

  lemma ConfirmingRow(c: Core, a: Act, k: int)
    requires Inv(c) && a.Confirming? && k in c.seats
    ensures k in Do(c, a).seats
    ensures Do(c, a).seats[k] == c.seats[k]
         || (&& a.seat == k && !c.seats[k].mode.Reserved?
             && k in c.leases.bySeat && c.leases.bySeat[k].expiresAt > a.now
             && c.seats[k].leaseId == Some(c.leases.bySeat[k].id)
             && Do(c, a).seats[k].owner == c.leases.bySeat[k].owner)
  {
    hide Inv, Confirm;
    ConfirmedRow(c, a.seat, a.now);
  }

  /** Deliveries and recoveries leave the seat table alone. */
  lemma ReplicasApart(c: Core, a: Act)
    requires a.Delivering? || a.Recovering?
    ensures Do(c, a).seats == c.seats
  {
    hide Apply, CatchUp;
  }

  lemma UnconfirmedRow(c: Core, a: Act, k: int)
    requires Inv(c) && Enabled(c, a) && AtTheDesk(a) && !a.Confirming? && k in c.seats
    ensures k in Do(c, a).seats
    ensures c.seats[k].mode.Reserved? ==> Do(c, a).seats[k] == c.seats[k]
    ensures Do(c, a).seats[k].mode.Reserved? ==> c.seats[k].mode.Reserved?
  {
    hide Inv, L.Release, L.Sweep, L.Acquire, L.Renew, L.Expired;
  }

  lemma ConfirmedRow(c: Core, seat: int, now: real)
    requires Inv(c)
    ensures Confirm(c, seat, now).0.seats
         == if Confirm(c, seat, now).1
            then c.seats[seat := Seat(Reserved, c.seats[seat].owner, None, 0.0, c.seats[seat].server)]
            else c.seats
    ensures Confirm(c, seat, now).1 ==>
              && seat in c.seats && seat in c.leases.bySeat && c.leases.bySeat[seat].expiresAt > now
              && !c.seats[seat].mode.Reserved?
              && c.seats[seat].leaseId == Some(c.leases.bySeat[seat].id)
              && c.seats[seat].owner == c.leases.bySeat[seat].owner
  {
    hide Filled, PrimaryTracks, Broadcast, Peers, Update, L.Release;
    ConfirmsExactlyWhenLeased(c, seat, now);
  }

  /** A reserved seat keeps its row for the rest of every run without a reset. */
  lemma {:induction false} ReservedForGood(c: Core, acts: seq<Act>, k: int)
    requires Inv(c) && HasRow(c, k, Reserved) && NoReset(acts)
    ensures k in After(c, acts).seats && After(c, acts).seats[k] == c.seats[k]
  {
    hide Inv, Do;
    if acts != [] {
      var init := acts[..|acts| - 1];
      assert forall a :: a in init ==> a in acts;
      ReservedForGood(c, init, k);
      InvAlways(c, init);
      assert acts[|acts| - 1] in acts;
      ReservationStep(After(c, init), acts[|acts| - 1], k);
    }
  }

  // ---------------------------------------------------------------------
  // No double booking
  // ---------------------------------------------------------------------

  /** The acts that free a locked seat: its own cancel, or a sweep that finds
      its lease in the table and expired. */
  ghost predicate Frees(c: Core, a: Act, k: int) {
    && HasRow(c, k, Locked)
    && (|| a == Cancelling(k)
        || (a.Sweeping? && k in c.leases.bySeat && c.leases.bySeat[k].expiresAt <= a.now))
  }

  ghost predicate Taken(c: Core, k: int) {
    k in c.seats && !c.seats[k].mode.Available?
  }

  lemma SweptRow(c: Core, now: real, k: int)
    requires Inv(c) && Taken(c, k)
    ensures Taken(SweepSeats(c, now), k) <==> !Frees(c, Sweeping(now), k)
  {
    hide Filled, PrimaryTracks, L.Sweep;
  }

  lemma CancelledRow(c: Core, seat: int, k: int)
    requires Inv(c) && Taken(c, k)
    ensures Taken(Cancel(c, seat).0, k) <==> !Frees(c, Cancelling(seat), k)
  {
    hide Filled, PrimaryTracks, Leased, L.Release;
  }

  lemma LockedStaysTaken(c: Core, a: Act, k: int)
    requires Inv(c) && Taken(c, k) && a.Locking? && Enabled(c, a)
    ensures Taken(Do(c, a), k)
  {
    hide Inv, Lock;
    LockedRow(c, a.seat, a.owner, a.server, a.sweepAt, a.grantAt);
  }

  lemma ConfirmStaysTaken(c: Core, seat: int, now: real, k: int)
    requires Inv(c) && Taken(c, k)
    ensures PRIMARY in c.stores && Taken(Confirm(c, seat, now).0, k)
  {
    hide Inv, Confirm;
    InvHasPrimary(c);
    ConfirmedRow(c, seat, now);
  }

  lemma ResetFreesAll(c: Core, k: int)
    ensures !Taken(Reset(c), k)
  {
    hide FreshSeats, FreshStores;
    FreshSeatsAreFree(SEAT_COUNT);
  }

  /** A taken seat is available after a step exactly if the step frees it or
      resets everything. */
  lemma FreedExactly(c: Core, a: Act, k: int)
    requires Inv(c) && Taken(c, k)
    ensures Taken(Do(c, a), k) <==> !Frees(c, a, k) && !a.Resetting?
  {
    hide Inv, Taken, SweepSeats, Lock, Confirm, Cancel, Renew, Deliver, Recover, Reset;
    InvHasPrimary(c);
    if a.Delivering? || a.Recovering? {
      hide Do;
      ReplicasApart(c, a);
      SameRow(c, Do(c, a), k);
    } else if Enabled(c, a) {
      match a
      case Sweeping(now) => SweptRow(c, now, k);
      case Locking(_, _, _, _, _) => LockedStaysTaken(c, a, k);
      case Confirming(seat, now) => ConfirmStaysTaken(c, seat, now, k);
      case Cancelling(seat) => CancelledRow(c, seat, k);
      case Renewing(seat, sweepAt, renewAt) => RenewStaysTaken(c, seat, sweepAt, renewAt, k);
      case Resetting => ResetFreesAll(c, k);
    } else {
      assert a.Locking?;
    }
  }

  lemma SameRow(c: Core, d: Core, k: int)
    requires d.seats == c.seats
    ensures Taken(d, k) <==> Taken(c, k)
  {
  }

  lemma RenewStaysTaken(c: Core, seat: int, sweepAt: real, renewAt: real, k: int)
    requires Taken(c, k)
    ensures Taken(Renew(c, seat, sweepAt, renewAt).0, k)
  {
    hide L.Renew;
  }

  /** The act at `m` frees seat `k`, or resets, in the state it meets. */
  ghost predicate FreedAt(c: Core, acts: seq<Act>, m: nat, k: int)
    requires m < |acts|
  {
    acts[m].Resetting? || Frees(After(c, acts[..m]), acts[m], k)
  }

  lemma {:induction false} TakenUntilFreed(c: Core, acts: seq<Act>, i: nat, j: nat, k: int)
    requires Inv(c) && i <= j <= |acts| && Taken(After(c, acts[..i]), k)
    requires forall m :: i <= m < j ==> !FreedAt(c, acts, m, k)
    ensures Taken(After(c, acts[..j]), k)
  {
    hide Inv, Do, Taken, Frees;
    if i < j {
      TakenUntilFreed(c, acts, i, j - 1, k);
      InvAlways(c, acts[..j - 1]);
      assert acts[..j][..j - 1] == acts[..j - 1];
      assert !FreedAt(c, acts, j - 1, k);
      FreedExactly(After(c, acts[..j - 1]), acts[j - 1], k);
    }
  }

  /** The act at `i` books seat `k`. */
  ghost predicate BooksAt(c: Core, acts: seq<Act>, i: nat, k: int)
    requires i < |acts|
  {
    acts[i].Locking? && acts[i].seat == k && Enabled(After(c, acts[..i]), acts[i])
  }

  /** Between two bookings of one seat there is always its own cancel, a sweep
      that found its lease expired, or a reset. */
  lemma NoDoubleBooking(c: Core, acts: seq<Act>, i: nat, j: nat, k: int)
    requires Inv(c) && i < j < |acts| && BooksAt(c, acts, i, k) && BooksAt(c, acts, j, k)
    ensures exists m :: i < m < j && FreedAt(c, acts, m, k)
  {
    hide Inv, Lock;
    var before, a := After(c, acts[..i]), acts[i];
    InvAlways(c, acts[..i]);
    assert acts[..i + 1][..i] == acts[..i];
    LockedRow(before, a.seat, a.owner, a.server, a.sweepAt, a.grantAt);
    if forall m :: i < m < j ==> !FreedAt(c, acts, m, k) { TakenUntilFreed(c, acts, i + 1, j, k); }
  }

  // ---------------------------------------------------------------------
  // Who a taken seat was granted to
  // ---------------------------------------------------------------------

  lemma SeatsOfTheHall(c: Core, k: int)
    requires Inv(c)
    ensures PRIMARY in c.stores
    ensures k in c.seats <==> IsSeat(k)
    ensures k in c.stores[PRIMARY].seats <==> IsSeat(k)
  {
    hide Leased, PrimaryTracks, Sane, Sendable;
    assert Hall(c.stores[PRIMARY]);
  }

  lemma LockSparesOthers(c: Core, a: Act, k: int)
    requires Inv(c) && HasRow(c, k, Available) && a.Locking? && Enabled(c, a) && a.seat != k
    ensures k in Do(c, a).seats && Do(c, a).seats[k] == c.seats[k]
  {
    hide Inv, Lock;
    LockedRow(c, a.seat, a.owner, a.server, a.sweepAt, a.grantAt);
  }

  lemma ConfirmSparesAvailable(c: Core, a: Act, k: int)
    requires Inv(c) && HasRow(c, k, Available) && a.Confirming?
    ensures k in Do(c, a).seats && Do(c, a).seats[k] == c.seats[k]
    ensures PRIMARY in c.stores && !Confirm(c, k, a.now).1
  {
    hide Inv, Leased, PrimaryTracks, WritePrimary, L.Sweep, L.Release;
    InvHasPrimary(c);
    ConfirmedRow(c, a.seat, a.now);
  }

  lemma OthersSpareAvailable(c: Core, a: Act, k: int)
    requires HasRow(c, k, Available) && !a.Locking? && !a.Confirming? && !a.Resetting?
    ensures k in Do(c, a).seats && Do(c, a).seats[k] == c.seats[k]
  {
    hide L.Sweep, L.Release, L.Renew, L.Expired, Apply, CatchUp;
  }

  lemma LockTakes(c: Core, a: Act)
    requires Inv(c) && a.Locking? && HasRow(c, a.seat, Available)
    ensures Taken(Do(c, a), a.seat)
  {
    hide Inv, Lock;
    InvHasPrimary(c);
    LockedRow(c, a.seat, a.owner, a.server, a.sweepAt, a.grantAt);
  }

  /** Only its own lock changes an available row. */
  lemma AvailableRowStays(c: Core, a: Act, k: int)
    requires Inv(c) && HasRow(c, k, Available) && !a.Resetting? && !(a.Locking? && a.seat == k)
    ensures k in Do(c, a).seats && Do(c, a).seats[k] == c.seats[k]
  {
    hide Inv, Do, Confirm, Enabled;
    if !Enabled(c, a) {
      DisabledDoesNothing(c, a);
    } else if a.Locking? {
      LockSparesOthers(c, a, k);
    } else if a.Confirming? {
      ConfirmSparesAvailable(c, a, k);
    } else {
      OthersSpareAvailable(c, a, k);
    }
  }

  /** The row keeps its owner, and its lease id as long as it has one. */
  ghost predicate SameGrant(c: Core, d: Core, k: int) {
    && k in c.seats && k in d.seats && d.seats[k].owner == c.seats[k].owner
    && (d.seats[k].leaseId.Some? ==> d.seats[k].leaseId == c.seats[k].leaseId)
  }

  lemma LockKeepsGrant(c: Core, a: Act, k: int)
    requires Inv(c) && Taken(c, k) && a.Locking? && Enabled(c, a)
    ensures SameGrant(c, Do(c, a), k)
  {
    hide Inv, Lock;
    LockedRow(c, a.seat, a.owner, a.server, a.sweepAt, a.grantAt);
  }

  lemma ConfirmKeepsGrant(c: Core, a: Act, k: int)
    requires Inv(c) && k in c.seats && a.Confirming?
    ensures SameGrant(c, Do(c, a), k)
  {
    hide Inv, Confirm;
    ConfirmedRow(c, a.seat, a.now);
  }

  lemma TableActKeepsGrant(c: Core, a: Act, k: int)
    requires (a.Sweeping? || a.Cancelling? || a.Renewing?) && Taken(c, k) && Taken(Do(c, a), k)
    ensures SameGrant(c, Do(c, a), k)
  {
    hide L.Sweep, L.Release, L.Renew, L.Expired;
  }

  /** A seat that is taken before and after a step has the same grant. */
  lemma GrantKept(c: Core, a: Act, k: int)
    requires Inv(c) && !a.Resetting? && Taken(c, k) && Taken(Do(c, a), k)
    ensures SameGrant(c, Do(c, a), k)
  {
    hide Inv, Do, Enabled, Taken;
    assert k in c.seats by { TakenIsSeat(c, k); }
    if !Enabled(c, a) {
      DisabledDoesNothing(c, a);
    } else if a.Locking? {
      LockKeepsGrant(c, a, k);
    } else if a.Confirming? {
      ConfirmKeepsGrant(c, a, k);
    } else if a.Delivering? || a.Recovering? {
      ReplicasApart(c, a);
    } else {
      TableActKeepsGrant(c, a, k);
    }
  }

  lemma TakenIsSeat(c: Core, k: int)
    requires Taken(c, k)
    ensures k in c.seats
  {
  }

  /** The booking at `i` is the grant behind seat `k` as it stands: for its
      owner, under the lease id handed out then, and not freed since. */
  ghost predicate GrantedBy(c: Core, acts: seq<Act>, i: nat, k: int)
    requires i < |acts|
  {
    && BooksAt(c, acts, i, k)
    && k in After(c, acts).seats && After(c, acts).seats[k].owner == acts[i].owner
    && (After(c, acts).seats[k].leaseId.Some? ==>
          After(c, acts).seats[k].leaseId == Some(After(c, acts[..i]).leases.nextId))
    && forall m :: i < m < |acts| ==> !FreedAt(c, acts, m, k)
  }

  /** One more act that keeps the seat taken leaves the grant behind it. */
  lemma GrantStands(c: Core, acts: seq<Act>, i: nat, k: int)
    requires Inv(c) && i < |acts| - 1 && GrantedBy(c, acts[..|acts| - 1], i, k)
    requires Taken(After(c, acts[..|acts| - 1]), k) && Taken(After(c, acts), k)
    ensures GrantedBy(c, acts, i, k)
  {
    hide Inv, Do, Enabled, Taken, Frees;
    var init, a := acts[..|acts| - 1], acts[|acts| - 1];
    InvAlways(c, init);
    FreedExactly(After(c, init), a, k);
    GrantKept(After(c, init), a, k);
    assert init[..i] == acts[..i];
    forall m | i < m < |acts|
      ensures !FreedAt(c, acts, m, k)
    {
      if m < |init| {
        assert init[..m] == acts[..m];
        assert !FreedAt(c, init, m, k);
      }
    }
  }

  lemma NewGrant(c: Core, acts: seq<Act>, k: int)
    requires Inv(c) && acts != [] && BooksAt(c, acts, |acts| - 1, k)
    ensures GrantedBy(c, acts, |acts| - 1, k)
  {
    hide Inv, Lock;
    var init, a := acts[..|acts| - 1], acts[|acts| - 1];
    InvAlways(c, init);
    LockedRow(After(c, init), a.seat, a.owner, a.server, a.sweepAt, a.grantAt);
  }

  /** In every run, a seat that was available and is now locked or reserved was
      booked by an act of the run for the owner it has, and not freed since. */
  lemma {:induction false} TakenWasGranted(c: Core, acts: seq<Act>, k: int)
    requires Inv(c) && HasRow(c, k, Available) && Taken(After(c, acts), k)
    ensures exists i: nat :: i < |acts| && GrantedBy(c, acts, i, k)
  {
    hide Inv, Do, Enabled, Frees, GrantedBy;
    if acts != [] {
      var init, a := acts[..|acts| - 1], acts[|acts| - 1];
      var before := After(c, init);
      InvAlways(c, init);
      SeatsOfTheHall(c, k);
      SeatsOfTheHall(before, k);
      if Taken(before, k) {
        TakenWasGranted(c, init, k);
        var i: nat :| i < |init| && GrantedBy(c, init, i, k);
        GrantStands(c, acts, i, k);
      } else {
        BookedNow(before, a, k);
        assert BooksAt(c, acts, |acts| - 1, k);
        NewGrant(c, acts, k);
      }
    }
  }

  /** Only its own lock takes an available seat. */
  lemma BookedNow(c: Core, a: Act, k: int)
    requires Inv(c) && HasRow(c, k, Available) && Taken(Do(c, a), k)
    ensures a.Locking? && a.seat == k && Enabled(c, a)
  {
    hide Inv, Do, Enabled;
    InvHasPrimary(c);
    if a.Resetting? {
      assert !Taken(Reset(c), k) by { ResetFreesAll(c, k); }
      ResetHappens(c);
    } else if !(a.Locking? && a.seat == k) {
      AvailableRowStays(c, a, k);
    } else if !Enabled(c, a) {
      DisabledDoesNothing(c, a);
    }
  }

  /** The act at `n` confirms seat `k`, with its own lease in the table and unexpired. */
  ghost predicate ConfirmsAt(c: Core, acts: seq<Act>, n: nat, k: int)
    requires n < |acts|
  {
    && acts[n].Confirming? && acts[n].seat == k
    && var before := After(c, acts[..n]);
       && k in before.leases.bySeat && before.leases.bySeat[k].expiresAt > acts[n].now
       && HasRow(before, k, Locked) && before.seats[k].leaseId == Some(before.leases.bySeat[k].id)
  }

  /** The act at `n` confirms the lease that the act at `i` was granted. */
  ghost predicate ConfirmsGrant(c: Core, acts: seq<Act>, i: nat, n: nat, k: int)
    requires i < |acts| && n < |acts|
  {
    && ConfirmsAt(c, acts, n, k)
    && After(c, acts[..n]).leases.bySeat[k].id == After(c, acts[..i]).leases.nextId
  }

  /** In every run, a seat that was available and is now reserved was booked by
      an act of the run for the owner it has, and later confirmed under the
      very lease that booking was granted, unexpired, with nothing freeing it
      in between or since. */
  lemma {:induction false} ReservedWasGrantedAndConfirmed(c: Core, acts: seq<Act>, k: int)
    requires Inv(c) && HasRow(c, k, Available) && HasRow(After(c, acts), k, Reserved)
    ensures exists i: nat, n: nat :: i < n < |acts| && GrantedBy(c, acts, i, k) && ConfirmsGrant(c, acts, i, n, k)
  {
    hide Inv, Do, Enabled, Frees, GrantedBy, ConfirmsAt;
    if acts != [] {
      var init, a := acts[..|acts| - 1], acts[|acts| - 1];
      var before := After(c, init);
      InvAlways(c, init);
      SeatsOfTheHall(c, k);
      SeatsOfTheHall(before, k);
      if HasRow(before, k, Reserved) {
        ReservedWasGrantedAndConfirmed(c, init, k);
        var i: nat, n: nat :| i < n < |init| && GrantedBy(c, init, i, k) && ConfirmsGrant(c, init, i, n, k);
        GrantStands(c, acts, i, k);
        ConfirmRemains(c, acts, i, n, k);
      } else {
        assert !a.Resetting? by { NotReset(before, a, k); }
        ReservationStep(before, a, k);
        assert Taken(before, k) by { if !Taken(before, k) { BookedNow(before, a, k); } }
        TakenWasGranted(c, init, k);
        var i: nat :| i < |init| && GrantedBy(c, init, i, k);
        GrantStands(c, acts, i, k);
        LastConfirms(c, acts, i, k);
      }
    }
  }

  lemma NotReset(c: Core, a: Act, k: int)
    requires Inv(c) && Taken(Do(c, a), k)
    ensures !a.Resetting?
  {
    hide Inv, Do;
    InvHasPrimary(c);
    if a.Resetting? {
      ResetFreesAll(c, k);
      ResetHappens(c);
    }
  }

  lemma ConfirmRemains(c: Core, acts: seq<Act>, i: nat, n: nat, k: int)
    requires i < n < |acts| - 1 && ConfirmsGrant(c, acts[..|acts| - 1], i, n, k)
    ensures ConfirmsGrant(c, acts, i, n, k)
  {
    hide After;
    var init := acts[..|acts| - 1];
    assert init[..i] == acts[..i] && init[..n] == acts[..n];
  }

  lemma LastConfirms(c: Core, acts: seq<Act>, i: nat, k: int)
    requires Inv(c) && i < |acts| - 1 && GrantedBy(c, acts[..|acts| - 1], i, k)
    requires var before := After(c, acts[..|acts| - 1]);
             && Taken(before, k) && !HasRow(before, k, Reserved) && HasRow(Do(before, acts[|acts| - 1]), k, Reserved)
    ensures ConfirmsGrant(c, acts, i, |acts| - 1, k)
  {
    hide Inv, Do, Enabled, FreedAt, BooksAt;
    var init, a := acts[..|acts| - 1], acts[|acts| - 1];
    var before := After(c, init);
    InvAlways(c, init);
    NotReset(before, a, k);
    ReservationStep(before, a, k);
    assert init[..i] == acts[..i];
    IdMeansLocked(before, k);
  }

  lemma IdMeansLocked(c: Core, k: int)
    requires Inv(c) && k in c.seats && c.seats[k].leaseId.Some?
    ensures HasRow(c, k, Locked)
  {
    hide Filled, PrimaryTracks;
  }

  // ---------------------------------------------------------------------
  // A lapsed lease stays lapsed
  // ---------------------------------------------------------------------

  /** Every clock reading of the step is at or after `t`. */
  ghost predicate NotBefore(a: Act, t: real) {
    match a
    case Sweeping(now) => t <= now
    case Locking(_, _, _, sweepAt, grantAt) => t <= sweepAt <= grantAt
    case Confirming(_, now) => t <= now
    case Renewing(_, sweepAt, renewAt) => t <= sweepAt <= renewAt
    case _ => true
  }

  /** Lease `id` was handed out and has lapsed, been released or been swept by time `t`. */
  ghost predicate Dead(c: Core, id: nat, t: real) {
    id < c.leases.nextId && (id in c.leases.byId ==> c.leases.byId[id].expiresAt <= t)
  }

  /** A locked seat past its expiry, or an orphan, holds a dead lease. */
  lemma LapsedIsDead(c: Core, k: int, t: real)
    requires Inv(c) && HasRow(c, k, Locked) && (c.seats[k].expiresAt <= t || k !in c.leases.bySeat)
    ensures c.seats[k].leaseId.Some? && Dead(c, c.seats[k].leaseId.value, t)
  {
    hide Filled, PrimaryTracks;
  }

  lemma DeadStays(c: Core, a: Act, id: nat, t: real)
    requires Inv(c) && Dead(c, id, t) && NotBefore(a, t)
    ensures Dead(Do(c, a), id, t)
  {
    hide Filled, PrimaryTracks, Broadcast, Peers, Update, Apply, CatchUp, FreshSeats, FreshStores;
  }

  /** Once a lease has lapsed no later confirm succeeds with it, whatever is
      done in between, renewals included. */
  lemma LapsedNeverConfirmed(c: Core, acts: seq<Act>, id: nat, t: real, k: int, now: real)
    requires Inv(c) && Dead(c, id, t) && t <= now
    requires forall a :: a in acts ==> NotBefore(a, t)
    ensures Inv(After(c, acts)) && Dead(After(c, acts), id, t)
    ensures var d := After(c, acts);
            k in d.seats && d.seats[k].leaseId == Some(id) ==> !Confirm(d, k, now).1
  {
    InvAlways(c, acts);
    DeadAlways(c, acts, id, t);
    ConfirmsExactlyWhenLeased(After(c, acts), k, now);
  }

  lemma {:induction false} DeadAlways(c: Core, acts: seq<Act>, id: nat, t: real)
    requires Inv(c) && Dead(c, id, t)
    requires forall a :: a in acts ==> NotBefore(a, t)
    ensures Dead(After(c, acts), id, t)
  {
    hide Inv, Do, Dead;
    if acts != [] {
      var init := acts[..|acts| - 1];
      assert forall a :: a in init ==> a in acts;
      DeadAlways(c, init, id, t);
      InvAlways(c, init);
      assert acts[|acts| - 1] in acts;
      DeadStays(After(c, init), acts[|acts| - 1], id, t);
    }
  }

  // ---------------------------------------------------------------------
  // A lease that has not run out can be confirmed
  // ---------------------------------------------------------------------

  /** Seat `k` is locked under a lease in the table that runs until `t` at least. */
  ghost predicate HeldUntil(c: Core, k: int, t: real) {
    HasRow(c, k, Locked) && k in c.leases.bySeat && c.leases.bySeat[k].expiresAt >= t
  }

  /** Every sweep of the act reads before `t`, no renewal of `k` ends before
      `t`, and it is no cancel or confirm of `k` and no reset. */
  ghost predicate SparesUntil(a: Act, k: int, t: real) {
    match a
    case Sweeping(now) => now < t
    case Locking(_, _, _, sweepAt, _) => sweepAt < t
    case Confirming(seat, now) => seat != k && now < t
    case Cancelling(seat) => seat != k
    case Renewing(seat, sweepAt, renewAt) => sweepAt < t && (seat == k ==> renewAt + L.DEFAULT_TTL >= t)
    case Resetting => false
    case _ => true
  }

  ghost predicate SameHold(c: Core, d: Core, k: int, t: real) {
    && HeldUntil(c, k, t) && HeldUntil(d, k, t)
    && d.seats[k].owner == c.seats[k].owner && d.seats[k].leaseId == c.seats[k].leaseId
  }

  lemma LockKeepsHold(c: Core, a: Act, k: int, t: real)
    requires Inv(c) && HeldUntil(c, k, t) && a.Locking? && Enabled(c, a) && SparesUntil(a, k, t)
    ensures SameHold(c, Do(c, a), k, t)
  {
    hide Filled, PrimaryTracks, Broadcast, Peers, Update;
    LockKeepsInv(c, a.seat, a.owner, a.server, a.sweepAt, a.grantAt);
  }

  lemma RefusedConfirm(c: Core, seat: int, now: real)
    requires PRIMARY in c.stores && !Confirm(c, seat, now).1
    ensures var d := Confirm(c, seat, now).0;
            d.seats == c.seats && (d.leases == c.leases || d.leases == L.Sweep(c.leases, now))
  {
    hide L.Sweep, L.Release, WritePrimary;
  }

  lemma ConfirmKeepsHold(c: Core, seat: int, now: real, k: int, t: real)
    requires Inv(c) && HeldUntil(c, k, t) && seat != k && now < t
    ensures PRIMARY in c.stores && SameHold(c, Confirm(c, seat, now).0, k, t)
  {
    hide Inv, Confirm;
    InvHasPrimary(c);
    if Confirm(c, seat, now).1 { ConfirmReserves(c, seat, now); } else { RefusedConfirm(c, seat, now); }
  }

  lemma TableActKeepsHold(c: Core, a: Act, k: int, t: real)
    requires Inv(c) && HeldUntil(c, k, t) && SparesUntil(a, k, t) && (a.Sweeping? || a.Cancelling? || a.Renewing?)
    ensures SameHold(c, Do(c, a), k, t)
  {
    hide Filled, PrimaryTracks;
  }

  lemma ReplicaActKeepsHold(c: Core, a: Act, k: int, t: real)
    requires HeldUntil(c, k, t) && (a.Delivering? || a.Recovering?)
    ensures SameHold(c, Do(c, a), k, t)
  {
    hide Apply, CatchUp;
  }

  lemma HoldStays(c: Core, a: Act, k: int, t: real)
    requires Inv(c) && HeldUntil(c, k, t) && SparesUntil(a, k, t)
    ensures SameHold(c, Do(c, a), k, t)
  {
    hide Inv, Do, Enabled, HeldUntil, Confirm;
    if !Enabled(c, a) {
      DisabledDoesNothing(c, a);
      assert k in c.seats by { HeldIsSeat(c, k, t); }
    } else if a.Locking? {
      LockKeepsHold(c, a, k, t);
    } else if a.Confirming? {
      ConfirmKeepsHold(c, a.seat, a.now, k, t);
      ConfirmHappens(c, a.seat, a.now);
    } else if a.Delivering? || a.Recovering? {
      ReplicaActKeepsHold(c, a, k, t);
    } else {
      TableActKeepsHold(c, a, k, t);
    }
  }

  lemma HeldIsSeat(c: Core, k: int, t: real)
    requires HeldUntil(c, k, t)
    ensures k in c.seats
  {
  }

  lemma {:induction false} HoldStaysAlong(c: Core, acts: seq<Act>, k: int, t: real)
    requires Inv(c) && HeldUntil(c, k, t) && forall a :: a in acts ==> SparesUntil(a, k, t)
    ensures SameHold(c, After(c, acts), k, t)
  {
    hide Inv, Do, HeldUntil, SparesUntil;
    assert k in c.seats by { HeldIsSeat(c, k, t); }
    if acts != [] {
      var init := acts[..|acts| - 1];
      assert forall a :: a in init ==> a in acts;
      HoldStaysAlong(c, init, k, t);
      InvAlways(c, init);
      assert acts[|acts| - 1] in acts;
      HoldStays(After(c, init), acts[|acts| - 1], k, t);
    }
  }

  /** Until its lease runs out a held seat can be confirmed, for the owner and
      under the lease it was held with, whatever happens to other seats,
      leases, stores and servers in between. */
  lemma HeldCanBeConfirmed(c: Core, acts: seq<Act>, k: int, t: real, now: real)
    requires Inv(c) && HeldUntil(c, k, t) && now < t
    requires forall a :: a in acts ==> SparesUntil(a, k, t)
    ensures var d := After(c, acts);
            && SameHold(c, d, k, t)
            && PRIMARY in d.stores && Confirm(d, k, now).1
            && HasRow(Confirm(d, k, now).0, k, Reserved)
            && Confirm(d, k, now).0.seats[k].owner == c.seats[k].owner
  {
    hide Inv, After, Confirm, SparesUntil;
    HoldStaysAlong(c, acts, k, t);
    InvAlways(c, acts);
    var d := After(c, acts);
    InvHasPrimary(d);
    ConfirmsExactlyWhenLeased(d, k, now);
    ConfirmedRow(d, k, now);
  }

  // ---------------------------------------------------------------------
  // Locks whose lease is gone
  // ---------------------------------------------------------------------

  /** A seat still locked although its lease is no longer in the table. */
  ghost predicate Orphan(c: Core, k: int) {
    HasRow(c, k, Locked) && k !in c.leases.bySeat
  }

  /** The sweep returns a locked seat exactly when its lease is still in the
      table and has expired; an orphan is past helping. */
  lemma SweepFreesExactly(c: Core, k: int, now: real)
    requires Inv(c) && HasRow(c, k, Locked)
    ensures HasRow(SweepSeats(c, now), k, Available) <==> !Orphan(c, k) && c.seats[k].expiresAt <= now
    ensures !HasRow(SweepSeats(c, now), k, Available) ==> SweepSeats(c, now).seats[k] == c.seats[k]
  {
  }

  /** The sweep hidden in a lease operation: it removes leases and tells nobody. */
  ghost predicate SilentlySweptBy(c: Core, a: Act, expiry: real) {
    match a
    case Locking(_, _, _, sweepAt, _) => Enabled(c, a) && expiry <= sweepAt
    case Confirming(seat, now) => HasRow(c, seat, Locked) && expiry <= now
    case Renewing(seat, sweepAt, _) => HasRow(c, seat, Locked) && expiry <= sweepAt
    case _ => false
  }

  lemma LockingOrphans(c: Core, a: Act, k: int)
    requires Inv(c) && HasRow(c, k, Locked) && !Orphan(c, k) && a.Locking? && Enabled(c, a)
    ensures Orphan(Do(c, a), k) <==> SilentlySweptBy(c, a, c.seats[k].expiresAt)
  {
    hide Filled, PrimaryTracks, Broadcast, Peers, Update;
    LockKeepsInv(c, a.seat, a.owner, a.server, a.sweepAt, a.grantAt);
  }

  lemma ConfirmingOrphans(c: Core, seat: int, now: real, k: int)
    requires Inv(c) && HasRow(c, k, Locked) && !Orphan(c, k) && PRIMARY in c.stores
    ensures Orphan(Do(c, Confirming(seat, now)), k) <==> SilentlySweptBy(c, Confirming(seat, now), c.seats[k].expiresAt)
  {
    hide Filled, PrimaryTracks, Broadcast, Peers, Update;
    ConfirmsExactlyWhenLeased(c, seat, now);
    if Confirm(c, seat, now).1 { ConfirmReserves(c, seat, now); }
  }

  lemma RenewingOrphans(c: Core, a: Act, k: int)
    requires Inv(c) && HasRow(c, k, Locked) && !Orphan(c, k) && a.Renewing? && PRIMARY in c.stores
    ensures Orphan(Do(c, a), k) <==> SilentlySweptBy(c, a, c.seats[k].expiresAt)
  {
    hide Filled, PrimaryTracks;
  }

  /** A step orphans a leased seat exactly when a lease operation's own sweep
      catches its expired lease, before the dashboard's sweep does. */
  lemma OrphanedExactlyBySilentSweep(c: Core, a: Act, k: int)
    requires Inv(c) && HasRow(c, k, Locked) && !Orphan(c, k)
    ensures Orphan(Do(c, a), k) <==> SilentlySweptBy(c, a, c.seats[k].expiresAt)
  {
    assert PRIMARY in c.stores;
    if !Enabled(c, a) {
    } else if a.Locking? {
      LockingOrphans(c, a, k);
    } else if a.Confirming? {
      ConfirmingOrphans(c, a.seat, a.now, k);
    } else if a.Renewing? {
      RenewingOrphans(c, a, k);
    } else {
      hide Filled, PrimaryTracks, Apply, CatchUp, FreshStores, FreshSeats;
      FreshSeatsAreFree(SEAT_COUNT);
    }
  }

  /** An orphan stays locked under every step but its own cancel or a reset. */
  lemma OrphanStays(c: Core, a: Act, k: int)
    requires Inv(c) && Orphan(c, k) && !a.Resetting? && a != Cancelling(k)
    ensures Orphan(Do(c, a), k) && Do(c, a).seats[k] == c.seats[k]
  {
    hide Filled, PrimaryTracks, Broadcast, Peers, Update, Apply, CatchUp, FreshSeats, FreshStores;
  }

  lemma {:induction false} OrphanForGood(c: Core, acts: seq<Act>, k: int)
    requires Inv(c) && Orphan(c, k)
    requires forall a :: a in acts ==> !a.Resetting? && a != Cancelling(k)
    ensures Orphan(After(c, acts), k) && After(c, acts).seats[k] == c.seats[k]
  {
    hide Inv, Do, Orphan;
    if acts != [] {
      var init := acts[..|acts| - 1];
      assert forall a :: a in init ==> a in acts;
      OrphanForGood(c, init, k);
      InvAlways(c, init);
      assert acts[|acts| - 1] in acts;
      OrphanStays(After(c, init), acts[|acts| - 1], k);
    }
  }

  /** Whatever is booked: a renewal that comes 30 seconds after the grant, with
      no sweep in between, turns the lock into an orphan that no later sweep,
      at any time, returns. */
  lemma LateRenewalOrphans(c: Core, lock: Act, renewal: Act, sweeps: seq<Act>)
    requires Inv(c) && lock.Locking? && Enabled(c, lock)
    requires renewal.Renewing? && renewal.seat == lock.seat && renewal.sweepAt >= lock.grantAt + 30.0
    requires forall a :: a in sweeps ==> a.Sweeping?
    ensures HasRow(After(Do(Do(c, lock), renewal), sweeps), lock.seat, Locked)
  {
    hide Inv, Lock, Renew, Confirm, SweepSeats;
    var locked := Do(c, lock);
    LockedRow(c, lock.seat, lock.owner, lock.server, lock.sweepAt, lock.grantAt);
    DoKeepsInv(c, lock);
    OrphanedExactlyBySilentSweep(locked, renewal, lock.seat);
    DoKeepsInv(locked, renewal);
    OrphanForGood(Do(locked, renewal), sweeps, lock.seat);
  }

  /** A lock leaves the seat with its own new lease, for the owner, on the server,
      running 30 seconds from the grant, and every other row as it was. */
  lemma LockedRow(c: Core, seat: int, owner: string, server: string, sweepAt: real, grantAt: real)
    requires Inv(c) && Enabled(c, Locking(seat, owner, server, sweepAt, grantAt))
    ensures var d := Lock(c, seat, owner, server, sweepAt, grantAt).0;
            && d.seats == c.seats[seat := Seat(Locked, owner, Some(c.leases.nextId), grantAt + 30.0, server)]
            && seat in d.leases.bySeat
            && d.leases.bySeat[seat] == L.Lease(c.leases.nextId, seat, server, owner, grantAt + 30.0)
  {
    hide Filled, PrimaryTracks, Broadcast, Peers, Update;
    LockKeepsInv(c, seat, owner, server, sweepAt, grantAt);
  }
}
