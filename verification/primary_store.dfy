/** When the primary store shows what the seat table holds, and when not:
    cancelling and expiry change the table and do not write the store. */
module PrimaryStore {
  import opened Metrics
  import opened Synchronization
  import opened Booking
  import opened Replication
  import opened SeatSafety
  import L = LeaseManagers

  /** Primary and seat table agree on seat `k`, in state and owner. */
  ghost predicate Shows(c: Core, k: int) {
    && PRIMARY in c.stores && k in c.seats && k in c.stores[PRIMARY].seats
    && c.stores[PRIMARY].seats[k].mode == c.seats[k].mode
    && c.stores[PRIMARY].seats[k].owner == c.seats[k].owner
  }

  // ---------------------------------------------------------------------
  // What each act writes
  // ---------------------------------------------------------------------

  /** A write to the primary store of one new version, sent to every peer. */
  ghost predicate Wrote(c: Core, d: Core, seat: int, mode: SeatMode, owner: string) {
    && PRIMARY in c.stores && PRIMARY in d.stores
    && var v := SeatState(seat, mode, owner, c.stores[PRIMARY].clock + 1);
       && d.stores[PRIMARY] == Store(c.stores[PRIMARY].seats[seat := v], v.version)
       && d.timers == Broadcast(c.timers, Peers(), v)
  }

  lemma WriteWrites(c: Core, d: Core, seat: int, mode: SeatMode, owner: string)
    requires Filled(d) && IsSeat(seat) && d.stores == c.stores && d.timers == c.timers
    ensures Wrote(c, WritePrimary(d, seat, mode, owner), seat, mode, owner)
    ensures WritePrimary(d, seat, mode, owner).seats == d.seats
  {
    hide SERVER_IDS, Sane, Sendable, Peers, Broadcast;
    PrimaryIsServer();
    assert Hall(d.stores[PRIMARY]);
  }

  lemma LockWrites(c: Core, seat: int, owner: string, server: string, sweepAt: real, grantAt: real)
    requires Inv(c) && Enabled(c, Locking(seat, owner, server, sweepAt, grantAt))
    ensures Wrote(c, Lock(c, seat, owner, server, sweepAt, grantAt).0, seat, Locked, owner)
  {
    hide SERVER_IDS, L.Acquire, WritePrimary, Leased, Hall, Sane, Sendable, PrimaryTracks, Wrote;
    LockLeased(c.seats, c.leases, seat, owner, server, sweepAt, grantAt);
    var (t, l) := L.Acquire(c.leases, seat, server, owner, LEASE_SECONDS, sweepAt, grantAt);
    var row := Seat(Locked, owner, Some(l.value.id), l.value.expiresAt, server);
    WriteWrites(c, c.(leases := t, seats := c.seats[seat := row], granted := c.granted + 1), seat, Locked, owner);
  }

  lemma ConfirmWrites(c: Core, seat: int, now: real)
    requires Inv(c)
    ensures PRIMARY in c.stores
    ensures var (d, ok) := Confirm(c, seat, now);
            && (ok ==> seat in c.seats && Wrote(c, d, seat, Reserved, c.seats[seat].owner))
            && (!ok ==> d.stores == c.stores && d.timers == c.timers)
  {
    hide SERVER_IDS, L.Sweep, L.Release, WritePrimary, Leased, Hall, Sane, Sendable, PrimaryTracks, Wrote;
    PrimaryIsServer();
    if Confirm(c, seat, now).1 {
      var row := c.seats[seat];
      var t := L.Validate(c.leases, row.leaseId, Some(seat), now).0;
      var reserved := row.(mode := Reserved, leaseId := None, expiresAt := 0.0);
      var d := c.(leases := L.Release(t, row.leaseId), seats := c.seats[seat := reserved]);
      WriteWrites(c, d, seat, Reserved, row.owner);
    }
  }

  /** The version of seat `k` that the primary holds is the one it held. */
  ghost predicate PrimaryKept(c: Core, d: Core, k: int) {
    && PRIMARY in c.stores && PRIMARY in d.stores
    && k in c.stores[PRIMARY].seats && k in d.stores[PRIMARY].seats
    && d.stores[PRIMARY].seats[k] == c.stores[PRIMARY].seats[k]
  }

  lemma PrimaryListsSeats(c: Core, k: int)
    requires Inv(c) && k in c.seats
    ensures PRIMARY in c.stores && k in c.stores[PRIMARY].seats && IsSeat(k)
  {
    hide Leased, Filed, Sane;
  }

  /** Act `a` gives seat `k` a new version on the primary. */
  ghost predicate Writes(c: Core, a: Act, k: int) {
    && Enabled(c, a)
    && match a
       case Locking(seat, _, _, _, _) => seat == k
       case Confirming(seat, now) => seat == k && Confirm(c, k, now).1
       case _ => false
  }

  lemma LockKeepsOthers(c: Core, a: Act, k: int)
    requires Inv(c) && k in c.seats && a.Locking? && Enabled(c, a) && a.seat != k
    ensures PrimaryKept(c, Do(c, a), k)
  {
    hide Inv, Lock, Broadcast;
    PrimaryListsSeats(c, k);
    LockWrites(c, a.seat, a.owner, a.server, a.sweepAt, a.grantAt);
  }

  lemma ConfirmKeepsOthers(c: Core, a: Act, k: int)
    requires Inv(c) && k in c.seats && a.Confirming? && !Writes(c, a, k)
    ensures PrimaryKept(c, Do(c, a), k)
  {
    hide Inv, Confirm, Broadcast;
    PrimaryListsSeats(c, k);
    ConfirmWrites(c, a.seat, a.now);
  }

  lemma DeliverKeepsPrimary(c: Core, a: Act, k: int)
    requires Inv(c) && k in c.seats && (a.Delivering? || a.Recovering?)
    ensures PrimaryKept(c, Do(c, a), k)
  {
    PrimaryListsSeats(c, k);
    hide Leased, PrimaryTracks, Hall, Sane, Apply, CatchUp;
    if a.Delivering? && Enabled(c, a) { assert Sendable(a.message); }
  }

  lemma TableActKeepsPrimary(c: Core, a: Act, k: int)
    requires Inv(c) && k in c.seats && (a.Sweeping? || a.Cancelling? || a.Renewing?)
    ensures PrimaryKept(c, Do(c, a), k)
  {
    hide Inv, L.Sweep, L.Release, L.Renew;
    PrimaryListsSeats(c, k);
  }

  /** The primary takes a new version of a seat only when that seat is locked
      or confirmed. */
  lemma PrimaryKeptUnlessWritten(c: Core, a: Act, k: int)
    requires Inv(c) && k in c.seats && !a.Resetting? && !Writes(c, a, k)
    ensures PrimaryKept(c, Do(c, a), k)
  {
    hide Inv, Do, Enabled, Confirm;
    PrimaryListsSeats(c, k);
    if !Enabled(c, a) {
      DisabledDoesNothing(c, a);
    } else {
      match a
      case Locking(_, _, _, _, _) => LockKeepsOthers(c, a, k);
      case Confirming(_, _) => ConfirmKeepsOthers(c, a, k);
      case Delivering(_) => DeliverKeepsPrimary(c, a, k);
      case Recovering(_) => DeliverKeepsPrimary(c, a, k);
      case _ => TableActKeepsPrimary(c, a, k);
    }
  }

  // ---------------------------------------------------------------------
  // When they part, step by step
  // ---------------------------------------------------------------------

  lemma TakenIsShown(c: Core, k: int)
    requires Inv(c) && Taken(c, k)
    ensures Shows(c, k)
  {
  }

  /** Of an available seat only its own lock writes a new version. */
  lemma AvailableNotWritten(c: Core, a: Act, k: int)
    requires Inv(c) && HasRow(c, k, Available) && !(a.Locking? && a.seat == k)
    ensures !Writes(c, a, k)
  {
    hide Inv, Do, Confirm;
    if a.Confirming? { ConfirmSparesAvailable(c, a, k); }
  }

  lemma ResetShows(c: Core, k: int)
    requires Inv(c) && k in c.seats
    ensures Shows(Reset(c), k)
  {
    hide Leased, PrimaryTracks, FreshSeats, Initialize;
    FreshSeatsAreFree(SEAT_COUNT);
    InitialStore(SEAT_COUNT);
    PrimaryIsServer();
  }

  lemma FreeingParts(c: Core, a: Act, k: int)
    requires Inv(c) && Frees(c, a, k)
    ensures !Shows(Do(c, a), k)
  {
    hide Inv, Do;
    TakenIsShown(c, k);
    FreedExactly(c, a, k);
    PrimaryKeptUnlessWritten(c, a, k);
  }

  /** The primary and the seat table part over a seat exactly when a step
      frees it: its own cancel while it is locked, or a sweep that finds its
      lease in the table and expired. */
  lemma PartsExactlyWhenFreed(c: Core, a: Act, k: int)
    requires Inv(c) && Shows(c, k)
    ensures Shows(Do(c, a), k) <==> !Frees(c, a, k)
  {
    hide Inv, Do, Reset, Frees, Writes;
    DoKeepsInv(c, a);
    if Frees(c, a, k) {
      FreeingParts(c, a, k);
    } else if a.Resetting? {
      ResetShows(c, k);
      ResetHappens(c);
    } else if Taken(c, k) {
      FreedExactly(c, a, k);
      TakenIsShown(Do(c, a), k);
    } else if a.Locking? && a.seat == k {
      LockTakes(c, a);
      TakenIsShown(Do(c, a), k);
    } else {
      AvailableRowStays(c, a, k);
      AvailableNotWritten(c, a, k);
      PrimaryKeptUnlessWritten(c, a, k);
    }
  }

  /** And they agree again exactly when the seat is locked anew, or on a reset. */
  lemma MeetsExactlyWhenLocked(c: Core, a: Act, k: int)
    requires Inv(c) && k in c.seats && !Shows(c, k)
    ensures Shows(Do(c, a), k) <==> a.Resetting? || (a.Locking? && a.seat == k)
  {
    hide Inv, Do, Reset, Writes;
    DoKeepsInv(c, a);
    InvHasPrimary(c);
    if Taken(c, k) { TakenIsShown(c, k); }
    if a.Resetting? {
      ResetShows(c, k);
      ResetHappens(c);
    } else if a.Locking? && a.seat == k {
      LockTakes(c, a);
      TakenIsShown(Do(c, a), k);
    } else {
      AvailableRowStays(c, a, k);
      AvailableNotWritten(c, a, k);
      PrimaryKeptUnlessWritten(c, a, k);
      PrimaryListsSeats(c, k);
    }
  }

  // ---------------------------------------------------------------------
  // When they differ, in any state of any run
  // ---------------------------------------------------------------------

  /** Initial versions are available and unowned, later ones locks and reservations. */
  ghost predicate PlainVersion(v: SeatState) {
    if v.version <= SEAT_COUNT then v.mode.Available? && v.owner == "" else v.mode.Locked? || v.mode.Reserved?
  }

  /** Available rows are blank, and the primary's versions are plain. */
  ghost predicate Plain(c: Core) {
    && PRIMARY in c.stores
    && (forall k :: HasRow(c, k, Available) ==> c.seats[k] == FREE)
    && (forall k :: k in c.stores[PRIMARY].seats ==> PlainVersion(c.stores[PRIMARY].seats[k]))
  }

  lemma FreedBlank(c: Core, a: Act, k: int)
    requires Inv(c) && Frees(c, a, k)
    ensures k in Do(c, a).seats && Do(c, a).seats[k] == FREE
  {
    InvHasPrimary(c);
    hide Inv, L.Sweep, L.Release;
  }

  /** Rows that are available after a step were so before, or have just been freed. */
  lemma BlankStays(c: Core, a: Act, k: int)
    requires Inv(c) && Plain(c) && k in c.seats && !a.Resetting? && HasRow(Do(c, a), k, Available)
    ensures Do(c, a).seats[k] == FREE
  {
    hide Inv, Do, Frees, Writes;
    if Taken(c, k) {
      FreedExactly(c, a, k);
      FreedBlank(c, a, k);
    } else if a.Locking? && a.seat == k {
      LockTakes(c, a);
    } else {
      AvailableRowStays(c, a, k);
      AvailableNotWritten(c, a, k);
    }
  }

  lemma WrittenIsPlain(c: Core, a: Act, k: int)
    requires Inv(c) && Writes(c, a, k)
    ensures PRIMARY in Do(c, a).stores && k in Do(c, a).stores[PRIMARY].seats
    ensures PlainVersion(Do(c, a).stores[PRIMARY].seats[k])
  {
    hide Leased, PrimaryTracks, Hall, Sane, Sendable, Lock, Confirm, Broadcast, SERVER_IDS;
    if a.Locking? {
      LockWrites(c, a.seat, a.owner, a.server, a.sweepAt, a.grantAt);
    } else {
      ConfirmWrites(c, a.seat, a.now);
    }
  }

  lemma VersionStaysPlain(c: Core, a: Act, k: int)
    requires Inv(c) && Plain(c) && k in c.seats && !a.Resetting?
    ensures PRIMARY in Do(c, a).stores && k in Do(c, a).stores[PRIMARY].seats
    ensures PlainVersion(Do(c, a).stores[PRIMARY].seats[k])
  {
    hide Inv, Do, Writes, PlainVersion;
    if Writes(c, a, k) { WrittenIsPlain(c, a, k); } else { PrimaryKeptUnlessWritten(c, a, k); }
  }

  lemma FreshPlain(nextId: nat, timers: multiset<Message>)
    ensures Plain(FreshCore(nextId, timers))
  {
    hide FreshSeats, Initialize;
    FreshSeatsAreFree(SEAT_COUNT);
    InitialStore(SEAT_COUNT);
    PrimaryIsServer();
  }

  lemma DoKeepsPlain(c: Core, a: Act)
    requires Inv(c) && Plain(c)
    ensures Plain(Do(c, a))
  {
    hide Inv, Do, FreshCore, PlainVersion, IsSeat;
    DoKeepsInv(c, a);
    var d := Do(c, a);
    InvHasPrimary(d);
    if a.Resetting? {
      ResetHappens(c);
      FreshPlain(c.leases.nextId, c.timers);
    } else {
      forall k | HasRow(d, k, Available)
        ensures d.seats[k] == FREE
      {
        SeatsOfTheHall(c, k);
        SeatsOfTheHall(d, k);
        BlankStays(c, a, k);
      }
      forall k | k in d.stores[PRIMARY].seats
        ensures PlainVersion(d.stores[PRIMARY].seats[k])
      {
        SeatsOfTheHall(c, k);
        SeatsOfTheHall(d, k);
        VersionStaysPlain(c, a, k);
      }
    }
  }

  lemma {:induction false} PlainAlways(c: Core, acts: seq<Act>)
    requires Inv(c) && Plain(c)
    ensures Inv(After(c, acts)) && Plain(After(c, acts))
  {
    hide Inv, Do, Plain;
    if acts != [] {
      PlainAlways(c, acts[..|acts| - 1]);
      DoKeepsInv(After(c, acts[..|acts| - 1]), acts[|acts| - 1]);
      DoKeepsPlain(After(c, acts[..|acts| - 1]), acts[|acts| - 1]);
    }
  }

  /** In every run, resets included: the primary differs from the seat table
      over a seat exactly when the seat is available and was written since the
      last reset. */
  lemma DiffersExactlyWhenFreeAndWritten(nextId: nat, timers: multiset<Message>, acts: seq<Act>, k: int)
    requires IsSeat(k) && forall m :: m in timers ==> Sendable(m)
    ensures var c := After(FreshCore(nextId, timers), acts);
            && PRIMARY in c.stores && k in c.seats && k in c.stores[PRIMARY].seats
            && (!Shows(c, k) <==> c.seats[k].mode.Available? && c.stores[PRIMARY].seats[k].version > SEAT_COUNT)
  {
    hide Inv, FreshCore, After;
    FreshInv(nextId, timers);
    FreshPlain(nextId, timers);
    PlainAlways(FreshCore(nextId, timers), acts);
    var c := After(FreshCore(nextId, timers), acts);
    SeatsOfTheHall(c, k);
    if Taken(c, k) { TakenIsShown(c, k); }
  }

  /** It happens: whatever seat is locked and cancelled, the primary still shows the lock. */
  lemma CancelledLockStillShown(c: Core, lock: Act)
    requires Inv(c) && lock.Locking? && Enabled(c, lock)
    ensures var d := Do(Do(c, lock), Cancelling(lock.seat));
            && HasRow(d, lock.seat, Available) && PRIMARY in d.stores && lock.seat in d.stores[PRIMARY].seats
            && d.stores[PRIMARY].seats[lock.seat].mode.Locked?
            && d.stores[PRIMARY].seats[lock.seat].owner == lock.owner
  {
    hide Inv, Lock, Cancel, Broadcast;
    var locked := Do(c, lock);
    DoKeepsInv(c, lock);
    LockedRow(c, lock.seat, lock.owner, lock.server, lock.sweepAt, lock.grantAt);
    LockWrites(c, lock.seat, lock.owner, lock.server, lock.sweepAt, lock.grantAt);
    InvHasPrimary(locked);
    CancelFrees(locked, lock.seat);
  }

  // ---------------------------------------------------------------------
  // How a reset comes to plant a reservation
  // ---------------------------------------------------------------------

  /** A successful confirm puts the reservation in flight to every peer. */
  lemma ConfirmSends(c: Core, seat: int, now: real, id: string)
    requires Inv(c) && Confirm(c, seat, now).1 && IsPeer(id)
    ensures PRIMARY in c.stores && seat in c.seats
    ensures Message(id, SeatState(seat, Reserved, c.seats[seat].owner, c.stores[PRIMARY].clock + 1))
         in Confirm(c, seat, now).0.timers
  {
    hide Inv, Confirm, Broadcast, Peers, IsPeer;
    ConfirmWrites(c, seat, now);
    var m := Message(id, SeatState(seat, Reserved, c.seats[seat].owner, c.stores[PRIMARY].clock + 1));
    PeersOfPrimary(id);
    BroadcastMembers(c.timers, Peers(), m.update, m);
  }

  lemma LockThenConfirm(c: Core, lock: Act, now: real)
    requires Inv(c) && lock.Locking? && Enabled(c, lock) && now < lock.grantAt + LEASE_SECONDS
    ensures var locked := Do(c, lock);
            && Inv(locked) && Confirm(locked, lock.seat, now).1
            && PRIMARY in c.stores && PRIMARY in locked.stores
            && locked.stores[PRIMARY].clock == c.stores[PRIMARY].clock + 1
            && lock.seat in locked.seats && locked.seats[lock.seat].owner == lock.owner
  {
    hide Inv, Lock, Confirm, Broadcast;
    DoKeepsInv(c, lock);
    LockedRow(c, lock.seat, lock.owner, lock.server, lock.sweepAt, lock.grantAt);
    LockWrites(c, lock.seat, lock.owner, lock.server, lock.sweepAt, lock.grantAt);
    ConfirmsExactlyWhenLeased(Do(c, lock), lock.seat, now);
  }

  /** It takes four acts from any state with a free seat: lock it, confirm it
      in time, reset, and let the timer fire; then a replica shows a
      reservation that the seat table has not. */
  lemma ResetPlantsReservation(c: Core, lock: Act, now: real, id: string)
    requires Inv(c) && lock.Locking? && Enabled(c, lock) && now < lock.grantAt + LEASE_SECONDS && IsPeer(id)
    ensures PRIMARY in c.stores
    ensures var m := Message(id, SeatState(lock.seat, Reserved, lock.owner, c.stores[PRIMARY].clock + 2));
            !StoresBacked(After(c, [lock, Confirming(lock.seat, now), Resetting, Delivering(m)]))
  {
    hide Inv, Do, Confirm, StoresBacked, IsPeer, Reset;
    LockThenConfirm(c, lock, now);
    var locked := Do(c, lock);
    var confirm := Confirming(lock.seat, now);
    var confirmed := Do(locked, confirm);
    assert confirmed == Confirm(locked, lock.seat, now).0 by { ConfirmHappens(locked, lock.seat, now); }
    ConfirmSends(locked, lock.seat, now, id);
    DoKeepsInv(locked, confirm);
    InvHasPrimary(confirmed);
    ResetHappens(confirmed);
    var m := Message(id, SeatState(lock.seat, Reserved, lock.owner, c.stores[PRIMARY].clock + 2));
    StaleReservationPlanted(confirmed, m);
    var acts := [lock, confirm, Resetting, Delivering(m)];
    assert After(c, [lock]) == locked by { assert |[lock][..0]| == 0; }
    assert After(c, [lock, confirm]) == confirmed by { assert [lock, confirm][..1] == [lock]; }
    assert After(c, [lock, confirm, Resetting]) == Reset(confirmed) by {
      assert [lock, confirm, Resetting][..2] == [lock, confirm];
    }
    assert acts[..3] == [lock, confirm, Resetting] && |[Delivering(m)][..0]| == 0;
  }
}
