/** The booking, lease and replication protocol: what each locked section of
    dashboard.py does to the seat table, the leases, the stores and the timers. */
module Booking {
  import opened Metrics
  import opened Synchronization
  import L = LeaseManagers

  const SEAT_COUNT: nat := 20
  const SERVER_IDS: seq<string> := ["Server 1", "Server 2", "Server 3"]
  const PRIMARY: string := "Server 1"
  const LEASE_SECONDS: real := 30.0

  /** A row of the seat table. */
  datatype Seat = Seat(mode: SeatMode, owner: string, leaseId: Option<nat>, expiresAt: real, server: string)

  const FREE := Seat(Available, "", None, 0.0, "")

  datatype Core = Core(
    seats: map<int, Seat>,
    leases: L.Table,
    stores: map<string, Store>,
    timers: multiset<Message>,
    granted: nat)

  lemma PrimaryIsServer()
    ensures PRIMARY in SERVER_IDS
  {
    assert SERVER_IDS[0] == PRIMARY;
  }

  function Peers(): seq<string> {
    PeersOf(PRIMARY, SERVER_IDS)
  }

  function FreshSeats(count: nat): map<int, Seat> {
    if count == 0 then map[] else FreshSeats(count - 1)[count := FREE]
  }

  function FreshStores(): map<string, Store> {
    map id | id in SERVER_IDS :: Initialize(EMPTY, SEAT_COUNT)
  }

  /** A new seat table, lease manager and set of stores; the timers run on. */
  function FreshCore(nextId: nat, timers: multiset<Message>): Core {
    Core(FreshSeats(SEAT_COUNT), L.Table(map[], map[], nextId), FreshStores(), timers, 0)
  }

  // ---------------------------------------------------------------------
  // What each locked section does
  // ---------------------------------------------------------------------

  /** Expired leases go, and their seats are available again. */
  function SweepSeats(c: Core, now: real): Core {
    c.(leases := L.Sweep(c.leases, now),
       seats := map k | k in c.seats ::
         if k in L.Expired(c.leases, now) && c.seats[k].mode.Locked? then FREE else c.seats[k])
  }

  /** A write to the primary store, sent to every peer. */
  function WritePrimary(c: Core, seat: int, mode: SeatMode, owner: string): Core
    requires PRIMARY in c.stores
  {
    var (store, u) := Update(c.stores[PRIMARY], seat, mode, owner);
    c.(stores := c.stores[PRIMARY := store],
       timers := if u.Some? then Broadcast(c.timers, Peers(), u.value) else c.timers)
  }

  /** The lease of a booking; None is the conflict. */
  function Lock(c: Core, seat: int, owner: string, server: string, sweepAt: real, grantAt: real):
    (Core, Option<L.Lease>)
    requires PRIMARY in c.stores
  {
    var (t, l) := L.Acquire(c.leases, seat, server, owner, LEASE_SECONDS, sweepAt, grantAt);
    if l.None? then (c.(leases := t), None)
    else
      var row := Seat(Locked, owner, Some(l.value.id), l.value.expiresAt, server);
      (WritePrimary(c.(leases := t, seats := c.seats[seat := row], granted := c.granted + 1), seat, Locked, owner), l)
  }

  function Confirm(c: Core, seat: int, now: real): (Core, bool)
    requires PRIMARY in c.stores
  {
    if seat !in c.seats || !c.seats[seat].mode.Locked? then (c, false)
    else
      var row := c.seats[seat];
      var (t, l) := L.Validate(c.leases, row.leaseId, Some(seat), now);
      if l.None? then (c.(leases := t), false)
      else
        var reserved := row.(mode := Reserved, leaseId := None, expiresAt := 0.0);
        var desk := c.(leases := L.Release(t, row.leaseId), seats := c.seats[seat := reserved]);
        (WritePrimary(desk, seat, Reserved, row.owner), true)
  }

  function Cancel(c: Core, seat: int): (Core, bool) {
    if seat !in c.seats || !c.seats[seat].mode.Locked? then (c, false)
    else (c.(leases := L.Release(c.leases, c.seats[seat].leaseId), seats := c.seats[seat := FREE]), true)
  }

  function Renew(c: Core, seat: int, sweepAt: real, renewAt: real): (Core, bool) {
    if seat !in c.seats || !c.seats[seat].mode.Locked? || c.seats[seat].leaseId.None? then (c, false)
    else
      var (t, l) := L.Renew(c.leases, c.seats[seat].leaseId, L.DEFAULT_TTL, sweepAt, renewAt);
      if l.None? then (c.(leases := t), false)
      else (c.(leases := t, seats := c.seats[seat := c.seats[seat].(expiresAt := l.value.expiresAt)]), true)
  }

  /** A timer fires: its update reaches the peer. */
  function Deliver(c: Core, m: Message): Core
    requires m.peer in c.stores
  {
    c.(timers := c.timers - multiset{m}, stores := c.stores[m.peer := Apply(c.stores[m.peer], m.update)])
  }

  /** A server back online takes in everything the primary lists. */
  function Recover(c: Core, id: string): Core
    requires id in c.stores && PRIMARY in c.stores
  {
    c.(stores := c.stores[id := CatchUp(c.stores[id], c.stores[PRIMARY])])
  }

  function Reset(c: Core): Core {
    FreshCore(c.leases.nextId, c.timers)
  }

  datatype Act =
    | Sweeping(now: real)
    | Locking(seat: int, owner: string, server: string, sweepAt: real, grantAt: real)
    | Confirming(seat: int, now: real)
    | Cancelling(seat: int)
    | Renewing(seat: int, sweepAt: real, renewAt: real)
    | Delivering(message: Message)
    | Recovering(id: string)
    | Resetting

  ghost predicate IsPeer(id: string) {
    id in SERVER_IDS && id != PRIMARY
  }

  /** A booking locks only an available seat, a timer fires once, and only peers catch up. */
  ghost predicate Enabled(c: Core, a: Act) {
    && PRIMARY in c.stores
    && match a
       case Locking(seat, _, _, _, _) => seat in c.seats && c.seats[seat].mode.Available?
       case Delivering(m) => m in c.timers && m.peer in c.stores
       case Recovering(id) => IsPeer(id) && id in c.stores
       case _ => true
  }

  /** A step; one that is not enabled does not happen. */
  ghost function Do(c: Core, a: Act): Core {
    if !Enabled(c, a) then c
    else match a
      case Sweeping(now) => SweepSeats(c, now)
      case Locking(seat, owner, server, sweepAt, grantAt) => Lock(c, seat, owner, server, sweepAt, grantAt).0
      case Confirming(seat, now) => Confirm(c, seat, now).0
      case Cancelling(seat) => Cancel(c, seat).0
      case Renewing(seat, sweepAt, renewAt) => Renew(c, seat, sweepAt, renewAt).0
      case Delivering(m) => Deliver(c, m)
      case Recovering(id) => Recover(c, id)
      case Resetting => Reset(c)
  }

  lemma DisabledDoesNothing(c: Core, a: Act)
    requires !Enabled(c, a)
    ensures Do(c, a) == c
  {
  }

  lemma ResetHappens(c: Core)
    requires PRIMARY in c.stores
    ensures Do(c, Resetting) == Reset(c)
  {
  }

  lemma ConfirmHappens(c: Core, seat: int, now: real)
    requires PRIMARY in c.stores
    ensures Do(c, Confirming(seat, now)) == Confirm(c, seat, now).0
  {
  }

  ghost function After(c: Core, acts: seq<Act>): Core {
    if acts == [] then c else Do(After(c, acts[..|acts| - 1]), acts[|acts| - 1])
  }

  ghost predicate NoReset(acts: seq<Act>) {
    forall a :: a in acts ==> !a.Resetting?
  }

  // ---------------------------------------------------------------------
  // The invariant of every run, resets included
  // ---------------------------------------------------------------------

  ghost predicate IsSeat(k: int) {
    1 <= k <= SEAT_COUNT
  }

  /** Seats filed under their own ids, one per seat of the hall. */
  ghost predicate Hall(s: Store) {
    Filed(s) && forall k :: k in s.seats <==> IsSeat(k)
  }

  /** Updates go to peers, about seats of the hall, with versions past the initial ones. */
  ghost predicate Sendable(m: Message) {
    IsPeer(m.peer) && IsSeat(m.update.seat) && m.update.version > SEAT_COUNT
  }

  ghost predicate Filled(c: Core) {
    && (forall k :: k in c.seats <==> IsSeat(k))
    && (forall id :: id in c.stores <==> id in SERVER_IDS)
    && (forall m :: m in c.timers ==> Sendable(m))
    && Sane(c.stores[PRIMARY]) && c.stores[PRIMARY].clock >= SEAT_COUNT
    && (forall id :: id in c.stores ==> Hall(c.stores[id]))
  }

  /** Every lease belongs to a seat locked with the same id, expiry, owner and server. */
  ghost predicate LeaseIsLocked(seats: map<int, Seat>, t: L.Table) {
    forall k :: k in t.bySeat ==>
      var l := t.bySeat[k];
      k in seats && seats[k] == Seat(Locked, l.owner, Some(l.id), l.expiresAt, l.holder)
  }

  /** A seat has a lease id exactly while it is locked, and no two share one. */
  ghost predicate LockedHasId(seats: map<int, Seat>, nextId: nat) {
    && (forall k :: k in seats ==> !seats[k].mode.Failed?)
    && (forall k :: k in seats ==> (seats[k].mode.Locked? <==> seats[k].leaseId.Some?))
    && (forall k :: k in seats && seats[k].leaseId.Some? ==> seats[k].leaseId.value < nextId)
    && (forall j, k :: j in seats && k in seats && j != k && seats[j].leaseId.Some? ==>
          seats[j].leaseId != seats[k].leaseId)
  }

  /** The primary shows a reservation exactly when the seat table has it, for
      the same owner, and shows every lock; it may still show a lock that ended. */
  ghost predicate PrimaryTracks(seats: map<int, Seat>, primary: map<int, SeatState>) {
    forall k :: k in seats ==>
      && k in primary
      && (seats[k].mode.Reserved? <==> primary[k].mode.Reserved?)
      && (!seats[k].mode.Available? ==> primary[k].mode == seats[k].mode && primary[k].owner == seats[k].owner)
  }

  ghost predicate Leased(seats: map<int, Seat>, t: L.Table) {
    L.Coupled(t) && LeaseIsLocked(seats, t) && LockedHasId(seats, t.nextId)
  }

  ghost predicate Inv(c: Core) {
    Filled(c) && Leased(c.seats, c.leases) && PrimaryTracks(c.seats, c.stores[PRIMARY].seats)
  }

  lemma InvHasPrimary(c: Core)
    requires Inv(c)
    ensures PRIMARY in c.stores
  {
  }

  // --- the seat table and the leases

  lemma SweepLeased(c: Core, now: real)
    requires Leased(c.seats, c.leases)
    ensures Leased(SweepSeats(c, now).seats, SweepSeats(c, now).leases)
  {
    L.SweepKeepsCoupled(c.leases, now);
  }

  /** The sweep inside a lease operation may drop leases of seats that stay locked. */
  lemma DroppedLeased(seats: map<int, Seat>, t: L.Table, now: real)
    requires Leased(seats, t)
    ensures Leased(seats, L.Sweep(t, now))
  {
    L.SweepKeepsCoupled(t, now);
  }

  /** An available seat never meets the lease conflict. */
  lemma LockLeased(seats: map<int, Seat>, t: L.Table, seat: int, owner: string, server: string, sweepAt: real,
          grantAt: real)
    requires Leased(seats, t) && seat in seats && seats[seat].mode.Available?
    ensures var (u, l) := L.Acquire(t, seat, server, owner, LEASE_SECONDS, sweepAt, grantAt);
            && l.Some?
            && Leased(seats[seat := Seat(Locked, owner, Some(l.value.id), l.value.expiresAt, server)], u)
  {
    DroppedLeased(seats, t, sweepAt);
    L.AcquireKeepsCoupled(t, seat, server, owner, LEASE_SECONDS, sweepAt, grantAt);
  }

  /** Releasing a seat's own lease lets the seat go. */
  lemma ReleaseLeased(seats: map<int, Seat>, t: L.Table, seat: int, row: Seat)
    requires Leased(seats, t) && seat in seats && seats[seat].mode.Locked?
    requires row.leaseId.None? && !row.mode.Locked? && !row.mode.Failed?
    ensures Leased(seats[seat := row], L.Release(t, seats[seat].leaseId))
  {
    L.ReleaseKeepsCoupled(t, seats[seat].leaseId);
  }

  lemma RenewLeased(seats: map<int, Seat>, t: L.Table, seat: int, sweepAt: real, renewAt: real)
    requires Leased(seats, t) && seat in seats && seats[seat].mode.Locked?
    ensures var (u, l) := L.Renew(t, seats[seat].leaseId, L.DEFAULT_TTL, sweepAt, renewAt);
            Leased(if l.Some? then seats[seat := seats[seat].(expiresAt := l.value.expiresAt)] else seats, u)
  {
    DroppedLeased(seats, t, sweepAt);
    L.RenewKeepsCoupled(t, seats[seat].leaseId, L.DEFAULT_TTL, sweepAt, renewAt);
  }

  // --- the stores

  lemma PeersOfPrimary(id: string)
    ensures id in Peers() <==> IsPeer(id)
  {
    PeersAreTheOthers(PRIMARY, SERVER_IDS, id);
  }

  lemma UpdateKeepsHall(s: Store, seat: int, mode: SeatMode, owner: string)
    requires Hall(s) && Sane(s) && IsSeat(seat)
    ensures var (r, u) := Update(s, seat, mode, owner);
            && Hall(r) && Sane(r) && r.clock == s.clock + 1
            && u == Some(SeatState(seat, mode, owner, s.clock + 1)) && r.seats == s.seats[seat := u.value]
  {
  }

  lemma BroadcastSendable(timers: multiset<Message>, u: SeatState)
    requires (forall m :: m in timers ==> Sendable(m)) && IsSeat(u.seat) && u.version > SEAT_COUNT
    ensures forall m :: m in Broadcast(timers, Peers(), u) ==> Sendable(m)
  {
    forall m | m in Broadcast(timers, Peers(), u)
      ensures Sendable(m)
    {
      BroadcastMembers(timers, Peers(), u, m);
      PeersOfPrimary(m.peer);
    }
  }

  lemma WriteFilled(c: Core, seat: int, mode: SeatMode, owner: string)
    requires Filled(c) && IsSeat(seat)
    ensures Filled(WritePrimary(c, seat, mode, owner))
    ensures WritePrimary(c, seat, mode, owner).seats == c.seats && WritePrimary(c, seat, mode, owner).leases == c.leases
    ensures WritePrimary(c, seat, mode, owner).stores[PRIMARY].seats
         == c.stores[PRIMARY].seats[seat := SeatState(seat, mode, owner, c.stores[PRIMARY].clock + 1)]
  {
    hide SERVER_IDS, Broadcast, Peers, Hall, Sane, Update, Sendable;
    PrimaryIsServer();
    UpdateKeepsHall(c.stores[PRIMARY], seat, mode, owner);
    BroadcastSendable(c.timers, SeatState(seat, mode, owner, c.stores[PRIMARY].clock + 1));
  }

  lemma {:induction false} FreshSeatsAreFree(count: nat)
    ensures forall k :: k in FreshSeats(count) <==> 1 <= k <= count
    ensures forall k :: k in FreshSeats(count) ==> FreshSeats(count)[k] == FREE
  {
    if count > 0 { FreshSeatsAreFree(count - 1); }
  }

  lemma FreshInv(nextId: nat, timers: multiset<Message>)
    requires forall m :: m in timers ==> Sendable(m)
    ensures Inv(FreshCore(nextId, timers))
  {
    hide Initialize, FreshSeats;
    InitialStore(SEAT_COUNT);
    FreshSeatsAreFree(SEAT_COUNT);
  }

  // --- the steps

  lemma SweepKeepsInv(c: Core, now: real)
    requires Inv(c)
    ensures Inv(SweepSeats(c, now))
  {
    hide L.Sweep, L.Coupled, L.Expired;
    SweepLeased(c, now);
  }

  lemma WriteTracks(seats: map<int, Seat>, primary: map<int, SeatState>, row: Seat, v: SeatState)
    requires PrimaryTracks(seats, primary) && row.mode == v.mode && row.owner == v.owner
    ensures PrimaryTracks(seats[v.seat := row], primary[v.seat := v])
  {
  }

  lemma LockKeepsInv(c: Core, seat: int, owner: string, server: string, sweepAt: real, grantAt: real)
    requires Inv(c) && Enabled(c, Locking(seat, owner, server, sweepAt, grantAt))
    ensures Inv(Lock(c, seat, owner, server, sweepAt, grantAt).0)
    ensures Lock(c, seat, owner, server, sweepAt, grantAt).1.Some?
  {
    hide SERVER_IDS, L.Acquire, Leased, WritePrimary, PrimaryTracks, Hall, Sane;
    LockLeased(c.seats, c.leases, seat, owner, server, sweepAt, grantAt);
    var (t, l) := L.Acquire(c.leases, seat, server, owner, LEASE_SECONDS, sweepAt, grantAt);
    var row := Seat(Locked, owner, Some(l.value.id), l.value.expiresAt, server);
    var v := SeatState(seat, Locked, owner, c.stores[PRIMARY].clock + 1);
    WriteFilled(c.(leases := t, seats := c.seats[seat := row], granted := c.granted + 1), seat, Locked, owner);
    WriteTracks(c.seats, c.stores[PRIMARY].seats, row, v);
  }

  lemma ConfirmKeepsInv(c: Core, seat: int, now: real)
    requires Inv(c)
    ensures Inv(Confirm(c, seat, now).0)
  {
    hide SERVER_IDS, L.Release, L.Sweep, Leased, WritePrimary, PrimaryTracks, Hall, Sane;
    PrimaryIsServer();
    DroppedLeased(c.seats, c.leases, now);
    if seat in c.seats && c.seats[seat].mode.Locked? {
      var row := c.seats[seat];
      var (t, l) := L.Validate(c.leases, row.leaseId, Some(seat), now);
      if l.Some? {
        var reserved := row.(mode := Reserved, leaseId := None, expiresAt := 0.0);
        var v := SeatState(seat, Reserved, row.owner, c.stores[PRIMARY].clock + 1);
        ReleaseLeased(c.seats, t, seat, reserved);
        var desk := c.(leases := L.Release(t, row.leaseId), seats := c.seats[seat := reserved]);
        WriteFilled(desk, seat, Reserved, row.owner);
        WriteTracks(c.seats, c.stores[PRIMARY].seats, reserved, v);
      }
    }
  }

  lemma CancelKeepsInv(c: Core, seat: int)
    requires Inv(c)
    ensures Inv(Cancel(c, seat).0)
  {
    hide L.Release, Leased;
    if seat in c.seats && c.seats[seat].mode.Locked? {
      ReleaseLeased(c.seats, c.leases, seat, FREE);
    }
  }

  lemma RowKeepsFilled(c: Core, seat: int, row: Seat, t: L.Table)
    requires Filled(c) && seat in c.seats
    ensures Filled(c.(leases := t)) && Filled(c.(leases := t, seats := c.seats[seat := row]))
  {
  }

  lemma RenewKeepsInv(c: Core, seat: int, sweepAt: real, renewAt: real)
    requires Inv(c)
    ensures Inv(Renew(c, seat, sweepAt, renewAt).0)
  {
    hide L.Renew, Leased;
    if seat in c.seats && c.seats[seat].mode.Locked? && c.seats[seat].leaseId.Some? {
      var (t, l) := L.Renew(c.leases, c.seats[seat].leaseId, L.DEFAULT_TTL, sweepAt, renewAt);
      RenewLeased(c.seats, c.leases, seat, sweepAt, renewAt);
      var row := c.seats[seat].(expiresAt := if l.Some? then l.value.expiresAt else c.seats[seat].expiresAt);
      RowKeepsFilled(c, seat, row, t);
    }
  }

  lemma ApplyKeepsHall(s: Store, u: SeatState)
    requires Hall(s) && IsSeat(u.seat)
    ensures Hall(Apply(s, u))
  {
  }

  lemma CatchUpKeepsHall(s: Store, source: Store)
    requires Hall(s) && Hall(source)
    ensures Hall(CatchUp(s, source))
  {
  }

  lemma DeliverKeepsInv(c: Core, m: Message)
    requires Inv(c) && m in c.timers
    ensures m.peer in c.stores && Inv(Deliver(c, m))
  {
    hide SERVER_IDS, Leased, PrimaryTracks, Sane, Hall, Apply;
    ApplyKeepsHall(c.stores[m.peer], m.update);
  }

  lemma RecoverKeepsInv(c: Core, id: string)
    requires Inv(c) && IsPeer(id)
    ensures id in c.stores && Inv(Recover(c, id))
  {
    hide SERVER_IDS, Leased, PrimaryTracks, Sane, Hall, CatchUp;
    PrimaryIsServer();
    CatchUpKeepsHall(c.stores[id], c.stores[PRIMARY]);
  }

  lemma DoKeepsInv(c: Core, a: Act)
    requires Inv(c)
    ensures Inv(Do(c, a))
  {
    hide Inv, SweepSeats, Lock, Confirm, Cancel, Renew, Deliver, Recover, Reset;
    if Enabled(c, a) {
      match a
      case Sweeping(now) => SweepKeepsInv(c, now);
      case Locking(seat, owner, server, sweepAt, grantAt) => LockKeepsInv(c, seat, owner, server, sweepAt, grantAt);
      case Confirming(seat, now) => ConfirmKeepsInv(c, seat, now);
      case Cancelling(seat) => CancelKeepsInv(c, seat);
      case Renewing(seat, sweepAt, renewAt) => RenewKeepsInv(c, seat, sweepAt, renewAt);
      case Delivering(m) => DeliverKeepsInv(c, m);
      case Recovering(id) => RecoverKeepsInv(c, id);
      case Resetting => ResetKeepsInv(c);
    }
  }

  lemma ResetKeepsInv(c: Core)
    requires Inv(c)
    ensures Inv(Reset(c))
  {
    FreshInv(c.leases.nextId, c.timers);
  }

  /** A step that takes no reservation away. */
  ghost predicate KeepsReservations(before: map<int, Seat>, after: map<int, Seat>) {
    forall k :: k in before && before[k].mode.Reserved? ==> k in after && after[k] == before[k]
  }

  ghost predicate AtTheDesk(a: Act) {
    !a.Delivering? && !a.Recovering? && !a.Resetting?
  }

  /** The parts of a step at the desk: first the seat table and the leases
      change, then at most one write goes to the primary. */
  ghost predicate DeskThenWrite(c: Core, d: Core, w: Option<Write>, after: Core) {
    && Filled(d) && d.stores == c.stores && d.timers == c.timers
    && KeepsReservations(c.seats, d.seats)
    && if w.None? then after == d
       else
         && IsSeat(w.value.seat) && w.value.seat in d.seats
         && after == WritePrimary(d, w.value.seat, w.value.mode, w.value.owner)
         && !d.stores[PRIMARY].seats[w.value.seat].mode.Reserved?
         && d.seats[w.value.seat].mode == w.value.mode && d.seats[w.value.seat].owner == w.value.owner
  }

  lemma LockDesk(c: Core, seat: int, owner: string, server: string, sweepAt: real, grantAt: real)
    returns (d: Core, w: Option<Write>)
    requires Inv(c) && Enabled(c, Locking(seat, owner, server, sweepAt, grantAt))
    ensures DeskThenWrite(c, d, w, Lock(c, seat, owner, server, sweepAt, grantAt).0)
  {
    hide SERVER_IDS, L.Acquire, WritePrimary, Leased, Hall, Sane;
    LockLeased(c.seats, c.leases, seat, owner, server, sweepAt, grantAt);
    var (t, l) := L.Acquire(c.leases, seat, server, owner, LEASE_SECONDS, sweepAt, grantAt);
    var row := Seat(Locked, owner, Some(l.value.id), l.value.expiresAt, server);
    d, w := c.(leases := t, seats := c.seats[seat := row], granted := c.granted + 1), Some(Write(seat, Locked, owner));
  }

  lemma ConfirmDesk(c: Core, seat: int, now: real) returns (d: Core, w: Option<Write>)
    requires Inv(c)
    ensures DeskThenWrite(c, d, w, Confirm(c, seat, now).0)
  {
    hide SERVER_IDS, L.Sweep, L.Release, WritePrimary, Leased, Hall, Sane;
    PrimaryIsServer();
    d, w := Confirm(c, seat, now).0, None;
    if Confirm(c, seat, now).1 {
      var row := c.seats[seat];
      var t := L.Validate(c.leases, row.leaseId, Some(seat), now).0;
      var reserved := row.(mode := Reserved, leaseId := None, expiresAt := 0.0);
      d := c.(leases := L.Release(t, row.leaseId), seats := c.seats[seat := reserved]);
      w := Some(Write(seat, Reserved, row.owner));
    }
  }

  lemma PlainDesk(c: Core, d: Core)
    requires Filled(c) && d.seats.Keys == c.seats.Keys && d.stores == c.stores && d.timers == c.timers
    requires KeepsReservations(c.seats, d.seats)
    ensures DeskThenWrite(c, d, None, d)
  {
  }

  lemma DeskOf(c: Core, a: Act) returns (d: Core, w: Option<Write>)
    requires Inv(c) && Enabled(c, a) && AtTheDesk(a)
    ensures DeskThenWrite(c, d, w, Do(c, a))
  {
    hide L.Sweep, L.Expired, L.Release, L.Renew, Lock, Confirm, DeskThenWrite, Filled, Leased, PrimaryTracks;
    match a
    case Locking(seat, owner, server, sweepAt, grantAt) => d, w := LockDesk(c, seat, owner, server, sweepAt, grantAt);
    case Confirming(seat, now) => d, w := ConfirmDesk(c, seat, now);
    case Sweeping(_) =>
      d, w := Do(c, a), None;
      PlainDesk(c, d);
    case Cancelling(_) =>
      d, w := Do(c, a), None;
      PlainDesk(c, d);
    case Renewing(_, _, _) =>
      d, w := Do(c, a), None;
      PlainDesk(c, d);
  }

  /** In every run the lease tables stay inverse, every lease sits on its own
      locked seat, and the primary tracks the seat table. */
  lemma {:induction false} InvAlways(c: Core, acts: seq<Act>)
    requires Inv(c)
    ensures Inv(After(c, acts))
  {
    hide Inv, Do;
    if acts != [] {
      InvAlways(c, acts[..|acts| - 1]);
      DoKeepsInv(After(c, acts[..|acts| - 1]), acts[|acts| - 1]);
    }
  }
}
