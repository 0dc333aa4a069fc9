/** Every granted booking is accounted for, and so is every version. */
module Conservation {
  import opened Metrics
  import opened Synchronization
  import opened Booking
  import L = LeaseManagers
  import SeatSafety

  /** What became of the granted bookings since the last reset. */
  datatype Tally = Tally(confirmed: nat, cancelled: nat, returned: nat)

  function LockedSeats(seats: map<int, Seat>): set<int> {
    set k | k in seats && seats[k].mode.Locked?
  }

  /** The seats a sweep returns. */
  function Returned(c: Core, now: real): set<int> {
    LockedSeats(c.seats) * L.Expired(c.leases, now)
  }

  ghost function Count(c: Core, a: Act, t: Tally): Tally {
    if !Enabled(c, a) then t
    else match a
      case Sweeping(now) => t.(returned := t.returned + |Returned(c, now)|)
      case Confirming(seat, now) => if Confirm(c, seat, now).1 then t.(confirmed := t.confirmed + 1) else t
      case Cancelling(seat) => if Cancel(c, seat).1 then t.(cancelled := t.cancelled + 1) else t
      case Resetting => Tally(0, 0, 0)
      case _ => t
  }

  ghost function TallyOf(c: Core, acts: seq<Act>): Tally {
    if acts == [] then Tally(0, 0, 0)
    else Count(After(c, acts[..|acts| - 1]), acts[|acts| - 1], TallyOf(c, acts[..|acts| - 1]))
  }

  ghost predicate Balanced(c: Core, t: Tally) {
    && PRIMARY in c.stores
    && c.granted == t.confirmed + t.cancelled + t.returned + |LockedSeats(c.seats)|
    && c.stores[PRIMARY].clock == SEAT_COUNT + c.granted + t.confirmed
  }

  lemma WriteTicks(c: Core, seat: int, mode: SeatMode, owner: string)
    requires Filled(c) && IsSeat(seat)
    ensures var d := WritePrimary(c, seat, mode, owner);
            && PRIMARY in d.stores && d.stores[PRIMARY].clock == c.stores[PRIMARY].clock + 1
            && d.seats == c.seats && d.granted == c.granted
  {
    hide SERVER_IDS, Broadcast, Peers, Sendable, Sane;
    PrimaryIsServer();
    assert Hall(c.stores[PRIMARY]);
  }

  lemma OneMoreLocked(seats: map<int, Seat>, k: int, row: Seat)
    requires k in seats && !seats[k].mode.Locked? && row.mode.Locked?
    ensures |LockedSeats(seats[k := row])| == |LockedSeats(seats)| + 1
  {
    assert LockedSeats(seats[k := row]) == LockedSeats(seats) + {k};
  }

  lemma OneLessLocked(seats: map<int, Seat>, k: int, row: Seat)
    requires k in seats && seats[k].mode.Locked? && !row.mode.Locked?
    ensures |LockedSeats(seats[k := row])| == |LockedSeats(seats)| - 1
  {
    assert LockedSeats(seats[k := row]) == LockedSeats(seats) - {k};
  }

  lemma SweepBalances(c: Core, now: real, t: Tally)
    requires Inv(c) && Balanced(c, t)
    ensures Balanced(SweepSeats(c, now), t.(returned := t.returned + |Returned(c, now)|))
  {
    var before, after := LockedSeats(c.seats), LockedSeats(SweepSeats(c, now).seats);
    assert after == before - Returned(c, now);
    assert |before| == |before - Returned(c, now)| + |Returned(c, now)|;
  }

  lemma LockBalances(c: Core, a: Act, t: Tally)
    requires Inv(c) && Balanced(c, t) && a.Locking? && Enabled(c, a)
    ensures Balanced(Do(c, a), t)
  {
    hide SERVER_IDS, L.Acquire, WritePrimary, Hall, Sane, Sendable, PrimaryTracks, Leased, LockedSeats;
    LockLeased(c.seats, c.leases, a.seat, a.owner, a.server, a.sweepAt, a.grantAt);
    var (u, l) := L.Acquire(c.leases, a.seat, a.server, a.owner, LEASE_SECONDS, a.sweepAt, a.grantAt);
    var row := Seat(Locked, a.owner, Some(l.value.id), l.value.expiresAt, a.server);
    OneMoreLocked(c.seats, a.seat, row);
    WriteTicks(c.(leases := u, seats := c.seats[a.seat := row], granted := c.granted + 1), a.seat, Locked, a.owner);
  }

  lemma ConfirmBalances(c: Core, seat: int, now: real, t: Tally)
    requires Inv(c) && Balanced(c, t)
    ensures Balanced(Confirm(c, seat, now).0, if Confirm(c, seat, now).1 then t.(confirmed := t.confirmed + 1) else t)
  {
    hide L.Release, L.Sweep, WritePrimary, Hall, Sane, PrimaryTracks, Leased, LockedSeats;
    if Confirm(c, seat, now).1 {
      var row := c.seats[seat];
      var u := L.Validate(c.leases, row.leaseId, Some(seat), now).0;
      var reserved := row.(mode := Reserved, leaseId := None, expiresAt := 0.0);
      OneLessLocked(c.seats, seat, reserved);
      var desk := c.(leases := L.Release(u, row.leaseId), seats := c.seats[seat := reserved]);
      WriteTicks(desk, seat, Reserved, row.owner);
    }
  }

  lemma CancelBalances(c: Core, seat: int, t: Tally)
    requires Balanced(c, t)
    ensures Balanced(Cancel(c, seat).0, if Cancel(c, seat).1 then t.(cancelled := t.cancelled + 1) else t)
  {
    hide LockedSeats;
    if seat in c.seats && c.seats[seat].mode.Locked? { OneLessLocked(c.seats, seat, FREE); }
  }

  lemma RenewBalances(c: Core, seat: int, sweepAt: real, renewAt: real, t: Tally)
    requires Balanced(c, t)
    ensures Balanced(Renew(c, seat, sweepAt, renewAt).0, t)
  {
    hide L.Renew;
    assert LockedSeats(Renew(c, seat, sweepAt, renewAt).0.seats) == LockedSeats(c.seats);
  }

  lemma FreshBalances(nextId: nat, timers: multiset<Message>)
    ensures Balanced(FreshCore(nextId, timers), Tally(0, 0, 0))
  {
    hide Initialize, FreshSeats;
    InitialStore(SEAT_COUNT);
    FreshSeatsAreFree(SEAT_COUNT);
    assert PRIMARY in FreshStores() by { assert SERVER_IDS[0] == PRIMARY; }
    var seats := FreshSeats(SEAT_COUNT);
    forall k
      ensures k !in LockedSeats(seats)
    {
      if k in seats { assert seats[k] == FREE; }
    }
    assert LockedSeats(seats) == {};
  }

  /** Replicas do not count. */
  lemma ReplicaBalances(c: Core, a: Act, t: Tally)
    requires Inv(c) && Balanced(c, t) && Enabled(c, a) && (a.Delivering? || a.Recovering?)
    ensures Balanced(Do(c, a), t)
  {
    hide SERVER_IDS, Leased, PrimaryTracks, Hall, Sane, Apply, CatchUp, LockedSeats;
    if a.Delivering? { assert Sendable(a.message); }
  }

  lemma ResetBalances(c: Core)
    ensures Balanced(Reset(c), Tally(0, 0, 0))
  {
    FreshBalances(c.leases.nextId, c.timers);
  }

  lemma CountKeepsBalance(c: Core, a: Act, t: Tally)
    requires Inv(c) && Balanced(c, t)
    ensures Balanced(Do(c, a), Count(c, a, t))
  {
    hide Inv, Balanced, Enabled, Returned, Lock, Confirm, Cancel, Renew, SweepSeats, Deliver, Recover, Reset;
    if Enabled(c, a) {
      match a
      case Sweeping(now) => SweepBalances(c, now, t);
      case Locking(_, _, _, _, _) => LockBalances(c, a, t);
      case Confirming(seat, now) => ConfirmBalances(c, seat, now, t);
      case Cancelling(seat) => CancelBalances(c, seat, t);
      case Renewing(seat, sweepAt, renewAt) => RenewBalances(c, seat, sweepAt, renewAt, t);
      case Delivering(_) => ReplicaBalances(c, a, t);
      case Recovering(_) => ReplicaBalances(c, a, t);
      case Resetting => ResetBalances(c);
    }
  }

  /** In every run since the system started: the bookings granted since the last reset
      are those confirmed, cancelled, returned by a sweep and still locked;
      and the primary has written one version per seat, per grant and per confirm. */
  lemma {:induction false} BookingsAccountedFor(nextId: nat, acts: seq<Act>)
    ensures Balanced(After(FreshCore(nextId, multiset{}), acts), TallyOf(FreshCore(nextId, multiset{}), acts))
  {
    hide Inv, Do, Balanced, Count, FreshCore;
    var start := FreshCore(nextId, multiset{});
    if acts == [] {
      FreshBalances(nextId, multiset{});
    } else {
      var init := acts[..|acts| - 1];
      BookingsAccountedFor(nextId, init);
      FreshInv(nextId, multiset{});
      InvAlways(start, init);
      CountKeepsBalance(After(start, init), acts[|acts| - 1], TallyOf(start, init));
    }
  }

  // ---------------------------------------------------------------------
  // Messages
  // ---------------------------------------------------------------------

  /** The act at `i` writes the primary: it locks a seat, or confirms one in time. */
  ghost predicate WritesAt(c: Core, acts: seq<Act>, i: nat)
    requires i < |acts|
  {
    || (acts[i].Locking? && SeatSafety.BooksAt(c, acts, i, acts[i].seat))
    || (acts[i].Confirming? && SeatSafety.ConfirmsAt(c, acts, i, acts[i].seat))
  }

  /** The act at `i` fires a timer that is running. */
  ghost predicate FiresAt(c: Core, acts: seq<Act>, i: nat)
    requires i < |acts|
  {
    acts[i].Delivering? && acts[i].message in After(c, acts[..i]).timers
  }

  ghost function WritesOf(c: Core, acts: seq<Act>): set<nat> {
    set i: nat | i < |acts| && WritesAt(c, acts, i)
  }

  ghost function FiredOf(c: Core, acts: seq<Act>): set<nat> {
    set i: nat | i < |acts| && FiresAt(c, acts, i)
  }

  lemma TwoPeers()
    ensures |Peers()| == 2
  {
    var ids := SERVER_IDS;
    assert ids[0] == PRIMARY && ids[1][7] != PRIMARY[7] && ids[2][7] != PRIMARY[7];
    assert ids[..2][..1][..0] == [] && ids[..2] == [ids[0], ids[1]] && ids[..2][..1] == [ids[0]];
    assert PeersOf(PRIMARY, ids[..2][..1]) == [];
    assert PeersOf(PRIMARY, ids[..2]) == [ids[1]];
  }

  lemma WriteSendsTwo(c: Core, seat: int, mode: SeatMode, owner: string)
    requires Filled(c) && IsSeat(seat)
    ensures |WritePrimary(c, seat, mode, owner).timers| == |c.timers| + 2
  {
    hide SERVER_IDS, Broadcast, Peers, Sendable, Sane;
    PrimaryIsServer();
    assert Hall(c.stores[PRIMARY]);
    TwoPeers();
    BroadcastAddsOnePerPeer(c.timers, Peers(), SeatState(seat, mode, owner, c.stores[PRIMARY].clock + 1));
  }

  lemma LockWrites(c: Core, a: Act)
    requires Inv(c) && a.Locking? && Enabled(c, a)
    ensures |Do(c, a).timers| == |c.timers| + 2
  {
    hide SERVER_IDS, L.Acquire, WritePrimary, Leased, PrimaryTracks, Hall, Sane, Sendable;
    LockLeased(c.seats, c.leases, a.seat, a.owner, a.server, a.sweepAt, a.grantAt);
    var (u, l) := L.Acquire(c.leases, a.seat, a.server, a.owner, LEASE_SECONDS, a.sweepAt, a.grantAt);
    var row := Seat(Locked, a.owner, Some(l.value.id), l.value.expiresAt, a.server);
    WriteSendsTwo(c.(leases := u, seats := c.seats[a.seat := row], granted := c.granted + 1), a.seat, Locked, a.owner);
  }

  lemma ConfirmWrites(c: Core, seat: int, now: real)
    requires Inv(c)
    ensures |Confirm(c, seat, now).0.timers| == |c.timers| + if Confirm(c, seat, now).1 then 2 else 0
  {
    hide L.Release, L.Sweep, WritePrimary, Hall, Sane, PrimaryTracks, Leased, Sendable;
    if Confirm(c, seat, now).1 {
      var row := c.seats[seat];
      var u := L.Validate(c.leases, row.leaseId, Some(seat), now).0;
      var reserved := row.(mode := Reserved, leaseId := None, expiresAt := 0.0);
      var desk := c.(leases := L.Release(u, row.leaseId), seats := c.seats[seat := reserved]);
      WriteSendsTwo(desk, seat, Reserved, row.owner);
    }
  }

  lemma DeliveryTakesOne(c: Core, m: Message)
    requires Inv(c) && m in c.timers
    ensures Enabled(c, Delivering(m)) && |Deliver(c, m).timers| == |c.timers| - 1
  {
    hide SERVER_IDS, Leased, PrimaryTracks, Hall, Sane, Apply;
    PrimaryIsServer();
    assert Sendable(m);
  }

  /** A step sends two messages if it writes the primary, and takes one away if it
      fires a timer; nothing else touches the timers. */
  lemma StepKeepsMessages(c: Core, a: Act)
    requires Inv(c)
    ensures var locks := a.Locking? && Enabled(c, a);
            var confirms := a.Confirming? && SeatSafety.ConfirmsAt(c, [a], 0, a.seat);
            var fires := a.Delivering? && a.message in c.timers;
            |Do(c, a).timers| == |c.timers| + (if locks || confirms then 2 else 0) - (if fires then 1 else 0)
  {
    hide Inv, Lock, Confirm, L.Sweep, L.Release, L.Renew, CatchUp, Apply, FreshSeats, FreshStores;
    InvHasPrimary(c);
    assert [a][..0] == [] && After(c, []) == c;
    if a.Locking? {
      if Enabled(c, a) { LockWrites(c, a); }
    } else if a.Confirming? {
      ConfirmWrites(c, a.seat, a.now);
      SeatSafety.ConfirmsExactlyWhenLeased(c, a.seat, a.now);
      if a.seat in c.leases.bySeat { LeaseIdOfSeat(c, a.seat); }
    } else if a.Delivering? && a.message in c.timers {
      DeliveryTakesOne(c, a.message);
    }
  }

  lemma LeaseIdOfSeat(c: Core, k: int)
    requires Inv(c) && k in c.leases.bySeat
    ensures k in c.seats && c.seats[k].leaseId == Some(c.leases.bySeat[k].id)
  {
    hide Filled, PrimaryTracks, L.Coupled;
  }

  lemma WritesBefore(c: Core, acts: seq<Act>, i: nat)
    requires i < |acts| - 1
    ensures WritesAt(c, acts[..|acts| - 1], i) == WritesAt(c, acts, i)
  {
    hide After, Enabled, SeatSafety.HasRow;
    assert acts[..|acts| - 1][..i] == acts[..i];
  }

  lemma WritesGrow(c: Core, acts: seq<Act>)
    requires acts != []
    ensures |WritesOf(c, acts)|
         == |WritesOf(c, acts[..|acts| - 1])| + if WritesAt(c, acts, |acts| - 1) then 1 else 0
  {
    hide WritesAt;
    var init, last := acts[..|acts| - 1], |acts| - 1;
    forall i: nat | i < last
      ensures WritesAt(c, init, i) == WritesAt(c, acts, i)
    {
      WritesBefore(c, acts, i);
    }
    assert WritesOf(c, acts) == WritesOf(c, init) + if WritesAt(c, acts, last) then {last} else {};
  }

  lemma FiredGrow(c: Core, acts: seq<Act>)
    requires acts != []
    ensures |FiredOf(c, acts)| == |FiredOf(c, acts[..|acts| - 1])| + if FiresAt(c, acts, |acts| - 1) then 1 else 0
  {
    hide After;
    var init, last := acts[..|acts| - 1], |acts| - 1;
    assert forall i: nat :: i < last ==> init[..i] == acts[..i];
    assert FiredOf(c, acts) == FiredOf(c, init) + if FiresAt(c, acts, last) then {last} else {};
  }

  /** In every run, resets included: two messages were sent per lock and per
      confirm, each is delivered once, and what was not yet is in flight. */
  lemma {:induction false} MessagesAccountedFor(c: Core, acts: seq<Act>)
    requires Inv(c)
    ensures |After(c, acts).timers| + |FiredOf(c, acts)| == |c.timers| + 2 * |WritesOf(c, acts)|
  {
    hide Inv, Do, Enabled, WritesOf, FiredOf;
    if acts == [] {
      NothingSent(c);
    } else {
      var init, a := acts[..|acts| - 1], acts[|acts| - 1];
      MessagesAccountedFor(c, init);
      InvAlways(c, init);
      WritesGrow(c, acts);
      FiredGrow(c, acts);
      StepKeepsMessages(After(c, init), a);
      assert [a][..0] == [] && After(After(c, init), []) == After(c, init);
    }
  }

  lemma NothingSent(c: Core)
    ensures |WritesOf(c, [])| == 0 && |FiredOf(c, [])| == 0
  {
    assert WritesOf(c, []) == {} && FiredOf(c, []) == {};
  }
}
