/** What the replicas show, over whole runs of the protocol. */
module Replication {
  import opened Metrics
  import opened Synchronization
  import opened Booking

  function Primary(c: Core): map<int, SeatState>
    requires PRIMARY in c.stores
  {
    c.stores[PRIMARY].seats
  }

  // ---------------------------------------------------------------------
  // No replica shows a reservation the seat table lacks
  // ---------------------------------------------------------------------

  /** If `u` says reserved, so does the seat table, for the same owner. */
  ghost predicate Backed(seats: map<int, Seat>, u: SeatState) {
    u.mode.Reserved? ==> u.seat in seats && seats[u.seat].mode.Reserved? && seats[u.seat].owner == u.owner
  }

  ghost predicate NoPhantom(c: Core) {
    && (forall id, k :: id in c.stores && k in c.stores[id].seats ==> Backed(c.seats, c.stores[id].seats[k]))
    && (forall m :: m in c.timers ==> Backed(c.seats, m.update))
  }

  lemma WriteKeepsNoPhantom(c: Core, seat: int, mode: SeatMode, owner: string)
    requires Filled(c) && NoPhantom(c) && IsSeat(seat)
    requires Backed(c.seats, SeatState(seat, mode, owner, c.stores[PRIMARY].clock + 1))
    ensures NoPhantom(WritePrimary(c, seat, mode, owner))
  {
    hide SERVER_IDS, Broadcast, Peers;
    PrimaryIsServer();
    var u := SeatState(seat, mode, owner, c.stores[PRIMARY].clock + 1);
    var d := WritePrimary(c, seat, mode, owner);
    forall m | m in d.timers
      ensures Backed(d.seats, m.update)
    {
      BroadcastMembers(c.timers, Peers(), u, m);
    }
  }

  lemma ReservationsKeepBacking(c: Core, d: Core)
    requires NoPhantom(c) && d.stores == c.stores && d.timers == c.timers && KeepsReservations(c.seats, d.seats)
    ensures NoPhantom(d)
  {
  }

  lemma DeliverKeepsNoPhantom(c: Core, m: Message)
    requires NoPhantom(c) && m in c.timers && m.peer in c.stores
    ensures NoPhantom(Deliver(c, m))
  {
  }

  lemma RecoverKeepsNoPhantom(c: Core, id: string)
    requires NoPhantom(c) && id in c.stores && PRIMARY in c.stores
    ensures NoPhantom(Recover(c, id))
  {
  }

  lemma DeskKeepsNoPhantom(c: Core, a: Act)
    requires Inv(c) && NoPhantom(c) && Enabled(c, a) && AtTheDesk(a)
    ensures NoPhantom(Do(c, a))
  {
    hide Do, Inv, Filled, WritePrimary, NoPhantom, KeepsReservations, Enabled;
    var d, w := DeskOf(c, a);
    ReservationsKeepBacking(c, d);
    if w.Some? { WriteKeepsNoPhantom(d, w.value.seat, w.value.mode, w.value.owner); }
  }

  lemma DoKeepsNoPhantom(c: Core, a: Act)
    requires Inv(c) && NoPhantom(c) && !a.Resetting?
    ensures NoPhantom(Do(c, a))
  {
    hide Inv, NoPhantom, SweepSeats, Lock, Confirm, Cancel, Renew, Deliver, Recover;
    if Enabled(c, a) {
      match a
      case Delivering(m) => DeliverKeepsNoPhantom(c, m);
      case Recovering(id) => RecoverKeepsNoPhantom(c, id);
      case _ => DeskKeepsNoPhantom(c, a);
    }
  }

  /** Between resets no store and no update in flight ever shows a
      reservation that the seat table does not hold for the same owner. */
  lemma {:induction false} NoPhantomAlways(c: Core, acts: seq<Act>)
    requires Inv(c) && NoPhantom(c) && NoReset(acts)
    ensures NoPhantom(After(c, acts))
  {
    hide Inv, Do, NoPhantom;
    if acts != [] {
      var init := acts[..|acts| - 1];
      assert forall a :: a in init ==> a in acts;
      NoPhantomAlways(c, init);
      InvAlways(c, init);
      assert acts[|acts| - 1] in acts;
      DoKeepsNoPhantom(After(c, init), acts[|acts| - 1]);
    }
  }

  lemma FreshHasNoPhantom(nextId: nat, timers: multiset<Message>)
    requires forall m :: m in timers ==> !m.update.mode.Reserved?
    ensures NoPhantom(FreshCore(nextId, timers))
  {
    hide Initialize, FreshSeats;
    InitialStore(SEAT_COUNT);
  }

  /** The stores alone, as a dashboard would show them. */
  ghost predicate StoresBacked(c: Core) {
    forall id, k :: id in c.stores && k in c.stores[id].seats ==> Backed(c.seats, c.stores[id].seats[k])
  }

  ghost predicate SafeFromHere(c: Core) {
    forall acts :: NoReset(acts) ==> StoresBacked(After(c, acts))
  }

  /** A timer that survives a reset with a reservation in it plants that
      reservation in the new replica. */
  lemma StaleReservationPlanted(c: Core, m: Message)
    requires Inv(c) && m in c.timers && m.update.mode.Reserved?
    ensures !StoresBacked(After(Reset(c), [Delivering(m)]))
  {
    hide Initialize, FreshSeats;
    var r := Reset(c);
    FreshInv(c.leases.nextId, c.timers);
    InitialStore(SEAT_COUNT);
    FreshSeatsAreFree(SEAT_COUNT);
    var acts := [Delivering(m)];
    assert acts[..|acts| - 1] == [] && After(r, []) == r;
    var d := Deliver(r, m);
    assert After(r, acts) == d;
    assert d.stores[m.peer].seats[m.update.seat] == m.update;
    assert !Backed(d.seats, m.update);
  }

  /** A reset keeps the replicas safe for every run that follows exactly when
      no reservation is in flight at that moment. */
  lemma ResetSafeExactlyWhenNoReservationInFlight(c: Core)
    requires Inv(c)
    ensures SafeFromHere(Reset(c)) <==> forall m :: m in c.timers ==> !m.update.mode.Reserved?
  {
    hide Inv, After;
    if forall m :: m in c.timers ==> !m.update.mode.Reserved? {
      FreshHasNoPhantom(c.leases.nextId, c.timers);
      assert Inv(Reset(c)) by { ResetKeepsInv(c); }
      forall acts | NoReset(acts)
        ensures StoresBacked(After(Reset(c), acts))
      {
        NoPhantomAlways(Reset(c), acts);
      }
    } else {
      var m :| m in c.timers && m.update.mode.Reserved?;
      StaleReservationPlanted(c, m);
      assert NoReset([Delivering(m)]);
    }
  }

  // ---------------------------------------------------------------------
  // Replicas lag behind the primary and catch up
  // ---------------------------------------------------------------------

  /** `u` is in the past of the primary's seats; a reservation is its last word. */
  ghost predicate Known(primary: map<int, SeatState>, u: SeatState) {
    && u.seat in primary
    && u.version <= primary[u.seat].version
    && (u.version == primary[u.seat].version ==> u == primary[u.seat])
    && (u.mode.Reserved? ==> u == primary[u.seat])
  }

  ghost predicate AllKnown(primary: map<int, SeatState>, s: Store) {
    forall k :: k in s.seats ==> Known(primary, s.seats[k])
  }

  /** What a peer lacks is on its way. */
  ghost predicate Coming(primary: map<int, SeatState>, id: string, s: Store, timers: multiset<Message>) {
    forall k :: k in primary ==> k in s.seats && (s.seats[k] == primary[k] || Message(id, primary[k]) in timers)
  }

  ghost predicate Synced(c: Core) {
    && PRIMARY in c.stores
    && (forall m :: m in c.timers ==> Known(Primary(c), m.update))
    && (forall id :: id in c.stores && IsPeer(id) ==>
          AllKnown(Primary(c), c.stores[id]) && Coming(Primary(c), id, c.stores[id], c.timers))
  }

  lemma FreshSynced(nextId: nat)
    ensures Synced(FreshCore(nextId, multiset{}))
  {
    hide Initialize, FreshSeats;
    InitialStore(SEAT_COUNT);
  }

  /** After a reset replication starts clean exactly when nothing is in flight:
      any older update outranks the fresh versions. */
  lemma ResetSyncedExactlyWhenNothingInFlight(c: Core)
    requires Inv(c)
    ensures Synced(Reset(c)) <==> c.timers == multiset{}
  {
    hide Initialize, FreshSeats, Leased, PrimaryTracks;
    InitialStore(SEAT_COUNT);
    FreshSynced(c.leases.nextId);
    if c.timers != multiset{} {
      var m :| m in c.timers;
      assert Sendable(m) && !Known(Primary(Reset(c)), m.update);
    }
  }

  /** A new version of a seat that is not reserved keeps the past the past. */
  lemma WriteKeepsKnown(primary: map<int, SeatState>, v: SeatState, u: SeatState)
    requires Known(primary, u)
    requires v.seat in primary && !primary[v.seat].mode.Reserved? && v.version > primary[v.seat].version
    ensures Known(primary[v.seat := v], u)
  {
  }

  lemma WriteKeepsAllKnown(primary: map<int, SeatState>, v: SeatState, s: Store)
    requires AllKnown(primary, s)
    requires v.seat in primary && !primary[v.seat].mode.Reserved? && v.version > primary[v.seat].version
    ensures AllKnown(primary[v.seat := v], s)
  {
  }

  /** A peer gets the new version by a new timer and the rest as before. */
  lemma WriteKeepsComing(primary: map<int, SeatState>, v: SeatState, id: string, s: Store,
                         before: multiset<Message>, after: multiset<Message>)
    requires Coming(primary, id, s, before) && v.seat in primary
    requires Message(id, v) in after && forall m :: m in before ==> m in after
    ensures Coming(primary[v.seat := v], id, s, after)
  {
  }

  lemma WriteKeepsSynced(c: Core, seat: int, mode: SeatMode, owner: string)
    requires Filled(c) && Synced(c) && IsSeat(seat) && !Primary(c)[seat].mode.Reserved?
    ensures Synced(WritePrimary(c, seat, mode, owner))
  {
    hide Broadcast, Peers, Known, AllKnown, Coming, Sendable;
    var v := SeatState(seat, mode, owner, c.stores[PRIMARY].clock + 1);
    var d := WritePrimary(c, seat, mode, owner);
    WriteFilled(c, seat, mode, owner);
    assert Hall(c.stores[PRIMARY]);
    forall m | m in d.timers
      ensures Known(Primary(d), m.update)
    {
      BroadcastMembers(c.timers, Peers(), v, m);
      if m in c.timers { WriteKeepsKnown(Primary(c), v, m.update); } else { NewestKnown(Primary(d), v); }
    }
    forall m | m in c.timers
      ensures m in d.timers
    {
      BroadcastMembers(c.timers, Peers(), v, m);
    }
    forall id | id in d.stores && IsPeer(id)
      ensures AllKnown(Primary(d), d.stores[id]) && Coming(Primary(d), id, d.stores[id], d.timers)
    {
      assert d.stores[id] == c.stores[id];
      WriteKeepsAllKnown(Primary(c), v, c.stores[id]);
      PeersOfPrimary(id);
      BroadcastMembers(c.timers, Peers(), v, Message(id, v));
      WriteKeepsComing(Primary(c), v, id, c.stores[id], c.timers, d.timers);
    }
  }

  lemma NewestKnown(primary: map<int, SeatState>, v: SeatState)
    requires v.seat in primary && primary[v.seat] == v
    ensures Known(primary, v)
  {
  }

  /** A replica that takes in known updates stays known and still gets what it lacks. */
  lemma ApplyKeepsComing(primary: map<int, SeatState>, id: string, s: Store, timers: multiset<Message>, m: Message)
    requires AllKnown(primary, s) && Coming(primary, id, s, timers) && Filed(s)
    requires m in timers && m.peer == id && Known(primary, m.update)
    requires forall k :: k in primary ==> primary[k].seat == k
    ensures AllKnown(primary, Apply(s, m.update))
    ensures Coming(primary, id, Apply(s, m.update), timers - multiset{m})
  {
    var r := Apply(s, m.update);
    forall k | k in primary
      ensures k in r.seats && (r.seats[k] == primary[k] || Message(id, primary[k]) in timers - multiset{m})
    {
      assert Known(primary, s.seats[k]);
      if Message(id, primary[k]) != m && s.seats[k] != primary[k] {
        assert Message(id, primary[k]) in timers - multiset{m};
      }
    }
  }

  /** Another peer's message does not matter. */
  lemma OthersKeepComing(primary: map<int, SeatState>, id: string, s: Store, timers: multiset<Message>, m: Message)
    requires Coming(primary, id, s, timers) && m.peer != id
    ensures Coming(primary, id, s, timers - multiset{m})
  {
    forall k | k in primary
      ensures k in s.seats && (s.seats[k] == primary[k] || Message(id, primary[k]) in timers - multiset{m})
    {
      assert Message(id, primary[k]) != m;
    }
  }

  lemma DeliveryIsSound(c: Core, m: Message)
    requires Inv(c) && m in c.timers
    ensures IsPeer(m.peer) && m.peer in c.stores && Filed(c.stores[m.peer])
    ensures PRIMARY in c.stores && forall k :: k in Primary(c) ==> Primary(c)[k].seat == k
  {
    hide Leased, PrimaryTracks, Sane;
    assert Sendable(m) && Hall(c.stores[PRIMARY]) && Hall(c.stores[m.peer]);
  }

  lemma DeliverKeepsSynced(c: Core, m: Message)
    requires Inv(c) && Synced(c) && m in c.timers
    ensures m.peer in c.stores && Synced(Deliver(c, m))
  {
    hide SERVER_IDS, Inv, Apply, AllKnown, Known, Coming, Filed;
    DeliveryIsSound(c, m);
    var d := Deliver(c, m);
    ApplyKeepsComing(Primary(c), m.peer, c.stores[m.peer], c.timers, m);
    forall id | id in d.stores && IsPeer(id)
      ensures Coming(Primary(d), id, d.stores[id], d.timers)
    {
      if id != m.peer { OthersKeepComing(Primary(c), id, c.stores[id], c.timers, m); }
    }
  }

  lemma CatchUpEqualsPrimary(c: Core, id: string)
    requires Inv(c) && Synced(c) && IsPeer(id)
    ensures id in c.stores && CatchUp(c.stores[id], c.stores[PRIMARY]).seats == Primary(c)
  {
    hide Leased, PrimaryTracks;
    var r := CatchUp(c.stores[id], c.stores[PRIMARY]);
    forall k
      ensures k in r.seats <==> k in Primary(c)
      ensures k in r.seats ==> r.seats[k] == Primary(c)[k]
    {
      if IsSeat(k) { assert Known(Primary(c), c.stores[id].seats[k]); }
    }
    assert r.seats == Primary(c);
  }

  lemma EqualIsKnown(primary: map<int, SeatState>, id: string, s: Store, timers: multiset<Message>)
    requires s.seats == primary && Filed(s)
    ensures AllKnown(primary, s) && Coming(primary, id, s, timers)
  {
  }

  lemma RecoverKeepsSynced(c: Core, id: string)
    requires Inv(c) && Synced(c) && IsPeer(id)
    ensures id in c.stores && Synced(Recover(c, id))
  {
    hide Leased, PrimaryTracks, Sane, CatchUp, Known, AllKnown, Coming;
    CatchUpEqualsPrimary(c, id);
    CatchUpKeepsHall(c.stores[id], c.stores[PRIMARY]);
    EqualIsKnown(Primary(c), id, CatchUp(c.stores[id], c.stores[PRIMARY]), c.timers);
  }

  lemma DeskKeepsSynced(c: Core, d: Core)
    requires Synced(c) && d.stores == c.stores && d.timers == c.timers
    ensures Synced(d)
  {
  }

  lemma DeskActKeepsSynced(c: Core, a: Act)
    requires Inv(c) && Synced(c) && Enabled(c, a) && AtTheDesk(a)
    ensures Synced(Do(c, a))
  {
    hide Do, Inv, Filled, WritePrimary, KeepsReservations, Enabled, Synced;
    var d, w := DeskOf(c, a);
    DeskKeepsSynced(c, d);
    if w.Some? { WriteKeepsSynced(d, w.value.seat, w.value.mode, w.value.owner); }
  }

  lemma DoKeepsSynced(c: Core, a: Act)
    requires Inv(c) && Synced(c) && !a.Resetting?
    ensures Synced(Do(c, a))
  {
    hide Inv, Synced, SweepSeats, Lock, Confirm, Cancel, Renew, Deliver, Recover;
    if Enabled(c, a) {
      match a
      case Delivering(m) => DeliverKeepsSynced(c, m);
      case Recovering(id) => RecoverKeepsSynced(c, id);
      case _ => DeskActKeepsSynced(c, a);
    }
  }

  lemma {:induction false} SyncedAlways(c: Core, acts: seq<Act>)
    requires Inv(c) && Synced(c) && NoReset(acts)
    ensures Inv(After(c, acts)) && Synced(After(c, acts))
  {
    hide Inv, Do, Synced;
    if acts != [] {
      var init := acts[..|acts| - 1];
      assert forall a :: a in init ==> a in acts;
      SyncedAlways(c, init);
      assert acts[|acts| - 1] in acts;
      DoKeepsInv(After(c, init), acts[|acts| - 1]);
      DoKeepsSynced(After(c, init), acts[|acts| - 1]);
    }
  }

  lemma SameSeats(a: Store, b: Store)
    requires Hall(a) && Hall(b) && forall k :: IsSeat(k) ==> a.seats[k] == b.seats[k]
    ensures a.seats == b.seats
  {
    forall k
      ensures k in a.seats <==> k in b.seats
      ensures k in a.seats ==> a.seats[k] == b.seats[k]
    {
      assert k in a.seats <==> IsSeat(k);
    }
    assert a.seats == b.seats;
  }

  lemma LackingMeansComing(c: Core, id: string, k: int)
    requires Inv(c) && Synced(c) && IsPeer(id) && IsSeat(k)
    requires id in c.stores && c.stores[id].seats[k] != Primary(c)[k]
    ensures var m := Message(id, Primary(c)[k]);
            m in c.timers && Apply(c.stores[id], m.update) != c.stores[id]
  {
    hide Leased, PrimaryTracks;
    assert Known(Primary(c), c.stores[id].seats[k]);
    assert Apply(c.stores[id], Primary(c)[k]).seats[k] == Primary(c)[k];
  }

  /** A peer shows what the primary shows exactly when every update still on
      its way to it is stale; in particular once nothing is in flight. */
  lemma ConvergedExactlyWhenInFlightIsStale(c: Core, id: string)
    requires Inv(c) && Synced(c) && IsPeer(id)
    ensures id in c.stores
    ensures c.stores[id].seats == Primary(c)
        <==> forall m :: m in c.timers && m.peer == id ==> Apply(c.stores[id], m.update) == c.stores[id]
  {
    hide Leased, PrimaryTracks, Coming;
    if forall k :: IsSeat(k) ==> c.stores[id].seats[k] == Primary(c)[k] {
      SameSeats(c.stores[id], c.stores[PRIMARY]);
      forall m | m in c.timers && m.peer == id
        ensures Apply(c.stores[id], m.update) == c.stores[id]
      {
        assert Known(Primary(c), m.update);
      }
    } else {
      var k :| IsSeat(k) && c.stores[id].seats[k] != Primary(c)[k];
      LackingMeansComing(c, id, k);
    }
  }

  lemma DeskLeavesReplicas(c: Core, d: Core, w: Option<Write>, after: Core, id: string)
    requires DeskThenWrite(c, d, w, after) && IsPeer(id) && id in c.stores
    ensures id in after.stores && after.stores[id] == c.stores[id]
  {
    hide Filled, KeepsReservations, Broadcast;
  }

  /** Seat `k` keeps its version or takes a later one, and a reservation stays. */
  ghost predicate Forward(s: Store, r: Store, k: int) {
    && k in s.seats && k in r.seats
    && r.seats[k].version >= s.seats[k].version
    && (s.seats[k].mode.Reserved? ==> r.seats[k] == s.seats[k])
  }

  lemma ApplyMovesForward(primary: map<int, SeatState>, s: Store, u: SeatState, k: int)
    requires k in s.seats && Known(primary, s.seats[k]) && Filed(s) && Known(primary, u)
    ensures Forward(s, Apply(s, u), k)
  {
  }

  lemma CatchUpMovesForward(s: Store, source: Store, k: int)
    requires k in s.seats && Known(source.seats, s.seats[k]) && Filed(s) && Filed(source)
    ensures Forward(s, CatchUp(s, source), k)
  {
  }

  lemma PeersKnown(c: Core, id: string, k: int)
    requires Inv(c) && Synced(c) && IsPeer(id) && IsSeat(k)
    ensures PRIMARY in c.stores && Filed(c.stores[PRIMARY])
    ensures id in c.stores && Filed(c.stores[id]) && k in c.stores[id].seats && Known(Primary(c), c.stores[id].seats[k])
  {
    hide Leased, PrimaryTracks, Sane, Coming, Known;
    assert Hall(c.stores[id]) && Hall(c.stores[PRIMARY]);
  }

  /** Versions never go back, and a replica that shows a reservation goes on
      showing it. */
  lemma ReplicasMoveForward(c: Core, a: Act, id: string, k: int)
    requires Inv(c) && Synced(c) && !a.Resetting? && IsPeer(id) && IsSeat(k)
    ensures id in c.stores && id in Do(c, a).stores && Forward(c.stores[id], Do(c, a).stores[id], k)
  {
    hide Inv, DeskThenWrite, Apply, CatchUp, Known, Coming, Filed;
    PeersKnown(c, id, k);
    if Enabled(c, a) && AtTheDesk(a) {
      hide Do, Enabled;
      var d, w := DeskOf(c, a);
      DeskLeavesReplicas(c, d, w, Do(c, a), id);
    } else if Enabled(c, a) && a.Delivering? {
      ApplyMovesForward(Primary(c), c.stores[id], a.message.update, k);
    } else if Enabled(c, a) {
      CatchUpMovesForward(c.stores[id], c.stores[PRIMARY], k);
    }
  }

  lemma ForwardTwice(s: Store, r: Store, t: Store, k: int)
    requires Forward(s, r, k) && Forward(r, t, k)
    ensures Forward(s, t, k)
  {
  }

  /** The same over whole runs. */
  lemma {:induction false} ForwardAlways(c: Core, acts: seq<Act>, id: string, k: int)
    requires Inv(c) && Synced(c) && NoReset(acts) && IsPeer(id) && IsSeat(k)
    ensures id in c.stores && id in After(c, acts).stores && Forward(c.stores[id], After(c, acts).stores[id], k)
  {
    hide Inv, Do, Synced, IsPeer, IsSeat, Forward;
    if acts == [] {
      NowForward(c, id, k);
    } else {
      var init := acts[..|acts| - 1];
      assert forall a :: a in init ==> a in acts;
      ForwardAlways(c, init, id, k);
      SyncedAlways(c, init);
      assert acts[|acts| - 1] in acts;
      ReplicasMoveForward(After(c, init), acts[|acts| - 1], id, k);
      ForwardTwice(c.stores[id], After(c, init).stores[id], After(c, acts).stores[id], k);
    }
  }

  lemma NowForward(c: Core, id: string, k: int)
    requires Inv(c) && Synced(c) && IsPeer(id) && IsSeat(k)
    ensures id in c.stores && Forward(c.stores[id], c.stores[id], k)
  {
    hide Inv, Synced;
    PeersKnown(c, id, k);
  }

  lemma StaleStaysStale(s: Store, r: Store, primary: map<int, SeatState>, u: SeatState)
    requires s.seats == primary && Known(primary, u) && Forward(s, r, u.seat)
    ensures Apply(r, u) == r
  {
  }

  lemma InFlightKnown(c: Core, m: Message)
    requires Inv(c) && Synced(c) && m in c.timers
    ensures PRIMARY in c.stores && Known(Primary(c), m.update) && IsSeat(m.update.seat)
  {
    hide Leased, PrimaryTracks, Sane, Hall, Known;
    assert Sendable(m);
  }

  /** A recovered peer equals the primary at once, and whatever was in flight
      to it then changes nothing whenever it arrives, after any run. */
  lemma RecoveryCatchesUp(c: Core, id: string, acts: seq<Act>, m: Message)
    requires Inv(c) && Synced(c) && IsPeer(id) && NoReset(acts)
    ensures id in c.stores && Recover(c, id).stores[id].seats == Primary(c) == Primary(Recover(c, id))
    ensures m in c.timers && m.peer == id ==>
              var d := After(Recover(c, id), acts);
              id in d.stores && Apply(d.stores[id], m.update) == d.stores[id]
  {
    hide Inv, Synced, CatchUp, Apply, After, Known, Forward;
    InvHasPrimary(c);
    CatchUpEqualsPrimary(c, id);
    if m in c.timers && m.peer == id {
      var r := Recover(c, id);
      InFlightKnown(c, m);
      RecoverKeepsInv(c, id);
      RecoverKeepsSynced(c, id);
      ForwardAlways(r, acts, id, m.update.seat);
      StaleStaysStale(r.stores[id], After(r, acts).stores[id], Primary(c), m.update);
    }
  }

  // ---------------------------------------------------------------------
  // The history of the primary
  // ---------------------------------------------------------------------

  /** The primary's row of that seat is `u`. */
  ghost predicate Holds(c: Core, u: SeatState) {
    PRIMARY in c.stores && u.seat in Primary(c) && Primary(c)[u.seat] == u
  }

  /** Some store has `u` for its seat, or a timer carries it. */
  ghost predicate Circulates(c: Core, u: SeatState) {
    || (exists id :: id in c.stores && u.seat in c.stores[id].seats && c.stores[id].seats[u.seat] == u)
    || (exists m :: m in c.timers && m.update == u)
  }

  /** Replicas and timers have nothing but what the primary holds right now. */
  ghost predicate NoPast(c: Core) {
    forall u :: Circulates(c, u) ==> Holds(c, u)
  }

  lemma FreshHasNoPast(nextId: nat)
    ensures NoPast(FreshCore(nextId, multiset{}))
  {
    hide Initialize, FreshSeats;
    PrimaryIsServer();
  }

  lemma WriteShowsItsUpdate(c: Core, seat: int, mode: SeatMode, owner: string, u: SeatState)
    requires Filled(c) && IsSeat(seat)
    requires Circulates(WritePrimary(c, seat, mode, owner), u)
    ensures Circulates(c, u) || Holds(WritePrimary(c, seat, mode, owner), u)
  {
    hide SERVER_IDS, Broadcast, Peers, Sane, Sendable;
    PrimaryIsServer();
    var v := SeatState(seat, mode, owner, c.stores[PRIMARY].clock + 1);
    var d := WritePrimary(c, seat, mode, owner);
    assert Hall(c.stores[PRIMARY]);
    if m :| m in d.timers && m.update == u { BroadcastMembers(c.timers, Peers(), v, m); }
  }

  lemma DeskShowsItsUpdate(c: Core, a: Act, u: SeatState)
    requires Inv(c) && Enabled(c, a) && AtTheDesk(a) && Circulates(Do(c, a), u)
    ensures Circulates(c, u) || Holds(Do(c, a), u)
  {
    hide Do, Inv, Filled, WritePrimary, KeepsReservations, Enabled, Holds;
    var d, w := DeskOf(c, a);
    if w.Some? { WriteShowsItsUpdate(d, w.value.seat, w.value.mode, w.value.owner, u); }
  }

  lemma DeliveryShowsNothingNew(c: Core, m: Message, u: SeatState)
    requires m in c.timers && m.peer in c.stores && Circulates(Deliver(c, m), u)
    ensures Circulates(c, u)
  {
  }

  lemma RecoveryShowsNothingNew(c: Core, id: string, u: SeatState)
    requires PRIMARY in c.stores && id in c.stores && Circulates(Recover(c, id), u)
    ensures Circulates(c, u)
  {
  }

  lemma ResetShowsItself(c: Core, u: SeatState)
    requires Circulates(Reset(c), u)
    ensures Circulates(c, u) || Holds(Reset(c), u)
  {
    hide Initialize, FreshSeats;
    PrimaryIsServer();
  }

  /** A step, resets included, makes nothing visible but what the primary holds after it. */
  lemma NothingElseNew(c: Core, a: Act, u: SeatState)
    requires Inv(c) && Circulates(Do(c, a), u)
    ensures Circulates(c, u) || Holds(Do(c, a), u)
  {
    hide Inv, Circulates, Holds, SweepSeats, Lock, Confirm, Cancel, Renew, Deliver, Recover, Reset;
    if Enabled(c, a) {
      match a
      case Delivering(m) => DeliveryShowsNothingNew(c, m, u);
      case Recovering(id) => RecoveryShowsNothingNew(c, id, u);
      case Resetting => ResetShowsItself(c, u);
      case _ => DeskShowsItsUpdate(c, a, u);
    }
  }

  /** In every run, resets included: whatever a replica or a timer has of a seat
      was the primary's row of that seat at some point of the run. */
  lemma {:induction false} CirculatingWasHeld(c: Core, acts: seq<Act>, u: SeatState)
    requires Inv(c) && NoPast(c) && Circulates(After(c, acts), u)
    ensures exists n: nat :: n <= |acts| && Holds(After(c, acts[..n]), u)
  {
    hide Inv, Do, Circulates, Holds;
    if acts == [] {
      assert Holds(After(c, acts[..0]), u);
    } else {
      var init := acts[..|acts| - 1];
      InvAlways(c, init);
      NothingElseNew(After(c, init), acts[|acts| - 1], u);
      if Circulates(After(c, init), u) {
        CirculatingWasHeld(c, init, u);
        var n: nat :| n <= |init| && Holds(After(c, init[..n]), u);
        assert init[..n] == acts[..n];
      } else {
        assert acts[..|acts|] == acts;
      }
    }
  }
}
