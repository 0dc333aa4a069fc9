/** The dashboard's state layer (dashboard.py): one object that owns the seat
    table and the components, and what each locked section does to them. */
module Dashboards {
  import opened Metrics
  import opened Booking
  import opened Breakers
  import opened FailoverManagers
  import opened Cluster
  import opened RecoveryManagers
  import opened DashboardRuns
  import C = CircuitBreakers
  import S = Synchronization
  import L = LeaseManagers

  /** One breaker per server, none sharing state with another. */
  ghost predicate Separate(bs: map<string, Breaker>, parts: set<object>) {
    && (forall id :: id in bs <==> id in SERVER_IDS)
    && (forall id :: id in bs ==> bs[id].Valid() && bs[id].settings == BREAKER)
    && (forall i, j :: i in bs && j in bs && i != j ==> bs[i].cb != bs[j].cb && bs[i].tracker != bs[j].tracker)
    && InParts(bs, parts)
  }

  ghost predicate InParts(bs: map<string, Breaker>, parts: set<object>) {
    forall id :: id in bs ==> bs[id].cb in parts && bs[id].tracker in parts
  }

  ghost predicate AllSeats(ks: set<int>) {
    forall k :: k in ks <==> 1 <= k <= SEAT_COUNT
  }

  lemma AllFree(seats: map<int, Seat>)
    requires AllSeats(seats.Keys) && forall k :: k in seats ==> seats[k] == FREE
    ensures seats == FreshSeats(SEAT_COUNT)
  {
    hide FreshSeats;
    FreshSeatsAreFree(SEAT_COUNT);
    var all := FreshSeats(SEAT_COUNT);
    assert forall k :: k in seats.Keys <==> 1 <= k <= SEAT_COUNT;
    assert forall k :: k in all.Keys <==> k in seats.Keys;
    assert seats == all;
  }

  lemma AllFreshSeats()
    ensures AllSeats(FreshSeats(SEAT_COUNT).Keys)
  {
    FreshSeatsAreFree(SEAT_COUNT);
  }

  ghost predicate AllFiled(stores: map<string, S.Store>) {
    forall id :: id in stores ==> S.Filed(stores[id])
  }

  lemma UpdateKeepsFiled(stores: map<string, S.Store>, id: string, seat: int, mode: S.SeatMode, owner: string)
    requires AllFiled(stores) && id in stores
    ensures AllFiled(stores[id := S.Update(stores[id], seat, mode, owner).0])
  {
  }

  lemma ApplyKeepsFiled(stores: map<string, S.Store>, id: string, u: S.SeatState)
    requires AllFiled(stores) && id in stores
    ensures AllFiled(stores[id := S.Apply(stores[id], u)])
  {
  }

  lemma CatchUpKeepsFiled(stores: map<string, S.Store>, id: string, source: string)
    requires AllFiled(stores) && id in stores && source in stores
    ensures S.Filed(stores[id]) && S.Filed(stores[source])
    ensures AllFiled(stores[id := S.CatchUp(stores[id], stores[source])])
  {
  }

  lemma FreshFiled()
    ensures AllFiled(FreshStores())
  {
    hide S.Initialize;
    S.InitialStore(SEAT_COUNT);
  }

  lemma LastWins(m: map<string, BreakerState>, id: string, a: BreakerState, b: BreakerState)
    ensures m[id := a][id := b] == m[id := b]
  {
  }

  /** The count of bookings does not matter to a write. */
  lemma CountApart(c: Core, n: nat, seat: int, mode: S.SeatMode, owner: string)
    requires PRIMARY in c.stores
    ensures WritePrimary(c.(granted := n), seat, mode, owner) == WritePrimary(c, seat, mode, owner).(granted := n)
    ensures WritePrimary(c, seat, mode, owner).granted == c.granted
  {
  }

  /** A row for every server. */
  ghost predicate Rows(servers: map<string, Server>) {
    forall id :: id in servers <==> id in SERVER_IDS
  }

  lemma FreshRows()
    ensures Rows(FreshServers())
  {
  }

  function Freed(seats: map<int, Seat>, ks: set<int>): map<int, Seat> {
    map k | k in seats :: if k in ks && seats[k].mode.Locked? then FREE else seats[k]
  }

  lemma NoneFreed(seats: map<int, Seat>)
    ensures Freed(seats, L.Seats({})) == seats
  {
  }

  lemma OneMoreFreed(seats: map<int, Seat>, leases: set<L.Lease>, lease: L.Lease)
    ensures var freed := Freed(seats, L.Seats(leases));
            Freed(seats, L.Seats(leases + {lease}))
            == if lease.seat in freed && freed[lease.seat].mode.Locked? then freed[lease.seat := FREE] else freed
  {
    assert L.Seats(leases + {lease}) == L.Seats(leases) + {lease.seat};
  }

  class Dashboard {
    var seats: map<int, Seat>
    var leaseManager: L.LeaseManager
    var stores: map<string, S.StateStore>
    var replicators: map<string, S.StateReplicator>
    var simulator: S.EventualConsistencySimulator?
    const timers: S.Timers
    var servers: map<string, Server>
    const breakers: map<string, Breaker>
    /** The stores of the present replication. */
    ghost var storeParts: set<object>
    /** The state of the breakers. */
    ghost const breakerParts: set<object>
    const failover: FailoverManager
    const recovery: RecoveryManager
    var successCount: nat
    var failureCount: nat

    ghost predicate StoresIn()
      reads `stores, `storeParts
    {
      forall id :: id in stores ==> stores[id] in storeParts
    }

    ghost function Repr(): set<object>
      reads `storeParts, `leaseManager
    {
      {this, leaseManager, timers, failover, recovery} + storeParts + breakerParts
    }

    ghost function StoreViews(): map<string, S.Store>
      requires StoresIn()
      reads `stores, `storeParts, storeParts
    {
      map id | id in stores :: stores[id].View()
    }

    ghost function BreakerViews(): map<string, BreakerState>
      requires InParts(breakers, breakerParts)
      reads breakerParts
    {
      map id | id in breakers :: breakers[id].View()
    }

    ghost predicate StoresApart()
      reads `stores, `replicators, `simulator
    {
      && PRIMARY in stores
      && (forall id :: id in stores <==> id in SERVER_IDS)
      && (forall i, j :: i in stores && j in stores && i != j ==> stores[i] != stores[j])
      && (forall id :: id in replicators <==> id in SERVER_IDS)
      && (forall id :: id in replicators ==> replicators[id].store == stores[id])
      && simulator != null && simulator.timers == timers
      && PRIMARY in replicators && simulator.replicator == replicators[PRIMARY]
      && replicators[PRIMARY].peers == Peers()
    }

    /** Components share no state. */
    ghost predicate Disjoint()
      reads `storeParts, `leaseManager
    {
      && storeParts !! breakerParts
      && {this, leaseManager, timers, failover, recovery} !! storeParts + breakerParts
    }

    ghost predicate Valid()
      reads this, Repr()
    {
      && InParts(breakers, breakerParts) && StoresIn()
      && Separate(breakers, breakerParts) && StoresApart() && Disjoint()
      && AllFiled(StoreViews())
      && leaseManager.Valid() && recovery.Valid()
      && failover.thresholds == THRESHOLDS
      && Rows(servers) && AllSeats(seats.Keys)
    }

    ghost function CoreView(): Core
      requires StoresIn()
      reads `seats, `leaseManager, leaseManager, `stores, `storeParts, storeParts, timers, `successCount
    {
      Core(seats, leaseManager.View(), StoreViews(), timers.bag, successCount)
    }

    ghost function View(): App
      requires InParts(breakers, breakerParts) && StoresIn()
      reads this, Repr()
    {
      App(CoreView(), servers, BreakerViews(), failover.states, failureCount)
    }

    lemma ViewIsWellFormed()
      requires Valid()
      ensures WellFormed(View()) && PRIMARY in View().core.stores
    {
    }

    constructor ()
      ensures Valid() && fresh(Repr()) && View() == Start()
    {
      hide SERVER_IDS, AllFiled, AllSeats, FreshSeats, FreshStores, FreshServers, FreshBreakers, FreshHealth;
      hide Separate, StoresApart, Rows, L.Coupled;
      var leases, health, recoveries, bag, bs, parts := NewComponents();
      seats := FreshSeats(SEAT_COUNT);
      servers := FreshServers();
      leaseManager, failover, recovery, timers, breakers, breakerParts := leases, health, recoveries, bag, bs, parts;
      stores, storeParts, replicators, simulator := map[], {}, map[], null;
      successCount, failureCount := 0, 0;
      new;
      Boot();
    }

    static method NewComponents()
      returns (leases: L.LeaseManager, health: FailoverManager, recoveries: RecoveryManager, bag: S.Timers,
               bs: map<string, Breaker>, ghost parts: set<object>)
      ensures leases.Valid() && leases.View() == L.Table(map[], map[], 0)
      ensures health.thresholds == THRESHOLDS && health.states == map[]
      ensures recoveries.Valid() && bag.bag == multiset{}
      ensures Separate(bs, parts) && InParts(bs, parts)
      ensures (map id | id in bs :: bs[id].View()) == FreshBreakers()
      ensures fresh(parts + {leases, health, recoveries, bag}) && {leases, health, recoveries, bag} !! parts
    {
      leases := new L.LeaseManager(0);
      health := new FailoverManager(2, 2);
      recoveries := new RecoveryManager();
      bag := new S.Timers();
      hide SERVER_IDS, Separate, FreshBreakers, L.Coupled;
      bs, parts := NewBreakers();
    }

    /** The steps of the initialization that need the finished object. */
    method Boot()
      requires InParts(breakers, breakerParts) && StoresIn() && Separate(breakers, breakerParts)
          && {this, leaseManager, timers, failover, recovery} !! breakerParts
      requires leaseManager.Valid() && recovery.Valid()
      requires failover.thresholds == THRESHOLDS && failover.states == map[]
      requires seats == FreshSeats(SEAT_COUNT) && leaseManager.View() == L.Table(map[], map[], 0)
          && timers.bag == multiset{}
      requires successCount == failureCount == 0
      requires servers == FreshServers() && BreakerViews() == FreshBreakers()
      modifies `stores, `storeParts, `replicators, `simulator, failover
      ensures Valid() && fresh(storeParts) && View() == Start()
      ensures leaseManager == old(leaseManager)
    {
      hide SERVER_IDS, AllFiled, AllSeats, FreshSeats, FreshStores, FreshServers, FreshBreakers, FreshHealth;
      hide Separate, StoresApart, Rows, L.Coupled;
      InitializeSynchronization();
      RecordInitialHeartbeats();
      assert Rows(servers) by { FreshRows(); }
      assert AllSeats(seats.Keys) by { AllFreshSeats(); }
      assert AllFiled(StoreViews()) by { FreshFiled(); }
      assert BreakerViews() == old(BreakerViews());
    }

    static method NewBreakers() returns (bs: map<string, Breaker>, ghost parts: set<object>)
      ensures Separate(bs, parts) && InParts(bs, parts) && fresh(parts)
      ensures (map id | id in bs :: bs[id].View()) == FreshBreakers()
    {
      hide SERVER_IDS;
      bs, parts := map[], {};
      for i := 0 to |SERVER_IDS|
        invariant forall id :: id in bs <==> id in SERVER_IDS[..i]
        invariant InParts(bs, parts) && fresh(parts)
        invariant forall id :: id in bs ==>
          && bs[id].Valid() && bs[id].settings == BREAKER
          && bs[id].View() == BreakerState(C.FRESH, [])
        invariant forall i, j :: i in bs && j in bs && i != j ==> bs[i].cb != bs[j].cb && bs[i].tracker != bs[j].tracker
      {
        assert SERVER_IDS[..i + 1] == SERVER_IDS[..i] + [SERVER_IDS[i]];
        var breaker := new Breaker(BREAKER);
        bs := bs[SERVER_IDS[i] := breaker];
        parts := parts + {breaker.cb, breaker.tracker};
      }
      assert SERVER_IDS[..|SERVER_IDS|] == SERVER_IDS;
    }

    method RecordInitialHeartbeats()
      requires failover.thresholds == THRESHOLDS && failover.states == map[]
      modifies failover
      ensures failover.states == FreshHealth()
    {
      for i := 0 to |SERVER_IDS|
        invariant forall id :: id in failover.states <==> id in SERVER_IDS[..i]
        invariant forall id :: id in failover.states ==> failover.states[id] == Report(THRESHOLDS, UNKNOWN, true)
      {
        assert SERVER_IDS[..i + 1] == SERVER_IDS[..i] + [SERVER_IDS[i]];
        ServersDistinct();
        failover.UpdateHealth(SERVER_IDS[i], true);
      }
    }

    /** Only one breaker was touched. */
    twostate lemma OneBreaker(id: string)
      requires InParts(breakers, breakerParts) && StoresIn() && Separate(breakers, breakerParts) && id in breakers
      requires forall k :: k in breakers && k != id ==> unchanged(breakers[k].cb) && unchanged(breakers[k].tracker)
      ensures BreakerViews() == old(BreakerViews())[id := breakers[id].View()]
    {
      assert BreakerViews() == old(BreakerViews())[id := breakers[id].View()];
    }

    twostate lemma OneStore(id: string)
      requires old(StoresApart()) && old(StoresIn()) && stores == old(stores) && storeParts == old(storeParts)
          && id in stores
      requires forall k :: k in stores && k != id ==> unchanged(stores[k])
      ensures StoreViews() == old(StoreViews())[id := stores[id].View()]
    {
    }

    method InitializeSynchronization()
      modifies `stores, `storeParts, `replicators, `simulator
      ensures StoresIn() && StoresApart() && fresh(storeParts) && StoreViews() == FreshStores()
    {
      hide SERVER_IDS, FreshStores, StoresApart;
      InitializeStores();
      InitializeReplicators();
    }

    method InitializeStores()
      modifies `stores, `storeParts
      ensures StoresIn() && fresh(storeParts) && StoreViews() == FreshStores()
      ensures forall id :: id in stores <==> id in SERVER_IDS
      ensures forall i, j :: i in stores && j in stores && i != j ==> stores[i] != stores[j]
      ensures forall id :: id in stores ==> stores[id].serverId == id
    {
      hide SERVER_IDS, S.Initialize;
      stores, storeParts := map[], {};
      for i := 0 to |SERVER_IDS|
        invariant forall id :: id in stores <==> id in SERVER_IDS[..i]
        invariant forall i, j :: i in stores && j in stores && i != j ==> stores[i] != stores[j]
        invariant StoresIn() && fresh(storeParts)
        invariant forall id :: id in stores ==>
          && stores[id].serverId == id
          && stores[id].View() == S.Initialize(S.EMPTY, SEAT_COUNT)
      {
        assert SERVER_IDS[..i + 1] == SERVER_IDS[..i] + [SERVER_IDS[i]];
        var store := new S.StateStore(SERVER_IDS[i]);
        store.InitializeSeats(SEAT_COUNT);
        stores := stores[SERVER_IDS[i] := store];
        storeParts := storeParts + {store};
      }
      assert SERVER_IDS[..|SERVER_IDS|] == SERVER_IDS;
    }

    method InitializeReplicators()
      requires forall id :: id in stores <==> id in SERVER_IDS
      requires forall i, j :: i in stores && j in stores && i != j ==> stores[i] != stores[j]
      requires forall id :: id in stores ==> stores[id].serverId == id
      modifies `replicators, `simulator
      ensures StoresApart()
    {
      hide S.PeersOf, SERVER_IDS;
      replicators := map[];
      for i := 0 to |SERVER_IDS|
        invariant forall id :: id in replicators <==> id in SERVER_IDS[..i]
        invariant forall id :: id in replicators ==>
          replicators[id].store == stores[id] && replicators[id].peers == S.PeersOf(id, SERVER_IDS)
      {
        assert SERVER_IDS[..i + 1] == SERVER_IDS[..i] + [SERVER_IDS[i]];
        var replicator := new S.StateReplicator(stores[SERVER_IDS[i]], SERVER_IDS);
        replicators := replicators[SERVER_IDS[i] := replicator];
      }
      assert SERVER_IDS[..|SERVER_IDS|] == SERVER_IDS;
      PrimaryIsServer();
      simulator := new S.EventualConsistencySimulator(replicators[PRIMARY], timers);
    }

    /** A change of the lease manager alone. */
    twostate lemma OnlyLeases()
      requires old(Valid()) && unchanged(this) && unchanged(storeParts) && unchanged(breakerParts)
      requires unchanged(timers) && unchanged(failover) && unchanged(recovery) && leaseManager.Valid()
      ensures Valid() && View() == old(View()).(core := old(View().core).(leases := leaseManager.View()))
    {
      hide SERVER_IDS, Separate, StoresApart, AllFiled, AllSeats, Rows, L.Coupled;
      assert StoreViews() == old(StoreViews()) && BreakerViews() == old(BreakerViews());
    }

    /** A change of the stores and the timers alone. */
    twostate lemma OnlyReplication()
      requires old(Valid()) && unchanged(this) && unchanged(leaseManager) && unchanged(breakerParts)
      requires unchanged(failover) && recovery.Valid() && AllFiled(StoreViews())
      ensures Valid() && View() == old(View()).(core := old(View().core).(stores := StoreViews(), timers := timers.bag))
    {
      hide SERVER_IDS, Separate, StoresApart, AllFiled, AllSeats, Rows, L.Coupled;
      assert BreakerViews() == old(BreakerViews());
    }

    /** A change of the breakers alone, and of one of them. */
    twostate lemma OnlyBreaker(id: string)
      requires old(Valid()) && unchanged(this) && unchanged(leaseManager) && unchanged(storeParts)
      requires unchanged(timers) && unchanged(failover) && unchanged(recovery) && id in breakers
      requires forall k :: k in breakers && k != id ==> unchanged(breakers[k].cb) && unchanged(breakers[k].tracker)
      ensures Valid() && View() == old(View()).(breakers := old(View()).breakers[id := breakers[id].View()])
    {
      hide SERVER_IDS, StoresApart, AllFiled, AllSeats, Rows, L.Coupled;
      OneBreaker(id);
      assert StoreViews() == old(StoreViews());
    }

    method SetSeat(k: int, row: Seat)
      requires Valid() && k in seats
      modifies `seats
      ensures Valid() && View() == old(View()).(core := old(View().core).(seats := old(seats)[k := row]))
    {
      hide SERVER_IDS, Separate, StoresApart, AllFiled, AllSeats, Rows, L.Coupled;
      seats := seats[k := row];
      assert seats.Keys == old(seats.Keys);
      assert StoreViews() == old(StoreViews()) && BreakerViews() == old(BreakerViews());
    }

    /** The locked seats of expired leases come back, in whatever order. */
    method ReturnSeats(expired: set<L.Lease>)
      requires Valid()
      modifies `seats
      ensures Valid() && View() == old(View()).(core := old(View().core).(seats := Freed(old(seats), L.Seats(expired))))
    {
      hide SERVER_IDS, Separate, StoresApart, AllFiled, AllSeats, Rows, StoreViews, BreakerViews, L.Coupled;
      ghost var before := View();
      hide Freed, L.Seats;
      ghost var returned: set<L.Lease> := {};
      var todo := expired;
      NoneFreed(seats);
      while todo != {}
        invariant todo + returned == expired
        invariant Valid()
        invariant View() == before.(core := before.core.(seats := seats))
        invariant seats == Freed(before.core.seats, L.Seats(returned))
        decreases todo
      {
        var lease :| lease in todo;
        OneMoreFreed(before.core.seats, returned, lease);
        todo, returned := todo - {lease}, returned + {lease};
        if lease.seat in seats && seats[lease.seat].mode.Locked? { SetSeat(lease.seat, FREE); }
      }
      assert returned == expired;
    }

    method ExpireLeases(now: real)
      requires Valid()
      modifies `seats, leaseManager
      ensures Valid() && View() == old(View()).(core := SweepSeats(old(View().core), now))
    {
      hide SERVER_IDS, Separate, StoresApart, AllFiled, AllSeats, Rows, StoreViews, BreakerViews, L.Sweep;
      hide L.Coupled, L.Expired, L.Seats;
      var expired := leaseManager.ExpireLeases(now);
      OnlyLeases();
      ReturnSeats(expired);
      assert seats == SweepSeats(old(CoreView()), now).seats;
    }

    // -------------------------------------------------------------------
    // The desk
    // -------------------------------------------------------------------

    method UpdatePrimary(seat: int, mode: S.SeatMode, owner: string) returns (updated: Option<S.SeatState>)
      requires Valid()
      modifies storeParts
      ensures Valid()
      ensures var (store, u) := S.Update(old(View().core).stores[PRIMARY], seat, mode, owner);
              && updated == u
              && View() == old(View()).(core := old(View().core).(stores := old(View().core).stores[PRIMARY := store]))
    {
      hide SERVER_IDS, Separate, AllFiled, AllSeats, Rows, S.Update, Peers, L.Coupled;
      updated := stores[PRIMARY].UpdateSeat(seat, mode, owner);
      OneStore(PRIMARY);
      assert AllFiled(StoreViews()) by { UpdateKeepsFiled(old(StoreViews()), PRIMARY, seat, mode, owner); }
      OnlyReplication();
    }

    method Broadcast(u: S.SeatState)
      requires Valid()
      modifies timers
      ensures Valid()
      ensures View() == old(View()).(core := old(View().core).(timers :=
          S.Broadcast(old(View().core).timers, Peers(), u)))
    {
      hide SERVER_IDS, Separate, AllFiled, AllSeats, Rows, S.Broadcast, Peers, L.Coupled;
      if simulator != null { simulator.BroadcastWithDelay(u); }
      assert StoreViews() == old(StoreViews());
      OnlyReplication();
    }

    /** A write to the primary store, broadcast to its peers. */
    method WriteToPrimary(seat: int, mode: S.SeatMode, owner: string)
      requires Valid()
      modifies storeParts, timers
      ensures Valid() && View() == old(View()).(core := WritePrimary(old(View().core), seat, mode, owner))
    {
      hide SERVER_IDS, Separate, AllFiled, AllSeats, Rows, StoreViews, BreakerViews, S.Broadcast, S.Update;
      hide Peers, L.Coupled;
      var updated := UpdatePrimary(seat, mode, owner);
      if updated.Some? { Broadcast(updated.value); }
    }

    method Refuse()
      requires Valid()
      modifies `failureCount
      ensures Valid() && View() == old(View()).(failures := old(View()).failures + 1)
    {
      hide SERVER_IDS, Separate, StoresApart, AllFiled, AllSeats, Rows, L.Coupled;
      failureCount := failureCount + 1;
      assert StoreViews() == old(StoreViews()) && BreakerViews() == old(BreakerViews());
    }

    method ConfirmSeat(seat: int, now: real) returns (ok: bool)
      requires Valid()
      modifies `seats, `failureCount, leaseManager, storeParts, timers
      ensures Valid() && ok == Confirm(old(View().core), seat, now).1
      ensures View() == Answered(old(View()), Confirm(old(View().core), seat, now).0, ok)
      ensures View() == Step(old(View()), Event.ConfirmSeat(seat, now))
    {
      hide SERVER_IDS, Separate, StoresApart, AllFiled, AllSeats, Rows, StoreViews, BreakerViews, L.Sweep;
      hide L.Coupled, L.Release, WritePrimary;
      hide Step, WellFormed;
      ViewIsWellFormed();
      AnsweredStep(View(), Event.ConfirmSeat(seat, now));
      if seat !in seats || seats[seat].mode != S.Locked {
        Refuse();
        return false;
      }
      var row := seats[seat];
      var lease := leaseManager.ValidateLease(row.leaseId, Some(seat), now);
      OnlyLeases();
      if lease.None? {
        Refuse();
        return false;
      }
      leaseManager.ReleaseLease(row.leaseId);
      OnlyLeases();
      SetSeat(seat, row.(mode := S.Reserved, leaseId := None, expiresAt := 0.0));
      WriteToPrimary(seat, S.Reserved, row.owner);
      return true;
    }

    method CancelLock(seat: int) returns (ok: bool)
      requires Valid()
      modifies `seats, `failureCount, leaseManager
      ensures Valid() && ok == Cancel(old(View().core), seat).1
      ensures View() == Answered(old(View()), Cancel(old(View().core), seat).0, ok)
      ensures View() == Step(old(View()), Event.CancelLock(seat))
    {
      hide SERVER_IDS, Separate, StoresApart, AllFiled, AllSeats, Rows, StoreViews, BreakerViews, L.Coupled, L.Release;
      hide Step, WellFormed;
      ViewIsWellFormed();
      AnsweredStep(View(), Event.CancelLock(seat));
      if seat !in seats || seats[seat].mode != S.Locked {
        Refuse();
        return false;
      }
      leaseManager.ReleaseLease(seats[seat].leaseId);
      OnlyLeases();
      SetSeat(seat, FREE);
      return true;
    }

    method RenewLease(seat: int, sweepAt: real, renewAt: real) returns (ok: bool)
      requires Valid()
      modifies `seats, `failureCount, leaseManager
      ensures Valid() && ok == Renew(old(View().core), seat, sweepAt, renewAt).1
      ensures View() == Answered(old(View()), Renew(old(View().core), seat, sweepAt, renewAt).0, ok)
      ensures View() == Step(old(View()), Event.RenewLease(seat, sweepAt, renewAt))
    {
      hide SERVER_IDS, Separate, StoresApart, AllFiled, AllSeats, Rows, StoreViews, BreakerViews, L.Coupled, L.Renew;
      hide Step, WellFormed;
      ViewIsWellFormed();
      AnsweredStep(View(), Event.RenewLease(seat, sweepAt, renewAt));
      if seat !in seats || seats[seat].mode != S.Locked || seats[seat].leaseId.None? {
        Refuse();
        return false;
      }
      var renewed := leaseManager.RenewLease(seats[seat].leaseId, None, sweepAt, renewAt);
      OnlyLeases();
      if renewed.None? {
        Refuse();
        return false;
      }
      SetSeat(seat, seats[seat].(expiresAt := renewed.value.expiresAt));
      return true;
    }

    // -------------------------------------------------------------------
    // Replication
    // -------------------------------------------------------------------

    /** The timer is done. */
    method DropTimer(m: S.Message)
      requires Valid()
      modifies timers
      ensures Valid()
      ensures View() == old(View()).(core := old(View().core).(timers := old(View().core).timers - multiset{m}))
    {
      hide SERVER_IDS, Separate, AllFiled, AllSeats, Rows, Peers, L.Coupled;
      timers.bag := timers.bag - multiset{m};
      assert StoreViews() == old(StoreViews());
      OnlyReplication();
    }

    method ApplyAt(peer: string, u: S.SeatState)
      requires Valid() && peer in View().core.stores
      modifies storeParts
      ensures Valid()
      ensures var stores := old(View().core).stores;
              View() == old(View()).(core := old(View().core).(stores := stores[peer := S.Apply(stores[peer], u)]))
    {
      hide SERVER_IDS, Separate, AllFiled, AllSeats, Rows, S.Apply, Peers, L.Coupled;
      replicators[peer].ApplyRemoteUpdate(u);
      OneStore(peer);
      assert AllFiled(StoreViews()) by { ApplyKeepsFiled(old(StoreViews()), peer, u); }
      OnlyReplication();
    }

    /** A timer fires. It delivers into the replicators of today. */
    method OnSyncDelivered(m: S.Message)
      requires Valid() && m in timers.bag && m.peer in View().core.stores
      modifies timers, storeParts
      ensures Valid() && View() == Step(old(View()), Event.SyncDelivered(m))
    {
      hide SERVER_IDS, Separate, StoresApart, AllFiled, AllSeats, Rows, StoreViews, BreakerViews, S.Apply;
      hide Peers, L.Coupled;
      hide Step, WellFormed;
      ViewIsWellFormed();
      DeliverStep(View(), m);
      DropTimer(m);
      ApplyAt(m.peer, m.update);
    }

    method ListPrimary() returns (listing: seq<S.SeatState>)
      requires Valid()
      ensures S.Lists(listing, View().core.stores[PRIMARY])
    {
      hide SERVER_IDS, Separate, AllSeats, Rows, S.Lists, S.Filed, Peers, L.Coupled;
      assert S.Filed(StoreViews()[PRIMARY]);
      listing := stores[PRIMARY].ListSeats();
    }

    /** A server receives updates and applies them in turn. */
    method ReceiveUpdates(id: string, updates: seq<S.SeatState>)
      requires Valid() && id in View().core.stores
      requires AllFiled(View().core.stores[id := S.ApplyAll(View().core.stores[id], updates)])
      modifies recovery, storeParts
      ensures Valid() && recovery.members == old(recovery.members) + {id}
      ensures var stores := old(View().core).stores;
              View() == old(View()).(core := old(View().core).(stores := stores[id := S.ApplyAll(stores[id], updates)]))
    {
      hide SERVER_IDS, Separate, AllFiled, AllSeats, Rows, S.ApplyAll, Peers, L.Coupled;
      recovery.ReceiveSyncUpdates(id, updates, replicators[id]);
      OneStore(id);
      OnlyReplication();
    }

    /** A server takes in the primary's seats. */
    method CatchUpServer(id: string)
      requires Valid() && id in View().core.stores
      modifies recovery, storeParts
      ensures Valid() && recovery.members == old(recovery.members) + {id}
      ensures View() == old(View()).(core := Recover(old(View().core), id))
    {
      hide SERVER_IDS, Separate, StoresApart, AllFiled, AllSeats, Rows, StoreViews, BreakerViews;
      hide S.CatchUp, S.ApplyAll, S.Lists, S.Filed, Peers, L.Coupled, WellFormed;
      ViewIsWellFormed();
      ghost var before := View().core.stores;
      CatchUpKeepsFiled(before, id, PRIMARY);
      var listing := ListPrimary();
      S.ListingCatchesUp(before[id], before[PRIMARY], listing);
      ReceiveUpdates(id, listing);
    }

    method JoinServer(id: string)
      requires Valid()
      modifies recovery
      ensures Valid() && id in recovery.members && View() == old(View())
    {
      hide SERVER_IDS, Separate, StoresApart, AllFiled, AllSeats, Rows, Peers, L.Coupled;
      recovery.MarkRecovered(id);
      recovery.RejoinCluster(id);
      assert StoreViews() == old(StoreViews()) && BreakerViews() == old(BreakerViews());
    }

    method SetOnline(id: string, online: bool)
      requires Valid() && id in servers
      modifies `servers
      ensures Valid() && View() == old(View()).(servers := old(servers)[id := old(servers)[id].(online := online)])
    {
      hide SERVER_IDS, Separate, StoresApart, AllFiled, AllSeats, L.Coupled;
      servers := servers[id := servers[id].(online := online)];
      assert StoreViews() == old(StoreViews()) && BreakerViews() == old(BreakerViews());
    }

    method NoteHealth(id: string, ok: bool)
      requires Valid()
      modifies failover
      ensures Valid()
      ensures View() == old(View()).(health := old(View()).health[id :=
          Report(THRESHOLDS, HealthOf(old(View()).health, id), ok)])
    {
      hide SERVER_IDS, Separate, StoresApart, AllFiled, AllSeats, Rows, L.Coupled, Report;
      failover.UpdateHealth(id, ok);
      assert StoreViews() == old(StoreViews()) && BreakerViews() == old(BreakerViews());
    }

    method ToggleServer(id: string)
      requires Valid()
      modifies `servers, failover, recovery, storeParts
      ensures Valid() && View() == Step(old(View()), Event.ToggleServer(id))
      ensures id in servers && servers[id].online ==> id in recovery.members
    {
      hide SERVER_IDS, Separate, AllFiled, AllSeats, StoreViews, BreakerViews, Report, Recover, Peers, L.Coupled;
      hide Step, WellFormed;
      ViewIsWellFormed();
      ToggleStep(View(), id);
      if id !in servers { return; }
      SetOnline(id, !servers[id].online);
      NoteHealth(id, servers[id].online);
      if servers[id].online {
        JoinServer(id);
        if id != PRIMARY { CatchUpServer(id); }
      }
    }

    method FreeAllSeats()
      requires Valid()
      modifies `seats
      ensures Valid() && View() == old(View()).(core := old(View().core).(seats := FreshSeats(SEAT_COUNT)))
    {
      hide SERVER_IDS, Separate, StoresApart, AllFiled, Rows, StoreViews, BreakerViews, FreshSeats, L.Coupled;
      ghost var before := View();
      for k := 1 to SEAT_COUNT + 1
        invariant Valid() && seats.Keys == before.core.seats.Keys
        invariant View() == before.(core := before.core.(seats := seats))
        invariant forall j :: 1 <= j < k ==> seats[j] == FREE
      {
        SetSeat(k, FREE);
      }
      AllFree(seats);
    }

    method NewLeases()
      requires Valid()
      modifies `leaseManager
      ensures Valid() && fresh(leaseManager)
      ensures View() == old(View()).(core := old(View().core).(leases :=
          L.Table(map[], map[], old(View().core).leases.nextId)))
    {
      hide SERVER_IDS, Separate, StoresApart, AllFiled, AllSeats, Rows, L.Coupled;
      leaseManager := new L.LeaseManager(leaseManager.nextId);
      assert StoreViews() == old(StoreViews()) && BreakerViews() == old(BreakerViews());
    }

    method NewCounts()
      requires Valid()
      modifies `successCount, `failureCount
      ensures Valid() && View() == old(View()).(core := old(View().core).(granted := 0), failures := 0)
    {
      hide SERVER_IDS, Separate, StoresApart, AllFiled, AllSeats, Rows, L.Coupled;
      successCount, failureCount := 0, 0;
      assert StoreViews() == old(StoreViews()) && BreakerViews() == old(BreakerViews());
    }

    /** New stores and replicators. */
    method NewReplication()
      requires Valid()
      modifies `stores, `storeParts, `replicators, `simulator
      ensures Valid() && fresh(storeParts)
      ensures View() == old(View()).(core := old(View().core).(stores := FreshStores()))
    {
      hide SERVER_IDS, Separate, StoresApart, AllFiled, AllSeats, Rows, FreshStores, L.Coupled;
      InitializeSynchronization();
      FreshFiled();
      assert BreakerViews() == old(BreakerViews());
    }

    /** New leases and new replication; the timers of the old one run on. */
    method ResetAll()
      requires Valid()
      modifies `seats, `leaseManager, `stores, `storeParts, `replicators, `simulator, `successCount, `failureCount
      ensures Valid() && fresh(Repr() - old(Repr()))
      ensures View() == Step(old(View()), Event.ResetAll)
    {
      hide Step, WellFormed;
      hide SERVER_IDS, Separate, StoresApart, AllFiled, AllSeats, Rows, StoreViews, BreakerViews, FreshSeats;
      hide FreshStores, L.Coupled;
      ViewIsWellFormed();
      ResetStep(View());
      FreeAllSeats();
      NewLeases();
      NewCounts();
      NewReplication();
    }

    // -------------------------------------------------------------------
    // Routing
    // -------------------------------------------------------------------

    method GetState(id: string, now: real) returns (mode: C.Mode)
      requires Valid() && id in View().breakers
      modifies breakerParts
      ensures Valid() && mode == ObserveBreaker(BREAKER, old(View()).breakers[id], now).circuit.mode
      ensures View() == old(View()).(breakers := old(View()).breakers[id :=
          ObserveBreaker(BREAKER, old(View()).breakers[id], now)])
    {
      hide SERVER_IDS, StoresApart, AllFiled, AllSeats, Rows, StoreViews, L.Coupled, C.Observe;
      mode := breakers[id].GetState(now);
      OnlyBreaker(id);
    }

    method AllowRequest(id: string, now: real) returns (allowed: bool)
      requires Valid() && id in View().breakers
      modifies breakerParts
      ensures Valid() && allowed == !ObserveBreaker(BREAKER, old(View()).breakers[id], now).circuit.mode.OPEN?
      ensures View() == old(View()).(breakers := old(View()).breakers[id :=
          ObserveBreaker(BREAKER, old(View()).breakers[id], now)])
    {
      hide SERVER_IDS, StoresApart, AllFiled, AllSeats, Rows, StoreViews, L.Coupled, C.Observe;
      allowed := breakers[id].AllowRequest(now);
      OnlyBreaker(id);
    }

    method FailurePercentage(id: string, now: real) returns (percent: real)
      requires Valid() && id in View().breakers
      modifies breakerParts
      ensures Valid()
      ensures View() == old(View()).(breakers := old(View()).breakers[id :=
          RateBreaker(BREAKER, old(View()).breakers[id], now)])
    {
      hide SERVER_IDS, StoresApart, AllFiled, AllSeats, Rows, StoreViews, L.Coupled, RateBreaker;
      percent := breakers[id].FailurePercentage(now);
      OnlyBreaker(id);
    }

    method RecordFailure(id: string, t: FailureTimes)
      requires Valid() && id in View().breakers
      modifies breakerParts
      ensures Valid()
      ensures View() == old(View()).(breakers := old(View()).breakers[id :=
          FailBreaker(BREAKER, old(View()).breakers[id], t)])
    {
      hide SERVER_IDS, StoresApart, AllFiled, AllSeats, Rows, StoreViews, L.Coupled, FailBreaker;
      breakers[id].Fail(t);
      OnlyBreaker(id);
    }

    method RecordSuccess(id: string, now: real)
      requires Valid() && id in View().breakers
      modifies breakerParts
      ensures Valid()
      ensures View() == old(View()).(breakers := old(View()).breakers[id :=
          SucceedBreaker(BREAKER, old(View()).breakers[id], now)])
    {
      hide SERVER_IDS, StoresApart, AllFiled, AllSeats, Rows, StoreViews, L.Coupled, SucceedBreaker;
      breakers[id].Succeed(now);
      OnlyBreaker(id);
    }

    method MetricsFor(id: string, r: StatusReading) returns (m: ServerMetrics)
      requires Valid() && id in servers && id in View().breakers
      modifies breakerParts
      ensures Valid() && m == ServerMetrics(id, StatusOf(servers[id], old(View()).breakers[id], r))
      ensures View() == old(View()).(breakers := old(View()).breakers[id :=
          PolledBreaker(servers[id], old(View()).breakers[id], r)])
    {
      hide SERVER_IDS, Separate, StoresApart, AllFiled, AllSeats, Rows, StoreViews, BreakerViews, L.Coupled;
      hide ObserveBreaker, RateBreaker;
      var online := false;
      if servers[id].online {
        var mode := GetState(id, r.state);
        online := mode != C.OPEN;
      }
      var _ := FailurePercentage(id, r.rate);
      m := ServerMetrics(id, if online then Online else Offline);
    }

    /** The metrics of every server; looking at a breaker may move it on. */
    method CurrentMetrics(at: string -> StatusReading) returns (ms: seq<ServerMetrics>)
      requires Valid() && WellFormed(View())
      modifies breakerParts
      ensures Valid() && WellFormed(View())
      ensures ms == MetricsOf(old(View()).servers, old(View()).breakers, SERVER_IDS, at)
      ensures View() == old(View()).(breakers := Poll(old(View()).servers, old(View()).breakers, SERVER_IDS, at))
    {
      hide SERVER_IDS, Separate, StoresApart, Disjoint, AllFiled, AllSeats, Rows, StoreViews, BreakerViews;
      hide L.Coupled, PolledBreaker, StatusOf;
      ghost var before := View();
      ms := [];
      for i := 0 to |SERVER_IDS|
        invariant Valid()
        invariant View() == before.(breakers := Poll(before.servers, before.breakers, SERVER_IDS[..i], at))
        invariant ms == MetricsOf(before.servers, before.breakers, SERVER_IDS[..i], at)
      {
        var id := SERVER_IDS[i];
        assert SERVER_IDS[..i + 1][..i] == SERVER_IDS[..i];
        var m := MetricsFor(id, at(id));
        ms := ms + [m];
      }
      assert SERVER_IDS[..|SERVER_IDS|] == SERVER_IDS;
    }

    method SelectCircuitSafeServer(pick: string, ms: seq<ServerMetrics>, t: CallTimes) returns (target: Option<string>)
      requires Valid() && WellFormed(View()) && pick in SERVER_IDS
      requires forall m :: m in ms ==> m.serverId in SERVER_IDS
      modifies breakerParts
      ensures Valid() && (View(), target) == CircuitSafe(old(View()), pick, ms, t)
    {
      hide SERVER_IDS, Separate, StoresApart, AllFiled, AllSeats, Rows, StoreViews, BreakerViews, L.Coupled;
      hide ObserveBreaker, Target;
      var allowed := AllowRequest(pick, t.route);
      if allowed { return Some(pick); }
      target := failover.ChooseFailoverTarget(ms);
      TargetIsFirstUsable(failover.states, ms);
      if target.None? || target.value == pick { return None; }
      allowed := AllowRequest(target.value, t.redirect);
      if !allowed { target := None; }
    }

    /** The lease, the locked seat, the primary's write and the broadcast; the
        booking is not counted yet. */
    method LockSeat(seat: int, owner: string, server: string, sweepAt: real, grantAt: real) returns (ok: bool)
      requires Valid() && seat in seats
      modifies `seats, leaseManager, storeParts, timers
      ensures Valid()
      ensures var (core, lease) := Lock(old(View()).core, seat, owner, server, sweepAt, grantAt);
              && ok == lease.Some? && View() == old(View()).(core := core.(granted := old(View()).core.granted))
              && core.granted == old(View()).core.granted + if ok then 1 else 0
    {
      hide SERVER_IDS, Separate, StoresApart, AllFiled, AllSeats, Rows, StoreViews, BreakerViews, L.Coupled;
      hide L.Acquire, WritePrimary;
      var lease := leaseManager.AcquireLease(seat, server, owner, Some(LEASE_SECONDS), sweepAt, grantAt);
      OnlyLeases();
      ok := lease.Some?;
      if ok {
        SetSeat(seat, Seat(S.Locked, owner, Some(lease.value.id), lease.value.expiresAt, server));
        ghost var locked := View().core;
        ViewIsWellFormed();
        WriteToPrimary(seat, S.Locked, owner);
        CountApart(locked, locked.granted + 1, seat, S.Locked, owner);
        CountApart(locked.(granted := locked.granted + 1), 0, seat, S.Locked, owner);
      }
    }

    /** A reservation; if it is granted, it is not counted yet. */
    method ReserveOnServer(server: string, r: Request) returns (result: BookResult)
      requires Valid() && WellFormed(View()) && server in SERVER_IDS && r.seat in seats
      modifies `seats, leaseManager, storeParts, timers, breakerParts
      ensures Valid() && result == Reserve(old(View()), server, r).1
      ensures var a := Reserve(old(View()), server, r).0;
              && View() == a.(core := a.core.(granted := old(View()).core.granted))
              && a.core.granted == old(View()).core.granted + if result.Granted? then 1 else 0
    {
      hide SERVER_IDS, Separate, StoresApart, AllFiled, AllSeats, Rows, StoreViews, BreakerViews, L.Coupled;
      hide Lock, FailBreaker;
      if !servers[server].online {
        RecordFailure(server, r.times.offline);
        return ServerOffline;
      }
      if r.flaky { return TransientFailure; }
      var ok := LockSeat(r.seat, r.requester, server, r.times.acquireSweep, r.times.grant);
      return if ok then Granted(server) else LeaseConflict;
    }

    method CountRequest(server: string)
      requires Valid() && server in servers
      modifies `servers
      ensures Valid()
      ensures View() == old(View()).(
        servers := old(servers)[server := old(servers)[server].(requests := old(servers)[server].requests + 1)])
    {
      hide SERVER_IDS, Separate, StoresApart, AllFiled, AllSeats, L.Coupled;
      servers := servers[server := servers[server].(requests := servers[server].requests + 1)];
      assert StoreViews() == old(StoreViews()) && BreakerViews() == old(BreakerViews());
    }

    method CountSuccess()
      requires Valid()
      modifies `successCount
      ensures Valid() && View() == old(View()).(core := old(View()).core.(granted := old(View()).core.granted + 1))
    {
      hide SERVER_IDS, Separate, StoresApart, AllFiled, AllSeats, Rows, L.Coupled;
      successCount := successCount + 1;
      assert StoreViews() == old(StoreViews()) && BreakerViews() == old(BreakerViews());
    }

    method FinishBooking(server: string, t: CallTimes)
      requires Valid() && server in servers && server in View().breakers
      modifies `servers, `successCount, breakerParts
      ensures Valid()
      ensures var a := old(View());
              var done := ObserveBreaker(BREAKER, SucceedBreaker(BREAKER, a.breakers[server], t.success), t.report);
              View() == a.(breakers := a.breakers[server := done],
                           core := a.core.(granted := a.core.granted + 1),
                           servers := a.servers[server := a.servers[server].(requests :=
                               a.servers[server].requests + 1)])
    {
      hide SERVER_IDS, Separate, StoresApart, AllFiled, AllSeats, Rows, StoreViews, BreakerViews, L.Coupled;
      hide ObserveBreaker, SucceedBreaker;
      ghost var before := View().breakers;
      RecordSuccess(server, t.success);
      CountRequest(server);
      CountSuccess();
      var _ := GetState(server, t.report);
      ghost var succeeded := SucceedBreaker(BREAKER, before[server], t.success);
      LastWins(before, server, succeeded, ObserveBreaker(BREAKER, succeeded, t.report));
    }

    method CallServer(server: string, r: Request) returns (result: BookResult)
      requires Valid() && WellFormed(View()) && server in SERVER_IDS && r.seat in seats
      modifies `seats, `servers, `successCount, leaseManager, storeParts, timers, breakerParts
      ensures Valid() && (View(), result) == CallBreaker(old(View()), server, r)
    {
      hide SERVER_IDS, Separate, StoresApart, AllFiled, AllSeats, Rows, StoreViews, BreakerViews, L.Coupled;
      hide Reserve, ObserveBreaker, FailBreaker, SucceedBreaker;
      var allowed := AllowRequest(server, r.times.call);
      if !allowed { return CircuitOpen; }
      ViewIsWellFormed();
      result := ReserveOnServer(server, r);
      ViewIsWellFormed();
      if result.Granted? { FinishBooking(server, r.times); } else { RecordFailure(server, r.times.failure); }
    }

    /** One attempt at a booking, from the sweep to the count. */
    method BookLocked(r: Request) returns (result: BookResult)
      requires Valid() && RoutesOnline(r.choose)
      modifies `seats, `servers, `successCount, leaseManager, storeParts, timers, breakerParts
      ensures Valid() && View() == Step(old(View()), Event.BookSeat(r)) && result == Answer(old(View()), r)
    {
      hide Step, Answer;
      hide SERVER_IDS, Separate, StoresApart, AllFiled, AllSeats, Rows, StoreViews, BreakerViews, L.Coupled;
      hide SweepSeats, MetricsOf, Poll, CircuitSafe, CallBreaker, RoutesOnline;
      ViewIsWellFormed();
      BookStep(View(), r);
      ExpireLeases(r.sweep);
      if r.seat !in seats { return NoSuchSeat; }
      if seats[r.seat].mode == S.Reserved { return AlreadyReserved; }
      if seats[r.seat].mode == S.Locked { return CurrentlyLeased; }
      ViewIsWellFormed();
      ghost var swept := View();
      var ms := CurrentMetrics(r.status);
      var pick := r.choose(ms);
      if pick.None? { return NoServer; }
      PickIsReady(swept.servers, swept.breakers, r.status, r.choose);
      MetricsNameServers(swept.servers, swept.breakers, SERVER_IDS, r.status);
      var target := SelectCircuitSafeServer(pick.value, ms, r.times);
      if target.None? { return CircuitOpen; }
      result := CallServer(target.value, r);
    }

    method ShowServer(id: string, r: StatusReading)
      requires Valid() && id in View().breakers
      modifies breakerParts
      ensures Valid()
      ensures View() == old(View()).(breakers := old(View()).breakers[id :=
                RateBreaker(BREAKER, ObserveBreaker(BREAKER, old(View()).breakers[id], r.state), r.rate)])
    {
      hide SERVER_IDS, Separate, StoresApart, AllFiled, AllSeats, Rows, StoreViews, BreakerViews, L.Coupled;
      hide ObserveBreaker, RateBreaker;
      ghost var before := View().breakers;
      ghost var seen := ObserveBreaker(BREAKER, before[id], r.state);
      var _ := GetState(id, r.state);
      var _ := FailurePercentage(id, r.rate);
      LastWins(before, id, seen, RateBreaker(BREAKER, seen, r.rate));
    }

    /** What the page polls: it sweeps, and looks at every breaker twice. */
    method RefreshSnapshot(sweep: real, status: string -> StatusReading, shown: string -> StatusReading)
      requires Valid()
      modifies `seats, leaseManager, breakerParts
      ensures Valid() && View() == Step(old(View()), Event.Snapshot(sweep, status, shown))
    {
      hide SERVER_IDS, Separate, StoresApart, AllFiled, AllSeats, Rows, StoreViews, BreakerViews, L.Coupled;
      hide SweepSeats, Poll, ObserveBreaker, RateBreaker;
      hide Step;
      ViewIsWellFormed();
      SnapshotStep(View(), sweep, status, shown);
      ExpireLeases(sweep);
      ViewIsWellFormed();
      var _ := CurrentMetrics(status);
      ShowServers(shown);
    }

    method ShowServers(at: string -> StatusReading)
      requires Valid() && WellFormed(View())
      modifies breakerParts
      ensures Valid() && View() == old(View()).(breakers := Shown(old(View()).breakers, SERVER_IDS, at))
    {
      hide SERVER_IDS, Separate, StoresApart, AllFiled, AllSeats, Rows, StoreViews, BreakerViews, L.Coupled;
      hide ObserveBreaker, RateBreaker;
      ghost var before := View();
      for i := 0 to |SERVER_IDS|
        invariant Valid()
        invariant View() == before.(breakers := Shown(before.breakers, SERVER_IDS[..i], at))
      {
        assert SERVER_IDS[..i + 1][..i] == SERVER_IDS[..i];
        ShowServer(SERVER_IDS[i], at(SERVER_IDS[i]));
      }
      assert SERVER_IDS[..|SERVER_IDS|] == SERVER_IDS;
    }
  }
}
