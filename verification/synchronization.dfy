/** Versioned seat stores and their replication (synchronization/).
    `last_updated` is left out of a seat's state; nothing reads it. */
module Synchronization {
  import opened Metrics

  datatype SeatMode = Available | Locked | Reserved | Failed

  datatype SeatState = SeatState(seat: int, mode: SeatMode, owner: string, version: nat)

  datatype Store = Store(seats: map<int, SeatState>, clock: nat)

  const EMPTY := Store(map[], 0)

  /** Seats 1 to `count`, available, each with the next version. */
  function Initialize(s: Store, count: nat): Store {
    if count == 0 then s
    else
      var r := Initialize(s, count - 1);
      Store(r.seats[count := SeatState(count, Available, "", r.clock + 1)], r.clock + 1)
  }

  /** A local write; None for a seat the store does not have. */
  function Update(s: Store, seat: int, mode: SeatMode, owner: string): (Store, Option<SeatState>) {
    if seat !in s.seats then (s, None)
    else
      var u := SeatState(seat, mode, owner, s.clock + 1);
      (Store(s.seats[seat := u], s.clock + 1), Some(u))
  }

  /** A remote write: only a missing seat or a higher version takes it. */
  function Apply(s: Store, u: SeatState): Store {
    if u.seat !in s.seats || u.version > s.seats[u.seat].version then s.(seats := s.seats[u.seat := u]) else s
  }

  /** The peers of a server. */
  function PeersOf(self: string, ids: seq<string>): seq<string> {
    if ids == [] then []
    else
      var rest := PeersOf(self, ids[..|ids| - 1]);
      if ids[|ids| - 1] == self then rest else rest + [ids[|ids| - 1]]
  }

  /** A timer that will deliver `update` to `peer`. */
  datatype Message = Message(peer: string, update: SeatState)

  /** One more timer per peer. */
  function Broadcast(timers: multiset<Message>, peers: seq<string>, u: SeatState): multiset<Message> {
    if peers == [] then timers
    else Broadcast(timers, peers[..|peers| - 1], u) + multiset{Message(peers[|peers| - 1], u)}
  }

  class StateStore {
    const serverId: string
    var seats: map<int, SeatState>
    var clock: nat

    ghost function View(): Store
      reads this
    {
      Store(seats, clock)
    }

    constructor (serverId: string)
      ensures this.serverId == serverId && View() == EMPTY
    {
      this.serverId := serverId;
      seats, clock := map[], 0;
    }

    method NextVersion() returns (version: nat)
      modifies this
      ensures View() == old(View()).(clock := old(clock) + 1) && version == clock
    {
      clock := clock + 1;
      return clock;
    }

    method InitializeSeats(count: nat)
      modifies this
      ensures View() == Initialize(old(View()), count)
    {
      for seat := 1 to count + 1
        invariant View() == Initialize(old(View()), seat - 1)
      {
        var version := NextVersion();
        seats := seats[seat := SeatState(seat, Available, "", version)];
      }
    }

    method UpdateSeat(seat: int, mode: SeatMode, owner: string) returns (updated: Option<SeatState>)
      modifies this
      ensures (View(), updated) == Update(old(View()), seat, mode, owner)
    {
      if seat !in seats { return None; }
      var version := NextVersion();
      var u := SeatState(seat, mode, owner, version);
      seats := seats[seat := u];
      return Some(u);
    }

    /** Every seat once, in whatever order the dictionary keeps them. */
    method ListSeats() returns (listing: seq<SeatState>)
      requires Filed(View())
      ensures Lists(listing, View())
      ensures forall i, j :: 0 <= i < j < |listing| ==> listing[i].seat != listing[j].seat
    {
      listing := [];
      var todo := set k | k in seats :: seats[k];
      while todo != {}
        invariant forall u :: u in todo ==> u.seat in seats && seats[u.seat] == u
        invariant forall u :: u in listing ==> u.seat in seats && seats[u.seat] == u
        invariant forall k :: k in seats ==> seats[k] in todo || seats[k] in listing
        invariant forall u :: u in todo ==> u !in listing
        invariant forall i, j :: 0 <= i < j < |listing| ==> listing[i].seat != listing[j].seat
        decreases todo
      {
        var u :| u in todo;
        todo := todo - {u};
        listing := listing + [u];
      }
    }
  }

  class StateReplicator {
    const store: StateStore
    const peers: seq<string>

    constructor (store: StateStore, ids: seq<string>)
      ensures this.store == store && peers == PeersOf(store.serverId, ids)
    {
      this.store := store;
      var kept := [];
      for i := 0 to |ids|
        invariant kept == PeersOf(store.serverId, ids[..i])
      {
        assert ids[..i + 1][..i] == ids[..i];
        if ids[i] != store.serverId { kept := kept + [ids[i]]; }
      }
      assert ids[..|ids|] == ids;
      peers := kept;
    }

    method ApplyRemoteUpdate(u: SeatState)
      modifies store
      ensures store.View() == Apply(old(store.View()), u)
    {
      if u.seat !in store.seats {
        store.seats := store.seats[u.seat := u];
      } else if u.version > store.seats[u.seat].version {
        store.seats := store.seats[u.seat := u];
      }
    }
  }

  /** The timers of the process: they outlive the simulator that started them. */
  class Timers {
    var bag: multiset<Message>

    constructor ()
      ensures bag == multiset{}
    {
      bag := multiset{};
    }
  }

  class EventualConsistencySimulator {
    const replicator: StateReplicator
    const timers: Timers

    constructor (replicator: StateReplicator, timers: Timers)
      ensures this.replicator == replicator && this.timers == timers
    {
      this.replicator := replicator;
      this.timers := timers;
    }

    method BroadcastWithDelay(u: SeatState)
      modifies timers
      ensures timers.bag == Broadcast(old(timers.bag), replicator.peers, u)
    {
      var peers := replicator.peers;
      for i := 0 to |peers|
        invariant timers.bag == Broadcast(old(timers.bag), peers[..i], u)
      {
        assert peers[..i + 1][..i] == peers[..i];
        timers.bag := timers.bag + multiset{Message(peers[i], u)};
      }
      assert peers[..|peers|] == peers;
    }
  }

  lemma {:induction false} BroadcastMembers(timers: multiset<Message>, peers: seq<string>, u: SeatState, m: Message)
    ensures m in Broadcast(timers, peers, u) <==> m in timers || (m.peer in peers && m.update == u)
  {
    if peers != [] {
      BroadcastMembers(timers, peers[..|peers| - 1], u, m);
      assert peers == peers[..|peers| - 1] + [peers[|peers| - 1]];
    }
  }

  /** One timer per peer, no more. */
  lemma {:induction false} BroadcastAddsOnePerPeer(timers: multiset<Message>, peers: seq<string>, u: SeatState)
    ensures |Broadcast(timers, peers, u)| == |timers| + |peers|
  {
    if peers != [] { BroadcastAddsOnePerPeer(timers, peers[..|peers| - 1], u); }
  }

  lemma {:induction false} PeersAreTheOthers(self: string, ids: seq<string>, id: string)
    ensures id in PeersOf(self, ids) <==> id in ids && id != self
  {
    if ids != [] {
      PeersAreTheOthers(self, ids[..|ids| - 1], id);
      assert ids == ids[..|ids| - 1] + [ids[|ids| - 1]];
    }
  }

  lemma {:induction false} InitialStore(count: nat)
    ensures var s := Initialize(EMPTY, count);
            && s.clock == count
            && (forall k :: k in s.seats <==> 1 <= k <= count)
            && (forall k :: k in s.seats ==> s.seats[k] == SeatState(k, Available, "", k))
  {
    if count > 0 { InitialStore(count - 1); }
  }

  // ---------------------------------------------------------------------
  // Convergence: one writer, any delivery order, any duplication
  // ---------------------------------------------------------------------

  function ApplyAll(s: Store, us: seq<SeatState>): Store {
    if us == [] then s else Apply(ApplyAll(s, us[..|us| - 1]), us[|us| - 1])
  }

  /** Each seat is filed under its own id. */
  ghost predicate Filed(s: Store) {
    forall k :: k in s.seats ==> s.seats[k].seat == k
  }

  /** `u` is one of the versions a replica has seen of its seat. */
  ghost predicate Seen(s: Store, us: seq<SeatState>, u: SeatState) {
    u in us || (u.seat in s.seats && s.seats[u.seat] == u)
  }

  /** A replica only holds what it has seen. */
  lemma {:induction false} HoldsSeen(s: Store, us: seq<SeatState>, k: int)
    requires Filed(s)
    ensures Filed(ApplyAll(s, us))
    ensures k in ApplyAll(s, us).seats ==> ApplyAll(s, us).seats[k].seat == k && Seen(s, us, ApplyAll(s, us).seats[k])
  {
    if us != [] {
      HoldsSeen(s, us[..|us| - 1], k);
      assert us == us[..|us| - 1] + [us[|us| - 1]];
    }
  }

  /** Nothing it has seen of a seat is newer than what it holds. */
  lemma {:induction false} HoldsNewest(s: Store, us: seq<SeatState>, u: SeatState)
    requires Filed(s) && Seen(s, us, u)
    ensures u.seat in ApplyAll(s, us).seats && ApplyAll(s, us).seats[u.seat].version >= u.version
  {
    if us != [] {
      var init, last := us[..|us| - 1], us[|us| - 1];
      assert us == init + [last];
      if u == last {
        HoldsSeen(s, init, u.seat);
      } else {
        HoldsNewest(s, init, u);
      }
    }
  }

  /** Equal versions of a seat are the same write. */
  ghost predicate OneWriter(s: Store, us: seq<SeatState>) {
    forall u, v :: Seen(s, us, u) && Seen(s, us, v) && u.seat == v.seat && u.version == v.version ==> u == v
  }

  /** Neither order nor repetition of deliveries matters. */
  lemma OrderAndRepetitionIrrelevant(s: Store, us: seq<SeatState>, vs: seq<SeatState>)
    requires Filed(s) && OneWriter(s, us)
    requires forall u :: u in us <==> u in vs
    ensures ApplyAll(s, us) == ApplyAll(s, vs)
  {
    hide Apply, ApplyAll;
    ClockUntouched(s, us);
    ClockUntouched(s, vs);
    var a, b := ApplyAll(s, us), ApplyAll(s, vs);
    forall k
      ensures k in a.seats <==> k in b.seats
      ensures k in a.seats ==> a.seats[k] == b.seats[k]
    {
      HoldsSeen(s, us, k);
      HoldsSeen(s, vs, k);
      if k in a.seats { HoldsNewest(s, vs, a.seats[k]); }
      if k in b.seats { HoldsNewest(s, us, b.seats[k]); }
    }
    assert a.seats == b.seats;
  }

  lemma {:induction false} ClockUntouched(s: Store, us: seq<SeatState>)
    ensures ApplyAll(s, us).clock == s.clock
  {
    if us != [] { ClockUntouched(s, us[..|us| - 1]); }
  }

  /** A write to the primary, as the dashboard asks for it. */
  datatype Write = Write(seat: int, mode: SeatMode, owner: string)

  /** The primary store after a run of writes. */
  function AfterWrites(s: Store, ws: seq<Write>): Store {
    if ws == [] then s
    else
      var w := ws[|ws| - 1];
      Update(AfterWrites(s, ws[..|ws| - 1]), w.seat, w.mode, w.owner).0
  }

  /** The updates a run of writes sends out. */
  function Updates(s: Store, ws: seq<Write>): seq<SeatState> {
    if ws == [] then []
    else
      var w := ws[|ws| - 1];
      var u := Update(AfterWrites(s, ws[..|ws| - 1]), w.seat, w.mode, w.owner).1;
      Updates(s, ws[..|ws| - 1]) + if u.Some? then [u.value] else []
  }

  ghost predicate Sane(s: Store) {
    && Filed(s)
    && forall k :: k in s.seats ==> s.seats[k].version <= s.clock
  }

  /** `u` is in the primary's past: not newer than its seat, and the same if equally new. */
  ghost predicate InPast(s: Store, u: SeatState) {
    && u.seat in s.seats
    && u.version <= s.seats[u.seat].version
    && (u.version == s.seats[u.seat].version ==> u == s.seats[u.seat])
  }

  lemma {:induction false} PrimaryStaysSane(s: Store, ws: seq<Write>)
    requires Sane(s)
    ensures Sane(AfterWrites(s, ws)) && AfterWrites(s, ws).seats.Keys == s.seats.Keys
  {
    if ws != [] { PrimaryStaysSane(s, ws[..|ws| - 1]); }
  }

  lemma {:induction false} PrimaryKeepsItsPast(s: Store, ws: seq<Write>, u: SeatState)
    requires Sane(s) && Seen(s, Updates(s, ws), u)
    ensures InPast(AfterWrites(s, ws), u)
  {
    if ws != [] {
      var init := ws[..|ws| - 1];
      PrimaryStaysSane(s, init);
      if Seen(s, Updates(s, init), u) {
        PrimaryKeepsItsPast(s, init, u);
      }
    }
  }

  lemma {:induction false} PrimaryHoldsItsUpdates(s: Store, ws: seq<Write>, k: int)
    requires Sane(s) && k in s.seats
    ensures k in AfterWrites(s, ws).seats && Seen(s, Updates(s, ws), AfterWrites(s, ws).seats[k])
  {
    if ws != [] {
      PrimaryStaysSane(s, ws[..|ws| - 1]);
      PrimaryHoldsItsUpdates(s, ws[..|ws| - 1], k);
    }
  }

  /** The replica has received the latest version of every seat. */
  ghost predicate HasLatest(s: Store, ws: seq<Write>, delivered: seq<SeatState>) {
    forall k :: k in s.seats ==>
      k in AfterWrites(s, ws).seats && Seen(s, delivered, AfterWrites(s, ws).seats[k])
  }

  lemma SeatConverges(s: Store, ws: seq<Write>, delivered: seq<SeatState>, k: int)
    requires Sane(s) && forall u :: u in delivered ==> u in Updates(s, ws)
    ensures k in ApplyAll(s, delivered).seats <==> k in s.seats
    ensures k in s.seats ==>
              && k in AfterWrites(s, ws).seats
              && (ApplyAll(s, delivered).seats[k] == AfterWrites(s, ws).seats[k]
                  <==> Seen(s, delivered, AfterWrites(s, ws).seats[k]))
  {
    hide Apply, ApplyAll, Update, AfterWrites, Updates;
    var replica, primary := ApplyAll(s, delivered), AfterWrites(s, ws);
    PrimaryStaysSane(s, ws);
    HoldsSeen(s, delivered, k);
    if k in replica.seats { PrimaryKeepsItsPast(s, ws, replica.seats[k]); }
    if k in s.seats {
      HoldsNewest(s, delivered, s.seats[k]);
      if Seen(s, delivered, primary.seats[k]) { HoldsNewest(s, delivered, primary.seats[k]); }
    }
  }

  /** A replica that has received only updates of the primary, in any order and
      any number of times, equals it exactly when it has received the latest
      update of every seat that was ever written. */
  lemma ConvergedExactlyWhenLatestDelivered(s: Store, ws: seq<Write>, delivered: seq<SeatState>)
    requires Sane(s) && forall u :: u in delivered ==> u in Updates(s, ws)
    ensures ApplyAll(s, delivered).seats == AfterWrites(s, ws).seats <==> HasLatest(s, ws, delivered)
  {
    hide Apply, ApplyAll, Update, AfterWrites, Updates, Seen, Sane;
    var replica, primary := ApplyAll(s, delivered), AfterWrites(s, ws);
    PrimaryStaysSane(s, ws);
    forall k
      ensures k in replica.seats <==> k in primary.seats
      ensures k in s.seats ==> (replica.seats[k] == primary.seats[k] <==> Seen(s, delivered, primary.seats[k]))
    {
      SeatConverges(s, ws, delivered, k);
    }
    if HasLatest(s, ws, delivered) {
      forall k | k in primary.seats
        ensures replica.seats[k] == primary.seats[k]
      {
        assert k in s.seats;
      }
      assert replica.seats == primary.seats;
    }
  }

  // ---------------------------------------------------------------------
  // Catching up
  // ---------------------------------------------------------------------

  /** A replica that has taken in everything another store lists. */
  function CatchUp(replica: Store, source: Store): Store {
    replica.(seats := map k | k in replica.seats.Keys + source.seats.Keys ::
      if k !in source.seats then replica.seats[k]
      else if k !in replica.seats || source.seats[k].version > replica.seats[k].version then source.seats[k]
      else replica.seats[k])
  }

  /** `listing` has the seats of `source`, in some order. */
  ghost predicate Lists(listing: seq<SeatState>, source: Store) {
    && (forall u :: u in listing ==> u.seat in source.seats && source.seats[u.seat] == u)
    && (forall k :: k in source.seats ==> source.seats[k] in listing)
  }

  /** Any listing of the source, in any order, catches the replica up. */
  lemma ListingCatchesUp(replica: Store, source: Store, listing: seq<SeatState>)
    requires Filed(replica) && Filed(source) && Lists(listing, source)
    ensures ApplyAll(replica, listing) == CatchUp(replica, source)
  {
    hide Apply, ApplyAll;
    ClockUntouched(replica, listing);
    var r, c := ApplyAll(replica, listing), CatchUp(replica, source);
    forall k
      ensures k in r.seats <==> k in c.seats
      ensures k in r.seats ==> r.seats[k] == c.seats[k]
    {
      HoldsSeen(replica, listing, k);
      if k in source.seats { HoldsNewest(replica, listing, source.seats[k]); }
      if k in replica.seats { HoldsNewest(replica, listing, replica.seats[k]); }
      if k in source.seats && k in replica.seats && source.seats[k].version == replica.seats[k].version {
        TiesKeepLocal(replica, listing, k, source.seats[k].version);
      }
    }
    assert r.seats == c.seats;
  }

  /** Equal versions never replace the local copy. */
  lemma {:induction false} TiesKeepLocal(s: Store, us: seq<SeatState>, k: int, version: nat)
    requires Filed(s) && k in s.seats && s.seats[k].version == version
    requires forall u :: u in us && u.seat == k ==> u.version <= version
    ensures k in ApplyAll(s, us).seats && ApplyAll(s, us).seats[k] == s.seats[k]
  {
    if us != [] {
      assert us == us[..|us| - 1] + [us[|us| - 1]];
      TiesKeepLocal(s, us[..|us| - 1], k, version);
    }
  }
}
