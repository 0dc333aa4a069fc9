/** The lease authority (locking/lease_manager.py). Clock readings are
    parameters; uuid4 is a counter that never repeats. */
module LeaseManagers {
  import opened Metrics

  datatype Lease = Lease(id: nat, seat: int, holder: string, owner: string, expiresAt: real)

  const DEFAULT_TTL: real := 30.0

  /** The two dictionaries and the next fresh id. */
  datatype Table = Table(bySeat: map<int, Lease>, byId: map<nat, Lease>, nextId: nat)

  /** The dictionaries are mutually inverse, and ids ahead are unused. */
  ghost predicate Coupled(t: Table) {
    && (forall k :: k in t.bySeat ==>
          var l := t.bySeat[k]; l.seat == k && l.id in t.byId && t.byId[l.id] == l)
    && (forall i :: i in t.byId ==>
          var l := t.byId[i]; l.id == i < t.nextId && l.seat in t.bySeat && t.bySeat[l.seat] == l)
  }

  function Expired(t: Table, now: real): set<int> {
    set k | k in t.bySeat && t.bySeat[k].expiresAt <= now
  }

  function StaleLeases(t: Table, now: real): set<Lease> {
    set k | k in t.bySeat && t.bySeat[k].expiresAt <= now :: t.bySeat[k]
  }

  function Seats(leases: set<Lease>): set<int> {
    set l | l in leases :: l.seat
  }

  function Ids(leases: set<Lease>): set<nat> {
    set l | l in leases :: l.id
  }

  function Sweep(t: Table, now: real): Table {
    Table(map k | k in t.bySeat && t.bySeat[k].expiresAt > now :: t.bySeat[k],
          map i | i in t.byId && t.byId[i].expiresAt > now :: t.byId[i],
          t.nextId)
  }

  function Put(t: Table, l: Lease): Table {
    t.(bySeat := t.bySeat[l.seat := l], byId := t.byId[l.id := l])
  }

  /** None is the conflict error. */
  function Acquire(t: Table, seat: int, holder: string, owner: string, ttl: real, sweepAt: real, grantAt: real):
    (Table, Option<Lease>)
  {
    var s := Sweep(t, sweepAt);
    if seat in s.bySeat then (s, None)
    else
      var l := Lease(s.nextId, seat, holder, owner, grantAt + ttl);
      (Put(s, l).(nextId := s.nextId + 1), Some(l))
  }

  /** None is the not-found error. */
  function Renew(t: Table, id: Option<nat>, ttl: real, sweepAt: real, renewAt: real): (Table, Option<Lease>) {
    var s := Sweep(t, sweepAt);
    if id.Some? && id.value in s.byId then
      var l := s.byId[id.value].(expiresAt := renewAt + ttl);
      (Put(s, l), Some(l))
    else (s, None)
  }

  function Release(t: Table, id: Option<nat>): Table {
    if id.Some? && id.value in t.byId then
      var l := t.byId[id.value];
      t.(byId := t.byId - {id.value},
         bySeat := if l.seat in t.bySeat && t.bySeat[l.seat] == l then t.bySeat - {l.seat} else t.bySeat)
    else t
  }

  /** None covers both not-found errors: no such active lease, or another seat's. */
  function Validate(t: Table, id: Option<nat>, seat: Option<int>, now: real): (Table, Option<Lease>) {
    var s := Sweep(t, now);
    if id.Some? && id.value in s.byId && (seat.None? || s.byId[id.value].seat == seat.value)
    then (s, Some(s.byId[id.value]))
    else (s, None)
  }

  class LeaseManager {
    var leasesBySeat: map<int, Lease>
    var leasesById: map<nat, Lease>
    var nextId: nat

    ghost function View(): Table
      reads this
    {
      Table(leasesBySeat, leasesById, nextId)
    }

    ghost predicate Valid()
      reads this
    {
      Coupled(View())
    }

    /** `nextId` carries the uuid supply on from an earlier manager. */
    constructor (nextId: nat)
      ensures Valid() && View() == Table(map[], map[], nextId)
    {
      leasesBySeat, leasesById := map[], map[];
      this.nextId := nextId;
    }

    /** Removes the expired leases, in whatever order the dictionary lists them. */
    method ExpireLeases(now: real) returns (expired: set<Lease>)
      requires Valid()
      modifies this
      ensures Valid() && View() == Sweep(old(View()), now)
      ensures expired == StaleLeases(old(View()), now) && Seats(expired) == Expired(old(View()), now)
    {
      ghost var before := View();
      expired := set k | k in leasesBySeat && leasesBySeat[k].expiresAt <= now :: leasesBySeat[k];
      assert expired == StaleLeases(before, now);
      ghost var popped: set<Lease> := {};
      var todo := expired;
      while todo != {}
        invariant todo !! popped && todo + popped == expired
        invariant leasesBySeat == before.bySeat - Seats(popped)
        invariant leasesById == before.byId - Ids(popped)
        invariant nextId == before.nextId
        decreases todo
      {
        var lease :| lease in todo;
        todo, popped := todo - {lease}, popped + {lease};
        leasesBySeat := leasesBySeat - {lease.seat};
        leasesById := leasesById - {lease.id};
      }
      assert popped == expired;
      SweepPopsStale(before, now);
      SweepKeepsCoupled(before, now);
    }

    method AcquireLease(seat: int, holder: string, owner: string, ttl: Option<real>, sweepAt: real, grantAt: real)
      returns (lease: Option<Lease>)
      requires Valid()
      modifies this
      ensures Valid()
      ensures (View(), lease)
           == Acquire(old(View()), seat, holder, owner, if ttl.None? then DEFAULT_TTL else ttl.value, sweepAt, grantAt)
    {
      hide Coupled, Sweep;
      var seconds := if ttl.None? then DEFAULT_TTL else ttl.value;
      AcquireKeepsCoupled(View(), seat, holder, owner, seconds, sweepAt, grantAt);
      var _ := ExpireLeases(sweepAt);
      if seat in leasesBySeat { return None; }
      var l := Lease(nextId, seat, holder, owner, grantAt + seconds);
      nextId := nextId + 1;
      leasesBySeat := leasesBySeat[seat := l];
      leasesById := leasesById[l.id := l];
      return Some(l);
    }

    method RenewLease(id: Option<nat>, ttl: Option<real>, sweepAt: real, renewAt: real) returns (renewed: Option<Lease>)
      requires Valid()
      modifies this
      ensures Valid()
      ensures (View(), renewed)
           == Renew(old(View()), id, if ttl.None? then DEFAULT_TTL else ttl.value, sweepAt, renewAt)
    {
      hide Coupled, Sweep;
      var seconds := if ttl.None? then DEFAULT_TTL else ttl.value;
      RenewKeepsCoupled(View(), id, seconds, sweepAt, renewAt);
      var _ := ExpireLeases(sweepAt);
      if id.None? || id.value !in leasesById { return None; }
      var lease := leasesById[id.value];
      var l := Lease(lease.id, lease.seat, lease.holder, lease.owner, renewAt + seconds);
      leasesBySeat := leasesBySeat[l.seat := l];
      leasesById := leasesById[l.id := l];
      return Some(l);
    }

    method ReleaseLease(id: Option<nat>)
      requires Valid()
      modifies this
      ensures Valid() && View() == Release(old(View()), id)
    {
      hide Coupled;
      ReleaseKeepsCoupled(View(), id);
      if id.None? || id.value !in leasesById { return; }
      var lease := leasesById[id.value];
      leasesById := leasesById - {id.value};
      if lease.seat in leasesBySeat && leasesBySeat[lease.seat] == lease {
        leasesBySeat := leasesBySeat - {lease.seat};
      }
    }

    method ValidateLease(id: Option<nat>, seat: Option<int>, now: real) returns (lease: Option<Lease>)
      requires Valid()
      modifies this
      ensures Valid() && (View(), lease) == Validate(old(View()), id, seat, now)
    {
      hide Coupled, Sweep;
      var _ := ExpireLeases(now);
      if id.None? || id.value !in leasesById { return None; }
      var l := leasesById[id.value];
      if seat.Some? && l.seat != seat.value { return None; }
      return Some(l);
    }

    method GetActiveLease(seat: int, now: real) returns (lease: Option<Lease>)
      requires Valid()
      modifies this
      ensures Valid() && View() == Sweep(old(View()), now)
      ensures lease == if seat in View().bySeat then Some(View().bySeat[seat]) else None
    {
      hide Coupled, Sweep;
      var _ := ExpireLeases(now);
      return if seat in leasesBySeat then Some(leasesBySeat[seat]) else None;
    }
  }

  lemma SweepPopsStale(t: Table, now: real)
    requires Coupled(t)
    ensures Seats(StaleLeases(t, now)) == Expired(t, now)
    ensures t.bySeat - Seats(StaleLeases(t, now)) == Sweep(t, now).bySeat
    ensures t.byId - Ids(StaleLeases(t, now)) == Sweep(t, now).byId
  {
    var stale := StaleLeases(t, now);
    forall k
      ensures k in Seats(stale) <==> k in Expired(t, now)
    {
      if k in Expired(t, now) { assert t.bySeat[k] in stale; }
    }
    forall i | i in t.byId
      ensures i in Ids(stale) <==> t.byId[i].expiresAt <= now
    {
      if t.byId[i].expiresAt <= now { assert t.byId[i] in stale; }
    }
  }

  lemma SweepKeepsCoupled(t: Table, now: real)
    requires Coupled(t)
    ensures Coupled(Sweep(t, now))
  {
  }

  lemma StepKeepsCoupled(t: Table, op: Op)
    requires Coupled(t)
    ensures Coupled(Step(t, op)) && Step(t, op).nextId >= t.nextId
  {
    hide Coupled, Sweep, Acquire, Renew, Release;
    match op
    case Grant(seat, holder, owner, ttl, sweepAt, grantAt) =>
      SweepKeepsCoupled(t, sweepAt);
      AcquireKeepsCoupled(t, seat, holder, owner, ttl, sweepAt, grantAt);
    case Extend(id, ttl, sweepAt, renewAt) => RenewKeepsCoupled(t, Some(id), ttl, sweepAt, renewAt);
    case Free(id) => ReleaseKeepsCoupled(t, Some(id));
    case Look(now) =>
      SweepKeepsCoupled(t, now);
      assert Sweep(t, now).nextId == t.nextId by { SweepKeepsNext(t, now); }
  }

  lemma SweepKeepsNext(t: Table, now: real)
    ensures Sweep(t, now).nextId == t.nextId
  {
  }

  lemma AcquireKeepsCoupled(t: Table, seat: int, holder: string, owner: string, ttl: real, sweepAt: real, grantAt: real)
    requires Coupled(t)
    ensures Coupled(Acquire(t, seat, holder, owner, ttl, sweepAt, grantAt).0)
    ensures Acquire(t, seat, holder, owner, ttl, sweepAt, grantAt).0.nextId >= t.nextId
  {
  }

  lemma RenewKeepsCoupled(t: Table, id: Option<nat>, ttl: real, sweepAt: real, renewAt: real)
    requires Coupled(t)
    ensures Coupled(Renew(t, id, ttl, sweepAt, renewAt).0)
    ensures Renew(t, id, ttl, sweepAt, renewAt).0.nextId == t.nextId
  {
  }

  lemma ReleaseKeepsCoupled(t: Table, id: Option<nat>)
    requires Coupled(t)
    ensures Coupled(Release(t, id)) && Release(t, id).nextId == t.nextId
  {
  }

  /** A lease is valid for a seat exactly if it is the lease that the seat has, and
      has not run out; without a seat, if it is the lease of some seat. */
  lemma ValidatesExactly(t: Table, id: nat, seat: int, now: real)
    requires Coupled(t)
    ensures Validate(t, Some(id), Some(seat), now).1
         == if seat in t.bySeat && t.bySeat[seat].id == id && t.bySeat[seat].expiresAt > now
            then Some(t.bySeat[seat]) else None
    ensures Validate(t, Some(id), None, now).1.Some?
       <==> exists k :: k in t.bySeat && t.bySeat[k].id == id && t.bySeat[k].expiresAt > now
    ensures Validate(t, None, Some(seat), now).1.None?
  {
    if id in t.byId && t.byId[id].expiresAt > now {
      assert t.byId[id].seat in t.bySeat && t.bySeat[t.byId[id].seat].id == id;
    }
  }

  // ---------------------------------------------------------------------
  // Runs
  // ---------------------------------------------------------------------

  datatype Op =
    | Grant(seat: int, holder: string, owner: string, ttl: real, sweepAt: real, grantAt: real)
    | Extend(id: nat, ttl: real, sweepAt: real, renewAt: real)
    | Free(id: nat)
    | Look(now: real)

  function Step(t: Table, op: Op): Table {
    match op
    case Grant(seat, holder, owner, ttl, sweepAt, grantAt) => Acquire(t, seat, holder, owner, ttl, sweepAt, grantAt).0
    case Extend(id, ttl, sweepAt, renewAt) => Renew(t, Some(id), ttl, sweepAt, renewAt).0
    case Free(id) => Release(t, Some(id))
    case Look(now) => Sweep(t, now)
  }

  /** The table after a run from an empty manager. */
  function After(ops: seq<Op>): Table {
    if ops == [] then Table(map[], map[], 0) else Step(After(ops[..|ops| - 1]), ops[|ops| - 1])
  }

  lemma {:induction false} AlwaysCoupled(ops: seq<Op>)
    ensures Coupled(After(ops))
  {
    if ops != [] {
      AlwaysCoupled(ops[..|ops| - 1]);
      StepKeepsCoupled(After(ops[..|ops| - 1]), ops[|ops| - 1]);
    }
  }

  /** The lease operation `i` of a run grants, if it grants one. */
  function GrantedAt(ops: seq<Op>, i: nat): Option<Lease>
    requires i < |ops|
  {
    if !ops[i].Grant? then None
    else
      var g := ops[i];
      Acquire(After(ops[..i]), g.seat, g.holder, g.owner, g.ttl, g.sweepAt, g.grantAt).1
  }

  /** The expiry of lease `l` after `op`, when it was `expiry` before. */
  function NextExpiry(t: Table, op: Op, l: Lease, expiry: real): real {
    if op.Extend? && op.id == l.id && Renew(t, Some(l.id), op.ttl, op.sweepAt, op.renewAt).1.Some?
    then op.renewAt + op.ttl
    else expiry
  }

  /** The expiry of lease `l`, granted at `i`, as last renewed among the first `j` operations. */
  function LastExpiry(ops: seq<Op>, l: Lease, i: nat, j: nat): real
    requires i < j <= |ops|
  {
    if j == i + 1 then l.expiresAt
    else NextExpiry(After(ops[..j - 1]), ops[j - 1], l, LastExpiry(ops, l, i, j - 1))
  }

  /** The latest clock reading once `op` is done. */
  function Later(now: real, op: Op): real {
    match op
    case Grant(_, _, _, _, _, grantAt) => grantAt
    case Extend(_, _, _, renewAt) => renewAt
    case Free(_) => now
    case Look(at) => at
  }

  ghost predicate OnTime(now: real, op: Op) {
    match op
    case Grant(_, _, _, _, sweepAt, grantAt) => now <= sweepAt <= grantAt
    case Extend(_, _, sweepAt, renewAt) => now <= sweepAt <= renewAt
    case Free(_) => true
    case Look(at) => now <= at
  }

  function LastReading(ops: seq<Op>, start: real): real {
    if ops == [] then start else Later(LastReading(ops[..|ops| - 1], start), ops[|ops| - 1])
  }

  /** The clock never runs backwards. */
  ghost predicate Timed(ops: seq<Op>, start: real) {
    ops == [] || (Timed(ops[..|ops| - 1], start) && OnTime(LastReading(ops[..|ops| - 1], start), ops[|ops| - 1]))
  }

  ghost predicate Freed(ops: seq<Op>, l: Lease, i: nat, j: nat)
    requires i < j <= |ops|
  {
    exists k :: i < k < j && ops[k] == Free(l.id)
  }

  /** An unreleased lease: in the table with its last expiry, or lapsed. */
  ghost predicate Standing(t: Table, l: Lease, expiry: real, now: real) {
    && l.id < t.nextId
    && if l.id in t.byId then t.byId[l.id].seat == l.seat && t.byId[l.id].expiresAt == expiry
       else expiry <= now
  }

  lemma StandingPersists(t: Table, op: Op, l: Lease, expiry: real, now: real)
    requires Coupled(t) && Standing(t, l, expiry, now) && OnTime(now, op) && op != Free(l.id)
    ensures Standing(Step(t, op), l, NextExpiry(t, op, l, expiry), Later(now, op))
  {
  }

  lemma {:induction false} AlwaysStanding(ops: seq<Op>, l: Lease, i: nat, j: nat, start: real)
    requires i < j <= |ops| && Timed(ops[..j], start) && GrantedAt(ops, i) == Some(l)
    ensures Freed(ops, l, i, j)
         || Standing(After(ops[..j]), l, LastExpiry(ops, l, i, j), LastReading(ops[..j], start))
    decreases j
  {
    hide Coupled, Step, NextExpiry, Acquire, Standing;
    var init, op := ops[..j - 1], ops[j - 1];
    assert ops[..j][..j - 1] == init;
    if j == i + 1 {
      NewlyGranted(init, op, LastReading(init, start));
      assert GrantedAt(ops, i).Some?;
    } else {
      AlwaysStanding(ops, l, i, j - 1, start);
      if !Freed(ops, l, i, j - 1) && op != Free(l.id) {
        AlwaysCoupled(init);
        StandingPersists(After(init), op, l, LastExpiry(ops, l, i, j - 1), LastReading(init, start));
      }
    }
  }

  lemma NewlyGranted(init: seq<Op>, op: Op, now: real)
    requires op.Grant?
    ensures var (t, lease) := Acquire(After(init), op.seat, op.holder, op.owner, op.ttl, op.sweepAt, op.grantAt);
            lease.Some? ==> t == Step(After(init), op) && Standing(t, lease.value, lease.value.expiresAt, op.grantAt)
  {
  }

  /** An id is never handed out again. */
  lemma {:induction false} NextIdGrows(ops: seq<Op>, i: nat, j: nat)
    requires i <= j <= |ops|
    ensures After(ops[..i]).nextId <= After(ops[..j]).nextId
  {
    if i < j {
      NextIdGrows(ops, i, j - 1);
      assert ops[..j][..j - 1] == ops[..j - 1];
      AlwaysCoupled(ops[..j - 1]);
      StepKeepsCoupled(After(ops[..j - 1]), ops[j - 1]);
    }
  }

  /** Two grants of the same seat never overlap: by the time of the later one
      the earlier lease was released, or the expiry it was last renewed to
      had passed, whatever else happened in between. */
  lemma LeaseExclusion(ops: seq<Op>, i: nat, j: nat, start: real)
    requires i < j < |ops| && Timed(ops, start)
    requires GrantedAt(ops, i).Some? && GrantedAt(ops, j).Some?
    requires GrantedAt(ops, i).value.seat == GrantedAt(ops, j).value.seat
    ensures var l := GrantedAt(ops, i).value;
            Freed(ops, l, i, j) || LastExpiry(ops, l, i, j) <= ops[j].sweepAt
    ensures GrantedAt(ops, i).value.id != GrantedAt(ops, j).value.id
  {
    var l := GrantedAt(ops, i).value;
    TimedPrefix(ops, j, start);
    TimedPrefix(ops, j + 1, start);
    assert ops[..j + 1][..j] == ops[..j];
    AlwaysStanding(ops, l, i, j, start);
    AlwaysCoupled(ops[..j]);
    NextIdGrows(ops, i + 1, j);
    assert ops[..i + 1][..i] == ops[..i];
  }

  lemma {:induction false} TimedPrefix(ops: seq<Op>, j: nat, start: real)
    requires j <= |ops| && Timed(ops, start)
    ensures Timed(ops[..j], start)
  {
    if j < |ops| {
      TimedPrefix(ops[..|ops| - 1], j, start);
      assert ops[..|ops| - 1][..j] == ops[..j];
    } else {
      assert ops[..j] == ops;
    }
  }
}
