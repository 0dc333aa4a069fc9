/** Consistent hashing with virtual nodes (load_balancer/consistent_hashing.py).
    The digest is any function into 128 bits, collisions included. */
module ConsistentHashing {
  import opened Metrics

  /** One turn of the circle: the number of 128-bit digests. */
  const RING: nat := 0x1_0000_0000_0000_0000_0000_0000_0000_0000

  ghost predicate Digest(md5: string -> nat) {
    forall key :: md5(key) < RING
  }

  datatype VNode = VNode(hash: nat, server: string)

  function Decimal(n: nat): string {
    var digit := ["0", "1", "2", "3", "4", "5", "6", "7", "8", "9"][n % 10];
    if n < 10 then digit else Decimal(n / 10) + digit
  }

  function VNodeKey(server: string, v: nat): string {
    server + "-vn-" + Decimal(v)
  }

  /** The first `count` virtual nodes of one server. */
  function ServerVNodes(md5: string -> nat, server: string, count: nat): seq<VNode> {
    if count == 0 then []
    else ServerVNodes(md5, server, count - 1) + [VNode(md5(VNodeKey(server, count - 1)), server)]
  }

  /** All virtual nodes of the online servers, in list order. */
  function VNodes(md5: string -> nat, count: nat, ms: seq<ServerMetrics>): seq<VNode> {
    if ms == [] then []
    else
      var rest := VNodes(md5, count, ms[..|ms| - 1]);
      var last := ms[|ms| - 1];
      if last.status.Online? then rest + ServerVNodes(md5, last.serverId, count) else rest
  }

  /** Puts `v` behind everything that does not exceed it. */
  function Insert(ring: seq<VNode>, v: VNode): seq<VNode> {
    if ring == [] then [v]
    else
      var last := ring[|ring| - 1];
      if last.hash <= v.hash then ring + [v] else Insert(ring[..|ring| - 1], v) + [last]
  }

  /** The stable sort by hash. */
  function StableSort(xs: seq<VNode>): seq<VNode> {
    if xs == [] then [] else Insert(StableSort(xs[..|xs| - 1]), xs[|xs| - 1])
  }

  ghost predicate Sorted(ring: seq<VNode>) {
    forall i, j :: 0 <= i < j < |ring| ==> ring[i].hash <= ring[j].hash
  }

  /** Binary search: the first position in [lo, hi] whose hash is not below `key`. */
  function BisectLeft(ring: seq<VNode>, key: nat, lo: nat, hi: nat): (r: nat)
    requires lo <= hi <= |ring| && Sorted(ring)
    ensures lo <= r <= hi
    ensures forall i :: lo <= i < r ==> ring[i].hash < key
    ensures forall i :: r <= i < hi ==> key <= ring[i].hash
    decreases hi - lo
  {
    if lo == hi then lo
    else
      var mid := (lo + hi) / 2;
      if ring[mid].hash < key then BisectLeft(ring, key, mid + 1, hi) else BisectLeft(ring, key, lo, mid)
  }

  /** The virtual node a key lands on, wrapping past the end. */
  function Lookup(ring: seq<VNode>, key: nat): VNode
    requires ring != [] && Sorted(ring)
  {
    var i := BisectLeft(ring, key, 0, |ring|);
    if i == |ring| then ring[0] else ring[i]
  }

  /** Without a routing key the first ring position is taken. */
  function RingPoint(md5: string -> nat, key: Option<string>): nat {
    if key.None? || key.value == "" then 0 else md5(key.value)
  }

  class ConsistentHashingStrategy {
    const md5: string -> nat
    const vnodeCount: nat
    var ring: seq<VNode>

    constructor (md5: string -> nat, vnodeCount: int)
      ensures this.md5 == md5 && ring == []
      ensures this.vnodeCount == if vnodeCount < 1 then 1 else vnodeCount
    {
      this.md5 := md5;
      this.vnodeCount := if vnodeCount < 1 then 1 else vnodeCount;
      ring := [];
    }

    method BuildRing(ms: seq<ServerMetrics>)
      modifies this
      ensures ring == StableSort(VNodes(md5, vnodeCount, ms))
    {
      var unsorted := [];
      for i := 0 to |ms|
        invariant unsorted == VNodes(md5, vnodeCount, ms[..i])
      {
        assert ms[..i + 1][..i] == ms[..i];
        if ms[i].status.Online? {
          var id := ms[i].serverId;
          for v := 0 to vnodeCount
            invariant unsorted == VNodes(md5, vnodeCount, ms[..i]) + ServerVNodes(md5, id, v)
          {
            unsorted := unsorted + [VNode(md5(VNodeKey(id, v)), id)];
          }
        }
      }
      assert ms[..|ms|] == ms;
      ring := StableSort(unsorted);
    }

    /** The server whose virtual node is nearest to the key going clockwise. */
    method SelectServer(ms: seq<ServerMetrics>, key: Option<string>) returns (chosen: Option<string>)
      requires Digest(md5)
      modifies this
      ensures ring == StableSort(VNodes(md5, vnodeCount, ms))
      ensures chosen == Select(md5, vnodeCount, ms, key)
    {
      BuildRing(ms);
      ghost var xs := VNodes(md5, vnodeCount, ms);
      SortSorts(xs);
      SortPermutes(xs);
      if ring == [] { return None; }
      BoundedVNodes(md5, vnodeCount, ms);
      LookupIsNearest(xs, RingPoint(md5, key));
      if key.None? || key.value == "" {
        assert Lookup(ring, 0) == ring[0];
        return Some(ring[0].server);
      }
      var i := BisectLeft(ring, md5(key.value), 0, |ring|);
      if i == |ring| { i := 0; }
      return Some(ring[i].server);
    }
  }

  // ---------------------------------------------------------------------
  // The reference: nearest virtual node clockwise, no ring and no sorting
  // ---------------------------------------------------------------------

  /** How far clockwise from `point` the node lies. */
  function Clockwise(point: nat, v: VNode): nat
    requires point < RING
  {
    if v.hash >= point then v.hash - point else v.hash - point + RING
  }

  /** The first listed of the nodes nearest to `point`. */
  function Nearest(xs: seq<VNode>, point: nat): VNode
    requires xs != [] && point < RING
  {
    var last := xs[|xs| - 1];
    if |xs| == 1 then last
    else
      var best := Nearest(xs[..|xs| - 1], point);
      if Clockwise(point, last) < Clockwise(point, best) then last else best
  }

  function Select(md5: string -> nat, count: nat, ms: seq<ServerMetrics>, key: Option<string>): Option<string>
    requires Digest(md5)
  {
    var xs := VNodes(md5, count, ms);
    if xs == [] then None else Some(Nearest(xs, RingPoint(md5, key)).server)
  }

  ghost predicate Bounded(xs: seq<VNode>) {
    forall i :: 0 <= i < |xs| ==> xs[i].hash < RING
  }

  /** The nodes with one hash, in order. */
  function WithHash(xs: seq<VNode>, hash: nat): seq<VNode> {
    if xs == [] then []
    else
      var rest := WithHash(xs[..|xs| - 1], hash);
      if xs[|xs| - 1].hash == hash then rest + [xs[|xs| - 1]] else rest
  }

  lemma {:induction false} InsertMembers(ring: seq<VNode>, v: VNode)
    ensures multiset(Insert(ring, v)) == multiset(ring) + multiset{v}
    ensures |Insert(ring, v)| == |ring| + 1
  {
    if ring != [] {
      InsertMembers(ring[..|ring| - 1], v);
      assert ring == ring[..|ring| - 1] + [ring[|ring| - 1]];
    }
  }

  lemma {:induction false} InsertBounded(ring: seq<VNode>, v: VNode, bound: nat)
    requires v.hash <= bound && forall i :: 0 <= i < |ring| ==> ring[i].hash <= bound
    ensures forall i :: 0 <= i < |Insert(ring, v)| ==> Insert(ring, v)[i].hash <= bound
  {
    if ring != [] { InsertBounded(ring[..|ring| - 1], v, bound); }
  }

  lemma {:induction false} InsertSorts(ring: seq<VNode>, v: VNode)
    requires Sorted(ring)
    ensures Sorted(Insert(ring, v))
  {
    if ring != [] && ring[|ring| - 1].hash > v.hash {
      InsertSorts(ring[..|ring| - 1], v);
      InsertBounded(ring[..|ring| - 1], v, ring[|ring| - 1].hash);
    }
  }

  lemma {:induction false} InsertKeepsOrder(ring: seq<VNode>, v: VNode, hash: nat)
    requires Sorted(ring)
    ensures WithHash(Insert(ring, v), hash) == WithHash(ring, hash) + if v.hash == hash then [v] else []
  {
    if ring != [] {
      var init, last := ring[..|ring| - 1], ring[|ring| - 1];
      if last.hash <= v.hash {
        assert (ring + [v])[..|ring|] == ring;
      } else {
        InsertKeepsOrder(init, v, hash);
        assert (Insert(init, v) + [last])[..|Insert(init, v)|] == Insert(init, v);
        if v.hash == hash {
          assert WithHash(ring, hash) == WithHash(init, hash);
        }
      }
    }
  }

  lemma {:induction false} SortSorts(xs: seq<VNode>)
    ensures Sorted(StableSort(xs))
  {
    if xs != [] {
      SortSorts(xs[..|xs| - 1]);
      InsertSorts(StableSort(xs[..|xs| - 1]), xs[|xs| - 1]);
    }
  }

  lemma {:induction false} SortPermutes(xs: seq<VNode>)
    ensures multiset(StableSort(xs)) == multiset(xs)
    ensures |StableSort(xs)| == |xs|
  {
    hide Insert;
    if xs != [] {
      var init, last := xs[..|xs| - 1], xs[|xs| - 1];
      SortPermutes(init);
      InsertMembers(StableSort(init), last);
      assert multiset(xs) == multiset(init) + multiset{last} by { assert xs == init + [last]; }
    }
  }

  /** Equal hashes keep their order. */
  lemma {:induction false} SortIsStable(xs: seq<VNode>, hash: nat)
    ensures WithHash(StableSort(xs), hash) == WithHash(xs, hash)
  {
    if xs != [] {
      SortIsStable(xs[..|xs| - 1], hash);
      SortSorts(xs[..|xs| - 1]);
      InsertKeepsOrder(StableSort(xs[..|xs| - 1]), xs[|xs| - 1], hash);
    }
  }

  lemma {:induction false} FirstWithHash(xs: seq<VNode>, i: nat)
    requires i < |xs| && forall j :: 0 <= j < i ==> xs[j].hash != xs[i].hash
    ensures WithHash(xs, xs[i].hash) != [] && WithHash(xs, xs[i].hash)[0] == xs[i]
  {
    var init := xs[..|xs| - 1];
    if i < |init| {
      FirstWithHash(init, i);
    } else {
      NoneWithHash(init, xs[i].hash);
    }
  }

  lemma {:induction false} NoneWithHash(xs: seq<VNode>, hash: nat)
    requires forall j :: 0 <= j < |xs| ==> xs[j].hash != hash
    ensures WithHash(xs, hash) == []
  {
    if xs != [] { NoneWithHash(xs[..|xs| - 1], hash); }
  }

  lemma {:induction false} NearestIsNearest(xs: seq<VNode>, point: nat)
    requires xs != [] && point < RING && Bounded(xs)
    ensures var n := Nearest(xs, point);
            && n in xs
            && (forall v :: v in xs ==> Clockwise(point, n) <= Clockwise(point, v))
            && WithHash(xs, n.hash) != [] && WithHash(xs, n.hash)[0] == n
  {
    var init, last := xs[..|xs| - 1], xs[|xs| - 1];
    assert xs == init + [last];
    if |xs| > 1 {
      NearestIsNearest(init, point);
      if Nearest(xs, point) == last && Nearest(init, point) != last {
        forall j | 0 <= j < |init|
          ensures init[j].hash != last.hash
        {
          assert init[j] in init;
        }
        NoneWithHash(init, last.hash);
      }
    } else {
      NoneWithHash(init, last.hash);
    }
  }

  lemma LookupIsClosest(ring: seq<VNode>, point: nat)
    requires ring != [] && Sorted(ring) && point < RING && Bounded(ring)
    ensures var c := Lookup(ring, point);
            && c in ring
            && (forall v :: v in ring ==> Clockwise(point, c) <= Clockwise(point, v))
            && WithHash(ring, c.hash) != [] && WithHash(ring, c.hash)[0] == c
  {
    var i := BisectLeft(ring, point, 0, |ring|);
    FirstWithHash(ring, if i == |ring| then 0 else i);
  }

  /** Sorting, bisecting and wrapping find the nearest node clockwise, and of
      colliding nodes the first listed. */
  lemma LookupIsNearest(xs: seq<VNode>, point: nat)
    requires xs != [] && point < RING && Bounded(xs)
    ensures StableSort(xs) != [] && Sorted(StableSort(xs))
    ensures Lookup(StableSort(xs), point) == Nearest(xs, point)
  {
    var ring := StableSort(xs);
    SortSorts(xs);
    SortPermutes(xs);
    SameMembers(xs, ring);
    LookupIsClosest(ring, point);
    NearestIsNearest(xs, point);
    SortIsStable(xs, Nearest(xs, point).hash);
  }

  lemma SameMembers(xs: seq<VNode>, ys: seq<VNode>)
    requires multiset(xs) == multiset(ys)
    ensures forall v :: v in xs <==> v in ys
    ensures Bounded(xs) ==> Bounded(ys)
  {
    assert forall v :: v in xs <==> v in multiset(xs);
    assert forall v :: v in ys <==> v in multiset(ys);
    if Bounded(xs) {
      forall i | 0 <= i < |ys|
        ensures ys[i].hash < RING
      {
        assert ys[i] in xs;
      }
    }
  }

  lemma {:induction false} BoundedVNodes(md5: string -> nat, count: nat, ms: seq<ServerMetrics>)
    requires Digest(md5)
    ensures Bounded(VNodes(md5, count, ms))
  {
    if ms != [] {
      BoundedVNodes(md5, count, ms[..|ms| - 1]);
      BoundedServerVNodes(md5, ms[|ms| - 1].serverId, count);
    }
  }

  lemma {:induction false} BoundedServerVNodes(md5: string -> nat, server: string, count: nat)
    requires Digest(md5)
    ensures Bounded(ServerVNodes(md5, server, count))
    ensures forall v :: v in ServerVNodes(md5, server, count) ==> v.server == server
    ensures |ServerVNodes(md5, server, count)| == count
  {
    hide VNodeKey;
    if count > 0 {
      BoundedServerVNodes(md5, server, count - 1);
      assert md5(VNodeKey(server, count - 1)) < RING;
    }
  }

  // ---------------------------------------------------------------------
  // Minimal disruption
  // ---------------------------------------------------------------------

  /** The nodes of every server but one. */
  function Without(xs: seq<VNode>, server: string): seq<VNode> {
    if xs == [] then []
    else
      var rest := Without(xs[..|xs| - 1], server);
      if xs[|xs| - 1].server == server then rest else rest + [xs[|xs| - 1]]
  }

  /** `down` is `up` with every entry of one server not online. */
  ghost predicate TakenDown(up: seq<ServerMetrics>, down: seq<ServerMetrics>, server: string) {
    && |up| == |down|
    && forall i :: 0 <= i < |up| ==>
         if up[i].serverId == server then down[i].serverId == server && !down[i].status.Online?
         else down[i] == up[i]
  }

  lemma {:induction false} WithoutAppends(xs: seq<VNode>, ys: seq<VNode>, server: string)
    ensures Without(xs + ys, server) == Without(xs, server) + Without(ys, server)
  {
    if ys == [] {
      assert xs + ys == xs;
    } else {
      WithoutAppends(xs, ys[..|ys| - 1], server);
      assert (xs + ys)[..|xs + ys| - 1] == xs + ys[..|ys| - 1];
    }
  }

  lemma {:induction false} WithoutOneServer(xs: seq<VNode>, owner: string, server: string)
    requires forall v :: v in xs ==> v.server == owner
    ensures Without(xs, server) == if owner == server then [] else xs
  {
    if xs != [] {
      assert xs == xs[..|xs| - 1] + [xs[|xs| - 1]];
      WithoutOneServer(xs[..|xs| - 1], owner, server);
    }
  }

  lemma {:induction false} TakingDownFilters(md5: string -> nat, count: nat, up: seq<ServerMetrics>,
          down: seq<ServerMetrics>, server: string)
    requires Digest(md5) && TakenDown(up, down, server)
    ensures VNodes(md5, count, down) == Without(VNodes(md5, count, up), server)
  {
    if up != [] {
      var m := up[|up| - 1];
      TakingDownFilters(md5, count, up[..|up| - 1], down[..|down| - 1], server);
      BoundedServerVNodes(md5, m.serverId, count);
      WithoutOneServer(ServerVNodes(md5, m.serverId, count), m.serverId, server);
      WithoutAppends(VNodes(md5, count, up[..|up| - 1]), ServerVNodes(md5, m.serverId, count), server);
    }
  }

  lemma {:induction false} WithoutMembers(xs: seq<VNode>, server: string)
    ensures forall v :: v in Without(xs, server) <==> v in xs && v.server != server
  {
    if xs != [] {
      WithoutMembers(xs[..|xs| - 1], server);
      assert xs == xs[..|xs| - 1] + [xs[|xs| - 1]];
    }
  }

  lemma {:induction false} NearestSurvives(xs: seq<VNode>, point: nat, server: string)
    requires xs != [] && point < RING
    ensures Nearest(xs, point).server != server ==>
              Without(xs, server) != [] && Nearest(Without(xs, server), point) == Nearest(xs, point)
    ensures Without(xs, server) != [] ==>
              Clockwise(point, Nearest(xs, point)) <= Clockwise(point, Nearest(Without(xs, server), point))
  {
    var init, last := xs[..|xs| - 1], xs[|xs| - 1];
    if init != [] {
      NearestSurvives(init, point, server);
      var kept := Without(init, server);
      if last.server != server && kept != [] {
        NearestOfAppended(kept, last, point);
      }
    }
  }

  lemma NearestOfAppended(xs: seq<VNode>, v: VNode, point: nat)
    requires xs != [] && point < RING
    ensures Nearest(xs + [v], point)
         == if Clockwise(point, v) < Clockwise(point, Nearest(xs, point)) then v else Nearest(xs, point)
  {
    assert (xs + [v])[..|xs|] == xs;
  }

  /** Taking a server down moves only the keys it served; read backwards,
      bringing it up moves keys only to it. */
  lemma MinimalDisruption(md5: string -> nat, count: nat, up: seq<ServerMetrics>, down: seq<ServerMetrics>,
                          server: string, key: Option<string>)
    requires Digest(md5) && TakenDown(up, down, server)
    ensures Select(md5, count, up, key) == Select(md5, count, down, key)
         || Select(md5, count, up, key) == Some(server)
    ensures Select(md5, count, down, key) != Some(server)
  {
    var xs, ys := VNodes(md5, count, up), VNodes(md5, count, down);
    var point := RingPoint(md5, key);
    TakingDownFilters(md5, count, up, down, server);
    if xs != [] { NearestSurvives(xs, point, server); }
    if ys != [] {
      BoundedVNodes(md5, count, down);
      NearestIsNearest(ys, point);
      WithoutMembers(xs, server);
    }
  }

  lemma {:induction false} VNodesAreOnline(md5: string -> nat, count: nat, ms: seq<ServerMetrics>)
    requires Digest(md5)
    ensures forall v :: v in VNodes(md5, count, ms) ==> IsOnline(ms, v.server)
  {
    if ms != [] {
      var init, last := ms[..|ms| - 1], ms[|ms| - 1];
      assert ms == init + [last];
      VNodesAreOnline(md5, count, init);
      BoundedServerVNodes(md5, last.serverId, count);
      forall v | v in VNodes(md5, count, ms)
        ensures IsOnline(ms, v.server)
      {
        if v in VNodes(md5, count, init) {
          assert IsOnline(init, v.server);
        } else {
          assert last == ServerMetrics(v.server, Online);
        }
      }
    }
  }

  lemma HashingRoutesOnline(md5: string -> nat, count: nat, key: Option<string>)
    requires Digest(md5)
    ensures RoutesOnline(ms => Select(md5, count, ms, key))
  {
    forall ms | Select(md5, count, ms, key).Some?
      ensures IsOnline(ms, Select(md5, count, ms, key).value)
    {
      VNodesAreOnline(md5, count, ms);
      BoundedVNodes(md5, count, ms);
      NearestIsNearest(VNodes(md5, count, ms), RingPoint(md5, key));
    }
  }

  // ---------------------------------------------------------------------
  // With a routing key
  // ---------------------------------------------------------------------

  lemma ClockwiseIsModulo(point: nat, v: VNode)
    requires point < RING && v.hash < RING
    ensures Clockwise(point, v) == (v.hash - point) % RING
  {
  }

  /** The node at `i` is the first listed of those nearest to `point` on the circle. */
  ghost predicate NearestAt(xs: seq<VNode>, point: nat, i: nat)
    requires i < |xs|
  {
    forall j :: 0 <= j < |xs| ==>
      && (xs[i].hash - point) % RING <= (xs[j].hash - point) % RING
      && (j < i ==> xs[j].hash != xs[i].hash)
  }

  lemma {:induction false} FirstOf(xs: seq<VNode>, hash: nat) returns (i: nat)
    requires WithHash(xs, hash) != []
    ensures i < |xs| && xs[i].hash == hash && xs[i] == WithHash(xs, hash)[0]
    ensures forall j :: 0 <= j < i ==> xs[j].hash != hash
  {
    var init := xs[..|xs| - 1];
    if WithHash(init, hash) == [] {
      i := |init|;
      forall j | 0 <= j < i
        ensures xs[j].hash != hash
      {
        if xs[j].hash == hash { SomeWithHash(init, j); }
      }
    } else {
      i := FirstOf(init, hash);
    }
  }

  lemma {:induction false} SomeWithHash(xs: seq<VNode>, i: nat)
    requires i < |xs|
    ensures WithHash(xs, xs[i].hash) != []
  {
    if i < |xs| - 1 { SomeWithHash(xs[..|xs| - 1], i); }
  }

  lemma NearestIsAt(xs: seq<VNode>, point: nat) returns (i: nat)
    requires xs != [] && point < RING && Bounded(xs)
    ensures i < |xs| && xs[i] == Nearest(xs, point) && NearestAt(xs, point, i)
  {
    hide Nearest, WithHash;
    NearestIsNearest(xs, point);
    i := FirstOf(xs, Nearest(xs, point).hash);
    forall j | 0 <= j < |xs|
      ensures (xs[i].hash - point) % RING <= (xs[j].hash - point) % RING
    {
      ClockwiseIsModulo(point, xs[i]);
      ClockwiseIsModulo(point, xs[j]);
    }
  }

  /** A key goes to the owner of the first node that is met going clockwise from
      its digest, and of colliding nodes of the first listed; it finds none
      exactly if there are no nodes. */
  lemma KeyGoesClockwise(md5: string -> nat, count: nat, ms: seq<ServerMetrics>, key: string)
    requires Digest(md5) && key != ""
    ensures Select(md5, count, ms, Some(key)).None? <==> VNodes(md5, count, ms) == []
    ensures VNodes(md5, count, ms) != [] ==>
              exists i: nat :: i < |VNodes(md5, count, ms)|
                               && Select(md5, count, ms, Some(key)) == Some(VNodes(md5, count, ms)[i].server)
                               && NearestAt(VNodes(md5, count, ms), md5(key), i)
  {
    hide Nearest, VNodes, NearestAt;
    var xs := VNodes(md5, count, ms);
    BoundedVNodes(md5, count, ms);
    if xs != [] {
      var i := NearestIsAt(xs, md5(key));
      assert Select(md5, count, ms, Some(key)) == Some(xs[i].server);
    }
  }

  lemma SameResidue(point: nat, v: nat)
    requires point < RING && v < RING && (v - point) % RING == 0
    ensures v == point
  {
  }

  /** In particular a key whose digest is that of a node goes to the first
      listed node with it. */
  lemma KeyMeetsNode(md5: string -> nat, count: nat, ms: seq<ServerMetrics>, key: string, i: nat)
    requires Digest(md5) && key != "" && i < |VNodes(md5, count, ms)|
    requires VNodes(md5, count, ms)[i].hash == md5(key)
    requires forall j :: 0 <= j < i ==> VNodes(md5, count, ms)[j].hash != md5(key)
    ensures Select(md5, count, ms, Some(key)) == Some(VNodes(md5, count, ms)[i].server)
  {
    hide Select, VNodes;
    var xs := VNodes(md5, count, ms);
    KeyGoesClockwise(md5, count, ms, key);
    var k: nat :| k < |xs| && Select(md5, count, ms, Some(key)) == Some(xs[k].server) && NearestAt(xs, md5(key), k);
    assert (xs[k].hash - md5(key)) % RING <= (xs[i].hash - md5(key)) % RING;
    BoundedVNodes(md5, count, ms);
    SameResidue(md5(key), xs[k].hash);
  }

  // ---------------------------------------------------------------------
  // The virtual nodes
  // ---------------------------------------------------------------------

  /** The number a string of digits stands for. */
  function Read(digits: string): int {
    if digits == "" then 0 else 10 * Read(digits[..|digits| - 1]) + (digits[|digits| - 1] as int - '0' as int)
  }

  /** The decimal numeral of `n` reads `n`, in digits and without leading zeros. */
  lemma {:induction false} DecimalReads(n: nat)
    ensures Read(Decimal(n)) == n && Decimal(n) != ""
    ensures forall i :: 0 <= i < |Decimal(n)| ==> '0' <= Decimal(n)[i] <= '9'
    ensures n > 0 ==> Decimal(n)[0] != '0'
  {
    var digit := ["0", "1", "2", "3", "4", "5", "6", "7", "8", "9"][n % 10];
    if n < 10 {
      assert Decimal(n) == digit && digit[..0] == "";
    } else {
      DecimalReads(n / 10);
      assert Decimal(n) == Decimal(n / 10) + digit;
      assert Decimal(n)[..|Decimal(n)| - 1] == Decimal(n / 10);
    }
  }

  /** Different virtual nodes of one server have different keys. */
  lemma NodeKeysDiffer(server: string, v: nat, w: nat)
    requires VNodeKey(server, v) == VNodeKey(server, w)
    ensures v == w
  {
    hide Decimal;
    var prefix := server + "-vn-";
    assert VNodeKey(server, v)[|prefix|..] == Decimal(v) && VNodeKey(server, w)[|prefix|..] == Decimal(w);
    DecimalReads(v);
    DecimalReads(w);
  }

  /** The digest is that of one of the first `count` keys of the server. */
  ghost predicate KeyedBelow(md5: string -> nat, server: string, count: nat, hash: nat) {
    exists n: nat :: n < count && hash == md5(server + "-vn-" + Decimal(n))
  }

  lemma OneMoreKey(md5: string -> nat, server: string, count: nat, hash: nat)
    ensures KeyedBelow(md5, server, count + 1, hash)
       <==> KeyedBelow(md5, server, count, hash) || hash == md5(VNodeKey(server, count))
  {
    hide Decimal;
    assert VNodeKey(server, count) == server + "-vn-" + Decimal(count);
    if KeyedBelow(md5, server, count + 1, hash) {
      var n: nat :| n < count + 1 && hash == md5(server + "-vn-" + Decimal(n));
      assert n < count ==> KeyedBelow(md5, server, count, hash);
    }
    if hash == md5(VNodeKey(server, count)) {
      assert count < count + 1 && hash == md5(server + "-vn-" + Decimal(count));
    }
  }

  lemma {:induction false} NodesOfServer(md5: string -> nat, server: string, count: nat, v: VNode)
    ensures v in ServerVNodes(md5, server, count) <==> v.server == server && KeyedBelow(md5, server, count, v.hash)
  {
    hide VNodeKey, KeyedBelow;
    if count == 0 {
      NoKeys(md5, server, v.hash);
    } else {
      NodesOfServer(md5, server, count - 1, v);
      OneMoreKey(md5, server, count - 1, v.hash);
    }
  }

  lemma NoKeys(md5: string -> nat, server: string, hash: nat)
    ensures !KeyedBelow(md5, server, 0, hash)
  {
  }

  /** The nodes are those of the online servers, number 0 to `count` - 1 of each,
      at the digest of the server's id, "-vn-" and the number. */
  lemma {:induction false} NodesOfOnlineServers(md5: string -> nat, count: nat, ms: seq<ServerMetrics>, v: VNode)
    ensures v in VNodes(md5, count, ms) <==> IsOnline(ms, v.server) && KeyedBelow(md5, v.server, count, v.hash)
  {
    hide KeyedBelow, ServerVNodes;
    if ms != [] {
      var init, last := ms[..|ms| - 1], ms[|ms| - 1];
      assert ms == init + [last];
      NodesOfOnlineServers(md5, count, init, v);
      NodesOfServer(md5, last.serverId, count, v);
      assert IsOnline(ms, v.server) <==> IsOnline(init, v.server) || last == ServerMetrics(v.server, Online);
    }
  }

  // ---------------------------------------------------------------------
  // Without a routing key
  // ---------------------------------------------------------------------

  /** Without a routing key the owner of the first listed node of least hash is chosen. */
  lemma NoKeyTakesLeast(md5: string -> nat, count: nat, ms: seq<ServerMetrics>, key: Option<string>)
    requires Digest(md5) && (key.None? || key.value == "")
    ensures Select(md5, count, ms, key).None? <==> VNodes(md5, count, ms) == []
    ensures var xs := VNodes(md5, count, ms);
            xs != [] ==>
              exists i: nat :: i < |xs| && Select(md5, count, ms, key) == Some(xs[i].server)
                               && forall j :: 0 <= j < |xs| ==> xs[i].hash <= xs[j].hash
                                                                && (j < i ==> xs[i].hash < xs[j].hash)
  {
    hide Nearest, VNodes;
    var xs := VNodes(md5, count, ms);
    BoundedVNodes(md5, count, ms);
    if xs != [] {
      var i := NearestIsAt(xs, 0);
      forall j | 0 <= j < |xs|
        ensures xs[i].hash <= xs[j].hash && (j < i ==> xs[i].hash < xs[j].hash)
      {
        assert xs[j].hash % RING == xs[j].hash && xs[i].hash % RING == xs[i].hash;
      }
    }
  }

  /** The nodes of the first online server are listed first. */
  lemma {:induction false} FirstServerFirst(md5: string -> nat, count: nat, ms: seq<ServerMetrics>)
    requires OnlineIds(ms) != []
    ensures ServerVNodes(md5, OnlineIds(ms)[0], count) <= VNodes(md5, count, ms)
  {
    var init, last := ms[..|ms| - 1], ms[|ms| - 1];
    if OnlineIds(init) != [] {
      FirstServerFirst(md5, count, init);
      assert OnlineIds(ms)[0] == OnlineIds(init)[0];
    } else {
      NoneOnline(md5, count, init);
    }
  }

  lemma {:induction false} NoneOnline(md5: string -> nat, count: nat, ms: seq<ServerMetrics>)
    requires OnlineIds(ms) == []
    ensures VNodes(md5, count, ms) == []
  {
    if ms != [] { NoneOnline(md5, count, ms[..|ms| - 1]); }
  }

  /** A node of a server is among the server's nodes, wherever it is listed. */
  lemma {:induction false} NodeOfItsServer(md5: string -> nat, count: nat, ms: seq<ServerMetrics>, v: VNode)
    requires Digest(md5) && v in VNodes(md5, count, ms)
    ensures v in ServerVNodes(md5, v.server, count)
  {
    var init, last := ms[..|ms| - 1], ms[|ms| - 1];
    BoundedServerVNodes(md5, last.serverId, count);
    if v in VNodes(md5, count, init) { NodeOfItsServer(md5, count, init, v); }
  }

  /** If some of the first `p` nodes is nearest, one of them is chosen. */
  lemma {:induction false} NearestInPrefix(xs: seq<VNode>, point: nat, p: nat, i: nat)
    requires i < p <= |xs| && point < RING
    requires forall j :: 0 <= j < |xs| ==> Clockwise(point, xs[i]) <= Clockwise(point, xs[j])
    ensures Nearest(xs, point) in xs[..p]
  {
    if p < |xs| {
      var init, last := xs[..|xs| - 1], xs[|xs| - 1];
      assert init[..p] == xs[..p];
      NearestInPrefix(init, point, p, i);
      assert xs[i] == init[i] && Nearest(init, point) in init by { PrefixMembers(init, p, Nearest(init, point)); }
      NearestIsLeast(init, point, i);
    } else {
      assert xs[..p] == xs;
      NearestIsMember(xs, point);
    }
  }

  lemma PrefixMembers(xs: seq<VNode>, p: nat, v: VNode)
    requires p <= |xs| && v in xs[..p]
    ensures v in xs
  {
  }

  lemma {:induction false} NearestIsMember(xs: seq<VNode>, point: nat)
    requires xs != [] && point < RING
    ensures Nearest(xs, point) in xs
  {
    assert xs == xs[..|xs| - 1] + [xs[|xs| - 1]];
    if |xs| > 1 { NearestIsMember(xs[..|xs| - 1], point); }
  }

  lemma {:induction false} NearestIsLeast(xs: seq<VNode>, point: nat, i: nat)
    requires i < |xs| && point < RING
    ensures Clockwise(point, Nearest(xs, point)) <= Clockwise(point, xs[i])
  {
    var init := xs[..|xs| - 1];
    if i < |init| { NearestIsLeast(init, point, i); }
  }

  /** Some node of `server` has a hash that no other node's undercuts. */
  ghost predicate HasLeastHash(xs: seq<VNode>, server: string) {
    exists i :: 0 <= i < |xs| && xs[i].server == server && forall j :: 0 <= j < |xs| ==> xs[i].hash <= xs[j].hash
  }

  lemma ChosenHasLeastHash(xs: seq<VNode>)
    requires xs != []
    ensures HasLeastHash(xs, Nearest(xs, 0).server)
  {
    hide Nearest;
    NearestIsMember(xs, 0);
    var i :| 0 <= i < |xs| && xs[i] == Nearest(xs, 0);
    forall j | 0 <= j < |xs|
      ensures xs[i].hash <= xs[j].hash
    {
      NearestIsLeast(xs, 0, j);
    }
  }

  /** If a server's own nodes come first, and some node of least hash equals
      one of them, then the server is chosen. */
  lemma LeastHashIsChosen(xs: seq<VNode>, own: seq<VNode>, server: string, v: VNode)
    requires own <= xs && v in own && forall w :: w in own ==> w.server == server
    requires forall j :: 0 <= j < |xs| ==> v.hash <= xs[j].hash
    ensures xs != [] && Nearest(xs, 0).server == server
  {
    hide Nearest;
    var p :| 0 <= p < |own| && own[p] == v;
    assert xs[p] == own[p] && xs[..|own|] == own;
    NearestInPrefix(xs, 0, |own|, p);
    assert Nearest(xs, 0) in own;
  }

  /** Without a routing key the first online server is chosen exactly when it
      has a virtual node of least hash; of equal hashes its own comes first. */
  lemma NoKeyPicksFirstExactlyWhen(md5: string -> nat, count: nat, ms: seq<ServerMetrics>, key: Option<string>)
    requires Digest(md5) && count > 0 && OnlineIds(ms) != [] && (key.None? || key.value == "")
    ensures Select(md5, count, ms, key) == Some(OnlineIds(ms)[0])
        <==> HasLeastHash(VNodes(md5, count, ms), OnlineIds(ms)[0])
  {
    hide Digest, ServerVNodes, VNodes, OnlineIds, Nearest;
    var xs, server := VNodes(md5, count, ms), OnlineIds(ms)[0];
    var own := ServerVNodes(md5, server, count);
    FirstServerFirst(md5, count, ms);
    BoundedServerVNodes(md5, server, count);
    ChosenHasLeastHash(xs);
    if HasLeastHash(xs, server) {
      var i :| 0 <= i < |xs| && xs[i].server == server && forall j :: 0 <= j < |xs| ==> xs[i].hash <= xs[j].hash;
      NodeOfItsServer(md5, count, ms, xs[i]);
      LeastHashIsChosen(xs, own, server, xs[i]);
    }
  }

  lemma OneNodeEach(md5: string -> nat, a: string, b: string)
    ensures VNodes(md5, 1, [ServerMetrics(a, Online), ServerMetrics(b, Online)])
         == [VNode(md5(VNodeKey(a, 0)), a), VNode(md5(VNodeKey(b, 0)), b)]
  {
    hide VNodeKey;
    var ms := [ServerMetrics(a, Online), ServerMetrics(b, Online)];
    assert |ms[..1][..0]| == 0 && ms[..1] == [ms[0]];
    assert ServerVNodes(md5, a, 1) == [VNode(md5(VNodeKey(a, 0)), a)];
    assert ServerVNodes(md5, b, 1) == [VNode(md5(VNodeKey(b, 0)), b)];
    assert VNodes(md5, 1, [ms[0]]) == [VNode(md5(VNodeKey(a, 0)), a)];
  }

  /** A digest under which the only node of server "B" comes before that of "A". */
  function SecondFirst(key: string): nat {
    if key == VNodeKey("B", 0) then 0 else 1
  }

  lemma KeysDiffer()
    ensures VNodeKey("A", 0) != VNodeKey("B", 0)
  {
    assert VNodeKey("A", 0)[0] != VNodeKey("B", 0)[0];
  }

  /** So it can fail: with one node each, "B" is chosen although "A" is listed first. */
  lemma NoKeyPicksSecond()
    ensures Digest(SecondFirst)
    ensures Select(SecondFirst, 1, [ServerMetrics("A", Online), ServerMetrics("B", Online)], None) == Some("B")
  {
    hide VNodeKey, VNodes;
    KeysDiffer();
    OneNodeEach(SecondFirst, "A", "B");
    var xs := [VNode(1, "A"), VNode(0, "B")];
    assert xs[..1] == [xs[0]];
  }
}
