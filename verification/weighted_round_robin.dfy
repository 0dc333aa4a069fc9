/** Smooth weighted round robin (load_balancer/weighted_round_robin.py). */
module WeightedRoundRobin {
  import opened Arithmetic
  import opened Metrics

  type Currents = map<string, int>

  function Get(c: Currents, id: string): int {
    if id in c then c[id] else 0
  }

  function WeightFor(weights: map<string, int>, id: string): nat {
    var w := if id in weights then weights[id] else 1;
    if w < 0 then 0 else w
  }

  function TotalWeight(weights: map<string, int>, ids: seq<string>): nat {
    if ids == [] then 0
    else TotalWeight(weights, ids[..|ids| - 1]) + WeightFor(weights, ids[|ids| - 1])
  }

  /** Every online server gets an entry. */
  function Extend(c: Currents, ids: seq<string>): Currents {
    if ids == [] then c
    else
      var d := Extend(c, ids[..|ids| - 1]);
      if ids[|ids| - 1] in d then d else d[ids[|ids| - 1] := 0]
  }

  /** Every online server's current grows by its weight. */
  function Bump(weights: map<string, int>, c: Currents, ids: seq<string>): Currents {
    if ids == [] then c
    else
      var d := Bump(weights, c, ids[..|ids| - 1]);
      var id := ids[|ids| - 1];
      d[id := Get(d, id) + WeightFor(weights, id)]
  }

  /** The earliest id with the largest current. */
  function Best(c: Currents, ids: seq<string>): string
    requires ids != []
  {
    var last := ids[|ids| - 1];
    if |ids| == 1 then last
    else
      var b := Best(c, ids[..|ids| - 1]);
      if Get(c, last) > Get(c, b) then last else b
  }

  /** One call: the new currents and the pick. */
  function Select(weights: map<string, int>, c: Currents, ms: seq<ServerMetrics>): (Currents, Option<string>) {
    var ids := OnlineIds(ms);
    var total := TotalWeight(weights, ids);
    if ids == [] then (c, None)
    else if total == 0 then (Extend(c, ids), None)
    else
      var d := Bump(weights, Extend(c, ids), ids);
      var id := Best(d, ids);
      (d[id := Get(d, id) - total], Some(id))
  }

  class WeightedRoundRobinStrategy {
    const weights: map<string, int>
    var current: Currents

    constructor (weights: map<string, int>)
      ensures this.weights == weights && current == map[]
    {
      this.weights := weights;
      current := map[];
    }

    /** The online entries of the metrics list, by id. */
    static method FilterOnline(ms: seq<ServerMetrics>) returns (online: seq<string>)
      ensures online == OnlineIds(ms)
    {
      online := [];
      for i := 0 to |ms|
        invariant online == OnlineIds(ms[..i])
      {
        assert ms[..i + 1][..i] == ms[..i];
        if ms[i].status.Online? { online := online + [ms[i].serverId]; }
      }
      assert ms[..|ms|] == ms;
    }

    /** The first server of largest current. */
    method Largest(online: seq<string>) returns (best: string)
      requires online != [] && forall id :: id in online ==> id in current
      ensures best == Best(current, online) && best in current
    {
      best := online[0];
      for i := 1 to |online|
        invariant best in current && best == Best(current, online[..i])
      {
        assert online[..i + 1][..i] == online[..i];
        if current[online[i]] > current[best] { best := online[i]; }
      }
      assert online[..|online|] == online;
    }

    method EnsureEntries(online: seq<string>) returns (total: int)
      modifies this
      ensures current == Extend(old(current), online) && total == TotalWeight(weights, online)
      ensures forall id :: id in online ==> id in current
    {
      total := 0;
      for i := 0 to |online|
        invariant current == Extend(old(current), online[..i])
        invariant total == TotalWeight(weights, online[..i])
        invariant forall j :: 0 <= j < i ==> online[j] in current
      {
        assert online[..i + 1][..i] == online[..i];
        if online[i] !in current { current := current[online[i] := 0]; }
        total := total + WeightFor(weights, online[i]);
      }
      assert online[..|online|] == online;
    }

    method AddWeights(online: seq<string>)
      requires forall id :: id in online ==> id in current
      modifies this
      ensures current == Bump(weights, old(current), online)
      ensures forall id :: id in online ==> id in current
    {
      for i := 0 to |online|
        invariant current == Bump(weights, old(current), online[..i])
        invariant forall id :: id in online ==> id in current
      {
        assert online[..i + 1][..i] == online[..i];
        current := current[online[i] := current[online[i]] + WeightFor(weights, online[i])];
      }
      assert online[..|online|] == online;
    }

    method SelectServer(ms: seq<ServerMetrics>) returns (chosen: Option<string>)
      modifies this
      ensures (current, chosen) == Select(weights, old(current), ms)
    {
      var online := FilterOnline(ms);
      if online == [] { return None; }
      var total := EnsureEntries(online);
      if total <= 0 { return None; }
      AddWeights(online);
      var best := Largest(online);
      current := current[best := current[best] - total];
      return Some(best);
    }
  }

  // ---------------------------------------------------------------------
  // Conservation, whatever servers come and go
  // ---------------------------------------------------------------------

  ghost function Sum(c: Currents): int {
    if c == map[] then 0
    else
      var id :| id in c;
      c[id] + Sum(c - {id})
  }

  lemma {:induction false} SumPeel(c: Currents, id: string)
    requires id in c
    ensures Sum(c) == c[id] + Sum(c - {id})
    decreases |c|
  {
    var k :| k in c && Sum(c) == c[k] + Sum(c - {k});
    if k != id {
      SumPeel(c - {k}, id);
      SumPeel(c - {id}, k);
      assert c - {k} - {id} == c - {id} - {k};
    }
  }

  lemma SumUpdate(c: Currents, id: string, v: int)
    ensures Sum(c[id := v]) == Sum(c) - Get(c, id) + v
  {
    SumPeel(c[id := v], id);
    assert c[id := v] - {id} == c - {id};
    if id in c { SumPeel(c, id); } else { assert c - {id} == c; }
  }

  lemma {:induction false} SumExtend(c: Currents, ids: seq<string>)
    ensures Sum(Extend(c, ids)) == Sum(c)
  {
    if ids != [] {
      SumExtend(c, ids[..|ids| - 1]);
      SumUpdate(Extend(c, ids[..|ids| - 1]), ids[|ids| - 1], 0);
    }
  }

  lemma {:induction false} SumBump(weights: map<string, int>, c: Currents, ids: seq<string>)
    ensures Sum(Bump(weights, c, ids)) == Sum(c) + TotalWeight(weights, ids)
  {
    if ids != [] {
      var d := Bump(weights, c, ids[..|ids| - 1]);
      SumBump(weights, c, ids[..|ids| - 1]);
      SumUpdate(d, ids[|ids| - 1], Get(d, ids[|ids| - 1]) + WeightFor(weights, ids[|ids| - 1]));
    }
  }

  lemma SelectConserves(weights: map<string, int>, c: Currents, ms: seq<ServerMetrics>)
    ensures Sum(Select(weights, c, ms).0) == Sum(c)
  {
    hide Sum, Extend, Bump, Best, TotalWeight, Get;
    var ids := OnlineIds(ms);
    if ids != [] {
      SumExtend(c, ids);
      if TotalWeight(weights, ids) != 0 {
        var d := Bump(weights, Extend(c, ids), ids);
        SumBump(weights, Extend(c, ids), ids);
        SumUpdate(d, Best(d, ids), Get(d, Best(d, ids)) - TotalWeight(weights, ids));
      }
    }
  }

  /** The currents after a run in which every call may see other servers. */
  function AfterCalls(weights: map<string, int>, calls: seq<seq<ServerMetrics>>): Currents {
    if calls == [] then map[]
    else Select(weights, AfterCalls(weights, calls[..|calls| - 1]), calls[|calls| - 1]).0
  }

  lemma {:induction false} CurrentsAlwaysSumToZero(weights: map<string, int>, calls: seq<seq<ServerMetrics>>)
    ensures Sum(AfterCalls(weights, calls)) == 0
  {
    if calls != [] {
      CurrentsAlwaysSumToZero(weights, calls[..|calls| - 1]);
      SelectConserves(weights, AfterCalls(weights, calls[..|calls| - 1]), calls[|calls| - 1]);
    }
  }

  lemma {:induction false} BestIsLargest(c: Currents, ids: seq<string>)
    requires ids != []
    ensures Best(c, ids) in ids
    ensures forall id :: id in ids ==> Get(c, id) <= Get(c, Best(c, ids))
  {
    if |ids| > 1 {
      BestIsLargest(c, ids[..|ids| - 1]);
      assert ids == ids[..|ids| - 1] + [ids[|ids| - 1]];
    }
  }

  /** Among the largest the first listed wins: whatever stands before it is smaller. */
  lemma {:induction false} BestIsEarliest(c: Currents, ids: seq<string>, j: nat)
    requires j < |ids| && Best(c, ids) !in ids[..j + 1]
    ensures Get(c, ids[j]) < Get(c, Best(c, ids))
  {
    var init := ids[..|ids| - 1];
    BestIsLargest(c, ids);
    assert ids == init + [ids[|ids| - 1]] && ids[..|ids|] == ids;
    if j < |ids| - 1 {
      assert init[..j + 1] == ids[..j + 1];
      assert ids[j] in init;
      if Best(c, ids) == Best(c, init) {
        BestIsEarliest(c, init, j);
      } else {
        BestIsLargest(c, init);
      }
    }
  }

  lemma {:induction false} SomeWeight(weights: map<string, int>, ids: seq<string>)
    ensures TotalWeight(weights, ids) > 0 <==> exists id :: id in ids && WeightFor(weights, id) > 0
  {
    if ids != [] {
      SomeWeight(weights, ids[..|ids| - 1]);
      assert ids == ids[..|ids| - 1] + [ids[|ids| - 1]];
    }
  }

  /** A call picks a server unless every online server has weight 0, and then
      no current changes its reading. */
  lemma PicksUnlessWeightless(weights: map<string, int>, c: Currents, ms: seq<ServerMetrics>, id: string)
    ensures Select(weights, c, ms).1.Some?
        <==> exists k :: k in OnlineIds(ms) && WeightFor(weights, k) > 0
    ensures Select(weights, c, ms).1.None? ==> Get(Select(weights, c, ms).0, id) == Get(c, id)
  {
    SomeWeight(weights, OnlineIds(ms));
    GetExtend(c, OnlineIds(ms), id);
  }

  /** The strategy keeps the interface's promise in every state. */
  lemma WeightedRoutesOnline(weights: map<string, int>, c: Currents)
    ensures RoutesOnline(ms => Select(weights, c, ms).1)
  {
    forall ms | Select(weights, c, ms).1.Some?
      ensures IsOnline(ms, Select(weights, c, ms).1.value)
    {
      var ids := OnlineIds(ms);
      BestIsLargest(Bump(weights, Extend(c, ids), ids), ids);
      OnlineIdsAreOnline(ms, Select(weights, c, ms).1.value);
    }
  }

  // ---------------------------------------------------------------------
  // Exact fairness, for a fixed set of online servers
  // ---------------------------------------------------------------------

  /** Distinct online servers, some weight, and no memory of earlier picks of them. */
  ghost predicate FreshStart(weights: map<string, int>, c: Currents, ms: seq<ServerMetrics>) {
    && Distinct(OnlineIds(ms))
    && TotalWeight(weights, OnlineIds(ms)) > 0
    && forall id :: id in OnlineIds(ms) ==> Get(c, id) == 0
  }

  /** The currents after `t` calls that all see `ms`. */
  function After(weights: map<string, int>, c: Currents, ms: seq<ServerMetrics>, t: nat): Currents {
    if t == 0 then c else Select(weights, After(weights, c, ms, t - 1), ms).0
  }

  /** The pick of call number `t`, counting from 0. */
  function PickAt(weights: map<string, int>, c: Currents, ms: seq<ServerMetrics>, t: nat): Option<string> {
    Select(weights, After(weights, c, ms, t), ms).1
  }

  /** How often the first `t` calls pick `id`. */
  function Picks(weights: map<string, int>, c: Currents, ms: seq<ServerMetrics>, id: string, t: nat): nat {
    if t == 0 then 0
    else Picks(weights, c, ms, id, t - 1) + if PickAt(weights, c, ms, t - 1) == Some(id) then 1 else 0
  }

  /** The currents of the listed servers, added up. */
  function SumOver(c: Currents, ids: seq<string>): int {
    if ids == [] then 0 else SumOver(c, ids[..|ids| - 1]) + Get(c, ids[|ids| - 1])
  }

  lemma {:induction false} GetExtend(c: Currents, ids: seq<string>, id: string)
    ensures Get(Extend(c, ids), id) == Get(c, id)
  {
    if ids != [] { GetExtend(c, ids[..|ids| - 1], id); }
  }

  lemma {:induction false} GetBump(weights: map<string, int>, c: Currents, ids: seq<string>, id: string)
    requires Distinct(ids)
    ensures Get(Bump(weights, c, ids), id) == Get(c, id) + if id in ids then WeightFor(weights, id) else 0
  {
    if ids != [] {
      GetBump(weights, c, ids[..|ids| - 1], id);
      assert ids == ids[..|ids| - 1] + [ids[|ids| - 1]];
    }
  }

  /** One call, seen from one server: it gains its weight and pays the total when picked. */
  lemma OneCall(weights: map<string, int>, c: Currents, ms: seq<ServerMetrics>, id: string)
    requires Distinct(OnlineIds(ms)) && TotalWeight(weights, OnlineIds(ms)) > 0
    requires id in OnlineIds(ms)
    ensures var (d, pick) := Select(weights, c, ms);
            Get(d, id) == Get(c, id) + WeightFor(weights, id)
                          - if pick == Some(id) then TotalWeight(weights, OnlineIds(ms)) else 0
  {
    GetExtend(c, OnlineIds(ms), id);
    GetBump(weights, Extend(c, OnlineIds(ms)), OnlineIds(ms), id);
  }

  lemma {:induction false} SumOverShift(weights: map<string, int>, c: Currents, d: Currents, ids: seq<string>,
          pick: string, total: int)
    requires Distinct(ids)
    requires forall id :: id in ids ==>
               Get(d, id) == Get(c, id) + WeightFor(weights, id) - if id == pick then total else 0
    ensures SumOver(d, ids) == SumOver(c, ids) + TotalWeight(weights, ids) - if pick in ids then total else 0
  {
    hide Get, WeightFor;
    if ids != [] {
      SumOverShift(weights, c, d, ids[..|ids| - 1], pick, total);
      assert ids == ids[..|ids| - 1] + [ids[|ids| - 1]];
    }
  }

  lemma {:induction false} SumOverBounds(c: Currents, ids: seq<string>, low: int, id: string)
    requires Distinct(ids) && forall k :: k in ids ==> Get(c, k) >= low
    ensures SumOver(c, ids) >= |ids| * low
    ensures id in ids ==> SumOver(c, ids) >= Get(c, id) + (|ids| - 1) * low
  {
    if ids != [] {
      var n := |ids|;
      SumOverBounds(c, ids[..n - 1], low, id);
      assert ids == ids[..n - 1] + [ids[n - 1]];
      Distribute(n - 1, low);
      Distribute(n - 2, low);
    }
  }

  lemma Distribute(n: int, x: int)
    ensures (n + 1) * x == n * x + x
  {
  }

  lemma {:induction false} PositiveSumHasPositive(c: Currents, ids: seq<string>)
    requires SumOver(c, ids) > 0
    ensures exists id :: id in ids && Get(c, id) > 0
  {
    var last := ids[|ids| - 1];
    if Get(c, last) > 0 {
      assert last in ids;
    } else {
      PositiveSumHasPositive(c, ids[..|ids| - 1]);
    }
  }

  /** Sum zero and every current above -total survive a call. */
  lemma CallKeepsBalance(weights: map<string, int>, c: Currents, ms: seq<ServerMetrics>)
    requires Distinct(OnlineIds(ms)) && TotalWeight(weights, OnlineIds(ms)) > 0
    requires SumOver(c, OnlineIds(ms)) == 0
    requires forall id :: id in OnlineIds(ms) ==> Get(c, id) + TotalWeight(weights, OnlineIds(ms)) > 0
    ensures Select(weights, c, ms).1.Some? && Select(weights, c, ms).1.value in OnlineIds(ms)
    ensures SumOver(Select(weights, c, ms).0, OnlineIds(ms)) == 0
    ensures forall id :: id in OnlineIds(ms) ==>
              Get(Select(weights, c, ms).0, id) + TotalWeight(weights, OnlineIds(ms)) > 0
  {
    var ids := OnlineIds(ms);
    var total := TotalWeight(weights, ids);
    var bumped := Bump(weights, Extend(c, ids), ids);
    forall id | id in ids
      ensures Get(bumped, id) == Get(c, id) + WeightFor(weights, id)
    {
      GetExtend(c, ids, id);
      GetBump(weights, Extend(c, ids), ids, id);
    }
    SumOverShift(weights, c, bumped, ids, "", 0);
    PositiveSumHasPositive(bumped, ids);
    BestIsLargest(bumped, ids);
    SumOverShift(weights, c, Select(weights, c, ms).0, ids, Best(bumped, ids), total);
  }

  lemma {:induction false} ZeroSum(c: Currents, ids: seq<string>)
    requires forall id :: id in ids ==> Get(c, id) == 0
    ensures SumOver(c, ids) == 0
  {
    if ids != [] { ZeroSum(c, ids[..|ids| - 1]); }
  }

  lemma {:induction false} Balanced(weights: map<string, int>, c: Currents, ms: seq<ServerMetrics>, t: nat)
    requires FreshStart(weights, c, ms)
    ensures SumOver(After(weights, c, ms, t), OnlineIds(ms)) == 0
    ensures forall id :: id in OnlineIds(ms) ==>
              Get(After(weights, c, ms, t), id) + TotalWeight(weights, OnlineIds(ms)) > 0
  {
    if t == 0 {
      ZeroSum(c, OnlineIds(ms));
    } else {
      Balanced(weights, c, ms, t - 1);
      CallKeepsBalance(weights, After(weights, c, ms, t - 1), ms);
    }
  }

  /** A server's current moves by the weight it earns per call minus the total it pays per pick. */
  lemma {:induction false} EarnedMinusPaid(weights: map<string, int>, c: Currents, ms: seq<ServerMetrics>,
          id: string, t: nat)
    requires Distinct(OnlineIds(ms)) && TotalWeight(weights, OnlineIds(ms)) > 0 && id in OnlineIds(ms)
    ensures Get(After(weights, c, ms, t), id)
         == Get(c, id) + t * WeightFor(weights, id) - TotalWeight(weights, OnlineIds(ms)) * Picks(weights, c, ms, id, t)
  {
    hide Select, TotalWeight, OnlineIds, Get, WeightFor, After, Picks;
    if t == 0 {
      NoCallsYet(weights, c, ms, id);
    } else {
      EarnedMinusPaid(weights, c, ms, id, t - 1);
      CallAndCount(weights, c, ms, id, t);
      PaidPerPick(t, WeightFor(weights, id), TotalWeight(weights, OnlineIds(ms)), Picks(weights, c, ms, id, t - 1),
                  PickAt(weights, c, ms, t - 1) == Some(id));
    }
  }

  lemma NoCallsYet(weights: map<string, int>, c: Currents, ms: seq<ServerMetrics>, id: string)
    ensures After(weights, c, ms, 0) == c && Picks(weights, c, ms, id, 0) == 0
  {
  }

  lemma CallAndCount(weights: map<string, int>, c: Currents, ms: seq<ServerMetrics>, id: string, t: nat)
    requires Distinct(OnlineIds(ms)) && TotalWeight(weights, OnlineIds(ms)) > 0 && id in OnlineIds(ms) && t > 0
    ensures var picked := PickAt(weights, c, ms, t - 1) == Some(id);
            && Picks(weights, c, ms, id, t) == Picks(weights, c, ms, id, t - 1) + (if picked then 1 else 0)
            && Get(After(weights, c, ms, t), id)
               == Get(After(weights, c, ms, t - 1), id) + WeightFor(weights, id)
                  - if picked then TotalWeight(weights, OnlineIds(ms)) else 0
  {
    hide Select, TotalWeight, OnlineIds, Get, WeightFor;
    OneCall(weights, After(weights, c, ms, t - 1), ms, id);
  }

  lemma PaidPerPick(t: int, w: int, total: int, k: int, picked: bool)
    ensures t * w - total * (k + if picked then 1 else 0)
         == (t - 1) * w - total * k + w - if picked then total else 0
  {
  }

  /** After any number of calls no server is a whole turn ahead of its share,
      nor more than n - 1 turns behind it. */
  lemma PrefixBounds(weights: map<string, int>, c: Currents, ms: seq<ServerMetrics>, id: string, t: nat)
    requires FreshStart(weights, c, ms) && id in OnlineIds(ms)
    ensures var total := TotalWeight(weights, OnlineIds(ms));
            var k := Picks(weights, c, ms, id, t);
            && total * k < t * WeightFor(weights, id) + total
            && t * WeightFor(weights, id) - total * k <= (|OnlineIds(ms)| - 1) * (total - 1)
  {
    var ids, total := OnlineIds(ms), TotalWeight(weights, OnlineIds(ms)) as int;
    var now := After(weights, c, ms, t);
    Balanced(weights, c, ms, t);
    EarnedMinusPaid(weights, c, ms, id, t);
    SumOverBounds(now, ids, 1 - total, id);
    NegateProduct(|ids| - 1, total - 1);
  }

  lemma NegateProduct(a: int, b: int)
    ensures a * -b == -(a * b)
  {
  }

  /** After `total` calls every current is back to zero. */
  lemma BackToZero(weights: map<string, int>, c: Currents, ms: seq<ServerMetrics>)
    requires FreshStart(weights, c, ms)
    ensures var total := TotalWeight(weights, OnlineIds(ms));
            forall id :: id in OnlineIds(ms) ==> Get(After(weights, c, ms, total), id) == 0
  {
    var ids, total := OnlineIds(ms), TotalWeight(weights, OnlineIds(ms));
    var now := After(weights, c, ms, total);
    Balanced(weights, c, ms, total);
    forall id | id in ids
      ensures Get(now, id) >= 0
    {
      EarnedMinusPaid(weights, c, ms, id, total);
      MultipleAbove(total, WeightFor(weights, id), Picks(weights, c, ms, id, total));
    }
    forall id | id in ids
      ensures Get(now, id) == 0
    {
      SumOverBounds(now, ids, 0, id);
    }
  }

  /** A multiple of `total` above -total is not negative. */
  lemma MultipleAbove(total: int, w: int, k: int)
    requires total > 0 && total * w - total * k > -total
    ensures w >= k && total * w - total * k >= 0
  {
    if w < k { MultiplesApart(total, w, k); }
    if w > k { MultiplesApart(total, k, w); }
  }

  /** The currents of the servers in play; all that a call looks at. */
  ghost predicate Agree(c: Currents, d: Currents, ids: seq<string>) {
    forall id :: id in ids ==> Get(c, id) == Get(d, id)
  }

  lemma {:induction false} BestAgrees(c: Currents, d: Currents, ids: seq<string>)
    requires ids != [] && Agree(c, d, ids)
    ensures Best(c, ids) == Best(d, ids)
  {
    if |ids| > 1 {
      BestAgrees(c, d, ids[..|ids| - 1]);
      BestIsLargest(c, ids[..|ids| - 1]);
    }
  }

  lemma SelectAgrees(weights: map<string, int>, c: Currents, d: Currents, ms: seq<ServerMetrics>)
    requires Distinct(OnlineIds(ms)) && TotalWeight(weights, OnlineIds(ms)) > 0
    requires Agree(c, d, OnlineIds(ms))
    ensures Select(weights, c, ms).1 == Select(weights, d, ms).1
    ensures Agree(Select(weights, c, ms).0, Select(weights, d, ms).0, OnlineIds(ms))
  {
    var ids := OnlineIds(ms);
    var bc, bd := Bump(weights, Extend(c, ids), ids), Bump(weights, Extend(d, ids), ids);
    forall id | id in ids
      ensures Get(bc, id) == Get(bd, id)
    {
      GetExtend(c, ids, id);
      GetExtend(d, ids, id);
      GetBump(weights, Extend(c, ids), ids, id);
      GetBump(weights, Extend(d, ids), ids, id);
    }
    BestAgrees(bc, bd, ids);
  }

  /** From currents that agree, equal calls go on agreeing. */
  lemma {:induction false} StaysInStep(weights: map<string, int>, c: Currents, d: Currents, ms: seq<ServerMetrics>,
          t: nat)
    requires Distinct(OnlineIds(ms)) && TotalWeight(weights, OnlineIds(ms)) > 0
    requires Agree(c, d, OnlineIds(ms))
    ensures Agree(After(weights, c, ms, t), After(weights, d, ms, t), OnlineIds(ms))
    ensures PickAt(weights, c, ms, t) == PickAt(weights, d, ms, t)
  {
    if t > 0 { StaysInStep(weights, c, d, ms, t - 1); }
    if t > 0 { SelectAgrees(weights, After(weights, c, ms, t - 1), After(weights, d, ms, t - 1), ms); }
    SelectAgrees(weights, After(weights, c, ms, t), After(weights, d, ms, t), ms);
  }

  lemma {:induction false} AfterAdds(weights: map<string, int>, c: Currents, ms: seq<ServerMetrics>, s: nat, t: nat)
    ensures After(weights, c, ms, s + t) == After(weights, After(weights, c, ms, s), ms, t)
  {
    if t > 0 { AfterAdds(weights, c, ms, s, t - 1); }
  }

  /** The currents and the picks repeat with period `total`. */
  lemma Periodic(weights: map<string, int>, c: Currents, ms: seq<ServerMetrics>, t: nat)
    requires FreshStart(weights, c, ms)
    ensures var total := TotalWeight(weights, OnlineIds(ms));
            && Agree(After(weights, c, ms, total + t), After(weights, c, ms, t), OnlineIds(ms))
            && PickAt(weights, c, ms, total + t) == PickAt(weights, c, ms, t)
  {
    hide Select, TotalWeight;
    var total := TotalWeight(weights, OnlineIds(ms));
    BackToZero(weights, c, ms);
    AfterAdds(weights, c, ms, total, t);
    StaysInStep(weights, After(weights, c, ms, total), c, ms, t);
  }

  lemma ReturnsAfterTurn(weights: map<string, int>, c: Currents, ms: seq<ServerMetrics>, t: nat)
    requires FreshStart(weights, c, ms)
    ensures var now := After(weights, c, ms, t);
            Agree(After(weights, now, ms, TotalWeight(weights, OnlineIds(ms))), now, OnlineIds(ms))
  {
    hide Select, TotalWeight, OnlineIds, Get, After;
    var total := TotalWeight(weights, OnlineIds(ms));
    Periodic(weights, c, ms, t);
    AfterAdds(weights, c, ms, t, total);
    assert total + t == t + total;
  }

  /** A server whose current a full turn does not move is picked exactly its weight many times. */
  lemma FullTurn(weights: map<string, int>, c: Currents, ms: seq<ServerMetrics>, id: string)
    requires Distinct(OnlineIds(ms)) && TotalWeight(weights, OnlineIds(ms)) > 0 && id in OnlineIds(ms)
    requires Get(After(weights, c, ms, TotalWeight(weights, OnlineIds(ms))), id) == Get(c, id)
    ensures Picks(weights, c, ms, id, TotalWeight(weights, OnlineIds(ms))) == WeightFor(weights, id)
  {
    var total, w := TotalWeight(weights, OnlineIds(ms)), WeightFor(weights, id);
    var k := Picks(weights, c, ms, id, total);
    assert total * w - total * k == 0 by {
      EarnedMinusPaid(weights, c, ms, id, total);
    }
    MultipleAbove(total, w, k);
    MultipleAbove(total, k, w);
  }

  /** Every window of `total` consecutive calls picks each server exactly as
      often as its weight says. */
  lemma ExactFairness(weights: map<string, int>, c: Currents, ms: seq<ServerMetrics>, id: string, t: nat)
    requires FreshStart(weights, c, ms) && id in OnlineIds(ms)
    ensures Picks(weights, After(weights, c, ms, t), ms, id, TotalWeight(weights, OnlineIds(ms)))
         == WeightFor(weights, id)
  {
    ReturnsAfterTurn(weights, c, ms, t);
    FullTurn(weights, After(weights, c, ms, t), ms, id);
  }

  /** With a fixed set of online servers and from fresh state, a server of
      weight 0 is never picked. */
  lemma ZeroWeightNeverPicked(weights: map<string, int>, c: Currents, ms: seq<ServerMetrics>, id: string, t: nat)
    requires FreshStart(weights, c, ms) && id in OnlineIds(ms) && WeightFor(weights, id) == 0
    ensures PickAt(weights, c, ms, t) != Some(id)
  {
    var total := TotalWeight(weights, OnlineIds(ms)) as int;
    var k := Picks(weights, c, ms, id, t + 1) as int;
    assert total * k < total by {
      PrefixBounds(weights, c, ms, id, t + 1);
    }
    MultipleAbove(total, 0, k);
  }

  // ---------------------------------------------------------------------
  // The same in terms of the configured weights
  // ---------------------------------------------------------------------

  /** The entries of the listed servers, added up. */
  function EntrySum(entries: map<string, int>, ids: seq<string>): int
    requires forall id :: id in ids ==> id in entries
  {
    if ids == [] then 0 else EntrySum(entries, ids[..|ids| - 1]) + entries[ids[|ids| - 1]]
  }

  /** The configured entries, with an entry of 1 for every listed server that has none. */
  function WithOnes(weights: map<string, int>, ids: seq<string>): map<string, int> {
    (map id | id in ids :: 1) + weights
  }

  lemma {:induction false} EntriesAddUp(weights: map<string, int>, entries: map<string, int>, ids: seq<string>)
    requires forall id :: id in ids ==> id in entries && entries[id] == WeightFor(weights, id)
    ensures EntrySum(entries, ids) == TotalWeight(weights, ids)
  {
    hide WeightFor;
    if ids != [] {
      assert forall id :: id in ids[..|ids| - 1] ==> id in ids;
      assert ids[|ids| - 1] in ids;
      EntriesAddUp(weights, entries, ids[..|ids| - 1]);
    }
  }

  /** Distinct online servers whose configured entries are not negative, with
      something to share out, and no memory of earlier picks of them. */
  ghost predicate Sharing(weights: map<string, int>, c: Currents, ms: seq<ServerMetrics>) {
    var ids := OnlineIds(ms);
    && Distinct(ids)
    && (forall id :: id in ids && id in weights ==> weights[id] >= 0)
    && EntrySum(WithOnes(weights, ids), ids) > 0
    && (forall id :: id in ids ==> id !in c || c[id] == 0)
  }

  lemma SharingIsFresh(weights: map<string, int>, c: Currents, ms: seq<ServerMetrics>)
    requires Sharing(weights, c, ms)
    ensures FreshStart(weights, c, ms)
    ensures TotalWeight(weights, OnlineIds(ms)) == EntrySum(WithOnes(weights, OnlineIds(ms)), OnlineIds(ms))
    ensures forall id :: id in OnlineIds(ms) ==> WithOnes(weights, OnlineIds(ms))[id] == WeightFor(weights, id)
  {
    hide OnlineIds, EntrySum, TotalWeight;
    EntriesAddUp(weights, WithOnes(weights, OnlineIds(ms)), OnlineIds(ms));
  }

  /** Exact fairness by the configuration: with W the sum of the online servers'
      entries, every window of W calls picks each server exactly as often as
      its entry says, and a server without an entry exactly once. */
  lemma ExactShares(weights: map<string, int>, c: Currents, ms: seq<ServerMetrics>, id: string, t: nat)
    requires Sharing(weights, c, ms) && id in OnlineIds(ms)
    ensures var window := EntrySum(WithOnes(weights, OnlineIds(ms)), OnlineIds(ms));
            Picks(weights, After(weights, c, ms, t), ms, id, window) == if id in weights then weights[id] else 1
  {
    hide Sharing, OnlineIds, TotalWeight, EntrySum, After, Picks;
    SharingIsFresh(weights, c, ms);
    ExactFairness(weights, c, ms, id, t);
  }

  /** After t calls with k picks of a server of entry w: it is less than one turn
      ahead of its share, and at most n - 1 turns, short of n - 1, behind it. */
  lemma ShareBounds(weights: map<string, int>, c: Currents, ms: seq<ServerMetrics>, id: string, t: nat)
    requires Sharing(weights, c, ms) && id in OnlineIds(ms)
    ensures var total := EntrySum(WithOnes(weights, OnlineIds(ms)), OnlineIds(ms));
            var w := if id in weights then weights[id] else 1;
            var k := Picks(weights, c, ms, id, t);
            total * k < t * w + total && t * w - total * k <= (|OnlineIds(ms)| - 1) * (total - 1)
  {
    hide Sharing, OnlineIds, TotalWeight, EntrySum, Picks;
    SharingIsFresh(weights, c, ms);
    PrefixBounds(weights, c, ms, id, t);
  }

  /** The dashboard's own weights: of any six calls in a row that find all three
      servers online, "Server 1" gets three, "Server 2" two and "Server 3" one. */
  lemma ThreeTwoOne(ms: seq<ServerMetrics>, t: nat)
    requires OnlineIds(ms) == ["Server 1", "Server 2", "Server 3"]
    ensures var weights := map["Server 1" := 3, "Server 2" := 2, "Server 3" := 1];
            var now := After(weights, map[], ms, t);
            && Picks(weights, now, ms, "Server 1", 6) == 3
            && Picks(weights, now, ms, "Server 2", 6) == 2
            && Picks(weights, now, ms, "Server 3", 6) == 1
  {
    hide OnlineIds, After, Picks;
    var weights := map["Server 1" := 3, "Server 2" := 2, "Server 3" := 1];
    var ids := ["Server 1", "Server 2", "Server 3"];
    assert "Server 1"[7] != "Server 2"[7] && "Server 1"[7] != "Server 3"[7] && "Server 2"[7] != "Server 3"[7];
    var full := WithOnes(weights, ids);
    assert |ids[..2][..1][..0]| == 0 && ids[..2] == [ids[0], ids[1]] && ids[..2][..1] == [ids[0]];
    assert EntrySum(full, [ids[0]]) == 3 && EntrySum(full, ids[..2]) == 5 && EntrySum(full, ids) == 6;
    assert ids[0] in ids && ids[1] in ids && ids[2] in ids;
    ExactShares(weights, map[], ms, ids[0], t);
    ExactShares(weights, map[], ms, ids[1], t);
    ExactShares(weights, map[], ms, ids[2], t);
  }

  lemma {:induction false} SameTotal(a: map<string, int>, b: map<string, int>, ids: seq<string>)
    requires forall id :: WeightFor(a, id) == WeightFor(b, id)
    ensures TotalWeight(a, ids) == TotalWeight(b, ids)
  {
    if ids != [] { SameTotal(a, b, ids[..|ids| - 1]); }
  }

  lemma {:induction false} SameBump(a: map<string, int>, b: map<string, int>, c: Currents, ids: seq<string>)
    requires forall id :: WeightFor(a, id) == WeightFor(b, id)
    ensures Bump(a, c, ids) == Bump(b, c, ids)
  {
    if ids != [] { SameBump(a, b, c, ids[..|ids| - 1]); }
  }

  lemma SameWeightsSameCall(a: map<string, int>, b: map<string, int>, c: Currents, ms: seq<ServerMetrics>)
    requires forall id :: WeightFor(a, id) == WeightFor(b, id)
    ensures Select(a, c, ms) == Select(b, c, ms)
  {
    hide WeightFor, OnlineIds, TotalWeight, Bump, Extend, Best;
    SameTotal(a, b, OnlineIds(ms));
    SameBump(a, b, Extend(c, OnlineIds(ms)), OnlineIds(ms));
  }

  /** In any state and for any list: no entry counts as an entry of 1, and a
      negative one as an entry of 0. */
  lemma MissingIsOneNegativeIsZero(weights: map<string, int>, id: string, c: Currents, ms: seq<ServerMetrics>)
    ensures id !in weights ==> Select(weights, c, ms) == Select(weights[id := 1], c, ms)
    ensures id in weights && weights[id] < 0 ==> Select(weights, c, ms) == Select(weights[id := 0], c, ms)
  {
    hide Select;
    if id !in weights {
      SameWeightsSameCall(weights, weights[id := 1], c, ms);
    } else if weights[id] < 0 {
      SameWeightsSameCall(weights, weights[id := 0], c, ms);
    }
  }

  /** With a fixed set of distinct online servers and from fresh state, an entry
      of 0 or below is never picked. */
  lemma NonPositiveNeverPicked(weights: map<string, int>, c: Currents, ms: seq<ServerMetrics>, id: string, t: nat)
    requires Distinct(OnlineIds(ms)) && forall k :: k in OnlineIds(ms) ==> k !in c || c[k] == 0
    requires id in OnlineIds(ms) && id in weights && weights[id] <= 0
    ensures PickAt(weights, c, ms, t) != Some(id)
  {
    hide OnlineIds, After;
    if TotalWeight(weights, OnlineIds(ms)) > 0 { ZeroWeightNeverPicked(weights, c, ms, id, t); }
  }

  // ---------------------------------------------------------------------
  // Who is picked, from any state and among any servers
  // ---------------------------------------------------------------------

  /** What a call adds to a server's current: its weight, once per listing. */
  function Earned(weights: map<string, int>, ids: seq<string>, id: string): nat {
    if ids == [] then 0
    else Earned(weights, ids[..|ids| - 1], id) + if ids[|ids| - 1] == id then WeightFor(weights, id) else 0
  }

  lemma {:induction false} EarnedOnce(weights: map<string, int>, ids: seq<string>, id: string)
    requires Distinct(ids)
    ensures Earned(weights, ids, id) == if id in ids then WeightFor(weights, id) else 0
  {
    if ids != [] {
      EarnedOnce(weights, ids[..|ids| - 1], id);
      assert ids == ids[..|ids| - 1] + [ids[|ids| - 1]];
    }
  }

  lemma {:induction false} BumpEarns(weights: map<string, int>, c: Currents, ids: seq<string>, id: string)
    ensures Get(Bump(weights, c, ids), id) == Get(c, id) + Earned(weights, ids, id)
  {
    if ids != [] { BumpEarns(weights, c, ids[..|ids| - 1], id); }
  }

  /** A server's reading when the pick is made. */
  function Bid(weights: map<string, int>, c: Currents, ids: seq<string>, id: string): int {
    Get(c, id) + Earned(weights, ids, id)
  }

  /** No online server bids more than the one listed at `i`, and none before it as much. */
  ghost predicate Wins(weights: map<string, int>, c: Currents, ids: seq<string>, i: nat)
    requires i < |ids|
  {
    forall j :: 0 <= j < |ids| ==>
      && Bid(weights, c, ids, ids[j]) <= Bid(weights, c, ids, ids[i])
      && (j < i ==> Bid(weights, c, ids, ids[j]) < Bid(weights, c, ids, ids[i]))
  }

  /** In any state and for any list, an online server is picked exactly when
      some online weight is positive and its bid wins. */
  lemma PickedExactlyWhenWinning(weights: map<string, int>, c: Currents, ms: seq<ServerMetrics>, i: nat)
    requires i < |OnlineIds(ms)| && OnlineIds(ms)[i] !in OnlineIds(ms)[..i]
    ensures Select(weights, c, ms).1 == Some(OnlineIds(ms)[i])
        <==> TotalWeight(weights, OnlineIds(ms)) > 0 && Wins(weights, c, OnlineIds(ms), i)
  {
    hide TotalWeight, OnlineIds, Earned;
    var ids := OnlineIds(ms);
    var bumped := Bump(weights, Extend(c, ids), ids);
    forall id
      ensures Get(bumped, id) == Bid(weights, c, ids, id)
    {
      BumpEarns(weights, Extend(c, ids), ids, id);
      GetExtend(c, ids, id);
    }
    hide Bump, Bid, Get;
    BestIsLargest(bumped, ids);
    BestIsFirst(bumped, ids, i);
  }

  lemma BestIsFirst(c: Currents, ids: seq<string>, i: nat)
    requires i < |ids| && ids[i] !in ids[..i]
    ensures Best(c, ids) == ids[i] <==>
              forall j :: 0 <= j < |ids| ==>
                && Get(c, ids[j]) <= Get(c, ids[i])
                && (j < i ==> Get(c, ids[j]) < Get(c, ids[i]))
  {
    hide Best, Get;
    BestIsLargest(c, ids);
    var k :| 0 <= k < |ids| && ids[k] == Best(c, ids);
    if Best(c, ids) == ids[i] {
      forall j | 0 <= j < i
        ensures Get(c, ids[j]) < Get(c, ids[i])
      {
        assert ids[i] !in ids[..j + 1] by { assert ids[..j + 1] <= ids[..i]; }
        BestIsEarliest(c, ids, j);
      }
    } else if Best(c, ids) !in ids[..i + 1] {
      BestIsEarliest(c, ids, i);
    } else {
      var j :| 0 <= j < i + 1 && ids[..i + 1][j] == Best(c, ids);
      assert ids[j] == Best(c, ids) && j < i;
    }
  }

  /** So a server of weight 0 is picked exactly when some online weight is
      positive, no other online server's reading and weight together exceed
      its reading, and those listed before it fall short of it. */
  lemma ZeroWeightPickedExactlyWhen(weights: map<string, int>, c: Currents, ms: seq<ServerMetrics>, i: nat)
    requires Distinct(OnlineIds(ms)) && i < |OnlineIds(ms)| && WeightFor(weights, OnlineIds(ms)[i]) == 0
    ensures var ids := OnlineIds(ms);
            Select(weights, c, ms).1 == Some(ids[i]) <==>
              && (exists id :: id in ids && WeightFor(weights, id) > 0)
              && (forall j :: 0 <= j < |ids| ==>
                    && Get(c, ids[j]) + WeightFor(weights, ids[j]) <= Get(c, ids[i])
                    && (j < i ==> Get(c, ids[j]) + WeightFor(weights, ids[j]) < Get(c, ids[i])))
  {
    hide OnlineIds, Select, WeightFor, Get;
    var ids := OnlineIds(ms);
    SomeWeight(weights, ids);
    forall j | 0 <= j < |ids|
      ensures Bid(weights, c, ids, ids[j]) == Get(c, ids[j]) + WeightFor(weights, ids[j])
    {
      EarnedOnce(weights, ids, ids[j]);
    }
    PickedExactlyWhenWinning(weights, c, ms, i);
  }

  lemma {:induction false} EarnedAbsent(weights: map<string, int>, ids: seq<string>, id: string)
    requires id !in ids
    ensures Earned(weights, ids, id) == 0
  {
    if ids != [] {
      assert ids[|ids| - 1] in ids;
      EarnedAbsent(weights, ids[..|ids| - 1], id);
    }
  }

  /** A server that is not online keeps its reading. */
  lemma AbsentKeepsReading(weights: map<string, int>, c: Currents, ms: seq<ServerMetrics>, id: string)
    requires id !in OnlineIds(ms)
    ensures Get(Select(weights, c, ms).0, id) == Get(c, id)
  {
    hide OnlineIds, TotalWeight, Bump, Extend, Best;
    var ids := OnlineIds(ms);
    GetExtend(c, ids, id);
    BumpEarns(weights, Extend(c, ids), ids, id);
    EarnedAbsent(weights, ids, id);
    if ids != [] { BestIsLargest(Bump(weights, Extend(c, ids), ids), ids); }
  }

  /** The readings after the first call, on two online servers of weight 1. */
  lemma FirstOfTwo(weights: map<string, int>, ms: seq<ServerMetrics>, other: string)
    requires OnlineIds(ms) == ["a", "b"] && WeightFor(weights, "a") == WeightFor(weights, "b") == 1
    requires other != "a" && other != "b"
    ensures Get(Select(weights, map[], ms).0, "a") == -1 && Get(Select(weights, map[], ms).0, other) == 0
  {
    hide OnlineIds, WeightFor, Select, Bump, Extend, Best;
    var ids := ["a", "b"];
    assert ids[..1] == ["a"] && "a" != "b" && |ids[..0]| == 0;
    assert TotalWeight(weights, ["a"]) == 1 && TotalWeight(weights, ids) == 2;
    EarnedOnce(weights, ids, "a");
    EarnedOnce(weights, ids, "b");
    PickedExactlyWhenWinning(weights, map[], ms, 0);
    OneCall(weights, map[], ms, "a");
    AbsentKeepsReading(weights, map[], ms, other);
  }

  /** It happens when the online set changes: of `a` and `b`, both of weight 1,
      the first call picks `a`; with `b` gone the second picks `z`, of weight 0. */
  lemma ZeroWeightPicked()
    ensures var weights := map["a" := 1, "b" := 1, "z" := 0];
            var first := [ServerMetrics("a", Online), ServerMetrics("b", Online)];
            var second := [ServerMetrics("z", Online), ServerMetrics("a", Online), ServerMetrics("b", Offline)];
            Select(weights, AfterCalls(weights, [first]), second).1 == Some("z")
  {
    hide Select;
    var weights := map["a" := 1, "b" := 1, "z" := 0];
    var first := [ServerMetrics("a", Online), ServerMetrics("b", Online)];
    var second := [ServerMetrics("z", Online), ServerMetrics("a", Online), ServerMetrics("b", Offline)];
    var calls: seq<seq<ServerMetrics>> := [first];
    assert "a" != "b" && "a" != "z" && "b" != "z";
    assert OnlineIds(first) == ["a", "b"] by {
      assert first[..1] == [first[0]] && OnlineIds([first[0]]) == ["a"];
    }
    assert OnlineIds(second) == ["z", "a"] by {
      assert second[..2] == [second[0], second[1]] && second[..2][..1] == [second[0]];
      assert OnlineIds([second[0]]) == ["z"] && OnlineIds(second[..2]) == ["z", "a"];
    }
    hide OnlineIds;
    assert |calls[..0]| == 0;
    FirstOfTwo(weights, first, "z");
    ZeroWeightPickedExactlyWhen(weights, AfterCalls(weights, calls), second, 0);
    assert WeightFor(weights, "a") > 0;
  }
}
