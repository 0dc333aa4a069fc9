/** Plain round robin (load_balancer/round_robin.py). */
module RoundRobin {
  import opened Arithmetic
  import opened Metrics

  /** The first online position at `offset` or more places after `last`, going round once. */
  function Scan(last: int, ms: seq<ServerMetrics>, offset: nat): (found: Option<nat>)
    requires -1 <= last && offset <= |ms|
    ensures found.Some? ==> found.value < |ms| && ms[found.value].status.Online?
    decreases |ms| - offset
  {
    if offset == |ms| then None
    else
      var i := (last + 1 + offset) % |ms|;
      if ms[i].status.Online? then Some(i) else Scan(last, ms, offset + 1)
  }

  /** One call: the new position and the picked position. */
  function Select(last: int, ms: seq<ServerMetrics>): (int, Option<nat>)
    requires -1 <= last
  {
    var r := Scan(last, ms, 0);
    (if r.Some? then r.value else last, r)
  }

  /** The server a call picks. */
  function Chosen(last: int, ms: seq<ServerMetrics>): Option<string>
    requires -1 <= last
  {
    var pick := Select(last, ms).1;
    if pick.Some? then Some(ms[pick.value].serverId) else None
  }

  class RoundRobinStrategy {
    var index: int

    ghost predicate Valid()
      reads this
    {
      -1 <= index
    }

    constructor ()
      ensures Valid() && index == -1
    {
      index := -1;
    }

    method SelectServer(ms: seq<ServerMetrics>) returns (chosen: Option<string>)
      requires Valid()
      modifies this
      ensures Valid()
      ensures index == Select(old(index), ms).0 && chosen == Chosen(old(index), ms)
    {
      var n := |ms|;
      for offset := 0 to n
        invariant index == old(index)
        invariant Scan(index, ms, 0) == Scan(index, ms, offset)
      {
        var i := (index + 1 + offset) % n;
        if ms[i].status.Online? {
          index := i;
          return Some(ms[i].serverId);
        }
      }
      return None;
    }
  }

  // ---------------------------------------------------------------------
  // Cyclic order
  // ---------------------------------------------------------------------

  /** Where the next scan starts. */
  function Start(last: int, n: nat): nat
    requires -1 <= last && n > 0
  {
    (last + 1) % n
  }

  /** How many places after `start` position `p` comes. */
  function Ahead(start: nat, p: nat, n: nat): nat
    requires start < n && p < n
  {
    if p >= start then p - start else p - start + n
  }

  lemma ScanPosition(last: int, offset: nat, n: nat)
    requires -1 <= last && offset < n
    ensures Ahead(Start(last, n), (last + 1 + offset) % n, n) == offset
  {
    var q, s := (last + 1) / n, Start(last, n);
    assert last + 1 == n * q + s;
    if s + offset < n {
      Remainder(last + 1 + offset, q, s + offset, n);
    } else {
      assert n * (q + 1) == n * q + n;
      Remainder(last + 1 + offset, q + 1, s + offset - n, n);
    }
  }

  lemma NextStart(r: nat, n: nat)
    requires r < n
    ensures Start(r, n) == if r + 1 == n then 0 else r + 1
  {
  }

  /** The scan finds the online position that comes first after the start. */
  lemma {:induction false} ScanFindsNearest(last: int, ms: seq<ServerMetrics>, offset: nat)
    requires -1 <= last && offset <= |ms| && ms != []
    requires forall q :: 0 <= q < |ms| && Ahead(Start(last, |ms|), q, |ms|) < offset ==> !ms[q].status.Online?
    ensures Scan(last, ms, offset).None? <==> forall q :: 0 <= q < |ms| ==> !ms[q].status.Online?
    ensures var found := Scan(last, ms, offset);
            var s := Start(last, |ms|);
            found.Some? ==>
              && found.value < |ms| && ms[found.value].status.Online?
              && forall q :: 0 <= q < |ms| && ms[q].status.Online? ==>
                   Ahead(s, found.value, |ms|) <= Ahead(s, q, |ms|)
    decreases |ms| - offset
  {
    if offset < |ms| {
      ScanPosition(last, offset, |ms|);
      var i := (last + 1 + offset) % |ms|;
      if !ms[i].status.Online? { ScanFindsNearest(last, ms, offset + 1); }
    }
  }

  /** Counting positions on round the list, the one at `p` is online. */
  predicate OnlineAt(ms: seq<ServerMetrics>, p: nat)
    requires ms != []
  {
    ms[p % |ms|].status.Online?
  }

  /** The scan goes forward one position at a time, round the list, to the first that is online. */
  lemma {:induction false} ScanGoesForward(last: int, ms: seq<ServerMetrics>, offset: nat) returns (p: nat)
    requires -1 <= last && offset <= |ms| && ms != []
    ensures last + 1 + offset <= p <= last + 1 + |ms|
    ensures forall q :: last + 1 + offset <= q < p ==> !OnlineAt(ms, q)
    ensures p == last + 1 + |ms| ==> Scan(last, ms, offset).None?
    ensures p < last + 1 + |ms| ==> OnlineAt(ms, p) && Scan(last, ms, offset) == Some(p % |ms|)
    decreases |ms| - offset
  {
    if offset == |ms| || OnlineAt(ms, last + 1 + offset) {
      p := last + 1 + offset;
    } else {
      p := ScanGoesForward(last, ms, offset + 1);
    }
  }

  /** So a call picks the first online position after the last pick, going round
      once, and the next call goes on from there. */
  lemma PicksNextOnline(last: int, ms: seq<ServerMetrics>) returns (p: nat)
    requires -1 <= last && ms != []
    ensures last < p <= last + 1 + |ms| && forall q :: last < q < p ==> !OnlineAt(ms, q)
    ensures p == last + 1 + |ms| ==> Select(last, ms) == (last, None) && Chosen(last, ms).None?
    ensures p < last + 1 + |ms| ==>
              && OnlineAt(ms, p) && Select(last, ms) == (p % |ms|, Some(p % |ms|))
              && Chosen(last, ms) == Some(ms[p % |ms|].serverId)
  {
    p := ScanGoesForward(last, ms, 0);
  }

  /** The strategy keeps the interface's promise in every state, and gives up
      only when no server is online. */
  lemma RoundRobinRoutesOnline(last: int, ms: seq<ServerMetrics>)
    requires -1 <= last
    ensures RoutesOnline(list => Chosen(last, list))
    ensures Chosen(last, ms).None? <==> forall q :: 0 <= q < |ms| ==> !ms[q].status.Online?
  {
    forall list: seq<ServerMetrics> | Chosen(last, list).Some?
      ensures IsOnline(list, Chosen(last, list).value)
    {
      var m := list[Select(last, list).1.value];
      assert m == ServerMetrics(m.serverId, Online);
    }
    if ms != [] { ScanFindsNearest(last, ms, 0); }
  }

  // ---------------------------------------------------------------------
  // No starvation, however the other servers flap
  // ---------------------------------------------------------------------

  /** The positions picked by a run of calls, each with its own metrics list. */
  function PicksOf(last: int, calls: seq<seq<ServerMetrics>>): seq<Option<nat>>
    requires -1 <= last
    decreases |calls|
  {
    if calls == [] then []
    else
      var (next, pick) := Select(last, calls[0]);
      [pick] + PicksOf(next, calls[1..])
  }

  /** Passing over `p` brings the scan closer to it. */
  lemma CloserOrPicked(last: int, ms: seq<ServerMetrics>, p: nat)
    requires -1 <= last && p < |ms| && ms[p].status.Online?
    ensures Select(last, ms).1.Some?
    ensures Select(last, ms).1 == Some(p)
         || Ahead(Start(Select(last, ms).0, |ms|), p, |ms|) < Ahead(Start(last, |ms|), p, |ms|)
  {
    ScanFindsNearest(last, ms, 0);
    NextStart(Select(last, ms).0, |ms|);
  }

  lemma {:induction false} NoStarvation(last: int, calls: seq<seq<ServerMetrics>>, p: nat, n: nat)
    requires -1 <= last && p < n
    requires forall c: seq<ServerMetrics> :: c in calls ==> |c| == n && c[p].status.Online?
    requires |calls| > Ahead(Start(last, n), p, n)
    ensures Some(p) in PicksOf(last, calls)
    decreases |calls|
  {
    CloserOrPicked(last, calls[0], p);
    var (next, pick) := Select(last, calls[0]);
    if pick != Some(p) {
      NoStarvation(next, calls[1..], p, n);
      assert PicksOf(last, calls)[1..] == PicksOf(next, calls[1..]);
    } else {
      assert PicksOf(last, calls)[0] == Some(p);
    }
  }

  /** A server online at every one of n calls over n servers is picked by one of them. */
  lemma PickedWithinN(last: int, calls: seq<seq<ServerMetrics>>, p: nat, n: nat)
    requires -1 <= last && p < n && |calls| == n
    requires forall c: seq<ServerMetrics> :: c in calls ==> |c| == n && c[p].status.Online?
    ensures Some(p) in PicksOf(last, calls)
  {
    NoStarvation(last, calls, p, n);
  }

  // ---------------------------------------------------------------------
  // Exact rotation, for a fixed set of online servers
  // ---------------------------------------------------------------------

  function OnlinePositions(ms: seq<ServerMetrics>): set<nat> {
    set q: nat | q < |ms| && ms[q].status.Online?
  }

  /** The online positions the scan reaches before `p`. */
  function Waiting(last: int, ms: seq<ServerMetrics>, p: nat): set<nat>
    requires -1 <= last && p < |ms|
  {
    set q: nat | q < |ms| && ms[q].status.Online?
                 && Ahead(Start(last, |ms|), q, |ms|) < Ahead(Start(last, |ms|), p, |ms|)
  }

  /** How often `t` calls on the same list pick position `p`. */
  function Visits(last: int, ms: seq<ServerMetrics>, p: nat, t: nat): nat
    requires -1 <= last
    decreases t
  {
    if t == 0 then 0
    else
      var (next, pick) := Select(last, ms);
      (if pick == Some(p) then 1 else 0) + Visits(next, ms, p, t - 1)
  }

  lemma PickedOfAll(last: int, ms: seq<ServerMetrics>, p: nat)
    requires -1 <= last && p < |ms| && ms[p].status.Online? && Select(last, ms).1 == Some(p)
    ensures Waiting(last, ms, p) == {}
    ensures Waiting(Select(last, ms).0, ms, p) == OnlinePositions(ms) - {p}
  {
    ScanFindsNearest(last, ms, 0);
    NextStart(p, |ms|);
  }

  lemma OtherPicked(last: int, ms: seq<ServerMetrics>, p: nat)
    requires -1 <= last && p < |ms| && ms[p].status.Online? && Select(last, ms).1 != Some(p)
    ensures var (next, pick) := Select(last, ms);
            && pick.Some?
            && pick.value in Waiting(last, ms, p)
            && Waiting(next, ms, p) == Waiting(last, ms, p) - {pick.value}
  {
    ScanFindsNearest(last, ms, 0);
    NextStart(Select(last, ms).0, |ms|);
  }

  lemma {:induction false} VisitsCount(last: int, ms: seq<ServerMetrics>, p: nat, t: nat)
    requires -1 <= last && p < |ms| && ms[p].status.Online?
    requires t <= |Waiting(last, ms, p)| + |OnlinePositions(ms)|
    ensures Visits(last, ms, p, t) == if t > |Waiting(last, ms, p)| then 1 else 0
    decreases t
  {
    if t > 0 {
      if Select(last, ms).1 == Some(p) {
        assert p in OnlinePositions(ms);
        PickedOfAll(last, ms, p);
      } else {
        OtherPicked(last, ms, p);
      }
      VisitsCount(Select(last, ms).0, ms, p, t - 1);
    }
  }

  /** Any m consecutive calls over m online servers visit each exactly once. */
  lemma ExactRotation(last: int, ms: seq<ServerMetrics>, p: nat)
    requires -1 <= last && p < |ms| && ms[p].status.Online?
    ensures Visits(last, ms, p, |OnlinePositions(ms)|) == 1
  {
    var waiting, others := Waiting(last, ms, p), OnlinePositions(ms) - {p};
    assert others == waiting + (others - waiting);
    assert p in OnlinePositions(ms);
    VisitsCount(last, ms, p, |OnlinePositions(ms)|);
  }
}
