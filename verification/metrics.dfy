/** The routing view of a server (load_balancer/metrics.py) and what every
    strategy promises about it (load_balancer/strategy.py). */
module Metrics {

  datatype Option<+T> = None | Some(value: T)

  datatype Status = Online | Offline | Degraded

  /** Only the fields routing by position, weight or hash reads. */
  datatype ServerMetrics = ServerMetrics(serverId: string, status: Status)

  /** The ids of the online servers, in list order. */
  function OnlineIds(ms: seq<ServerMetrics>): seq<string> {
    if ms == [] then []
    else
      var rest := OnlineIds(ms[..|ms| - 1]);
      var last := ms[|ms| - 1];
      if last.status.Online? then rest + [last.serverId] else rest
  }

  ghost predicate Distinct(ids: seq<string>) {
    forall i, j :: 0 <= i < j < |ids| ==> ids[i] != ids[j]
  }

  predicate IsOnline(ms: seq<ServerMetrics>, id: string) {
    ServerMetrics(id, Online) in ms
  }

  /** The promise of a load-balancing strategy: nothing, or an online server. */
  ghost predicate RoutesOnline(choose: seq<ServerMetrics> -> Option<string>) {
    forall ms :: choose(ms).Some? ==> IsOnline(ms, choose(ms).value)
  }

  lemma {:induction false} OnlineIdsAreOnline(ms: seq<ServerMetrics>, id: string)
    ensures id in OnlineIds(ms) <==> IsOnline(ms, id)
  {
    if ms != [] {
      OnlineIdsAreOnline(ms[..|ms| - 1], id);
      assert ms == ms[..|ms| - 1] + [ms[|ms| - 1]];
    }
  }
}
