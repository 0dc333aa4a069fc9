/** Server health with hysteresis (failover/failover_manager.py). */
module FailoverManagers {
  import opened Metrics

  datatype Health = Health(healthy: bool, failCount: nat, recoverCount: nat)

  const UNKNOWN := Health(true, 0, 0)

  datatype Thresholds = Thresholds(healthy: nat, unhealthy: nat)

  function HealthOf(states: map<string, Health>, id: string): Health {
    if id in states then states[id] else UNKNOWN
  }

  function Report(t: Thresholds, h: Health, ok: bool): Health {
    if ok then
      Health(h.healthy || h.recoverCount + 1 >= t.healthy, 0, h.recoverCount + 1)
    else
      Health(h.healthy && h.failCount + 1 < t.unhealthy, h.failCount + 1, 0)
  }

  /** Online servers not known to be unhealthy, in list order. */
  function HealthyServers(states: map<string, Health>, ms: seq<ServerMetrics>): seq<string> {
    if ms == [] then []
    else
      var rest := HealthyServers(states, ms[..|ms| - 1]);
      var last := ms[|ms| - 1];
      if last.status.Online? && HealthOf(states, last.serverId).healthy then rest + [last.serverId] else rest
  }

  function Target(states: map<string, Health>, ms: seq<ServerMetrics>): Option<string> {
    var ids := HealthyServers(states, ms);
    if ids == [] then None else Some(ids[0])
  }

  class FailoverManager {
    const thresholds: Thresholds
    var states: map<string, Health>

    constructor (healthyThreshold: int, unhealthyThreshold: int)
      ensures states == map[]
      ensures thresholds.healthy == if healthyThreshold < 1 then 1 else healthyThreshold
      ensures thresholds.unhealthy == if unhealthyThreshold < 1 then 1 else unhealthyThreshold
    {
      thresholds := Thresholds(
        if healthyThreshold < 1 then 1 else healthyThreshold,
        if unhealthyThreshold < 1 then 1 else unhealthyThreshold);
      states := map[];
    }

    method UpdateHealth(id: string, ok: bool)
      modifies this
      ensures states == old(states)[id := Report(thresholds, HealthOf(old(states), id), ok)]
    {
      var h := if id in states then states[id] else UNKNOWN;
      if ok {
        h := h.(recoverCount := h.recoverCount + 1, failCount := 0);
        if !h.healthy && h.recoverCount >= thresholds.healthy {
          h := h.(healthy := true);
        }
      } else {
        h := h.(failCount := h.failCount + 1, recoverCount := 0);
        if h.healthy && h.failCount >= thresholds.unhealthy {
          h := h.(healthy := false);
        }
      }
      states := states[id := h];
    }

    method ChooseFailoverTarget(ms: seq<ServerMetrics>) returns (target: Option<string>)
      ensures target == Target(states, ms)
    {
      var healthy := [];
      for i := 0 to |ms|
        invariant healthy == HealthyServers(states, ms[..i])
      {
        assert ms[..i + 1][..i] == ms[..i];
        if ms[i].status.Online? && (ms[i].serverId !in states || states[ms[i].serverId].healthy) {
          healthy := healthy + [ms[i].serverId];
        }
      }
      assert ms[..|ms|] == ms;
      return if healthy == [] then None else Some(healthy[0]);
    }
  }

  ghost predicate Usable(states: map<string, Health>, m: ServerMetrics) {
    m.status.Online? && HealthOf(states, m.serverId).healthy
  }

  /** The target is the first usable server of the list; none means there is none. */
  lemma {:induction false} TargetIsFirstUsable(states: map<string, Health>, ms: seq<ServerMetrics>)
    ensures Target(states, ms).None? <==> forall i :: 0 <= i < |ms| ==> !Usable(states, ms[i])
    ensures Target(states, ms).Some? ==>
              exists i :: 0 <= i < |ms| && Usable(states, ms[i]) && ms[i].serverId == Target(states, ms).value
                          && forall j :: 0 <= j < i ==> !Usable(states, ms[j])
  {
    if ms != [] {
      var init := ms[..|ms| - 1];
      TargetIsFirstUsable(states, init);
      if Target(states, init).Some? {
        var i :| 0 <= i < |init| && Usable(states, init[i]) && init[i].serverId == Target(states, init).value
                 && forall j :: 0 <= j < i ==> !Usable(states, init[j]);
        assert ms[i] == init[i] && forall j :: 0 <= j < i ==> ms[j] == init[j];
      } else {
        assert forall j :: 0 <= j < |init| ==> ms[j] == init[j];
        if Usable(states, ms[|ms| - 1]) {
          assert Target(states, ms) == Some(ms[|ms| - 1].serverId);
        }
      }
    }
  }

  // ---------------------------------------------------------------------
  // Runs of reports about one server
  // ---------------------------------------------------------------------

  function After(t: Thresholds, reports: seq<bool>): Health {
    if reports == [] then UNKNOWN else Report(t, After(t, reports[..|reports| - 1]), reports[|reports| - 1])
  }

  /** The last `n` reports all say `ok`. */
  predicate EndsWith(reports: seq<bool>, n: nat, ok: bool) {
    n <= |reports| && forall i :: |reports| - n <= i < |reports| ==> reports[i] == ok
  }

  /** The verdict read off the reports alone: the latest full run of equal
      reports decides, and a server nothing was reported about is healthy. */
  predicate Verdict(t: Thresholds, reports: seq<bool>) {
    if reports == [] then true
    else if EndsWith(reports, t.unhealthy, false) then false
    else if EndsWith(reports, t.healthy, true) then true
    else Verdict(t, reports[..|reports| - 1])
  }

  lemma {:induction false} CountsAreRuns(t: Thresholds, reports: seq<bool>, n: nat)
    requires n > 0
    ensures EndsWith(reports, n, false) <==> After(t, reports).failCount >= n
    ensures EndsWith(reports, n, true) <==> After(t, reports).recoverCount >= n
  {
    if reports != [] {
      var init := reports[..|reports| - 1];
      if n > 1 {
        CountsAreRuns(t, init, n - 1);
        forall ok: bool
          ensures EndsWith(reports, n, ok) <==> reports[|reports| - 1] == ok && EndsWith(init, n - 1, ok)
        {
          assert forall i :: 0 <= i < |init| ==> init[i] == reports[i];
        }
      }
    }
  }

  /** Health follows the latest full run of equal reports, and nothing else. */
  lemma {:induction false} HealthIsVerdict(t: Thresholds, reports: seq<bool>)
    requires t.healthy >= 1 && t.unhealthy >= 1
    ensures After(t, reports).healthy == Verdict(t, reports)
  {
    if reports != [] {
      HealthIsVerdict(t, reports[..|reports| - 1]);
      CountsAreRuns(t, reports, t.unhealthy);
      CountsAreRuns(t, reports, t.healthy);
    }
  }

  /** How often a run of reports turns the server's health to `to`. */
  function Turns(t: Thresholds, reports: seq<bool>, to: bool): nat {
    if reports == [] then 0
    else
      var init := reports[..|reports| - 1];
      Turns(t, init, to)
      + if After(t, init).healthy != to && After(t, reports).healthy == to then 1 else 0
  }

  /** Progress of the run of reports that would turn the server next. */
  function Progress(h: Health): nat {
    if h.healthy then h.failCount else h.recoverCount
  }

  function Paid(t: Thresholds, reports: seq<bool>): nat {
    t.unhealthy * Turns(t, reports, false) + t.healthy * Turns(t, reports, true)
  }

  lemma OneTurnMore(a: nat, b: nat, x: nat, y: nat)
    ensures a * (x + 1) + b * y == a * x + b * y + a
    ensures a * x + b * (y + 1) == a * x + b * y + b
  {
  }

  /** Every turn is paid for by a full run of reports of its own. */
  lemma {:induction false} TurnsAreRare(t: Thresholds, reports: seq<bool>)
    requires t.healthy >= 1 && t.unhealthy >= 1
    ensures t.unhealthy * Turns(t, reports, false) + t.healthy * Turns(t, reports, true) <= |reports|
    ensures Paid(t, reports) + Progress(After(t, reports)) <= |reports|
    ensures Progress(After(t, reports)) < if After(t, reports).healthy then t.unhealthy else t.healthy
  {
    if reports != [] {
      var init := reports[..|reports| - 1];
      TurnsAreRare(t, init);
      assert Paid(t, reports) + Progress(After(t, reports)) <= Paid(t, init) + Progress(After(t, init)) + 1 by {
        OneTurnMore(t.unhealthy, t.healthy, Turns(t, init, false), Turns(t, init, true));
      }
    }
  }
}
