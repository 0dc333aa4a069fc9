/** Server health over whole runs of the dashboard. */
module DashboardHealth {
  import opened Metrics
  import opened Booking
  import opened Cluster
  import opened DashboardRuns
  import F = FailoverManagers

  /** A server that is up has no failed report since it came up, one that is
      down exactly one: reports come with the switch, and the switch alternates. */
  ghost predicate HealthFollowsSwitch(a: App) {
    forall id :: id in a.servers ==>
      && id in a.health && a.health[id].healthy
      && a.health[id].failCount == if a.servers[id].online then 0 else 1
  }

  lemma EventKeepsHealth(a: App, e: Event)
    requires WellFormed(a) && Possible(a, e) && HealthFollowsSwitch(a)
    ensures HealthFollowsSwitch(Next(a, e))
  {
    hide SERVER_IDS, RoutesOnline, Book, Confirm, Cancel, Renew, SweepSeats, Deliver, Recover, Reset, Poll, Shown;
    PrimaryIsServer();
    if e.BookSeat? { BookingKeepsRows(a, e.request); }
  }

  lemma {:induction false} RunsKeepHealth(a: App, es: seq<Event>)
    requires HealthFollowsSwitch(a)
    ensures HealthFollowsSwitch(AfterEvents(a, es))
  {
    hide HealthFollowsSwitch, WellFormed, Possible, Next;
    if es != [] {
      var before, e := AfterEvents(a, es[..|es| - 1]), es[|es| - 1];
      RunsKeepHealth(a, es[..|es| - 1]);
      if WellFormed(before) && Possible(before, e) { EventKeepsHealth(before, e); }
    }
  }

  /** In every run of the dashboard every server counts as healthy: one failed
      report at a time never reaches the threshold of two, so the failover
      target is simply the first online server. */
  lemma NeverUnhealthy(es: seq<Event>, ms: seq<ServerMetrics>)
    requires forall m :: m in ms ==> m.serverId in SERVER_IDS
    ensures var d := AfterEvents(Start(), es);
            && (forall id :: id in SERVER_IDS ==> F.HealthOf(d.health, id).healthy)
            && F.Target(d.health, ms) == if OnlineIds(ms) == [] then None else Some(OnlineIds(ms)[0])
  {
    hide AfterEvents, Inv;
    StartIsSound();
    RunsAreProtocolRuns(Start(), es);
    RunsKeepHealth(Start(), es);
    AllHealthyServers(AfterEvents(Start(), es).health, ms);
  }

  lemma {:induction false} AllHealthyServers(states: map<string, F.Health>, ms: seq<ServerMetrics>)
    requires forall m :: m in ms ==> F.HealthOf(states, m.serverId).healthy
    ensures F.HealthyServers(states, ms) == OnlineIds(ms)
  {
    if ms != [] {
      assert forall m :: m in ms[..|ms| - 1] ==> m in ms;
      assert ms[|ms| - 1] in ms;
      AllHealthyServers(states, ms[..|ms| - 1]);
    }
  }
}
