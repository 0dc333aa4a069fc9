/** Servers that come back, rejoin and catch up (failover/recovery_manager.py). */
module RecoveryManagers {
  import opened Synchronization

  datatype Recovery = Recovery(recovered: bool, joined: bool)

  function RecoveryOf(states: map<string, Recovery>, id: string): Recovery {
    if id in states then states[id] else Recovery(false, false)
  }

  class RecoveryManager {
    var states: map<string, Recovery>
    var members: set<string>

    /** The members are the servers that joined, and only recovered servers join. */
    ghost predicate Valid()
      reads this
    {
      && (forall id :: id in members <==> id in states && states[id].joined)
      && (forall id :: id in states && states[id].joined ==> states[id].recovered)
    }

    constructor ()
      ensures Valid() && states == map[] && members == {}
    {
      states, members := map[], {};
    }

    method MarkRecovered(id: string)
      requires Valid()
      modifies this
      ensures Valid() && members == old(members)
      ensures states == old(states)[id := RecoveryOf(old(states), id).(recovered := true)]
    {
      states := states[id := RecoveryOf(states, id).(recovered := true)];
    }

    method RejoinCluster(id: string)
      requires Valid()
      modifies this
      ensures Valid() && members == old(members) + {id}
      ensures states == old(states)[id := Recovery(true, true)]
    {
      if !RecoveryOf(states, id).recovered { MarkRecovered(id); }
      states := states[id := RecoveryOf(states, id).(joined := true)];
      members := members + {id};
    }

    /** Hands every update to the server's replicator; from a complete listing
        of a store, in any order, the server takes in all that the store has. */
    method ReceiveSyncUpdates(id: string, updates: seq<SeatState>, replicator: StateReplicator)
      requires Valid()
      modifies this, replicator.store
      ensures Valid() && members == old(members) + {id}
      ensures replicator.store.View() == ApplyAll(old(replicator.store.View()), updates)
    {
      if !RecoveryOf(states, id).joined { RejoinCluster(id); }
      for i := 0 to |updates|
        invariant Valid() && members == old(members) + {id}
        invariant replicator.store.View() == ApplyAll(old(replicator.store.View()), updates[..i])
      {
        assert updates[..i + 1][..i] == updates[..i];
        replicator.ApplyRemoteUpdate(updates[i]);
      }
      assert updates[..|updates|] == updates;
    }
  }
}
