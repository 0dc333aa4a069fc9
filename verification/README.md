# Seat booking on a simulated cluster: a Dafny model

The repository simulates, in one process, a cluster of three servers that sells
20 seats. A request goes through a load-balancing strategy, the circuit breaker
of the chosen server and a lease on the seat; the lease is confirmed, renewed,
cancelled or left to run out. "Server 1" keeps the versioned primary store;
every write to it is sent to the two other servers by timers with random
delays, so updates arrive in any order; a server that was switched off catches
up when it comes back. Every entry point that changes state holds one lock, so
the system is a step machine, and that is how it is modelled here.

`dafny verify dfyconfig.toml` checks the whole project.

## How the model is built

Each component that the repository updates in place is a class with the same
fields (`LeaseManager`, `StateStore`, `StateReplicator`, `CircuitBreaker`,
`FailureTracker`, `Breaker`, `FailoverManager`, `RecoveryManager`, the three
strategies, `RetryManager`). Every method is proved equal to a function of the
old state, and the theorems are about runs of those functions.

`Dashboard` owns all of them. Its methods are proved to take the whole state
through the steps of `DashboardRuns`; `DashboardRuns.RunsAreProtocolRuns` then
turns every run of the dashboard into a run of the small protocol in `Booking`
(sweep, lock, confirm, cancel, renew, deliver, recover, reset), about which
`SeatSafety`, `Replication`, `PrimaryStore` and `Conservation` prove their
results. `DashboardRuns.WholeSystem` puts them together from a fresh start.

| file | what it models |
|---|---|
| `metrics.dfy`, `weighted_round_robin.dfy`, `round_robin.dfy`, `consistent_hashing.dfy` | the routing view of a server and three strategies |
| `circuit_breaker.dfy`, `failure_tracker.dfy`, `breaker.dfy` | the state machine, the sliding window, and the breaker made of both |
| `lease_manager.dfy` | the lease authority |
| `synchronization.dfy` | stores, replicators, timers |
| `failover_manager.dfy`, `recovery_manager.dfy`, `retry.dfy` | health, recovery, retries and backoff |
| `booking.dfy` | the protocol and its invariant |
| `seat_safety.dfy`, `replication.dfy`, `primary_store.dfy`, `conservation.dfy` | what holds of the protocol's runs |
| `cluster.dfy`, `dashboard_runs.dfy` | a booking through metrics, routing, breakers and failover; runs of all entry points |
| `dashboard_grants.dfy`, `dashboard_breakers.dfy`, `dashboard_health.dfy`, `dashboard_counts.dfy` | granted bookings, the outcomes on the breakers, server health and the counters, over those runs |
| `dashboard.dfy` | the dashboard object |
| `arithmetic.dfy` | two facts about products and remainders |

What the environment decides is a parameter: each reading of the clock, whether
the injected failure strikes, the jitter, the digest function of the hash ring,
and the routing choice of a booking (any function that returns nothing or an
online server, which the three modelled strategies are proved to be). Lease ids
come from a counter that survives resets, for `uuid4`. Floating point numbers
are reals. Where a result needs the clock not to run backwards, it says so.

## What is false of the code, and exactly when

- A locked seat need not have a lease. `acquire`, `renew` and `validate` sweep
  expired leases themselves and drop the list, so the dashboard never hears of
  them; such a seat stays locked until it is cancelled or reset.
  `SeatSafety.OrphanedExactlyBySilentSweep` says exactly when a step does it,
  `SeatSafety.OrphanForGood` that no sweep mends it, and
  `SeatSafety.LateRenewalOrphans` gives the renewals that cause it.
- A reset builds new stores while old timers run on and deliver into them.
  `Replication.ResetSafeExactlyWhenNoReservationInFlight` and
  `Replication.ResetSyncedExactlyWhenNothingInFlight` say exactly which resets
  are harmless; `PrimaryStore.ResetPlantsReservation` gives a run that does harm.
- The primary store is not the seat table: cancelling and expiry do not write
  it. `PrimaryStore.PartsExactlyWhenFreed` and
  `PrimaryStore.MeetsExactlyWhenLocked` say exactly which steps make the two
  part and meet over a seat, `PrimaryStore.DiffersExactlyWhenFreeAndWritten`
  reads off any reachable state whether they differ, and
  `PrimaryStore.CancelledLockStillShown` gives the inputs. What does hold is
  `Booking.PrimaryTracks`: reservations in both directions, and every present
  lock.
- A server of weight 0 can be picked by weighted round robin when the online
  set changes (`WeightedRoundRobin.ZeroWeightPicked`);
  `WeightedRoundRobin.ZeroWeightPickedExactlyWhen` says when.
- `retry/retry_manager.py:40` calls `max_delay` a cap for the delay; the jitter
  comes after the cap. `Retries.CapExceededExactlyWhen` says which delays can
  exceed it, and `Retries.CapExceeded` is one.

## What no single file shows

- A booking never meets an open breaker, a failover redirect, a lease conflict
  or an offline server (`Cluster.BookingNeverShortCircuits`): those branches of
  `_book_locked` are unreachable in the dashboard, because the metrics that the
  strategy sees were taken under the same lock.
- What a breaker has recorded is exactly what its server has served
  (`DashboardBreakers.OutcomesAreBookings`): although the code has it record an
  offline server and a lease conflict too, neither ever happens to it.
- The dashboard never marks a server unhealthy
  (`DashboardHealth.NeverUnhealthy`): it reports a failure only when a server is
  switched off, once, and a threshold of two is never reached.
- A replica shows only what the primary once had
  (`Replication.CirculatingWasHeld`), never goes back to an older version, and
  shows a reservation for good from the moment it arrives there
  (`Replication.ForwardAlways`); no replica shows one that was not made
  (`Replication.NoPhantomAlways`).

## Where the documentation and the code disagree

The model follows the code.

- `README.md:207` says that a locked seat becomes reserved when its countdown
  ends; the code returns it to available (`SeatSafety.SweepFreesExactly`).
- `README.md:300` says that a reset returns the seats that are not reserved;
  the code frees them all (`Dashboards.Dashboard.ResetAll`).
- The header of `circuit_breaker/state_machine.py` says that HALF_OPEN allows a
  limited number of trial requests; the code sets no limit
  (`CircuitBreakers.HalfOpenAdmitsAll`).
- `load_balancer/consistent_hashing.py:54` says that without a routing key the
  first online server is chosen; the code takes the first ring position.
  `ConsistentHashing.NoKeyPicksFirstExactlyWhen` says when the two are the same,
  and `ConsistentHashing.NoKeyPicksSecond` that they need not be.

## Model

| member | source | states |
|---|---|---|
| DashboardRuns.WholeSystem | dashboard.py:51-471 | From a fresh start, after any calls of the public entry points and any timer firings in any order: the lease dictionaries stay mutually inverse, every lease belongs to its own locked seat, the primary store tracks the seat table, the bookings add up, and replicas and timers have only rows that the primary had at the start or after some event; as long as every reset meets no reservation in flight, no store shows a reservation the seat table lacks; as long as every reset meets nothing in flight, every replica lags only by what is in flight |
| DashboardRuns.RunsAreProtocolRuns | dashboard.py:274-468 | Every run of the whole dashboard (servers, breakers, health and all) is, on seats, leases, stores and timers, a run of the seven protocol steps and reset, so each theorem about protocol runs holds of the dashboard |
| DashboardRuns.EventIsProtocolRun | dashboard.py:173-195 | One entry point, one snapshot, one toggle or one timer is a short protocol run and keeps the invariant and the row, breaker and store of every server |
| DashboardRuns.ComingBackCatchesUp | dashboard.py:177-190 | A peer that is switched on again equals the primary at once, whatever is in flight; and after any further events without a reset an update that was in flight to it then is still without effect |
| DashboardRuns.OnlyComingBackCatchesUp | dashboard.py:173-195 | A toggle touches seats, leases, stores or timers only if it brings a peer back |
| DashboardGrants.OwnersHoldGrants | dashboard.py:278-382 | In every run of the dashboard from a fresh start, every locked or reserved seat belongs to the requester of a granted booking of the run, while locked under the lease id that booking was handed, and no event has freed it since |
| DashboardGrants.ReservationsWereConfirmed | dashboard.py:278-382 | In every run of the dashboard from a fresh start, behind every reserved seat there is a granted booking of its owner and, later, a `confirm_seat` call that succeeded under that booking's lease before it ran out, and no event has freed it since the booking |
| DashboardGrants.ReservedWasConfirmed | dashboard.py:278-382 | The same from any reachable state in which the seat was free |
| DashboardGrants.ReservingEvent | dashboard.py:365-382 | The only event that makes a seat reserved is its own confirm, while it is locked and its own lease is in the table and unexpired |
| DashboardGrants.TakenWasGrantedTo | dashboard.py:278-382 | The same from any reachable state in which the seat was free |
| DashboardGrants.NoDoubleGrant | dashboard.py:284-289 | In every run of the dashboard, between two granted bookings of one seat it was cancelled, a sweep found its lease in the table and expired (at the latest the second booking's own), or everything was reset |
| DashboardGrants.EventRow | dashboard.py:278-456 | One event and one seat: afterwards it is locked or reserved if and only if the event grants it, locked by its requester under a new lease id, or it was so before, under the same grant, and the event does not free it |
| DashboardGrants.AnswersExactly | dashboard.py:278-330 | What each booking is answered, as an if and only if for every answer: no such seat, reserved, leased unless the sweep finds its lease expired, no server, struck or granted, by the seat before the booking, the strategy's pick and the injected failure |
| DashboardBreakers.BreakersRunCalls | dashboard.py:93-103 | In every run of the dashboard from a fresh start, each server's breaker is exactly where the listed calls take a fresh breaker: per poll a look (if the server is switched on) and a rate, per attempt sent to it two looks and the recorded outcome, per snapshot one more look and rate; so all breaker theorems apply to it |
| DashboardBreakers.OutcomesAreBookings | dashboard.py:278-349 | In every run, the outcomes ever recorded on a server's breaker are, in order, the bookings it served: a success for each granted one, a failure for each struck one, and nothing else |
| DashboardBreakers.WindowHoldsBookings | circuit_breaker/breaker.py:56-77 | In every run, whatever the clock does, the window of a server's breaker holds the latest of the bookings it served, in order |
| DashboardBreakers.GrantedBookingCloses | dashboard.py:278-330 | In every run, a granted booking leaves the serving server's breaker CLOSED without failures and with that success as the latest outcome, every other breaker as polled, and turns no breaker to OPEN |
| DashboardBreakers.StruckBookingOpensExactlyWhen | dashboard.py:342-349 | In every run, with an ordered clock: a struck booking opens its server's circuit if and only if that was on trial, or it is the third failure in a row, or it makes the failures more than 60 percent of the outcomes recorded there in the last 60 seconds |
| DashboardBreakers.RequestMakesCalls | circuit_breaker/breaker.py:82-97 | A request sent to any server in any state: short-circuited exactly if OPEN for less than 8 seconds, else refused as offline, struck, conflicting or granted, and the outcomes that records (two failures for an offline server); no other breaker is touched |
| DashboardBreakers.BreakersAlwaysSound | dashboard.py:93-103 | In every run the events of each breaker form a legal chain, CLOSED means fewer than 3 failures, HALF_OPEN no success yet |
| DashboardHealth.NeverUnhealthy | dashboard.py:173-195 | In every run of the dashboard no server is ever marked unhealthy, because its reports alternate with the switch and the threshold is 2; so the failover target is the first online server of the list |
| DashboardBreakers.EventMakesCalls | dashboard.py:197-363 | One event takes each breaker through exactly the calls listed for it |
| DashboardCounts.CountersCount | dashboard.py:300-313 | In every run from a fresh start: `success_count` is the number of bookings granted since the last reset, `failure_count` the number of confirms, renewals and cancels refused since then, a confirm or renewal because the seat is not locked under a running lease, a cancel because it is not locked |
| DashboardCounts.ServerRowCounts | dashboard.py:173-330 | In every run: a server's requests are the bookings granted through it, and it is switched on exactly by the parity of its toggles |
| DashboardCounts.EventCounts | dashboard.py:278-419 | One event counts as a granted booking, as a refused request or not at all, and a reset starts both counts over |
| DashboardCounts.EventServerRow | dashboard.py:173-330 | Only its own toggle turns a server's switch, only a booking granted through it raises its requests, by one |
| DashboardRuns.BookWithRetry | dashboard.py:225-272 | With any other events between the attempts: one to three attempts; every attempt but the last was struck by the injected failure, which leaves exactly a sweep, the polled breakers and a failure on the picked one, so the seat is leased at most once, by the last; it fails for good exactly if the third is struck too, and otherwise passes on the last answer; the sleeps are 0.25 s and 0.5 s give or take a fifth |
| DashboardRuns.RetriedMeansStruck | dashboard.py:342-348 | The only retried failure is the injected one (a picked server is never offline); the whole state such an attempt leaves: seats swept, every breaker polled, one failure recorded on the picked server's breaker, nothing else |
| Cluster.StruckBooking | dashboard.py:342-348 | The same for one booking attempt: an injected failure reaches the picked server's breaker, and no lease, seat, store or timer |
| Cluster.BookingNeverShortCircuits | dashboard.py:278-340 | The outcome of a booking depends only on the seat after the sweep, the strategy's pick and the injected failure: never a circuit-open error, a redirect, a lease conflict or an offline server; and its effect on seats, leases, stores and timers is the sweep plus, if granted, the lock |
| Cluster.ReadyGoesThrough | dashboard.py:332-340 | A server that is online with its breaker not OPEN passes both `allow_request` checks, is not redirected, and is granted unless the injected failure strikes |
| Cluster.PickIsReady | dashboard.py:197-215 | Whatever a strategy that keeps its promise picks from the metrics is a known server, switched on, whose breaker is not OPEN after the poll |
| Cluster.OnlineMeansReady | dashboard.py:197-215 | The metrics list a server as online exactly when it is switched on and its breaker, after being looked at, is not OPEN |
| Cluster.MetricsInOrder | dashboard.py:197-215 | The metrics list every server once, in order, as online exactly if it is switched on and its circuit is not OPEN or has been for 8 seconds since the latest failure |
| Cluster.PollLooks | dashboard.py:197-215 | What the metrics do to each breaker: an OPEN circuit of a server that is switched on goes to HALF_OPEN from 8 seconds after its latest failure on, any other circuit stays as it is, and outcomes older than 60 seconds are dropped from the front |
| Cluster.RedirectsExactlyWhen | dashboard.py:332-340 | From any state: the picked server if its breaker admits; else the first usable server, exactly if that is another one whose breaker admits; else none |
| Cluster.BookingLeaves | dashboard.py:278-363 | The whole state after one booking attempt for each answer: seats, leases, stores and timers, every breaker, the requests of the serving server |
| Cluster.BookingIsProtocolRun | dashboard.py:278-363 | A booking is at most two protocol steps, the sweep and the lock of an available seat; one that is not granted leases nothing |
| Booking.InvAlways | dashboard.py:342-468 | In every run, resets included: inverse lease dictionaries; every lease present sits on a seat locked with the same id, expiry, owner and server; lease ids of locked seats are unique; the primary shows a reservation exactly when the seat table does, for the same owner |
| Booking.LockKeepsInv | dashboard.py:342-363 | Locking an available seat never meets the lease conflict, and keeps the invariant |
| Booking.LockLeased | dashboard.py:351-360 | Acquiring for an available seat always grants, and the row written matches the lease |
| Booking.ConfirmKeepsInv | dashboard.py:365-382 | Confirming keeps the invariant on every path |
| Booking.CancelKeepsInv | dashboard.py:384-393 | Cancelling keeps the invariant |
| Booking.RenewKeepsInv | dashboard.py:395-406 | Renewing keeps the invariant on every path |
| Booking.SweepKeepsInv | dashboard.py:451-456 | The sweep keeps the invariant |
| Booking.DeliverKeepsInv | dashboard.py:458-461 | A delivery, old ones from before a reset included, keeps the invariant |
| Booking.RecoverKeepsInv | dashboard.py:463-468 | Catching a peer up keeps the invariant |
| Booking.FreshInv | dashboard.py:408-419 | A start or a reset establishes the invariant whatever is in flight |
| SeatSafety.ConfirmsExactlyWhenLeased | dashboard.py:365-374 | A confirm succeeds if and only if the seat is locked and its own lease is in the table and unexpired |
| SeatSafety.LockedRow | dashboard.py:351-360 | What a granted lock leaves: the row locked for the owner under a new lease on that server, both running 30 seconds from the grant, every other row as it was |
| SeatSafety.ConfirmReserves | dashboard.py:365-382 | What a successful confirm leaves: the row reserved for the lease's owner, that lease gone, every other row as it was, the unexpired other leases as they were, the primary showing the reservation |
| SeatSafety.RenewExtends | dashboard.py:395-406 | A renewal of a locked seat succeeds if and only if its own lease is present and unexpired; then row and lease run 30 seconds from the renewal, and no other row and no unexpired other lease changes |
| SeatSafety.CancelFrees | dashboard.py:384-393 | A cancel succeeds if and only if the seat is locked, with or without a lease; the seat is free, its lease gone, everything else and the primary as before |
| SeatSafety.ReservationStep | dashboard.py:365-406 | No step but a reset alters a reserved row, and only its own confirm reserves a row, with its own lease in the table and unexpired, for the owner in that lease |
| SeatSafety.ReservedWasGrantedAndConfirmed | dashboard.py:342-382 | In every run, a seat that was available and is reserved was booked by an act of the run for the owner it has, and confirmed later, unexpired, under the very lease id that booking was granted, with nothing freeing it in between or since |
| SeatSafety.TakenWasGranted | dashboard.py:342-363 | In every run, a seat that was available and is locked or reserved was booked by an act of the run for the owner it has, under the lease id it has while locked, and not freed since |
| SeatSafety.GrantKept | dashboard.py:365-456 | A seat taken before and after a step keeps its owner, and its lease id as long as it has one |
| SeatSafety.ReservedForGood | dashboard.py:284-289 | A reserved seat keeps its row in every run without a reset |
| SeatSafety.NoDoubleBooking | dashboard.py:284-289 | In every run, between two bookings of one seat there is its own cancel, a sweep that found its lease in the table and expired, or a reset |
| SeatSafety.FreedExactly | dashboard.py:384-456 | A locked or reserved seat is available after a step if and only if the step is its own cancel while locked, a sweep that finds its lease expired, or a reset |
| SeatSafety.LapsedIsDead | locking/lease_manager.py:127-133 | A locked seat past its expiry, or whose lease is gone, holds a dead lease |
| SeatSafety.LapsedNeverConfirmed | locking/lease_manager.py:106-115 | With a clock that does not run backwards, a dead lease is never confirmed later, whatever renewals and bookings come in between |
| SeatSafety.HeldCanBeConfirmed | dashboard.py:365-382 | And until it runs out it can be: a seat locked under a lease that runs until t at least keeps its owner and lease id, and can be confirmed for that owner at any time before t, through every run whose sweeps read before t, whose renewals of the seat do not end before t, and which neither cancels nor confirms it nor resets |
| SeatSafety.SweepFreesExactly | dashboard.py:451-456 | The sweep returns a locked seat to available if and only if its lease is still in the table and has expired |
| SeatSafety.OrphanedExactlyBySilentSweep | locking/lease_manager.py:51-115 | "Locked implies a lease" fails; a step breaks it for a seat exactly when the sweep inside an acquire, a validate or a renew catches that seat's expired lease |
| SeatSafety.OrphanForGood | dashboard.py:451-456 | A seat locked without a lease stays locked in every run without its own cancel or a reset |
| SeatSafety.LateRenewalOrphans | dashboard.py:395-406 | The failing family: a renewal that comes once the lease has run out leaves the seat locked under every later sweep |
| PrimaryStore.PartsExactlyWhenFreed | dashboard.py:384-456 | "The primary equals the seat table" fails; a step breaks it for a seat, in state or owner, if and only if it frees the seat: its own cancel while locked, or a sweep that finds its lease in the table and expired |
| PrimaryStore.MeetsExactlyWhenLocked | dashboard.py:351-363 | Once they differ over a seat, a step makes them agree again if and only if it locks that seat or resets |
| PrimaryStore.DiffersExactlyWhenFreeAndWritten | dashboard.py:342-468 | At every point of every run, resets included: the primary differs from the seat table over a seat if and only if the seat is available and its primary version is past the initial 20, so written since the last reset |
| PrimaryStore.CancelledLockStillShown | dashboard.py:384-393 | The failing family: after any lock and its cancel the seat is available and the primary still shows it locked, for the same owner |
| PrimaryStore.PrimaryKeptUnlessWritten | synchronization/state_store.py:68-106 | The primary's version of a seat changes only when that seat is locked or confirmed |
| Conservation.BookingsAccountedFor | dashboard.py:300-313 | In every run: `success_count` = confirmations + cancellations + seats the sweep returned + seats now locked, and the primary's version clock = 20 + `success_count` + confirmations, since the last reset |
| Conservation.CountKeepsBalance | dashboard.py:342-456 | Each single step keeps both equations |
| Conservation.MessagesAccountedFor | synchronization/eventual_consistency.py:59-99 | In every run, resets included: messages in flight + messages delivered = messages in flight at the start + two per lock and per confirm in time |
| Conservation.StepKeepsMessages | dashboard.py:342-461 | One step sends two messages if it locks a seat or confirms one in time, takes one away if it fires a timer, and otherwise leaves their number |
| Replication.NoPhantomAlways | dashboard.py:458-468 | Between resets, no store and no update in flight shows a reservation that the seat table does not hold for the same owner |
| Replication.ResetSafeExactlyWhenNoReservationInFlight | dashboard.py:408-419 | A reset is safe for all later runs if and only if no reservation is in flight at that moment |
| Replication.StaleReservationPlanted | dashboard.py:458-461 | A timer that outlives a reset with a reservation plants it in the new replica |
| PrimaryStore.ResetPlantsReservation | dashboard.py:342-461 | It takes four steps from any state with a free seat: lock it, confirm it in time, reset, let one timer fire; then a replica shows a reservation that the seat table lacks |
| PrimaryStore.ConfirmSends | dashboard.py:376-380 | A successful confirm puts the reservation, with the next version, in flight to every peer |
| Replication.SyncedAlways | synchronization/replicator.py:98-138 | Between resets that start with nothing in flight: no replica and no update in flight is newer than the primary's row, equally new means equal, a reservation is the primary's present row, and whatever a peer lacks is in flight to it |
| Replication.CirculatingWasHeld | synchronization/replicator.py:98-138 | In every run, resets included: each row of each store and each update in flight was, at some point of the run, the primary's own row of that seat, so no replica shows a state, owner or version that the primary never had |
| Replication.NothingElseNew | dashboard.py:342-468 | One step of any kind makes nothing visible on a replica or in a timer but what was visible before it or is the primary's row after it |
| Replication.FreshHasNoPast | dashboard.py:135-151 | A start with no timers meets the hypothesis: every store shows exactly the primary's rows |
| DashboardRuns.ReplicasShowHistory | dashboard.py:342-468 | The same over whole runs of the dashboard: what a replica or a timer has was the primary's row at the start or after some event of the run |
| Replication.ResetSyncedExactlyWhenNothingInFlight | dashboard.py:408-419 | Replication starts clean after a reset if and only if nothing is in flight |
| Replication.ConvergedExactlyWhenInFlightIsStale | synchronization/replicator.py:113-138 | A peer equals the primary in state, owner and version if and only if nothing in flight to it is newer than what it shows |
| Replication.RecoveryCatchesUp | failover/recovery_manager.py:80-96 | A recovered peer equals the primary at once; and an update that was in flight to it then changes nothing whenever it arrives, after any run without a reset, with whatever is booked, delivered and recovered in between |
| Replication.ReplicasMoveForward | synchronization/replicator.py:113-138 | No step takes a replica's version of a seat back, and a replica that shows a reservation goes on showing it |
| Replication.ForwardAlways | synchronization/replicator.py:113-138 | Over whole runs without a reset a replica's version of a seat never goes back, and a reservation it shows stays as it is |
| Synchronization.OrderAndRepetitionIrrelevant | synchronization/replicator.py:98-138 | Updates of one writer delivered in any order and any number of times leave the same store |
| Synchronization.ConvergedExactlyWhenLatestDelivered | synchronization/replicator.py:88-138 | A replica fed only with the primary's updates equals the primary if and only if it has received the latest update of every seat |
| Synchronization.HoldsNewest | synchronization/replicator.py:113-138 | A replica holds a version at least as new as any it has been given |
| Synchronization.HoldsSeen | synchronization/replicator.py:98-115 | A replica holds only versions it started with or was given |
| Synchronization.TiesKeepLocal | synchronization/replicator.py:124-130 | Equal versions never replace the local copy |
| Synchronization.ListingCatchesUp | failover/recovery_manager.py:85-92 | Feeding in every seat of a store, in any order, leaves the per-seat newer version, the local one on ties |
| Synchronization.PrimaryKeepsItsPast | synchronization/state_store.py:52-106 | Every update the primary has sent out is older than its present version of that seat, or is that version |
| Synchronization.InitialStore | synchronization/state_store.py:36-50 | The initial seats are 1 to n, available, seat k with version k, the clock at n |
| Synchronization.BroadcastMembers | synchronization/eventual_consistency.py:75-99 | After a broadcast there is in flight what was before, and the update to each peer |
| Synchronization.BroadcastAddsOnePerPeer | synchronization/eventual_consistency.py:59-99 | A broadcast starts exactly one timer per peer |
| Synchronization.PeersAreTheOthers | synchronization/replicator.py:28-36 | The peers of a server are all the others |
| Synchronization.StateStore.constructor | synchronization/state_store.py:24-34 | An empty store with its clock at 0 |
| Synchronization.StateStore.NextVersion | synchronization/state_store.py:52-55 | The clock ticks and its new value is returned |
| Synchronization.StateStore.InitializeSeats | synchronization/state_store.py:36-50 | The loop leaves the store `InitialStore` describes |
| Synchronization.StateStore.UpdateSeat | synchronization/state_store.py:68-106 | A known seat takes the next version, an unknown one changes nothing and returns none |
| Synchronization.StateStore.ListSeats | synchronization/state_store.py:108-114 | Every seat is listed exactly once, and nothing else |
| Synchronization.StateReplicator.constructor | synchronization/replicator.py:28-38 | The replicator of a store knows the other servers as peers |
| Synchronization.StateReplicator.ApplyRemoteUpdate | synchronization/replicator.py:98-138 | Only a missing seat or a strictly higher version takes the update |
| Synchronization.EventualConsistencySimulator.BroadcastWithDelay | synchronization/eventual_consistency.py:59-99 | One timer per peer is added |
| LeaseManagers.LeaseExclusion | locking/lease_manager.py:51-104 | For two grants on one seat in any run: the earlier lease was released before the later grant, or its last renewed expiry was at or before the later grant's time; and the ids differ |
| LeaseManagers.AlwaysCoupled | locking/lease_manager.py:40-133 | In every run the two lease dictionaries are mutually inverse |
| LeaseManagers.AlwaysStanding | locking/lease_manager.py:59-104 | At every point of a run an unreleased lease is in the table with its last renewed expiry, or that expiry has passed |
| LeaseManagers.NextIdGrows | locking/lease_manager.py:64-76 | Lease ids are never handed out again |
| LeaseManagers.ValidatesExactly | locking/lease_manager.py:106-115 | A lease is valid for a seat exactly if it is the lease that the seat has and has not run out; without a seat, if it is the running lease of some seat |
| LeaseManagers.LeaseManager.constructor | locking/lease_manager.py:40-49 | No leases |
| LeaseManagers.LeaseManager.ExpireLeases | locking/lease_manager.py:122-133 | The leases at or past their expiry leave both dictionaries and are returned, in whatever order they are popped |
| LeaseManagers.LeaseManager.AcquireLease | locking/lease_manager.py:51-77 | Sweeps, then conflicts or grants a fresh id with the given or default time to live |
| LeaseManagers.LeaseManager.RenewLease | locking/lease_manager.py:79-97 | Sweeps, then fails or restarts the clock of that lease in both dictionaries |
| LeaseManagers.LeaseManager.ReleaseLease | locking/lease_manager.py:99-104 | Removes a known lease from both dictionaries, and nothing for an unknown id |
| LeaseManagers.LeaseManager.ValidateLease | locking/lease_manager.py:106-115 | Sweeps, then succeeds exactly for a present lease of that seat |
| LeaseManagers.LeaseManager.GetActiveLease | locking/lease_manager.py:117-120 | Sweeps, then the lease of the seat, if any |
| WeightedRoundRobin.ExactShares | load_balancer/weighted_round_robin.py:33-80 | With distinct online servers whose entries in the constructor's map are not negative, W the sum of their entries (1 for a server without one), W > 0, from fresh state: every window of W consecutive calls picks each server exactly as often as its entry says, and one without an entry exactly once |
| WeightedRoundRobin.ThreeTwoOne | dashboard.py:153-160 | With the dashboard's weights and all three servers online, of any six calls in a row Server 1 gets three, Server 2 two and Server 3 one |
| WeightedRoundRobin.MissingIsOneNegativeIsZero | load_balancer/weighted_round_robin.py:33-39 | In any state and for any list, a missing entry counts as 1 and a negative one as 0 |
| WeightedRoundRobin.Periodic | load_balancer/weighted_round_robin.py:62-71 | Currents and picks repeat with period W |
| WeightedRoundRobin.BackToZero | load_balancer/weighted_round_robin.py:62-71 | After W calls the current of every online server is 0 |
| WeightedRoundRobin.ShareBounds | load_balancer/weighted_round_robin.py:48-71 | After t calls with k picks of a server of entry w among n, W the sum of the entries: W*k < t*w + W, and t*w - W*k <= (n-1)*(W-1) |
| WeightedRoundRobin.CurrentsAlwaysSumToZero | load_balancer/weighted_round_robin.py:48-71 | The currents of all servers ever seen sum to 0 after every call, however servers come and go |
| WeightedRoundRobin.NonPositiveNeverPicked | load_balancer/weighted_round_robin.py:33-39 | With a fixed set of distinct online servers and from fresh state, a server whose entry is 0 or below is never picked |
| WeightedRoundRobin.PickedExactlyWhenWinning | load_balancer/weighted_round_robin.py:41-80 | In any state and for any metrics list: an online server is picked if and only if some online weight is positive, no online server's reading plus what it earns exceeds its own, and those listed before it fall short |
| WeightedRoundRobin.ZeroWeightPickedExactlyWhen | load_balancer/weighted_round_robin.py:62-66 | So, under a changing online set, a server of weight 0 is picked if and only if some online weight is positive, no other online reading plus weight exceeds its reading, and those listed before it fall short of it |
| WeightedRoundRobin.ZeroWeightPicked | load_balancer/weighted_round_robin.py:62-66 | The failing input: weights a=1, b=1, z=0; after one call on a and b, a call on z and a with b offline picks z |
| WeightedRoundRobin.AbsentKeepsReading | load_balancer/weighted_round_robin.py:57-69 | A server that is not online keeps its reading |
| WeightedRoundRobin.PicksUnlessWeightless | load_balancer/weighted_round_robin.py:41-60 | A call picks a server if and only if some online server has positive weight, and otherwise leaves all readings alone |
| WeightedRoundRobin.BestIsEarliest | load_balancer/weighted_round_robin.py:62-71 | Whatever stands before the pick in the list has a smaller current |
| WeightedRoundRobin.WeightedRoutesOnline | load_balancer/strategy.py:23-35 | In every state the pick is an online server of the list |
| WeightedRoundRobin.WeightedRoundRobinStrategy.constructor | load_balancer/weighted_round_robin.py:28-31 | The given weights and no currents |
| WeightedRoundRobin.WeightedRoundRobinStrategy.SelectServer | load_balancer/weighted_round_robin.py:41-80 | The loops compute the specified new currents and pick, error paths included |
| RoundRobin.ExactRotation | load_balancer/round_robin.py:39-57 | With a fixed set of m online servers, every m consecutive calls pick each exactly once |
| RoundRobin.PickedWithinN | load_balancer/round_robin.py:39-57 | A server online at each of n calls over n servers is picked by one of them, however the others flap |
| RoundRobin.ScanFindsNearest | load_balancer/round_robin.py:39-55 | The scan finds the online position that comes first after the last pick, none exactly if there is none |
| RoundRobin.PicksNextOnline | load_balancer/round_robin.py:39-57 | In any state: counting on from the last pick, round the list once, the first online position is picked and the next call goes on from it; none if there is none |
| RoundRobin.RoundRobinRoutesOnline | load_balancer/strategy.py:23-35 | In every state the pick is an online server of the list, and there is none only if no server is online |
| RoundRobin.RoundRobinStrategy.constructor | load_balancer/round_robin.py:26-31 | The index starts at -1 |
| RoundRobin.RoundRobinStrategy.SelectServer | load_balancer/round_robin.py:33-57 | The loop returns what the scan finds and moves the index there, or leaves it |
| ConsistentHashing.MinimalDisruption | load_balancer/consistent_hashing.py:38-85 | For every hash function, collisions included: taking a server offline moves only keys that were on it, and bringing it online moves keys only to it |
| ConsistentHashing.LookupIsNearest | load_balancer/consistent_hashing.py:48-85 | Stable sort, bisect and wrap-around together find the virtual node nearest clockwise from the key, and of colliding nodes the first listed |
| ConsistentHashing.KeyGoesClockwise | load_balancer/consistent_hashing.py:69-78 | For a non-empty routing key: the chosen server owns a virtual node to which the way clockwise from the key's digest, modulo 2^128, is no longer than to any other, and which is the first listed with its hash; none is chosen exactly if there are no nodes |
| ConsistentHashing.KeyMeetsNode | load_balancer/consistent_hashing.py:69-78 | A key whose digest is that of a virtual node goes to the first listed node with that digest |
| ConsistentHashing.NoKeyTakesLeast | load_balancer/consistent_hashing.py:63-67 | Without a routing key the owner of the first listed node of least hash is chosen |
| ConsistentHashing.NodesOfOnlineServers | load_balancer/consistent_hashing.py:38-47 | The virtual nodes are those of the online servers, numbers 0 to the count less one of each, at the digest of id, "-vn-" and number |
| ConsistentHashing.NodeKeysDiffer | load_balancer/consistent_hashing.py:44-46 | Two virtual nodes of one server never have the same key |
| ConsistentHashing.DecimalReads | load_balancer/consistent_hashing.py:44-46 | The number in a key is a decimal numeral that reads back as that number, in digits, without leading zeros |
| ConsistentHashing.SortIsStable | load_balancer/consistent_hashing.py:48-49 | Equal hashes keep their order |
| ConsistentHashing.SortPermutes | load_balancer/consistent_hashing.py:48-49 | The ring has exactly the nodes that were collected |
| ConsistentHashing.SortSorts | load_balancer/consistent_hashing.py:48-49 | The ring is in hash order |
| ConsistentHashing.BisectLeft | load_balancer/consistent_hashing.py:70-73 | The first position whose hash is not below the key |
| ConsistentHashing.TakingDownFilters | load_balancer/consistent_hashing.py:38-47 | Taking a server offline removes its virtual nodes and keeps the others in order |
| ConsistentHashing.HashingRoutesOnline | load_balancer/strategy.py:23-35 | The pick is an online server of the list |
| ConsistentHashing.NoKeyPicksFirstExactlyWhen | load_balancer/consistent_hashing.py:63-67 | Without a routing key the first online server is chosen if and only if it has a virtual node whose hash no node's undercuts |
| ConsistentHashing.NoKeyPicksSecond | load_balancer/consistent_hashing.py:63-67 | The failing input: two online servers with one node each, the second one's lower |
| ConsistentHashing.ConsistentHashingStrategy.constructor | load_balancer/consistent_hashing.py:27-31 | At least one virtual node per server, no ring yet |
| ConsistentHashing.ConsistentHashingStrategy.BuildRing | load_balancer/consistent_hashing.py:38-49 | The stable sort of the online servers' virtual nodes |
| ConsistentHashing.ConsistentHashingStrategy.SelectServer | load_balancer/consistent_hashing.py:51-85 | The choice made on the rebuilt ring is the sort-free nearest node's server |
| CircuitBreakers.CountersMatchHistory | circuit_breaker/state_machine.py:63-126 | In every run: CLOSED counts exactly the failures since it was entered and since the last success, HALF_OPEN exactly the successes since it was entered; for thresholds of at least 1 both numbers stay below them |
| CircuitBreakers.HalfOpenMoves | circuit_breaker/state_machine.py:92-126 | In every run that is at HALF_OPEN: the next success closes the circuit if and only if with it the successes since HALF_OPEN was entered reach `half_open_successes`, and otherwise leaves it HALF_OPEN; a failure or a forced opening opens it; a look leaves it |
| CircuitBreakers.ClosedMoves | circuit_breaker/state_machine.py:92-126 | In every run that is at CLOSED: the next failure opens the circuit if and only if with it the failures since CLOSED was entered and since the last success reach the threshold; a forced opening opens it; nothing else changes it |
| CircuitBreakers.OpenMoves | circuit_breaker/state_machine.py:63-101 | In every run that is at OPEN: only a look from the timeout on changes the mode, to HALF_OPEN |
| CircuitBreakers.OpensOnlyByTrouble | circuit_breaker/state_machine.py:63-126 | A circuit becomes OPEN only by a failure or a forced opening, CLOSED again only by a success in HALF_OPEN, HALF_OPEN only by a look at OPEN |
| CircuitBreakers.ChangesFormAChain | circuit_breaker/state_machine.py:73-90 | The callback's events form a chain from CLOSED that uses only CLOSED-OPEN, OPEN-HALF_OPEN, HALF_OPEN-CLOSED, HALF_OPEN-OPEN and OPEN-OPEN, ending in the present state |
| CircuitBreakers.StaysOpen | circuit_breaker/state_machine.py:92-126 | From OPEN, for any operations and any clock: the circuit stays OPEN throughout if and only if every look comes before the timeout counted from the latest failure or forced opening at that moment, later ones included |
| CircuitBreakers.OpenWindow | circuit_breaker/state_machine.py:63-126 | The same inside every run from the start: OPEN at each point between two operations if and only if OPEN at the first and every look in between is early |
| CircuitBreakers.EarlyBeforeTimeout | circuit_breaker/state_machine.py:92-101 | With a clock that does not run backwards, all looks before one fixed timeout are early, and the timeout only moves on |
| CircuitBreakers.AdmittedExactlyAfterTimeout | circuit_breaker/state_machine.py:92-101 | A look at an OPEN circuit admits exactly from the timeout on, by moving to HALF_OPEN |
| CircuitBreakers.LastFailureIsLatest | circuit_breaker/state_machine.py:114-126 | The time the timeout counts from is that of the latest failure or forced opening: the reading of the opening if the callback was told of one, else that of the failure |
| CircuitBreakers.NeverOpenWithoutTrouble | circuit_breaker/state_machine.py:103-126 | Without failures and forced openings the circuit is CLOSED |
| CircuitBreakers.HalfOpenAdmitsAll | circuit_breaker/state_machine.py:92-101 | HALF_OPEN admits any number of trial requests |
| CircuitBreakers.CircuitBreaker.constructor | circuit_breaker/state_machine.py:38-61 | CLOSED with all counters 0 |
| CircuitBreakers.CircuitBreaker.SetMode | circuit_breaker/state_machine.py:73-90 | What a transition resets, the time it notes, the event it reports |
| CircuitBreakers.CircuitBreaker.GetState | circuit_breaker/state_machine.py:63-71 | Reading the state moves an OPEN circuit whose timeout has passed to HALF_OPEN |
| CircuitBreakers.CircuitBreaker.AllowRequest | circuit_breaker/state_machine.py:92-101 | Admits unless OPEN after the same look |
| CircuitBreakers.CircuitBreaker.Succeed | circuit_breaker/state_machine.py:103-112 | Counts towards closing in HALF_OPEN, clears the failures otherwise |
| CircuitBreakers.CircuitBreaker.Fail | circuit_breaker/state_machine.py:114-126 | Reopens from HALF_OPEN, counts otherwise and opens at the threshold |
| FailureTrackers.WindowIsFilteredHistory | circuit_breaker/failure_tracker.py:29-67 | With a clock that does not run backwards, after any operation the pruned queue is exactly the events of the whole history inside the window, in order |
| FailureTrackers.StepKeepsWindow | circuit_breaker/failure_tracker.py:29-53 | One operation takes the window of a history to the window of the longer history |
| FailureTrackers.FailureTracker.constructor | circuit_breaker/failure_tracker.py:23-27 | An empty queue |
| FailureTrackers.FailureTracker.PruneBefore | circuit_breaker/failure_tracker.py:29-32 | The loop pops old events from the front up to the first recent one |
| FailureTrackers.FailureTracker.RecordOutcome | circuit_breaker/failure_tracker.py:34-44 | Appends the outcome and prunes |
| FailureTrackers.FailureTracker.GetCounts | circuit_breaker/failure_tracker.py:46-53 | Prunes, then the numbers of the successful and of the failed events left |
| FailureTrackers.CountIsNumber | circuit_breaker/failure_tracker.py:46-53 | The count of an outcome is the number of positions in the window that hold it |
| FailureTrackers.PruneDropsOld | circuit_breaker/failure_tracker.py:29-32 | Pruning drops events from the front, all older than the cutoff, and what is left is empty or starts with a recent one |
| FailureTrackers.FailureTracker.FailurePercentage | circuit_breaker/failure_tracker.py:61-67 | After pruning, percentage times events is 100 times the number of failed events; 0 for an empty window |
| Breakers.OpensExactlyWhen | circuit_breaker/breaker.py:61-74 | Over the whole history, with an ordered clock: after a recorded failure the breaker is OPEN if and only if it was not CLOSED, or the failures since it was CLOSED anew and since the last success reach the threshold, or 100 * failures > rate * outcomes, counting the calls that recorded an outcome within the last window |
| Breakers.FailuresMatchCalls | circuit_breaker/breaker.py:50-74 | A CLOSED breaker's failure counter is the number of failed calls since it was CLOSED anew and since the last success |
| Breakers.BreakerRunsBothParts | circuit_breaker/breaker.py:50-77 | A run of the breaker is a run of its state machine (rate openings as forced ones) and a run of its window |
| Breakers.Breaker.constructor | circuit_breaker/breaker.py:21-48 | A fresh machine and an empty window with the given settings |
| Breakers.Breaker.GetState | circuit_breaker/breaker.py:50-51 | The machine's look, the window untouched |
| Breakers.Breaker.AllowRequest | circuit_breaker/breaker.py:53-54 | The machine's verdict, the window untouched |
| Breakers.Breaker.FailurePercentage | circuit_breaker/breaker.py:76-77 | The window's percentage, the machine untouched |
| Breakers.Breaker.Succeed | circuit_breaker/breaker.py:56-59 | Both parts record the success |
| Breakers.Breaker.Fail | circuit_breaker/breaker.py:61-74 | Both parts record the failure, then the rate rule may force the opening |
| FailoverManagers.TurnsAreRare | failover/failover_manager.py:53-77 | After N reports on a server: U * turns to unhealthy + H * turns to healthy <= N, for the thresholds U and H |
| FailoverManagers.HealthIsVerdict | failover/failover_manager.py:53-77 | A server's health is decided by the latest full run of equal reports, and nothing else |
| FailoverManagers.TargetIsFirstUsable | failover/failover_manager.py:82-97 | The failover target is the first online server not known to be unhealthy, none exactly if there is none |
| FailoverManagers.FailoverManager.constructor | failover/failover_manager.py:33-45 | Thresholds of at least 1 and no reports |
| FailoverManagers.FailoverManager.UpdateHealth | failover/failover_manager.py:53-77 | What one report does to that server's counters and flag |
| FailoverManagers.FailoverManager.ChooseFailoverTarget | failover/failover_manager.py:82-97 | The loop returns the specified target |
| Retries.ExponentialBackoffDelays | retry/exponential_backoff.py:11-34 | The loop's k-th delay is the closed form min(max_delay, base * factor^(k-1)), and there are max_attempts of them, none if that is negative |
| Retries.DelaysAgree | retry/retry_manager.py:57-64 | Without jitter the retry manager's delays are the generator's |
| Retries.DelayBounds | retry/retry_manager.py:57-64 | With non-negative settings a jittered delay lies within 20 percent of the capped delay |
| Retries.JitterCovers | retry/retry_manager.py:57-64 | Each value within 20 percent of the capped delay, the upper end excepted, comes of exactly one draw |
| Retries.CapExceededExactlyWhen | retry/retry_manager.py:57-64 | For every policy: some draw from 0 to below 1 makes a delay exceed `max_delay` if and only if there is jitter, and 1.2 times the capped delay is above `max_delay` or `max_delay` is negative |
| Retries.CapExceeded | retry/retry_manager.py:57-64 | The failing input: base 0.25, factor 2, cap 1, third attempt, draw 0.9 gives 1.16 |
| Retries.SleepWithinSeries | retry/retry_manager.py:66-100 | (factor - 1) * total sleep <= 1.2 * base * (factor^(n-1) - 1) for n calls, whatever the jitter draws |
| Retries.SleepWithinCap | retry/retry_manager.py:66-100 | Total sleep <= 1.2 * (n-1) * max_delay for n calls |
| Retries.RetryManager.constructor | retry/retry_manager.py:22-55 | At least one attempt |
| Retries.RetryManager.Call | retry/retry_manager.py:66-100 | Between 1 and max_attempts calls, none if that is below 1; all but the last failed retryably; which verdict goes with the last outcome; the sleep after each, and a negative one ends the call |
| Retries.RetryManager.CallDecorated | retry/retry_manager.py:102-119 | The decorator's number of attempts, even below 1, holds for that call, and the manager has its own again afterwards |
| Retries.SleepNeverRefused | retry/retry_manager.py:57-93 | With non-negative settings no computed delay is negative, so no call ends for that reason |
| RecoveryManagers.RecoveryManager.MarkRecovered | failover/recovery_manager.py:48-59 | That server is recovered, the members stay |
| RecoveryManagers.RecoveryManager.RejoinCluster | failover/recovery_manager.py:61-78 | That server is recovered, joined and a member |
| RecoveryManagers.RecoveryManager.ReceiveSyncUpdates | failover/recovery_manager.py:80-96 | The server is a member and its store has taken in every update in turn |
| Dashboards.Dashboard.constructor | dashboard.py:58-116 | A fresh dashboard: components that share no state, in the state `Start` the run theorems begin with |
| Dashboards.Dashboard.RecordInitialHeartbeats | dashboard.py:130-133 | Every server is reported healthy once |
| Dashboards.Dashboard.InitializeSynchronization | dashboard.py:135-151 | New stores with initial seats, their replicators and the primary's simulator |
| Dashboards.Dashboard.ExpireLeases | dashboard.py:451-456 | The object goes through exactly the sweep step |
| Dashboards.Dashboard.LockSeat | dashboard.py:351-363 | The lease, the row, the primary's write and the broadcast are the lock step, short of the count; a conflict changes no row |
| Dashboards.Dashboard.ReserveOnServer | dashboard.py:342-363 | An offline server's breaker records a failure, the injected failure changes nothing, else the seat is locked |
| Dashboards.Dashboard.CallServer | circuit_breaker/breaker.py:82-97 | The reservation under the breaker: short-circuited, or its outcome recorded, and a granted one counted |
| Dashboards.Dashboard.CurrentMetrics | dashboard.py:197-215 | The loop yields the specified metrics and leaves every breaker as polled |
| Dashboards.Dashboard.SelectCircuitSafeServer | dashboard.py:332-340 | The picked server, or the failover target, or none, and the breakers looked at |
| Dashboards.Dashboard.BookLocked | dashboard.py:278-330 | One attempt takes the object through exactly the booking step of the run theorems, with that answer, every error path included |
| Dashboards.Dashboard.ConfirmSeat | dashboard.py:365-382 | Exactly the confirm step of the run theorems, and a refusal counts as a failure |
| Dashboards.Dashboard.CancelLock | dashboard.py:384-393 | Exactly the cancel step of the run theorems, and a refusal counts as a failure |
| Dashboards.Dashboard.RenewLease | dashboard.py:395-406 | Exactly the renew step of the run theorems, and a refusal counts as a failure |
| Dashboards.Dashboard.OnSyncDelivered | dashboard.py:458-461 | Exactly the delivery step: the update goes into the present replicator of its peer, and nothing else changes |
| Dashboards.Dashboard.CatchUpServer | dashboard.py:463-468 | Fed with the primary's listing in any order, the server's store is caught up and it is a member |
| Dashboards.Dashboard.ToggleServer | dashboard.py:173-195 | Exactly the toggle step: the switch, the health report and, for a peer coming back, the catch-up; a server coming back is a cluster member |
| Dashboards.Dashboard.ResetAll | dashboard.py:408-419 | Exactly the reset step: free seats, new leases, stores and replicators, zero counts; timers, servers, breakers and health as they were |
| Dashboards.Dashboard.RefreshSnapshot | dashboard.py:502-544 | Exactly the snapshot step: the sweep, the poll, and a second look at every breaker |

## Left out

- Synchronization.StateStore.ListSeats: asks for seats filed under their own ids, which `Dashboard.Valid` keeps for every store; the order of the listing is left open, and every theorem holds for any order.
- LeaseManagers.LeaseManager.ExpireLeases: returns the removed leases as a set; the order of the dictionary is not modelled, since nothing depends on it.
- DashboardRuns.BookWithRetry: the attempts are steps of the state, with any events in between, instead of calls on a `Dashboard` object, because other threads change that object while the retry sleeps.
- Dashboards.Dashboard.BookLocked: the strategy object is a parameter (its choice function) and not a field, so `set_strategy` is not a step; a strategy's own state over many calls is in the strategy's module.
- Dashboards.Dashboard.CatchUpServer: calls the server's replicator directly where the code goes through a registered callback; the callback's branch for an unknown server cannot arise there.
- Retries.RetryManager.Call: the wrapped function is given by what each call would do; the callbacks `on_retry` and `on_giveup`, whose exceptions are swallowed, are not called.
- Retries.ExponentialBackoffDelays: yields its delays as one sequence; the class `ExponentialBackoff`, which only wraps the generator, is left out.
- WeightedRoundRobin.WeightedRoundRobinStrategy.constructor: weights are integers; the fallback to weight 1 when a configured weight cannot be converted is left out.
- Threads, locks and real timers: atomic steps and a bag of messages; `is_alive`, `get_pending_count`, `cancel_pending_replication` and the lengths of the delays are not modelled.
- A clock that runs backwards: only the results that need time in order assume it is not so.
- MD5 and `uuid4`: an arbitrary function into 128 bits and a counter.
- `last_updated` of a seat's state, `last_seen` and `reason` of a server's health, and time and reason of a recovery: stored and shown, never read by a decision.
- `update_from_heartbeat_snapshot` and `broadcast_update`: nothing calls them.
- `AdaptiveFeedbackStrategy` and `ResourceAwareLeastConnectionsStrategy`: one maximum or minimum over the online servers; a booking needs of them only that they return an online server.
- The heartbeat monitor, the metrics collector, `telemetry/` and `monitoring/`: sums, means and thresholds that no modelled decision reads.
- The drift of the random server metrics, the page, the Flask routes, the log buffer, `last_route`, `retry_status` and the layout of a snapshot.
- `simulate_retry`: a retry of a function that fails twice; `Retries.RetryManager.Call` covers it.
- The remaining queries: `get_seat`, the counts by state, `to_dict`, `from_dict`, `remaining_seconds`, `get_replication_status`, `get_consistency_lag_ms`, the tracker's `total_requests` and `reset`.
- `ingress/`, `app.py` and `api/`: entry points.
