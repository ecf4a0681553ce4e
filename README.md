# Active/standby failover over a shared key-value store

This project models the failover decision logic of a small active/standby
service. Several equivalent process instances share one Redis server. Each
instance starts as a standby. It runs two loops:

- a heartbeat check. A standby that finds no `heartbeat` key tries to take
  the `leader_lock` key with "set if absent" and a 15-second expiry. If it
  wins, it becomes active and starts the application service. An active
  instance that finds any `heartbeat` key becomes standby again and stops
  the service.
- a heartbeat sender. While the instance is active, it writes
  `heartbeat := "active"` with a 10-second expiry.

The model has three modules:

- `KeyValue` (`keyvalue.dfy`) is the store. A `Store` is a map from key to
  `Entry(value, ttl)`. Pure functions give GET, SET, SET-if-absent and the
  expiry of a key. The class `KvStore` holds that map and updates it in place.
- `Failover` (`failover.dfy`) holds the constants, the two roles and the
  service command log. It gives each step of the Python program as a pure function
  on a `State` (role, store, log): `Acquire`, `Poll` and `Publish`, each with
  its contract. The class `Instance` has the mutable `role` and `log` fields
  and a reference to the shared `KvStore`. Its methods `TryAcquire`,
  `PollStep` and `PublishStep` are proved equal to those functions. `Race`
  runs two instances' acquisitions against one store.
- `FailoverProperties` (`properties.dfy`) holds the properties that span
  several steps. Any number of successive acquisitions on one store, with
  no key expiring in between, has at most one winner. Over any sequence of steps from start-up, the service has been
  started exactly while the role is active. It also proves the self-demotion
  behaviour and the takeover scenario after expiry.

The `systemctl start` and `systemctl stop` calls are entries in the
instance's log. Each entry records the role the instance held when the
command ran, so the log shows that each command runs after the role update.

The code never renews the lock. It demotes whenever it sees a heartbeat,
including its own (`SelfDemotion`). It writes the heartbeat with a 10-second
expiry and the lock with a 15-second expiry. On promotion it sets the role
before it starts the service.

## Model

| member | source | states |
|---|---|---|
| KeyValue.Lookup | app.py:20 | GET gives nothing exactly when the key is absent, and otherwise the stored value |
| KeyValue.Assign | app.py:13 | SET with an expiry stores the value and expiry under the key and leaves every other key as it was |
| KeyValue.AssignIfAbsent | app.py:36 | SET-if-absent writes exactly when the key is missing; on failure the store is unchanged; other keys are never touched |
| KeyValue.Evicted | app.py:13 | when a key's expiry runs out it disappears and nothing else changes |
| KeyValue.KvStore.Get | app.py:20 | the in-place store answers GET from its current map |
| KeyValue.KvStore.Set | app.py:13 | the in-place SET changes the map as `Assign` does |
| KeyValue.KvStore.SetIfAbsent | app.py:36 | reports a write exactly when the key was absent, and changes the map as `AssignIfAbsent` does |
| KeyValue.KvStore.Evict | app.py:13 | the in-place expiry removes the key as `Evicted` does |
| Failover.Acquire | app.py:34-39 | succeeds exactly when `leader_lock` was absent; on success the lock holds this id with expiry 15; on failure the store is unchanged; no other key changes |
| Failover.Poll | app.py:19-31 | promotes exactly when a standby sees no heartbeat and takes the lock; demotes exactly when an active instance sees any heartbeat; a standby that loses the race and the other two combinations change nothing; start is logged exactly on promotion and stop exactly on demotion, each with the already updated role; only the lock can change in the store, and only on promotion |
| Failover.Publish | app.py:11-13 | an active instance writes `heartbeat := "active"` with expiry 10; a standby leaves the store unchanged; no other key, `leader_lock` included, changes |
| Failover.Instance.constructor | app.py:6-7 | a new instance has the given opaque id, the standby role and an empty command log |
| Failover.Instance.TryAcquire | app.py:34-39 | returns true exactly when the lock was absent, and changes the shared store as `Acquire` does |
| Failover.Instance.PollStep | app.py:20-31 | updates role, store and log in place exactly as `Poll` says |
| Failover.Instance.PublishStep | app.py:12-13 | changes the shared store exactly as `Publish` says, reading the role and leaving it and the log alone |
| Failover.Race | app.py:36 | two instances on one store with no expiry in between: the second acquisition always fails, the first wins exactly when the lock was free, and the lock then names the first |
| FailoverProperties.AcquireAll | app.py:36 | successive lock acquisitions by the given ids on one store with no expiry in between: one outcome per attempt, and no key other than the lock ever changes; a held lock stays held. `HeldLockRefusesAll` and `AtMostOneAcquirer` state who wins |
| FailoverProperties.HeldLockRefusesAll | app.py:36 | while the lock is held, every acquisition attempt fails and the store stays the same |
| FailoverProperties.AtMostOneAcquirer | app.py:36-39 | among any successive acquisition attempts on one store, with no key expiring in between, no two win; on a free lock the first wins and the lock names it; on a held lock the store is unchanged |
| FailoverProperties.Apply | app.py:11-31 | a sender step or an outside change never changes the role or logs a command; a sender step never changes `leader_lock` |
| FailoverProperties.Run | app.py:11-32 | any interleaving of heartbeat-check and sender iterations mixed with outside changes to the store: the service command log only ever grows. `RunKeepsServiceMatchingRole` and `ReachableServiceMatchesRole` state the start/stop invariant over it |
| FailoverProperties.InitialMatches | app.py:7 | at start-up the instance is standby with no service command issued |
| FailoverProperties.StepKeepsServiceMatchingRole | app.py:21-31 | every step keeps the command log alternating start/stop and the service started exactly while active |
| FailoverProperties.RunKeepsServiceMatchingRole | app.py:19-32 | any sequence of steps keeps that invariant |
| FailoverProperties.ReachableServiceMatchesRole | app.py:7-31 | from start-up, under any interleaving of the loops and any outside change to the store, the service is started exactly while the instance is active |
| FailoverProperties.SelfDemotion | app.py:12-30 | an active instance that publishes and then polls sees its own heartbeat and demotes, logging a stop |
| FailoverProperties.Takeover | app.py:20-27 | after one instance promoted and published, a second stays standby; once heartbeat and lock have expired, the second promotes and the lock names it |
| FailoverProperties.NoTakeoverWhileLockHeld | app.py:21-23 | when only the heartbeat has expired, a standby that finds the lock held stays standby and changes nothing |

## Left out

- Failing store calls. In the model every GET and SET succeeds. In the code a failing `r.get`, `r.set` or conditional `set` raises, ends that loop and is not handled; if only the heartbeat check dies, the sender thread keeps running.
- The Redis client and its network calls. The store is an in-memory map, and expiry is an explicit eviction of a key rather than wall-clock time. The expiry value is recorded but never counts down.
- `time.sleep` and the endless `while True` loops. Each loop is modelled by one iteration. `Run` strings iterations together only for the trace invariant.
- The thread that runs the heartbeat sender beside the heartbeat check. Only sequential interleavings of whole steps are modelled, not concurrent execution within a step.
- The window between the two store round trips of one heartbeat check. The code reads the heartbeat (GET) and then takes the lock (SET with NX) in separate calls. `Poll` does both on one snapshot of the store, so a write by another process in between, such as a heartbeat published after this instance's GET, is not modelled.
- `os.system('systemctl ...')`. Each call is an abstract start/stop event in the log, so its outcome and the service unit's state are not modelled.
- The `print` messages and the UUID generation. The instance id is an opaque string parameter.
- Lock renewal, lock release on shutdown and a downstream messaging connection: the code has none of them.
- Redis's byte strings. Keys and values are strings.
