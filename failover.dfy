/** Active/standby failover of one process instance: the role it holds,
    the lock it races for, the heartbeat it publishes while active, and the
    service start/stop commands it issues on a role change. Each loop of the
    Python program is modelled by one iteration: `Poll` for the heartbeat check,
    `Publish` for the heartbeat sender. */
module Failover {
  import opened KeyValue

  const HeartbeatKey := "heartbeat"
  const LockKey := "leader_lock"
  /** The value the active instance publishes under the heartbeat key. */
  const HeartbeatMarker := "active"
  /** Expiry, in seconds, of a published heartbeat. */
  const HeartbeatTtl: nat := 10
  /** Expiry, in seconds, of the leader lock. */
  const LockTtl: nat := 15

  datatype Role = Standby | Active

  /** A process starts as a standby. */
  const InitialRole := Standby

  /** `systemctl start` / `systemctl stop` of the application service. */
  datatype Command = Start | Stop

  /** A service command, with the role the instance held when it was issued. */
  datatype Event = Event(command: Command, role: Role)

  /** What one instance's steps read and write: its role, the shared store
      and the log of service commands it issued. */
  datatype State = State(role: Role, store: Store, log: seq<Event>)

  ghost predicate Promoted(st: State, st': State)
  {
    st.role == Standby && st'.role == Active
  }

  ghost predicate Demoted(st: State, st': State)
  {
    st.role == Active && st'.role == Standby
  }

  /** Lock acquisition: SET leader_lock := id, only if absent, expiring after `LockTtl`. */
  function Acquire(s: Store, id: string): (r: CondWrite)
    ensures r.written <==> LockKey !in s
    ensures r.written ==> LockKey in r.store && r.store[LockKey] == Entry(id, LockTtl)
    ensures !r.written ==> r.store == s
    ensures forall k :: k != LockKey ==> AgreeOn(s, r.store, k)
  {
    AssignIfAbsent(s, LockKey, id, LockTtl)
  }

  /** One iteration of the heartbeat check of instance `id`. */
  function Poll(st: State, id: string): (r: State)
    // promotion: exactly when a standby sees no heartbeat and wins the lock
    ensures Promoted(st, r) <==> st.role == Standby && HeartbeatKey !in st.store && LockKey !in st.store
    ensures Promoted(st, r) ==> r.store == Acquire(st.store, id).store
    ensures Promoted(st, r) ==> r.store[LockKey] == Entry(id, LockTtl)
    // demotion: exactly when an active instance sees any heartbeat, without touching the store
    ensures Demoted(st, r) <==> st.role == Active && HeartbeatKey in st.store
    ensures st.role == Active ==> r.store == st.store
    // a standby that loses the race, or any other combination, changes nothing
    ensures st.role == Standby && LockKey in st.store ==> r == st
    ensures (HeartbeatKey in st.store) == (st.role == Standby) ==> r == st
    // a service command is logged exactly on a role change, after the role was updated
    ensures Promoted(st, r) ==> r.log == st.log + [Event(Start, Active)]
    ensures Demoted(st, r) ==> r.log == st.log + [Event(Stop, Standby)]
    ensures r.role == st.role ==> r.log == st.log && r.store == st.store
    // nothing but the lock ever changes in the store
    ensures forall k :: k != LockKey ==> AgreeOn(st.store, r.store, k)
  {
    var heartbeat := Lookup(st.store, HeartbeatKey);
    if heartbeat.None? && st.role == Standby then
      var a := Acquire(st.store, id);
      if a.written then State(Active, a.store, st.log + [Event(Start, Active)])
      else State(st.role, a.store, st.log)
    else if heartbeat.Some? && st.role == Active then
      State(Standby, st.store, st.log + [Event(Stop, Standby)])
    else
      st
  }

  /** One iteration of the heartbeat sender, given the instance's current role. */
  function Publish(role: Role, s: Store): (r: Store)
    ensures role == Active ==> HeartbeatKey in r && r[HeartbeatKey] == Entry(HeartbeatMarker, HeartbeatTtl)
    ensures role == Standby ==> r == s
    ensures HeartbeatKey in r <==> role == Active || HeartbeatKey in s
    ensures forall k :: k != HeartbeatKey ==> AgreeOn(s, r, k)
  {
    if role == Active then Assign(s, HeartbeatKey, HeartbeatMarker, HeartbeatTtl) else s
  }

  /** One running process: its identity, its role (shared by its two loops),
      the log of service commands it issued, and the store server it talks to. */
  class Instance {
    const id: string
    const store: KvStore
    var role: Role
    var log: seq<Event>

    constructor (id: string, store: KvStore)
      ensures this.id == id && this.store == store
      ensures role == InitialRole && log == []
    {
      this.id := id;
      this.store := store;
      role := InitialRole;
      log := [];
    }

    ghost function Snapshot(): State
      reads this, store
    {
      State(role, store.data, log)
    }

    method TryAcquire() returns (won: bool)
      modifies store
      ensures won <==> LockKey !in old(store.data)
      ensures store.data == Acquire(old(store.data), id).store
    {
      won := store.SetIfAbsent(LockKey, id, LockTtl);
    }

    method PollStep()
      modifies this, store
      ensures Snapshot() == Poll(old(Snapshot()), id)
    {
      var heartbeat := store.Get(HeartbeatKey);
      if heartbeat.None? && role == Standby {
        var won := TryAcquire();
        if won {
          role := Active;
          log := log + [Event(Start, role)];
        }
      } else if heartbeat.Some? && role == Active {
        role := Standby;
        log := log + [Event(Stop, role)];
      }
    }

    method PublishStep()
      modifies store
      ensures store.data == Publish(role, old(store.data))
    {
      if role == Active {
        store.Set(HeartbeatKey, HeartbeatMarker, HeartbeatTtl);
      }
    }
  }

  /** Two instances race for the lock on one store, with no expiry in between. */
  method Race(a: Instance, b: Instance) returns (wonA: bool, wonB: bool)
    requires a.store == b.store
    modifies a.store
    ensures wonA <==> LockKey !in old(a.store.data)
    ensures !wonB
    ensures a.store.data == Acquire(old(a.store.data), a.id).store
    ensures wonA ==> a.store.data[LockKey].value == a.id
  {
    wonA := a.TryAcquire();
    wonB := b.TryAcquire();
  }
}
