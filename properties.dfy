/** Properties that relate several steps: repeated lock acquisitions on one
    store, arbitrary sequences of one instance's steps, and two failover
    scenarios. */
module FailoverProperties {
  import opened KeyValue
  import opened Failover

  /** The wins of successive acquisition attempts by `ids`, in order, against
      one store with no expiry in between, and the store after the last one. */
  datatype Attempts = Attempts(wins: seq<bool>, store: Store)

  function AcquireAll(s: Store, ids: seq<string>): (r: Attempts)
    ensures |r.wins| == |ids|
    ensures forall k :: k != LockKey ==> AgreeOn(s, r.store, k)
    ensures LockKey in s ==> LockKey in r.store
    decreases |ids|
  {
    if ids == [] then Attempts([], s)
    else
      var a := Acquire(s, ids[0]);
      var rest := AcquireAll(a.store, ids[1..]);
      assert forall k :: k != LockKey ==> AgreeOn(s, rest.store, k) by {
        forall k | k != LockKey
          ensures AgreeOn(s, rest.store, k)
        {
          assert AgreeOn(s, a.store, k) && AgreeOn(a.store, rest.store, k);
        }
      }
      Attempts([a.written] + rest.wins, rest.store)
  }

  /** A held lock turns every attempt away and is left as it was. */
  lemma {:induction false} HeldLockRefusesAll(s: Store, ids: seq<string>)
    requires LockKey in s
    ensures |AcquireAll(s, ids).wins| == |ids|
    ensures forall i :: 0 <= i < |ids| ==> !AcquireAll(s, ids).wins[i]
    ensures AcquireAll(s, ids).store == s
    decreases |ids|
  {
    if ids != [] {
      HeldLockRefusesAll(s, ids[1..]);
    }
  }

  /** At most one acquirer wins: if the lock is free the first attempt wins
      and every later one fails, leaving the lock naming the first winner;
      if it is held, nobody wins. */
  lemma {:induction false} AtMostOneAcquirer(s: Store, ids: seq<string>)
    ensures |AcquireAll(s, ids).wins| == |ids|
    ensures forall i, j :: 0 <= i < j < |ids| ==> !(AcquireAll(s, ids).wins[i] && AcquireAll(s, ids).wins[j])
    ensures LockKey in s ==> AcquireAll(s, ids).store == s
    ensures LockKey !in s && ids != [] ==>
      && AcquireAll(s, ids).wins[0]
      && AcquireAll(s, ids).store == Acquire(s, ids[0]).store
      && AcquireAll(s, ids).store[LockKey] == Entry(ids[0], LockTtl)
  {
    if LockKey in s {
      HeldLockRefusesAll(s, ids);
    } else if ids != [] {
      var a := Acquire(s, ids[0]);
      HeldLockRefusesAll(a.store, ids[1..]);
      var r := AcquireAll(s, ids);
      assert r.wins == [true] + AcquireAll(a.store, ids[1..]).wins;
      forall i, j | 0 <= i < j < |ids|
        ensures !(r.wins[i] && r.wins[j])
      {
        assert r.wins[j] == AcquireAll(a.store, ids[1..]).wins[j - 1];
      }
    }
  }

  /** The steps one instance can observe: one iteration of either of its
      loops, or a change made to the store by anything else (another
      instance's write, a key's expiry). */
  datatype Step = PollOnce | PublishOnce | External(store: Store)

  function Apply(st: State, id: string, step: Step): (r: State)
    ensures step != PollOnce ==> r.role == st.role && r.log == st.log
    ensures step == PublishOnce ==> AgreeOn(st.store, r.store, LockKey)
  {
    match step
    case PollOnce => Poll(st, id)
    case PublishOnce => st.(store := Publish(st.role, st.store))
    case External(s) => st.(store := s)
  }

  /** The steps, in order, from `st`: the command log only ever grows. */
  function Run(st: State, id: string, steps: seq<Step>): (r: State)
    ensures st.log <= r.log
    decreases |steps|
  {
    if steps == [] then st else Run(Apply(st, id, steps[0]), id, steps[1..])
  }

  /** The service commands alternate, starting with a start, and each was
      issued with the role it brought about. */
  ghost predicate Alternates(log: seq<Event>)
  {
    forall i :: 0 <= i < |log| ==> log[i] == (if i % 2 == 0 then Event(Start, Active) else Event(Stop, Standby))
  }

  /** The service is running (last command a start) exactly while the role is active. */
  ghost predicate ServiceMatchesRole(st: State)
  {
    Alternates(st.log) && (st.role == Active <==> |st.log| % 2 == 1)
  }

  lemma InitialMatches(s: Store)
    ensures ServiceMatchesRole(State(InitialRole, s, []))
  {
  }

  lemma StepKeepsServiceMatchingRole(st: State, id: string, step: Step)
    requires ServiceMatchesRole(st)
    ensures ServiceMatchesRole(Apply(st, id, step))
  {
  }

  lemma {:induction false} RunKeepsServiceMatchingRole(st: State, id: string, steps: seq<Step>)
    requires ServiceMatchesRole(st)
    ensures ServiceMatchesRole(Run(st, id, steps))
    decreases |steps|
  {
    if steps != [] {
      StepKeepsServiceMatchingRole(st, id, steps[0]);
      RunKeepsServiceMatchingRole(Apply(st, id, steps[0]), id, steps[1..]);
    }
  }

  /** From start-up, whatever the interleaving of the two loops and whatever
      else happens to the store, the service has been started exactly when
      the instance is active. */
  lemma ReachableServiceMatchesRole(s: Store, id: string, steps: seq<Step>)
    ensures ServiceMatchesRole(Run(State(InitialRole, s, []), id, steps))
  {
    InitialMatches(s);
    RunKeepsServiceMatchingRole(State(InitialRole, s, []), id, steps);
  }

  /** The active instance demotes itself on its own heartbeat: publishing and
      then polling always ends in standby, with the service stopped. */
  lemma SelfDemotion(st: State, id: string)
    requires st.role == Active
    ensures Poll(Apply(st, id, PublishOnce), id)
         == State(Standby, Publish(Active, st.store), st.log + [Event(Stop, Standby)])
  {
  }

  /** Failover: instance `a` promotes on an empty store and publishes; `b`
      stays standby while that heartbeat is live; once the heartbeat and the
      lock have expired, `b` promotes and the lock names `b`. */
  lemma Takeover(s: Store, a: string, b: string)
    requires HeartbeatKey !in s && LockKey !in s
    ensures Poll(State(Standby, s, []), a).role == Active
    ensures
      var s1 := Publish(Active, Poll(State(Standby, s, []), a).store);
      && Poll(State(Standby, s1, []), b) == State(Standby, s1, [])
      && var s2 := Evicted(Evicted(s1, HeartbeatKey), LockKey);
         && Poll(State(Standby, s2, []), b).role == Active
         && Poll(State(Standby, s2, []), b).store[LockKey] == Entry(b, LockTtl)
  {
  }

  /** Failover stalls while only the heartbeat has expired: a standby that
      finds the lock still held stays standby. */
  lemma NoTakeoverWhileLockHeld(s: Store, a: string, b: string)
    requires HeartbeatKey !in s && LockKey !in s
    ensures
      var s1 := Publish(Active, Poll(State(Standby, s, []), a).store);
      var s2 := Evicted(s1, HeartbeatKey);
      Poll(State(Standby, s2, []), b) == State(Standby, s2, [])
  {
  }
}
