/**
 The two granularities agree: every run of the coarse machine (module Leases) is a run of
 the fine-grained one (module TunnelSteps) in which each operation's steps happen back to
 back.  What holds in every fine-grained reachable state therefore holds in every coarse one.
 */
module TunnelBridge {
  import opened Basics
  import opened TunnelSteps
  import opened TunnelSafety
  import opened TunnelResults
  import opened TunnelSweep
  import opened TunnelRaces
  import opened TunnelThreats
  import L = Leases

  predicate SamePhase(p: Phase, q: L.Phase) {
    p.Armed? == q.Armed? && p.Fired? == q.Fired?
  }

  // The fine state s shows entry k with the coarse entry's process and timer.
  predicate Shows(s: State, k: Key, e: L.Entry) {
    && k in s.entries && s.entries[k] == e.pid
    && e.pid in s.timerOf && s.timerOf[e.pid] == e.timer
    && e.pid in s.procs && s.procs[e.pid] == Process(k, false)
    && e.pid in s.watching
  }

  ghost predicate SameTimers(ts: seq<L.Timer>, m: map<Tid, Timer>) {
    && (forall t: nat :: t in m <==> t < |ts|)
    && (forall t: nat :: t < |ts| ==> m[t].key == ts[t].key && SamePhase(m[t].phase, ts[t].phase))
  }

  lemma ArmsAlike(ts: seq<L.Timer>, m: map<Tid, Timer>, k: Key, deadline: int)
    requires SameTimers(ts, m)
    ensures SameTimers(L.Arm(ts, k, deadline), m[|ts| := Timer(k, Armed)])
  {
    var ts' := L.Arm(ts, k, deadline);
    assert forall t :: 0 <= t < |ts| ==> ts'[t] == ts[t];
  }

  lemma StopsAlike(ts: seq<L.Timer>, s: State, p: Pid)
    requires SameTimers(ts, s.timers) && p in s.timerOf
    ensures SameTimers(L.Stop(ts, s.timerOf[p]), StopTimerOf(s, p))
  {
  }

  ghost predicate Idle(s: State) {
    s.ens == map[] && forall id :: id in s.kills ==> s.kills[id] == Finished
  }

  // s is v seen with no operation in flight; the sweep is left open.
  ghost predicate Embeds(v: L.Tunnels, s: State) {
    && Idle(s)
    && s.entries.Keys == v.entries.Keys
    && (forall k :: k in v.entries ==> Shows(s, k, v.entries[k]))
    && SameTimers(v.timers, s.timers)
    && s.procs.Keys == v.spawned
    && |s.signals| == |v.signalled|
    && (forall i :: 0 <= i < |s.signals| ==> s.signals[i].pid == v.signalled[i])
  }

  // ---------------------------------------------------------------- fine-grained runs

  lemma RunRefresh(s: State, k: Key, t: Tid) returns (s': State)
    requires Reachable(s) && s.ens == map[] && k in s.entries && t !in StopTimerOf(s, s.entries[k])
    ensures Reachable(s')
    ensures var p := s.entries[k];
      s' == s.(timers := StopTimerOf(s, p)[t := Timer(k, Armed)], timerOf := s.timerOf[p := t])
  {
    var s1 := ApplyEnsure(s, k, Call);
    ReachStep(s, Ensure(k, Call));
    var s2 := ApplyEnsure(s1, k, StopOld);
    ReachStep(s1, Ensure(k, StopOld));
    s' := ApplyEnsure(s2, k, Rearm(t));
    ReachStep(s2, Ensure(k, Rearm(t)));
    assert s'.ens == map[];
  }

  lemma RunFailedSpawn(s: State, k: Key) returns (s': State)
    requires Reachable(s) && s.ens == map[] && k !in s.entries
    ensures Reachable(s') && s' == s
  {
    var s1 := ApplyEnsure(s, k, Call);
    ReachStep(s, Ensure(k, Call));
    s' := ApplyEnsure(s1, k, EnsureAct.SpawnFails);
    ReachStep(s1, Ensure(k, EnsureAct.SpawnFails));
  }

  lemma RunSpawn(s: State, k: Key, p: Pid) returns (s': State)
    requires Reachable(s) && s.ens == map[] && k !in s.entries && p !in s.procs
    ensures Reachable(s')
    ensures s' == s.(procs := s.procs[p := Process(k, false)], ens := map[k := Starting(p)])
  {
    var s1 := ApplyEnsure(s, k, Call);
    ReachStep(s, Ensure(k, Call));
    s' := ApplyEnsure(s1, k, Spawn(p));
    ReachStep(s1, Ensure(k, Spawn(p)));
  }

  lemma RunEarlyExit(s: State, k: Key, p: Pid) returns (s': State)
    requires Reachable(s) && s.ens == map[] && k !in s.entries && p !in s.procs
    ensures Reachable(s')
    ensures s' == s.(procs := s.procs[p := Process(k, true)], reaped := s.reaped + {p})
  {
    var s1 := RunSpawn(s, k, p);
    var s2 := ApplyWorld(s1, Exit(p));
    ReachStep(s1, World(Exit(p)));
    s' := ApplyEnsure(s2, k, EarlyExit);
    ReachStep(s2, Ensure(k, EarlyExit));
    assert s'.ens == map[];
  }

  lemma RunExit(s: State, k: Key, p: Pid) returns (s': State)
    requires Reachable(s) && k in s.entries && s.entries[k] == p
    requires p in s.procs && s.procs[p] == Process(k, false) && p in s.watching
    ensures Reachable(s')
    ensures s' == s.(procs := s.procs[p := Process(k, true)], timers := StopTimerOf(s, p),
                     entries := s.entries - {k}, watching := s.watching - {p},
                     reaped := s.reaped + {p}, removals := s.removals + [Removal(p, Watcher)])
  {
    var s1 := ApplyWorld(s, Exit(p));
    ReachStep(s, World(Exit(p)));
    s' := ApplyWorld(s1, Wake(p));
    ReachStep(s1, World(Wake(p)));
  }

  // A kill that is at the lock runs to its end.
  lemma RunKill(s: State, id: KillId) returns (s': State)
    requires Reachable(s) && id in s.kills && s.kills[id].AtLock?
    ensures Reachable(s')
    ensures var k := s.kills[id].key;
      s' == if k !in s.entries then s.(kills := s.kills[id := Finished])
            else var p := s.entries[k];
              s.(entries := s.entries - {k}, timers := StopTimerOf(s, p),
                 kills := s.kills[id := Finished],
                 removals := s.removals + [Removal(p, Kill(id))],
                 signals := s.signals + [Signal(id, p)])
  {
    var s1 := ApplyKill(s, id, Lock);
    ReachStep(s, Killing(id, Lock));
    if s.kills[id].key in s.entries {
      var s2 := ApplyKill(s1, id, StopTimer);
      ReachStep(s1, Killing(id, StopTimer));
      s' := ApplyKill(s2, id, Sigterm);
      ReachStep(s2, Killing(id, Sigterm));
    } else {
      s' := s1;
    }
  }

  // ---------------------------------------------------------------- one operation

  lemma RefreshIsARun(v: L.Tunnels, s: State, k: Key, ttl: int, st: L.Startup) returns (s': State)
    requires Reachable(s) && L.Coherent(v) && Embeds(v, s) && k in v.entries
    ensures Reachable(s') && Embeds(L.Ensure(v, k, ttl, st).0, s') && s'.sweep == s.sweep
  {
    var v' := L.Ensure(v, k, ttl, st).0;
    var p := s.entries[k];
    assert Shows(s, k, v.entries[k]);
    StopsAlike(v.timers, s, p);
    ArmsAlike(L.Stop(v.timers, s.timerOf[p]), StopTimerOf(s, p), k, v.now + ttl);
    s' := RunRefresh(s, k, |v.timers|);
    forall j | j in v'.entries ensures Shows(s', j, v'.entries[j]) {
      assert Shows(s, j, v.entries[j]);
    }
  }

  lemma StartIsARun(v: L.Tunnels, s: State, k: Key, ttl: int, p: Pid) returns (s': State)
    requires Reachable(s) && Embeds(v, s) && k !in v.entries && p !in v.spawned
    ensures Reachable(s') && Embeds(L.Ensure(v, k, ttl, L.Up(p)).0, s') && s'.sweep == s.sweep
  {
    var v' := L.Ensure(v, k, ttl, L.Up(p)).0;
    ArmsAlike(v.timers, s.timers, k, v.now + ttl);
    s' := Raise(s, k, p, |v.timers|);
    forall j | j in v'.entries ensures Shows(s', j, v'.entries[j]) {
      if j != k {
        assert v'.entries[j] == v.entries[j] && Shows(s, j, v.entries[j]);
      }
    }
  }

  lemma FailedStartIsARun(v: L.Tunnels, s: State, k: Key, ttl: int, st: L.Startup) returns (s': State)
    requires Reachable(s) && Embeds(v, s) && k !in v.entries && !st.Up?
    requires st.SpawnFails? || st.pid !in v.spawned
    ensures Reachable(s') && Embeds(L.Ensure(v, k, ttl, st).0, s') && s'.sweep == s.sweep
  {
    if st.SpawnFails? {
      s' := RunFailedSpawn(s, k);
    } else {
      s' := RunEarlyExit(s, k, st.pid);
    }
    forall j | j in v.entries ensures Shows(s', j, v.entries[j]) {
      assert Shows(s, j, v.entries[j]);
    }
  }

  lemma ExitIsARun(v: L.Tunnels, s: State, k: Key, p: Pid) returns (s': State)
    requires Reachable(s) && L.Coherent(v) && Embeds(v, s)
    ensures Reachable(s') && Embeds(L.Exited(v, k, p), s') && s'.sweep == s.sweep
  {
    if k in v.entries && v.entries[k].pid == p {
      var v' := L.Exited(v, k, p);
      assert Shows(s, k, v.entries[k]);
      StopsAlike(v.timers, s, p);
      s' := RunExit(s, k, p);
      forall j | j in v'.entries ensures Shows(s', j, v'.entries[j]) {
        assert Shows(s, j, v.entries[j]);
      }
    } else {
      s' := s;
    }
  }

  // s is v except that the kill id is about to start, for key k.
  ghost predicate EmbedsKill(v: L.Tunnels, s: State, id: KillId, k: Key) {
    id in s.kills && s.kills[id] == AtLock(k) && Embeds(v, s.(kills := s.kills[id := Finished]))
  }

  lemma KillIsARun(v: L.Tunnels, s: State, id: KillId, k: Key) returns (s': State)
    requires Reachable(s) && EmbedsKill(v, s, id, k)
    ensures Reachable(s') && Embeds(L.Kill(v, k), s') && s'.sweep == s.sweep
    ensures s'.kills == s.kills[id := Finished]
  {
    var f := s.(kills := s.kills[id := Finished]);
    var v' := L.Kill(v, k);
    s' := RunKill(s, id);
    if k in v.entries {
      assert Shows(f, k, v.entries[k]);
      StopsAlike(v.timers, f, v.entries[k].pid);
    }
    forall j | j in v'.entries ensures Shows(s', j, v'.entries[j]) {
      assert Shows(f, j, v.entries[j]);
    }
  }

  lemma FireIsARun(v: L.Tunnels, s: State, t: Tid) returns (s': State)
    requires Reachable(s) && Embeds(v, s)
    ensures Reachable(s') && Embeds(L.Fire(v, t), s') && s'.sweep == s.sweep
  {
    if t < |v.timers| && v.timers[t].phase == L.Armed {
      var id := FreshKill(s.kills.Keys);
      var fired := v.(timers := v.timers[t := v.timers[t].(phase := L.Fired)]);
      var s1 := ApplyWorld(s, Fire(t, id));
      ReachStep(s, World(Fire(t, id)));
      forall j | j in v.entries
        ensures Shows(s1.(kills := s1.kills[id := Finished]), j, v.entries[j])
      {
        assert Shows(s, j, v.entries[j]);
      }
      assert EmbedsKill(fired, s1, id, v.timers[t].key);
      s' := KillIsARun(fired, s1, id, v.timers[t].key);
    } else {
      s' := s;
    }
  }

  lemma SweepNextIsARun(v: L.Tunnels, s: State) returns (s': State)
    requires Reachable(s) && Embeds(v, s) && SweepReady(s) && s.sweep.todo != []
    ensures Reachable(s') && Embeds(L.Kill(v, s.sweep.todo[0]), s')
    ensures SweepReady(s') && s'.sweep.todo == s.sweep.todo[1..]
  {
    var id := FreshKill(s.kills.Keys);
    var k := s.sweep.todo[0];
    var s1 := ApplySweep(s, Next(id));
    ReachStep(s, Sweeper(Next(id)));
    forall j | j in v.entries
      ensures Shows(s1.(kills := s1.kills[id := Finished]), j, v.entries[j])
    {
      assert Shows(s, j, v.entries[j]);
    }
    assert EmbedsKill(v, s1, id, k);
    s' := KillIsARun(v, s1, id, k);
  }

  lemma {:induction false} SweepIsARun(v: L.Tunnels, s: State, keys: seq<Key>) returns (s': State)
    requires Reachable(s) && Embeds(v, s) && SweepReady(s) && s.sweep.todo == keys
    ensures Reachable(s') && Embeds(L.KillAll(v, keys), s')
    ensures SweepReady(s') && s'.sweep.todo == []
    decreases keys
  {
    if keys == [] {
      s' := s;
    } else {
      var s1 := SweepNextIsARun(v, s);
      s' := SweepIsARun(L.Kill(v, keys[0]), s1, keys[1..]);
    }
  }

  lemma EmbedsSweep(v: L.Tunnels, s: State, w: Sweep)
    requires Embeds(v, s)
    ensures Embeds(v, s.(sweep := w))
  {
    forall j | j in v.entries ensures Shows(s.(sweep := w), j, v.entries[j]) {
      assert Shows(s, j, v.entries[j]);
    }
  }

  lemma {:induction false} ListsAll(keys: seq<Key>, all: set<Key>)
    requires Distinct(keys) && forall k :: k in keys <==> k in all
    ensures |keys| == |all|
  {
    if keys == [] {
      assert all == {};
    } else {
      var n := |keys| - 1;
      assert keys == keys[..n] + [keys[n]];
      ListsAll(keys[..n], all - {keys[n]});
    }
  }

  lemma KillAllIsARun(v: L.Tunnels, s: State, keys: seq<Key>) returns (s': State)
    requires Reachable(s) && Embeds(v, s) && s.sweep == NoSweep && L.Possible(v, L.OpKillAll(keys))
    ensures Reachable(s') && Embeds(L.KillAll(v, keys), s') && s'.sweep == NoSweep
  {
    ListsAll(keys, s.entries.Keys);
    assert |s.entries| == |s.entries.Keys|;
    ReachStep(s, Sweeper(Snapshot(keys)));
    var s1 := ApplySweep(s, Snapshot(keys));
    EmbedsSweep(v, s, Sweeping(keys, Option.None));
    var s2 := SweepIsARun(v, s1, keys);
    s' := ApplySweep(s2, Done);
    ReachStep(s2, Sweeper(Done));
    EmbedsSweep(L.KillAll(v, keys), s2, NoSweep);
  }

  // ---------------------------------------------------------------- whole runs

  lemma OpIsARun(v: L.Tunnels, s: State, op: L.Op) returns (s': State)
    requires L.Coherent(v) && L.Possible(v, op)
    requires Reachable(s) && Embeds(v, s) && s.sweep == NoSweep
    ensures Reachable(s') && Embeds(L.Do(v, op), s') && s'.sweep == NoSweep
  {
    match op
    case OpEnsure(k, ttl, st) =>
      if k in v.entries {
        s' := RefreshIsARun(v, s, k, ttl, st);
      } else if st.Up? {
        s' := StartIsARun(v, s, k, ttl, st.pid);
      } else {
        s' := FailedStartIsARun(v, s, k, ttl, st);
      }
    case OpExited(k, p) => s' := ExitIsARun(v, s, k, p);
    case OpFire(t) => s' := FireIsARun(v, s, t);
    case OpKillAll(keys) => s' := KillAllIsARun(v, s, keys);
    case OpTick(d) =>
      s' := s;
      forall j | j in v.entries ensures Shows(s, j, v.entries[j]) {
      }
  }

  /** Every state of a coarse run is, with nothing in flight, a reachable state of the
      fine-grained machine. */
  lemma {:induction false} CoarseRunsAreFineRuns(ops: seq<L.Op>, v: L.Tunnels) returns (s: State)
    requires L.RunOps(ops) == Some(v)
    ensures L.Coherent(v)
    ensures Reachable(s) && Embeds(v, s) && s.sweep == NoSweep
  {
    if ops == [] {
      InitReachable();
      s := INIT;
    } else {
      var n := |ops| - 1;
      var u := L.RunOps(ops[..n]).value;
      var m := CoarseRunsAreFineRuns(ops[..n], u);
      L.RefinesLeases(u, ops[n]);
      s := OpIsARun(u, m, ops[n]);
    }
  }

  lemma RegisteredIsUnsignalled(v: L.Tunnels, s: State, k: Key)
    requires Reachable(s) && Embeds(v, s) && k in v.entries
    ensures v.entries[k].pid in v.spawned && v.entries[k].pid !in v.signalled
  {
    var p := v.entries[k].pid;
    ExactlyOneOwner(s);
    assert Shows(s, k, v.entries[k]) && Owns(s, InMap(k), p);
    forall i | 0 <= i < |v.signalled| ensures v.signalled[i] != p {
      assert !Owns(s, Signalled(i), p);
    }
  }

  /** Carried over from the fine-grained machine: on a coarse run no process is signalled
      twice, and none that is registered has been signalled. */
  lemma CoarseConservation(ops: seq<L.Op>, v: L.Tunnels)
    requires L.RunOps(ops) == Some(v)
    ensures Distinct(v.signalled)
    ensures forall k :: k in v.entries ==> v.entries[k].pid in v.spawned && v.entries[k].pid !in v.signalled
  {
    var s := CoarseRunsAreFineRuns(ops, v);
    RemovalIsUnique(s);
    forall k | k in v.entries
      ensures v.entries[k].pid in v.spawned && v.entries[k].pid !in v.signalled
    {
      RegisteredIsUnsignalled(v, s, k);
    }
  }

  /** The races of the fine-grained machine are gone: no tunnel of a coarse run is ever
      threatened by a kill or by a timer that is not its own. */
  lemma CoarseTunnelsAreUnthreatened(ops: seq<L.Op>, v: L.Tunnels) returns (s: State)
    requires L.RunOps(ops) == Some(v)
    ensures Reachable(s) && Embeds(v, s)
    ensures forall k :: k in v.entries ==> Unthreatened(s, k)
  {
    s := CoarseRunsAreFineRuns(ops, v);
    forall k | k in v.entries ensures Unthreatened(s, k) {
      assert Shows(s, k, v.entries[k]);
      forall t | t in s.timers && s.timers[t] == Timer(k, Armed) ensures IsOwnTimer(s, k, t) {
        assert v.timers[t].phase == L.Armed;
      }
    }
  }
}
