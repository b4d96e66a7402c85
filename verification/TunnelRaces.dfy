/**
 Runs that show what the fine-grained machine does not promise: ensureProcessProxy looks the
 entry up under the lock (internal/proxy/manager.go:155-157) but re-arms its timer after
 releasing it (158-161), and the sweep visits the keys of its snapshot only (229-239).
 */
module TunnelRaces {
  import opened Basics
  import opened TunnelSteps
  import opened TunnelTheorems

  lemma ReachStep(s: State, e: Step)
    requires Reachable(s) && Enabled(s, e)
    ensures Reachable(Apply(s, e))
  {
    var steps :| Exec(INIT, steps) == Some(s);
    assert (steps + [e])[..|steps|] == steps;
    assert Exec(INIT, steps + [e]) == Some(Apply(s, e));
  }

  lemma InitReachable()
    ensures Reachable(INIT)
  {
    assert Exec(INIT, []) == Some(INIT);
  }

  // A process p for key k is spawned and survives its startup window.
  lemma Launch(s: State, k: Key, p: Pid) returns (s': State)
    requires Reachable(s) && k !in s.ens && k !in s.entries && p !in s.procs
    ensures Reachable(s')
    ensures s' == s.(procs := s.procs[p := Process(k, false)], ens := s.ens[k := Started(p)])
  {
    var s1 := ApplyEnsure(s, k, Call);
    ReachStep(s, Ensure(k, Call));
    var s2 := ApplyEnsure(s1, k, Spawn(p));
    ReachStep(s1, Ensure(k, Spawn(p)));
    s' := ApplyEnsure(s2, k, Elapsed);
    ReachStep(s2, Ensure(k, Elapsed));
  }

  // It is registered with TTL timer t, and the ensure returns.
  lemma Raise(s: State, k: Key, p: Pid, t: Tid) returns (s': State)
    requires Reachable(s) && k !in s.ens && k !in s.entries && p !in s.procs && t !in s.timers
    ensures Reachable(s')
    ensures s' == s.(procs := s.procs[p := Process(k, false)],
                     timers := s.timers[t := Timer(k, Armed)],
                     timerOf := s.timerOf[p := t],
                     entries := s.entries[k := p],
                     watching := s.watching + {p})
  {
    var s1 := Launch(s, k, p);
    var s2 := ApplyEnsure(s1, k, Insert(t));
    ReachStep(s1, Ensure(k, Insert(t)));
    s' := ApplyEnsure(s2, k, Watch);
    ReachStep(s2, Ensure(k, Watch));
    assert s'.ens == s.ens;
  }

  // A refresh of tunnel 0 has looked it up, and then its timer fires.
  lemma FireDuringRefresh() returns (s: State)
    ensures Reachable(s)
    ensures s == INIT.(procs := map[0 := Process("k", false)], timers := map[0 := Timer("k", Fired)],
                       timerOf := map[0 := 0], entries := map["k" := 0], watching := {0},
                       ens := map["k" := Checked(Some(0))], kills := map[0 := AtLock("k")])
  {
    InitReachable();
    var s0 := Raise(INIT, "k", 0, 0);
    var s1 := ApplyEnsure(s0, "k", Call);
    ReachStep(s0, Ensure("k", Call));
    s := ApplyWorld(s1, Fire(0, 0));
    ReachStep(s1, World(Fire(0, 0)));
  }

  // A refresh of tunnel 0 whose entry a timer kill removes between lookup and Stop.
  lemma LoseDuringRefresh() returns (s: State)
    ensures Reachable(s) && At(s, "k", Halted(0)) && s.entries == map[] && s.sweep == NoSweep
    ensures s.procs.Keys == {0} && s.timers.Keys == {0} && s.kills.Keys == {0}
    ensures s.ens.Keys == {"k"}
  {
    var s0 := FireDuringRefresh();
    var s1 := ApplyKill(s0, 0, Lock);
    ReachStep(s0, Killing(0, Lock));
    s := ApplyEnsure(s1, "k", StopOld);
    ReachStep(s1, Ensure("k", StopOld));
  }

  /** EnsureProxy can return success for a tunnel that is no longer registered. */
  lemma RefreshCanReturnWithoutTunnel()
    ensures exists s, k, t ::
              Reachable(s) && Enabled(s, Ensure(k, Rearm(t))) && k !in Apply(s, Ensure(k, Rearm(t))).entries
  {
    var s := LoseDuringRefresh();
    assert Enabled(s, Ensure("k", Rearm(1))) && "k" !in Apply(s, Ensure("k", Rearm(1))).entries;
  }

  lemma RaiseAfterLoss() returns (s: State)
    ensures Reachable(s) && s.sweep == NoSweep && s.kills.Keys == {0}
    ensures s.entries == map["k" := 1] && OwnTimerArmed(s, "k", 1)
    ensures 1 in s.timers && s.timers[1] == Timer("k", Armed) && s.timerOf[1] == 2
  {
    var s0 := LoseDuringRefresh();
    var s1 := ApplyEnsure(s0, "k", Rearm(1));
    ReachStep(s0, Ensure("k", Rearm(1)));
    s := Raise(s1, "k", 1, 2);
  }

  ghost predicate KilledEarly(s: State, id: KillId, k: Key) {
    && Reachable(s) && s.sweep == NoSweep
    && k in s.entries && OwnTimerArmed(s, k, s.entries[k])
    && Enabled(s, Killing(id, Lock)) && s.kills[id] == AtLock(k)
  }

  /** The timer such a refresh arms belongs to no registered tunnel, and can later kill a
      newer tunnel of the same key whose own timer is still armed. */
  lemma StrayTimerCanKillNewerTunnel()
    ensures exists s, id, k :: KilledEarly(s, id, k)
  {
    var s0 := RaiseAfterLoss();
    var s := ApplyWorld(s0, Fire(1, 1));
    ReachStep(s0, World(Fire(1, 1)));
    assert KilledEarly(s, 1, "k");
  }

  // A registered tunnel, never removed, whose own timer is the one armed timer of its key,
  // with no operation in flight but a kill of the key that is about to remove it.
  ghost predicate RefreshedInVain(s: State, id: KillId, k: Key) {
    && Reachable(s) && s.sweep == NoSweep && s.ens == map[] && s.removals == []
    && k in s.entries && OwnTimerArmed(s, k, s.entries[k])
    && (forall t :: t in s.timers && s.timers[t] == Timer(k, Armed) ==> t == s.timerOf[s.entries[k]])
    && Enabled(s, Killing(id, Lock)) && s.kills[id] == AtLock(k)
  }

  /** The kill of a timer that fires just before the refresh stops it outlives the refresh: no
      stray timer is needed to kill a tunnel that has just been refreshed. */
  lemma PendingKillOutlivesRefresh()
    ensures exists s, id, k :: RefreshedInVain(s, id, k)
  {
    var s0 := FireDuringRefresh();
    var s1 := ApplyEnsure(s0, "k", StopOld);
    ReachStep(s0, Ensure("k", StopOld));
    var s := ApplyEnsure(s1, "k", Rearm(1));
    ReachStep(s1, Ensure("k", Rearm(1)));
    assert RefreshedInVain(s, 0, "k");
  }

  /** A tunnel inserted after the snapshot survives the sweep. */
  lemma SweepCanMissLaterInsert()
    ensures exists s :: Reachable(s) && Enabled(s, Sweeper(Done)) && s.entries != map[]
  {
    InitReachable();
    var s0 := ApplySweep(INIT, Snapshot([]));
    ReachStep(INIT, Sweeper(Snapshot([])));
    var s := Raise(s0, "k", 0, 0);
    assert "k" in s.entries;
    assert Enabled(s, Sweeper(Done));
  }
}
