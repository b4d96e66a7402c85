/**
 What holds in every reachable state of the fine-grained tunnel machine, whatever the
 interleaving of ensures, timers, kills, exit watchers, process exits and sweeps.
 */
module TunnelTheorems {
  import opened Basics
  import opened TunnelSteps
  import opened TunnelSafety

  // ---------------------------------------------------------------- no immortal tunnel

  predicate OwnTimerArmed(s: State, k: Key, p: Pid) {
    && p in s.timerOf && s.timerOf[p] in s.timers
    && s.timers[s.timerOf[p]] == Timer(k, Armed)
  }

  ghost predicate KillPending(s: State, k: Key) {
    exists id :: id in s.kills && s.kills[id] == AtLock(k)
  }

  // Something is bound to end the tunnel p of key k: its timer, a kill, or the
  // ensure that is just re-arming it.
  ghost predicate Doomed(s: State, k: Key, p: Pid) {
    OwnTimerArmed(s, k, p) || KillPending(s, k) || At(s, k, Halted(p))
  }

  ghost predicate Mortal(s: State) {
    forall k :: k in s.entries ==> Doomed(s, k, s.entries[k])
  }

  lemma StaysDoomedInEnsure(s: State, k: Key, a: EnsureAct, j: Key)
    requires Sane(s) && EnsureEnabled(s, k, a) && j in s.entries && Doomed(s, j, s.entries[j])
    requires k in s.ens ==> PcOk(s, k, s.ens[k])
    ensures var s' := ApplyEnsure(s, k, a); j in s'.entries && Doomed(s', j, s'.entries[j])
  {
    assert HasEntry(s, j, s.entries[j]);
    assert ApplyEnsure(s, k, a).kills == s.kills;
  }

  lemma MortalEnsure(s: State, k: Key, a: EnsureAct)
    requires Sane(s) && Mortal(s) && EnsureEnabled(s, k, a)
    ensures Mortal(ApplyEnsure(s, k, a))
  {
    var s' := ApplyEnsure(s, k, a);
    assert k in s.ens ==> PcOk(s, k, s.ens[k]);
    forall j | j in s'.entries ensures Doomed(s', j, s'.entries[j]) {
      if j in s.entries {
        StaysDoomedInEnsure(s, k, a, j);
      }
    }
  }

  lemma MortalKill(s: State, id: KillId, a: KillAct, owner: map<Pid, Owner>)
    requires Sane(s) && Mortal(s) && Tally(s, owner) && KillEnabled(s, id, a)
    ensures Mortal(ApplyKill(s, id, a))
  {
    var s' := ApplyKill(s, id, a);
    forall j | j in s'.entries ensures Doomed(s', j, s'.entries[j]) {
      assert HasEntry(s, j, s.entries[j]) && Doomed(s, j, s.entries[j]);
      assert Owns(s, InMap(j), s.entries[j]);
      if a.StopTimer? {
        assert Owns(s, ByKill(id), s.kills[id].pid);
      }
      if KillPending(s, j) {
        var other :| other in s.kills && s.kills[other] == AtLock(j);
        assert other != id && s'.kills[other] == AtLock(j);
      }
    }
  }

  lemma StaysDoomed(s: State, a: WorldAct, j: Key)
    requires Sane(s) && WorldEnabled(s, a) && j in s.entries && j in ApplyWorld(s, a).entries
    requires Doomed(s, j, s.entries[j])
    ensures Doomed(ApplyWorld(s, a), j, s.entries[j])
  {
    var s' := ApplyWorld(s, a);
    assert HasEntry(s, j, s.entries[j]);
    if KillPending(s, j) {
      var id :| id in s.kills && s.kills[id] == AtLock(j);
      assert s'.kills[id] == AtLock(j);
    } else if a.Fire? && s.timerOf[s.entries[j]] == a.t {
      assert s'.kills[a.id] == AtLock(j);
    }
  }

  lemma MortalWorld(s: State, a: WorldAct)
    requires Sane(s) && Mortal(s) && WorldEnabled(s, a)
    ensures Mortal(ApplyWorld(s, a))
  {
    var s' := ApplyWorld(s, a);
    forall j | j in s'.entries ensures Doomed(s', j, s'.entries[j]) {
      assert j in s.entries && s'.entries[j] == s.entries[j];
      StaysDoomed(s, a, j);
    }
  }

  lemma MortalSweep(s: State, a: SweepAct)
    requires Sane(s) && Mortal(s) && SweepEnabled(s, a)
    ensures Mortal(ApplySweep(s, a))
  {
    var s' := ApplySweep(s, a);
    forall j | j in s'.entries ensures Doomed(s', j, s'.entries[j]) {
      assert Doomed(s, j, s.entries[j]);
      if KillPending(s, j) {
        var id :| id in s.kills && s.kills[id] == AtLock(j);
        assert s'.kills[id] == AtLock(j);
      }
    }
  }

  lemma MortalStep(s: State, e: Step, owner: map<Pid, Owner>)
    requires Sane(s) && Mortal(s) && Tally(s, owner) && Enabled(s, e)
    ensures Mortal(Apply(s, e))
  {
    match e
    case Ensure(k, a) => MortalEnsure(s, k, a);
    case Killing(id, a) => MortalKill(s, id, a, owner);
    case World(a) => MortalWorld(s, a);
    case Sweeper(a) => MortalSweep(s, a);
  }

  // ---------------------------------------------------------------- the removal record

  // Spawned, and by now neither with the in-flight ensure nor in the map.
  predicate Past(s: State, p: Pid) {
    && p in s.procs
    && !Owns(s, ByEnsure(s.procs[p].key), p)
    && !Owns(s, InMap(s.procs[p].key), p)
  }

  ghost predicate Recorded(s: State) {
    && (forall r :: r in s.removals ==> Past(s, r.pid))
    && (forall i, j :: 0 <= i < j < |s.removals| ==> s.removals[i].pid != s.removals[j].pid)
    && (forall id, p :: Owns(s, ByKill(id), p) ==> Removal(p, Kill(id)) in s.removals)
    && (forall g :: g in s.signals ==> Removal(g.pid, Kill(g.kill)) in s.removals)
  }

  lemma PastEnsure(s: State, k: Key, a: EnsureAct, p: Pid)
    requires Sane(s) && EnsureEnabled(s, k, a) && Past(s, p)
    ensures Past(ApplyEnsure(s, k, a), p)
  {
    assert k in s.ens ==> PcOk(s, k, s.ens[k]);
  }

  lemma PastKill(s: State, id: KillId, a: KillAct, p: Pid)
    requires Sane(s) && Past(s, p) && KillEnabled(s, id, a)
    ensures Past(ApplyKill(s, id, a), p)
  {
  }

  lemma PastWorld(s: State, a: WorldAct, p: Pid)
    requires Sane(s) && Past(s, p) && WorldEnabled(s, a)
    ensures Past(ApplyWorld(s, a), p)
  {
  }

  lemma PastStep(s: State, e: Step, p: Pid)
    requires Sane(s) && Enabled(s, e) && Past(s, p)
    ensures Past(Apply(s, e), p)
  {
    match e
    case Ensure(k, a) => PastEnsure(s, k, a, p);
    case Killing(id, a) => PastKill(s, id, a, p);
    case World(a) => PastWorld(s, a, p);
    case Sweeper(a) => assert Past(ApplySweep(s, a), p);
  }

  lemma RecordedEnsure(s: State, k: Key, a: EnsureAct)
    requires Sane(s) && Recorded(s) && EnsureEnabled(s, k, a)
    ensures Recorded(ApplyEnsure(s, k, a))
  {
    var s' := ApplyEnsure(s, k, a);
    assert k in s.ens ==> PcOk(s, k, s.ens[k]);
    forall r | r in s.removals ensures Past(s', r.pid) {
      PastEnsure(s, k, a, r.pid);
    }
    forall id, p | Owns(s', ByKill(id), p) ensures Removal(p, Kill(id)) in s.removals {
      assert Owns(s, ByKill(id), p);
    }
  }

  lemma RecordedKill(s: State, id: KillId, a: KillAct)
    requires Sane(s) && Recorded(s) && KillEnabled(s, id, a)
    ensures Recorded(ApplyKill(s, id, a))
  {
    var s' := ApplyKill(s, id, a);
    assert a.Sigterm? ==> Owns(s, ByKill(id), s.kills[id].pid);
    if a.Lock? && s.kills[id].key in s.entries {
      assert HasEntry(s, s.kills[id].key, s.entries[s.kills[id].key]);
      assert s'.removals[|s.removals|] == Removal(s.entries[s.kills[id].key], Kill(id));
    }
    forall j, p | Owns(s', ByKill(j), p) ensures Removal(p, Kill(j)) in s'.removals {
      assert Owns(s, ByKill(j), p) ==> Removal(p, Kill(j)) in s.removals;
    }
  }

  lemma RecordedWorld(s: State, a: WorldAct)
    requires Sane(s) && Recorded(s) && WorldEnabled(s, a)
    ensures Recorded(ApplyWorld(s, a))
  {
    var s' := ApplyWorld(s, a);
    if a.Wake? && Owns(s, InMap(s.procs[a.p].key), a.p) {
      assert s'.removals == s.removals + [Removal(a.p, Watcher)] && s'.kills == s.kills;
      forall r | r in s'.removals ensures Past(s', r.pid) {
        assert r in s.removals || r.pid == a.p;
      }
    } else {
      assert s'.removals == s.removals && s'.entries == s.entries;
      forall r | r in s'.removals ensures Past(s', r.pid) {
        assert Past(s, r.pid);
      }
    }
    forall j, p | Owns(s', ByKill(j), p) ensures Removal(p, Kill(j)) in s'.removals {
      assert Owns(s, ByKill(j), p);
    }
  }

  lemma RecordedSweep(s: State, a: SweepAct)
    requires Recorded(s) && SweepEnabled(s, a)
    ensures Recorded(ApplySweep(s, a))
  {
    var s' := ApplySweep(s, a);
    forall j, p | Owns(s', ByKill(j), p) ensures Removal(p, Kill(j)) in s.removals {
      assert Owns(s, ByKill(j), p);
    }
  }

  lemma RecordedStep(s: State, e: Step)
    requires Sane(s) && Recorded(s) && Enabled(s, e)
    ensures Recorded(Apply(s, e))
  {
    match e
    case Ensure(k, a) => RecordedEnsure(s, k, a);
    case Killing(id, a) => RecordedKill(s, id, a);
    case World(a) => RecordedWorld(s, a);
    case Sweeper(a) => RecordedSweep(s, a);
  }

  // A reaped process has exited; if it ever was in the map, its watcher removed it.
  ghost predicate ReapedOk(s: State) {
    && (forall p :: p in s.reaped ==> p in s.procs && s.procs[p].exited)
    && (forall p :: p in s.reaped && p in s.timerOf ==> Removal(p, Watcher) in s.removals)
    && (forall r :: r in s.removals && r.remover == Watcher ==> r.pid in s.reaped)
  }

  lemma ReapedEnsure(s: State, k: Key, a: EnsureAct, owner: map<Pid, Owner>)
    requires Sane(s) && Tally(s, owner) && ReapedOk(s) && EnsureEnabled(s, k, a)
    ensures ReapedOk(ApplyEnsure(s, k, a))
  {
    assert k in s.ens ==> PcOk(s, k, s.ens[k]);
    if a.Insert? {
      assert Owns(s, ByEnsure(k), s.ens[k].pid);
      assert !Owns(s, Reaped, s.ens[k].pid);
    }
  }

  lemma ReapedWorld(s: State, a: WorldAct)
    requires ReapedOk(s) && WorldEnabled(s, a)
    ensures ReapedOk(ApplyWorld(s, a))
  {
    var s' := ApplyWorld(s, a);
    if s'.removals != s.removals {
      assert s'.removals[|s.removals|] == Removal(a.p, Watcher);
    }
  }

  lemma ReapedKill(s: State, id: KillId, a: KillAct)
    requires ReapedOk(s) && KillEnabled(s, id, a)
    ensures ReapedOk(ApplyKill(s, id, a))
  {
  }

  lemma ReapedStep(s: State, e: Step, owner: map<Pid, Owner>)
    requires Sane(s) && Tally(s, owner) && ReapedOk(s) && Enabled(s, e)
    ensures ReapedOk(Apply(s, e))
  {
    match e
    case Ensure(k, a) => ReapedEnsure(s, k, a, owner);
    case Killing(id, a) => ReapedKill(s, id, a);
    case World(a) => ReapedWorld(s, a);
    case Sweeper(a) => assert ReapedOk(ApplySweep(s, a));
  }

  // An exit of a registered process is always going to be noticed.
  ghost predicate Watched(s: State) {
    forall k :: k in s.entries ==> s.entries[k] in s.watching || At(s, k, Inserted(s.entries[k]))
  }

  lemma WatchedEnsure(s: State, k: Key, a: EnsureAct)
    requires Sane(s) && Watched(s) && EnsureEnabled(s, k, a)
    ensures Watched(ApplyEnsure(s, k, a))
  {
  }

  lemma WatchedKill(s: State, id: KillId, a: KillAct)
    requires Sane(s) && Watched(s) && KillEnabled(s, id, a)
    ensures Watched(ApplyKill(s, id, a))
  {
  }

  lemma WatchedWorld(s: State, a: WorldAct)
    requires Sane(s) && Watched(s) && WorldEnabled(s, a)
    ensures Watched(ApplyWorld(s, a))
  {
  }

  lemma WatchedStep(s: State, e: Step)
    requires Sane(s) && Watched(s) && Enabled(s, e)
    ensures Watched(Apply(s, e))
  {
    match e
    case Ensure(k, a) => WatchedEnsure(s, k, a);
    case Killing(id, a) => WatchedKill(s, id, a);
    case World(a) => WatchedWorld(s, a);
    case Sweeper(a) => assert Watched(ApplySweep(s, a));
  }

  // ---------------------------------------------------------------- refreshes in flight

  predicate TimerArmed(s: State, p: Pid) {
    p in s.timerOf && s.timerOf[p] in s.timers && s.timers[s.timerOf[p]].phase == Armed
  }

  // While an ensure refreshes the tunnel it found, no other takes its place, and between Stop
  // and re-arm its timer is not armed.
  predicate RefreshOk(s: State, k: Key, pc: EnsurePc) {
    match pc
    case Checked(Some(p)) => k in s.entries ==> s.entries[k] == p
    case Halted(p) => (k in s.entries ==> s.entries[k] == p) && !TimerArmed(s, p)
    case _ => true
  }

  ghost predicate Refreshing(s: State) {
    forall k :: k in s.ens ==> RefreshOk(s, k, s.ens[k])
  }

  lemma RefreshingEnsure(s: State, k: Key, a: EnsureAct)
    requires Sane(s) && Refreshing(s) && EnsureEnabled(s, k, a)
    ensures Refreshing(ApplyEnsure(s, k, a))
  {
    var s' := ApplyEnsure(s, k, a);
    assert k in s.ens ==> PcOk(s, k, s.ens[k]) && RefreshOk(s, k, s.ens[k]);
    forall j | j in s'.ens ensures RefreshOk(s', j, s'.ens[j]) {
      assert j in s.ens ==> PcOk(s, j, s.ens[j]) && RefreshOk(s, j, s.ens[j]);
    }
  }

  lemma RefreshingKill(s: State, id: KillId, a: KillAct)
    requires Sane(s) && Refreshing(s) && KillEnabled(s, id, a)
    ensures Refreshing(ApplyKill(s, id, a))
  {
  }

  lemma RefreshingWorld(s: State, a: WorldAct)
    requires Sane(s) && Refreshing(s) && WorldEnabled(s, a)
    ensures Refreshing(ApplyWorld(s, a))
  {
  }

  lemma RefreshingStep(s: State, e: Step)
    requires Sane(s) && Refreshing(s) && Enabled(s, e)
    ensures Refreshing(Apply(s, e))
  {
    match e
    case Ensure(k, a) => RefreshingEnsure(s, k, a);
    case Killing(id, a) => RefreshingKill(s, id, a);
    case World(a) => RefreshingWorld(s, a);
    case Sweeper(a) => assert Refreshing(ApplySweep(s, a));
  }

  // ---------------------------------------------------------------- every reachable state

  ghost predicate Inv(s: State, owner: map<Pid, Owner>) {
    Sane(s) && Tally(s, owner) && Mortal(s) && Watched(s) && Recorded(s) && ReapedOk(s) && Refreshing(s)
  }

  lemma {:induction false} InvAfter(s0: State, steps: seq<Step>, s: State, owner0: map<Pid, Owner>)
    returns (owner: map<Pid, Owner>)
    requires Inv(s0, owner0) && Exec(s0, steps) == Some(s)
    ensures Inv(s, owner)
  {
    if steps == [] {
      owner := owner0;
    } else {
      var n := |steps| - 1;
      var m := Exec(s0, steps[..n]).value;
      var before := InvAfter(s0, steps[..n], m, owner0);
      SaneStep(m, steps[n]);
      MortalStep(m, steps[n], before);
      WatchedStep(m, steps[n]);
      RecordedStep(m, steps[n]);
      ReapedStep(m, steps[n], before);
      RefreshingStep(m, steps[n]);
      owner := TallyStep(m, steps[n], before);
    }
  }

  lemma ReachableInv(s: State) returns (owner: map<Pid, Owner>)
    requires Reachable(s)
    ensures Inv(s, owner)
  {
    var steps :| Exec(INIT, steps) == Some(s);
    owner := InvAfter(INIT, steps, s, map[]);
  }
}
