/**
 When a tunnel of the fine-grained machine lives as long as its own timer: exactly while no
 kill of its key is pending and no other timer of its key is armed.
 */
module TunnelThreats {
  import opened Basics
  import opened TunnelSteps
  import opened TunnelSafety
  import opened TunnelTheorems
  import opened TunnelResults
  import opened TunnelSweep

  predicate IsOwnTimer(s: State, k: Key, t: Tid) {
    k in s.entries && s.entries[k] in s.timerOf && s.timerOf[s.entries[k]] == t
  }

  // Every armed timer of the key is the registered tunnel's own.
  ghost predicate NoStrayTimer(s: State, k: Key) {
    forall t :: t in s.timers && s.timers[t] == Timer(k, Armed) ==> IsOwnTimer(s, k, t)
  }

  ghost predicate Unthreatened(s: State, k: Key) {
    k in s.entries && !KillPending(s, k) && NoStrayTimer(s, k)
  }

  // What may rightly end the tunnel of k: its own timer fires, its own watcher wakes up
  // because its process has exited, or the shutdown sweep gets to it.
  predicate Ends(s: State, e: Step, k: Key) {
    && k in s.entries
    && (|| (e.World? && e.world.Fire? && IsOwnTimer(s, k, e.world.t))
        || e == World(Wake(s.entries[k]))
        || (e.Sweeper? && e.sweep.Next? && s.sweep.Sweeping? && s.sweep.todo != [] && s.sweep.todo[0] == k))
  }

  // ---------------------------------------------------------------- every step

  lemma UnthreatenedEnsure(s: State, j: Key, a: EnsureAct, k: Key)
    requires Sane(s) && Refreshing(s) && Unthreatened(s, k) && EnsureEnabled(s, j, a)
    ensures Unthreatened(ApplyEnsure(s, j, a), k)
  {
    var s' := ApplyEnsure(s, j, a);
    assert HasEntry(s, k, s.entries[k]);
    assert j in s.ens ==> PcOk(s, j, s.ens[j]) && RefreshOk(s, j, s.ens[j]);
    assert s'.kills == s.kills;
    forall t | t in s'.timers && s'.timers[t] == Timer(k, Armed) ensures IsOwnTimer(s', k, t) {
      assert t in s.timers && s.timers[t] == Timer(k, Armed) ==> IsOwnTimer(s, k, t);
    }
  }

  lemma UnthreatenedKill(s: State, id: KillId, a: KillAct, k: Key)
    requires Sane(s) && Unthreatened(s, k) && KillEnabled(s, id, a)
    ensures Unthreatened(ApplyKill(s, id, a), k)
  {
    var s' := ApplyKill(s, id, a);
    forall t | t in s'.timers && s'.timers[t] == Timer(k, Armed) ensures IsOwnTimer(s', k, t) {
      assert IsOwnTimer(s, k, t);
    }
  }

  lemma UnthreatenedWorld(s: State, a: WorldAct, k: Key)
    requires Sane(s) && Unthreatened(s, k) && WorldEnabled(s, a) && !Ends(s, World(a), k)
    ensures Unthreatened(ApplyWorld(s, a), k)
  {
    var s' := ApplyWorld(s, a);
    forall t | t in s'.timers && s'.timers[t] == Timer(k, Armed) ensures IsOwnTimer(s', k, t) {
      assert IsOwnTimer(s, k, t);
    }
    assert a.Fire? ==> s.timers[a.t] != Timer(k, Armed);
  }

  lemma UnthreatenedSweep(s: State, a: SweepAct, k: Key)
    requires Unthreatened(s, k) && SweepEnabled(s, a) && !Ends(s, Sweeper(a), k)
    ensures Unthreatened(ApplySweep(s, a), k)
  {
    var s' := ApplySweep(s, a);
    forall t | t in s'.timers && s'.timers[t] == Timer(k, Armed) ensures IsOwnTimer(s', k, t) {
      assert IsOwnTimer(s, k, t);
    }
  }

  /** An unthreatened tunnel stays registered and unthreatened in every step but the three
      that may rightly end it, whatever refreshes, other timers and kills are doing. */
  lemma UnthreatenedStep(s: State, e: Step, k: Key)
    requires Sane(s) && Refreshing(s) && Unthreatened(s, k) && Enabled(s, e) && !Ends(s, e, k)
    ensures Unthreatened(Apply(s, e), k) && Keeps(s, Apply(s, e), k)
  {
    KeepsUnlessEvicted(s, e, k);
    match e
    case Ensure(j, a) => UnthreatenedEnsure(s, j, a, k);
    case Killing(id, a) => UnthreatenedKill(s, id, a, k);
    case World(a) => UnthreatenedWorld(s, a, k);
    case Sweeper(a) => UnthreatenedSweep(s, a, k);
  }

  // ---------------------------------------------------------------- every run

  // A run in which nothing happens that may rightly end the tunnel of k.
  ghost predicate Undisturbed(s: State, steps: seq<Step>, k: Key) {
    steps == [] ||
    var n := |steps| - 1;
    && Undisturbed(s, steps[..n], k)
    && Exec(s, steps[..n]).Some? && !Ends(Exec(s, steps[..n]).value, steps[n], k)
  }

  lemma {:induction false} UnthreatenedAfter(s0: State, steps: seq<Step>, s: State, k: Key, owner: map<Pid, Owner>)
    requires Inv(s0, owner) && Unthreatened(s0, k)
    requires Exec(s0, steps) == Some(s) && Undisturbed(s0, steps, k)
    ensures Unthreatened(s, k) && Keeps(s0, s, k)
  {
    if steps == [] {
    } else {
      var n := |steps| - 1;
      var m := Exec(s0, steps[..n]).value;
      UnthreatenedAfter(s0, steps[..n], m, k, owner);
      var _ := InvAfter(s0, steps[..n], m, owner);
      UnthreatenedStep(m, steps[n], k);
    }
  }

  lemma ExecOne(s: State, e: Step, k: Key)
    requires Enabled(s, e) && !Ends(s, e, k)
    ensures Exec(s, [e]) == Some(Apply(s, e)) && Undisturbed(s, [e], k)
  {
    assert [e][..0] == [];
  }

  lemma ExecTwo(s: State, e: Step, f: Step, k: Key)
    requires Enabled(s, e) && !Ends(s, e, k) && Enabled(Apply(s, e), f) && !Ends(Apply(s, e), f, k)
    ensures Exec(s, [e, f]) == Some(Apply(Apply(s, e), f)) && Undisturbed(s, [e, f], k)
  {
    ExecOne(s, e, k);
    assert [e, f][..1] == [e];
  }

  /** A threatened tunnel can be gone within two steps, although its own timer has not fired,
      its watcher has not woken up and the sweep has not got to it. */
  lemma ThreatenedCanEnd(s: State, k: Key) returns (steps: seq<Step>)
    requires k in s.entries && !Unthreatened(s, k)
    ensures |steps| <= 2 && Undisturbed(s, steps, k)
    ensures Exec(s, steps).Some? && k !in Exec(s, steps).value.entries
  {
    if KillPending(s, k) {
      var id :| id in s.kills && s.kills[id] == AtLock(k);
      steps := [Killing(id, Lock)];
      ExecOne(s, Killing(id, Lock), k);
    } else {
      var t :| t in s.timers && s.timers[t] == Timer(k, Armed) && !IsOwnTimer(s, k, t);
      var id := FreshKill(s.kills.Keys);
      steps := [World(Fire(t, id)), Killing(id, Lock)];
      ExecTwo(s, World(Fire(t, id)), Killing(id, Lock), k);
    }
  }

  /** The exact condition under which a registered tunnel lives until its own timer fires, its
      own process exits or the shutdown sweep gets to it, in every interleaving: no kill of its
      key is pending and no other timer of its key is armed. */
  lemma LivesToItsOwnEndIff(s: State, k: Key)
    requires Reachable(s) && k in s.entries
    ensures Unthreatened(s, k) <==>
      forall steps :: Exec(s, steps).Some? && Undisturbed(s, steps, k) ==> Keeps(s, Exec(s, steps).value, k)
  {
    var owner := ReachableInv(s);
    if Unthreatened(s, k) {
      forall steps | Exec(s, steps).Some? && Undisturbed(s, steps, k)
        ensures Keeps(s, Exec(s, steps).value, k)
      {
        UnthreatenedAfter(s, steps, Exec(s, steps).value, k, owner);
      }
    } else {
      var steps := ThreatenedCanEnd(s, k);
      assert !Keeps(s, Exec(s, steps).value, k);
    }
  }

  lemma Rearmed(s: State, k: Key, t: Tid)
    requires EnsureEnabled(s, k, Rearm(t)) && At(s, k, Halted(s.ens[k].pid))
    requires k in s.entries && s.entries[k] == s.ens[k].pid
    ensures Unthreatened(ApplyEnsure(s, k, Rearm(t)), k) <==>
      !KillPending(s, k) && forall u :: u in s.timers ==> s.timers[u] != Timer(k, Armed)
  {
    var s' := ApplyEnsure(s, k, Rearm(t));
    assert IsOwnTimer(s', k, t) && s'.kills == s.kills;
    assert forall u :: u in s.timers ==> s'.timers[u] == s.timers[u];
  }

  /** A refresh that finds its tunnel still registered leaves it unthreatened exactly if the
      old timer, stopped, was the only one armed and no timer's kill was on its way. */
  lemma RefreshLeavesUnthreatenedIff(s: State, k: Key, t: Tid)
    requires Reachable(s) && Enabled(s, Ensure(k, Rearm(t))) && k in s.entries
    ensures Unthreatened(Apply(s, Ensure(k, Rearm(t))), k) <==>
      !KillPending(s, k) && forall u :: u in s.timers ==> s.timers[u] != Timer(k, Armed)
  {
    var _ := ReachableInv(s);
    assert PcOk(s, k, s.ens[k]) && RefreshOk(s, k, s.ens[k]);
    Rearmed(s, k, t);
  }
}
