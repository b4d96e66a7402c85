/**
 The main results about the fine-grained tunnel machine.  All are about every reachable
 state, hence about every interleaving.
 */
module TunnelResults {
  import opened Basics
  import opened TunnelSteps
  import opened TunnelSafety
  import opened TunnelTheorems

  /** A registered tunnel always has its own timer armed, or a kill of its key pending, or
      its ensure exactly between Stop and re-arm; and somebody will notice its exit. */
  lemma NoImmortalTunnel(s: State)
    requires Reachable(s)
    ensures forall k :: k in s.entries ==> Doomed(s, k, s.entries[k])
    ensures forall k :: k in s.entries ==>
      s.entries[k] in s.watching || At(s, k, Inserted(s.entries[k]))
  {
    var _ := ReachableInv(s);
  }

  /** Processes are conserved: each spawned process has exactly one owner. */
  lemma ExactlyOneOwner(s: State)
    requires Reachable(s)
    ensures forall p :: p in s.procs ==> exists o :: Owns(s, o, p)
    ensures forall o, p :: Owns(s, o, p) ==> p in s.procs
    ensures forall o1, o2, p :: Owns(s, o1, p) && Owns(s, o2, p) ==> o1 == o2
  {
    var owner := ReachableInv(s);
    forall p | p in s.procs ensures exists o :: Owns(s, o, p) {
      assert Owns(s, owner[p], p);
    }
  }

  predicate Live(s: State, k: Key, p: Pid) {
    Owns(s, ByEnsure(k), p) || Owns(s, InMap(k), p)
  }

  /** At most one process per key is starting up or registered. */
  lemma OneLivePerKey(s: State, k: Key, p: Pid, q: Pid)
    requires Reachable(s) && Live(s, k, p) && Live(s, k, q)
    ensures p == q
  {
    var _ := ReachableInv(s);
  }

  // No ensure and no kill is in the middle of its work.
  ghost predicate Quiet(s: State) {
    s.ens == map[] && forall id :: id in s.kills ==> s.kills[id].AtLock? || s.kills[id] == Finished
  }

  /** With no operation in flight, every running, unsignalled process is registered under
      its own key: none has leaked. */
  lemma NoLeakWhenQuiet(s: State, p: Pid)
    requires Reachable(s) && Quiet(s)
    requires p in s.procs && !s.procs[p].exited && forall g :: g in s.signals ==> g.pid != p
    ensures s.procs[p].key in s.entries && s.entries[s.procs[p].key] == p
  {
    var owner := ReachableInv(s);
    assert Owns(s, owner[p], p);
  }

  /** An insert never overwrites an entry, nor inserts a process that was ever removed. */
  lemma InsertIsFresh(s: State, k: Key, t: Tid)
    requires Reachable(s) && Enabled(s, Ensure(k, Insert(t)))
    ensures k !in s.entries
    ensures forall r :: r in s.removals ==> r.pid != s.ens[k].pid
  {
    var _ := ReachableInv(s);
    assert Owns(s, ByEnsure(k), s.ens[k].pid);
  }

  /** Each entry is removed at most once; each process gets at most one SIGTERM, and only
      from the kill that removed it; a watcher removes only a process that has exited. */
  lemma RemovalIsUnique(s: State)
    requires Reachable(s)
    ensures forall i, j :: 0 <= i < j < |s.removals| ==> s.removals[i].pid != s.removals[j].pid
    ensures forall i, j :: 0 <= i < j < |s.signals| ==> s.signals[i].pid != s.signals[j].pid
    ensures forall g :: g in s.signals ==> Removal(g.pid, Kill(g.kill)) in s.removals
    ensures forall r :: r in s.removals && r.remover == Watcher ==>
      r.pid in s.procs && s.procs[r.pid].exited
  {
    var owner := ReachableInv(s);
    forall i, j | 0 <= i < j < |s.signals| ensures s.signals[i].pid != s.signals[j].pid {
      assert Owns(s, Signalled(i), s.signals[i].pid) && Owns(s, Signalled(j), s.signals[j].pid);
    }
  }

  lemma {:induction false} PastAfter(s0: State, steps: seq<Step>, s: State, p: Pid, owner0: map<Pid, Owner>)
    requires Inv(s0, owner0) && Exec(s0, steps) == Some(s) && Past(s0, p)
    ensures Past(s, p)
  {
    if steps == [] {
    } else {
      var n := |steps| - 1;
      var m := Exec(s0, steps[..n]).value;
      PastAfter(s0, steps[..n], m, p, owner0);
      var _ := InvAfter(s0, steps[..n], m, owner0);
      PastStep(m, steps[n], p);
    }
  }

  /** A process that has left the map, or never got into it, never comes back. */
  lemma {:induction false} PastForGood(s0: State, steps: seq<Step>, s: State, p: Pid)
    requires Reachable(s0) && Exec(s0, steps) == Some(s) && Past(s0, p)
    ensures Past(s, p)
  {
    var owner0 := ReachableInv(s0);
    PastAfter(s0, steps, s, p, owner0);
  }

  // The steps that take the entry of k out of the map.
  predicate Evicts(s: State, e: Step, k: Key)
    requires k in s.entries
  {
    || (e.Killing? && e.kill == Lock && e.id in s.kills && s.kills[e.id] == AtLock(k))
    || e == World(Wake(s.entries[k]))
  }

  predicate Keeps(s: State, s': State, k: Key)
    requires k in s.entries
  {
    k in s'.entries && s'.entries[k] == s.entries[k]
  }

  lemma KeepsUnlessEvicted(s: State, e: Step, k: Key)
    requires Sane(s) && Enabled(s, e) && k in s.entries
    ensures Keeps(s, Apply(s, e), k) <==> !Evicts(s, e, k)
  {
    match e
    case Ensure(j, a) =>
      assert j in s.ens ==> PcOk(s, j, s.ens[j]);
      assert Keeps(s, ApplyEnsure(s, j, a), k);
    case Killing(id, a) => assert Keeps(s, ApplyKill(s, id, a), k) <==> !Evicts(s, e, k);
    case World(a) =>
      assert HasEntry(s, k, s.entries[k]);
      assert Keeps(s, ApplyWorld(s, a), k) <==> !Evicts(s, e, k);
    case Sweeper(a) => assert Keeps(s, ApplySweep(s, a), k);
  }

  /** An entry leaves the map exactly through a kill of its key, or through its own watcher,
      which has seen its own process exit: a late watcher never removes a newer entry. */
  lemma EvictedOnlyByKillOrOwnWatcher(s: State, e: Step, k: Key)
    requires Reachable(s) && Enabled(s, e) && k in s.entries
    ensures Keeps(s, Apply(s, e), k) <==> !Evicts(s, e, k)
    ensures e.World? && Evicts(s, e, k) ==> s.procs[s.entries[k]].exited
  {
    var _ := ReachableInv(s);
    KeepsUnlessEvicted(s, e, k);
  }

  /** A refresh that returns has armed a timer of the entry it found; the tunnel is still
      registered exactly if nobody has removed it in the meantime. */
  lemma RefreshKeepsTunnelIffNotRemoved(s: State, k: Key, t: Tid)
    requires Reachable(s) && Enabled(s, Ensure(k, Rearm(t)))
    ensures var s', p := Apply(s, Ensure(k, Rearm(t))), s.ens[k].pid;
      && OwnTimerArmed(s', k, p)
      && (Owns(s', InMap(k), p) <==> forall r :: r in s'.removals ==> r.pid != p)
  {
    var owner := ReachableInv(s);
    var p := s.ens[k].pid;
    assert PcOk(s, k, s.ens[k]);
    assert Owns(s, owner[p], p);
    match owner[p]
    case InMap(_) =>
    case ByEnsure(_) =>
    case ByKill(id) => assert Removal(p, Kill(id)) in s.removals;
    case Signalled(i) => assert s.signals[i] in s.signals;
    case Reaped => assert Removal(p, Watcher) in s.removals;
  }
}
