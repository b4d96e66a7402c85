/**
 Safety of the fine-grained tunnel machine, over every interleaving: the state
 invariants, who owns each process, and what they rule out.
 */
module TunnelSafety {
  import opened TunnelSteps

  // ---------------------------------------------------------------- well-formedness

  // p is a process of key k whose entry exists, so it has a TTL timer.
  predicate HasEntry(s: State, k: Key, p: Pid) {
    p in s.procs && s.procs[p].key == k && p in s.timerOf
  }

  ghost predicate EntriesOk(s: State) {
    forall k :: k in s.entries ==> HasEntry(s, k, s.entries[k])
  }

  predicate PcOk(s: State, k: Key, pc: EnsurePc) {
    match pc
    case Checked(None) => k !in s.entries
    case Checked(Some(p)) => HasEntry(s, k, p)
    case Halted(p) => HasEntry(s, k, p)
    case Starting(p) => p in s.procs && s.procs[p].key == k && p !in s.timerOf && k !in s.entries
    case Started(p) => p in s.procs && s.procs[p].key == k && p !in s.timerOf && k !in s.entries
    case Inserted(p) => HasEntry(s, k, p)
  }

  ghost predicate EnsuresOk(s: State) {
    forall k :: k in s.ens ==> PcOk(s, k, s.ens[k])
  }

  ghost predicate TimersOk(s: State) {
    && (forall p :: p in s.timerOf ==>
         && p in s.procs
         && s.timerOf[p] in s.timers
         && s.timers[s.timerOf[p]].key == s.procs[p].key)
    && (forall p, q :: p in s.timerOf && q in s.timerOf && s.timerOf[p] == s.timerOf[q] ==> p == q)
    && s.watching <= s.timerOf.Keys
  }

  ghost predicate Sane(s: State) {
    EntriesOk(s) && EnsuresOk(s) && TimersOk(s)
  }

  // ---------------------------------------------------------------- ownership

  datatype Owner =
    | ByEnsure(k: Key)     // held by the in-flight ensure of k
    | InMap(k: Key)        // registered under k
    | ByKill(id: KillId)   // deleted by this kill, about to be signalled
    | Signalled(i: nat)    // the i-th SIGTERM went to it
    | Reaped               // its exit was observed

  predicate HoldsStarting(pc: EnsurePc, p: Pid) {
    pc == Starting(p) || pc == Started(p)
  }

  predicate HoldsRemoved(pc: KillPc, p: Pid) {
    pc == Removed(p) || pc == Unarmed(p)
  }

  predicate Owns(s: State, o: Owner, p: Pid) {
    match o
    case ByEnsure(k) => k in s.ens && HoldsStarting(s.ens[k], p)
    case InMap(k) => k in s.entries && s.entries[k] == p
    case ByKill(id) => id in s.kills && HoldsRemoved(s.kills[id], p)
    case Signalled(i) => i < |s.signals| && s.signals[i].pid == p
    case Reaped => p in s.reaped
  }

  // Every spawned process has exactly one owner, and nothing else has any.
  ghost predicate Tally(s: State, owner: map<Pid, Owner>) {
    && owner.Keys == s.procs.Keys
    && (forall o, p :: Owns(s, o, p) <==> p in owner && owner[p] == o)
  }

  // One step keeps the state well-formed, step family by step family.

  lemma EntriesEnsure(s: State, k: Key, a: EnsureAct)
    requires Sane(s) && EnsureEnabled(s, k, a)
    ensures EntriesOk(ApplyEnsure(s, k, a))
  {
    assert k in s.ens ==> PcOk(s, k, s.ens[k]);
  }

  lemma EnsuresEnsure(s: State, k: Key, a: EnsureAct)
    requires Sane(s) && EnsureEnabled(s, k, a)
    ensures EnsuresOk(ApplyEnsure(s, k, a))
  {
    var s' := ApplyEnsure(s, k, a);
    assert k in s.ens ==> PcOk(s, k, s.ens[k]);
    forall j | j in s'.ens ensures PcOk(s', j, s'.ens[j]) {
      assert j in s.ens ==> PcOk(s, j, s.ens[j]);
    }
  }

  lemma TimersEnsure(s: State, k: Key, a: EnsureAct)
    requires Sane(s) && EnsureEnabled(s, k, a)
    ensures TimersOk(ApplyEnsure(s, k, a))
  {
    assert k in s.ens ==> PcOk(s, k, s.ens[k]);
  }

  lemma SaneKill(s: State, id: KillId, a: KillAct)
    requires Sane(s) && KillEnabled(s, id, a)
    ensures Sane(ApplyKill(s, id, a))
  {
  }

  lemma EntriesWorld(s: State, a: WorldAct)
    requires Sane(s) && WorldEnabled(s, a)
    ensures EntriesOk(ApplyWorld(s, a))
  {
  }

  lemma TimersWorld(s: State, a: WorldAct)
    requires Sane(s) && WorldEnabled(s, a)
    ensures TimersOk(ApplyWorld(s, a))
  {
  }

  lemma EnsuresWorld(s: State, a: WorldAct)
    requires Sane(s) && WorldEnabled(s, a)
    ensures EnsuresOk(ApplyWorld(s, a))
  {
    var s' := ApplyWorld(s, a);
    forall k | k in s'.ens ensures PcOk(s', k, s'.ens[k]) {
      assert PcOk(s, k, s.ens[k]);
    }
  }

  lemma SaneSweep(s: State, a: SweepAct)
    requires Sane(s) && SweepEnabled(s, a)
    ensures Sane(ApplySweep(s, a))
  {
  }

  lemma SaneStep(s: State, e: Step)
    requires Sane(s) && Enabled(s, e)
    ensures Sane(Apply(s, e))
  {
    match e
    case Ensure(k, a) => EntriesEnsure(s, k, a); EnsuresEnsure(s, k, a); TimersEnsure(s, k, a);
    case Killing(id, a) => SaneKill(s, id, a);
    case World(a) => EntriesWorld(s, a); EnsuresWorld(s, a); TimersWorld(s, a);
    case Sweeper(a) => SaneSweep(s, a);
  }

  // One step moves at most one process, from one owner to another.

  lemma TallySame(s: State, s': State, owner: map<Pid, Owner>)
    requires Tally(s, owner) && s.procs.Keys == s'.procs.Keys
    requires s.entries == s'.entries && s.reaped == s'.reaped && s.signals == s'.signals
    requires forall k, p :: Owns(s, ByEnsure(k), p) <==> Owns(s', ByEnsure(k), p)
    requires forall id, p :: Owns(s, ByKill(id), p) <==> Owns(s', ByKill(id), p)
    ensures Tally(s', owner)
  {
    forall o, p ensures Owns(s', o, p) <==> p in owner && owner[p] == o {
      assert Owns(s, o, p) <==> p in owner && owner[p] == o;
    }
  }

  lemma TallySpawn(s: State, k: Key, p: Pid, owner: map<Pid, Owner>)
    requires Tally(s, owner) && EnsureEnabled(s, k, Spawn(p))
    ensures Tally(ApplyEnsure(s, k, Spawn(p)), owner[p := ByEnsure(k)])
  {
    var s' := ApplyEnsure(s, k, Spawn(p));
    forall o, q ensures Owns(s', o, q) <==> q in owner[p := ByEnsure(k)] && owner[p := ByEnsure(k)][q] == o {
      assert Owns(s, o, q) <==> q in owner && owner[q] == o;
    }
  }

  lemma TallyFromEnsure(s: State, k: Key, a: EnsureAct, to: Owner, owner: map<Pid, Owner>)
    requires Tally(s, owner) && EnsureEnabled(s, k, a)
    requires (a.EarlyExit? && to == Reaped) || (a.Insert? && to == InMap(k) && k !in s.entries)
    ensures Tally(ApplyEnsure(s, k, a), owner[s.ens[k].pid := to])
  {
    var s', owner' := ApplyEnsure(s, k, a), owner[s.ens[k].pid := to];
    assert Owns(s, ByEnsure(k), s.ens[k].pid);
    forall o, p ensures Owns(s', o, p) <==> p in owner' && owner'[p] == o {
      assert Owns(s, o, p) <==> p in owner && owner[p] == o;
    }
  }

  lemma TallyEnsure(s: State, k: Key, a: EnsureAct, owner: map<Pid, Owner>) returns (owner': map<Pid, Owner>)
    requires Sane(s) && Tally(s, owner) && EnsureEnabled(s, k, a)
    ensures Tally(ApplyEnsure(s, k, a), owner')
  {
    match a
    case Spawn(p) => owner' := owner[p := ByEnsure(k)]; TallySpawn(s, k, p, owner);
    case EarlyExit =>
      owner' := owner[s.ens[k].pid := Reaped];
      TallyFromEnsure(s, k, a, Reaped, owner);
    case Insert(t) =>
      owner' := owner[s.ens[k].pid := InMap(k)];
      assert PcOk(s, k, s.ens[k]);
      TallyFromEnsure(s, k, a, InMap(k), owner);
    case _ => owner' := owner; TallySame(s, ApplyEnsure(s, k, a), owner);
  }

  lemma TallyKill(s: State, id: KillId, a: KillAct, owner: map<Pid, Owner>) returns (owner': map<Pid, Owner>)
    requires Sane(s) && Tally(s, owner) && KillEnabled(s, id, a)
    ensures Tally(ApplyKill(s, id, a), owner')
  {
    var s' := ApplyKill(s, id, a);
    owner' := owner;
    match a {
      case Lock =>
        var k := s.kills[id].key;
        if k in s.entries {
          assert Owns(s, InMap(k), s.entries[k]);
          owner' := owner[s.entries[k] := ByKill(id)];
        }
      case StopTimer =>
      case Sigterm =>
        assert Owns(s, ByKill(id), s.kills[id].pid);
        owner' := owner[s.kills[id].pid := Signalled(|s.signals|)];
    }
    forall o, p ensures Owns(s', o, p) <==> p in owner' && owner'[p] == o {
      assert Owns(s, o, p) <==> p in owner && owner[p] == o;
    }
  }

  lemma TallyWorld(s: State, a: WorldAct, owner: map<Pid, Owner>) returns (owner': map<Pid, Owner>)
    requires Sane(s) && Tally(s, owner) && WorldEnabled(s, a)
    ensures Tally(ApplyWorld(s, a), owner')
  {
    var s' := ApplyWorld(s, a);
    owner' := owner;
    if a.Wake? && Owns(s, InMap(s.procs[a.p].key), a.p) {
      owner' := owner[a.p := Reaped];
    }
    forall o, p ensures Owns(s', o, p) <==> p in owner' && owner'[p] == o {
      assert Owns(s, o, p) <==> p in owner && owner[p] == o;
    }
  }

  lemma TallySweep(s: State, a: SweepAct, owner: map<Pid, Owner>)
    requires Sane(s) && Tally(s, owner) && SweepEnabled(s, a)
    ensures Tally(ApplySweep(s, a), owner)
  {
    TallySame(s, ApplySweep(s, a), owner);
  }

  lemma TallyStep(s: State, e: Step, owner: map<Pid, Owner>) returns (owner': map<Pid, Owner>)
    requires Sane(s) && Tally(s, owner) && Enabled(s, e)
    ensures Tally(Apply(s, e), owner')
  {
    match e
    case Ensure(k, a) => owner' := TallyEnsure(s, k, a, owner);
    case Killing(id, a) => owner' := TallyKill(s, id, a, owner);
    case World(a) => owner' := TallyWorld(s, a, owner);
    case Sweeper(a) => owner' := owner; TallySweep(s, a, owner);
  }
}
