/**
 KillAllProcessProxies in the fine-grained machine: it terminates, and it leaves behind
 only what was inserted after its snapshot.
 */
module TunnelSweep {
  import opened Basics
  import opened TunnelSteps
  import opened TunnelSafety
  import opened TunnelTheorems
  import opened TunnelResults

  predicate SweepStep(s: State, e: Step) {
    || (e.Sweeper? && !e.sweep.Snapshot?)
    || (e.Killing? && s.sweep.Sweeping? && s.sweep.current == Some(e.id))
  }

  function KillWork(pc: KillPc): nat {
    match pc
    case AtLock(_) => 3
    case Removed(_) => 2
    case Unarmed(_) => 1
    case Finished => 0
  }

  // How many steps the sweep still has to make itself, at most.
  function SweepWork(s: State): nat {
    match s.sweep
    case NoSweep => 0
    case Sweeping(todo, None) => 1 + 4 * |todo|
    case Sweeping(todo, Some(id)) =>
      1 + 4 * |todo| + if id in s.kills then KillWork(s.kills[id]) else 0
  }

  predicate SweepOk(s: State) {
    s.sweep.Sweeping? && s.sweep.current.Some? ==> s.sweep.current.value in s.kills
  }

  lemma SweepOkKill(s: State, id: KillId, a: KillAct)
    requires SweepOk(s) && KillEnabled(s, id, a)
    ensures SweepOk(ApplyKill(s, id, a))
  {
  }

  lemma SweepOkWorld(s: State, a: WorldAct)
    requires SweepOk(s) && WorldEnabled(s, a)
    ensures SweepOk(ApplyWorld(s, a))
  {
  }

  lemma SweepOkStep(s: State, e: Step)
    requires SweepOk(s) && Enabled(s, e)
    ensures SweepOk(Apply(s, e))
  {
    match e
    case Ensure(k, a) => assert SweepOk(ApplyEnsure(s, k, a));
    case Killing(id, a) => SweepOkKill(s, id, a);
    case World(a) => SweepOkWorld(s, a);
    case Sweeper(a) => assert SweepOk(ApplySweep(s, a));
  }

  lemma SweepProgressKill(s: State, id: KillId, a: KillAct)
    requires SweepOk(s) && KillEnabled(s, id, a)
    ensures var s' := ApplyKill(s, id, a);
      if SweepStep(s, Killing(id, a)) then SweepWork(s') < SweepWork(s) else SweepWork(s') == SweepWork(s)
  {
  }

  lemma SweepProgressOwn(s: State, a: SweepAct)
    requires SweepOk(s) && SweepEnabled(s, a) && !a.Snapshot?
    ensures SweepWork(ApplySweep(s, a)) < SweepWork(s)
  {
  }

  lemma NoProgressEnsure(s: State, k: Key, a: EnsureAct)
    requires EnsureEnabled(s, k, a)
    ensures SweepWork(ApplyEnsure(s, k, a)) == SweepWork(s)
  {
  }

  lemma NoProgressWorld(s: State, a: WorldAct)
    requires SweepOk(s) && WorldEnabled(s, a)
    ensures SweepWork(ApplyWorld(s, a)) == SweepWork(s)
  {
  }

  /** Every step of the sweep uses up some of its work, and no other step changes how much
      is left, however the sweep is interleaved with the rest. */
  lemma SweepProgress(s: State, e: Step)
    requires SweepOk(s) && Enabled(s, e) && !(e.Sweeper? && e.sweep.Snapshot?)
    ensures SweepStep(s, e) ==> SweepWork(Apply(s, e)) < SweepWork(s)
    ensures !SweepStep(s, e) ==> SweepWork(Apply(s, e)) == SweepWork(s)
  {
    match e
    case Ensure(k, a) => NoProgressEnsure(s, k, a);
    case Killing(id, a) => SweepProgressKill(s, id, a);
    case World(a) => NoProgressWorld(s, a);
    case Sweeper(a) => SweepProgressOwn(s, a);
  }

  // The number of a run's steps that the sweep makes itself.
  function SweepSteps(s: State, steps: seq<Step>): nat
    requires Exec(s, steps).Some?
  {
    if steps == [] then 0
    else
      var n := |steps| - 1;
      SweepSteps(s, steps[..n])
        + if SweepStep(Exec(s, steps[..n]).value, steps[n]) then 1 else 0
  }

  predicate NoSnapshot(steps: seq<Step>) {
    forall e | e in steps :: !(e.Sweeper? && e.sweep.Snapshot?)
  }

  lemma {:induction false} SweepBound(start: State, steps: seq<Step>, s: State)
    requires SweepOk(start) && NoSnapshot(steps) && Exec(start, steps) == Some(s)
    ensures SweepOk(s)
    ensures SweepSteps(start, steps) + SweepWork(s) <= SweepWork(start)
  {
    if steps == [] {
    } else {
      var n := |steps| - 1;
      var m := Exec(start, steps[..n]).value;
      SweepBound(start, steps[..n], m);
      assert steps[n] in steps;
      SweepOkStep(m, steps[n]);
      SweepProgress(m, steps[n]);
    }
  }

  lemma {:induction false} FreshKill(ids: set<KillId>) returns (id: KillId)
    ensures forall j :: j in ids ==> j < id
  {
    if ids == {} {
      id := 0;
    } else {
      var j :| j in ids;
      var above := FreshKill(ids - {j});
      id := if j < above then above else j + 1;
      assert forall i :: i in ids ==> i == j || i in ids - {j};
    }
  }

  lemma SweepCanStep(s: State)
    requires SweepOk(s) && s.sweep.Sweeping?
    ensures exists e :: SweepStep(s, e) && Enabled(s, e)
  {
    if SweepReady(s) {
      if s.sweep.todo == [] {
        assert SweepStep(s, Sweeper(Done)) && Enabled(s, Sweeper(Done));
      } else {
        var id := FreshKill(s.kills.Keys);
        assert SweepStep(s, Sweeper(Next(id))) && Enabled(s, Sweeper(Next(id)));
      }
    } else {
      var id := s.sweep.current.value;
      var a := match s.kills[id]
        case AtLock(_) => Lock
        case Removed(_) => StopTimer
        case _ => Sigterm;
      assert SweepStep(s, Killing(id, a)) && Enabled(s, Killing(id, a));
    }
  }

  /** A sweep over n keys makes at most 1 + 4n steps of its own, and until it has ended it
      can always make one: it never waits for anything but its own kill. */
  lemma {:induction false} SweepTerminates(s0: State, keys: seq<Key>, steps: seq<Step>, s: State)
    requires SweepEnabled(s0, Snapshot(keys)) && NoSnapshot(steps)
    requires Exec(ApplySweep(s0, Snapshot(keys)), steps) == Some(s)
    ensures SweepSteps(ApplySweep(s0, Snapshot(keys)), steps) + SweepWork(s) <= 1 + 4 * |keys|
    ensures s.sweep.Sweeping? ==> exists e :: SweepStep(s, e) && Enabled(s, e)
  {
    var start := ApplySweep(s0, Snapshot(keys));
    SweepBound(start, steps, s);
    if s.sweep.Sweeping? {
      SweepCanStep(s);
    }
  }

  // ---------------------------------------------------------------- what a sweep leaves

  predicate StillToKill(s: State, k: Key) {
    && s.sweep.Sweeping?
    && (k in s.sweep.todo
        || (s.sweep.current.Some? && s.sweep.current.value in s.kills
            && s.kills[s.sweep.current.value] == AtLock(k)))
  }

  // The processes of the snapshot that are still registered are yet to be visited by the sweep.
  ghost predicate Covers(s: State, snapshot: set<Pid>) {
    && snapshot <= s.timerOf.Keys
    && (forall k :: k in s.entries && s.entries[k] in snapshot ==> StillToKill(s, k))
  }

  lemma CoversKill(s: State, id: KillId, a: KillAct, snapshot: set<Pid>)
    requires Sane(s) && Covers(s, snapshot) && KillEnabled(s, id, a)
    ensures Covers(ApplyKill(s, id, a), snapshot)
  {
  }

  lemma CoversWorld(s: State, a: WorldAct, snapshot: set<Pid>)
    requires Sane(s) && Covers(s, snapshot) && WorldEnabled(s, a)
    ensures Covers(ApplyWorld(s, a), snapshot)
  {
  }

  lemma CoversEnsure(s: State, k: Key, a: EnsureAct, snapshot: set<Pid>)
    requires Sane(s) && Covers(s, snapshot) && EnsureEnabled(s, k, a)
    ensures Covers(ApplyEnsure(s, k, a), snapshot)
  {
    assert k in s.ens ==> PcOk(s, k, s.ens[k]);
  }

  lemma CoversNext(s: State, a: SweepAct, snapshot: set<Pid>)
    requires Covers(s, snapshot) && a.Next? && SweepEnabled(s, a)
    ensures Covers(ApplySweep(s, a), snapshot)
  {
    var s' := ApplySweep(s, a);
    forall k | k in s'.entries && s'.entries[k] in snapshot ensures StillToKill(s', k) {
      assert StillToKill(s, k);
      if k in s.sweep.todo {
        assert k == s.sweep.todo[0] || k in s.sweep.todo[1..];
      }
    }
  }

  lemma CoversStep(s: State, e: Step, snapshot: set<Pid>)
    requires Sane(s) && SweepOk(s) && Covers(s, snapshot) && Enabled(s, e)
    requires e != Sweeper(Done) && !(e.Sweeper? && e.sweep.Snapshot?)
    ensures Covers(Apply(s, e), snapshot)
  {
    match e
    case Ensure(k, a) => CoversEnsure(s, k, a, snapshot);
    case Killing(id, a) => CoversKill(s, id, a, snapshot);
    case World(a) => CoversWorld(s, a, snapshot);
    case Sweeper(a) => CoversNext(s, a, snapshot);
  }

  function Registered(s: State): set<Pid> {
    set k | k in s.entries :: s.entries[k]
  }

  predicate SweepOnly(steps: seq<Step>) {
    forall e | e in steps :: e != Sweeper(Done) && !(e.Sweeper? && e.sweep.Snapshot?)
  }

  lemma {:induction false} CoversAfter(start: State, steps: seq<Step>, s: State, snapshot: set<Pid>,
                                       owner: map<Pid, Owner>)
    requires Inv(start, owner) && SweepOk(start) && Covers(start, snapshot)
    requires SweepOnly(steps) && Exec(start, steps) == Some(s)
    ensures SweepOk(s) && Covers(s, snapshot)
  {
    if steps == [] {
    } else {
      var n := |steps| - 1;
      var m := Exec(start, steps[..n]).value;
      CoversAfter(start, steps[..n], m, snapshot, owner);
      var _ := InvAfter(start, steps[..n], m, owner);
      assert steps[n] in steps;
      SweepOkStep(m, steps[n]);
      CoversStep(m, steps[n], snapshot);
    }
  }

  // Dead, or in the hands of a kill that has only its Stop and SIGTERM left to do.
  ghost predicate Condemned(s: State, p: Pid) {
    || (p in s.procs && s.procs[p].exited)
    || (exists g :: g in s.signals && g.pid == p)
    || (exists id :: Owns(s, ByKill(id), p))
  }

  lemma SnapshotCovers(s0: State, keys: seq<Key>)
    requires Sane(s0) && SweepEnabled(s0, Snapshot(keys))
    ensures SweepOk(ApplySweep(s0, Snapshot(keys))) && Covers(ApplySweep(s0, Snapshot(keys)), Registered(s0))
  {
  }

  lemma DoneLeavesNone(s: State, snapshot: set<Pid>)
    requires Covers(s, snapshot) && SweepEnabled(s, Done)
    ensures snapshot !! Registered(s)
  {
  }

  lemma InvAfterSnapshot(s0: State, keys: seq<Key>, owner0: map<Pid, Owner>) returns (owner: map<Pid, Owner>)
    requires Inv(s0, owner0) && SweepEnabled(s0, Snapshot(keys))
    ensures Inv(ApplySweep(s0, Snapshot(keys)), owner)
  {
    var e := [Sweeper(Snapshot(keys))];
    assert e[..0] == [];
    owner := InvAfter(s0, e, ApplySweep(s0, Snapshot(keys)), owner0);
  }

  lemma OwnerCondemns(s: State, p: Pid, owner: map<Pid, Owner>)
    requires Inv(s, owner) && p in s.timerOf && p !in Registered(s)
    ensures Condemned(s, p)
  {
    assert Owns(s, owner[p], p);
    forall k | k in s.entries ensures s.entries[k] != p {
      assert s.entries[k] in Registered(s);
    }
    match owner[p]
    case ByEnsure(_) =>
    case InMap(_) =>
    case ByKill(id) =>
    case Signalled(i) => assert s.signals[i] in s.signals;
    case Reaped =>
  }

  /** When the sweep is done, in whatever interleaving, no tunnel that was registered at its
      snapshot is still registered, and each of their processes has exited, has been sent
      SIGTERM, or is held by a kill that is about to send it. */
  lemma SweepKillsTheSnapshot(s0: State, keys: seq<Key>, steps: seq<Step>, s: State)
    requires Reachable(s0) && SweepEnabled(s0, Snapshot(keys))
    requires SweepOnly(steps) && Exec(ApplySweep(s0, Snapshot(keys)), steps) == Some(s)
    requires Enabled(s, Sweeper(Done))
    ensures Registered(s0) !! Registered(s)
    ensures forall p :: p in Registered(s0) ==> Condemned(s, p)
  {
    var owner0 := ReachableInv(s0);
    var start := ApplySweep(s0, Snapshot(keys));
    var owner1 := InvAfterSnapshot(s0, keys, owner0);
    SnapshotCovers(s0, keys);
    CoversAfter(start, steps, s, Registered(s0), owner1);
    DoneLeavesNone(s, Registered(s0));
    var owner := InvAfter(start, steps, s, owner1);
    forall p | p in Registered(s0) ensures Condemned(s, p) {
      assert p in s.timerOf && p !in Registered(s);
      OwnerCondemns(s, p, owner);
    }
  }

  // ---------------------------------------------------------------- later inserts

  // The processes registered in the course of a run.
  function InsertedBy(s: State, steps: seq<Step>): set<Pid>
    requires Exec(s, steps).Some?
  {
    if steps == [] then {}
    else
      var n := |steps| - 1;
      var m, e := Exec(s, steps[..n]).value, steps[n];
      InsertedBy(s, steps[..n]) + if e.Ensure? && e.ensure.Insert? then {m.ens[e.k].pid} else {}
  }

  lemma EntriesCreatedBy(s: State, k: Key, a: EnsureAct)
    requires Sane(s) && EnsureEnabled(s, k, a)
    ensures ApplyEnsure(s, k, a).timerOf.Keys == s.timerOf.Keys + if a.Insert? then {s.ens[k].pid} else {}
  {
    assert k in s.ens ==> PcOk(s, k, s.ens[k]);
  }

  lemma NoneCreatedByKill(s: State, id: KillId, a: KillAct)
    requires KillEnabled(s, id, a)
    ensures ApplyKill(s, id, a).timerOf == s.timerOf
  {
  }

  lemma NoneCreatedByWorld(s: State, a: WorldAct)
    requires WorldEnabled(s, a)
    ensures ApplyWorld(s, a).timerOf == s.timerOf
  {
  }

  lemma EntriesCreated(s: State, e: Step)
    requires Sane(s) && Enabled(s, e)
    ensures Apply(s, e).timerOf.Keys ==
      s.timerOf.Keys + if e.Ensure? && e.ensure.Insert? then {s.ens[e.k].pid} else {}
  {
    match e
    case Ensure(k, a) => EntriesCreatedBy(s, k, a);
    case Killing(id, a) => NoneCreatedByKill(s, id, a);
    case World(a) => NoneCreatedByWorld(s, a);
    case Sweeper(a) =>
  }

  lemma EntriesAfterOneMore(start: State, steps: seq<Step>, e: Step, m: State)
    requires Exec(start, steps) == Some(m) && Sane(m) && Enabled(m, e)
    requires m.timerOf.Keys == start.timerOf.Keys + InsertedBy(start, steps)
    ensures Exec(start, steps + [e]) == Some(Apply(m, e))
    ensures Apply(m, e).timerOf.Keys == start.timerOf.Keys + InsertedBy(start, steps + [e])
  {
    assert (steps + [e])[..|steps|] == steps;
    EntriesCreated(m, e);
  }

  // Entries exist for the processes that had one before, and for those inserted since.
  lemma {:induction false} EntriesAfter(start: State, steps: seq<Step>, s: State)
    requires Sane(start) && Exec(start, steps) == Some(s)
    ensures Sane(s) && s.timerOf.Keys == start.timerOf.Keys + InsertedBy(start, steps)
  {
    if steps == [] {
    } else {
      var n := |steps| - 1;
      var m := Exec(start, steps[..n]).value;
      EntriesAfter(start, steps[..n], m);
      EntriesAfterOneMore(start, steps[..n], steps[n], m);
      SaneStep(m, steps[n]);
      assert steps == steps[..n] + [steps[n]];
    }
  }

  predicate RemovedIn(s: State, p: Pid) {
    exists r | r in s.removals :: r.pid == p
  }

  lemma RegisteredIffNotRemoved(s: State, p: Pid, owner: map<Pid, Owner>)
    requires Inv(s, owner) && p in s.timerOf
    ensures p in Registered(s) <==> !RemovedIn(s, p)
    ensures p !in Registered(s) ==> Past(s, p)
  {
    assert Owns(s, owner[p], p);
    forall k | k in s.ens ensures !HoldsStarting(s.ens[k], p) {
      assert PcOk(s, k, s.ens[k]);
    }
    match owner[p]
    case ByEnsure(_) =>
    case InMap(k) => assert s.entries[k] in Registered(s);
    case ByKill(id) => assert Removal(p, Kill(id)) in s.removals;
    case Signalled(i) => assert s.signals[i] in s.signals;
    case Reaped => assert Removal(p, Watcher) in s.removals;
  }

  lemma OldAndGone(start: State, steps: seq<Step>, s: State, p: Pid, owner: map<Pid, Owner>)
    requires Inv(start, owner) && Exec(start, steps) == Some(s)
    requires Registered(start) !! Registered(s) && p in start.timerOf
    ensures p !in Registered(s)
  {
    if p !in Registered(start) {
      RegisteredIffNotRemoved(start, p, owner);
      PastAfter(start, steps, s, p, owner);
      var owner' := InvAfter(start, steps, s, owner);
      forall k | k in s.entries ensures s.entries[k] != p {
        assert HasEntry(s, k, s.entries[k]);
      }
    }
  }

  /** When the sweep is done, exactly those tunnels are registered that were inserted after its
      snapshot and that nobody has removed since. */
  lemma SweepLeavesLaterInserts(s0: State, keys: seq<Key>, steps: seq<Step>, s: State)
    requires Reachable(s0) && SweepEnabled(s0, Snapshot(keys))
    requires SweepOnly(steps) && Exec(ApplySweep(s0, Snapshot(keys)), steps) == Some(s)
    requires Enabled(s, Sweeper(Done))
    ensures forall p :: p in Registered(s) <==>
      p in InsertedBy(ApplySweep(s0, Snapshot(keys)), steps) && !RemovedIn(s, p)
  {
    var start := ApplySweep(s0, Snapshot(keys));
    var owner0 := ReachableInv(s0);
    var owner1 := InvAfterSnapshot(s0, keys, owner0);
    var owner := InvAfter(start, steps, s, owner1);
    SweepKillsTheSnapshot(s0, keys, steps, s);
    EntriesAfter(start, steps, s);
    assert Registered(start) == Registered(s0);
    forall p ensures p in Registered(s) <==> p in InsertedBy(start, steps) && !RemovedIn(s, p) {
      if p in Registered(s) {
        assert p in s.timerOf;
        if p in start.timerOf {
          OldAndGone(start, steps, s, p, owner1);
        }
      }
      if p in s.timerOf {
        RegisteredIffNotRemoved(s, p, owner);
      }
    }
  }

  predicate NoInsert(steps: seq<Step>) {
    forall e | e in steps :: !(e.Ensure? && e.ensure.Insert?)
  }

  lemma {:induction false} NothingInserted(start: State, steps: seq<Step>)
    requires Exec(start, steps).Some? && NoInsert(steps)
    ensures InsertedBy(start, steps) == {}
  {
    if steps == [] {
    } else {
      var n := |steps| - 1;
      assert steps[n] in steps;
      NothingInserted(start, steps[..n]);
    }
  }

  /** With no insert after the snapshot, the sweep leaves the map empty. */
  lemma SweepEmptiesTheMap(s0: State, keys: seq<Key>, steps: seq<Step>, s: State)
    requires Reachable(s0) && SweepEnabled(s0, Snapshot(keys))
    requires SweepOnly(steps) && Exec(ApplySweep(s0, Snapshot(keys)), steps) == Some(s)
    requires Enabled(s, Sweeper(Done)) && NoInsert(steps)
    ensures s.entries == map[]
  {
    SweepLeavesLaterInserts(s0, keys, steps, s);
    NothingInserted(ApplySweep(s0, Snapshot(keys)), steps);
    forall k | k in s.entries ensures s.entries[k] in Registered(s) {
    }
  }
}
