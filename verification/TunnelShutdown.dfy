/**
 Shutdown seen from the moment KillAllProcessProxies takes its snapshot
 (internal/proxy/manager.go:229-239): if nobody asks for a tunnel any more, what decides
 whether the map will be empty is the ensures that are in flight at that moment.
 */
module TunnelShutdown {
  import opened Basics
  import opened TunnelSteps
  import opened TunnelSweep

  // An ensure that has found no tunnel and has not inserted or given up yet.
  predicate MayInsert(pc: EnsurePc) {
    pc == Checked(None) || pc.Starting? || pc.Started?
  }

  ghost predicate NoneStarting(s: State) {
    forall k :: k in s.ens ==> !MayInsert(s.ens[k])
  }

  predicate NoCall(steps: seq<Step>) {
    forall e | e in steps :: !(e.Ensure? && e.ensure.Call?)
  }

  // ---------------------------------------------------------------- nothing is starting

  lemma KillLeavesEnsures(s: State, id: KillId, a: KillAct)
    requires KillEnabled(s, id, a)
    ensures ApplyKill(s, id, a).ens == s.ens && ApplyKill(s, id, a).sweep == s.sweep
  {
  }

  lemma WorldLeavesEnsures(s: State, a: WorldAct)
    requires WorldEnabled(s, a)
    ensures ApplyWorld(s, a).ens == s.ens
  {
  }

  lemma NoneStartingStep(s: State, e: Step)
    requires NoneStarting(s) && Enabled(s, e) && !(e.Ensure? && e.ensure.Call?)
    ensures NoneStarting(Apply(s, e)) && !(e.Ensure? && e.ensure.Insert?)
  {
    match e
    case Ensure(k, a) => assert NoneStarting(ApplyEnsure(s, k, a));
    case Killing(id, a) => KillLeavesEnsures(s, id, a);
    case World(a) => WorldLeavesEnsures(s, a);
    case Sweeper(a) => assert ApplySweep(s, a).ens == s.ens;
  }

  lemma {:induction false} NoneStartingAfter(start: State, steps: seq<Step>, s: State)
    requires NoneStarting(start) && NoCall(steps) && Exec(start, steps) == Some(s)
    ensures NoneStarting(s) && NoInsert(steps)
  {
    if steps == [] {
    } else {
      var n := |steps| - 1;
      var m := Exec(start, steps[..n]).value;
      assert steps[n] in steps && steps == steps[..n] + [steps[n]];
      NoneStartingAfter(start, steps[..n], m);
      NoneStartingStep(m, steps[n]);
    }
  }

  // ---------------------------------------------------------------- something is starting

  lemma {:induction false} ExecConcat(s: State, a: seq<Step>, b: seq<Step>)
    requires Exec(s, a).Some?
    ensures Exec(s, a + b) == Exec(Exec(s, a).value, b)
  {
    if b == [] {
      assert a + b == a;
    } else {
      var n := |b| - 1;
      ExecConcat(s, a, b[..n]);
      assert (a + b)[..|a + b| - 1] == a + b[..n];
    }
  }

  // A step of a run that is a shutdown and nothing else.
  predicate Quiescent(e: Step) {
    e != Sweeper(Done) && !(e.Sweeper? && e.sweep.Snapshot?) && !(e.Ensure? && e.ensure.Call?)
  }

  ghost predicate Leads(s: State, steps: seq<Step>, s': State) {
    Exec(s, steps) == Some(s') && forall e :: e in steps ==> Quiescent(e)
  }

  lemma LeadsBy(s: State, e: Step)
    requires Enabled(s, e) && Quiescent(e)
    ensures Leads(s, [e], Apply(s, e))
  {
    assert [e][..0] == [];
  }

  lemma LeadsOn(s: State, a: seq<Step>, m: State, b: seq<Step>, s': State)
    requires Leads(s, a, m) && Leads(m, b, s')
    ensures Leads(s, a + b, s')
  {
    ExecConcat(s, a, b);
  }

  lemma SweepStepLeavesEnsures(s: State, e: Step)
    requires Enabled(s, e) && SweepStep(s, e)
    ensures Apply(s, e).ens == s.ens && (e == Sweeper(Done) || Apply(s, e).sweep.Sweeping?)
  {
    match e
    case Killing(id, a) => KillLeavesEnsures(s, id, a);
    case Sweeper(a) =>
  }

  // Left to itself the sweep gets to its end.
  lemma {:induction false} SweepToEnd(s: State) returns (steps: seq<Step>, s': State)
    requires SweepOk(s) && s.sweep.Sweeping?
    ensures Leads(s, steps, s') && s'.ens == s.ens && SweepEnabled(s', Done)
    decreases SweepWork(s)
  {
    if SweepEnabled(s, Done) {
      steps, s' := [], s;
    } else {
      SweepCanStep(s);
      var e :| SweepStep(s, e) && Enabled(s, e);
      var m := Apply(s, e);
      SweepStepLeavesEnsures(s, e);
      SweepOkStep(s, e);
      SweepProgress(s, e);
      LeadsBy(s, e);
      var rest;
      rest, s' := SweepToEnd(m);
      steps := [e] + rest;
      LeadsOn(s, [e], m, rest, s');
    }
  }

  // With the sweep at its end, an ensure that is starting a tunnel can still insert it.
  lemma InsertStarted(s: State, k: Key) returns (steps: seq<Step>, s': State)
    requires k in s.ens && s.ens[k].Started? && SweepEnabled(s, Done)
    ensures Leads(s, steps, s') && SweepEnabled(s', Done) && k in s'.entries
  {
    var t := FreshKill(s.timers.Keys);
    s' := ApplyEnsure(s, k, Insert(t));
    steps := [Ensure(k, Insert(t))];
    LeadsBy(s, Ensure(k, Insert(t)));
  }

  lemma InsertStarting(s: State, k: Key) returns (steps: seq<Step>, s': State)
    requires k in s.ens && s.ens[k].Starting? && SweepEnabled(s, Done)
    ensures Leads(s, steps, s') && SweepEnabled(s', Done) && k in s'.entries
  {
    var m := ApplyEnsure(s, k, Elapsed);
    LeadsBy(s, Ensure(k, Elapsed));
    var rest;
    rest, s' := InsertStarted(m, k);
    steps := [Ensure(k, Elapsed)] + rest;
    LeadsOn(s, [Ensure(k, Elapsed)], m, rest, s');
  }

  lemma InsertChecked(s: State, k: Key) returns (steps: seq<Step>, s': State)
    requires At(s, k, Checked(None)) && SweepEnabled(s, Done)
    ensures Leads(s, steps, s') && SweepEnabled(s', Done) && k in s'.entries
  {
    var p := FreshKill(s.procs.Keys);
    var m := ApplyEnsure(s, k, Spawn(p));
    LeadsBy(s, Ensure(k, Spawn(p)));
    var rest;
    rest, s' := InsertStarting(m, k);
    steps := [Ensure(k, Spawn(p))] + rest;
    LeadsOn(s, [Ensure(k, Spawn(p))], m, rest, s');
  }

  // ---------------------------------------------------------------- the condition

  // A shutdown from start runs to its end with nobody calling ensure.
  ghost predicate ShutDown(start: State, steps: seq<Step>, s: State) {
    SweepOnly(steps) && NoCall(steps) && Exec(start, steps) == Some(s) && Enabled(s, Sweeper(Done))
  }

  lemma StartingSurvives(start: State, k: Key) returns (steps: seq<Step>, s: State)
    requires SweepOk(start) && start.sweep.Sweeping? && k in start.ens && MayInsert(start.ens[k])
    ensures ShutDown(start, steps, s) && k in s.entries
  {
    var swept, m := SweepToEnd(start);
    var rest;
    match m.ens[k] {
      case Checked(_) => rest, s := InsertChecked(m, k);
      case Starting(_) => rest, s := InsertStarting(m, k);
      case Started(_) => rest, s := InsertStarted(m, k);
    }
    LeadsOn(start, swept, m, rest, s);
    steps := swept + rest;
  }

  /** If nobody asks for a tunnel after the snapshot, every completed shutdown leaves the map
      empty, in every interleaving, exactly if no ensure is starting a tunnel when the snapshot
      is taken. */
  lemma ShutdownEmptiesIff(s0: State, keys: seq<Key>)
    requires Reachable(s0) && SweepEnabled(s0, Snapshot(keys))
    ensures NoneStarting(s0) <==>
      forall steps, s :: ShutDown(ApplySweep(s0, Snapshot(keys)), steps, s) ==> s.entries == map[]
  {
    var start := ApplySweep(s0, Snapshot(keys));
    if NoneStarting(s0) {
      forall steps, s | ShutDown(start, steps, s) ensures s.entries == map[] {
        NoneStartingAfter(start, steps, s);
        SweepEmptiesTheMap(s0, keys, steps, s);
      }
    } else {
      var k :| k in s0.ens && MayInsert(s0.ens[k]);
      var steps, s := StartingSurvives(start, k);
    }
  }
}
