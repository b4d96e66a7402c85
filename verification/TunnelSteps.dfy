/**
 The tunnel manager of internal/proxy/manager.go at its finest granularity: one step
 per critical section, timer operation or channel receive.  Go's mutex makes each
 step atomic; everything between two steps may be interleaved with any other step.

 A *processEntry is identified by its process, since an entry is created for every
 process that survives its startup window and for no other.
 */
module TunnelSteps {
  import opened Basics

  type Key = string
  type Pid = nat
  type Tid = nat
  type KillId = nat

  // A TTL timer.  Fired means its callback goroutine has been started.
  datatype Phase = Armed | Fired | Stopped
  datatype Timer = Timer(key: Key, phase: Phase)

  datatype Process = Process(key: Key, exited: bool)

  // Where the one in-flight ensureProcessProxy of a key stands.
  datatype EnsurePc =
    | Checked(found: Option<Pid>)  // map looked up under the lock
    | Halted(pid: Pid)             // old timer stopped, new one not armed yet
    | Starting(pid: Pid)           // spawned, waiting in the startup select
    | Started(pid: Pid)            // startup window elapsed
    | Inserted(pid: Pid)           // in the map, exit watcher not started yet

  // Where one activation of killProcessEntry stands.
  datatype KillPc =
    | AtLock(key: Key)
    | Removed(pid: Pid)            // entry deleted, its timer not stopped yet
    | Unarmed(pid: Pid)            // timer stopped, not signalled yet
    | Finished

  // KillAllProcessProxies: the keys of its snapshot still to kill, and its current kill.
  datatype Sweep = NoSweep | Sweeping(todo: seq<Key>, current: Option<KillId>)

  // History: who removed an entry from the map, and which SIGTERMs were sent.
  datatype Remover = Kill(id: KillId) | Watcher
  datatype Removal = Removal(pid: Pid, remover: Remover)
  datatype Signal = Signal(kill: KillId, pid: Pid)

  datatype State = State(
    entries: map<Key, Pid>,
    timerOf: map<Pid, Tid>,
    timers: map<Tid, Timer>,
    procs: map<Pid, Process>,
    ens: map<Key, EnsurePc>,
    kills: map<KillId, KillPc>,
    watching: set<Pid>,
    reaped: set<Pid>,
    sweep: Sweep,
    removals: seq<Removal>,
    signals: seq<Signal>)

  const INIT := State(map[], map[], map[], map[], map[], map[], {}, {}, NoSweep, [], [])

  // Steps of ensureProcessProxy(key).
  datatype EnsureAct =
    | Call                     // singleflight admits a call; lookup under the lock
    | StopOld                  // existing.timer.Stop()
    | Rearm(t: Tid)            // existing.timer = AfterFunc(...); return
    | Spawn(p: Pid)
    | SpawnFails
    | EarlyExit                // the select receives from exited
    | Elapsed                  // the select receives from startupElapsed
    | Insert(t: Tid)           // arm the TTL timer, insert under the lock
    | Watch                    // start the exit watcher; return

  // Steps of killProcessEntry.
  datatype KillAct =
    | Lock                     // lookup and delete under the lock
    | StopTimer                // e.timer.Stop()
    | Sigterm

  // Steps of the exit watcher, the clock and the operating system.
  datatype WorldAct =
    | Exit(p: Pid)             // the process ends, for whatever reason
    | Wake(p: Pid)             // the watcher's critical section
    | Fire(t: Tid, id: KillId) // the timer expires and its callback goroutine starts

  // Steps of KillAllProcessProxies.
  datatype SweepAct =
    | Snapshot(keys: seq<Key>) // the keys in map order, which is any order
    | Next(id: KillId)         // the loop calls killProcessEntry
    | Done

  datatype Step =
    | Ensure(k: Key, ensure: EnsureAct)
    | Killing(id: KillId, kill: KillAct)
    | World(world: WorldAct)
    | Sweeper(sweep: SweepAct)

  predicate At(s: State, k: Key, pc: EnsurePc) {
    k in s.ens && s.ens[k] == pc
  }

  predicate EnsureEnabled(s: State, k: Key, a: EnsureAct) {
    match a
    case Call => k !in s.ens
    case StopOld => k in s.ens && s.ens[k].Checked? && s.ens[k].found.Some?
    case Rearm(t) => k in s.ens && s.ens[k].Halted? && t !in s.timers
    case Spawn(p) => At(s, k, Checked(None)) && p !in s.procs
    case SpawnFails => At(s, k, Checked(None))
    case EarlyExit =>
      k in s.ens && s.ens[k].Starting? && s.ens[k].pid in s.procs && s.procs[s.ens[k].pid].exited
    case Elapsed => k in s.ens && s.ens[k].Starting?
    case Insert(t) => k in s.ens && s.ens[k].Started? && t !in s.timers
    case Watch => k in s.ens && s.ens[k].Inserted?
  }

  predicate KillEnabled(s: State, id: KillId, a: KillAct) {
    && id in s.kills
    && match a
       case Lock => s.kills[id].AtLock?
       case StopTimer => s.kills[id].Removed?
       case Sigterm => s.kills[id].Unarmed?
  }

  predicate WorldEnabled(s: State, a: WorldAct) {
    match a
    case Exit(p) => p in s.procs && !s.procs[p].exited
    case Wake(p) => p in s.watching && p in s.procs && s.procs[p].exited
    case Fire(t, id) => t in s.timers && s.timers[t].phase == Armed && id !in s.kills
  }

  // killProcessEntry is called synchronously: the sweeper waits for it to return.
  predicate SweepReady(s: State) {
    && s.sweep.Sweeping?
    && (s.sweep.current.Some? ==>
      s.sweep.current.value in s.kills && s.kills[s.sweep.current.value] == Finished)
  }

  predicate SweepEnabled(s: State, a: SweepAct) {
    match a
    case Snapshot(keys) =>
      && s.sweep == NoSweep
      && (forall k | k in keys :: k in s.entries)
      && (forall k | k in s.entries :: k in keys)
      && |keys| == |s.entries|
    case Next(id) => SweepReady(s) && s.sweep.todo != [] && id !in s.kills
    case Done => SweepReady(s) && s.sweep.todo == []
  }

  // Timer.Stop on the timer an entry holds now: no effect unless it is still armed.
  function StopTimerOf(s: State, p: Pid): map<Tid, Timer> {
    if p in s.timerOf && s.timerOf[p] in s.timers && s.timers[s.timerOf[p]].phase == Armed
    then s.timers[s.timerOf[p] := s.timers[s.timerOf[p]].(phase := Stopped)]
    else s.timers
  }

  function ApplyEnsure(s: State, k: Key, a: EnsureAct): State
    requires EnsureEnabled(s, k, a)
  {
    match a
    case Call =>
      s.(ens := s.ens[k := Checked(if k in s.entries then Some(s.entries[k]) else None)])
    case StopOld =>
      var p := s.ens[k].found.value;
      s.(timers := StopTimerOf(s, p), ens := s.ens[k := Halted(p)])
    case Rearm(t) =>
      s.(timers := s.timers[t := Timer(k, Armed)],
         timerOf := s.timerOf[s.ens[k].pid := t],
         ens := s.ens - {k})
    case Spawn(p) =>
      s.(procs := s.procs[p := Process(k, false)], ens := s.ens[k := Starting(p)])
    case SpawnFails => s.(ens := s.ens - {k})
    case EarlyExit => s.(ens := s.ens - {k}, reaped := s.reaped + {s.ens[k].pid})
    case Elapsed => s.(ens := s.ens[k := Started(s.ens[k].pid)])
    case Insert(t) =>
      var p := s.ens[k].pid;
      s.(timers := s.timers[t := Timer(k, Armed)],
         timerOf := s.timerOf[p := t],
         entries := s.entries[k := p],
         ens := s.ens[k := Inserted(p)])
    case Watch => s.(watching := s.watching + {s.ens[k].pid}, ens := s.ens - {k})
  }

  function ApplyKill(s: State, id: KillId, a: KillAct): State
    requires KillEnabled(s, id, a)
  {
    match a
    case Lock =>
      var k := s.kills[id].key;
      if k in s.entries then
        s.(entries := s.entries - {k},
           kills := s.kills[id := Removed(s.entries[k])],
           removals := s.removals + [Removal(s.entries[k], Kill(id))])
      else
        s.(kills := s.kills[id := Finished])
    case StopTimer =>
      var p := s.kills[id].pid;
      s.(timers := StopTimerOf(s, p), kills := s.kills[id := Unarmed(p)])
    case Sigterm =>
      s.(kills := s.kills[id := Finished],
         signals := s.signals + [Signal(id, s.kills[id].pid)])
  }

  // The watcher deletes the entry only if it is still its own (cur == e).
  function ApplyWorld(s: State, a: WorldAct): State
    requires WorldEnabled(s, a)
  {
    match a
    case Exit(p) => s.(procs := s.procs[p := s.procs[p].(exited := true)])
    case Wake(p) =>
      var k := s.procs[p].key;
      if k in s.entries && s.entries[k] == p then
        s.(timers := StopTimerOf(s, p),
           entries := s.entries - {k},
           watching := s.watching - {p},
           reaped := s.reaped + {p},
           removals := s.removals + [Removal(p, Watcher)])
      else
        s.(watching := s.watching - {p})
    case Fire(t, id) =>
      s.(timers := s.timers[t := s.timers[t].(phase := Fired)],
         kills := s.kills[id := AtLock(s.timers[t].key)])
  }

  function ApplySweep(s: State, a: SweepAct): State
    requires SweepEnabled(s, a)
  {
    match a
    case Snapshot(keys) => s.(sweep := Sweeping(keys, None))
    case Next(id) =>
      s.(kills := s.kills[id := AtLock(s.sweep.todo[0])],
         sweep := Sweeping(s.sweep.todo[1..], Some(id)))
    case Done => s.(sweep := NoSweep)
  }

  predicate Enabled(s: State, e: Step) {
    match e
    case Ensure(k, a) => EnsureEnabled(s, k, a)
    case Killing(id, a) => KillEnabled(s, id, a)
    case World(a) => WorldEnabled(s, a)
    case Sweeper(a) => SweepEnabled(s, a)
  }

  function Apply(s: State, e: Step): State
    requires Enabled(s, e)
  {
    match e
    case Ensure(k, a) => ApplyEnsure(s, k, a)
    case Killing(id, a) => ApplyKill(s, id, a)
    case World(a) => ApplyWorld(s, a)
    case Sweeper(a) => ApplySweep(s, a)
  }

  // The state after a sequence of steps, if each is enabled when its turn comes.
  function Exec(s: State, steps: seq<Step>): Option<State> {
    if steps == [] then Some(s)
    else
      var n := |steps| - 1;
      match Exec(s, steps[..n])
      case None => None
      case Some(m) => if Enabled(m, steps[n]) then Some(Apply(m, steps[n])) else None
  }

  ghost predicate Reachable(s: State) {
    exists steps :: Exec(INIT, steps) == Some(s)
  }
}
