/**
 The tunnel manager at the granularity of the repository's fake clock
 (internal/proxy/clock_test.go): every operation is one step, and a timer fires together
 with its callback.  Here the exact lease semantics holds.
 */
module Leases {
  import opened Basics

  type Key = string
  type Pid = nat
  type Tid = nat

  datatype Phase = Armed | Fired | Stopped
  datatype Timer = Timer(key: Key, deadline: int, phase: Phase)
  datatype Entry = Entry(pid: Pid, timer: Tid)

  // What the manager holds, the clock's timers in creation order, and the processes
  // spawned and signalled so far.
  datatype Tunnels = Tunnels(
    now: int,
    entries: map<Key, Entry>,
    timers: seq<Timer>,
    spawned: set<Pid>,
    signalled: seq<Pid>)

  const NO_TUNNELS := Tunnels(0, map[], [], {}, [])

  // How starting a process ends: spawning fails, it exits within the startup window, or
  // it survives the window.
  datatype Startup = SpawnFails | ExitsEarly(pid: Pid) | Up(pid: Pid)

  function Stop(timers: seq<Timer>, t: Tid): seq<Timer> {
    if t < |timers| && timers[t].phase == Armed then timers[t := timers[t].(phase := Stopped)] else timers
  }

  function Arm(timers: seq<Timer>, k: Key, deadline: int): seq<Timer> {
    timers + [Timer(k, deadline, Armed)]
  }

  // ensureProcessProxy(k, ttl), and whether it succeeds.
  function Ensure(v: Tunnels, k: Key, ttl: int, st: Startup): (Tunnels, bool) {
    if k in v.entries then
      (v.(timers := Arm(Stop(v.timers, v.entries[k].timer), k, v.now + ttl),
          entries := v.entries[k := v.entries[k].(timer := |v.timers|)]), true)
    else
      match st
      case SpawnFails => (v, false)
      case ExitsEarly(p) => (v.(spawned := v.spawned + {p}), false)
      case Up(p) =>
        (v.(timers := Arm(v.timers, k, v.now + ttl),
            entries := v.entries[k := Entry(p, |v.timers|)],
            spawned := v.spawned + {p}), true)
  }

  // killProcessEntry(k)
  function Kill(v: Tunnels, k: Key): Tunnels {
    if k in v.entries then
      v.(entries := v.entries - {k},
         timers := Stop(v.timers, v.entries[k].timer),
         signalled := v.signalled + [v.entries[k].pid])
    else v
  }

  // The exit watcher of process p, started for key k.
  function Exited(v: Tunnels, k: Key, p: Pid): Tunnels {
    if k in v.entries && v.entries[k].pid == p then
      v.(entries := v.entries - {k}, timers := Stop(v.timers, v.entries[k].timer))
    else v
  }

  // The clock fires timer t: without effect unless it is armed.
  function Fire(v: Tunnels, t: Tid): Tunnels {
    if t < |v.timers| && v.timers[t].phase == Armed then
      Kill(v.(timers := v.timers[t := v.timers[t].(phase := Fired)]), v.timers[t].key)
    else v
  }

  // KillAllProcessProxies, its snapshot listing the keys in this order.
  function KillAll(v: Tunnels, keys: seq<Key>): Tunnels
    decreases keys
  {
    if keys == [] then v else KillAll(Kill(v, keys[0]), keys[1..])
  }

  // ---------------------------------------------------------------- the lease table

  // Exactly one armed timer per registered key, and no other.
  ghost predicate Coherent(v: Tunnels) {
    && (forall k :: k in v.entries ==>
         && v.entries[k].timer < |v.timers|
         && v.timers[v.entries[k].timer].key == k
         && v.timers[v.entries[k].timer].phase == Armed)
    && (forall t :: 0 <= t < |v.timers| && v.timers[t].phase == Armed ==>
         v.timers[t].key in v.entries && v.entries[v.timers[t].key].timer == t)
  }

  datatype Lease = Lease(pid: Pid, until: int)
  type LeaseTable = map<Key, Lease>

  function LeaseOf(v: Tunnels): LeaseTable
    requires Coherent(v)
  {
    map k | k in v.entries :: Lease(v.entries[k].pid, v.timers[v.entries[k].timer].deadline)
  }

  datatype Op =
    | OpEnsure(k: Key, ttl: int, st: Startup)
    | OpExited(k: Key, p: Pid)
    | OpFire(t: Tid)
    | OpKillAll(keys: seq<Key>)
    | OpTick(d: nat)

  // Spawning yields a new process; the clock fires no timer early; the sweep's snapshot lists
  // exactly the registered keys.
  ghost predicate Possible(v: Tunnels, op: Op) {
    match op
    case OpEnsure(k, ttl, st) => st.SpawnFails? || st.pid !in v.spawned
    case OpExited(k, p) => p in v.spawned
    case OpFire(t) => t < |v.timers| ==> v.timers[t].deadline <= v.now
    case OpKillAll(keys) => (forall k :: k in keys <==> k in v.entries) && Distinct(keys)
    case _ => true
  }

  function Do(v: Tunnels, op: Op): Tunnels {
    match op
    case OpEnsure(k, ttl, st) => Ensure(v, k, ttl, st).0
    case OpExited(k, p) => Exited(v, k, p)
    case OpFire(t) => Fire(v, t)
    case OpKillAll(keys) => KillAll(v, keys)
    case OpTick(d) => v.(now := v.now + d)
  }

  // The state after a sequence of operations, if each is possible when its turn comes.
  ghost function RunOps(ops: seq<Op>): Option<Tunnels> {
    if ops == [] then Some(NO_TUNNELS)
    else
      var n := |ops| - 1;
      match RunOps(ops[..n])
      case None => None
      case Some(v) => if Possible(v, ops[n]) then Some(Do(v, ops[n])) else None
  }

  // What an operation may do to the table of leases, said without timers: a successful
  // ensure sets the lease to now + ttl; a lease ends when its process exits, when the
  // manager is shut down, or, because of a timer, at or after its end.
  ghost predicate LeaseStep(l: LeaseTable, now: int, op: Op, l': LeaseTable) {
    match op
    case OpEnsure(k, ttl, st) =>
      if k in l then l' == l[k := Lease(l[k].pid, now + ttl)]
      else if st.Up? then l' == l[k := Lease(st.pid, now + ttl)]
      else l' == l
    case OpExited(k, p) => l' == if k in l && l[k].pid == p then l - {k} else l
    case OpFire(t) => l' == l || exists k :: k in l && l[k].until <= now && l' == l - {k}
    case OpKillAll(_) => l' == map[]
    case OpTick(_) => l' == l
  }

  lemma RefreshLeases(v: Tunnels, k: Key, ttl: int, st: Startup)
    requires Coherent(v) && k in v.entries
    ensures var v' := Ensure(v, k, ttl, st).0;
      Coherent(v') && LeaseOf(v') == LeaseOf(v)[k := Lease(v.entries[k].pid, v.now + ttl)]
  {
    var v' := Ensure(v, k, ttl, st).0;
    assert |v'.timers| == |v.timers| + 1 && v'.timers[|v.timers|] == Timer(k, v.now + ttl, Armed);
    forall t | 0 <= t < |v.timers| && t != v.entries[k].timer ensures v'.timers[t] == v.timers[t] {
    }
  }

  lemma EnsureLeases(v: Tunnels, k: Key, ttl: int, st: Startup)
    requires Coherent(v)
    ensures var (v', ok) := Ensure(v, k, ttl, st);
      && Coherent(v')
      && ok == (k in v.entries || st.Up?)
      && LeaseStep(LeaseOf(v), v.now, OpEnsure(k, ttl, st), LeaseOf(v'))
  {
    if k in v.entries {
      RefreshLeases(v, k, ttl, st);
    } else if st.Up? {
      var v' := Ensure(v, k, ttl, st).0;
      assert v'.timers[|v.timers|] == Timer(k, v.now + ttl, Armed);
      assert forall t :: 0 <= t < |v.timers| ==> v'.timers[t] == v.timers[t];
    }
  }

  lemma KillLeases(v: Tunnels, k: Key)
    requires Coherent(v)
    ensures Coherent(Kill(v, k)) && LeaseOf(Kill(v, k)) == LeaseOf(v) - {k}
  {
  }

  lemma ExitedLeases(v: Tunnels, k: Key, p: Pid)
    requires Coherent(v)
    ensures Coherent(Exited(v, k, p))
    ensures LeaseStep(LeaseOf(v), v.now, OpExited(k, p), LeaseOf(Exited(v, k, p)))
  {
  }

  /** A timer that is armed is the timer of a registered key, due exactly when its lease runs
      out, and firing it, early or not, ends exactly that lease; a timer that is stopped or
      has fired changes nothing. */
  lemma FireLeases(v: Tunnels, t: Tid)
    requires Coherent(v)
    ensures Coherent(Fire(v, t))
    ensures if t < |v.timers| && v.timers[t].phase == Armed
            then var k := v.timers[t].key;
              && k in LeaseOf(v) && LeaseOf(v)[k].until == v.timers[t].deadline
              && LeaseOf(Fire(v, t)) == LeaseOf(v) - {k}
            else Fire(v, t) == v
  {
  }

  /** Firing a timer leaves the tunnel k registered exactly if it was, and the timer is not its own. */
  lemma FireEndsItsOwn(v: Tunnels, t: Tid, k: Key)
    requires Coherent(v)
    ensures k in Fire(v, t).entries <==> k in v.entries && v.entries[k].timer != t
  {
    if k in v.entries && v.entries[k].timer == t {
      assert v.timers[t].key == k && v.timers[t].phase == Armed;
    }
  }

  lemma {:induction false} KillAllLeases(v: Tunnels, keys: seq<Key>)
    requires Coherent(v)
    ensures Coherent(KillAll(v, keys))
    ensures LeaseOf(KillAll(v, keys)) == LeaseOf(v) - (set k | k in keys)
    decreases keys
  {
    if keys == [] {
    } else {
      KillLeases(v, keys[0]);
      KillAllLeases(Kill(v, keys[0]), keys[1..]);
      assert (set k | k in keys) == {keys[0]} + (set k | k in keys[1..]);
    }
  }

  /** Every operation of the manager is a step of the lease table. */
  lemma RefinesLeases(v: Tunnels, op: Op)
    requires Coherent(v) && Possible(v, op)
    ensures Coherent(Do(v, op))
    ensures LeaseStep(LeaseOf(v), v.now, op, LeaseOf(Do(v, op)))
  {
    match op
    case OpEnsure(k, ttl, st) => EnsureLeases(v, k, ttl, st);
    case OpExited(k, p) => ExitedLeases(v, k, p);
    case OpFire(t) => FireLeases(v, t);
    case OpKillAll(keys) => KillAllLeases(v, keys); assert LeaseOf(v) - (set k | k in keys) == map[];
    case OpTick(d) =>
  }

  // ---------------------------------------------------------------- whole runs

  lemma {:induction false} RunCoherent(ops: seq<Op>, v: Tunnels)
    requires RunOps(ops) == Some(v)
    ensures Coherent(v)
  {
    if ops == [] {
    } else {
      var n := |ops| - 1;
      var u := RunOps(ops[..n]).value;
      RunCoherent(ops[..n], u);
      RefinesLeases(u, ops[n]);
    }
  }

  predicate Ensures(op: Op, k: Key) {
    op.OpEnsure? && op.k == k
  }

  // One step, seen from a key that is registered after it.
  lemma LeaseAfter(u: Tunnels, op: Op, k: Key)
    requires Coherent(u) && Possible(u, op) && k in Do(u, op).entries
    ensures Coherent(Do(u, op))
    ensures if Ensures(op, k) then LeaseOf(Do(u, op))[k].until == u.now + op.ttl
            else k in u.entries && LeaseOf(Do(u, op))[k] == LeaseOf(u)[k]
  {
    RefinesLeases(u, op);
    assert k in LeaseOf(Do(u, op));
  }

  // The i-th operation is the last to ensure k, and sets a lease until then.
  ghost predicate LastEnsured(ops: seq<Op>, k: Key, i: nat, until: int) {
    && i < |ops| && Ensures(ops[i], k)
    && (forall j :: i < j < |ops| ==> !Ensures(ops[j], k))
    && RunOps(ops[..i]).Some? && until == RunOps(ops[..i]).value.now + ops[i].ttl
  }

  lemma LastEnsuredBefore(ops: seq<Op>, op: Op, k: Key, i: nat, until: int)
    requires LastEnsured(ops, k, i, until) && !Ensures(op, k)
    ensures LastEnsured(ops + [op], k, i, until)
  {
    assert (ops + [op])[..i] == ops[..i];
  }

  /** On every run the lease of a registered key is what its last ensure set: the time of
      that ensure plus its ttl. */
  lemma {:induction false} LeaseIsSetByLastEnsure(ops: seq<Op>, v: Tunnels, k: Key) returns (i: nat)
    requires RunOps(ops) == Some(v) && k in v.entries
    ensures Coherent(v) && LastEnsured(ops, k, i, LeaseOf(v)[k].until)
  {
    var n := |ops| - 1;
    var u := RunOps(ops[..n]).value;
    RunCoherent(ops[..n], u);
    LeaseAfter(u, ops[n], k);
    if Ensures(ops[n], k) {
      i := n;
    } else {
      i := LeaseIsSetByLastEnsure(ops[..n], u, k);
      LastEnsuredBefore(ops[..n], ops[n], k, i, LeaseOf(u)[k].until);
      assert ops == ops[..n] + [ops[n]];
    }
  }

  // The process p of the tunnel k exits, or the manager is shut down.
  predicate EndsEarly(op: Op, k: Key, p: Pid) {
    op == OpExited(k, p) || op.OpKillAll?
  }

  lemma {:induction false} NowAfterKillAll(v: Tunnels, keys: seq<Key>)
    ensures KillAll(v, keys).now == v.now
    decreases keys
  {
    if keys == [] {
    } else {
      NowAfterKillAll(Kill(v, keys[0]), keys[1..]);
    }
  }

  lemma NowAfter(v: Tunnels, op: Op)
    ensures Do(v, op).now == v.now + if op.OpTick? then op.d else 0
  {
    if op.OpKillAll? {
      NowAfterKillAll(v, op.keys);
    }
  }

  /** A lease is kept to its end: unless its own process exits or the manager is shut down, a
      tunnel that is not refreshed stays registered, with that lease, as long as now is
      before the lease's end; whatever other tunnels do, whichever timers fire, and however
      late the watchers of earlier processes of the key wake up. */
  lemma {:induction false} LeaseHoldsToItsEnd(start: seq<Op>, more: seq<Op>, u: Tunnels, v: Tunnels, k: Key)
    requires RunOps(start) == Some(u) && RunOps(start + more) == Some(v) && k in u.entries
    requires forall op :: op in more ==> !EndsEarly(op, k, u.entries[k].pid) && !Ensures(op, k)
    ensures Coherent(u) && Coherent(v) && u.now <= v.now
    ensures v.now < LeaseOf(u)[k].until ==> k in v.entries && LeaseOf(v)[k] == LeaseOf(u)[k]
  {
    RunCoherent(start, u);
    RunCoherent(start + more, v);
    if more == [] {
      assert start + more == start;
    } else {
      var n := |more| - 1;
      assert (start + more)[..|start + more| - 1] == start + more[..n];
      var w := RunOps(start + more[..n]).value;
      assert forall op :: op in more[..n] ==> op in more;
      LeaseHoldsToItsEnd(start, more[..n], u, w, k);
      assert more[n] in more;
      RefinesLeases(w, more[n]);
      NowAfter(w, more[n]);
      assert k in LeaseOf(v) <==> k in v.entries;
    }
  }
}
