/**
 The tunnel manager as the object it is in internal/proxy/manager.go, at the coarse
 granularity of module Leases: every method is proved to do to the manager's state what
 the function of the same purpose there says.
 */
module TunnelManager {
  import opened Basics
  import opened Leases

  // A timer is named by its position; its callback, killProcessEntry(key), by the key.
  class Clock {
    var now: int
    var timers: seq<Timer>

    constructor ()
      ensures now == 0 && timers == []
    {
      now := 0;
      timers := [];
    }

    method AfterFunc(d: int, key: Key) returns (t: Tid)
      modifies this
      ensures now == old(now) && t == |old(timers)|
      ensures timers == Leases.Arm(old(timers), key, now + d)
    {
      t := |timers|;
      timers := timers + [Timer(key, now + d, Armed)];
    }

    method Advance(d: nat)
      modifies this
      ensures now == old(now) + d && timers == old(timers)
    {
      now := now + d;
    }

    method StopTimer(t: Tid) returns (stopped: bool)
      modifies this
      ensures now == old(now) && timers == Leases.Stop(old(timers), t)
      ensures stopped <==> t < |old(timers)| && old(timers)[t].phase == Armed
    {
      stopped := t < |timers| && timers[t].phase == Armed;
      if stopped {
        timers := timers[t := timers[t].(phase := Stopped)];
      }
    }
  }

  class ProcessEntry {
    const process: Pid
    var timer: Tid

    constructor (process: Pid, timer: Tid)
      ensures this.process == process && this.timer == timer
    {
      this.process := process;
      this.timer := timer;
    }
  }

  function TargetKey(apiServerIP: string, apiServerPort: string): Key {
    apiServerIP + ":" + apiServerPort
  }

  class Manager {
    const clock: Clock
    var processEntries: map<Key, ProcessEntry>
    // The operating system's side: processes spawned, SIGTERMs delivered.
    var spawned: set<Pid>
    var signalled: seq<Pid>

    ghost predicate Valid()
      reads this
    {
      forall j, k :: j in processEntries && k in processEntries && j != k ==>
        processEntries[j] != processEntries[k]
    }

    ghost function View(): Tunnels
      reads this, clock, processEntries.Values
    {
      Tunnels(clock.now,
              map k | k in processEntries :: Entry(processEntries[k].process, processEntries[k].timer),
              clock.timers, spawned, signalled)
    }

    constructor (clock: Clock)
      ensures Valid() && this.clock == clock && processEntries == map[]
      ensures View() == NO_TUNNELS.(now := clock.now, timers := clock.timers)
    {
      this.clock := clock;
      processEntries := map[];
      spawned := {};
      signalled := [];
    }

    // systemd is what ensureSystemdProxy answers, if running under systemd.  The caller is the
    // one call singleflight admits for the key.
    method EnsureProxy(apiServerIP: string, apiServerPort: string, ttl: int, systemd: Option<bool>, startup: Startup)
      returns (ok: bool)
      requires Valid()
      modifies this, clock, processEntries.Values
      ensures Valid() && fresh(processEntries.Values - old(processEntries.Values))
      ensures (View(), ok) ==
        if systemd.Some? then (old(View()), systemd.value)
        else Ensure(old(View()), TargetKey(apiServerIP, apiServerPort), ttl, startup)
    {
      if systemd.Some? {
        return systemd.value;
      }
      ok := EnsureProcessProxy(TargetKey(apiServerIP, apiServerPort), ttl, startup);
    }

    method EnsureProcessProxy(key: Key, ttl: int, startup: Startup) returns (ok: bool)
      requires Valid()
      modifies this, clock, processEntries.Values
      ensures Valid() && fresh(processEntries.Values - old(processEntries.Values))
      ensures (View(), ok) == Ensure(old(View()), key, ttl, startup)
    {
      if key in processEntries {
        Refresh(key, ttl);
        return true;
      }
      match startup {
        case SpawnFails => return false;
        case ExitsEarly(p) =>
          ghost var before := View();
          spawned := spawned + {p};
          assert View() == before.(spawned := spawned);
          return false;
        case Up(p) =>
          Register(key, ttl, p);
          return true;
      }
    }

    // The branch of ensureProcessProxy that finds a tunnel (lines 159-160).
    method Refresh(key: Key, ttl: int)
      requires Valid() && key in processEntries
      modifies clock, processEntries[key]
      ensures Valid()
      ensures View() == Ensure(old(View()), key, ttl, SpawnFails).0
    {
      ghost var before := View();
      var existing := processEntries[key];
      var _ := clock.StopTimer(existing.timer);
      existing.timer := clock.AfterFunc(ttl, key);
      assert View().entries == before.entries[key := Entry(existing.process, |before.timers|)];
    }

    // The end of the branch that starts one (lines 189-193).
    method Register(key: Key, ttl: int, p: Pid)
      requires Valid() && key !in processEntries
      modifies this, clock
      ensures Valid() && fresh(processEntries.Values - old(processEntries.Values))
      ensures View() == Ensure(old(View()), key, ttl, Up(p)).0
    {
      ghost var before := View();
      spawned := spawned + {p};
      var t := clock.AfterFunc(ttl, key);
      var e := new ProcessEntry(p, t);
      processEntries := processEntries[key := e];
      assert View().entries == before.entries[key := Entry(p, t)];
    }

    // The critical section of the exit watcher of e.  Process ids identify entries.
    method ExitWatcher(key: Key, e: ProcessEntry)
      requires Valid()
      requires key in processEntries && processEntries[key].process == e.process ==>
        processEntries[key] == e
      modifies this, clock
      ensures Valid() && processEntries.Values <= old(processEntries.Values)
      ensures View() == Exited(old(View()), key, e.process)
    {
      if key in processEntries && processEntries[key] == e {
        var _ := clock.StopTimer(e.timer);
        processEntries := processEntries - {key};
      }
    }

    method KillProcessEntry(key: Key)
      requires Valid()
      modifies this, clock
      ensures Valid() && processEntries == old(processEntries) - {key}
      ensures View() == Kill(old(View()), key)
    {
      if key !in processEntries {
        return;
      }
      var e := processEntries[key];
      processEntries := processEntries - {key};
      var _ := clock.StopTimer(e.timer);
      signalled := signalled + [e.process];
    }

    // The clock fires timer t and runs its callback.
    method FireTimer(t: Tid)
      requires Valid()
      modifies this, clock
      ensures Valid() && processEntries.Values <= old(processEntries.Values)
      ensures View() == Fire(old(View()), t)
    {
      if t < |clock.timers| && clock.timers[t].phase == Armed {
        var key := clock.timers[t].key;
        clock.timers := clock.timers[t := clock.timers[t].(phase := Fired)];
        KillProcessEntry(key);
      }
    }

    method SnapshotKeys() returns (keys: seq<Key>)
      ensures Distinct(keys) && forall k :: k in keys <==> k in processEntries
    {
      keys := [];
      var todo := processEntries.Keys;
      while todo != {}
        invariant Distinct(keys)
        invariant forall k :: k in processEntries <==> k in todo || k in keys
        invariant forall k :: k in keys ==> k !in todo
        decreases todo
      {
        var k :| k in todo;
        keys := keys + [k];
        todo := todo - {k};
      }
    }

    method KillAllProcessProxies()
      requires Valid()
      modifies this, clock
      ensures Valid() && processEntries == map[]
      ensures exists keys :: Possible(old(View()), OpKillAll(keys)) && View() == KillAll(old(View()), keys)
    {
      var keys := SnapshotKeys();
      ghost var before := View();
      for i := 0 to |keys|
        invariant Valid() && processEntries.Values <= old(processEntries.Values)
        invariant forall k :: k in processEntries ==> k in keys[i..]
        invariant KillAll(View(), keys[i..]) == KillAll(before, keys)
      {
        assert keys[i..] == [keys[i]] + keys[i + 1..];
        KillProcessEntry(keys[i]);
      }
      assert Possible(before, OpKillAll(keys));
    }
  }
}
