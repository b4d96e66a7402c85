/**
 cachedKubeconfig (internal/server/kubeconfig.go): a read-through cache whose hits also
 renew the tunnel a kubeconfig needs, over the coarse tunnel manager.  As functions on
 values; module ToolServers has the object.
 */
module Kubeconfigs {
  import opened Basics
  import opened Keys
  import opened Leases
  import opened TunnelManager
  import C = TtlCache

  datatype ProxyTarget = ProxyTarget(sshuttleHost: string, apiServerIP: string, apiServerPort: string)
  datatype CachedKubeconfig = CachedKubeconfig(kubeconfig: string, proxyTarget: Option<ProxyTarget>)

  datatype Source = Source(name: string, contexts: seq<string>, sshuttleHost: string)

  // transforms: whether jq transforms are configured.  The one ttl is used both for cached
  // kubeconfigs and for tunnels (kubeconfig.go:11-13, cmd/capi-shell-mcp/main.go:39-42).
  datatype Config = Config(sources: map<string, Source>, sshuttleHost: string, transforms: bool, ttl: int)

  datatype Request = Request(source: Source, context: string, namespace: string, clusterName: string)

  // What the world answers while one call is served: how long fetching takes, and the
  // outcomes of building clients, reading the Secret, transforming it, reading the API
  // server's restrictions, and starting a tunnel.
  datatype Upstream = Upstream(
    latency: nat, clients: bool, fetched: Result<string>, transformed: Result<string>,
    apiServer: Result<Option<(string, string)>>, startup: Startup)

  type Cache = map<string, C.Entry<CachedKubeconfig>>
  datatype Server = Server(cache: Cache, tunnels: Tunnels)

  function KeyOf(req: Request): string {
    KubeconfigKey(req.source.name, req.context, req.namespace, req.clusterName)
  }

  function SshuttleHost(cfg: Config, src: Source): string {
    if src.sshuttleHost == "" then cfg.sshuttleHost else src.sshuttleHost
  }

  // What fetching without a cache yields: the transformed kubeconfig and its tunnel.
  function Fetch(cfg: Config, req: Request, up: Upstream): Result<CachedKubeconfig> {
    if !up.clients || up.fetched.Err? || (cfg.transforms && up.transformed.Err?) then Err
    else
      var kc := if cfg.transforms then up.transformed.value else up.fetched.value;
      var host := SshuttleHost(cfg, req.source);
      if host == "" then Ok(CachedKubeconfig(kc, None))
      else
        match up.apiServer
        case Err => Err
        case Ok(None) => Ok(CachedKubeconfig(kc, None))
        case Ok(Some((ip, port))) => Ok(CachedKubeconfig(kc, Some(ProxyTarget(host, ip, port))))
  }

  function ProxyKey(p: ProxyTarget): Key {
    TargetKey(p.apiServerIP, p.apiServerPort)
  }

  function EnsureFor(v: Tunnels, c: CachedKubeconfig, ttl: int, startup: Startup): (Tunnels, bool) {
    match c.proxyTarget
    case None => (v, true)
    case Some(p) => Ensure(v, ProxyKey(p), ttl, startup)
  }

  // A hit renews the tunnel the cached kubeconfig needs.
  function Renewed(cfg: Config, s: Server, c: CachedKubeconfig, up: Upstream): (Server, Result<string>) {
    var (v, ok) := EnsureFor(s.tunnels, c, cfg.ttl, up.startup);
    (s.(tunnels := v), if ok then Ok(c.kubeconfig) else Err)
  }

  // A miss fetches, brings the tunnel up, and only then stores.
  function Loaded(cfg: Config, s: Server, req: Request, up: Upstream): (Server, Result<string>) {
    var s0 := s.(tunnels := s.tunnels.(now := s.tunnels.now + up.latency));
    match Fetch(cfg, req, up)
    case Err => (s0, Err)
    case Ok(c) =>
      var (s1, res) := Renewed(cfg, s0, c, up);
      if res.Err? then (s1, Err)
      else (s1.(cache := C.Stored(s1.cache, KeyOf(req), c, s1.tunnels.now, cfg.ttl)), res)
  }

  function Cached(cfg: Config, s: Server, req: Request, up: Upstream): (Server, Result<string>) {
    var (cache, hit) := C.Got(s.cache, KeyOf(req), s.tunnels.now);
    match hit
    case Some(c) => Renewed(cfg, s.(cache := cache), c, up)
    case None => Loaded(cfg, s.(cache := cache), req, up)
  }

  // ---------------------------------------------------------------- runs

  datatype Op =
    | Call(req: Request, up: Upstream)
    | Ended(k: Key, p: Pid)        // a tunnel's process exits
    | Fires(t: Tid)
    | Shutdown(keys: seq<Key>)
    | Wait(d: nat)

  function TunnelOp(op: Op): Leases.Op
    requires !op.Call?
  {
    match op
    case Ended(k, p) => OpExited(k, p)
    case Fires(t) => OpFire(t)
    case Shutdown(keys) => OpKillAll(keys)
    case Wait(d) => OpTick(d)
  }

  ghost predicate Possible(s: Server, op: Op) {
    if op.Call? then op.up.startup.SpawnFails? || op.up.startup.pid !in s.tunnels.spawned
    else Leases.Possible(s.tunnels, TunnelOp(op))
  }

  function Do(cfg: Config, s: Server, op: Op): Server {
    if op.Call? then Cached(cfg, s, op.req, op.up).0
    else s.(tunnels := Leases.Do(s.tunnels, TunnelOp(op)))
  }

  ghost function RunFrom(cfg: Config, s: Server, ops: seq<Op>): Option<Server> {
    if ops == [] then Some(s)
    else
      var n := |ops| - 1;
      match RunFrom(cfg, s, ops[..n])
      case None => None
      case Some(m) => if Possible(m, ops[n]) then Some(Do(cfg, m, ops[n])) else None
  }

  const START := Server(map[], NO_TUNNELS)

  // ---------------------------------------------------------------- cache and tunnels

  function ProxyKeys(c: CachedKubeconfig): set<Key> {
    if c.proxyTarget.Some? then {ProxyKey(c.proxyTarget.value)} else {}
  }

  // The tunnel a call ensured, if it succeeded and needed one.
  function Ensured(cfg: Config, s: Server, req: Request, up: Upstream): set<Key> {
    var (s', res) := Cached(cfg, s, req, up);
    if res.Ok? && KeyOf(req) in s'.cache then ProxyKeys(s'.cache[KeyOf(req)].value) else {}
  }

  function LostAfter(cfg: Config, s: Server, op: Op, lost: set<Key>): set<Key> {
    match op
    case Call(req, up) => lost - Ensured(cfg, s, req, up)
    case Ended(k, p) =>
      if k in s.tunnels.entries && s.tunnels.entries[k].pid == p then lost + {k} else lost
    case Shutdown(_) => lost + s.tunnels.entries.Keys
    case _ => lost
  }

  // The tunnel keys that lost their tunnel to an exit or a shutdown, and have not been
  // ensured since.
  ghost function Lost(cfg: Config, ops: seq<Op>): set<Key>
    requires RunFrom(cfg, START, ops).Some?
  {
    if ops == [] then {}
    else
      var n := |ops| - 1;
      var s := RunFrom(cfg, START, ops[..n]).value;
      LostAfter(cfg, s, ops[n], Lost(cfg, ops[..n]))
  }

  predicate LeaseReaches(v: Tunnels, k: Key, t: int)
  {
    && k in v.entries && v.entries[k].timer < |v.timers|
    && v.timers[v.entries[k].timer].deadline >= t
  }

  ghost predicate EntryBacked(v: Tunnels, e: C.Entry<CachedKubeconfig>, ttl: int, lost: set<Key>) {
    && e.expiresAt <= v.now + ttl
    && (forall k :: k in ProxyKeys(e.value) && v.now < e.expiresAt ==> k in lost || LeaseReaches(v, k, e.expiresAt))
  }

  ghost predicate Backed(cfg: Config, s: Server, lost: set<Key>) {
    && Coherent(s.tunnels)
    && (forall k :: k in s.tunnels.entries ==>
         s.tunnels.timers[s.tunnels.entries[k].timer].deadline <= s.tunnels.now + cfg.ttl)
    && (forall x :: x in s.cache ==> EntryBacked(s.tunnels, s.cache[x], cfg.ttl, lost))
  }

  lemma EnsureExtends(v: Tunnels, k: Key, ttl: int, st: Startup)
    requires Coherent(v)
    requires forall j :: j in v.entries ==> v.timers[v.entries[j].timer].deadline <= v.now + ttl
    ensures var (v', ok) := Ensure(v, k, ttl, st);
      && Coherent(v') && v'.now == v.now
      && (forall j :: j in v'.entries ==> v'.timers[v'.entries[j].timer].deadline <= v.now + ttl)
      && (forall j, t :: LeaseReaches(v, j, t) ==> LeaseReaches(v', j, t))
      && (ok ==> LeaseReaches(v', k, v.now + ttl))
  {
    var (v', ok) := Ensure(v, k, ttl, st);
    EnsureLeases(v, k, ttl, st);
    forall j | j in v'.entries
      ensures v'.timers[v'.entries[j].timer].deadline == LeaseOf(v')[j].until
    {
    }
    forall j | j in v.entries
      ensures v.timers[v.entries[j].timer].deadline == LeaseOf(v)[j].until
    {
    }
  }

  lemma BackedWait(cfg: Config, s: Server, d: nat, lost: set<Key>)
    requires Backed(cfg, s, lost)
    ensures Backed(cfg, s.(tunnels := s.tunnels.(now := s.tunnels.now + d)), lost)
  {
    var v := s.tunnels.(now := s.tunnels.now + d);
    forall x | x in s.cache ensures EntryBacked(v, s.cache[x], cfg.ttl, lost) {
      assert EntryBacked(s.tunnels, s.cache[x], cfg.ttl, lost);
      forall k | k in ProxyKeys(s.cache[x].value) && v.now < s.cache[x].expiresAt
        ensures k in lost || LeaseReaches(v, k, s.cache[x].expiresAt)
      {
        assert k in lost || LeaseReaches(s.tunnels, k, s.cache[x].expiresAt);
      }
    }
  }

  ghost predicate Prolongs(v: Tunnels, v': Tunnels) {
    forall k, t :: LeaseReaches(v, k, t) ==> LeaseReaches(v', k, t)
  }

  lemma BackedRenewed(cfg: Config, s: Server, c: CachedKubeconfig, up: Upstream, lost: set<Key>)
    requires Backed(cfg, s, lost)
    ensures var (s', res) := Renewed(cfg, s, c, up);
      && s'.tunnels.now == s.tunnels.now && s'.cache == s.cache
      && Backed(cfg, s', lost - if res.Ok? then ProxyKeys(c) else {})
      && (res.Ok? ==> forall k :: k in ProxyKeys(c) ==> LeaseReaches(s'.tunnels, k, s.tunnels.now + cfg.ttl))
      && Prolongs(s.tunnels, s'.tunnels)
  {
    var (s', res) := Renewed(cfg, s, c, up);
    var v := s'.tunnels;
    if c.proxyTarget.Some? {
      EnsureExtends(s.tunnels, ProxyKey(c.proxyTarget.value), cfg.ttl, up.startup);
    }
    forall x | x in s.cache
      ensures EntryBacked(v, s.cache[x], cfg.ttl, lost - if res.Ok? then ProxyKeys(c) else {})
    {
      assert EntryBacked(s.tunnels, s.cache[x], cfg.ttl, lost);
      forall k | k in ProxyKeys(s.cache[x].value) && v.now < s.cache[x].expiresAt && k in ProxyKeys(c) && res.Ok?
        ensures LeaseReaches(v, k, s.cache[x].expiresAt)
      {
        assert LeaseReaches(v, k, v.now + cfg.ttl);
      }
    }
  }

  lemma BackedStore(cfg: Config, s: Server, x: string, c: CachedKubeconfig, lost: set<Key>)
    requires Backed(cfg, s, lost)
    requires forall k :: k in ProxyKeys(c) ==> LeaseReaches(s.tunnels, k, s.tunnels.now + cfg.ttl)
    ensures Backed(cfg, s.(cache := C.Stored(s.cache, x, c, s.tunnels.now, cfg.ttl)), lost)
  {
    var cache := C.Stored(s.cache, x, c, s.tunnels.now, cfg.ttl);
    forall y | y in cache ensures EntryBacked(s.tunnels, cache[y], cfg.ttl, lost) {
      assert y != x ==> EntryBacked(s.tunnels, s.cache[y], cfg.ttl, lost);
    }
  }

  lemma BackedFetched(cfg: Config, s: Server, req: Request, c: CachedKubeconfig, up: Upstream, lost: set<Key>)
    requires Backed(cfg, s, lost)
    ensures var (s1, res) := Renewed(cfg, s, c, up);
      if res.Ok?
      then Backed(cfg, s1.(cache := C.Stored(s1.cache, KeyOf(req), c, s1.tunnels.now, cfg.ttl)), lost - ProxyKeys(c))
      else Backed(cfg, s1, lost)
  {
    BackedRenewed(cfg, s, c, up, lost);
    var (s1, res) := Renewed(cfg, s, c, up);
    if res.Ok? {
      BackedStore(cfg, s1, KeyOf(req), c, lost - ProxyKeys(c));
    } else {
      assert lost - {} == lost;
    }
  }

  lemma LoadedProlongs(cfg: Config, s: Server, req: Request, up: Upstream, lost: set<Key>)
    requires Backed(cfg, s, lost)
    ensures Prolongs(s.tunnels, Loaded(cfg, s, req, up).0.tunnels)
  {
    var s0 := s.(tunnels := s.tunnels.(now := s.tunnels.now + up.latency));
    BackedWait(cfg, s, up.latency, lost);
    assert Prolongs(s.tunnels, s0.tunnels);
    if Fetch(cfg, req, up).Ok? {
      BackedRenewed(cfg, s0, Fetch(cfg, req, up).value, up, lost);
    }
  }

  lemma BackedLoaded(cfg: Config, s: Server, req: Request, up: Upstream, lost: set<Key>)
    requires Backed(cfg, s, lost) && KeyOf(req) !in s.cache
    ensures var (s', res) := Loaded(cfg, s, req, up);
      && Backed(cfg, s', lost - if res.Ok? then ProxyKeys(Fetch(cfg, req, up).value) else {})
      && (res.Ok? ==> KeyOf(req) in s'.cache && s'.cache[KeyOf(req)].value == Fetch(cfg, req, up).value)
  {
    BackedWait(cfg, s, up.latency, lost);
    if Fetch(cfg, req, up).Ok? {
      var s0 := s.(tunnels := s.tunnels.(now := s.tunnels.now + up.latency));
      BackedFetched(cfg, s0, req, Fetch(cfg, req, up).value, up, lost);
    }
    assert lost - {} == lost;
  }

  lemma BackedSubset(cfg: Config, s: Server, cache: Cache, lost: set<Key>)
    requires Backed(cfg, s, lost)
    requires forall x :: x in cache ==> x in s.cache && cache[x] == s.cache[x]
    ensures Backed(cfg, s.(cache := cache), lost)
  {
  }

  lemma BackedCall(cfg: Config, s: Server, req: Request, up: Upstream, lost: set<Key>)
    requires Backed(cfg, s, lost)
    ensures Backed(cfg, Cached(cfg, s, req, up).0, lost - Ensured(cfg, s, req, up))
    ensures Prolongs(s.tunnels, Cached(cfg, s, req, up).0.tunnels)
  {
    var (cache, hit) := C.Got(s.cache, KeyOf(req), s.tunnels.now);
    BackedSubset(cfg, s, cache, lost);
    if hit.Some? {
      BackedRenewed(cfg, s.(cache := cache), hit.value, up, lost);
    } else {
      BackedLoaded(cfg, s.(cache := cache), req, up, lost);
      LoadedProlongs(cfg, s.(cache := cache), req, up, lost);
    }
  }

  lemma BackedTunnelOp(cfg: Config, s: Server, op: Op, lost: set<Key>)
    requires Backed(cfg, s, lost) && !op.Call? && Possible(s, op)
    ensures Backed(cfg, Do(cfg, s, op), LostAfter(cfg, s, op, lost))
  {
    var v, v' := s.tunnels, Do(cfg, s, op).tunnels;
    RefinesLeases(v, TunnelOp(op));
    NowAfter(v, TunnelOp(op));
    forall k | k in v'.entries
      ensures k in v.entries && LeaseOf(v')[k] == LeaseOf(v)[k]
      ensures v'.timers[v'.entries[k].timer].deadline == v.timers[v.entries[k].timer].deadline
    {
      assert k in LeaseOf(v') && k in LeaseOf(v);
    }
    forall x | x in s.cache ensures EntryBacked(v', s.cache[x], cfg.ttl, LostAfter(cfg, s, op, lost)) {
      var e := s.cache[x];
      assert EntryBacked(v, e, cfg.ttl, lost);
      forall k | k in ProxyKeys(e.value) && v'.now < e.expiresAt
        ensures k in LostAfter(cfg, s, op, lost) || LeaseReaches(v', k, e.expiresAt)
      {
        assert k in lost || LeaseReaches(v, k, e.expiresAt);
        if k !in LostAfter(cfg, s, op, lost) {
          assert k in LeaseOf(v) && LeaseOf(v)[k].until >= e.expiresAt;
          assert k in LeaseOf(v');
        }
      }
    }
  }

  lemma {:induction false} RunBacked(cfg: Config, ops: seq<Op>, s: Server)
    requires RunFrom(cfg, START, ops) == Some(s)
    ensures Backed(cfg, s, Lost(cfg, ops))
  {
    if ops == [] {
    } else {
      var n := |ops| - 1;
      var m := RunFrom(cfg, START, ops[..n]).value;
      RunBacked(cfg, ops[..n], m);
      match ops[n]
      case Call(req, up) => BackedCall(cfg, m, req, up, Lost(cfg, ops[..n]));
      case _ => BackedTunnelOp(cfg, m, ops[n], Lost(cfg, ops[..n]));
    }
  }

  /** Over every run of calls, timers, process exits and shutdowns: the tunnel of a cached
      kubeconfig that has not reached its expiry has a lease that ends no earlier, unless
      the tunnel was lost to an exit or a shutdown and has not been ensured since. */
  lemma CachedKubeconfigsHaveTunnels(cfg: Config, ops: seq<Op>, s: Server, x: string, p: ProxyTarget)
    requires RunFrom(cfg, START, ops) == Some(s)
    requires x in s.cache && s.cache[x].value.proxyTarget == Some(p)
    requires s.tunnels.now < s.cache[x].expiresAt && ProxyKey(p) !in Lost(cfg, ops)
    ensures Coherent(s.tunnels)
    ensures ProxyKey(p) in LeaseOf(s.tunnels)
    ensures LeaseOf(s.tunnels)[ProxyKey(p)].until >= s.cache[x].expiresAt
  {
    RunBacked(cfg, ops, s);
    assert EntryBacked(s.tunnels, s.cache[x], cfg.ttl, Lost(cfg, ops));
    assert ProxyKey(p) in ProxyKeys(s.cache[x].value);
  }

  /** A call, hit or miss, for whatever cluster, only ever prolongs leases. */
  lemma CallsOnlyProlongLeases(cfg: Config, ops: seq<Op>, s: Server, req: Request, up: Upstream, k: Key)
    requires RunFrom(cfg, START, ops) == Some(s) && k in s.tunnels.entries
    ensures var s' := Cached(cfg, s, req, up).0;
      && Coherent(s.tunnels) && Coherent(s'.tunnels)
      && k in LeaseOf(s'.tunnels) && LeaseOf(s'.tunnels)[k].until >= LeaseOf(s.tunnels)[k].until
  {
    RunBacked(cfg, ops, s);
    BackedCall(cfg, s, req, up, Lost(cfg, ops));
    var until := LeaseOf(s.tunnels)[k].until;
    assert LeaseReaches(s.tunnels, k, until);
    assert LeaseReaches(Cached(cfg, s, req, up).0.tunnels, k, until);
  }

  // ---------------------------------------------------------------- the instant of expiry

  predicate LeaseEndsBy(v: Tunnels, k: Key, t: int) {
    k in v.entries && v.entries[k].timer < |v.timers| && v.timers[v.entries[k].timer].deadline <= t
  }

  // A timer may fire now, and then the tunnel k is not registered.
  ghost predicate CanLackTunnel(cfg: Config, s: Server, k: Key) {
    exists t :: Possible(s, Fires(t)) && k !in Do(cfg, s, Fires(t)).tunnels.entries
  }

  lemma CanLackTunnelIff(cfg: Config, s: Server, k: Key)
    requires Coherent(s.tunnels)
    ensures CanLackTunnel(cfg, s, k) <==> k !in s.tunnels.entries || LeaseEndsBy(s.tunnels, k, s.tunnels.now)
  {
    var v := s.tunnels;
    if t: Tid :| Possible(s, Fires(t)) && k !in Do(cfg, s, Fires(t)).tunnels.entries {
      FireEndsItsOwn(v, t, k);
    }
    if k !in v.entries || LeaseEndsBy(v, k, v.now) {
      var t := if k in v.entries then v.entries[k].timer else |v.timers|;
      FireEndsItsOwn(v, t, k);
      assert Possible(s, Fires(t)) && k !in Do(cfg, s, Fires(t)).tunnels.entries;
    }
  }

  /** On every run, a kubeconfig that would be answered from the cache, and whose tunnel was not
      lost, can be without its tunnel exactly at the instant of its expiry, and then exactly if
      the tunnel is gone or its lease ends no later: the cache still answers (Time.After is
      strict) while the timer may fire, or has fired. */
  lemma HitLacksTunnelOnlyAtExpiry(cfg: Config, ops: seq<Op>, s: Server, x: string, p: ProxyTarget)
    requires RunFrom(cfg, START, ops) == Some(s)
    requires x in s.cache && s.cache[x].value.proxyTarget == Some(p)
    requires C.Got(s.cache, x, s.tunnels.now).1.Some? && ProxyKey(p) !in Lost(cfg, ops)
    ensures CanLackTunnel(cfg, s, ProxyKey(p)) <==>
      && s.tunnels.now == s.cache[x].expiresAt
      && (ProxyKey(p) !in s.tunnels.entries || LeaseEndsBy(s.tunnels, ProxyKey(p), s.cache[x].expiresAt))
  {
    var v, k, e := s.tunnels, ProxyKey(p), s.cache[x];
    RunBacked(cfg, ops, s);
    assert EntryBacked(v, e, cfg.ttl, Lost(cfg, ops)) && k in ProxyKeys(e.value);
    assert v.now < e.expiresAt ==> LeaseReaches(v, k, e.expiresAt);
    CanLackTunnelIff(cfg, s, k);
  }

  // A kubeconfig that needs a tunnel is still answered from the cache, but has none.
  ghost predicate HitWithoutTunnel(cfg: Config, ops: seq<Op>, s: Server, x: string) {
    && RunFrom(cfg, START, ops) == Some(s) && Lost(cfg, ops) == {}
    && C.Got(s.cache, x, s.tunnels.now).1.Some? && s.cache[x].value.proxyTarget.Some?
    && s.tunnels.entries == map[]
  }

  const WITNESS_CONFIG := Config(map[], "gw", false, 60)
  const WITNESS_REQUEST := Request(Source("a", [], ""), "b", "c", "d")
  const WITNESS_UPSTREAM := Upstream(0, true, Ok("kc"), Err, Ok(Some(("ip", "1"))), Up(0))

  lemma RunSnoc(cfg: Config, ops: seq<Op>, s: Server, op: Op)
    requires RunFrom(cfg, START, ops) == Some(s) && Possible(s, op)
    ensures RunFrom(cfg, START, ops + [op]) == Some(Do(cfg, s, op))
    ensures Lost(cfg, ops + [op]) == LostAfter(cfg, s, op, Lost(cfg, ops))
  {
    assert (ops + [op])[..|ops|] == ops;
  }

  lemma WitnessCall() returns (s: Server)
    ensures s.tunnels.entries == map[TargetKey("ip", "1") := Entry(0, 0)]
    ensures s.tunnels.timers == [Timer(TargetKey("ip", "1"), 60, Armed)] && s.tunnels.now == 0
    ensures s.cache ==
      map[KeyOf(WITNESS_REQUEST) := C.Entry(CachedKubeconfig("kc", Some(ProxyTarget("gw", "ip", "1"))), 60)]
    ensures RunFrom(WITNESS_CONFIG, START, [Call(WITNESS_REQUEST, WITNESS_UPSTREAM)]) == Some(s)
    ensures Lost(WITNESS_CONFIG, [Call(WITNESS_REQUEST, WITNESS_UPSTREAM)]) == {}
  {
    var op := Call(WITNESS_REQUEST, WITNESS_UPSTREAM);
    s := Do(WITNESS_CONFIG, START, op);
    RunSnoc(WITNESS_CONFIG, [], START, op);
    assert [] + [op] == [op];
  }

  /** At the very instant of expiry the two clocks disagree: the cache still answers
      (Time.After is strict) while the timer may already have ended the tunnel. */
  lemma ExpiryInstantMayLackTunnel()
    ensures exists cfg, ops, s, x :: HitWithoutTunnel(cfg, ops, s, x)
  {
    var cfg := WITNESS_CONFIG;
    var ops := [Call(WITNESS_REQUEST, WITNESS_UPSTREAM)];
    var s1 := WitnessCall();
    var s2 := Do(cfg, s1, Wait(60));
    RunSnoc(cfg, ops, s1, Wait(60));
    var s3 := Do(cfg, s2, Fires(0));
    RunSnoc(cfg, ops + [Wait(60)], s2, Fires(0));
    assert s3.tunnels.entries == map[];
    assert HitWithoutTunnel(cfg, ops + [Wait(60)] + [Fires(0)], s3, KeyOf(WITNESS_REQUEST));
  }
}
