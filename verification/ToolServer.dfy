/**
 The tool server as an object (internal/server/kubeconfig.go, resolve.go, target.go): the
 two caches and the tunnel manager it drives.  Each method is proved to do what the
 function of module Kubeconfigs or Discovery says; that is where the properties are.
 */
module ToolServers {
  import opened Basics
  import opened Keys
  import opened Targets
  import opened Leases
  import opened TunnelManager
  import opened Kubeconfigs
  import opened Discovery
  import opened Sources

  // Once a context fails to list, the call has failed, and lists nothing more.
  lemma {:induction false} OverContextsFails(cache: ListCache, src: Source, contexts: seq<string>, i: nat,
                                             now: int, ttl: int, w: World)
    requires i <= |contexts| && OverContexts(cache, src, contexts[..i], now, ttl, w).1.Err?
    ensures OverContexts(cache, src, contexts, now, ttl, w) == OverContexts(cache, src, contexts[..i], now, ttl, w)
    decreases |contexts|
  {
    if i == |contexts| {
      assert contexts[..i] == contexts;
    } else {
      var n := |contexts| - 1;
      assert contexts[..n][..i] == contexts[..i];
      OverContextsFails(cache, src, contexts[..n], i, now, ttl, w);
    }
  }

  lemma {:induction false} OverSourcesFails(cache: ListCache, sources: seq<Source>, i: nat,
                                            now: int, ttl: int, w: World)
    requires i <= |sources| && OverSources(cache, sources[..i], now, ttl, w).1.Err?
    ensures OverSources(cache, sources, now, ttl, w) == OverSources(cache, sources[..i], now, ttl, w)
    decreases |sources|
  {
    if i == |sources| {
      assert sources[..i] == sources;
    } else {
      var n := |sources| - 1;
      assert sources[..n][..i] == sources[..i];
      OverSourcesFails(cache, sources[..n], i, now, ttl, w);
    }
  }

  // One discovery over the configured sources by name: what it leaves in the cache, and yields.
  ghost predicate Discovers(cfg: Config, before: ListCache, now: int, ttl: int, w: World,
                            after: ListCache, rs: Result<seq<Resolved>>) {
    exists sources :: Sorted(cfg, sources) && (after, rs) == OverSources(before, sources, now, ttl, w)
  }

  /** The configuration, the cache and the world determine what a discovery yields. */
  lemma DiscoveryIsDeterministic(cfg: Config, before: ListCache, now: int, ttl: int, w: World,
                                 a: ListCache, rs: Result<seq<Resolved>>, b: ListCache, qs: Result<seq<Resolved>>)
    requires Discovers(cfg, before, now, ttl, w, a, rs) && Discovers(cfg, before, now, ttl, w, b, qs)
    ensures a == b && rs == qs
  {
    var x :| Sorted(cfg, x) && (a, rs) == OverSources(before, x, now, ttl, w);
    var y :| Sorted(cfg, y) && (b, qs) == OverSources(before, y, now, ttl, w);
    SortedIsUnique(cfg, x, y);
  }

  class ToolServer {
    const cfg: Config
    const clusterList: C.TTLCache<string, seq<Cluster>>
    const kubeconfig: C.TTLCache<string, CachedKubeconfig>
    const proxyMgr: Manager

    ghost predicate Valid()
      reads proxyMgr
    {
      proxyMgr.Valid() && kubeconfig.ttl == cfg.ttl
    }

    // The server as far as kubeconfigs are concerned.
    ghost function View(): Server
      reads kubeconfig, proxyMgr, proxyMgr.clock, proxyMgr.processEntries.Values
    {
      Server(kubeconfig.store, proxyMgr.View())
    }

    constructor (cfg: Config, clusterListTTL: int, clock: Clock)
      ensures Valid() && this.cfg == cfg && clusterList.ttl == clusterListTTL
      ensures clusterList.store == map[] && proxyMgr.clock == clock
      ensures View() == START.(tunnels := NO_TUNNELS.(now := clock.now, timers := clock.timers))
    {
      this.cfg := cfg;
      clusterList := new C.TTLCache(clusterListTTL);
      kubeconfig := new C.TTLCache(cfg.ttl);
      proxyMgr := new Manager(clock);
    }

    method EnsureTunnel(p: ProxyTarget, startup: Startup) returns (ok: bool)
      requires Valid()
      modifies proxyMgr, proxyMgr.clock, proxyMgr.processEntries.Values
      ensures Valid() && fresh(proxyMgr.processEntries.Values - old(proxyMgr.processEntries.Values))
      ensures kubeconfig.store == old(kubeconfig.store)
      ensures (proxyMgr.View(), ok) == Ensure(old(proxyMgr.View()), ProxyKey(p), cfg.ttl, startup)
    {
      ok := proxyMgr.EnsureProxy(p.apiServerIP, p.apiServerPort, cfg.ttl, None, startup);
    }

    method CachedKubeconfig(src: Source, contextName: string, namespace: string, clusterName: string,
                            up: Upstream) returns (r: Result<string>)
      requires Valid()
      modifies kubeconfig, proxyMgr, proxyMgr.clock, proxyMgr.processEntries.Values
      ensures Valid() && fresh(proxyMgr.processEntries.Values - old(proxyMgr.processEntries.Values))
      ensures (View(), r) == Cached(cfg, old(View()), Request(src, contextName, namespace, clusterName), up)
    {
      var sshuttleHost := src.sshuttleHost;
      if sshuttleHost == "" {
        sshuttleHost := cfg.sshuttleHost;
      }
      var key := KubeconfigKey(src.name, contextName, namespace, clusterName);
      var cached := kubeconfig.Get(key, proxyMgr.clock.now);
      if cached.Some? {
        if cached.value.proxyTarget.Some? {
          var ok := EnsureTunnel(cached.value.proxyTarget.value, up.startup);
          if !ok {
            return Err;
          }
        }
        return Ok(cached.value.kubeconfig);
      }
      r := LoadKubeconfig(key, sshuttleHost, Request(src, contextName, namespace, clusterName), up);
    }

    // The rest of cachedKubeconfig, after a miss (lines 40-71).
    method LoadKubeconfig(key: string, sshuttleHost: string, ghost req: Request, up: Upstream)
      returns (r: Result<string>)
      requires Valid() && key == KeyOf(req) && sshuttleHost == SshuttleHost(cfg, req.source)
      modifies kubeconfig, proxyMgr, proxyMgr.clock, proxyMgr.processEntries.Values
      ensures Valid() && fresh(proxyMgr.processEntries.Values - old(proxyMgr.processEntries.Values))
      ensures (View(), r) == Loaded(cfg, old(View()), req, up)
    {
      ghost var before := proxyMgr.View();
      proxyMgr.clock.Advance(up.latency);
      assert proxyMgr.View() == before.(now := before.now + up.latency);
      if !up.clients || up.fetched.Err? {
        return Err;
      }
      var kc := up.fetched.value;
      if cfg.transforms {
        if up.transformed.Err? {
          return Err;
        }
        kc := up.transformed.value;
      }
      var proxyTarget: Option<ProxyTarget> := None;
      if sshuttleHost != "" {
        if up.apiServer.Err? {
          return Err;
        }
        if up.apiServer.value.Some? {
          var (host, port) := up.apiServer.value.value;
          var p := ProxyTarget(sshuttleHost, host, port);
          var ok := EnsureTunnel(p, up.startup);
          if !ok {
            return Err;
          }
          proxyTarget := Some(p);
        }
      }
      kubeconfig.Set(key, Kubeconfigs.CachedKubeconfig(kc, proxyTarget), proxyMgr.clock.now);
      return Ok(kc);
    }

    method ResolveTarget(target: string, up: Upstream) returns (r: Result<string>)
      requires Valid()
      modifies kubeconfig, proxyMgr, proxyMgr.clock, proxyMgr.processEntries.Values
      ensures Valid() && fresh(proxyMgr.processEntries.Values - old(proxyMgr.processEntries.Values))
      ensures match Route(cfg, target)
        case None => r == Err && View() == old(View())
        case Some(req) => (View(), r) == Cached(cfg, old(View()), req, up)
    {
      var parsed := ParseTarget(target);
      if parsed.None? {
        return Err;
      }
      var c := parsed.value;
      if c.kubeconfigName !in cfg.sources {
        return Err;
      }
      r := CachedKubeconfig(cfg.sources[c.kubeconfigName], c.context, c.namespace, c.name, up);
    }

    method ListClustersCached(src: Source, contextName: string, now: int, w: World)
      returns (r: Result<seq<Cluster>>)
      modifies clusterList
      ensures (clusterList.store, r) ==
        Listed(old(clusterList.store), src, contextName, now, clusterList.ttl, w)
    {
      var key := ClusterListKey(src.name, contextName);
      var cached := clusterList.Get(key, now);
      if cached.Some? {
        return Ok(cached.value);
      }
      var items := w.lister(src, contextName);
      if items.Err? {
        return Err;
      }
      var clusters := Discovered(src, contextName, items.value);
      clusterList.Set(key, clusters, now);
      return Ok(clusters);
    }

    method OverContextsOf(src: Source, contexts: seq<string>, now: int, w: World)
      returns (r: Result<seq<Resolved>>)
      modifies clusterList
      ensures (clusterList.store, r) ==
        OverContexts(old(clusterList.store), src, contexts, now, clusterList.ttl, w)
    {
      var result: seq<Resolved> := [];
      for i := 0 to |contexts|
        invariant (clusterList.store, Ok(result)) ==
          OverContexts(old(clusterList.store), src, contexts[..i], now, clusterList.ttl, w)
      {
        assert contexts[..i + 1][..i] == contexts[..i];
        var clusters := ListClustersCached(src, contexts[i], now, w);
        if clusters.Err? {
          OverContextsFails(old(clusterList.store), src, contexts, i + 1, now, clusterList.ttl, w);
          return Err;
        }
        var found := Attach(clusters.value, src);
        result := result + found;
      }
      assert contexts[..|contexts|] == contexts;
      return Ok(result);
    }

    method Attach(clusters: seq<Cluster>, src: Source) returns (rs: seq<Resolved>)
      ensures rs == WithSource(clusters, src)
    {
      rs := [];
      for i := 0 to |clusters|
        invariant rs == WithSource(clusters, src)[..i]
      {
        rs := rs + [Resolved(clusters[i], src)];
      }
    }

    method OverSourcesOf(sources: seq<Source>, now: int, w: World) returns (r: Result<seq<Resolved>>)
      modifies clusterList
      ensures (clusterList.store, r) ==
        OverSources(old(clusterList.store), sources, now, clusterList.ttl, w)
    {
      var result: seq<Resolved> := [];
      for i := 0 to |sources|
        invariant (clusterList.store, Ok(result)) ==
          OverSources(old(clusterList.store), sources[..i], now, clusterList.ttl, w)
      {
        assert sources[..i + 1][..i] == sources[..i];
        var contexts := ContextsOf(w, sources[i]);
        if contexts.Err? {
          OverSourcesFails(old(clusterList.store), sources, i + 1, now, clusterList.ttl, w);
          return Err;
        }
        var found := OverContextsOf(sources[i], contexts.value, now, w);
        if found.Err? {
          OverSourcesFails(old(clusterList.store), sources, i + 1, now, clusterList.ttl, w);
          return Err;
        }
        result := result + found.value;
      }
      assert sources[..|sources|] == sources;
      return Ok(result);
    }

    method AllResolvedClusters(now: int, w: World) returns (r: Result<seq<Resolved>>)
      modifies clusterList
      ensures Discovers(cfg, old(clusterList.store), now, clusterList.ttl, w, clusterList.store, r)
    {
      var sources := SortedKubeconfigs(cfg);
      r := OverSourcesOf(sources, now, w);
    }

    method ListTargets(now: int, w: World) returns (r: Result<seq<string>>)
      modifies clusterList
      ensures exists rs ::
        && Discovers(cfg, old(clusterList.store), now, clusterList.ttl, w, clusterList.store, rs)
        && r == if rs.Ok? then Ok(TargetsOf(KnownOf(rs.value))) else Err
    {
      var resolved := AllResolvedClusters(now, w);
      if resolved.Err? {
        return Err;
      }
      var targets: seq<string> := [];
      for i := 0 to |resolved.value|
        invariant targets == TargetsOf(KnownOf(resolved.value))[..i]
      {
        targets := targets + [FormatTarget(resolved.value[i].cluster)];
      }
      assert targets == TargetsOf(KnownOf(resolved.value));
      return Ok(targets);
    }

    method AllKnownClusters(now: int, w: World) returns (r: Result<seq<Cluster>>)
      modifies clusterList
      ensures exists rs ::
        && Discovers(cfg, old(clusterList.store), now, clusterList.ttl, w, clusterList.store, rs)
        && r == if rs.Ok? then Ok(KnownOf(rs.value)) else Err
    {
      var resolved := AllResolvedClusters(now, w);
      if resolved.Err? {
        return Err;
      }
      var known: seq<Cluster> := [];
      for i := 0 to |resolved.value|
        invariant known == KnownOf(resolved.value)[..i]
      {
        known := known + [resolved.value[i].cluster];
      }
      assert known == KnownOf(resolved.value);
      return Ok(known);
    }
  }
}
