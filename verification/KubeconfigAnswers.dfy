/**
 What one call of cachedKubeconfig answers and leaves behind (internal/server/kubeconfig.go:23-72),
 said in terms of what the world answers alone.
 */
module KubeconfigAnswers {
  import opened Basics
  import opened Keys
  import opened Leases
  import opened TunnelManager
  import opened Kubeconfigs

  // The host to tunnel through: the source's own before the one configured for all.
  ghost predicate Via(cfg: Config, src: Source, host: string) {
    || (src.sshuttleHost != "" && host == src.sshuttleHost)
    || (src.sshuttleHost == "" && host == cfg.sshuttleHost)
  }

  // The tunnel k is there afterwards: it was up, or its process survives its startup.
  predicate ComesUp(v: Tunnels, k: Key, st: Startup) {
    k in v.entries || st.Up?
  }

  // The tunnel k has a lease until then.
  predicate LeasedUntil(v: Tunnels, k: Key, until: int) {
    && k in v.entries && v.entries[k].timer < |v.timers|
    && v.timers[v.entries[k].timer] == Timer(k, until, Armed)
  }

  predicate Misses(s: Server, req: Request) {
    var key := KubeconfigKey(req.source.name, req.context, req.namespace, req.clusterName);
    key !in s.cache || s.tunnels.now > s.cache[key].expiresAt
  }

  // What the API server's restrictions call for, given the host to tunnel through.
  ghost predicate Needs(host: string, up: Upstream, ip: string, port: string) {
    host != "" && up.apiServer == Ok(Some((ip, port)))
  }

  /** A call that misses succeeds exactly if the clients and the Secret are there, the transforms,
      if configured, succeed, and, if there is a host to tunnel through, the API server's
      restrictions can be read and the tunnel they call for comes up. */
  lemma MissSucceedsIff(cfg: Config, s: Server, req: Request, up: Upstream, host: string)
    requires Misses(s, req) && Via(cfg, req.source, host)
    ensures Cached(cfg, s, req, up).1.Ok? <==>
      && up.clients && up.fetched.Ok?
      && (cfg.transforms ==> up.transformed.Ok?)
      && (host != "" ==> up.apiServer.Ok?)
      && (forall ip, port :: Needs(host, up, ip, port) ==> ComesUp(s.tunnels, ip + ":" + port, up.startup))
  {
    assert KeyOf(req) == KubeconfigKey(req.source.name, req.context, req.namespace, req.clusterName);
    if Fetch(cfg, req, up).Ok? && host != "" && up.apiServer.value.Some? {
      var (ip, port) := up.apiServer.value.value;
      assert Needs(host, up, ip, port) && TargetKey(ip, port) == ip + ":" + port;
    }
  }

  lemma TunnelKeySpelled(cfg: Config, req: Request, up: Upstream, host: string)
    requires Via(cfg, req.source, host) && Fetch(cfg, req, up).Ok?
    ensures match Fetch(cfg, req, up).value.proxyTarget
      case None => forall ip, port :: !Needs(host, up, ip, port)
      case Some(p) =>
        && Needs(host, up, p.apiServerIP, p.apiServerPort)
        && p == ProxyTarget(host, p.apiServerIP, p.apiServerPort)
        && ProxyKey(p) == p.apiServerIP + ":" + p.apiServerPort
  {
  }

  /** The answer is the Secret's kubeconfig, transformed if so configured, and that is what is
      stored, for ttl from the moment of storing, with the proxy target it needs. */
  lemma MissAnswers(cfg: Config, s: Server, req: Request, up: Upstream, host: string)
    requires Misses(s, req) && Via(cfg, req.source, host)
    ensures var (s', r) := Cached(cfg, s, req, up);
      var key := KubeconfigKey(req.source.name, req.context, req.namespace, req.clusterName);
      r.Ok? ==>
        && r == (if cfg.transforms then up.transformed else up.fetched)
        && key in s'.cache && s'.cache[key].value.kubeconfig == r.value
        && s'.cache[key].expiresAt == s.tunnels.now + up.latency + cfg.ttl
        && ((forall ip, port :: !Needs(host, up, ip, port)) ==> s'.cache[key].value.proxyTarget == None)
        && (forall ip, port :: Needs(host, up, ip, port) ==>
             s'.cache[key].value.proxyTarget == Some(ProxyTarget(host, ip, port)))
  {
    assert KeyOf(req) == KubeconfigKey(req.source.name, req.context, req.namespace, req.clusterName);
    if Fetch(cfg, req, up).Ok? {
      TunnelKeySpelled(cfg, req, up, host);
    }
  }

  /** The tunnel it needs then has a lease that ends when the cache entry does. */
  lemma MissLeases(cfg: Config, s: Server, req: Request, up: Upstream, host: string, ip: string, port: string)
    requires Misses(s, req) && Via(cfg, req.source, host) && Needs(host, up, ip, port)
    ensures var (s', r) := Cached(cfg, s, req, up);
      && s'.tunnels.now == s.tunnels.now + up.latency
      && (r.Ok? ==> LeasedUntil(s'.tunnels, ip + ":" + port, s.tunnels.now + up.latency + cfg.ttl))
  {
    if Fetch(cfg, req, up).Ok? {
      TunnelKeySpelled(cfg, req, up, host);
    }
  }

  /** A miss that fails leaves nothing under its key, and none touches any other key. */
  lemma MissLeavesOthers(cfg: Config, s: Server, req: Request, up: Upstream, other: string)
    requires Misses(s, req)
    ensures var (s', r) := Cached(cfg, s, req, up);
      var key := KubeconfigKey(req.source.name, req.context, req.namespace, req.clusterName);
      && (r.Err? ==> key !in s'.cache)
      && (other != key ==> (other in s'.cache <==> other in s.cache))
      && (other != key && other in s.cache ==> s'.cache[other] == s.cache[other])
  {
    assert KeyOf(req) == KubeconfigKey(req.source.name, req.context, req.namespace, req.clusterName);
  }

  /** A call that hits fetches and stores nothing: it answers with what is stored, exactly if the
      tunnel that needs comes up, and renews the tunnel's lease. */
  lemma HitAnswers(cfg: Config, s: Server, req: Request, up: Upstream)
    requires !Misses(s, req)
    ensures var (s', r) := Cached(cfg, s, req, up);
      var c := s.cache[KubeconfigKey(req.source.name, req.context, req.namespace, req.clusterName)].value;
      && s'.cache == s.cache && s'.tunnels.now == s.tunnels.now
      && (r.Ok? ==> r.value == c.kubeconfig)
      && (c.proxyTarget == None ==> r.Ok? && s'.tunnels == s.tunnels)
      && (c.proxyTarget != None ==>
           var key := c.proxyTarget.value.apiServerIP + ":" + c.proxyTarget.value.apiServerPort;
           && (r.Ok? <==> ComesUp(s.tunnels, key, up.startup))
           && (r.Ok? ==> LeasedUntil(s'.tunnels, key, s.tunnels.now + cfg.ttl)))
  {
    assert KeyOf(req) == KubeconfigKey(req.source.name, req.context, req.namespace, req.clusterName);
    var c := s.cache[KeyOf(req)].value;
    if c.proxyTarget.Some? {
      assert ProxyKey(c.proxyTarget.value) ==
        c.proxyTarget.value.apiServerIP + ":" + c.proxyTarget.value.apiServerPort;
    }
  }
}
