/**
 Discovering clusters (internal/server/resolve.go) through the cluster-list cache, and
 routing a target back to where it was discovered (internal/server/target.go).
 */
module Discovery {
  import opened Basics
  import opened Text
  import opened Keys
  import opened Targets
  import opened Kubeconfigs
  import opened ReadThrough

  // One Cluster resource as the API server lists it.
  datatype Item = Item(namespace: string, name: string, customFields: map<string, string>)

  datatype Resolved = Resolved(cluster: Cluster, source: Source)

  // What the world answers during one call: the listing of a source's context (building
  // the clients included), and the contexts found in a source's kubeconfig file.
  datatype World = World(
    lister: (Source, string) -> Result<seq<Item>>,
    contextsInFile: Source -> Result<seq<string>>)

  type ListCache = map<string, C.Entry<seq<Cluster>>>

  predicate FoundUnder(cs: seq<Cluster>, name: string, context: string) {
    forall c | c in cs :: c.kubeconfigName == name && c.context == context
  }

  // ListClustersForContext stamps the source's name and the context on every cluster.
  function Discovered(src: Source, context: string, items: seq<Item>): (cs: seq<Cluster>)
    ensures FoundUnder(cs, src.name, context)
  {
    seq(|items|, i requires 0 <= i < |items| =>
      Cluster(src.name, context, items[i].namespace, items[i].name, items[i].customFields))
  }

  function ContextsOf(w: World, src: Source): Result<seq<string>> {
    if src.contexts != [] then Ok(src.contexts) else w.contextsInFile(src)
  }

  function Listed(cache: ListCache, src: Source, context: string, now: int, ttl: int, w: World)
    : (ListCache, Result<seq<Cluster>>)
  {
    var key := ClusterListKey(src.name, context);
    var (cache1, hit) := C.Got(cache, key, now);
    match hit
    case Some(cs) => (cache1, Ok(cs))
    case None =>
      match w.lister(src, context)
      case Err => (cache1, Err)
      case Ok(items) =>
        (C.Stored(cache1, key, Discovered(src, context, items), now, ttl), Ok(Discovered(src, context, items)))
  }

  function WithSource(cs: seq<Cluster>, src: Source): (rs: seq<Resolved>)
    ensures |rs| == |cs| && forall i :: 0 <= i < |cs| ==> rs[i] == Resolved(cs[i], src)
  {
    seq(|cs|, i requires 0 <= i < |cs| => Resolved(cs[i], src))
  }

  // The inner loop of allResolvedClusters, over the contexts of one source.
  function OverContexts(cache: ListCache, src: Source, contexts: seq<string>, now: int, ttl: int, w: World)
    : (ListCache, Result<seq<Resolved>>)
  {
    if contexts == [] then (cache, Ok([]))
    else
      var n := |contexts| - 1;
      var (cache1, front) := OverContexts(cache, src, contexts[..n], now, ttl, w);
      if front.Err? then (cache1, Err)
      else
        var (cache2, cs) := Listed(cache1, src, contexts[n], now, ttl, w);
        (cache2, if cs.Err? then Err else Ok(front.value + WithSource(cs.value, src)))
  }

  // The outer loop, over the sources in the order given.
  function OverSources(cache: ListCache, sources: seq<Source>, now: int, ttl: int, w: World)
    : (ListCache, Result<seq<Resolved>>)
  {
    if sources == [] then (cache, Ok([]))
    else
      var n := |sources| - 1;
      var (cache1, front) := OverSources(cache, sources[..n], now, ttl, w);
      if front.Err? || ContextsOf(w, sources[n]).Err? then (cache1, Err)
      else
        var (cache2, rs) := OverContexts(cache1, sources[n], ContextsOf(w, sources[n]).value, now, ttl, w);
        (cache2, if rs.Err? then Err else Ok(front.value + rs.value))
  }

  function KnownOf(rs: seq<Resolved>): (cs: seq<Cluster>)
    ensures |cs| == |rs| && forall i :: 0 <= i < |rs| ==> cs[i] == rs[i].cluster
  {
    seq(|rs|, i requires 0 <= i < |rs| => rs[i].cluster)
  }

  function TargetsOf(cs: seq<Cluster>): (ts: seq<string>)
    ensures |ts| == |cs| && forall i :: 0 <= i < |cs| ==> ts[i] == FormatTarget(cs[i])
  {
    seq(|cs|, i requires 0 <= i < |cs| => FormatTarget(cs[i]))
  }

  // ---------------------------------------------------------------- cached listings

  // A listing cached for a configured source and a context was made for exactly these.
  ghost predicate ListingsOk(cfg: Config, cache: ListCache) {
    forall name, context :: name in cfg.sources && ClusterListKey(name, context) in cache ==>
      FoundUnder(cache[ClusterListKey(name, context)].value, name, context)
  }

  lemma ListedOk(cfg: Config, cache: ListCache, src: Source, context: string, now: int, ttl: int, w: World)
    requires ConfigOk(cfg) && ListingsOk(cfg, cache) && Configured(cfg, src)
    ensures var (cache', cs) := Listed(cache, src, context, now, ttl, w);
      ListingsOk(cfg, cache') && (cs.Ok? ==> FoundUnder(cs.value, src.name, context))
  {
    var cache' := Listed(cache, src, context, now, ttl, w).0;
    forall name, other | name in cfg.sources && ClusterListKey(name, other) in cache'
      ensures FoundUnder(cache'[ClusterListKey(name, other)].value, name, other)
    {
      ClusterListKeyInjective(src.name, context, name, other);
    }
  }

  // r was found in a context of its own, configured source, and carries both names.
  predicate WellResolved(cfg: Config, w: World, r: Resolved) {
    && Configured(cfg, r.source)
    && r.cluster.kubeconfigName == r.source.name
    && ContextsOf(w, r.source).Ok? && r.cluster.context in ContextsOf(w, r.source).value
  }

  predicate AllWellResolved(cfg: Config, w: World, rs: seq<Resolved>) {
    forall r | r in rs :: WellResolved(cfg, w, r)
  }

  lemma {:induction false} OverContextsOk(cfg: Config, cache: ListCache, src: Source, contexts: seq<string>,
                                          now: int, ttl: int, w: World)
    requires ConfigOk(cfg) && ListingsOk(cfg, cache) && Configured(cfg, src)
    requires ContextsOf(w, src).Ok? && forall c :: c in contexts ==> c in ContextsOf(w, src).value
    ensures var (cache', rs) := OverContexts(cache, src, contexts, now, ttl, w);
      ListingsOk(cfg, cache') && (rs.Ok? ==> AllWellResolved(cfg, w, rs.value))
  {
    if contexts == [] {
    } else {
      var n := |contexts| - 1;
      var (cache1, front) := OverContexts(cache, src, contexts[..n], now, ttl, w);
      OverContextsOk(cfg, cache, src, contexts[..n], now, ttl, w);
      if front.Ok? {
        ListedOk(cfg, cache1, src, contexts[n], now, ttl, w);
      }
    }
  }

  lemma {:induction false} OverSourcesOk(cfg: Config, cache: ListCache, sources: seq<Source>,
                                         now: int, ttl: int, w: World)
    requires ConfigOk(cfg) && ListingsOk(cfg, cache) && forall s :: s in sources ==> Configured(cfg, s)
    ensures var (cache', rs) := OverSources(cache, sources, now, ttl, w);
      ListingsOk(cfg, cache') && (rs.Ok? ==> AllWellResolved(cfg, w, rs.value))
  {
    if sources == [] {
    } else {
      var n := |sources| - 1;
      var (cache1, front) := OverSources(cache, sources[..n], now, ttl, w);
      OverSourcesOk(cfg, cache, sources[..n], now, ttl, w);
      if front.Ok? && ContextsOf(w, sources[n]).Ok? {
        OverContextsOk(cfg, cache1, sources[n], ContextsOf(w, sources[n]).value, now, ttl, w);
      }
    }
  }

  // One call of allResolvedClusters: when, in which order of sources, and in which world.
  datatype Discovering = Discovering(sources: seq<Source>, now: int, world: World)

  function CacheAfter(calls: seq<Discovering>, ttl: int): ListCache {
    if calls == [] then map[]
    else
      var n := |calls| - 1;
      OverSources(CacheAfter(calls[..n], ttl), calls[n].sources, calls[n].now, ttl, calls[n].world).0
  }

  ghost predicate CallsOk(cfg: Config, calls: seq<Discovering>) {
    forall i, s :: 0 <= i < |calls| && s in calls[i].sources ==> Configured(cfg, s)
  }

  lemma {:induction false} CachedListingsOk(cfg: Config, calls: seq<Discovering>, ttl: int)
    requires ConfigOk(cfg) && CallsOk(cfg, calls)
    ensures ListingsOk(cfg, CacheAfter(calls, ttl))
  {
    if calls == [] {
    } else {
      var n := |calls| - 1;
      CachedListingsOk(cfg, calls[..n], ttl);
      OverSourcesOk(cfg, CacheAfter(calls[..n], ttl), calls[n].sources, calls[n].now, ttl, calls[n].world);
    }
  }

  // ---------------------------------------------------------------- routing

  // Where ResolveTarget sends a target.
  function Route(cfg: Config, target: string): Option<Request> {
    match ParseTarget(target)
    case None => None
    case Some(c) =>
      if c.kubeconfigName in cfg.sources
      then Some(Request(cfg.sources[c.kubeconfigName], c.context, c.namespace, c.name))
      else None
  }

  /** In any run of discoveries, however stale the cached listings: the target made of a
      discovered cluster is routed to the source, context, namespace and name it was
      discovered under if its fields are slash-free, and nowhere otherwise. */
  lemma RoutedWhereDiscovered(cfg: Config, calls: seq<Discovering>, ttl: int, last: Discovering, r: Resolved)
    requires ConfigOk(cfg) && CallsOk(cfg, calls + [last])
    requires var rs := OverSources(CacheAfter(calls, ttl), last.sources, last.now, ttl, last.world).1;
      rs.Ok? && r in rs.value
    ensures WellResolved(cfg, last.world, r)
    ensures Route(cfg, FormatTarget(r.cluster)) ==
      if SlashFree(r.cluster)
      then Some(Request(r.source, r.cluster.context, r.cluster.namespace, r.cluster.name))
      else None
  {
    assert (calls + [last])[|calls|] == last;
    assert forall i :: 0 <= i < |calls| ==> calls[i] == (calls + [last])[i];
    CachedListingsOk(cfg, calls, ttl);
    OverSourcesOk(cfg, CacheAfter(calls, ttl), last.sources, last.now, ttl, last.world);
    ParseFormat(r.cluster);
  }

  // The target names this cluster of this source.
  ghost predicate Names(cfg: Config, target: string, name: string, req: Request) {
    && name in cfg.sources && req.source == cfg.sources[name]
    && Free(name, SLASH) && Free(req.context, SLASH) && Free(req.namespace, SLASH) && Free(req.clusterName, SLASH)
    && target == name + "/" + req.context + "/" + req.namespace + "/" + req.clusterName
  }

  /** A target is routed to a cluster exactly if it spells out a configured source's name and the
      cluster's context, namespace and name, all slash-free. */
  lemma RoutedIffNamed(cfg: Config, target: string, req: Request)
    ensures Route(cfg, target) == Some(req) <==> exists name :: Names(cfg, target, name, req)
  {
    if Route(cfg, target) == Some(req) {
      var c := ParseTarget(target).value;
      FormatParse(target);
      TargetIsSpelled(c);
      assert c.kubeconfigName in Fields(c) && c.context in Fields(c) && c.namespace in Fields(c) && c.name in Fields(c);
      assert Names(cfg, target, c.kubeconfigName, req);
    }
    if name :| Names(cfg, target, name, req) {
      var c := Cluster(name, req.context, req.namespace, req.clusterName, map[]);
      TargetIsSpelled(c);
      ParseFormat(c);
      assert SlashFree(c);
    }
  }

  /** What is routed at all is routed to a source with a slash-free name, so a kubeconfig whose
      name holds a slash is discovered but never reached. */
  lemma RoutedNamesAreSlashFree(cfg: Config, target: string)
    requires ConfigOk(cfg) && Route(cfg, target).Some?
    ensures Free(Route(cfg, target).value.source.name, SLASH)
  {
    FormatParse(target);
    var c := ParseTarget(target).value;
    assert c.kubeconfigName in Fields(c);
  }

  /** Every configured source with a slash-free name has targets that are routed to different
      clusters with the same cache key: a part of the context moved behind a colon into the
      namespace. */
  lemma TargetsCanBeTwins(cfg: Config, c: Cluster, x: string)
    requires c.kubeconfigName in cfg.sources && SlashFree(c) && Free(x, SLASH)
    ensures var p, q := c.(context := c.context + ":" + x), c.(namespace := x + ":" + c.namespace);
      && Route(cfg, FormatTarget(p)).Some? && Route(cfg, FormatTarget(q)).Some?
      && Twins(Route(cfg, FormatTarget(p)).value, Route(cfg, FormatTarget(q)).value)
  {
    var p, q := c.(context := c.context + ":" + x), c.(namespace := x + ":" + c.namespace);
    assert c.context in Fields(c) && c.namespace in Fields(c) && c.name in Fields(c) && c.kubeconfigName in Fields(c);
    assert SlashFree(p) && SlashFree(q);
    ParseFormat(p);
    ParseFormat(q);
    NamespaceColonCollides(cfg.sources[c.kubeconfigName].name, c.context, x, c.namespace, c.name);
  }

  // Listing context d of b, after context c of a has been listed, yields clusters not of b.
  ghost predicate Mixed(a: Source, c: string, b: Source, d: string, ttl: int, w: World) {
    var r := Listed(Listed(map[], a, c, 0, ttl, w).0, b, d, 0, ttl, w).1;
    r.Ok? && !FoundUnder(r.value, b.name, d)
  }

  /** The condition on kubeconfig names is exact: listings of one source can surface under
      another if and only if one name is the other continued after a colon,
      and the cache ever hits. */
  lemma CollidingNamesMixListings(a: Source, b: Source, ttl: int)
    requires a.name != b.name
    ensures (exists c, d, w :: Mixed(a, c, b, d, ttl, w)) <==> !Separate(a.name, b.name) && 0 <= ttl
  {
    ClusterListKeysCollideIff(a.name, b.name);
    if !Separate(a.name, b.name) && 0 <= ttl {
      var c, d :| ClusterListKey(a.name, c) == ClusterListKey(b.name, d);
      var items := [Item("", "", map[])];
      var w := World((src, context) => Ok(items), src => Err);
      assert Discovered(a, c, items)[0].kubeconfigName == a.name;
      assert Listed(Listed(map[], a, c, 0, ttl, w).0, b, d, 0, ttl, w).1 == Ok(Discovered(a, c, items));
      assert Discovered(a, c, items)[0] in Discovered(a, c, items);
      assert Mixed(a, c, b, d, ttl, w);
    }
  }
}
