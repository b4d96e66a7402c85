/**
 Which clusters a discovery yields (internal/server/resolve.go:16-51, internal/capi/clusters.go:44-76),
 said in terms of what the API servers list alone.
 */
module DiscoveryYields {
  import opened Basics
  import opened Keys
  import opened Targets
  import opened Kubeconfigs
  import opened ReadThrough
  import opened Discovery
  import opened Sources
  import opened ToolServers

  // The contexts of a source: those configured, or else those of its kubeconfig file.
  ghost predicate HasContexts(w: World, src: Source, contexts: seq<string>) {
    || (src.contexts != [] && contexts == src.contexts)
    || (src.contexts == [] && w.contextsInFile(src) == Ok(contexts))
  }

  ghost predicate NoContexts(w: World, src: Source) {
    src.contexts == [] && w.contextsInFile(src).Err?
  }

  // The clusters are the items listed for this source and context, in order.
  ghost predicate IsListing(w: World, src: Source, context: string, part: seq<Resolved>) {
    && w.lister(src, context).Ok?
    && var items := w.lister(src, context).value;
       && |part| == |items|
       && forall i :: 0 <= i < |items| ==>
            part[i] == Resolved(Cluster(src.name, context, items[i].namespace, items[i].name,
                                        items[i].customFields), src)
  }

  // ... in the last of these calls, or in an earlier one no longer ago than the ttl.
  ghost predicate IsCurrent(calls: seq<Discovering>, ttl: int, src: Source, context: string, part: seq<Resolved>)
    requires calls != []
  {
    exists j :: 0 <= j < |calls| && IsListing(calls[j].world, src, context, part)
      && (j == |calls| - 1 || calls[|calls| - 1].now <= calls[j].now + ttl)
  }

  // ---------------------------------------------------------------- what the cache holds

  ghost predicate StoredAt(call: Discovering, ttl: int, src: Source, context: string, part: seq<Resolved>,
                           e: C.Entry<seq<Cluster>>) {
    IsListing(call.world, src, context, part) && e == C.Entry(KnownOf(part), call.now + ttl)
  }

  ghost predicate FromCalls(calls: seq<Discovering>, ttl: int, src: Source, context: string,
                            e: C.Entry<seq<Cluster>>) {
    exists j, part :: 0 <= j < |calls| && StoredAt(calls[j], ttl, src, context, part, e)
  }

  ghost predicate CacheIsFrom(cfg: Config, cache: ListCache, calls: seq<Discovering>, ttl: int) {
    forall name, context :: name in cfg.sources && ClusterListKey(name, context) in cache ==>
      FromCalls(calls, ttl, cfg.sources[name], context, cache[ClusterListKey(name, context)])
  }

  lemma MoreCalls(cfg: Config, cache: ListCache, calls: seq<Discovering>, last: Discovering, ttl: int)
    requires CacheIsFrom(cfg, cache, calls, ttl)
    ensures CacheIsFrom(cfg, cache, calls + [last], ttl)
  {
    forall name, context | name in cfg.sources && ClusterListKey(name, context) in cache
      ensures FromCalls(calls + [last], ttl, cfg.sources[name], context, cache[ClusterListKey(name, context)])
    {
      var e := cache[ClusterListKey(name, context)];
      assert FromCalls(calls, ttl, cfg.sources[name], context, e);
      var j, part :| 0 <= j < |calls| && StoredAt(calls[j], ttl, cfg.sources[name], context, part, e);
      assert (calls + [last])[j] == calls[j];
    }
  }

  lemma BackToResolved(part: seq<Resolved>, src: Source)
    requires forall i :: 0 <= i < |part| ==> part[i].source == src
    ensures WithSource(KnownOf(part), src) == part
  {
  }

  lemma FreshListing(w: World, src: Source, context: string) returns (part: seq<Resolved>)
    requires w.lister(src, context).Ok?
    ensures IsListing(w, src, context, part)
    ensures KnownOf(part) == Discovered(src, context, w.lister(src, context).value)
  {
    part := WithSource(Discovered(src, context, w.lister(src, context).value), src);
  }

  lemma LookupKeepsCache(cfg: Config, cache: ListCache, calls: seq<Discovering>, ttl: int, src: Source, context: string)
    requires ConfigOk(cfg) && Configured(cfg, src) && calls != [] && CacheIsFrom(cfg, cache, calls, ttl)
    ensures var last := calls[|calls| - 1];
      CacheIsFrom(cfg, Listed(cache, src, context, last.now, ttl, last.world).0, calls, ttl)
  {
    var last, key := calls[|calls| - 1], ClusterListKey(src.name, context);
    var (cache', cs) := Listed(cache, src, context, last.now, ttl, last.world);
    forall name, other | name in cfg.sources && ClusterListKey(name, other) in cache'
      ensures FromCalls(calls, ttl, cfg.sources[name], other, cache'[ClusterListKey(name, other)])
    {
      ClusterListKeyInjective(src.name, context, name, other);
      if ClusterListKey(name, other) == key && C.Got(cache, key, last.now).1.None? {
        var part := FreshListing(last.world, src, context);
        assert StoredAt(last, ttl, src, context, part, cache'[key]);
      } else {
        assert cache'[ClusterListKey(name, other)] == cache[ClusterListKey(name, other)];
      }
    }
  }

  // One lookup, answered from the cache or listed in the last call.
  lemma LookupIsCurrent(cfg: Config, cache: ListCache, calls: seq<Discovering>, ttl: int, src: Source, context: string)
    returns (part: seq<Resolved>)
    requires ConfigOk(cfg) && Configured(cfg, src) && calls != [] && CacheIsFrom(cfg, cache, calls, ttl)
    ensures var last := calls[|calls| - 1];
      var (cache', cs) := Listed(cache, src, context, last.now, ttl, last.world);
      && CacheIsFrom(cfg, cache', calls, ttl)
      && (cs.Ok? ==> IsCurrent(calls, ttl, src, context, part) && WithSource(cs.value, src) == part)
  {
    var last, key := calls[|calls| - 1], ClusterListKey(src.name, context);
    var (cache', cs) := Listed(cache, src, context, last.now, ttl, last.world);
    part := [];
    if C.Got(cache, key, last.now).1.Some? {
      assert FromCalls(calls, ttl, src, context, cache[key]);
      var j, p :| 0 <= j < |calls| && StoredAt(calls[j], ttl, src, context, p, cache[key]);
      BackToResolved(p, src);
      part := p;
    } else if cs.Ok? {
      part := FreshListing(last.world, src, context);
      BackToResolved(part, src);
      assert StoredAt(last, ttl, src, context, part, cache'[key]);
    }
    LookupKeepsCache(cfg, cache, calls, ttl, src, context);
  }

  // ---------------------------------------------------------------- what is yielded

  ghost predicate AllCurrent(calls: seq<Discovering>, ttl: int, src: Source, contexts: seq<string>,
                             parts: seq<seq<Resolved>>)
    requires calls != []
  {
    |parts| == |contexts| && forall j :: 0 <= j < |contexts| ==> IsCurrent(calls, ttl, src, contexts[j], parts[j])
  }

  lemma OneContextMore(calls: seq<Discovering>, ttl: int, src: Source, contexts: seq<string>,
                       parts: seq<seq<Resolved>>, context: string, part: seq<Resolved>)
    requires calls != [] && AllCurrent(calls, ttl, src, contexts, parts)
    requires IsCurrent(calls, ttl, src, context, part)
    ensures AllCurrent(calls, ttl, src, contexts + [context], parts + [part])
    ensures Flatten(parts + [part]) == Flatten(parts) + part
  {
    FlattenConcat(parts, [part]);
    FlattenOne(part);
  }

  lemma {:induction false} ContextsYield(cfg: Config, cache: ListCache, calls: seq<Discovering>, ttl: int,
                                         src: Source, contexts: seq<string>)
    returns (parts: seq<seq<Resolved>>)
    requires ConfigOk(cfg) && Configured(cfg, src) && calls != [] && CacheIsFrom(cfg, cache, calls, ttl)
    ensures var last := calls[|calls| - 1];
      var (cache', rs) := OverContexts(cache, src, contexts, last.now, ttl, last.world);
      && CacheIsFrom(cfg, cache', calls, ttl)
      && (rs.Ok? ==> AllCurrent(calls, ttl, src, contexts, parts) && rs.value == Flatten(parts))
  {
    parts := [];
    if contexts == [] {
    } else {
      var n, last := |contexts| - 1, calls[|calls| - 1];
      var (cache1, front) := OverContexts(cache, src, contexts[..n], last.now, ttl, last.world);
      var before := ContextsYield(cfg, cache, calls, ttl, src, contexts[..n]);
      if front.Ok? {
        var part := LookupIsCurrent(cfg, cache1, calls, ttl, src, contexts[n]);
        parts := before + [part];
        if AllCurrent(calls, ttl, src, contexts[..n], before) && IsCurrent(calls, ttl, src, contexts[n], part) {
          OneContextMore(calls, ttl, src, contexts[..n], before, contexts[n], part);
          assert contexts == contexts[..n] + [contexts[n]];
        }
      }
    }
  }

  ghost predicate EachCurrent(calls: seq<Discovering>, ttl: int, sources: seq<Source>, contexts: seq<seq<string>>,
                              parts: seq<seq<seq<Resolved>>>)
    requires calls != []
  {
    && |contexts| == |parts| == |sources|
    && (forall i :: 0 <= i < |sources| ==> HasContexts(calls[|calls| - 1].world, sources[i], contexts[i]))
    && (forall i :: 0 <= i < |sources| ==> AllCurrent(calls, ttl, sources[i], contexts[i], parts[i]))
  }

  // The result is, source by source and context by context, current listings and no more.
  ghost predicate Yields(calls: seq<Discovering>, ttl: int, sources: seq<Source>, contexts: seq<seq<string>>,
                         parts: seq<seq<seq<Resolved>>>, rs: seq<Resolved>)
    requires calls != []
  {
    EachCurrent(calls, ttl, sources, contexts, parts) && rs == Flatten(Flatten(parts))
  }

  lemma FlattenMore<T>(parts: seq<seq<seq<T>>>, ps: seq<seq<T>>)
    ensures Flatten(Flatten(parts + [ps])) == Flatten(Flatten(parts)) + Flatten(ps)
  {
    FlattenConcat(parts, [ps]);
    FlattenOne(ps);
    FlattenConcat(Flatten(parts), ps);
  }

  lemma EachCurrentMore(calls: seq<Discovering>, ttl: int, sources: seq<Source>, contexts: seq<seq<string>>,
                        parts: seq<seq<seq<Resolved>>>, src: Source, cs: seq<string>, ps: seq<seq<Resolved>>)
    requires calls != [] && EachCurrent(calls, ttl, sources, contexts, parts)
    requires HasContexts(calls[|calls| - 1].world, src, cs) && AllCurrent(calls, ttl, src, cs, ps)
    ensures EachCurrent(calls, ttl, sources + [src], contexts + [cs], parts + [ps])
  {
    forall i | 0 <= i <= |sources|
      ensures AllCurrent(calls, ttl, (sources + [src])[i], (contexts + [cs])[i], (parts + [ps])[i])
    {
      if i < |sources| {
        assert AllCurrent(calls, ttl, sources[i], contexts[i], parts[i]);
      }
    }
  }

  lemma YieldsMore(calls: seq<Discovering>, ttl: int, sources: seq<Source>, contexts: seq<seq<string>>,
                   parts: seq<seq<seq<Resolved>>>, rs: seq<Resolved>, src: Source, cs: seq<string>,
                   ps: seq<seq<Resolved>>)
    requires calls != [] && Yields(calls, ttl, sources, contexts, parts, rs)
    requires HasContexts(calls[|calls| - 1].world, src, cs) && AllCurrent(calls, ttl, src, cs, ps)
    ensures Yields(calls, ttl, sources + [src], contexts + [cs], parts + [ps], rs + Flatten(ps))
  {
    EachCurrentMore(calls, ttl, sources, contexts, parts, src, cs, ps);
    FlattenMore(parts, ps);
  }

  lemma {:induction false} SourcesYield(cfg: Config, cache: ListCache, calls: seq<Discovering>, ttl: int,
                                        sources: seq<Source>)
    returns (contexts: seq<seq<string>>, parts: seq<seq<seq<Resolved>>>)
    requires ConfigOk(cfg) && (forall s :: s in sources ==> Configured(cfg, s))
    requires calls != [] && CacheIsFrom(cfg, cache, calls, ttl)
    ensures var last := calls[|calls| - 1];
      var (cache', rs) := OverSources(cache, sources, last.now, ttl, last.world);
      CacheIsFrom(cfg, cache', calls, ttl) && (rs.Ok? ==> Yields(calls, ttl, sources, contexts, parts, rs.value))
  {
    contexts, parts := [], [];
    if sources == [] {
    } else {
      var n, last := |sources| - 1, calls[|calls| - 1];
      var (cache1, front) := OverSources(cache, sources[..n], last.now, ttl, last.world);
      contexts, parts := SourcesYield(cfg, cache, calls, ttl, sources[..n]);
      var cs := ContextsOf(last.world, sources[n]);
      if front.Ok? && cs.Ok? {
        var ps := ContextsYield(cfg, cache1, calls, ttl, sources[n], cs.value);
        if OverContexts(cache1, sources[n], cs.value, last.now, ttl, last.world).1.Ok? {
          YieldsMore(calls, ttl, sources[..n], contexts, parts, front.value, sources[n], cs.value, ps);
          assert sources[..n] + [sources[n]] == sources;
          contexts, parts := contexts + [cs.value], parts + [ps];
        }
      }
    }
  }

  lemma {:induction false} CacheAfterIsFrom(cfg: Config, calls: seq<Discovering>, ttl: int)
    requires ConfigOk(cfg) && CallsOk(cfg, calls)
    ensures CacheIsFrom(cfg, CacheAfter(calls, ttl), calls, ttl)
  {
    if calls == [] {
    } else {
      var n := |calls| - 1;
      assert CallsOk(cfg, calls[..n]);
      CacheAfterIsFrom(cfg, calls[..n], ttl);
      assert calls == calls[..n] + [calls[n]];
      MoreCalls(cfg, CacheAfter(calls[..n], ttl), calls[..n], calls[n], ttl);
      var _, _ := SourcesYield(cfg, CacheAfter(calls[..n], ttl), calls, ttl, calls[n].sources);
    }
  }

  /** After any run of discoveries, one that succeeds yields, over its sources and the contexts of
      each in order, exactly the items listed for that source and context, every one of them
      and in order, by this call or by one no longer ago than the ttl. */
  lemma DiscoveryYieldsCurrentListings(cfg: Config, calls: seq<Discovering>, ttl: int, last: Discovering)
    returns (contexts: seq<seq<string>>, parts: seq<seq<seq<Resolved>>>)
    requires ConfigOk(cfg) && CallsOk(cfg, calls + [last])
    ensures var rs := OverSources(CacheAfter(calls, ttl), last.sources, last.now, ttl, last.world).1;
      rs.Ok? ==> Yields(calls + [last], ttl, last.sources, contexts, parts, rs.value)
  {
    assert (calls + [last])[|calls|] == last;
    assert forall i :: 0 <= i < |calls| ==> calls[i] == (calls + [last])[i];
    CacheAfterIsFrom(cfg, calls, ttl);
    MoreCalls(cfg, CacheAfter(calls, ttl), calls, last, ttl);
    contexts, parts := SourcesYield(cfg, CacheAfter(calls, ttl), calls + [last], ttl, last.sources);
  }

  // ---------------------------------------------------------------- when it fails

  predicate FreshIn(cache: ListCache, src: Source, context: string, now: int) {
    var key := src.name + ":" + context;
    key in cache && now <= cache[key].expiresAt
  }

  // The listing is needed, and fails.
  ghost predicate LookupFails(cache: ListCache, w: World, now: int, src: Source, context: string) {
    w.lister(src, context).Err? && !FreshIn(cache, src, context, now)
  }

  // As far as listings that fail are concerned, the caches are equally fresh.
  ghost predicate SameFailures(cfg: Config, w: World, now: int, a: ListCache, b: ListCache) {
    forall name, context :: name in cfg.sources ==>
      (LookupFails(a, w, now, cfg.sources[name], context) <==> LookupFails(b, w, now, cfg.sources[name], context))
  }

  lemma LookupFailsIff(cfg: Config, cache: ListCache, w: World, now: int, ttl: int, src: Source, context: string)
    requires ConfigOk(cfg) && Configured(cfg, src)
    ensures var (cache', cs) := Listed(cache, src, context, now, ttl, w);
      (cs.Err? <==> LookupFails(cache, w, now, src, context)) && SameFailures(cfg, w, now, cache, cache')
  {
    var cache' := Listed(cache, src, context, now, ttl, w).0;
    assert ClusterListKey(src.name, context) == src.name + ":" + context;
    forall name, other | name in cfg.sources
      ensures LookupFails(cache, w, now, cfg.sources[name], other) <==>
        LookupFails(cache', w, now, cfg.sources[name], other)
    {
      ClusterListKeyInjective(src.name, context, name, other);
      assert ClusterListKey(name, other) == name + ":" + other;
    }
  }

  lemma {:induction false} ContextsFailIff(cfg: Config, cache: ListCache, w: World, now: int, ttl: int, src: Source,
                                           contexts: seq<string>)
    requires ConfigOk(cfg) && Configured(cfg, src)
    ensures var (cache', rs) := OverContexts(cache, src, contexts, now, ttl, w);
      && (rs.Err? <==> exists context :: context in contexts && LookupFails(cache, w, now, src, context))
      && SameFailures(cfg, w, now, cache, cache')
  {
    if contexts == [] {
    } else {
      var n := |contexts| - 1;
      var (cache1, front) := OverContexts(cache, src, contexts[..n], now, ttl, w);
      ContextsFailIff(cfg, cache, w, now, ttl, src, contexts[..n]);
      LookupFailsIff(cfg, cache1, w, now, ttl, src, contexts[n]);
      assert contexts == contexts[..n] + [contexts[n]];
      assert LookupFails(cache, w, now, cfg.sources[src.name], contexts[n]) <==>
        LookupFails(cache1, w, now, cfg.sources[src.name], contexts[n]);
    }
  }

  ghost predicate SourceFails(cache: ListCache, w: World, now: int, src: Source) {
    || NoContexts(w, src)
    || exists contexts, context ::
         HasContexts(w, src, contexts) && context in contexts && LookupFails(cache, w, now, src, context)
  }

  lemma SourceFailsAlike(cfg: Config, a: ListCache, b: ListCache, w: World, now: int, src: Source)
    requires ConfigOk(cfg) && Configured(cfg, src) && SameFailures(cfg, w, now, a, b)
    ensures SourceFails(a, w, now, src) <==> SourceFails(b, w, now, src)
  {
    assert cfg.sources[src.name] == src;
    forall context ensures LookupFails(a, w, now, src, context) <==> LookupFails(b, w, now, src, context) {
      assert LookupFails(a, w, now, cfg.sources[src.name], context) <==>
        LookupFails(b, w, now, cfg.sources[src.name], context);
    }
  }

  lemma SourceFailsIff(cfg: Config, cache: ListCache, w: World, now: int, ttl: int, src: Source)
    requires ConfigOk(cfg) && Configured(cfg, src)
    ensures SourceFails(cache, w, now, src) <==>
      ContextsOf(w, src).Err? || OverContexts(cache, src, ContextsOf(w, src).value, now, ttl, w).1.Err?
  {
    if ContextsOf(w, src).Ok? {
      var contexts := ContextsOf(w, src).value;
      assert HasContexts(w, src, contexts) && forall other :: HasContexts(w, src, other) ==> other == contexts;
      ContextsFailIff(cfg, cache, w, now, ttl, src, contexts);
    }
  }

  /** A discovery fails exactly if the contexts of some source cannot be found out, or some
      context has to be listed, its listing in the cache being too old, and cannot be. */
  lemma {:induction false} DiscoveryFailsIff(cfg: Config, cache: ListCache, sources: seq<Source>, now: int, ttl: int,
                                             w: World)
    requires ConfigOk(cfg) && forall s :: s in sources ==> Configured(cfg, s)
    ensures var (cache', rs) := OverSources(cache, sources, now, ttl, w);
      && (rs.Err? <==> exists src :: src in sources && SourceFails(cache, w, now, src))
      && SameFailures(cfg, w, now, cache, cache')
  {
    if sources == [] {
    } else {
      var n := |sources| - 1;
      var (cache1, front) := OverSources(cache, sources[..n], now, ttl, w);
      DiscoveryFailsIff(cfg, cache, sources[..n], now, ttl, w);
      SourceFailsAlike(cfg, cache, cache1, w, now, sources[n]);
      SourceFailsIff(cfg, cache1, w, now, ttl, sources[n]);
      assert sources == sources[..n] + [sources[n]];
      if front.Ok? && ContextsOf(w, sources[n]).Ok? {
        ContextsFailIff(cfg, cache1, w, now, ttl, sources[n], ContextsOf(w, sources[n]).value);
      }
    }
  }

  /** One lookup: a listing in the cache that is not too old is the answer, and is left as it is;
      otherwise the context is listed, and what is listed is stored for ttl. */
  lemma LookupAnswers(cache: ListCache, w: World, now: int, ttl: int, src: Source, context: string)
    ensures var (cache', cs) := Listed(cache, src, context, now, ttl, w);
      var key := src.name + ":" + context;
      && (FreshIn(cache, src, context, now) ==> cs == Ok(cache[key].value) && cache' == cache)
      && (LookupFails(cache, w, now, src, context) ==> cs == Err && key !in cache')
      && (!FreshIn(cache, src, context, now) && w.lister(src, context).Ok? ==>
           && cs.Ok? && IsListing(w, src, context, WithSource(cs.value, src))
           && key in cache' && cache'[key] == C.Entry(cs.value, now + ttl))
      && (forall other :: other != key ==> (other in cache' <==> other in cache))
      && (forall other :: other != key && other in cache ==> cache'[other] == cache[other])
  {
    assert ClusterListKey(src.name, context) == src.name + ":" + context;
  }

  // ---------------------------------------------------------------- the first discovery

  ghost predicate ListingFails(w: World, src: Source) {
    NoContexts(w, src) || exists cs, c :: HasContexts(w, src, cs) && c in cs && w.lister(src, c).Err?
  }

  lemma NothingIsFresh(w: World, now: int, src: Source)
    ensures SourceFails(map[], w, now, src) <==> ListingFails(w, src)
  {
    if cs, c :| HasContexts(w, src, cs) && c in cs && w.lister(src, c).Err? {
      assert LookupFails(map[], w, now, src, c);
    }
  }

  ghost predicate AllListings(w: World, src: Source, contexts: seq<string>, parts: seq<seq<Resolved>>) {
    |parts| == |contexts| && forall j :: 0 <= j < |contexts| ==> IsListing(w, src, contexts[j], parts[j])
  }

  /** The first discovery of a server lists everything: it fails exactly if the contexts of some
      configured source or some listing cannot be had, and otherwise yields one cluster for
      each item, over the sources by name, their contexts in order and the items in order. */
  lemma FirstDiscovery(cfg: Config, now: int, ttl: int, w: World, after: ListCache, rs: Result<seq<Resolved>>)
    returns (sources: seq<Source>, contexts: seq<seq<string>>, parts: seq<seq<seq<Resolved>>>)
    requires ConfigOk(cfg) && Discovers(cfg, map[], now, ttl, w, after, rs)
    ensures Sorted(cfg, sources)
    ensures rs.Err? <==> exists src :: src in sources && ListingFails(w, src)
    ensures rs.Ok? ==>
      && |contexts| == |parts| == |sources|
      && (forall i :: 0 <= i < |sources| ==>
           HasContexts(w, sources[i], contexts[i]) && AllListings(w, sources[i], contexts[i], parts[i]))
      && rs.value == Flatten(Flatten(parts))
  {
    sources :| Sorted(cfg, sources) && (after, rs) == OverSources(map[], sources, now, ttl, w);
    SortedAreConfigured(cfg, sources);
    DiscoveryFailsIff(cfg, map[], sources, now, ttl, w);
    forall src ensures SourceFails(map[], w, now, src) <==> ListingFails(w, src) {
      NothingIsFresh(w, now, src);
    }
    var calls := [Discovering(sources, now, w)];
    contexts, parts := SourcesYield(cfg, map[], calls, ttl, sources);
    if rs.Ok? {
      forall i | 0 <= i < |sources| ensures AllListings(w, sources[i], contexts[i], parts[i]) {
        assert AllCurrent(calls, ttl, sources[i], contexts[i], parts[i]);
      }
    }
  }
}
