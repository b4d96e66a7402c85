/**
 The kubeconfig cache of module Kubeconfigs agrees, over every run, with the history of
 what was fetched for each cluster: the composite string keys are as good as the clusters.
 */
module ReadThrough {
  import opened Basics
  import opened Text
  import opened Keys
  import opened Leases
  import opened Kubeconfigs

  // A request reached the cache at this time, and stored this value, if any.
  datatype Access = Access(req: Request, stored: Option<CachedKubeconfig>, at: int)

  function AccessesOf(cfg: Config, s: Server, req: Request, up: Upstream): seq<Access> {
    var now := s.tunnels.now;
    [Access(req, None, now)] +
    if C.Got(s.cache, KeyOf(req), now).1.None? && Cached(cfg, s, req, up).1.Ok? && Fetch(cfg, req, up).Ok?
    then [Access(req, Some(Fetch(cfg, req, up).value), now + up.latency)]
    else []
  }

  ghost function History(cfg: Config, ops: seq<Kubeconfigs.Op>): seq<Access>
    requires RunFrom(cfg, START, ops).Some?
  {
    if ops == [] then []
    else
      var n := |ops| - 1;
      var s := RunFrom(cfg, START, ops[..n]).value;
      History(cfg, ops[..n]) + if ops[n].Call? then AccessesOf(cfg, s, ops[n].req, ops[n].up) else []
  }

  // The value last fetched for this very cluster, and when.
  function LastFetched(h: seq<Access>, req: Request): Option<(CachedKubeconfig, int)> {
    if h == [] then None
    else
      var n := |h| - 1;
      if h[n].req == req && h[n].stored.Some? then Some((h[n].stored.value, h[n].at))
      else LastFetched(h[..n], req)
  }

  // The same for any cluster with this cache key.
  function LastUnderKey(h: seq<Access>, key: string): Option<(CachedKubeconfig, int)> {
    if h == [] then None
    else
      var n := |h| - 1;
      if KeyOf(h[n].req) == key && h[n].stored.Some? then Some((h[n].stored.value, h[n].at))
      else LastUnderKey(h[..n], key)
  }

  function StillGood(last: Option<(CachedKubeconfig, int)>, ttl: int, now: int): Option<CachedKubeconfig> {
    match last
    case None => None
    case Some((c, at)) => if now <= at + ttl then Some(c) else None
  }

  // The answer to a call: from a kubeconfig fetched before, or as if there were no cache.
  function Answer(cfg: Config, s: Server, req: Request, up: Upstream, good: Option<CachedKubeconfig>)
    : Result<string>
  {
    match good
    case Some(c) => if EnsureFor(s.tunnels, c, cfg.ttl, up.startup).1 then Ok(c.kubeconfig) else Err
    case None => Loaded(cfg, Server(map[], s.tunnels), req, up).1
  }

  // ---------------------------------------------------------------- as cache events

  function EventOf(a: Access): C.Event<string, CachedKubeconfig> {
    C.Event(match a.stored case None => C.Get(KeyOf(a.req)) case Some(c) => C.Set(KeyOf(a.req), c), a.at)
  }

  function Events(h: seq<Access>): (es: seq<C.Event<string, CachedKubeconfig>>)
    ensures |es| == |h| && forall i :: 0 <= i < |h| ==> es[i] == EventOf(h[i])
  {
    if h == [] then [] else Events(h[..|h| - 1]) + [EventOf(h[|h| - 1])]
  }

  // The cache is what these accesses leave, none of them in the future.
  ghost predicate Replays(cache: Cache, h: seq<Access>, ttl: int, now: int) {
    cache == C.Replay(Events(h), ttl) && C.Chronological(Events(h), now)
  }

  lemma ReplaysSnoc(cache: Cache, h: seq<Access>, ttl: int, now: int, a: Access)
    requires Replays(cache, h, ttl, now) && now <= a.at
    ensures Replays(C.Step(cache, EventOf(a), ttl), h + [a], ttl, a.at)
  {
    var es := Events(h + [a]);
    assert (h + [a])[..|h|] == h;
    assert es[..|h|] == Events(h);
  }

  lemma CallStores(cfg: Config, s: Server, req: Request, up: Upstream)
    ensures var (s', acc) := (Cached(cfg, s, req, up).0, AccessesOf(cfg, s, req, up));
      && s'.tunnels.now == s.tunnels.now + (if C.Got(s.cache, KeyOf(req), s.tunnels.now).1.Some? then 0 else up.latency)
      && var looked := C.Step(s.cache, EventOf(acc[0]), cfg.ttl);
         s'.cache == if |acc| == 2 then C.Step(looked, EventOf(acc[1]), cfg.ttl) else looked
  {
  }

  lemma ReplaysLater(cache: Cache, h: seq<Access>, ttl: int, now: int, later: int)
    requires Replays(cache, h, ttl, now) && now <= later
    ensures Replays(cache, h, ttl, later)
  {
  }

  lemma TwoAtMost(cfg: Config, s: Server, req: Request, up: Upstream)
    ensures var (s', acc) := (Cached(cfg, s, req, up).0, AccessesOf(cfg, s, req, up));
      && (acc == [acc[0]] || acc == [acc[0]] + [acc[1]])
      && acc[0].at == s.tunnels.now && s.tunnels.now <= s'.tunnels.now
      && (|acc| == 2 ==> acc[1].at == s'.tunnels.now)
  {
  }

  lemma CallReplays(cfg: Config, s: Server, req: Request, up: Upstream, h: seq<Access>)
    requires Replays(s.cache, h, cfg.ttl, s.tunnels.now)
    ensures var (s', h') := (Cached(cfg, s, req, up).0, h + AccessesOf(cfg, s, req, up));
      Replays(s'.cache, h', cfg.ttl, s'.tunnels.now)
  {
    var s', acc := Cached(cfg, s, req, up).0, AccessesOf(cfg, s, req, up);
    CallStores(cfg, s, req, up);
    TwoAtMost(cfg, s, req, up);
    var looked, h1 := C.Step(s.cache, EventOf(acc[0]), cfg.ttl), h + [acc[0]];
    ReplaysSnoc(s.cache, h, cfg.ttl, s.tunnels.now, acc[0]);
    if |acc| == 2 {
      ReplaysSnoc(looked, h1, cfg.ttl, s.tunnels.now, acc[1]);
      assert h + acc == h1 + [acc[1]];
    } else {
      ReplaysLater(looked, h1, cfg.ttl, s.tunnels.now, s'.tunnels.now);
    }
  }

  lemma {:induction false} CacheReplaysHistory(cfg: Config, ops: seq<Kubeconfigs.Op>, s: Server)
    requires RunFrom(cfg, START, ops) == Some(s)
    ensures Replays(s.cache, History(cfg, ops), cfg.ttl, s.tunnels.now)
  {
    if ops == [] {
    } else {
      var n := |ops| - 1;
      var m := RunFrom(cfg, START, ops[..n]).value;
      CacheReplaysHistory(cfg, ops[..n], m);
      if ops[n].Call? {
        CallReplays(cfg, m, ops[n].req, ops[n].up, History(cfg, ops[..n]));
      } else {
        NowAfter(m.tunnels, TunnelOp(ops[n]));
        assert History(cfg, ops) == History(cfg, ops[..n]);
      }
    }
  }

  // ---------------------------------------------------------------- whole runs

  lemma {:induction false} LastSetIsLastUnderKey(h: seq<Access>, key: string)
    ensures C.LastSet(Events(h), key) == LastUnderKey(h, key)
  {
    if h == [] {
    } else {
      var n := |h| - 1;
      assert Events(h)[..n] == Events(h[..n]);
      LastSetIsLastUnderKey(h[..n], key);
    }
  }

  lemma CacheHolds(cache: Cache, h: seq<Access>, ttl: int, now: int, key: string)
    requires Replays(cache, h, ttl, now)
    ensures C.Got(cache, key, now).1 == StillGood(LastUnderKey(h, key), ttl, now)
  {
    C.GetFollowsHistory(Events(h), ttl, key, now);
    LastSetIsLastUnderKey(h, key);
  }

  lemma CachedAnswers(cfg: Config, s: Server, req: Request, up: Upstream)
    ensures Cached(cfg, s, req, up).1 == Answer(cfg, s, req, up, C.Got(s.cache, KeyOf(req), s.tunnels.now).1)
  {
  }

  /** Over every run of calls: a call is a hit exactly if a kubeconfig was fetched under its
      key no longer than the ttl ago, and then answers with the one fetched last; otherwise
      it answers as if there were no cache at all. */
  lemma AnswersByKey(cfg: Config, ops: seq<Kubeconfigs.Op>, s: Server, req: Request, up: Upstream)
    requires RunFrom(cfg, START, ops) == Some(s)
    ensures Cached(cfg, s, req, up).1 ==
      Answer(cfg, s, req, up, StillGood(LastUnderKey(History(cfg, ops), KeyOf(req)), cfg.ttl, s.tunnels.now))
  {
    CachedAnswers(cfg, s, req, up);
    CacheReplaysHistory(cfg, ops, s);
    CacheHolds(s.cache, History(cfg, ops), cfg.ttl, s.tunnels.now, KeyOf(req));
  }

  // Different clusters with the same cache key.
  predicate Twins(p: Request, q: Request) {
    p != q && KeyOf(p) == KeyOf(q)
  }

  ghost predicate NoTwinOf(req: Request, ops: seq<Kubeconfigs.Op>) {
    forall op :: op in ops && op.Call? ==> !Twins(op.req, req)
  }

  lemma {:induction false} HistoryHasNoTwin(cfg: Config, ops: seq<Kubeconfigs.Op>, req: Request)
    requires RunFrom(cfg, START, ops).Some? && NoTwinOf(req, ops)
    ensures forall a :: a in History(cfg, ops) ==> !Twins(a.req, req)
  {
    if ops == [] {
    } else {
      var n := |ops| - 1;
      assert ops[n] in ops && forall op :: op in ops[..n] ==> op in ops;
      HistoryHasNoTwin(cfg, ops[..n], req);
    }
  }

  lemma {:induction false} LastUnderKeyIsLastFetched(h: seq<Access>, req: Request)
    requires forall a :: a in h ==> !Twins(a.req, req)
    ensures LastUnderKey(h, KeyOf(req)) == LastFetched(h, req)
  {
    if h == [] {
    } else {
      var n := |h| - 1;
      assert h[n] in h;
      LastUnderKeyIsLastFetched(h[..n], req);
    }
  }

  // The call is answered from what was fetched for this very cluster, or as without a cache.
  ghost predicate Agrees(cfg: Config, ops: seq<Kubeconfigs.Op>, s: Server, req: Request, up: Upstream)
    requires RunFrom(cfg, START, ops).Some?
  {
    Cached(cfg, s, req, up).1 ==
      Answer(cfg, s, req, up, StillGood(LastFetched(History(cfg, ops), req), cfg.ttl, s.tunnels.now))
  }

  /** Over every run in which no twin of this cluster is asked for: a call is a hit exactly
      if this very cluster's kubeconfig was fetched no longer than the ttl ago, and then
      answers with the value fetched last; otherwise as if there were no cache at all. */
  lemma ReadThroughAgreesWithHistory(cfg: Config, ops: seq<Kubeconfigs.Op>, s: Server, req: Request, up: Upstream)
    requires RunFrom(cfg, START, ops) == Some(s) && NoTwinOf(req, ops)
    ensures Agrees(cfg, ops, s, req, up)
  {
    AnswersByKey(cfg, ops, s, req, up);
    HistoryHasNoTwin(cfg, ops, req);
    LastUnderKeyIsLastFetched(History(cfg, ops), req);
  }

  // After calls for p alone, a call for q is answered otherwise than it should be.
  ghost predicate Misled(cfg: Config, p: Request, q: Request, ops: seq<Kubeconfigs.Op>, s: Server, up: Upstream) {
    && (forall op :: op in ops ==> op.Call? && op.req == p)
    && RunFrom(cfg, START, ops) == Some(s)
    && !Agrees(cfg, ops, s, q, up)
  }

  lemma {:induction false} NeverFetched(h: seq<Access>, p: Request, q: Request)
    requires p != q && forall a :: a in h ==> a.req == p
    ensures LastFetched(h, q) == None
  {
    if h == [] {
    } else {
      assert h[|h| - 1] in h;
      NeverFetched(h[..|h| - 1], p, q);
    }
  }

  /** A twin's kubeconfig is handed out: right after a call for p has fetched it, a call for
      its twin q is a hit and answers with it, though nothing was ever fetched for q and
      fetching for q would fail. */
  lemma TwinIsAnsweredWrongly(cfg: Config, p: Request, q: Request, theirs: string)
    returns (ops: seq<Kubeconfigs.Op>, s: Server, up: Upstream)
    requires Twins(p, q) && 0 <= cfg.ttl
    ensures Misled(cfg, p, q, ops, s, up)
    ensures Cached(cfg, s, q, up).1 == Ok(theirs)
    ensures LastFetched(History(cfg, ops), q) == None && Fetch(cfg, q, up).Err?
  {
    var fetched := Upstream(0, true, Ok(theirs), Ok(theirs), Ok(None), SpawnFails);
    up := fetched.(clients := false);
    var op := Call(p, fetched);
    s := Kubeconfigs.Do(cfg, START, op);
    ops := [op];
    RunSnoc(cfg, [], START, op);
    assert [] + [op] == ops && ops[..0] == [];
    assert Fetch(cfg, p, fetched) == Ok(CachedKubeconfig(theirs, None));
    var h := History(cfg, ops);
    assert h == History(cfg, []) + AccessesOf(cfg, START, p, fetched);
    forall a | a in h ensures a.req == p {
    }
    NeverFetched(h, p, q);
  }

  lemma {:induction false} FetchedInThePast(h: seq<Access>, req: Request, now: int)
    requires forall i :: 0 <= i < |h| ==> h[i].at <= now
    ensures LastFetched(h, req).Some? ==> LastFetched(h, req).value.1 <= now
    ensures LastUnderKey(h, KeyOf(req)).Some? ==> LastUnderKey(h, KeyOf(req)).value.1 <= now
  {
    if h == [] {
    } else {
      FetchedInThePast(h[..|h| - 1], req, now);
    }
  }

  lemma NeverHits(cfg: Config, ops: seq<Kubeconfigs.Op>, s: Server, req: Request, up: Upstream)
    requires RunFrom(cfg, START, ops) == Some(s) && cfg.ttl < 0
    ensures Agrees(cfg, ops, s, req, up)
  {
    var h := History(cfg, ops);
    AnswersByKey(cfg, ops, s, req, up);
    CacheReplaysHistory(cfg, ops, s);
    forall i | 0 <= i < |h| ensures h[i].at <= s.tunnels.now {
      assert Events(h)[i].at <= s.tunnels.now;
    }
    FetchedInThePast(h, req, s.tunnels.now);
  }

  /** The condition is exact: calls for one cluster can mislead a call for another if and only
      if the two share a cache key, and the cache ever hits. */
  lemma OnlyTwinsMislead(cfg: Config, p: Request, q: Request)
    requires p != q
    ensures (exists ops, s, up :: Misled(cfg, p, q, ops, s, up)) <==> KeyOf(p) == KeyOf(q) && 0 <= cfg.ttl
  {
    if KeyOf(p) == KeyOf(q) && 0 <= cfg.ttl {
      var ops, s, up := TwinIsAnsweredWrongly(cfg, p, q, "");
    } else if ops, s, up :| Misled(cfg, p, q, ops, s, up) {
      if KeyOf(p) != KeyOf(q) {
        ReadThroughAgreesWithHistory(cfg, ops, s, q, up);
      } else {
        NeverHits(cfg, ops, s, q, up);
      }
    }
  }

  // ---------------------------------------------------------------- keys and clusters

  // Sources are stored under their own names (internal/config/config.go:110-111), and no
  // name is another one continued after a colon.
  ghost predicate ConfigOk(cfg: Config) {
    && (forall a :: a in cfg.sources ==> cfg.sources[a].name == a)
    && (forall a, b :: a in cfg.sources && b in cfg.sources && a != b ==> Separate(a, b))
  }

  predicate Configured(cfg: Config, src: Source) {
    src.name in cfg.sources && cfg.sources[src.name] == src
  }

  function TailOf(req: Request): string {
    KeyTail(req.namespace, req.clusterName)
  }

  ghost predicate CanBeTwins(p: Request, q: Request) {
    exists c, d :: Twins(p.(context := c), q.(context := d))
  }

  /** Among configured sources, two clusters share a cache key, for some contexts, exactly if
      they are of the same source, differ in namespace or name, and one ":namespace:name" ends
      with the other. */
  lemma CanBeTwinsIff(cfg: Config, p: Request, q: Request)
    requires ConfigOk(cfg) && Configured(cfg, p.source) && Configured(cfg, q.source)
    ensures CanBeTwins(p, q) <==>
      && p.source == q.source && SameEnd(TailOf(p), TailOf(q))
      && (p.namespace, p.clusterName) != (q.namespace, q.clusterName)
  {
    var a, b := p.source.name, q.source.name;
    KubeconfigKeysCollideIff(a, p.namespace, p.clusterName, b, q.namespace, q.clusterName);
    SeparateHeads(a, b);
    if c, d :| Twins(p.(context := c), q.(context := d)) {
      assert KubeconfigKey(a, c, p.namespace, p.clusterName) == KubeconfigKey(b, d, q.namespace, q.clusterName);
      ContextIsDetermined(a, c, d, p.namespace, p.clusterName);
    }
    if p.source == q.source && SameEnd(TailOf(p), TailOf(q))
       && (p.namespace, p.clusterName) != (q.namespace, q.clusterName) {
      var c, d :| KubeconfigKey(a, c, p.namespace, p.clusterName) == KubeconfigKey(b, d, q.namespace, q.clusterName);
      assert Twins(p.(context := c), q.(context := d));
    }
  }

  /** So the key identifies the request whenever namespace and name agree or the tails do not
      end alike, whatever colons they and the contexts hold. */
  lemma KeyIdentifiesRequest(cfg: Config, p: Request, q: Request)
    requires ConfigOk(cfg) && Configured(cfg, p.source) && Configured(cfg, q.source)
    requires (p.namespace, p.clusterName) == (q.namespace, q.clusterName) || !SameEnd(TailOf(p), TailOf(q))
    ensures KeyOf(p) == KeyOf(q) <==> p == q
  {
    CanBeTwinsIff(cfg, p, q);
    assert p.(context := p.context) == p && q.(context := q.context) == q;
    assert !Twins(p.(context := p.context), q.(context := q.context));
  }

  /** In particular clusters without colons in namespace and name have no twins among each
      other, whatever their contexts. */
  lemma ColonFreeIsTwinFree(cfg: Config, p: Request, q: Request)
    requires ConfigOk(cfg) && Configured(cfg, p.source) && Configured(cfg, q.source)
    requires Free(p.namespace, ':') && Free(p.clusterName, ':')
    requires Free(q.namespace, ':') && Free(q.clusterName, ':')
    ensures !Twins(p, q)
  {
    KubeconfigKeyInjective(p.source.name, p.context, p.namespace, p.clusterName,
                           q.source.name, q.context, q.namespace, q.clusterName);
  }

  // ---------------------------------------------------------------- what is in the cache

  // The i-th operation is a call that succeeded, and that fetched and stored e under x.
  ghost predicate StoredBy(cfg: Config, ops: seq<Kubeconfigs.Op>, i: nat, x: string, e: C.Entry<CachedKubeconfig>) {
    && i < |ops| && ops[i].Call? && KeyOf(ops[i].req) == x
    && RunFrom(cfg, START, ops[..i]).Some?
    && var m := RunFrom(cfg, START, ops[..i]).value;
       && Cached(cfg, m, ops[i].req, ops[i].up).1 == Ok(e.value.kubeconfig)
       && Fetch(cfg, ops[i].req, ops[i].up) == Ok(e.value)
       && e.expiresAt == m.tunnels.now + ops[i].up.latency + cfg.ttl
  }

  /** No failure is ever cached: whatever the cache holds was fetched, transformed and
      tunnelled without error by one of the calls of the run, ttl before its expiry. */
  lemma {:induction false} OnlySuccessIsCached(cfg: Config, ops: seq<Kubeconfigs.Op>, s: Server, x: string)
    requires RunFrom(cfg, START, ops) == Some(s) && x in s.cache
    ensures exists i: nat :: StoredBy(cfg, ops, i, x, s.cache[x])
  {
    var n := |ops| - 1;
    var m := RunFrom(cfg, START, ops[..n]).value;
    if x in m.cache && m.cache[x] == s.cache[x] {
      OnlySuccessIsCached(cfg, ops[..n], m, x);
      var i: nat :| StoredBy(cfg, ops[..n], i, x, s.cache[x]);
      assert ops[..n][..i] == ops[..i];
      assert StoredBy(cfg, ops, i, x, s.cache[x]);
    } else {
      CallStores(cfg, m, ops[n].req, ops[n].up);
      assert StoredBy(cfg, ops, n, x, s.cache[x]);
    }
  }
}
