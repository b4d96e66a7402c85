/**
 The fan-out of get_cluster_kubeconfig over the kubeconfig cache (internal/server/tools.go:82-125
 and internal/server/kubeconfig.go:23-72): the goroutines of one call share the cache and the
 tunnels, and each ResolveTarget is one step in the order in which they complete.
 */
module Serving {
  import opened Basics
  import opened Kubeconfigs
  import opened ReadThrough
  import opened Discovery
  import opened FanOut
  import T = Tools

  // One fan-out: its targets, the order in which the goroutines complete, and what the world
  // answers the k-th of them.
  datatype Serve = Serve(targets: seq<string>, order: seq<nat>, world: seq<Upstream>) {
    ghost predicate Valid() {
      Schedule(order, |targets|) && |world| == |targets|
    }
  }

  // The call the k-th goroutine makes: none if its target routes nowhere.
  function CallOf(cfg: Config, f: Serve, k: nat): seq<Kubeconfigs.Op>
    requires f.Valid() && k < |f.targets|
  {
    match Route(cfg, f.targets[f.order[k]])
    case None => []
    case Some(req) => [Call(req, f.world[k])]
  }

  // The calls of the first k goroutines.
  function CallsOf(cfg: Config, f: Serve, k: nat): seq<Kubeconfigs.Op>
    requires f.Valid() && k <= |f.targets|
  {
    if k == 0 then [] else CallsOf(cfg, f, k - 1) + CallOf(cfg, f, k - 1)
  }

  // The server the k-th goroutine finds.
  function ServerAt(cfg: Config, s: Server, f: Serve, k: nat): Server
    requires f.Valid() && k <= |f.targets|
  {
    if k == 0 then s
    else
      var before := ServerAt(cfg, s, f, k - 1);
      match Route(cfg, f.targets[f.order[k - 1]])
      case None => before
      case Some(req) => Cached(cfg, before, req, f.world[k - 1]).0
  }

  // ResolveTarget as the k-th goroutine calls it; message is what an error says.
  function ResolveAt(cfg: Config, s: Server, f: Serve, message: string, k: nat, target: string): T.Fetched
    requires f.Valid()
  {
    if k >= |f.targets| then T.Failed(message)
    else
      match Route(cfg, target)
      case None => T.Failed(message)
      case Some(req) =>
        match Cached(cfg, ServerAt(cfg, s, f, k), req, f.world[k]).1
        case Err => T.Failed(message)
        case Ok(kubeconfig) => T.Got(kubeconfig)
  }

  ghost predicate PossibleAt(cfg: Config, s: Server, f: Serve, k: nat)
    requires f.Valid() && k < |f.targets|
  {
    forall op :: op in CallOf(cfg, f, k) ==> Possible(ServerAt(cfg, s, f, k), op)
  }

  // Every goroutine that starts a tunnel gets a new process.
  ghost predicate PossibleFrom(cfg: Config, s: Server, f: Serve)
    requires f.Valid()
  {
    forall k :: 0 <= k < |f.targets| ==> PossibleAt(cfg, s, f, k)
  }

  // No two of the clusters asked for, now or before, are twins.
  ghost predicate TwinFree(cfg: Config, ops: seq<Kubeconfigs.Op>, f: Serve) {
    forall t, req :: t in f.targets && Route(cfg, t) == Some(req) ==>
      && NoTwinOf(req, ops)
      && forall u, other :: u in f.targets && Route(cfg, u) == Some(other) ==> !Twins(other, req)
  }

  lemma OneGoroutineMore(cfg: Config, ops: seq<Kubeconfigs.Op>, s: Server, f: Serve, k: nat)
    requires f.Valid() && k < |f.targets|
    requires RunFrom(cfg, START, ops) == Some(ServerAt(cfg, s, f, k))
    requires PossibleAt(cfg, s, f, k)
    ensures RunFrom(cfg, START, ops + CallOf(cfg, f, k)) == Some(ServerAt(cfg, s, f, k + 1))
  {
    match Route(cfg, f.targets[f.order[k]])
    case None => assert ops + [] == ops;
    case Some(req) =>
      assert Call(req, f.world[k]) in CallOf(cfg, f, k);
      RunSnoc(cfg, ops, ServerAt(cfg, s, f, k), Call(req, f.world[k]));
  }

  lemma Associate(a: seq<Kubeconfigs.Op>, b: seq<Kubeconfigs.Op>, c: seq<Kubeconfigs.Op>)
    ensures (a + b) + c == a + (b + c)
  {
  }

  lemma NextGoroutine(cfg: Config, ops: seq<Kubeconfigs.Op>, s: Server, f: Serve, k: nat)
    requires f.Valid() && k < |f.targets| && PossibleAt(cfg, s, f, k)
    requires RunFrom(cfg, START, ops + CallsOf(cfg, f, k)) == Some(ServerAt(cfg, s, f, k))
    ensures RunFrom(cfg, START, ops + CallsOf(cfg, f, k + 1)) == Some(ServerAt(cfg, s, f, k + 1))
  {
    OneGoroutineMore(cfg, ops + CallsOf(cfg, f, k), s, f, k);
    Associate(ops, CallsOf(cfg, f, k), CallOf(cfg, f, k));
  }

  lemma {:induction false} FanOutIsARun(cfg: Config, ops: seq<Kubeconfigs.Op>, s: Server, f: Serve, k: nat)
    requires f.Valid() && k <= |f.targets|
    requires RunFrom(cfg, START, ops) == Some(s) && PossibleFrom(cfg, s, f)
    ensures RunFrom(cfg, START, ops + CallsOf(cfg, f, k)) == Some(ServerAt(cfg, s, f, k))
  {
    if k == 0 {
      assert ops + [] == ops;
    } else {
      FanOutIsARun(cfg, ops, s, f, k - 1);
      NextGoroutine(cfg, ops, s, f, k - 1);
    }
  }

  lemma {:induction false} FanOutAddsNoTwin(cfg: Config, ops: seq<Kubeconfigs.Op>, f: Serve, k: nat, req: Request,
                                            target: string)
    requires f.Valid() && k <= |f.targets| && TwinFree(cfg, ops, f)
    requires target in f.targets && Route(cfg, target) == Some(req)
    ensures NoTwinOf(req, ops + CallsOf(cfg, f, k))
  {
    if k == 0 {
      assert ops + [] == ops;
    } else {
      FanOutAddsNoTwin(cfg, ops, f, k - 1, req, target);
      assert f.targets[f.order[k - 1]] in f.targets;
    }
  }

  // The kubeconfig was fetched for this very cluster: by the call of this goroutine, or by an
  // earlier one, no longer than the ttl ago.
  ghost predicate FetchedForItself(cfg: Config, ops: seq<Kubeconfigs.Op>, s: Server, req: Request, up: Upstream,
                                   kubeconfig: string)
    requires RunFrom(cfg, START, ops).Some?
  {
    match StillGood(LastFetched(History(cfg, ops), req), cfg.ttl, s.tunnels.now)
    case Some(c) => kubeconfig == c.kubeconfig
    case None => Fetch(cfg, req, up).Ok? && kubeconfig == Fetch(cfg, req, up).value.kubeconfig
  }

  lemma AnswerIsItsOwn(cfg: Config, ops: seq<Kubeconfigs.Op>, s: Server, req: Request, up: Upstream)
    requires RunFrom(cfg, START, ops) == Some(s) && NoTwinOf(req, ops)
    ensures var r := Cached(cfg, s, req, up).1;
      r.Ok? ==> FetchedForItself(cfg, ops, s, req, up, r.value)
  {
    ReadThroughAgreesWithHistory(cfg, ops, s, req, up);
  }

  /** After any run, in every order of completion, and with the goroutines sharing the cache: the
      slot of each target holds an error, or a kubeconfig that was fetched for that target's
      own cluster, or, in a read-only request that got one, what was minted for the target. */
  lemma SlotsHoldTheirOwn(cfg: Config, ops: seq<Kubeconfigs.Op>, s: Server, f: Serve, message: string,
                          resolve: (nat, string) -> T.Fetched, mint: (nat, string) -> T.Fetched, readonly: bool,
                          results: seq<T.KubeconfigResult>, i: nat)
    returns (k: nat)
    requires f.Valid() && RunFrom(cfg, START, ops) == Some(s) && PossibleFrom(cfg, s, f)
    requires TwinFree(cfg, ops, f) && i < |f.targets|
    requires forall k, t :: resolve(k, t) == ResolveAt(cfg, s, f, message, k, t)
    requires Filled(f.order, (k, i) => T.FetchSlot(resolve, mint, readonly, f.targets, k, i), results)
    ensures k < |f.targets| && f.order[k] == i && |results| == |f.targets|
    ensures RunFrom(cfg, START, ops + CallsOf(cfg, f, k)) == Some(ServerAt(cfg, s, f, k))
    ensures results[i].cluster == f.targets[i]
    ensures match Route(cfg, f.targets[i])
      case None => results[i] == T.KubeconfigResult(f.targets[i], "", message)
      case Some(req) =>
        match Cached(cfg, ServerAt(cfg, s, f, k), req, f.world[k]).1
        case Err => results[i] == T.KubeconfigResult(f.targets[i], "", message)
        case Ok(kubeconfig) =>
          && FetchedForItself(cfg, ops + CallsOf(cfg, f, k), ServerAt(cfg, s, f, k), req, f.world[k], kubeconfig)
          && results[i] == T.KubeconfigSlot(f.targets[i], readonly, T.Got(kubeconfig), mint(k, f.targets[i]))
  {
    ScheduleCovers(f.order, |f.targets|, i);
    k :| 0 <= k < |f.order| && f.order[k] == i;
    assert results[f.order[k]] == T.FetchSlot(resolve, mint, readonly, f.targets, k, i);
    FanOutIsARun(cfg, ops, s, f, k);
    if Route(cfg, f.targets[i]).Some? {
      var req := Route(cfg, f.targets[i]).value;
      FanOutAddsNoTwin(cfg, ops, f, k, req, f.targets[i]);
      AnswerIsItsOwn(cfg, ops + CallsOf(cfg, f, k), ServerAt(cfg, s, f, k), req, f.world[k]);
    }
  }
}
