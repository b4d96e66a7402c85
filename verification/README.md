# capi-shell-mcp: a verified model of its core

capi-shell-mcp serves kubeconfigs and runs commands for the Cluster API clusters it discovers
through a set of configured kubeconfigs.  This project models, in Dafny, the parts of it
that hold state or define a language, and proves what they promise:

* **The tunnel manager** (`internal/proxy/manager.go`): sshuttle processes with time-to-live timers, exit
  watchers, kills and a shutdown sweep, all running concurrently.
* **The caches** (`internal/cache/cache.go`, `internal/capi/store.go`) and what flows through them: kubeconfigs
  with the tunnels they need (`internal/server/kubeconfig.go`) and cluster listings (`internal/server/resolve.go`).
* **The target language** (`internal/capi/target.go`, `target_pattern.go`, `resolve_patterns.go`) and the tools
  that fan a call out over the clusters a request names (`internal/embed/fanout.go`, `internal/server/tools.go`).
* **The read-only RBAC reconcile** (`internal/capi/readonly.go`) against an API server whose calls may fail.
* **The output limit** shared by a command's two streams (`internal/shell/shell.go`).

`dafny verify dfyconfig.toml` checks everything.

## Two granularities of the tunnel manager

`TunnelSteps` is the fine-grained machine: one step per critical section, timer operation, spawn, channel receive
and signal.  Any step may be interleaved with any other; a timer that expires starts a callback that runs
later.  `TunnelSafety`, `TunnelTheorems`, `TunnelResults`, `TunnelSweep` and `TunnelThreats` prove what holds in every
state that any interleaving reaches.  `TunnelRaces` gives runs of this machine that show what the code does not promise.

`Leases` is the coarse machine, the granularity of the repository's fake clock
(`internal/proxy/clock_test.go`): an operation is one step and a timer fires together with its callback.
On its runs timers fire late at most, never early.  Only here "a refresh always prolongs life" is true, and the exact
lease semantics is proved.  `TunnelManager` is the object itself, with every method proved to do what the functions of
`Leases` say.  `Kubeconfigs`, `ReadThrough` and `ToolServers` build on this machine.  `Addresses`,
`KubeconfigAnswers` and `DiscoveryYields` say outright, without the functions these modules compute with, what names a
tunnel, what a call answers and stores, and which clusters a discovery yields.

`TunnelBridge` connects the two: every coarse run is a fine-grained run in which each operation's
steps happen back to back, so what is proved of every fine-grained state carries over.

What the fine-grained machine takes for granted: singleflight admits one ensure per key at a time; a time-to-live timer
does not expire between being armed (190) and its entry being inserted (192), so these are one step; one shutdown
sweep runs at a time; the startup timer is the free choice between the two cases of the select.
An entry is identified by its process, and a spawned process is a new one.

## Writes of the two streams

`OutputLimit` takes each `Write` of a limited stream as one step.  The code does not make it one: the two streams have
a copying goroutine each and `Write` takes no lock.  `OutputRaces` is the machine for writes that overlap, with the load of
the counter, the store of the sum and the test as separate steps (on sequentially consistent memory), and says what
still holds.  What `OutputLimit` promises is for writes that do not overlap, and only for these.

## Where the code does less than one might expect

Each of these is a lemma, with the exact condition where there is one.

* A refresh re-arms the timer after it has released the lock (`manager.go:155-160`).  It can return success for a
  tunnel that is no longer registered (`TunnelRaces.RefreshCanReturnWithoutTunnel`; exactly if somebody removed the entry in between,
  `TunnelResults.RefreshKeepsTunnelIffNotRemoved`), and the timer it leaves behind can kill a newer tunnel of the
  same key early (`TunnelRaces.StrayTimerCanKillNewerTunnel`).
* A timer that fires just before a refresh stops it still kills the refreshed tunnel, since Stop's answer is ignored
  (`TunnelRaces.PendingKillOutlivesRefresh`).  A registered tunnel is sure to live until its own timer fires, its process
  exits or the shutdown sweep gets to it exactly if no kill of its key is pending and no other timer of its key is armed
  (`TunnelThreats.LivesToItsOwnEndIff`).
* A tunnel inserted after the snapshot survives the shutdown sweep (`TunnelRaces.SweepCanMissLaterInsert`); nothing
  else does (`TunnelSweep.SweepLeavesLaterInserts`).  If no more tunnels are asked for, this can happen exactly if one is
  being started when the snapshot is taken (`TunnelShutdown.ShutdownEmptiesIff`).
* At the very instant of expiry a cached kubeconfig is still served, since `Time.After` is strict, while the
  timer may already have ended its tunnel (`Kubeconfigs.ExpiryInstantMayLackTunnel`).  At no
  other time can this happen to a tunnel that was not lost (`Kubeconfigs.HitLacksTunnelOnlyAtExpiry`).
* Colon-free kubeconfig names are more than the keys need, but some condition is needed: two different names share a key for
  some contexts exactly if one is the other continued after a colon (`Keys.ClusterListKeysCollideIff`), and then listings
  surface under the wrong source (`Discovery.CollidingNamesMixListings`).
* Targets are routed unchecked, and a colon in a requested namespace or name can give two clusters of a source the same key:
  exactly if one `:namespace:name` ends with the other (`ReadThrough.CanBeTwinsIff`, `Discovery.TargetsCanBeTwins`).
  Then, and only then, a call can be answered with the other cluster's kubeconfig (`ReadThrough.OnlyTwinsMislead`).
* Field-wise matching is path-prefix matching exactly up to slashes in the fields the pattern speaks about
  (`Targets.MatchesIsPathPrefix`); embedded and bespoke tools expand alike exactly if the
  clusters a pattern can reach have slash-free fields (`Agreement.ExpandAlikeIff`).
* Strict mode accepts empty segments, lenient mode does not; that is the only disagreement (`Resolve.ModesAgree`).
* The fan-out's error flag misses a handler error whose message is empty (`FanOut.FlagIsDisjunctionOfFailures`;
  the same in `Tools.KubeconfigFlag`).
* Overlapping writes can together exceed the output limit, since an update of the counter can be lost: exactly if both
  streams write, not all of it fits, and the first write of at least one of them does (`OutputRaces.StaysWithinIff`).  Two of them can both be rejected though each of them fits (`OutputRaces.BothRejectedIff`).
* A kubeconfig whose name holds a slash is discovered, but no target reaches it (`Discovery.RoutedNamesAreSlashFree`).

## Model

| member | source | states |
|---|---|---|
| TunnelSafety.SaneStep | internal/proxy/manager.go:154-239 | every step of the fine-grained machine keeps the tables consistent: each registered entry is a process of its key with a timer of its own for that key, no two entries share a timer, and an ensure that is starting a process finds no entry under its key |
| TunnelSafety.TallyStep | internal/proxy/manager.go:154-239 | a step moves processes between owners (ensure, map, kill, signalled, reaped) so that each spawned process keeps exactly one and nothing else has any |
| TunnelTheorems.MortalStep | internal/proxy/manager.go:154-239 | no step leaves a registered tunnel with nothing bound to end it |
| TunnelTheorems.RefreshingStep | internal/proxy/manager.go:154-162 | every step keeps: while a refresh is in flight no other tunnel takes the place of the one it found, and between Stop and re-arm that tunnel has no armed timer of its own |
| TunnelTheorems.InvAfter | internal/proxy/manager.go:154-239 | all state invariants hold after any sequence of enabled steps |
| TunnelResults.NoImmortalTunnel | internal/proxy/manager.go:154-221 | in every reachable state a registered tunnel has its own timer armed, or a kill of its key pending, or its ensure exactly between Stop and re-arm; and its exit will be noticed |
| TunnelResults.ExactlyOneOwner | internal/proxy/manager.go:164-221 | every spawned process is in exactly one of: held by the in-flight ensure, registered, removed by a kill and about to be signalled, signalled, observed to have exited |
| TunnelResults.OneLivePerKey | internal/proxy/manager.go:94-103 | at most one process per key is starting up or registered |
| TunnelResults.NoLeakWhenQuiet | internal/proxy/manager.go:154-221 | with no operation in flight every running, unsignalled process is registered under its key |
| TunnelResults.InsertIsFresh | internal/proxy/manager.go:189-193 | an insert never overwrites an entry and never inserts a process that was removed before |
| TunnelResults.RemovalIsUnique | internal/proxy/manager.go:195-221 | an entry is removed at most once, a process gets at most one SIGTERM and only from the kill that removed it, a watcher removes only a process that has exited |
| TunnelResults.PastForGood | internal/proxy/manager.go:189-221 | a process that has left the map never comes back, over any further run |
| TunnelResults.EvictedOnlyByKillOrOwnWatcher | internal/proxy/manager.go:195-214 | an entry leaves the map exactly through a kill of its key or its own watcher after its own process has exited: a late watcher never removes a newer entry |
| TunnelResults.RefreshKeepsTunnelIffNotRemoved | internal/proxy/manager.go:154-162 | a refresh that returns has armed the entry's timer, and the tunnel is still registered exactly if nobody removed it meanwhile |
| TunnelSweep.SweepProgress | internal/proxy/manager.go:229-239 | each step of the shutdown sweep uses up its work and no other step changes how much is left |
| TunnelSweep.SweepTerminates | internal/proxy/manager.go:229-239 | a sweep over n keys takes at most 1 + 4n steps of its own and can always take one until it has ended |
| TunnelSweep.SweepKillsTheSnapshot | internal/proxy/manager.go:229-239 | when the sweep ends, in whatever interleaving, nothing registered at its snapshot is still registered, and each such process has exited, been signalled, or is held by a kill about to signal it |
| TunnelSweep.SweepLeavesLaterInserts | internal/proxy/manager.go:229-239 | when the sweep ends, exactly those tunnels are registered that were inserted after its snapshot and that nobody has removed since |
| TunnelSweep.SweepEmptiesTheMap | internal/proxy/manager.go:229-239 | with no insert after the snapshot the sweep leaves the map empty |
| TunnelShutdown.ShutdownEmptiesIff | internal/proxy/manager.go:229-239 | if nobody calls ensure after the snapshot, every completed sweep leaves the map empty, in every interleaving, iff no ensure is starting a tunnel when the snapshot is taken |
| TunnelShutdown.SweepToEnd | internal/proxy/manager.go:236-238 | left to itself a sweep gets to its end, without touching any ensure |
| TunnelRaces.RefreshCanReturnWithoutTunnel | internal/proxy/manager.go:155-161 | counterexample: a refresh succeeds for a tunnel that is gone |
| TunnelRaces.StrayTimerCanKillNewerTunnel | internal/proxy/manager.go:155-161 | counterexample: the timer such a refresh leaves kills a newer tunnel whose own timer is armed; LivesToItsOwnEndIff says when this cannot happen |
| TunnelRaces.PendingKillOutlivesRefresh | internal/proxy/manager.go:155-161 | counterexample without stray timer: the old timer fires before Stop, the refresh re-arms and returns, and the pending kill is about to remove the refreshed tunnel |
| TunnelThreats.UnthreatenedStep | internal/proxy/manager.go:154-239 | a registered tunnel with no kill of its key pending and no armed timer of its key but its own stays so in every step except its own timer firing, its own watcher waking up and the sweep getting to it; refreshes included |
| TunnelThreats.ThreatenedCanEnd | internal/proxy/manager.go:207-221 | any other registered tunnel can be removed within two steps, none of which is one of these three |
| TunnelThreats.LivesToItsOwnEndIff | internal/proxy/manager.go:154-221 | so a registered tunnel survives every run without these three kinds of steps if and only if no kill of its key is pending and no other timer of its key is armed |
| TunnelThreats.RefreshLeavesUnthreatenedIff | internal/proxy/manager.go:158-162 | a refresh that finds its tunnel still registered leaves it in that condition exactly if no kill of its key is pending and no other timer of its key is armed when it re-arms |
| TunnelRaces.SweepCanMissLaterInsert | internal/proxy/manager.go:229-239 | counterexample: a tunnel inserted after the snapshot survives the sweep |
| Leases.RefinesLeases | internal/proxy/manager.go:154-239 | every coarse operation keeps exactly one armed timer per registered key and none otherwise, and is a step of the timer-free table of leases |
| Leases.EnsureLeases | internal/proxy/manager.go:154-205 | an ensure succeeds exactly if the tunnel is up or its process survives startup, and then sets the lease to now + ttl; otherwise it leaves all leases alone |
| Leases.FireLeases | internal/proxy/clock_test.go:43-53 | an armed timer is that of a registered key and due when its lease runs out, and firing it, early or not, ends exactly that lease; a stopped or fired timer changes nothing |
| Leases.FireEndsItsOwn | internal/proxy/manager.go:189-193 | firing a timer takes a key out of the map only if it is that key's own timer |
| Leases.KillAllLeases | internal/proxy/manager.go:229-239 | killing these keys ends exactly their leases |
| Leases.LeaseIsSetByLastEnsure | internal/proxy/manager_test.go:131-162 | on every run a registered key's lease ends at the time of its last ensure plus that ensure's ttl |
| Leases.LeaseHoldsToItsEnd | internal/proxy/manager_test.go:131-162 | unless its own process exits or shutdown runs, an unrefreshed tunnel stays registered with its lease until the lease's end, whatever other tunnels, timers and late watchers of earlier processes of the key do |
| TunnelBridge.OpIsARun | internal/proxy/manager.go:154-239 | one coarse operation is a sequence of fine-grained steps from and to states that show the same tunnels |
| TunnelBridge.CoarseRunsAreFineRuns | internal/proxy/manager.go:154-239 | every state of a coarse run is, with nothing in flight, a reachable fine-grained state |
| TunnelBridge.CoarseConservation | internal/proxy/manager.go:207-221 | carried over: on a coarse run no process is signalled twice and none that is registered has been signalled |
| TunnelBridge.CoarseTunnelsAreUnthreatened | internal/proxy/clock_test.go:43-53 | no tunnel of a coarse run is threatened: the races are of the fine-grained machine alone |
| TunnelManager.Clock.AfterFunc | internal/proxy/clock.go:8-10 | arms a new timer due after the given time and leaves the others alone |
| TunnelManager.Clock.StopTimer | internal/proxy/clock_test.go:31-39 | stops a timer and reports true exactly if it was still armed |
| TunnelManager.Manager.EnsureProxy | internal/proxy/manager.go:94-103 | under systemd the answer is systemd's and the manager is untouched; otherwise new state and answer are those of the coarse ensure of the target's key |
| Addresses.SameTunnelIff | internal/proxy/manager.go:27-29 | two addresses name the same tunnel iff they are the same, or one is the other with the colon between ip and port put elsewhere |
| Addresses.PortsTellTunnelsApart | internal/proxy/manager.go:27-29 | addresses with colon-free ports name the same tunnel iff they are the same, whatever colons the ips hold |
| Addresses.OtherAddressesUntouched | internal/proxy/manager.go:94-103 | asking for a tunnel to one address leaves the registration, process and lease of every other as they are |
| Addresses.NewAddressGetsItsOwnProcess | internal/proxy/manager.go:164-205 | on any run, an address no earlier ensure asked for gets a process of its own, registered with a lease of the ttl, or, if none can be started, the ensure fails |
| TunnelManager.Manager.EnsureProcessProxy | internal/proxy/manager.go:154-205 | the object's state and answer are those of the coarse ensure, whichever branch is taken |
| TunnelManager.Manager.Refresh | internal/proxy/manager.go:158-162 | stops the entry's timer and arms a new one, leaving process and other entries alone |
| TunnelManager.Manager.Register | internal/proxy/manager.go:189-193 | arms a timer and inserts a new entry for the process |
| TunnelManager.Manager.ExitWatcher | internal/proxy/manager.go:195-203 | removes the entry and stops its timer exactly if the registered entry is the watcher's own |
| TunnelManager.Manager.KillProcessEntry | internal/proxy/manager.go:207-221 | removes the key's entry if any, stops its timer and signals its process |
| TunnelManager.Manager.FireTimer | internal/proxy/clock_test.go:43-53 | marks the timer fired and runs its kill, if it is armed |
| TunnelManager.Manager.KillAllProcessProxies | internal/proxy/manager.go:229-239 | leaves the map empty, having killed exactly the registered keys in some order |
| TtlCache.TTLCache.Get | internal/cache/cache.go:36-51 | a hit returns the stored value; an entry strictly past its expiry is deleted and missed |
| TtlCache.TTLCache.Set | internal/cache/cache.go:54-59 | stores the value to expire ttl after now, touching no other key |
| TtlCache.TTLCache.Delete | internal/cache/cache.go:62-67 | removes exactly this key |
| TtlCache.TTLCache.Clear | internal/cache/cache.go:70-75 | removes every key |
| TtlCache.StoreFollowsHistory | internal/cache/cache.go:36-75 | after any history the map holds a key's last undeleted Set, or has dropped it because it expired |
| TtlCache.GetFollowsHistory | internal/cache/cache.go:36-75 | after any history under a clock that never goes back, Get finds v iff the latest Set of the key stored v, no Delete or Clear followed, and now <= set time + ttl |
| TtlCache.LazyExpiryIsUnobservable | internal/cache/cache.go:45-49 | a lookup finds the same whether or not any earlier lookup happened |
| Keys.ClusterListKeysCollideIff | internal/capi/store.go:40-42 | two different kubeconfig names share a cluster-list key for some contexts iff one is the other continued after a colon |
| Keys.ClusterListKeyInjective | internal/capi/store.go:40-42 | otherwise equal keys mean equal name and context |
| Keys.KubeconfigKeysCollideIff | internal/capi/store.go:44-46 | two (kubeconfig name, namespace, cluster name) triples share a key for some contexts iff one name with its colon starts with the other and one ":namespace:name" ends with the other |
| Keys.ContextIsDetermined | internal/capi/store.go:44-46 | within one triple equal keys mean equal contexts |
| Keys.KubeconfigKeyInjective | internal/capi/store.go:44-46 | with such names and colon-free namespace and cluster name the key determines all four parts, whatever the contexts |
| Keys.NamespaceColonCollides | internal/capi/store.go:44-46 | every cluster whose context holds a colon shares its key with the one that has the part after it in the namespace instead |
| Kubeconfigs.CachedKubeconfigsHaveTunnels | internal/server/kubeconfig.go:23-72 | over every run of calls, timers, exits and shutdowns: before its expiry, a cached kubeconfig's tunnel is registered with a lease ending no earlier than the cache entry, unless the tunnel was lost to an exit or shutdown and not ensured since |
| Kubeconfigs.RunBacked | internal/server/kubeconfig.go:23-72 | the invariant behind it holds after every run |
| Kubeconfigs.CallsOnlyProlongLeases | internal/server/kubeconfig.go:31-68 | on any run a call, hit or miss, failing or not, never shortens or ends any lease |
| Kubeconfigs.HitLacksTunnelOnlyAtExpiry | internal/cache/cache.go:45 | on every run a kubeconfig that would be a hit, its tunnel not lost, can be without its tunnel iff now is the instant of its expiry and the tunnel is gone or its lease ends no later |
| Kubeconfigs.ExpiryInstantMayLackTunnel | internal/cache/cache.go:45 | counterexample at the instant of expiry: a hit whose tunnel is gone though no process exited and no shutdown ran |
| ReadThrough.AnswersByKey | internal/server/kubeconfig.go:29-71 | over every run whatsoever, the same with what was last fetched under the call's key, by whichever cluster |
| ReadThrough.ReadThroughAgreesWithHistory | internal/server/kubeconfig.go:29-71 | over every run in which no other cluster with the same key is asked for, a call is a hit exactly if this very cluster's kubeconfig was fetched at most ttl ago, and then answers with the value fetched and transformed last; otherwise it answers as an empty cache would |
| ReadThrough.TwinIsAnsweredWrongly | internal/server/kubeconfig.go:29-38 | for any two clusters with the same key, and a ttl that is not negative, there is a run after which a call for one is a hit with the other's kubeconfig, though nothing was fetched for it and its own fetch would fail |
| ReadThrough.OnlyTwinsMislead | internal/server/kubeconfig.go:29-38 | calls for one cluster can mislead a call for another iff the two share a key and the ttl is not negative |
| ReadThrough.CanBeTwinsIff | internal/capi/store.go:44-46 | among configured sources two clusters share a key for some contexts iff they are of one source, differ in namespace or name, and one ":namespace:name" ends with the other |
| ReadThrough.OnlySuccessIsCached | internal/server/kubeconfig.go:40-71 | whatever the cache holds was stored by a call of the run that fetched, transformed and tunnelled it without error, ttl before its expiry |
| ReadThrough.KeyIdentifiesRequest | internal/capi/store.go:44-46 | where namespace and name agree or the tails do not end alike, two requests share a key iff they are the same request |
| ReadThrough.ColonFreeIsTwinFree | internal/capi/store.go:44-46 | in particular colon-free namespaces and names never share a key with each other, whatever the contexts |
| ToolServers.ToolServer.CachedKubeconfig | internal/server/kubeconfig.go:23-72 | cache, tunnels and answer after the call are those of the read-through specification |
| ToolServers.ToolServer.LoadKubeconfig | internal/server/kubeconfig.go:40-71 | after a miss: fetch, transform, bring up the tunnel, and store only when all of it succeeded |
| KubeconfigAnswers.MissSucceedsIff | internal/server/kubeconfig.go:40-68 | a miss succeeds iff clients and Secret are there, configured transforms succeed, and, with a host to tunnel through (the source's own before the common one), the restrictions can be read and the tunnel they call for comes up |
| KubeconfigAnswers.MissAnswers | internal/server/kubeconfig.go:45-71 | a miss answers with, and stores for ttl, the Secret's kubeconfig, transformed iff so configured, with the announced ip and port and the host as its proxy target, or none |
| KubeconfigAnswers.MissLeases | internal/server/kubeconfig.go:57-67 | the tunnel a miss needed then has a lease that ends when the cache entry does |
| KubeconfigAnswers.MissLeavesOthers | internal/server/kubeconfig.go:40-71 | a miss that fails leaves nothing under its key, and none touches another key |
| KubeconfigAnswers.HitAnswers | internal/server/kubeconfig.go:31-38 | a hit fetches and stores nothing, answers with what is stored iff the tunnel it needs comes up, and renews that tunnel's lease to now + ttl |
| ToolServers.ToolServer.ResolveTarget | internal/server/target.go:43-53 | a target that routes nowhere is an error without effect; any other is served as the request it routes to |
| ToolServers.ToolServer.ListClustersCached | internal/server/resolve.go:36-51 | answers from the cache or lists and stores; a failed listing is not stored |
| ToolServers.ToolServer.OverSourcesOf | internal/server/resolve.go:18-32 | its nested loops, over any sources |
| ToolServers.ToolServer.AllResolvedClusters | internal/server/resolve.go:16-34 | over the configured sources in the order of their names, answers with every context's listing in order, or fails at the first failure |
| ToolServers.DiscoveryIsDeterministic | internal/server/server.go:51-65 | configuration, cache and world determine what a discovery yields and leaves in the cache |
| Sources.SortedKubeconfigs | internal/server/server.go:54-65 | lists every configured source once, ascending by name |
| Sources.SortedIsUnique | internal/server/server.go:51-53 | there is only one such list |
| Sources.BeforeIsLexicographic | internal/server/server.go:59 | the order is lexicographic: the first difference decides, and a string comes before its extensions |
| Sources.SortedAreConfigured | internal/server/server.go:54-65 | it holds configured sources only |
| ToolServers.ToolServer.ListTargets | internal/server/target.go:14-24 | one target per discovered cluster, in discovery order |
| ToolServers.ToolServer.AllKnownClusters | internal/server/target.go:28-38 | the discovered clusters, in discovery order |
| Discovery.ListedOk | internal/server/resolve.go:36-51 | a listing, cached or not, is of the source and context asked for, and keeps the cache so |
| Discovery.OverSourcesOk | internal/server/resolve.go:16-34 | every cluster a discovery yields carries the name of its own configured source and one of that source's contexts |
| Discovery.CachedListingsOk | internal/server/resolve.go:36-51 | after any run of discoveries no cached listing surfaces under another source or context |
| DiscoveryYields.LookupAnswers | internal/server/resolve.go:36-51 | a cached listing that is not too old is the answer; otherwise the context is listed, one cluster per item with the source's name, the context and the item's own namespace, name and custom fields, and stored for ttl |
| DiscoveryYields.FirstDiscovery | internal/server/resolve.go:16-34 | from an empty cache: fails iff the contexts of a configured source or some listing cannot be had, and otherwise yields exactly one cluster per listed item, over the sources by name, their contexts in order and the items in order |
| DiscoveryYields.DiscoveryYieldsCurrentListings | internal/server/resolve.go:16-51 | after any run of discoveries: over sources and contexts in order, exactly the items listed for that source and context, all of them and in order, by this discovery or one at most ttl ago |
| DiscoveryYields.DiscoveryFailsIff | internal/server/resolve.go:18-27 | a discovery fails iff the contexts of some source cannot be found out, or some context with no listing young enough in the cache cannot be listed |
| Discovery.RoutedWhereDiscovered | internal/server/target.go:43-53 | in any run, a discovered cluster's target is routed to the source, context, namespace and name it was discovered under if its fields are slash-free, and nowhere otherwise |
| Discovery.RoutedIffNamed | internal/server/target.go:43-53 | a target is routed to a cluster iff it spells name/context/namespace/name of a configured source, all four slash-free |
| Discovery.CollidingNamesMixListings | internal/server/resolve.go:36-51 | listings of one source can surface under another iff one name is the other continued after a colon and the ttl is not negative |
| Discovery.TargetsCanBeTwins | internal/server/target.go:43-53 | every configured source with a slash-free name has targets that are accepted and routed to different clusters with the same cache key |
| Discovery.RoutedNamesAreSlashFree | internal/server/target.go:44-51 | no target is routed to a source with a slash in its name |
| Text.JoinSplit | internal/capi/target.go:18 | joining what a split yields gives the string back |
| Text.SplitJoin | internal/capi/target.go:12 | splitting what joining separator-free parts yields gives the parts back |
| Text.SplitJoinCount | internal/capi/target.go:11-23 | joining and splitting gives back as many parts iff all were separator-free |
| Text.PathPrefixIsSegmentPrefix | internal/capi/target_pattern.go:9-12 | being a path prefix is being a prefix of the segments |
| Targets.TargetIsSpelled | internal/capi/target.go:11-13 | a target is kubeconfig/context/namespace/name |
| Targets.ParseFormat | internal/capi/target.go:11-23 | parsing a formatted cluster gives it back, custom fields aside, iff its fields are slash-free, and fails otherwise |
| Targets.FormatParse | internal/capi/target.go:11-23 | what parses is what formatting the result gives, with slash-free fields |
| Targets.FormatInjective | internal/capi/target.go:11-13 | slash-free clusters with the same target are the same cluster |
| Targets.ParseTargetPattern | internal/capi/target_pattern.go:28-52 | accepts exactly 1 to 4 non-empty segments and fills the fields left to right |
| Targets.PatternIsSpelled | internal/capi/target_pattern.go:26-52 | a string is accepted as a pattern iff the pattern's non-empty, slash-free fields, filled from the left, are its segments |
| Targets.MatchesIsPathPrefix | internal/capi/target_pattern.go:55-69 | for every accepted pattern and every cluster, Matches holds iff the pattern is a path prefix of the target and the fields it speaks about are slash-free |
| Targets.MatchesSlashFree | internal/capi/target_pattern.go:55-69 | for slash-free clusters, Matches is exactly path-prefix matching |
| Targets.ExactIsTarget | internal/capi/target_pattern.go:22-24 | an accepted pattern is exact iff it has four segments, and then is the target of the cluster it names |
| Targets.ExpandTargetPattern | internal/capi/target_pattern.go:73-81 | the targets of the matching clusters, in order, with multiplicity |
| Targets.MatchesInMembers | internal/capi/target_pattern.go:73-81 | a string is in the expansion iff it is the target of a known cluster that matches |
| Targets.MatchesInOrder | internal/capi/target_pattern.go:73-81 | order and multiplicity: the i-th match is the target of the i-th known cluster that matches |
| Resolve.DedupePreserveOrder | internal/capi/resolve_patterns.go:78-88 | computes the de-duplication that DedupIsFirstSeen characterises |
| Resolve.DedupIsFirstSeen | internal/capi/resolve_patterns.go:78-88 | the result lists the elements of the input in the order of their first occurrences |
| Resolve.FirstSeenIsUnique | internal/capi/resolve_patterns.go:78-88 | there is only one list that does so |
| Resolve.ResolveClusterPatterns | internal/capi/resolve_patterns.go:22-76 | answer and number of listings are those of the resolution specification, for every listing outcome and both modes |
| Resolve.StrictStaysInRequest | internal/capi/resolve_patterns.go:23-30 | strict mode never lists, accepts exactly four-segment entries, and returns the request's strings in first-seen order |
| Resolve.ListsLazily | internal/capi/resolve_patterns.go:32-52 | lenient mode lists at most once, exactly if every pattern parses and one is partial; it fails exactly for a malformed pattern or a failed listing |
| Resolve.LenientMeetsSpec | internal/capi/resolve_patterns.go:54-75 | for every listing outcome with which it succeeds, the output is duplicate-free, the first-seen order of the concatenated matches, and contains exactly the targets some pattern calls for |
| Resolve.ResolvingTogether | internal/capi/resolve_patterns.go:54-75 | resolving ps + qs is resolving ps and then adding what qs gives and ps did not; it fails iff one of the two does |
| Resolve.FixedPoints | internal/capi/resolve_patterns.go:22-88 | a duplicate-free list resolves to itself without listing iff its entries are exact (lenient) or have four segments (strict) |
| Resolve.ResolutionIsFixedPoint | internal/capi/resolve_patterns.go:22-88 | if the known clusters a pattern can reach have slash-free fields (and, for lenient mode, none empty), re-resolving a lenient result in that mode changes and lists nothing |
| Resolve.FixedPointIff | internal/capi/resolve_patterns.go:22-88 | in each mode every lenient result re-resolves to itself without listing iff every known cluster whose kubeconfig name can be a segment has such fields |
| Resolve.ModesAgree | internal/capi/resolve_patterns.go:22-52 | where strict mode succeeds, lenient mode gives the same answer iff no entry has an empty segment, and rejects the list otherwise |
| FanOut.FillSlots | internal/server/tools.go:88-111 | in whatever order the goroutines complete, each slot holds what its own goroutine obtained |
| FanOut.ScheduleCovers | internal/embed/fanout.go:141-150 | every schedule runs every goroutine |
| FanOut.FilledIsScheduleIndependent | internal/embed/fanout.go:141-150 | if what a target yields does not depend on the order, slot i holds target i's result for every order |
| FanOut.CallOneTarget | internal/embed/fanout.go:166-193 | sends the synthesized arguments and records under the target what the handler returned: an error's text, or its result's text and flag |
| FanOut.SynthArgsShareTheRest | internal/embed/fanout.go:167-171 | the synthesized arguments hold the target as cluster, no clusters, and every other argument unchanged |
| FanOut.RunFanOut | internal/embed/fanout.go:135-164 | one call per target with that target's arguments; slot i names target i and reports what its call got, error or text and flag; the flag is set iff some result is flagged |
| FanOut.FlagIsDisjunctionOfFailures | internal/embed/fanout.go:156-162 | the flag is set iff some handler call failed other than by an error with an empty message |
| FanOut.ListKnownClusters | internal/embed/fanout.go:109-123 | the known targets that parse, in order; only a failed listing is an error |
| FanOut.KnownInOrder | internal/embed/fanout.go:115-121 | order and multiplicity: the i-th known cluster is the i-th of the targets that have four segments |
| FanOut.Wrapped | internal/embed/fanout.go:53-91 | a read-only tool without clusters lists once, fails iff that fails, and runs on the listed targets; another tool without clusters is refused; whenever it runs, every target is called once, and its slot reports what it got; decision and listings otherwise as RunsIff says |
| FanOut.DecodesIff | internal/embed/fanout.go:73-76 | decoding clusters yields the entries' texts in order, and fails iff the value is no list of strings and nulls, nor null |
| FanOut.RunsIff | internal/embed/fanout.go:73-90 | given clusters, runs iff they decode, to full paths, or, for a read-only tool, to well-formed patterns with the listing had if one is partial; everything else is an error result; lists iff a read-only tool's pattern is partial |
| FanOut.NonReadOnlyStaysInRequest | internal/embed/fanout.go:61-90 | a tool that is not read-only never lists and runs, if at all, on exactly the distinct strings of the request, each a full path |
| FanOut.CallsAreTheTargets | internal/embed/fanout.go:141-150 | the handler is called exactly once for each of them, in whatever order |
| Agreement.ListingRoundTrip | internal/embed/fanout.go:109-123 | listKnownClusters over ListTargets is the known list without the clusters that have a slash in a field and without custom fields |
| Agreement.ExpandAlikeIff | internal/server/target.go:14-38 | embedded and bespoke tools expand every pattern list identically iff every known cluster under a kubeconfig name that can be a segment has slash-free fields |
| Agreement.ReadOnlyRunsOnSelected | internal/embed/fanout.go:61-90 | given clusters, a read-only embedded tool runs iff every entry is a well-formed pattern, and then exactly once on each exact entry and each known slash-free cluster whose target some partial entry is a path prefix of |
| Tools.ListClusters | internal/server/tools.go:37-74 | without a filter every discovered cluster; with one, an error for a malformed pattern, else, in discovery order with multiplicity, the clusters with a target that some pattern is a path prefix of, ending within the fields of a discovered cluster with that target; of the slash-free clusters exactly those some pattern is a path prefix of, whatever else is discovered |
| Tools.KeepMatched | internal/server/tools.go:52-61 | keeps, in order and with multiplicity, the clusters whose target is among the resolved ones |
| Tools.KeptInOrder | internal/server/tools.go:56-61 | order and multiplicity: the i-th kept cluster is the i-th discovered one whose target is among the resolved |
| Tools.ResolvedIffChosen | internal/capi/resolve_patterns.go:54-75 | for every discovered cluster: its target is resolved iff some pattern is a path prefix of the target of a discovered cluster with that target and ends within its fields |
| Tools.SlashFreeIsChosenByPrefix | internal/capi/target_pattern.go:55-69 | for a slash-free one, whatever is discovered beside it, iff some pattern is a path prefix of its target |
| Tools.KeptIsSelected | internal/server/tools.go:52-62 | filtering by the set of resolved targets is filtering by that condition, for all discovered clusters |
| Tools.SlashFreeSelected | internal/server/tools.go:52-62 | its slash-free part is the slash-free discovered clusters filtered by path prefix, in order with multiplicity |
| Tools.ExecInClusterFanOut | internal/server/tools.go:210-246 | refuses an empty command, and an empty list or one with an entry that is no four-segment path; otherwise runs on each distinct requested target exactly once, slot i holds target i's own outcome, and the flag is set iff some target failed or exited non-zero |
| Tools.RunEach | internal/server/tools.go:224-233 | in any order of completion, slot i holds what running on target i yielded |
| Tools.GetClusterKubeconfigFanOut | internal/server/tools.go:82-125 | runs iff the patterns resolve, on what they resolve to, slot i holding what was fetched, and for read-only minted, for target i, flagged iff some result carries an error text |
| Tools.KubeconfigSlot | internal/server/tools.go:92-109 | a slot names its target and holds either the first failure's text and no kubeconfig, or the kubeconfig asked for: never the admin one in a read-only request |
| Tools.KubeconfigFlag | internal/server/tools.go:117-123 | the flag is set iff some target failed other than with an empty message, for every order of completion |
| Serving.FanOutIsARun | internal/server/tools.go:90-111 | the goroutines of a fan-out, in any order of completion, are a run of calls on the shared cache and tunnels |
| Serving.SlotsHoldTheirOwn | internal/server/tools.go:87-112 | after any run, in every order of completion, if no two clusters asked for share a key: each target's slot holds an error, or the kubeconfig fetched for that target's own cluster, now or within the ttl, or what was minted for it |
| Rbac.ApiServer.Do | internal/capi/readonly.go:46-83 | a call takes effect unless refused, and answers truthfully unless it is refused or its answer is lost |
| Rbac.EnsureReadOnlyRBAC | internal/capi/readonly.go:46-83 | succeeds iff none of its calls met a fault, and then reaches the goal: desired role and binding, the account created or left as it was, the binding deleted iff its roleRef differed; interrupted anywhere, it leaves one of five progress points |
| Rbac.GoalIsReadOnly | internal/capi/readonly.go:22-36 | where a successful run ends, the account it creates, and no other subject, may get, list and watch every resource and get every non-resource URL, and nothing else |
| Rbac.GoalKeepsAndDeletes | internal/capi/readonly.go:46-83 | an existing account is kept as it is, and a binding is deleted iff one exists with another roleRef |
| Rbac.ProgressKeepsGoal | internal/capi/readonly.go:46-83 | what an interrupted run leaves changes neither the goal of a later run nor what that run may leave |
| Rbac.InterruptedRunsConverge | internal/capi/readonly.go:46-83 | after any number of runs interrupted at any calls the goal is still that of the first state: one stale binding is deleted once in all |
| Rbac.SecondRunChangesNothing | internal/capi/readonly.go:42-45 | after a successful run any further run, interrupted or not, changes nothing and deletes nothing |
| OutputLimit.LimitedWriter.Write | internal/shell/shell.go:93-99 | of a write that no other overlaps: accepts all of the bytes or none, within the shared budget, and charges them either way |
| OutputLimit.ExecFile | internal/shell/shell.go:52-78 | of any sequence of writes that do not overlap, however the streams alternate, exactly the longest prefix within max is accepted, and what is reported, with or without error, are that prefix's streams, together at most max bytes; max 0 or less accepts everything; an error carries the child's exit code, or 1 |
| OutputLimit.Limited | internal/shell/shell.go:60-63 | the same for the two writers that share a limit, again for writes that do not overlap |
| OutputLimit.StreamsAddUp | internal/shell/shell.go:83-91 | the two streams together are everything that was written |
| OutputLimit.StreamOfConcat | internal/shell/shell.go:58-63 | what a stream is said to hold is the concatenation of its writes in order |
| OutputLimit.StreamOfOne | internal/shell/shell.go:58-63 | ... each of them whole, and of no other stream |
| OutputLimit.LongestIsFirstOver | internal/shell/shell.go:93-99 | the longest prefix within max is what precedes the first write over it: later writes are over it too |
| OutputRaces.BackToBackIsAtomic | internal/shell/shell.go:93-99 | the load, store and test of writes that do not overlap amount to whole Writes, in any order of the streams |
| OutputRaces.TurnsStayWithin | internal/shell/shell.go:93-99 | so without overlap never more than max bytes are accepted |
| OutputRaces.NothingRejectedIff | internal/shell/shell.go:93-99 | for any number of overlapping writes on both streams, from any count so far: no write is rejected in any interleaving iff there is none or all of them together fit |
| OutputRaces.StaysWithinIff | internal/shell/shell.go:93-99 | for any number of overlapping writes, from any count so far: what is accepted stays within max in every interleaving iff one stream writes nothing, or all of it together fits, or neither stream's first write fits |
| OutputRaces.AtMostMaxIff | internal/shell/shell.go:60-63 | so from the start the two streams together are at most max bytes in every interleaving on exactly that condition on the sizes |
| OutputRaces.OverlapStaysWithinIff | internal/shell/shell.go:93-99 | in particular two overlapping writes stay within max in every interleaving iff both together fit or neither fits by itself |
| OutputRaces.BothRejectedIff | internal/shell/shell.go:93-99 | two overlapping writes can both be rejected iff they do not both fit, even if each fits by itself |

## Left out

* Kubernetes, YAML, JSON and jq calls, and the file system: their outcomes are parameters (`Upstream`, `World`, the handler of
  a fan-out, the faults of `ApiServer`).
* How `ensureSystemdProxy` builds its commands: it keeps no state of its own; its answer is a parameter.
* Singleflight's internals, real time and fairness: safety is proved, and the sweep's bound on its own steps, not that a scheduler runs it.
* The configuration file, HTTP server, tool registration, schema editing (`wrapFanOut` lines 36-51), environments and temporary files.
* `capiProvider.managerForTarget`: concurrent misses may build two managers, so the attractive claims do not hold.
* Error texts, JSON rendering and integer overflow.  JSON arguments are a datatype; decoding null gives an empty
  list, and a null element the empty string, as `encoding/json` does.
* Goroutines of a fan-out: each is one step, in an arbitrary order of completion; what the k-th to run obtains may depend on k.
* Concurrent calls of `cachedKubeconfig`: a call is one step, in which time passes only before the tunnel is ensured (lines 40-62).
  With time passing between ensuring and storing, the cache entry would outlive the lease by that time.
* Concurrent discoveries: a discovery is one step at one time.
* Concurrent RBAC reconciles, and changes to the three objects by others during a run.  The service account's namespace is fixed.
* How `isImmutableRoleRefError` reads the error (`readonly.go` lines 38-40): the API server's answers are distinct values here.
* Minting the read-only token and rendering its kubeconfig (`readonly.go` lines 99-170): API and YAML calls.
* OutputLimit.LimitedWriter.Write: one step; the three that it is are in `OutputRaces`.
* OutputLimit.Limited: for writes that do not overlap, which the code does not ensure; for writes that overlap see
  `OutputRaces.StaysWithinIff` and `OutputRaces.NothingRejectedIff`.
* OutputLimit.ExecFile: the same; and how `cmd.Run` ends is a parameter; that a rejected write makes it fail is up to `os/exec`.
* ToolServers.ToolServer.CachedKubeconfig: not under systemd, and one ttl serves the cache and the tunnels, as `main.go:39-42` and `kubeconfig.go:28` set it up.
* Tools.ListClusters: what it is given are the discovered clusters; a failed discovery is `AllResolvedClusters` failing.
