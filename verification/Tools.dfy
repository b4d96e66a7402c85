/**
 The list and fan-out tools of internal/server/tools.go.
 */
module Tools {
  import opened Basics
  import opened Text
  import opened Targets
  import opened Resolve
  import opened Discovery
  import opened FanOut

  // ---------------------------------------------------------------- list_clusters

  predicate Selects(patterns: seq<string>, c: Cluster) {
    exists p | p in patterns :: PathPrefix(p, FormatTarget(c), SLASH)
  }

  // The clusters some pattern is a path prefix of, in order, with multiplicity.
  function PrefixSelected(patterns: seq<string>, rs: seq<Resolved>): seq<Resolved> {
    if rs == [] then []
    else
      var n := |rs| - 1;
      PrefixSelected(patterns, rs[..n]) + if Selects(patterns, rs[n].cluster) then [rs[n]] else []
  }

  function SlashFreeOnly(rs: seq<Resolved>): seq<Resolved> {
    if rs == [] then []
    else
      var n := |rs| - 1;
      SlashFreeOnly(rs[..n]) + if SlashFree(rs[n].cluster) then [rs[n]] else []
  }

  // p is a path prefix of c's target that ends within c's fields: no slash is inside a field
  // that p speaks about.
  ghost predicate PrefixOfFields(p: string, c: Cluster) {
    && PathPrefix(p, FormatTarget(c), SLASH)
    && |Split(p, SLASH)| <= 4 && AllFree(Fields(c)[..|Split(p, SLASH)|], SLASH)
  }

  // The target t is that of a discovered cluster some pattern is such a prefix of.
  ghost predicate Chooses(patterns: seq<string>, all: seq<Resolved>, t: string) {
    exists p, d :: p in patterns && d in all && FormatTarget(d.cluster) == t && PrefixOfFields(p, d.cluster)
  }

  // What a filter keeps of rs, the discovered clusters being all of these.
  ghost function Selected(patterns: seq<string>, all: seq<Resolved>, rs: seq<Resolved>): seq<Resolved> {
    if rs == [] then []
    else
      var n := |rs| - 1;
      Selected(patterns, all, rs[..n]) +
      if Chooses(patterns, all, FormatTarget(rs[n].cluster)) then [rs[n]] else []
  }

  // Those whose target is among these.
  function KeptBy(targets: seq<string>, rs: seq<Resolved>): seq<Resolved> {
    if rs == [] then []
    else
      var n := |rs| - 1;
      KeptBy(targets, rs[..n]) + if FormatTarget(rs[n].cluster) in targets then [rs[n]] else []
  }

  // What is kept stands at these ascending places, all those whose target is among these.
  ghost predicate KeptAt(targets: seq<string>, rs: seq<Resolved>, kept: seq<Resolved>, places: seq<nat>) {
    && Places(places, |rs|) && |kept| == |places|
    && (forall i :: 0 <= i < |places| ==> kept[i] == rs[places[i]])
    && (forall j :: 0 <= j < |rs| ==> (j in places <==> FormatTarget(rs[j].cluster) in targets))
  }

  lemma KeptOneMore(targets: seq<string>, rs: seq<Resolved>, kept: seq<Resolved>, places: seq<nat>, r: Resolved)
    requires KeptAt(targets, rs, kept, places) && FormatTarget(r.cluster) in targets
    ensures KeptAt(targets, rs + [r], kept + [r], places + [|rs|])
  {
    assert forall j: nat :: j in places + [|rs|] <==> j in places || j == |rs|;
  }

  lemma KeptNoneMore(targets: seq<string>, rs: seq<Resolved>, kept: seq<Resolved>, places: seq<nat>, r: Resolved)
    requires KeptAt(targets, rs, kept, places) && FormatTarget(r.cluster) !in targets
    ensures KeptAt(targets, rs + [r], kept, places)
  {
  }

  /** Order and multiplicity: what is kept are the clusters at ascending places, which are all the
      places whose target is among these. */
  lemma {:induction false} KeptInOrder(targets: seq<string>, rs: seq<Resolved>) returns (places: seq<nat>)
    ensures KeptAt(targets, rs, KeptBy(targets, rs), places)
  {
    if rs == [] {
      places := [];
    } else {
      var n := |rs| - 1;
      places := KeptInOrder(targets, rs[..n]);
      assert rs == rs[..n] + [rs[n]];
      if FormatTarget(rs[n].cluster) in targets {
        KeptOneMore(targets, rs[..n], KeptBy(targets, rs[..n]), places, rs[n]);
        places := places + [n];
      } else {
        KeptNoneMore(targets, rs[..n], KeptBy(targets, rs[..n]), places, rs[n]);
      }
    }
  }

  method KeepMatched(matched: seq<string>, resolved: seq<Resolved>) returns (kept: seq<Resolved>)
    ensures kept == KeptBy(matched, resolved)
  {
    var matchSet: set<string> := {};
    for i := 0 to |matched|
      invariant forall t :: t in matchSet <==> t in matched[..i]
    {
      assert matched[..i + 1] == matched[..i] + [matched[i]];
      matchSet := matchSet + {matched[i]};
    }
    assert matched[..|matched|] == matched;
    kept := [];
    for i := 0 to |resolved|
      invariant kept == KeptBy(matched, resolved[..i])
    {
      assert resolved[..i + 1][..i] == resolved[..i];
      if FormatTarget(resolved[i].cluster) in matchSet {
        kept := kept + [resolved[i]];
      }
    }
    assert resolved[..|resolved|] == resolved;
  }

  lemma KnownMembers(rs: seq<Resolved>, c: Cluster)
    ensures c in KnownOf(rs) <==> exists d :: d in rs && d.cluster == c
  {
    if c in KnownOf(rs) {
      var i :| 0 <= i < |rs| && KnownOf(rs)[i] == c;
      assert rs[i] in rs;
    }
    if d :| d in rs && d.cluster == c {
      var i :| 0 <= i < |rs| && rs[i] == d;
      assert KnownOf(rs)[i] == c;
    }
  }

  lemma ExactAnswersItself(p: string, c: Cluster)
    requires Exact(p)
    ensures FormatTarget(c) == p <==> PrefixOfFields(p, c)
  {
    ExactIsTarget(p);
    MatchesIsPathPrefix(p, c);
    MatchesIsFieldPrefix(p, c);
    JoinSplit(p, SLASH);
    if FormatTarget(c) == p {
      SplitJoinCount(Fields(c), SLASH);
      SplitJoin(Fields(c), SLASH);
    }
    if Split(p, SLASH) <= Fields(c) {
      assert Split(p, SLASH) == Fields(c);
    }
  }

  lemma AnswersIsPrefix(p: string, all: seq<Resolved>, x: Resolved)
    requires Accepted(p) && x in all
    ensures Answers(p, KnownOf(all), FormatTarget(x.cluster)) <==>
      exists d :: d in all && FormatTarget(d.cluster) == FormatTarget(x.cluster) && PrefixOfFields(p, d.cluster)
  {
    var t := FormatTarget(x.cluster);
    if Answers(p, KnownOf(all), t) {
      if Exact(p) {
        ExactAnswersItself(p, x.cluster);
      } else {
        var c :| c in KnownOf(all) && PatternOf(p).value.Matches(c) && FormatTarget(c) == t;
        KnownMembers(all, c);
        MatchesIsPathPrefix(p, c);
      }
    }
    if d :| d in all && FormatTarget(d.cluster) == t && PrefixOfFields(p, d.cluster) {
      KnownMembers(all, d.cluster);
      MatchesIsPathPrefix(p, d.cluster);
      if Exact(p) {
        ExactAnswersItself(p, d.cluster);
      }
    }
  }

  /** A discovered cluster's target is among what the patterns resolve to exactly if some
      pattern is a path prefix of the target of a discovered cluster with that target, and
      ends within its fields. */
  lemma ResolvedIffChosen(patterns: seq<string>, all: seq<Resolved>, x: Resolved)
    requires AllAccepted(patterns) && x in all
    ensures FormatTarget(x.cluster) in Dedup(AllMatches(patterns, KnownOf(all))) <==>
      Chooses(patterns, all, FormatTarget(x.cluster))
  {
    var t := FormatTarget(x.cluster);
    DedupMembers(AllMatches(patterns, KnownOf(all)));
    AllMatchesMembers(patterns, KnownOf(all), t);
    forall p | p in patterns
      ensures Answers(p, KnownOf(all), t) <==>
        exists d :: d in all && FormatTarget(d.cluster) == t && PrefixOfFields(p, d.cluster)
    {
      AnswersIsPrefix(p, all, x);
    }
  }

  /** For a slash-free cluster, whatever else is discovered: exactly if some pattern is a path
      prefix of its target. */
  lemma SlashFreeIsChosenByPrefix(patterns: seq<string>, all: seq<Resolved>, x: Resolved)
    requires AllAccepted(patterns) && x in all && SlashFree(x.cluster)
    ensures Chooses(patterns, all, FormatTarget(x.cluster)) <==> Selects(patterns, x.cluster)
  {
    SlashFreeFields(x.cluster);
    if p :| p in patterns && PathPrefix(p, FormatTarget(x.cluster), SLASH) {
      assert PrefixOfFields(p, x.cluster);
    }
  }

  lemma {:induction false} KeptIsSelected(patterns: seq<string>, all: seq<Resolved>, targets: seq<string>,
                                          rs: seq<Resolved>)
    requires AllAccepted(patterns) && targets == Dedup(AllMatches(patterns, KnownOf(all)))
    requires forall y :: y in rs ==> y in all
    ensures KeptBy(targets, rs) == Selected(patterns, all, rs)
  {
    if rs == [] {
    } else {
      var n := |rs| - 1;
      KeptIsSelected(patterns, all, targets, rs[..n]);
      assert rs[n] in all;
      ResolvedIffChosen(patterns, all, rs[n]);
    }
  }

  /** Of the slash-free clusters a filter keeps those some pattern is a path prefix of, in order
      and with multiplicity, whatever clusters with slashes are discovered beside them. */
  lemma {:induction false} SlashFreeSelected(patterns: seq<string>, all: seq<Resolved>, rs: seq<Resolved>)
    requires AllAccepted(patterns) && forall y :: y in rs ==> y in all
    ensures SlashFreeOnly(Selected(patterns, all, rs)) == PrefixSelected(patterns, SlashFreeOnly(rs))
  {
    if rs == [] {
    } else {
      var n := |rs| - 1;
      SlashFreeSelected(patterns, all, rs[..n]);
      var kept, free := Selected(patterns, all, rs[..n]), SlashFreeOnly(rs[..n]);
      assert rs[n] in all && (kept + [rs[n]])[..|kept|] == kept && (free + [rs[n]])[..|free|] == free;
      if SlashFree(rs[n].cluster) {
        SlashFreeIsChosenByPrefix(patterns, all, rs[n]);
        assert SlashFreeOnly(rs) == free + [rs[n]];
        if Selects(patterns, rs[n].cluster) {
          assert Selected(patterns, all, rs) == kept + [rs[n]];
        } else {
          assert Selected(patterns, all, rs) == kept;
        }
      } else {
        assert SlashFreeOnly(rs) == free;
        assert Selected(patterns, all, rs) == kept || Selected(patterns, all, rs) == kept + [rs[n]];
      }
    }
  }

  method ListClusters(resolved: seq<Resolved>, patterns: seq<string>) returns (r: Result<seq<Resolved>>)
    ensures patterns == [] ==> r == Ok(resolved)
    ensures patterns != [] ==>
      r == if AllAccepted(patterns)
           then Ok(KeptBy(Dedup(AllMatches(patterns, KnownOf(resolved))), resolved)) else Err
    ensures patterns != [] && AllAccepted(patterns) ==> r == Ok(Selected(patterns, resolved, resolved))
    ensures patterns != [] && r.Ok? ==>
      SlashFreeOnly(r.value) == PrefixSelected(patterns, SlashFreeOnly(resolved))
  {
    if |patterns| == 0 {
      return Ok(resolved);
    }
    var known: seq<Cluster> := [];
    for i := 0 to |resolved|
      invariant known == KnownOf(resolved)[..i]
    {
      known := known + [resolved[i].cluster];
    }
    assert known == KnownOf(resolved);
    var matched, _ := ResolveClusterPatterns(patterns, Ok(known), false);
    if AllAccepted(patterns) {
      LenientDedups(patterns, known);
    }
    if matched.Err? {
      return Err;
    }
    var kept := KeepMatched(matched.value, resolved);
    KeptIsSelected(patterns, resolved, matched.value, resolved);
    SlashFreeSelected(patterns, resolved, resolved);
    return Ok(kept);
  }

  // ---------------------------------------------------------------- exec_in_cluster(s)

  // What one target's command ended with: an error, or an exit code.
  datatype ExecOutcome = ExecFailed(message: string) | Exited(code: int)
  datatype ToolReply<R> = Refused | ErrorText | Results(targets: seq<string>, results: seq<R>, isError: bool)

  ghost predicate RunInSlot(run: (nat, string) -> ExecOutcome, targets: seq<string>, order: seq<nat>,
                            results: seq<ExecOutcome>, i: nat)
    requires i < |results| == |targets| == |order|
  {
    exists k :: 0 <= k < |order| && order[k] == i && results[i] == run(k, targets[i])
  }

  // Every target's own outcome is in its slot.
  ghost predicate EachRun(run: (nat, string) -> ExecOutcome, targets: seq<string>, order: seq<nat>,
                          results: seq<ExecOutcome>)
  {
    && |results| == |targets| == |order|
    && forall i :: 0 <= i < |targets| ==> RunInSlot(run, targets, order, results, i)
  }

  // One goroutine per target; ran logs the targets in the order of completion.
  method RunEach(run: (nat, string) -> ExecOutcome, targets: seq<string>, order: seq<nat>)
    returns (results: seq<ExecOutcome>, ran: seq<string>)
    requires Schedule(order, |targets|)
    ensures EachRun(run, targets, order, results)
    ensures |ran| == |targets| && forall k :: 0 <= k < |ran| ==> ran[k] == targets[order[k]]
    ensures forall k :: 0 <= k < |order| ==> results[order[k]] == run(k, targets[order[k]])
  {
    var n := |targets|;
    var slots := new ExecOutcome[n](i => Exited(0));
    ran := [];
    for k := 0 to n
      invariant |ran| == k && forall j :: 0 <= j < k ==> ran[j] == targets[order[j]]
      invariant forall j :: 0 <= j < k ==> slots[order[j]] == run(j, targets[order[j]])
    {
      slots[order[k]] := run(k, targets[order[k]]);
      ran := ran + [targets[order[k]]];
    }
    results := slots[..];
    forall i | 0 <= i < n ensures RunInSlot(run, targets, order, results, i) {
      ScheduleCovers(order, n, i);
      var k :| 0 <= k < |order| && order[k] == i;
      assert results[order[k]] == run(k, targets[order[k]]);
    }
  }

  lemma EachOnce(targets: seq<string>, order: seq<nat>, ran: seq<string>)
    requires Schedule(order, |targets|) && Distinct(targets) && |ran| == |targets|
    requires forall k :: 0 <= k < |ran| ==> ran[k] == targets[order[k]]
    ensures Distinct(ran) && forall t :: t in ran <==> t in targets
  {
    forall t | t in targets ensures t in ran {
      var i :| 0 <= i < |targets| && targets[i] == t;
      ScheduleCovers(order, |targets|, i);
      var k :| 0 <= k < |order| && order[k] == i;
      assert ran[k] == t;
    }
  }

  // Some target's command failed, or exited with another code than 0.
  ghost predicate SomeFailed(run: (nat, string) -> ExecOutcome, targets: seq<string>, order: seq<nat>)
    requires Schedule(order, |targets|)
  {
    exists k :: 0 <= k < |order| && run(k, targets[order[k]]) != Exited(0)
  }

  lemma FlagIsSomeFailed(run: (nat, string) -> ExecOutcome, targets: seq<string>, order: seq<nat>,
                         results: seq<ExecOutcome>)
    requires Schedule(order, |targets|) && EachRun(run, targets, order, results)
    requires forall k :: 0 <= k < |order| ==> results[order[k]] == run(k, targets[order[k]])
    ensures (exists x :: x in results && x != Exited(0)) <==> SomeFailed(run, targets, order)
  {
    if x :| x in results && x != Exited(0) {
      var i :| 0 <= i < |results| && results[i] == x;
      assert RunInSlot(run, targets, order, results, i);
    }
    if k :| 0 <= k < |order| && run(k, targets[order[k]]) != Exited(0) {
      assert results[order[k]] in results;
    }
  }

  method ExecInClusterFanOut(command: seq<string>, clusters: seq<string>, orders: nat -> seq<nat>,
                             run: (nat, string) -> ExecOutcome)
    returns (r: ToolReply<ExecOutcome>, ran: seq<string>)
    requires forall n :: Schedule(orders(n), n)
    ensures r.Refused? <==> command == []
    ensures r.ErrorText? <==> command != [] && (clusters == [] || exists t :: t in clusters && |Split(t, SLASH)| != 4)
    ensures !r.Results? ==> ran == []
    ensures r.Results? ==>
      && FirstSeen(clusters, r.targets) && Distinct(r.targets)
      && EachRun(run, r.targets, orders(|r.targets|), r.results)
      && (r.isError <==> SomeFailed(run, r.targets, orders(|r.targets|)))
      && Distinct(ran) && forall t :: t in ran <==> t in clusters
  {
    ran := [];
    if |command| == 0 {
      return Refused, ran;
    }
    if |clusters| == 0 {
      return ErrorText, ran;
    }
    var res, _ := ResolveClusterPatterns(clusters, Err, true);
    if res.Err? {
      return ErrorText, ran;
    }
    DedupIsFirstSeen(clusters);
    DedupMembers(clusters);
    var targets := res.value;
    var results;
    results, ran := RunEach(run, targets, orders(|targets|));
    EachOnce(targets, orders(|targets|), ran);
    var isError := false;
    for i := 0 to |results|
      invariant isError <==> exists x :: x in results[..i] && x != Exited(0)
    {
      assert results[..i + 1] == results[..i] + [results[i]];
      if results[i].ExecFailed? || results[i].code != 0 {
        isError := true;
        assert results[i] in results;
        break;
      }
    }
    assert !isError ==> results[..|results|] == results;
    FlagIsSomeFailed(run, targets, orders(|targets|), results);
    return Results(targets, results, isError), ran;
  }

  // ---------------------------------------------------------------- get_cluster_kubeconfig

  datatype KubeconfigResult = KubeconfigResult(cluster: string, kubeconfig: string, error: string)

  // resolve is ResolveTarget, mint readOnlyKubeconfig; Err's message is what err.Error() says.
  datatype Fetched = Got(kubeconfig: string) | Failed(message: string)

  // Why a target has no kubeconfig, if it has none.
  function FailureOf(readonly: bool, admin: Fetched, minted: Fetched): Option<string> {
    if admin.Failed? then Some(admin.message)
    else if readonly && minted.Failed? then Some(minted.message)
    else None
  }

  // A read-only request never hands out the admin kubeconfig.
  function KubeconfigSlot(target: string, readonly: bool, admin: Fetched, minted: Fetched): (r: KubeconfigResult)
    ensures r.cluster == target
    ensures FailureOf(readonly, admin, minted) == None ==>
      Got(r.kubeconfig) == (if readonly then minted else admin) && r.error == ""
    ensures FailureOf(readonly, admin, minted) != None ==>
      r.kubeconfig == "" && Some(r.error) == FailureOf(readonly, admin, minted)
  {
    match admin
    case Failed(m) => KubeconfigResult(target, "", m)
    case Got(kc) =>
      if !readonly then KubeconfigResult(target, kc, "")
      else match minted
        case Failed(m) => KubeconfigResult(target, "", m)
        case Got(ro) => KubeconfigResult(target, ro, "")
  }

  function FetchSlot(resolve: (nat, string) -> Fetched, mint: (nat, string) -> Fetched, readonly: bool,
                     targets: seq<string>, k: nat, i: nat): KubeconfigResult {
    if i < |targets| then KubeconfigSlot(targets[i], readonly, resolve(k, targets[i]), mint(k, targets[i]))
    else KubeconfigResult("", "", "")
  }

  // Target i's own outcome is in its slot.
  ghost predicate FetchedInSlot(resolve: (nat, string) -> Fetched, mint: (nat, string) -> Fetched, readonly: bool,
                                targets: seq<string>, order: seq<nat>, results: seq<KubeconfigResult>, i: nat)
    requires i < |results| == |targets| == |order|
  {
    exists k :: 0 <= k < |order| && order[k] == i &&
      results[i] == KubeconfigSlot(targets[i], readonly, resolve(k, targets[i]), mint(k, targets[i]))
  }

  ghost predicate EachFetched(resolve: (nat, string) -> Fetched, mint: (nat, string) -> Fetched, readonly: bool,
                              targets: seq<string>, order: seq<nat>, results: seq<KubeconfigResult>)
  {
    && |results| == |targets| == |order|
    && forall i :: 0 <= i < |targets| ==> FetchedInSlot(resolve, mint, readonly, targets, order, results, i)
  }

  lemma SlotsFetched(resolve: (nat, string) -> Fetched, mint: (nat, string) -> Fetched, readonly: bool,
                     targets: seq<string>, order: seq<nat>, results: seq<KubeconfigResult>)
    requires Schedule(order, |targets|)
    requires Filled(order, (k, i) => FetchSlot(resolve, mint, readonly, targets, k, i), results)
    ensures EachFetched(resolve, mint, readonly, targets, order, results)
  {
    forall i | 0 <= i < |targets| ensures FetchedInSlot(resolve, mint, readonly, targets, order, results, i) {
      ScheduleCovers(order, |targets|, i);
      var k :| 0 <= k < |order| && order[k] == i;
      assert results[order[k]] == FetchSlot(resolve, mint, readonly, targets, k, i);
    }
  }

  method GetClusterKubeconfigFanOut(clusters: seq<string>, listing: Result<seq<Cluster>>, readonly: bool,
                                    orders: nat -> seq<nat>,
                                    resolve: (nat, string) -> Fetched, mint: (nat, string) -> Fetched)
    returns (r: ToolReply<KubeconfigResult>)
    requires forall n :: Schedule(orders(n), n)
    ensures r.Results? <==> Resolution(clusters, listing, false).0.Ok?
    ensures !r.Results? ==> r.ErrorText?
    ensures r.Results? ==>
      && Resolution(clusters, listing, false).0 == Ok(r.targets)
      && Filled(orders(|r.targets|), (k, i) => FetchSlot(resolve, mint, readonly, r.targets, k, i), r.results)
      && EachFetched(resolve, mint, readonly, r.targets, orders(|r.targets|), r.results)
      && (r.isError <==> exists x :: x in r.results && x.error != "")
  {
    var res, _ := ResolveClusterPatterns(clusters, listing, false);
    if res.Err? {
      return ErrorText;
    }
    var targets := res.value;
    var results := FillSlots(|targets|, orders(|targets|),
      (k, i) => FetchSlot(resolve, mint, readonly, targets, k, i));
    SlotsFetched(resolve, mint, readonly, targets, orders(|targets|), results);
    var isError := false;
    for i := 0 to |results|
      invariant isError <==> exists x :: x in results[..i] && x.error != ""
    {
      assert results[..i + 1] == results[..i] + [results[i]];
      if results[i].error != "" {
        isError := true;
        assert results[i] in results;
        break;
      }
    }
    assert !isError ==> results[..|results|] == results;
    return Results(targets, results, isError);
  }

  predicate FailsAloud(resolve: (nat, string) -> Fetched, mint: (nat, string) -> Fetched, readonly: bool,
                       target: string, k: nat) {
    var failure := FailureOf(readonly, resolve(k, target), mint(k, target));
    failure.Some? && failure.value != ""
  }

  /** The error flag of get_cluster_kubeconfig is set exactly if some target failed other than
      with an empty message. */
  lemma KubeconfigFlag(resolve: (nat, string) -> Fetched, mint: (nat, string) -> Fetched, readonly: bool,
                       targets: seq<string>, order: seq<nat>, results: seq<KubeconfigResult>)
    requires Schedule(order, |targets|)
    requires Filled(order, (k, i) => FetchSlot(resolve, mint, readonly, targets, k, i), results)
    ensures (exists x :: x in results && x.error != "") <==>
      exists k :: 0 <= k < |order| && FailsAloud(resolve, mint, readonly, targets[order[k]], k)
  {
    if x :| x in results && x.error != "" {
      var i :| 0 <= i < |results| && results[i] == x;
      ScheduleCovers(order, |targets|, i);
      var k :| 0 <= k < |order| && order[k] == i;
      assert results[order[k]] == FetchSlot(resolve, mint, readonly, targets, k, order[k]);
      assert FailsAloud(resolve, mint, readonly, targets[order[k]], k);
    }
    if k :| 0 <= k < |order| && FailsAloud(resolve, mint, readonly, targets[order[k]], k) {
      assert results[order[k]] == FetchSlot(resolve, mint, readonly, targets, k, order[k]);
      assert results[order[k]] in results;
    }
  }
}
