/**
 Fanning one call out over many clusters: internal/embed/fanout.go and the fan-outs of
 internal/server/tools.go.  The goroutines' completion order is a parameter, and so is
 what the k-th of them to run obtains, so handlers may keep state.
 */
module FanOut {
  import opened Basics
  import opened Text
  import opened Targets
  import opened Resolve

  // ---------------------------------------------------------------- slots

  // An order in which n goroutines complete: each of 0..n-1 once.
  ghost predicate Schedule(order: seq<nat>, n: nat) {
    |order| == n && Distinct(order) && forall k :: 0 <= k < n ==> order[k] < n
  }

  // Every goroutine has written its own slot with what it obtained.
  ghost predicate Filled<R>(order: seq<nat>, outcome: (nat, nat) -> R, results: seq<R>) {
    |results| == |order| &&
    forall k :: 0 <= k < |order| ==> order[k] < |results| && results[order[k]] == outcome(k, order[k])
  }

  // results[i] = ... in the goroutine of i; outcome(k, i) is what it gets as the k-th.
  method FillSlots<R(0)>(n: nat, order: seq<nat>, outcome: (nat, nat) -> R) returns (results: seq<R>)
    requires Schedule(order, n)
    ensures Filled(order, outcome, results)
  {
    var slots := new R[n];
    for k := 0 to n
      invariant forall j :: 0 <= j < k ==> slots[order[j]] == outcome(j, order[j])
    {
      slots[order[k]] := outcome(k, order[k]);
    }
    results := slots[..];
  }

  lemma {:induction false} BoundedSetSize(s: set<nat>, n: nat)
    requires forall i :: i in s ==> i < n
    ensures |s| <= n
  {
    if n == 0 {
    } else {
      BoundedSetSize(s - {n - 1}, n - 1);
    }
  }

  function Members(order: seq<nat>): set<nat> {
    set x | x in order
  }

  lemma {:induction false} DistinctSize(order: seq<nat>)
    requires Distinct(order)
    ensures |Members(order)| == |order|
  {
    if order == [] {
    } else {
      var n := |order| - 1;
      DistinctSize(order[..n]);
      assert order == order[..n] + [order[n]];
      assert order[n] !in order[..n];
      assert Members(order) == Members(order[..n]) + {order[n]};
    }
  }

  /** A schedule runs every goroutine. */
  lemma ScheduleCovers(order: seq<nat>, n: nat, i: nat)
    requires Schedule(order, n) && i < n
    ensures i in order
  {
    DistinctSize(order);
    var all := Members(order) + {i};
    assert i !in order ==> |all| == n + 1;
    BoundedSetSize(all, n);
  }

  /** Whatever order the goroutines complete in, if what a goroutine obtains does not depend
      on it, slot i holds the result of target i. */
  lemma FilledIsScheduleIndependent<R>(order: seq<nat>, outcome: (nat, nat) -> R, results: seq<R>,
                                       result: nat -> R)
    requires Schedule(order, |order|) && Filled(order, outcome, results)
    requires forall k, i :: outcome(k, i) == result(i)
    ensures |results| == |order| && forall i :: 0 <= i < |results| ==> results[i] == result(i)
  {
    forall i | 0 <= i < |results| ensures results[i] == result(i) {
      ScheduleCovers(order, |order|, i);
      var k :| 0 <= k < |order| && order[k] == i;
      assert results[order[k]] == outcome(k, order[k]);
    }
  }

  // ---------------------------------------------------------------- embedded tools

  datatype Json = Null | Text(text: string) | List(items: seq<Json>) | Other(raw: string)
  type Args = map<string, Json>

  const CLUSTERS := "clusters"
  const CLUSTER := "cluster"

  // What the wrapped handler does: return an error, or a result.
  datatype Reply = Failed(message: string) | Replied(text: string, isError: bool)
  datatype PerCluster = PerCluster(cluster: string, text: string, isError: bool, error: string)

  function SynthArgs(orig: Args, target: string): Args {
    (orig - {CLUSTERS})[CLUSTER := Text(target)]
  }

  function Entry(target: string, reply: Reply): PerCluster {
    match reply
    case Failed(message) => PerCluster(target, "", false, message)
    case Replied(text, isError) => PerCluster(target, text, isError, "")
  }

  method CallOneTarget(handler: (nat, Args) -> Reply, k: nat, orig: Args, target: string)
    returns (r: PerCluster, sent: Args)
    ensures sent == SynthArgs(orig, target) && r == Entry(target, handler(k, sent))
    ensures match handler(k, sent)
      case Failed(message) => r == PerCluster(target, "", false, message)
      case Replied(text, isError) => r == PerCluster(target, text, isError, "")
  {
    sent := map key | key in orig :: orig[key];
    sent := sent - {CLUSTERS};
    sent := sent[CLUSTER := Text(target)];
    var reply := handler(k, sent);
    if reply.Failed? {
      return PerCluster(target, "", false, reply.message), sent;
    }
    return PerCluster(target, reply.text, reply.isError, ""), sent;
  }

  predicate Flagged(r: PerCluster) {
    r.error != "" || r.isError
  }

  function ReplyTo(handler: (nat, Args) -> Reply, orig: Args, targets: seq<string>, k: nat, i: nat): PerCluster {
    if i < |targets| then Entry(targets[i], handler(k, SynthArgs(orig, targets[i])))
    else PerCluster("", "", false, "")
  }

  // The slot says which cluster it is for, and what the handler returned: an error, or the text
  // and flag of its result.
  predicate Reports(r: PerCluster, target: string, reply: Reply) {
    && r.cluster == target
    && (reply.Failed? ==> r.error == reply.message && r.text == "" && !r.isError)
    && (reply.Replied? ==> r.error == "" && r.text == reply.text && r.isError == reply.isError)
  }

  // Slot i reports what the call for target i got, whenever that was made.
  ghost predicate SlotReported(handler: (nat, Args) -> Reply, targets: seq<string>, order: seq<nat>,
                               calls: seq<Args>, results: seq<PerCluster>, i: nat)
    requires i < |results| == |targets| == |calls| == |order|
  {
    exists k :: 0 <= k < |order| && order[k] == i && Reports(results[i], targets[i], handler(k, calls[k]))
  }

  ghost predicate EachReported(handler: (nat, Args) -> Reply, targets: seq<string>, order: seq<nat>,
                               calls: seq<Args>, results: seq<PerCluster>)
  {
    && |results| == |targets| == |calls| == |order|
    && forall i :: 0 <= i < |targets| ==> SlotReported(handler, targets, order, calls, results, i)
  }

  lemma SlotsReport(handler: (nat, Args) -> Reply, orig: Args, targets: seq<string>, order: seq<nat>,
                    calls: seq<Args>, results: seq<PerCluster>)
    requires Schedule(order, |targets|) && |calls| == |targets|
    requires Filled(order, (k, i) => ReplyTo(handler, orig, targets, k, i), results)
    requires forall k :: 0 <= k < |calls| ==> calls[k] == SynthArgs(orig, targets[order[k]])
    ensures EachReported(handler, targets, order, calls, results)
  {
    forall i | 0 <= i < |targets| ensures SlotReported(handler, targets, order, calls, results, i) {
      ScheduleCovers(order, |targets|, i);
      var k :| 0 <= k < |order| && order[k] == i;
      assert results[order[k]] == ReplyTo(handler, orig, targets, k, order[k]);
      assert Reports(results[i], targets[i], handler(k, calls[k]));
    }
  }

  method RunFanOut(handler: (nat, Args) -> Reply, orig: Args, targets: seq<string>, order: seq<nat>)
    returns (results: seq<PerCluster>, isError: bool, calls: seq<Args>)
    requires Schedule(order, |targets|)
    ensures Filled(order, (k, i) => ReplyTo(handler, orig, targets, k, i), results)
    ensures isError <==> exists r :: r in results && Flagged(r)
    ensures |calls| == |targets|
    ensures forall k :: 0 <= k < |calls| ==> calls[k] == SynthArgs(orig, targets[order[k]])
    ensures EachReported(handler, targets, order, calls, results)
  {
    var n := |targets|;
    var slots := new PerCluster[n](i => PerCluster("", "", false, ""));
    calls := [];
    for k := 0 to n
      invariant |calls| == k
      invariant forall j :: 0 <= j < k ==> calls[j] == SynthArgs(orig, targets[order[j]])
      invariant forall j :: 0 <= j < k ==> slots[order[j]] == ReplyTo(handler, orig, targets, j, order[j])
    {
      var r, sent := CallOneTarget(handler, k, orig, targets[order[k]]);
      slots[order[k]] := r;
      calls := calls + [sent];
    }
    results := slots[..];
    isError := false;
    for i := 0 to n
      invariant isError <==> exists r :: r in results[..i] && Flagged(r)
    {
      assert results[..i + 1] == results[..i] + [results[i]];
      if Flagged(results[i]) {
        isError := true;
        assert results[i] in results;
        break;
      }
    }
    assert !isError ==> results[..n] == results;
    SlotsReport(handler, orig, targets, order, calls, results);
  }

  // The reply the k-th handler call got.
  function ReplyOf(handler: (nat, Args) -> Reply, orig: Args, targets: seq<string>, order: seq<nat>, k: nat): Reply
    requires k < |order| && order[k] < |targets|
  {
    handler(k, SynthArgs(orig, targets[order[k]]))
  }

  predicate IsFailure(r: Reply) {
    r.Failed? || r.isError
  }

  /** The error flag is set exactly if some handler call failed other than with an empty
      message: of all failures only Failed("") goes unnoticed. */
  lemma FlagIsDisjunctionOfFailures(handler: (nat, Args) -> Reply, orig: Args, targets: seq<string>,
                                    order: seq<nat>, results: seq<PerCluster>)
    requires Schedule(order, |targets|)
    requires Filled(order, (k, i) => ReplyTo(handler, orig, targets, k, i), results)
    ensures (exists r :: r in results && Flagged(r)) <==>
      exists k :: 0 <= k < |order| && IsFailure(ReplyOf(handler, orig, targets, order, k))
                  && ReplyOf(handler, orig, targets, order, k) != Failed("")
  {
    if r :| r in results && Flagged(r) {
      var i :| 0 <= i < |results| && results[i] == r;
      ScheduleCovers(order, |targets|, i);
      var k :| 0 <= k < |order| && order[k] == i;
      assert results[order[k]] == ReplyTo(handler, orig, targets, k, order[k]);
      assert IsFailure(ReplyOf(handler, orig, targets, order, k));
    }
    if k :| 0 <= k < |order| && IsFailure(ReplyOf(handler, orig, targets, order, k))
            && ReplyOf(handler, orig, targets, order, k) != Failed("") {
      assert results[order[k]] == ReplyTo(handler, orig, targets, k, order[k]);
      assert Flagged(results[order[k]]) && results[order[k]] in results;
    }
  }

  /** A synthesized request differs from the original in the target alone. */
  lemma SynthArgsShareTheRest(orig: Args, target: string, key: string)
    ensures SynthArgs(orig, target)[CLUSTER] == Text(target) && CLUSTERS !in SynthArgs(orig, target)
    ensures key != CLUSTER && key != CLUSTERS ==>
      (key in SynthArgs(orig, target) <==> key in orig) &&
      (key in orig ==> SynthArgs(orig, target)[key] == orig[key])
  {
  }

  // ---------------------------------------------------------------- the decision

  // json.Unmarshal into []string: null leaves the slice empty, and a null element empty.
  function DecodeStrings(j: Json): Option<seq<string>> {
    match j
    case Null => Some([])
    case List(items) =>
      if forall x | x in items :: x.Text? || x.Null?
      then Some(seq(|items|, i requires 0 <= i < |items| => if items[i].Text? then items[i].text else ""))
      else None
    case _ => None
  }

  // The value is a list of strings, or of nulls for empty ones, or is null for the empty list.
  predicate IsStrings(j: Json, strings: seq<string>) {
    || (j == Null && strings == [])
    || (j.List? && |j.items| == |strings| &&
        forall i :: 0 <= i < |strings| ==> j.items[i] == Text(strings[i]) || (j.items[i] == Null && strings[i] == ""))
  }

  /** Decoding yields the entries' texts in order, and fails exactly if the value is no such list. */
  lemma DecodesIff(j: Json, strings: seq<string>)
    ensures DecodeStrings(j) == Some(strings) <==> IsStrings(j, strings)
  {
    if j.List? {
      assert forall i :: 0 <= i < |j.items| ==> j.items[i] in j.items;
      if IsStrings(j, strings) {
        forall x | x in j.items ensures x.Text? || x.Null? {
          var i :| 0 <= i < |j.items| && j.items[i] == x;
        }
        assert DecodeStrings(j).value == strings;
      }
    }
  }

  // Refuse with a protocol error or an error result, or run on these targets.
  datatype Decision = ProtocolError | ErrorResult | RunOn(targets: seq<string>)

  // listKnownClusters: the targets that parse.
  function KnownFromTargets(targets: seq<string>): seq<Cluster> {
    if targets == [] then []
    else
      var n := |targets| - 1;
      KnownFromTargets(targets[..n]) +
      if ParseTarget(targets[n]).Some? then [ParseTarget(targets[n]).value] else []
  }

  // What the wrapped handler decides, and how often it lists; args is None if malformed.
  function Decide(readOnly: bool, args: Option<Args>, listing: Result<seq<string>>): (Decision, nat) {
    if args.None? then (ProtocolError, 0)
    else if CLUSTERS !in args.value then
      if !readOnly then (ErrorResult, 0)
      else (if listing.Err? then ProtocolError else RunOn(listing.value), 1)
    else
      match DecodeStrings(args.value[CLUSTERS])
      case None => (ErrorResult, 0)
      case Some(patterns) =>
        if patterns == [] then (RunOn([]), 0)
        else if "" in patterns then (ErrorResult, 0)
        else
          var known := if listing.Err? then Err else Ok(KnownFromTargets(listing.value));
          var (res, calls) := Resolution(patterns, known, !readOnly);
          (if res.Err? then ErrorResult else RunOn(res.value), calls)
  }

  // What is known stands at these ascending places, all those where a target parses.
  ghost predicate KnownAt(targets: seq<string>, known: seq<Cluster>, places: seq<nat>) {
    && Places(places, |targets|) && |known| == |places|
    && (forall i :: 0 <= i < |places| ==> ParseTarget(targets[places[i]]) == Some(known[i]))
    && (forall j :: 0 <= j < |targets| ==> (j in places <==> |Split(targets[j], SLASH)| == 4))
  }

  lemma KnownOneMore(targets: seq<string>, known: seq<Cluster>, places: seq<nat>, t: string, c: Cluster)
    requires KnownAt(targets, known, places) && ParseTarget(t) == Some(c)
    ensures KnownAt(targets + [t], known + [c], places + [|targets|])
  {
    assert forall j: nat :: j in places + [|targets|] <==> j in places || j == |targets|;
  }

  lemma KnownNoneMore(targets: seq<string>, known: seq<Cluster>, places: seq<nat>, t: string)
    requires KnownAt(targets, known, places) && ParseTarget(t).None?
    ensures KnownAt(targets + [t], known, places)
  {
  }

  /** Order and multiplicity: what is known are the targets at ascending places, which are all the
      places where a target has four segments. */
  lemma {:induction false} KnownInOrder(targets: seq<string>) returns (places: seq<nat>)
    ensures KnownAt(targets, KnownFromTargets(targets), places)
  {
    if targets == [] {
      places := [];
    } else {
      var n := |targets| - 1;
      places := KnownInOrder(targets[..n]);
      assert targets == targets[..n] + [targets[n]];
      if ParseTarget(targets[n]).Some? {
        KnownOneMore(targets[..n], KnownFromTargets(targets[..n]), places, targets[n], ParseTarget(targets[n]).value);
        places := places + [n];
      } else {
        KnownNoneMore(targets[..n], KnownFromTargets(targets[..n]), places, targets[n]);
      }
    }
  }

  method ListKnownClusters(listed: Result<seq<string>>) returns (r: Result<seq<Cluster>>)
    ensures r == if listed.Err? then Err else Ok(KnownFromTargets(listed.value))
  {
    if listed.Err? {
      return Err;
    }
    var targets := listed.value;
    var known: seq<Cluster> := [];
    for i := 0 to |targets|
      invariant known == KnownFromTargets(targets[..i])
    {
      assert targets[..i + 1][..i] == targets[..i];
      var parsed := ParseTarget(targets[i]);
      if parsed.None? {
        continue;
      }
      known := known + [parsed.value];
    }
    assert targets[..|targets|] == targets;
    return Ok(known);
  }

  // The wrapped handler: decide, then fan out.  orders gives a schedule for every size.
  method Wrapped(handler: (nat, Args) -> Reply, readOnly: bool, args: Option<Args>,
                 listing: Result<seq<string>>, orders: nat -> seq<nat>)
    returns (decision: Decision, lists: nat, results: seq<PerCluster>, isError: bool, calls: seq<Args>)
    requires forall n :: Schedule(orders(n), n)
    ensures (decision, lists) == Decide(readOnly, args, listing)
    ensures args.Some? && CLUSTERS !in args.value && readOnly ==>
      && lists == 1
      && (decision.ProtocolError? <==> listing.Err?) && (listing.Ok? ==> decision == RunOn(listing.value))
    ensures args.Some? && CLUSTERS !in args.value && !readOnly ==> decision == ErrorResult && lists == 0
    ensures args.None? ==> decision == ProtocolError && lists == 0
    ensures decision.RunOn? ==> EachReported(handler, decision.targets, orders(|decision.targets|), calls, results)
    ensures match decision
      case RunOn(targets) =>
        && args.Some? && |calls| == |targets| && Schedule(orders(|targets|), |targets|)
        && Filled(orders(|targets|), (k, i) => ReplyTo(handler, args.value, targets, k, i), results)
        && (isError <==> exists r :: r in results && Flagged(r))
        && forall k :: 0 <= k < |calls| ==> calls[k] == SynthArgs(args.value, targets[orders(|targets|)[k]])
      case _ => calls == [] && results == [] && isError == (decision == ErrorResult)
  {
    lists, results, isError, calls := 0, [], false, [];
    if args.None? {
      return ProtocolError, lists, results, isError, calls;
    }
    var targets: seq<string>;
    if CLUSTERS !in args.value {
      if !readOnly {
        return ErrorResult, lists, results, true, calls;
      }
      lists := 1;
      if listing.Err? {
        return ProtocolError, lists, results, isError, calls;
      }
      targets := listing.value;
    } else {
      var patterns := DecodeStrings(args.value[CLUSTERS]);
      if patterns.None? {
        return ErrorResult, lists, results, true, calls;
      }
      if patterns.value == [] {
        targets := [];
      } else if "" in patterns.value {
        return ErrorResult, lists, results, true, calls;
      } else {
        var known := ListKnownClusters(listing);
        var resolved;
        resolved, lists := ResolveClusterPatterns(patterns.value, known, !readOnly);
        if resolved.Err? {
          return ErrorResult, lists, results, true, calls;
        }
        targets := resolved.value;
      }
    }
    results, isError, calls := RunFanOut(handler, args.value, targets, orders(|targets|));
    return RunOn(targets), lists, results, isError, calls;
  }

  predicate AllFull(strings: seq<string>) {
    forall p | p in strings :: |Split(p, SLASH)| == 4
  }

  /** Given clusters, the wrapped handler runs exactly if they decode, to strings that are all full
      paths, or, for a read-only tool, well-formed patterns, a listing being had if one is
      partial; everything else is an error result.  It lists exactly if a pattern of a read-only
      tool is partial. */
  lemma RunsIff(readOnly: bool, args: Args, listing: Result<seq<string>>)
    requires CLUSTERS in args
    ensures var (decision, lists) := Decide(readOnly, Some(args), listing);
      && (decision.RunOn? || decision.ErrorResult?)
      && lists <= 1 && (lists == 1 <==> readOnly && exists strings ::
           IsStrings(args[CLUSTERS], strings) && AllAccepted(strings) && !AllExact(strings))
      && (decision.RunOn? <==> exists strings ::
           && IsStrings(args[CLUSTERS], strings)
           && if readOnly then AllAccepted(strings) && (AllExact(strings) || listing.Ok?) else AllFull(strings))
  {
    var decoded := DecodeStrings(args[CLUSTERS]);
    if decoded.Some? {
      DecodesIff(args[CLUSTERS], decoded.value);
      assert Split("", SLASH) == [""];
    }
    forall strings | IsStrings(args[CLUSTERS], strings) ensures decoded == Some(strings) {
      DecodesIff(args[CLUSTERS], strings);
    }
  }

  /** A tool that is not read-only never lists, and runs, if at all, on exactly the distinct
      strings of the request, in request order, each of them a full four-segment path. */
  lemma NonReadOnlyStaysInRequest(args: Option<Args>, listing: Result<seq<string>>)
    ensures var (decision, lists) := Decide(false, args, listing);
      && lists == 0
      && (decision.RunOn? ==>
           && args.Some? && CLUSTERS in args.value && DecodeStrings(args.value[CLUSTERS]).Some?
           && var patterns := DecodeStrings(args.value[CLUSTERS]).value;
              && FirstSeen(patterns, decision.targets) && Distinct(decision.targets)
              && forall t :: t in decision.targets ==> ParseTarget(t).Some?)
  {
    var decision := Decide(false, args, listing).0;
    if decision.RunOn? {
      var patterns := DecodeStrings(args.value[CLUSTERS]).value;
      DedupIsFirstSeen(patterns);
      DedupMembers(patterns);
      assert Dedup([]) == [];
    }
  }

  /** ... and calls the handler exactly once for each of them, in whatever order. */
  lemma CallsAreTheTargets(orig: Args, targets: seq<string>, order: seq<nat>, calls: seq<Args>)
    requires Schedule(order, |targets|) && Distinct(targets) && |calls| == |targets|
    requires forall k :: 0 <= k < |calls| ==> calls[k] == SynthArgs(orig, targets[order[k]])
    ensures Distinct(calls)
    ensures forall a :: a in calls <==> exists t :: t in targets && a == SynthArgs(orig, t)
  {
    forall j, k | 0 <= j < k < |calls| ensures calls[j] != calls[k] {
      assert calls[j][CLUSTER] == Text(targets[order[j]]) && calls[k][CLUSTER] == Text(targets[order[k]]);
    }
    forall t | t in targets ensures SynthArgs(orig, t) in calls {
      var i :| 0 <= i < |targets| && targets[i] == t;
      ScheduleCovers(order, |targets|, i);
      var k :| 0 <= k < |order| && order[k] == i;
      assert calls[k] == SynthArgs(orig, t);
    }
  }
}
