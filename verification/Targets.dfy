/**
 Targets and target patterns: internal/capi/target.go and internal/capi/target_pattern.go.
 */
module Targets {
  import opened Basics
  import opened Text

  datatype Cluster = Cluster(
    kubeconfigName: string, context: string, namespace: string, name: string,
    customFields: map<string, string>)

  const SLASH := '/'

  function Fields(c: Cluster): seq<string> {
    [c.kubeconfigName, c.context, c.namespace, c.name]
  }

  function FormatTarget(c: Cluster): string {
    Join(Fields(c), SLASH)
  }

  /** The target spelled out: kubeconfig/context/namespace/name. */
  lemma TargetIsSpelled(c: Cluster)
    ensures FormatTarget(c) == c.kubeconfigName + "/" + c.context + "/" + c.namespace + "/" + c.name
  {
    var f := Fields(c);
    assert f[1..] == [c.context, c.namespace, c.name] && f[1..][1..] == [c.namespace, c.name];
    assert f[1..][1..][1..] == [c.name] && [SLASH] == "/";
    assert Join(f[1..][1..], SLASH) == c.namespace + "/" + c.name;
    assert Join(f[1..], SLASH) == c.context + "/" + (c.namespace + "/" + c.name);
    assert FormatTarget(c) == c.kubeconfigName + "/" + (c.context + "/" + (c.namespace + "/" + c.name));
  }

  // The four fields, or None for the error.  A parsed target has no custom fields.
  function ParseTarget(target: string): Option<Cluster> {
    var parts := Split(target, SLASH);
    if |parts| != 4 then None
    else Some(Cluster(parts[0], parts[1], parts[2], parts[3], map[]))
  }

  predicate SlashFree(c: Cluster) {
    forall f | f in Fields(c) :: Free(f, SLASH)
  }

  function Bare(c: Cluster): Cluster {
    c.(customFields := map[])
  }

  lemma SlashFreeFields(c: Cluster)
    ensures SlashFree(c) <==> AllFree(Fields(c), SLASH)
  {
    assert forall i :: 0 <= i < 4 ==> Fields(c)[i] in Fields(c);
  }

  /** Parsing recovers a formatted cluster exactly if its fields are slash-free; of any
      other cluster the string does not parse at all. */
  lemma ParseFormat(c: Cluster)
    ensures ParseTarget(FormatTarget(c)) == if SlashFree(c) then Some(Bare(c)) else None
  {
    SlashFreeFields(c);
    SplitJoinCount(Fields(c), SLASH);
    if SlashFree(c) {
      SplitJoin(Fields(c), SLASH);
    }
  }

  /** What parses is what formatting the result gives, and its fields are slash-free. */
  lemma FormatParse(target: string)
    ensures ParseTarget(target).Some? ==>
      var c := ParseTarget(target).value;
      SlashFree(c) && c == Bare(c) && FormatTarget(c) == target
  {
    if ParseTarget(target).Some? {
      var c := ParseTarget(target).value;
      assert Fields(c) == Split(target, SLASH);
      SplitIsFree(target, SLASH);
      SlashFreeFields(c);
      JoinSplit(target, SLASH);
    }
  }

  lemma FormatInjective(c: Cluster, d: Cluster)
    requires SlashFree(c) && SlashFree(d) && FormatTarget(c) == FormatTarget(d)
    ensures Bare(c) == Bare(d)
  {
    ParseFormat(c);
    ParseFormat(d);
  }

  // ---------------------------------------------------------------- patterns

  datatype TargetPattern = TargetPattern(
    kubeconfigName: string, context: string, namespace: string, name: string)
  {
    predicate IsExact() {
      context != "" && namespace != "" && name != ""
    }

    predicate Matches(c: Cluster) {
      && c.kubeconfigName == kubeconfigName
      && (context != "" ==> c.context == context)
      && (namespace != "" ==> c.namespace == namespace)
      && (name != "" ==> c.name == name)
    }

    function AsCluster(): Cluster {
      Cluster(kubeconfigName, context, namespace, name, map[])
    }
  }

  // 1 to 4 non-empty segments.
  predicate Accepted(target: string) {
    |Split(target, SLASH)| <= 4 && "" !in Split(target, SLASH)
  }

  function Segment(parts: seq<string>, i: nat): string {
    if i < |parts| then parts[i] else ""
  }

  function PatternOf(target: string): Option<TargetPattern> {
    var parts := Split(target, SLASH);
    if Accepted(target)
    then Some(TargetPattern(parts[0], Segment(parts, 1), Segment(parts, 2), Segment(parts, 3)))
    else None
  }

  // Segments filled from the left: kubeconfig[/context[/namespace[/name]]].
  predicate FilledFromLeft(p: TargetPattern) {
    && p.kubeconfigName != "" && (p.context == "" ==> p.namespace == "") && (p.namespace == "" ==> p.name == "")
    && Free(p.kubeconfigName, SLASH) && Free(p.context, SLASH) && Free(p.namespace, SLASH) && Free(p.name, SLASH)
  }

  function Segments(p: TargetPattern): seq<string> {
    [p.kubeconfigName] + (if p.context == "" then [] else [p.context]) +
    (if p.namespace == "" then [] else [p.namespace]) + (if p.name == "" then [] else [p.name])
  }

  /** A string is accepted as this pattern exactly if the pattern's non-empty fields, filled from
      the left and slash-free, are what the string spells. */
  lemma PatternIsSpelled(target: string, p: TargetPattern)
    ensures PatternOf(target) == Some(p) <==> FilledFromLeft(p) && Split(target, SLASH) == Segments(p)
  {
    SplitIsFree(target, SLASH);
    var parts := Split(target, SLASH);
    if Accepted(target) {
      assert forall i :: 0 <= i < |parts| ==> parts[i] in parts;
    }
  }

  method ParseTargetPattern(target: string) returns (r: Option<TargetPattern>)
    ensures r == PatternOf(target)
  {
    if target == "" {
      return None;
    }
    var parts := Split(target, SLASH);
    if |parts| > 4 {
      return None;
    }
    if "" in parts {
      return None;
    }
    var pattern := TargetPattern("", "", "", "");
    pattern := pattern.(kubeconfigName := parts[0]);
    if |parts| > 1 {
      pattern := pattern.(context := parts[1]);
    }
    if |parts| > 2 {
      pattern := pattern.(namespace := parts[2]);
    }
    if |parts| > 3 {
      pattern := pattern.(name := parts[3]);
    }
    return Some(pattern);
  }

  lemma MatchesIsFieldPrefix(p: string, c: Cluster)
    requires Accepted(p)
    ensures PatternOf(p).value.Matches(c) <==> Split(p, SLASH) <= Fields(c)
  {
    var parts, n := Split(p, SLASH), |Split(p, SLASH)|;
    assert parts[0] != "" && (n > 1 ==> parts[1] != "") && (n > 2 ==> parts[2] != "") && (n > 3 ==> parts[3] != "");
    assert parts <= Fields(c) <==> forall i :: 0 <= i < n ==> parts[i] == Fields(c)[i];
  }

  lemma FormatSegments(c: Cluster, n: nat)
    requires 1 <= n <= 4 && AllFree(Fields(c)[..n], SLASH)
    ensures Fields(c)[..n] <= Split(FormatTarget(c), SLASH)
  {
    var a, b := Fields(c)[..n], Fields(c)[n..];
    assert Fields(c) == a + b;
    SplitJoin(a, SLASH);
    if b == [] {
      assert Fields(c) == a;
    } else {
      JoinConcat(a, b, SLASH);
      SplitConcat(Join(a, SLASH), Join(b, SLASH), SLASH);
    }
  }

  /** Field-wise matching is path-prefix matching, for every accepted pattern and every
      cluster whatsoever, once the fields the pattern speaks about are slash-free. */
  lemma MatchesIsPathPrefix(p: string, c: Cluster)
    requires Accepted(p)
    ensures PatternOf(p).value.Matches(c) <==>
      PathPrefix(p, FormatTarget(c), SLASH) && AllFree(Fields(c)[..|Split(p, SLASH)|], SLASH)
  {
    var n := |Split(p, SLASH)|;
    MatchesIsFieldPrefix(p, c);
    PathPrefixIsSegmentPrefix(p, FormatTarget(c), SLASH);
    SplitIsFree(p, SLASH);
    if AllFree(Fields(c)[..n], SLASH) {
      FormatSegments(c, n);
    }
  }

  /** For clusters with slash-free fields: exactly path-prefix matching. */
  lemma MatchesSlashFree(p: string, c: Cluster)
    requires Accepted(p) && SlashFree(c)
    ensures PatternOf(p).value.Matches(c) <==> PathPrefix(p, FormatTarget(c), SLASH)
  {
    SlashFreeFields(c);
    MatchesIsPathPrefix(p, c);
  }

  /** An accepted pattern is exact if and only if it has four segments; then it is itself
      the target of the cluster it names. */
  lemma ExactIsTarget(p: string)
    requires Accepted(p)
    ensures PatternOf(p).value.IsExact() <==> |Split(p, SLASH)| == 4
    ensures PatternOf(p).value.IsExact() ==> FormatTarget(PatternOf(p).value.AsCluster()) == p
  {
    var parts := Split(p, SLASH);
    assert forall i :: 0 <= i < |parts| ==> parts[i] in parts;
    JoinSplit(p, SLASH);
    if |parts| == 4 {
      assert Fields(PatternOf(p).value.AsCluster()) == parts;
    }
  }

  // The targets of the clusters that match, in order.
  function MatchesIn(pattern: TargetPattern, all: seq<Cluster>): seq<string> {
    if all == [] then []
    else
      var n := |all| - 1;
      MatchesIn(pattern, all[..n]) + if pattern.Matches(all[n]) then [FormatTarget(all[n])] else []
  }

  method ExpandTargetPattern(pattern: TargetPattern, all: seq<Cluster>) returns (out: seq<string>)
    ensures out == MatchesIn(pattern, all)
  {
    out := [];
    for i := 0 to |all|
      invariant out == MatchesIn(pattern, all[..i])
    {
      assert all[..i + 1][..i] == all[..i];
      if pattern.Matches(all[i]) {
        out := out + [FormatTarget(all[i])];
      }
    }
    assert all[..|all|] == all;
  }

  /** Order and multiplicity, too: the i-th match is the target of the i-th of the known clusters
      that match. */
  lemma {:induction false} MatchesInOrder(pattern: TargetPattern, all: seq<Cluster>) returns (places: seq<nat>)
    ensures Places(places, |all|) && |MatchesIn(pattern, all)| == |places|
    ensures forall i :: 0 <= i < |places| ==> MatchesIn(pattern, all)[i] == FormatTarget(all[places[i]])
    ensures forall j :: 0 <= j < |all| ==> (j in places <==> pattern.Matches(all[j]))
  {
    if all == [] {
      places := [];
    } else {
      var n := |all| - 1;
      var before := MatchesInOrder(pattern, all[..n]);
      places := before;
      assert forall j :: 0 <= j < n ==> all[..n][j] == all[j];
      if pattern.Matches(all[n]) {
        places := before + [n];
        assert forall j: nat :: j in places <==> j in before || j == n;
      }
    }
  }

  lemma {:induction false} MatchesInMembers(pattern: TargetPattern, all: seq<Cluster>, t: string)
    ensures t in MatchesIn(pattern, all) <==>
      exists c :: c in all && pattern.Matches(c) && FormatTarget(c) == t
  {
    if all == [] {
    } else {
      var n := |all| - 1;
      assert all == all[..n] + [all[n]];
      MatchesInMembers(pattern, all[..n], t);
    }
  }
}
