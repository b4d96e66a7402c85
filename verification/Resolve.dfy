/**
 Resolving the "clusters" argument: internal/capi/resolve_patterns.go.  What listKnown
 would return is a parameter; how often it is called is part of the result.
 */
module Resolve {
  import opened Basics
  import opened Text
  import opened Targets

  // ---------------------------------------------------------------- first-seen order

  function Dedup(xs: seq<string>): seq<string> {
    if xs == [] then []
    else
      var n := |xs| - 1;
      var r := Dedup(xs[..n]);
      if xs[n] in r then r else r + [xs[n]]
  }

  function FirstIndex(xs: seq<string>, x: string): (i: nat)
    requires x in xs
    ensures i < |xs| && xs[i] == x && x !in xs[..i]
  {
    if xs[0] == x then 0
    else
      var i := FirstIndex(xs[1..], x);
      assert xs[..i + 1] == [xs[0]] + xs[1..][..i];
      i + 1
  }

  ghost predicate ByFirstIndex(xs: seq<string>, out: seq<string>) {
    && (forall i :: 0 <= i < |out| ==> out[i] in xs)
    && (forall i, j :: 0 <= i < j < |out| ==> FirstIndex(xs, out[i]) < FirstIndex(xs, out[j]))
  }

  // out lists the elements of xs, each once, in the order of their first occurrences.
  ghost predicate FirstSeen(xs: seq<string>, out: seq<string>) {
    (forall t :: t in out <==> t in xs) && ByFirstIndex(xs, out)
  }

  lemma {:induction false} DedupMembers(xs: seq<string>)
    ensures forall t :: t in Dedup(xs) <==> t in xs
    ensures Distinct(Dedup(xs))
  {
    if xs == [] {
    } else {
      var n := |xs| - 1;
      DedupMembers(xs[..n]);
      assert xs == xs[..n] + [xs[n]];
    }
  }

  lemma {:induction false} FirstIndexIsFirst(xs: seq<string>, x: string, i: nat)
    requires i < |xs| && xs[i] == x && x !in xs[..i]
    ensures FirstIndex(xs, x) == i
  {
    if i > 0 {
      assert xs[..i][0] == xs[0];
      assert xs[..i] == [xs[0]] + xs[1..][..i - 1];
      FirstIndexIsFirst(xs[1..], x, i - 1);
    }
  }

  lemma FirstIndexPrefix(xs: seq<string>, ys: seq<string>, x: string)
    requires x in xs
    ensures FirstIndex(xs + ys, x) == FirstIndex(xs, x)
  {
    var i, j := FirstIndex(xs, x), FirstIndex(xs + ys, x);
    assert (xs + ys)[..i] == xs[..i];
    FirstIndexIsFirst(xs + ys, x, i);
  }

  /** dedupePreserveOrder keeps first-seen order. */
  lemma {:induction false} DedupIsFirstSeen(xs: seq<string>)
    ensures FirstSeen(xs, Dedup(xs))
  {
    DedupMembers(xs);
    if xs == [] {
    } else {
      var n := |xs| - 1;
      var r, out := Dedup(xs[..n]), Dedup(xs);
      DedupIsFirstSeen(xs[..n]);
      DedupMembers(xs[..n]);
      assert xs == xs[..n] + [xs[n]];
      forall i, j | 0 <= i < j < |out| ensures FirstIndex(xs, out[i]) < FirstIndex(xs, out[j]) {
        FirstIndexPrefix(xs[..n], [xs[n]], out[i]);
        if j < |r| {
          FirstIndexPrefix(xs[..n], [xs[n]], out[j]);
        }
      }
    }
  }

  lemma HasMember(a: seq<string>)
    ensures a == [] || exists t :: t in a
  {
    if a != [] {
      assert a[0] in a;
    }
  }

  function Last(a: seq<string>): string
    requires a != []
  {
    a[|a| - 1]
  }

  lemma LastIsGreatest(xs: seq<string>, a: seq<string>, t: string)
    requires ByFirstIndex(xs, a) && t in a
    ensures FirstIndex(xs, t) <= FirstIndex(xs, a[|a| - 1])
  {
    var i :| 0 <= i < |a| && a[i] == t;
  }

  lemma SameLast(xs: seq<string>, a: seq<string>, b: seq<string>)
    requires ByFirstIndex(xs, a) && ByFirstIndex(xs, b) && a != [] && b != []
    requires forall t :: t in a <==> t in b
    ensures Last(a) == Last(b)
  {
    LastIsGreatest(xs, a, Last(b));
    LastIsGreatest(xs, b, Last(a));
    assert FirstIndex(xs, Last(a)) == FirstIndex(xs, Last(b));
  }

  function Init(a: seq<string>): seq<string>
    requires a != []
  {
    a[..|a| - 1]
  }

  lemma InInit(xs: seq<string>, a: seq<string>)
    requires ByFirstIndex(xs, a) && a != []
    ensures ByFirstIndex(xs, Init(a))
    ensures forall t :: t in Init(a) <==> t in a && t != Last(a)
  {
    assert a == Init(a) + [Last(a)];
  }

  lemma SameInits(xs: seq<string>, a: seq<string>, b: seq<string>)
    requires ByFirstIndex(xs, a) && ByFirstIndex(xs, b) && a != [] && b != []
    requires Last(a) == Last(b) && forall t :: t in a <==> t in b
    ensures ByFirstIndex(xs, Init(a)) && ByFirstIndex(xs, Init(b))
    ensures forall t :: t in Init(a) <==> t in Init(b)
  {
    InInit(xs, a);
    InInit(xs, b);
  }

  /** First-seen order leaves no choice. */
  lemma {:induction false} FirstSeenIsUnique(xs: seq<string>, a: seq<string>, b: seq<string>)
    requires ByFirstIndex(xs, a) && ByFirstIndex(xs, b)
    requires forall t :: t in a <==> t in b
    ensures a == b
    decreases |a|
  {
    HasMember(a);
    HasMember(b);
    if a == [] {
    } else {
      SameLast(xs, a, b);
      SameInits(xs, a, b);
      FirstSeenIsUnique(xs, Init(a), Init(b));
      assert a == Init(a) + [Last(a)] && b == Init(b) + [Last(b)];
    }
  }

  method DedupePreserveOrder(xs: seq<string>) returns (out: seq<string>)
    ensures out == Dedup(xs)
  {
    var seen: set<string> := {};
    out := [];
    for i := 0 to |xs|
      invariant out == Dedup(xs[..i])
      invariant forall t :: t in seen <==> t in out
    {
      assert xs[..i + 1][..i] == xs[..i];
      if xs[i] !in seen {
        seen := seen + {xs[i]};
        out := out + [xs[i]];
      }
    }
    assert xs[..|xs|] == xs;
  }

  // ---------------------------------------------------------------- resolution

  function PatternMatches(p: TargetPattern, known: seq<Cluster>): seq<string> {
    if p.IsExact() then [FormatTarget(p.AsCluster())] else MatchesIn(p, known)
  }

  predicate AllAccepted(patterns: seq<string>) {
    forall p | p in patterns :: Accepted(p)
  }

  predicate Exact(p: string) {
    Accepted(p) && PatternOf(p).value.IsExact()
  }

  predicate AllExact(patterns: seq<string>) {
    forall p | p in patterns :: Exact(p)
  }

  predicate AllTargets(patterns: seq<string>) {
    forall p | p in patterns :: ParseTarget(p).Some?
  }

  // The matches of each pattern in turn.
  function AllMatches(patterns: seq<string>, known: seq<Cluster>): seq<string>
    requires AllAccepted(patterns)
  {
    if patterns == [] then []
    else
      var n := |patterns| - 1;
      AllMatches(patterns[..n], known) + PatternMatches(PatternOf(patterns[n]).value, known)
  }

  // The resolved targets, and the number of times listKnown was called.
  function Resolution(patterns: seq<string>, listing: Result<seq<Cluster>>, strict: bool)
    : (Result<seq<string>>, nat)
  {
    if strict then
      (if AllTargets(patterns) then Ok(Dedup(patterns)) else Err, 0)
    else if !AllAccepted(patterns) then (Err, 0)
    else if AllExact(patterns) then (Ok(Dedup(AllMatches(patterns, []))), 0)
    else
      match listing
      case Err => (Err, 1)
      case Ok(known) => (Ok(Dedup(AllMatches(patterns, known))), 1)
  }

  // The inner loop of ResolveClusterPatterns (lines 68-73).
  method AppendUnseen(ghost before: seq<string>, seen0: set<string>, out0: seq<string>, matches: seq<string>)
    returns (seen: set<string>, out: seq<string>)
    requires out0 == Dedup(before) && forall t :: t in seen0 <==> t in out0
    ensures out == Dedup(before + matches) && forall t :: t in seen <==> t in out
  {
    seen, out := seen0, out0;
    assert before + matches[..0] == before;
    for j := 0 to |matches|
      invariant out == Dedup(before + matches[..j])
      invariant forall t :: t in seen <==> t in out
    {
      assert (before + matches[..j + 1])[..|before| + j] == before + matches[..j];
      if matches[j] !in seen {
        seen := seen + {matches[j]};
        out := out + [matches[j]];
      }
    }
    assert matches[..|matches|] == matches;
  }

  // Its last loop (lines 54-74).
  method CollectFirstSeen(ghost patterns: seq<string>, parsed: seq<TargetPattern>, known: seq<Cluster>)
    returns (out: seq<string>)
    requires AllAccepted(patterns) && |parsed| == |patterns|
    requires forall j :: 0 <= j < |parsed| ==> PatternOf(patterns[j]) == Some(parsed[j])
    ensures out == Dedup(AllMatches(patterns, known))
  {
    var seen: set<string> := {};
    out := [];
    for i := 0 to |parsed|
      invariant out == Dedup(AllMatches(patterns[..i], known))
      invariant forall t :: t in seen <==> t in out
    {
      var matches: seq<string>;
      if parsed[i].IsExact() {
        matches := [FormatTarget(parsed[i].AsCluster())];
      } else {
        matches := ExpandTargetPattern(parsed[i], known);
      }
      ghost var before := AllMatches(patterns[..i], known);
      assert patterns[..i + 1][..i] == patterns[..i];
      assert AllMatches(patterns[..i + 1], known) == before + matches;
      seen, out := AppendUnseen(before, seen, out, matches);
    }
    assert patterns[..|parsed|] == patterns;
  }

  method ResolveClusterPatterns(patterns: seq<string>, listing: Result<seq<Cluster>>, strict: bool)
    returns (res: Result<seq<string>>, calls: nat)
    ensures (res, calls) == Resolution(patterns, listing, strict)
  {
    calls := 0;
    if strict {
      for i := 0 to |patterns|
        invariant forall j :: 0 <= j < i ==> ParseTarget(patterns[j]).Some?
      {
        if ParseTarget(patterns[i]).None? {
          return Err, calls;
        }
      }
      var out := DedupePreserveOrder(patterns);
      return Ok(out), calls;
    }

    var parsed: seq<TargetPattern> := [];
    var needsExpansion := false;
    for i := 0 to |patterns|
      invariant |parsed| == i
      invariant forall j :: 0 <= j < i ==> PatternOf(patterns[j]) == Some(parsed[j])
      invariant needsExpansion <==> exists j :: 0 <= j < i && !parsed[j].IsExact()
    {
      var pattern := ParseTargetPattern(patterns[i]);
      if pattern.None? {
        assert patterns[i] in patterns && !Accepted(patterns[i]);
        return Err, calls;
      }
      parsed := parsed + [pattern.value];
      if !pattern.value.IsExact() {
        needsExpansion := true;
      }
    }
    assert AllExact(patterns) <==> !needsExpansion by {
      if needsExpansion {
        var j :| 0 <= j < |patterns| && !parsed[j].IsExact();
        assert patterns[j] in patterns && !Exact(patterns[j]);
      }
    }

    var known: seq<Cluster> := [];
    if needsExpansion {
      calls := 1;
      if listing.Err? {
        return Err, calls;
      }
      known := listing.value;
    }

    var out := CollectFirstSeen(patterns, parsed, known);
    res := Ok(out);
  }

  // ---------------------------------------------------------------- what it promises

  /** Strict mode never lists, accepts exactly full paths, and adds nothing to the request. */
  lemma StrictStaysInRequest(patterns: seq<string>, listing: Result<seq<Cluster>>)
    ensures var (res, calls) := Resolution(patterns, listing, true);
      && calls == 0
      && (res.Ok? <==> forall p :: p in patterns ==> |Split(p, SLASH)| == 4)
      && (res.Ok? ==> FirstSeen(patterns, res.value))
  {
    DedupIsFirstSeen(patterns);
  }

  /** listKnown is called at most once, and exactly if every pattern parses and one is
      partial; only its failure or a malformed pattern makes lenient resolution fail. */
  lemma ListsLazily(patterns: seq<string>, listing: Result<seq<Cluster>>)
    ensures var (res, calls) := Resolution(patterns, listing, false);
      && calls <= 1
      && (calls == 1 <==> AllAccepted(patterns) && exists p :: p in patterns && !Exact(p))
      && (res.Err? <==> !AllAccepted(patterns) || (calls == 1 && listing.Err?))
  {
  }

  // t answers the pattern p: it is p itself if p is exact, else a known target p matches.
  ghost predicate Answers(p: string, known: seq<Cluster>, t: string)
    requires Accepted(p)
  {
    if Exact(p) then t == p
    else exists c :: c in known && PatternOf(p).value.Matches(c) && FormatTarget(c) == t
  }

  lemma PatternMatchesMembers(p: string, known: seq<Cluster>, t: string)
    requires Accepted(p)
    ensures t in PatternMatches(PatternOf(p).value, known) <==> Answers(p, known, t)
  {
    if Exact(p) {
      ExactIsTarget(p);
    } else {
      MatchesInMembers(PatternOf(p).value, known, t);
    }
  }

  lemma {:induction false} AllMatchesMembers(patterns: seq<string>, known: seq<Cluster>, t: string)
    requires AllAccepted(patterns)
    ensures t in AllMatches(patterns, known) <==> exists p :: p in patterns && Answers(p, known, t)
  {
    if patterns == [] {
    } else {
      var n := |patterns| - 1;
      assert patterns == patterns[..n] + [patterns[n]];
      AllMatchesMembers(patterns[..n], known, t);
      PatternMatchesMembers(patterns[n], known, t);
    }
  }

  /** Exact patterns resolve to themselves, whatever is known. */
  lemma {:induction false} ExactNeedsNoListing(patterns: seq<string>, known: seq<Cluster>)
    requires AllExact(patterns)
    ensures AllAccepted(patterns) && AllMatches(patterns, known) == patterns
  {
    assert AllAccepted(patterns);
    if patterns == [] {
    } else {
      var n := |patterns| - 1;
      assert patterns == patterns[..n] + [patterns[n]];
      ExactNeedsNoListing(patterns[..n], known);
      ExactIsTarget(patterns[n]);
    }
  }

  lemma LenientDedups(patterns: seq<string>, known: seq<Cluster>)
    requires AllAccepted(patterns)
    ensures Resolution(patterns, Ok(known), false).0 == Ok(Dedup(AllMatches(patterns, known)))
  {
    if AllExact(patterns) {
      ExactNeedsNoListing(patterns, known);
      ExactNeedsNoListing(patterns, []);
    }
  }

  /** Lenient resolution answers with exactly the targets some pattern calls for, each once,
      in the order in which the patterns first call for them. */
  lemma LenientMeetsSpec(patterns: seq<string>, listing: Result<seq<Cluster>>, out: seq<string>)
    requires AllAccepted(patterns) && Resolution(patterns, listing, false).0 == Ok(out)
    ensures var known := if listing.Ok? then listing.value else [];
      && Distinct(out) && FirstSeen(AllMatches(patterns, known), out)
      && forall t :: t in out <==> exists p :: p in patterns && Answers(p, known, t)
  {
    var known := if listing.Ok? then listing.value else [];
    LenientDedups(patterns, known);
    DedupMembers(AllMatches(patterns, known));
    DedupIsFirstSeen(AllMatches(patterns, known));
    forall t ensures t in out <==> exists p :: p in patterns && Answers(p, known, t) {
      AllMatchesMembers(patterns, known, t);
    }
  }

  // ---------------------------------------------------------------- algebra of requests

  function Minus(xs: seq<string>, ys: seq<string>): seq<string> {
    if xs == [] then []
    else
      var n := |xs| - 1;
      Minus(xs[..n], ys) + if xs[n] in ys then [] else [xs[n]]
  }

  lemma {:induction false} MinusMembers(xs: seq<string>, ys: seq<string>, t: string)
    ensures t in Minus(xs, ys) <==> t in xs && t !in ys
  {
    if xs == [] {
    } else {
      var n := |xs| - 1;
      assert xs == xs[..n] + [xs[n]];
      MinusMembers(xs[..n], ys, t);
    }
  }

  lemma {:induction false} DedupConcat(xs: seq<string>, ys: seq<string>)
    ensures Dedup(xs + ys) == Dedup(xs) + Minus(Dedup(ys), Dedup(xs))
  {
    if ys == [] {
      assert xs + ys == xs;
    } else {
      var n := |ys| - 1;
      var r := Dedup(ys[..n]);
      assert (xs + ys)[..|xs + ys| - 1] == xs + ys[..n];
      DedupConcat(xs, ys[..n]);
      MinusMembers(r, Dedup(xs), ys[n]);
      if ys[n] !in r {
        assert (r + [ys[n]])[..|r|] == r;
      }
    }
  }

  lemma AllMatchesSnoc(ps: seq<string>, q: string, known: seq<Cluster>)
    requires AllAccepted(ps) && Accepted(q)
    ensures AllAccepted(ps + [q])
    ensures AllMatches(ps + [q], known) == AllMatches(ps, known) + PatternMatches(PatternOf(q).value, known)
  {
    assert (ps + [q])[..|ps|] == ps;
  }

  lemma Associate(a: seq<string>, b: seq<string>, c: seq<string>)
    ensures (a + b) + c == a + (b + c)
  {
  }

  lemma {:induction false} AllMatchesConcat(ps: seq<string>, qs: seq<string>, known: seq<Cluster>)
    requires AllAccepted(ps) && AllAccepted(qs)
    ensures AllAccepted(ps + qs)
    ensures AllMatches(ps + qs, known) == AllMatches(ps, known) + AllMatches(qs, known)
  {
    if qs == [] {
      assert ps + qs == ps;
    } else {
      var front, q := Init(qs), Last(qs);
      assert qs == front + [q] && ps + qs == (ps + front) + [q];
      AllMatchesConcat(ps, front, known);
      AllMatchesSnoc(front, q, known);
      AllMatchesSnoc(ps + front, q, known);
      Associate(AllMatches(ps, known), AllMatches(front, known), PatternMatches(PatternOf(q).value, known));
    }
  }

  /** Resolving two requests together is resolving the first, then adding what the second
      resolves to and the first did not; together they fail exactly if one of them does. */
  lemma ResolvingTogether(ps: seq<string>, qs: seq<string>, listing: Result<seq<Cluster>>)
    ensures var (a, b, ab) := (Resolution(ps, listing, false).0, Resolution(qs, listing, false).0,
                               Resolution(ps + qs, listing, false).0);
      && (ab.Err? <==> a.Err? || b.Err?)
      && (ab.Ok? ==> ab.value == a.value + Minus(b.value, a.value))
  {
    assert AllAccepted(ps + qs) <==> AllAccepted(ps) && AllAccepted(qs);
    assert AllExact(ps + qs) <==> AllExact(ps) && AllExact(qs);
    if AllAccepted(ps) && AllAccepted(qs) {
      var known := if listing.Ok? then listing.value else [];
      LenientDedups(ps, known);
      LenientDedups(qs, known);
      LenientDedups(ps + qs, known);
      AllMatchesConcat(ps, qs, known);
      DedupConcat(AllMatches(ps, known), AllMatches(qs, known));
    }
  }

  lemma {:induction false} DedupOfDistinct(xs: seq<string>)
    requires Distinct(xs)
    ensures Dedup(xs) == xs
  {
    if xs == [] {
    } else {
      var n := |xs| - 1;
      DedupOfDistinct(xs[..n]);
      assert xs == xs[..n] + [xs[n]];
    }
  }

  /** A list without repetitions resolves to itself without listing exactly if, in lenient
      mode, its entries are exact patterns and, in strict mode, have four segments. */
  lemma FixedPoints(ts: seq<string>, listing: Result<seq<Cluster>>)
    requires Distinct(ts)
    ensures Resolution(ts, listing, false) == (Ok(ts), 0) <==> AllExact(ts)
    ensures Resolution(ts, listing, true) == (Ok(ts), 0) <==> AllTargets(ts)
  {
    DedupOfDistinct(ts);
    if AllExact(ts) {
      ExactNeedsNoListing(ts, []);
    }
  }

  // All four fields non-empty and slash-free.
  predicate WellNamed(c: Cluster) {
    SlashFree(c) && "" !in Fields(c)
  }

  // What a pattern can have between slashes.
  predicate IsSegment(s: string) {
    s != "" && Free(s, SLASH)
  }

  predicate ResolvesAlone(c: Cluster, strict: bool) {
    if strict then SlashFree(c) else WellNamed(c)
  }

  lemma ResolvesAloneIff(c: Cluster, strict: bool)
    ensures ResolvesAlone(c, strict) <==>
      if strict then ParseTarget(FormatTarget(c)).Some? else Exact(FormatTarget(c))
  {
    SlashFreeFields(c);
    ParseFormat(c);
    SplitJoinCount(Fields(c), SLASH);
    if SlashFree(c) {
      SplitJoin(Fields(c), SLASH);
      if WellNamed(c) {
        ExactIsTarget(FormatTarget(c));
      }
    }
    if Exact(FormatTarget(c)) {
      ExactIsTarget(FormatTarget(c));
    }
  }

  lemma ExactParses(p: string)
    requires Exact(p)
    ensures ParseTarget(p).Some?
  {
    ExactIsTarget(p);
  }

  // Every known cluster some pattern can reach resolves to itself in this mode.
  ghost predicate ReachableResolveAlone(known: seq<Cluster>, strict: bool) {
    forall c :: c in known && IsSegment(c.kubeconfigName) ==> ResolvesAlone(c, strict)
  }

  lemma MatchedIsReachable(p: string, c: Cluster)
    requires Accepted(p) && PatternOf(p).value.Matches(c)
    ensures IsSegment(c.kubeconfigName)
  {
    SplitIsFree(p, SLASH);
    assert Split(p, SLASH)[0] in Split(p, SLASH);
  }

  lemma AnswerResolvesAlone(p: string, known: seq<Cluster>, t: string, strict: bool)
    requires Accepted(p) && Answers(p, known, t) && ReachableResolveAlone(known, strict)
    ensures if strict then ParseTarget(t).Some? else Exact(t)
  {
    if Exact(p) {
      ExactParses(p);
    } else {
      var c :| c in known && PatternOf(p).value.Matches(c) && FormatTarget(c) == t;
      MatchedIsReachable(p, c);
      ResolvesAloneIff(c, strict);
    }
  }

  /** Resolution is a fixed point: if the clusters a pattern can reach have slash-free fields
      (and, for lenient mode, no empty ones), resolving the result of a lenient resolution
      again changes nothing and lists nothing. */
  lemma ResolutionIsFixedPoint(patterns: seq<string>, known: seq<Cluster>, out: seq<string>,
                               relisting: Result<seq<Cluster>>, strict: bool)
    requires Resolution(patterns, Ok(known), false).0 == Ok(out) && ReachableResolveAlone(known, strict)
    ensures Resolution(out, relisting, strict) == (Ok(out), 0)
  {
    assert AllAccepted(patterns);
    LenientMeetsSpec(patterns, Ok(known), out);
    forall t | t in out ensures if strict then ParseTarget(t).Some? else Exact(t) {
      var p :| p in patterns && Answers(p, known, t);
      AnswerResolvesAlone(p, known, t, strict);
    }
    FixedPoints(out, relisting);
  }

  // What these patterns resolve to resolves to itself without listing.
  ghost predicate Settles(patterns: seq<string>, known: seq<Cluster>, strict: bool) {
    forall out, relisting :: Resolution(patterns, Ok(known), false).0 == Ok(out) ==>
      Resolution(out, relisting, strict) == (Ok(out), 0)
  }

  // The kubeconfig name of c is a pattern that selects c, whose target does not settle.
  lemma Unsettled(known: seq<Cluster>, c: Cluster, strict: bool)
    requires c in known && IsSegment(c.kubeconfigName) && !ResolvesAlone(c, strict)
    ensures !Settles([c.kubeconfigName], known, strict)
  {
    var p := c.kubeconfigName;
    SplitFree(p, SLASH);
    assert Split(p, SLASH) == [p] && Accepted(p) && !Exact(p);
    var out := Resolution([p], Ok(known), false).0.value;
    LenientMeetsSpec([p], Ok(known), out);
    assert PatternOf(p).value.Matches(c) && Answers(p, known, FormatTarget(c));
    ResolvesAloneIff(c, strict);
    FixedPoints(out, Err);
    assert FormatTarget(c) in out && Resolution(out, Err, strict) != (Ok(out), 0);
  }

  /** The condition is exact, in each mode. */
  lemma FixedPointIff(known: seq<Cluster>, strict: bool)
    ensures (forall patterns :: Settles(patterns, known, strict)) <==> ReachableResolveAlone(known, strict)
  {
    if ReachableResolveAlone(known, strict) {
      forall patterns, out, relisting | Resolution(patterns, Ok(known), false).0 == Ok(out)
        ensures Resolution(out, relisting, strict) == (Ok(out), 0)
      {
        ResolutionIsFixedPoint(patterns, known, out, relisting, strict);
      }
    } else {
      var c :| c in known && IsSegment(c.kubeconfigName) && !ResolvesAlone(c, strict);
      Unsettled(known, c, strict);
    }
  }

  /** Where strict mode succeeds, lenient mode gives the same answer, without listing,
      exactly if no entry has an empty segment; otherwise lenient mode rejects the list. */
  lemma ModesAgree(patterns: seq<string>, listing: Result<seq<Cluster>>)
    requires Resolution(patterns, listing, true).0.Ok?
    ensures
      if forall p :: p in patterns ==> "" !in Split(p, SLASH)
      then Resolution(patterns, listing, false) == Resolution(patterns, listing, true)
      else Resolution(patterns, listing, false) == (Err, 0)
  {
    if forall p :: p in patterns ==> "" !in Split(p, SLASH) {
      forall p | p in patterns ensures Exact(p) {
        assert ParseTarget(p).Some?;
        ExactIsTarget(p);
      }
      ExactNeedsNoListing(patterns, []);
    }
  }
}
