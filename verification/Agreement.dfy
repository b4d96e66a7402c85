/**
 Embedded tools see the known clusters only as target strings; the bespoke tools see the
 clusters themselves.  What is lost on the way, and when both expand patterns alike.
 */
module Agreement {
  import opened Basics
  import opened Text
  import opened Targets
  import opened Resolve
  import opened Discovery
  import opened FanOut

  // The clusters with slash-free fields, without their custom fields.
  function SlashFreeOf(known: seq<Cluster>): seq<Cluster> {
    if known == [] then []
    else
      var n := |known| - 1;
      SlashFreeOf(known[..n]) + if SlashFree(known[n]) then [Bare(known[n])] else []
  }

  /** Formatting the known clusters and parsing them back loses exactly the clusters with a
      slash in a field, and the custom fields. */
  lemma {:induction false} ListingRoundTrip(known: seq<Cluster>)
    ensures KnownFromTargets(TargetsOf(known)) == SlashFreeOf(known)
  {
    if known == [] {
    } else {
      var n := |known| - 1;
      ListingRoundTrip(known[..n]);
      assert TargetsOf(known)[..n] == TargetsOf(known[..n]);
      ParseFormat(known[n]);
    }
  }

  // Every known cluster some pattern could reach has slash-free fields.
  ghost predicate ReachableAreSlashFree(known: seq<Cluster>) {
    forall c :: c in known && IsSegment(c.kubeconfigName) ==> SlashFree(c)
  }

  lemma {:induction false} SameMatches(p: string, known: seq<Cluster>)
    requires Accepted(p) && ReachableAreSlashFree(known)
    ensures MatchesIn(PatternOf(p).value, SlashFreeOf(known)) == MatchesIn(PatternOf(p).value, known)
  {
    if known == [] {
    } else {
      var n, pattern := |known| - 1, PatternOf(p).value;
      var c, rest := known[n], SlashFreeOf(known[..n]);
      assert forall d :: d in known[..n] ==> d in known;
      assert c in known;
      SameMatches(p, known[..n]);
      if SlashFree(c) {
        assert (rest + [Bare(c)])[..|rest|] == rest;
        assert pattern.Matches(Bare(c)) <==> pattern.Matches(c);
        assert Fields(Bare(c)) == Fields(c);
      } else {
        SplitIsFree(p, SLASH);
        assert IsSegment(pattern.kubeconfigName) && !pattern.Matches(c);
        assert SlashFreeOf(known) == rest;
        assert MatchesIn(pattern, known) == MatchesIn(pattern, known[..n]);
      }
    }
  }

  lemma {:induction false} SameAllMatches(patterns: seq<string>, known: seq<Cluster>)
    requires AllAccepted(patterns) && ReachableAreSlashFree(known)
    ensures AllMatches(patterns, SlashFreeOf(known)) == AllMatches(patterns, known)
  {
    if patterns == [] {
    } else {
      var n := |patterns| - 1;
      assert patterns[n] in patterns;
      SameAllMatches(patterns[..n], known);
      SameMatches(patterns[n], known);
    }
  }

  lemma {:induction false} SlashFreeOfParse(known: seq<Cluster>, c: Cluster)
    requires c in SlashFreeOf(known)
    ensures SlashFree(c)
  {
    var n := |known| - 1;
    if c in SlashFreeOf(known[..n]) {
      SlashFreeOfParse(known[..n], c);
    }
  }

  // Both kinds of tools resolve these patterns alike.
  ghost predicate ExpandAlike(patterns: seq<string>, known: seq<Cluster>) {
    Resolution(patterns, Ok(KnownFromTargets(TargetsOf(known))), false) == Resolution(patterns, Ok(known), false)
  }

  // The bespoke tools expand the kubeconfig name of c to a target that does not parse.
  lemma DifferOn(known: seq<Cluster>, c: Cluster)
    requires c in known && IsSegment(c.kubeconfigName) && !SlashFree(c)
    ensures !ExpandAlike([c.kubeconfigName], known)
  {
    var p, embedded := c.kubeconfigName, KnownFromTargets(TargetsOf(known));
    SplitFree(p, SLASH);
    assert Split(p, SLASH) == [p] && Accepted(p) && !Exact(p);
    var a, b := Resolution([p], Ok(known), false).0.value, Resolution([p], Ok(embedded), false).0.value;
    LenientMeetsSpec([p], Ok(known), a);
    LenientMeetsSpec([p], Ok(embedded), b);
    ListingRoundTrip(known);
    assert PatternOf(p).value.Matches(c);
    assert Answers(p, known, FormatTarget(c));
    assert FormatTarget(c) in a;
    ParseFormat(c);
    forall t | t in b ensures t != FormatTarget(c) {
      assert Answers(p, embedded, t);
      var d :| d in embedded && PatternOf(p).value.Matches(d) && FormatTarget(d) == t;
      SlashFreeOfParse(known, d);
      ParseFormat(d);
    }
  }

  /** Embedded and bespoke tools expand every pattern list identically exactly if every known
      cluster whose kubeconfig name is a possible segment has slash-free fields. */
  lemma ExpandAlikeIff(known: seq<Cluster>)
    ensures (forall patterns :: ExpandAlike(patterns, known)) <==> ReachableAreSlashFree(known)
  {
    ListingRoundTrip(known);
    if ReachableAreSlashFree(known) {
      forall patterns ensures ExpandAlike(patterns, known) {
        if AllAccepted(patterns) {
          SameAllMatches(patterns, known);
        }
      }
    } else {
      var c :| c in known && IsSegment(c.kubeconfigName) && !SlashFree(c);
      DifferOn(known, c);
    }
  }

  // ---------------------------------------------------------------- read-only tools, end to end

  lemma {:induction false} SlashFreeOfMembers(known: seq<Cluster>, d: Cluster)
    ensures d in SlashFreeOf(known) <==> exists c :: c in known && SlashFree(c) && d == Bare(c)
  {
    if known == [] {
    } else {
      var n := |known| - 1;
      assert known == known[..n] + [known[n]];
      SlashFreeOfMembers(known[..n], d);
    }
  }

  // The target t is what the pattern p selects among these clusters.
  ghost predicate Chosen(p: string, known: seq<Cluster>, t: string) {
    if Exact(p) then t == p
    else exists c :: c in known && SlashFree(c) && t == FormatTarget(c) && PathPrefix(p, t, SLASH)
  }

  lemma AnswersIsChosen(p: string, known: seq<Cluster>, t: string)
    requires Accepted(p)
    ensures Answers(p, SlashFreeOf(known), t) <==> Chosen(p, known, t)
  {
    if !Exact(p) {
      if d :| d in SlashFreeOf(known) && PatternOf(p).value.Matches(d) && FormatTarget(d) == t {
        SlashFreeOfMembers(known, d);
        var c :| c in known && SlashFree(c) && d == Bare(c);
        MatchesSlashFree(p, c);
        assert Fields(c) == Fields(d) && FormatTarget(c) == t;
      }
      if c :| c in known && SlashFree(c) && t == FormatTarget(c) && PathPrefix(p, t, SLASH) {
        SlashFreeOfMembers(known, Bare(c));
        MatchesSlashFree(p, c);
        assert Fields(Bare(c)) == Fields(c) && FormatTarget(Bare(c)) == t;
        assert PatternOf(p).value.Matches(Bare(c));
      }
    }
  }

  /** A read-only embedded tool, given clusters, runs exactly if every entry is a well-formed
      pattern, and then once for each exact entry and each known slash-free cluster whose
      target some partial entry is a path prefix of. */
  lemma ReadOnlyRunsOnSelected(args: Args, known: seq<Cluster>)
    requires CLUSTERS in args && DecodeStrings(args[CLUSTERS]).Some?
    ensures var patterns := DecodeStrings(args[CLUSTERS]).value;
      var decision := Decide(true, Some(args), Ok(TargetsOf(known))).0;
      && (decision.RunOn? <==> AllAccepted(patterns)) && (!decision.RunOn? ==> decision.ErrorResult?)
      && (decision.RunOn? ==>
           && Distinct(decision.targets)
           && forall t :: t in decision.targets <==> exists p :: p in patterns && Chosen(p, known, t))
  {
    var patterns := DecodeStrings(args[CLUSTERS]).value;
    var decision := Decide(true, Some(args), Ok(TargetsOf(known))).0;
    ListingRoundTrip(known);
    if patterns != [] && AllAccepted(patterns) {
      var listed := SlashFreeOf(known);
      assert Split("", SLASH) == [""] && !Accepted("");
      LenientDedups(patterns, listed);
      LenientMeetsSpec(patterns, Ok(listed), decision.targets);
      forall p, t | p in patterns ensures Answers(p, listed, t) <==> Chosen(p, known, t) {
        AnswersIsChosen(p, known, t);
      }
    }
  }
}
