/**
 The configured kubeconfigs in the order of their names: sortedKubeconfigs of
 internal/server/server.go.
 */
module Sources {
  import opened Kubeconfigs
  import opened ReadThrough
  import opened Resolve

  // The order of sort.Strings.
  predicate Before(a: string, b: string) {
    if b == "" then false
    else if a == "" then true
    else a[0] < b[0] || (a[0] == b[0] && Before(a[1..], b[1..]))
  }

  lemma {:induction false} BeforeTotal(a: string, b: string)
    ensures a == b || Before(a, b) || Before(b, a)
  {
    if a == "" || b == "" {
    } else {
      BeforeTotal(a[1..], b[1..]);
      assert a == [a[0]] + a[1..] && b == [b[0]] + b[1..];
    }
  }

  lemma {:induction false} BeforeTransitive(a: string, b: string, c: string)
    requires Before(a, b) && Before(b, c)
    ensures Before(a, c)
  {
    if a == "" {
    } else {
      if a[0] == b[0] == c[0] {
        BeforeTransitive(a[1..], b[1..], c[1..]);
      }
    }
  }

  lemma {:induction false} BeforeIrreflexive(a: string)
    ensures !Before(a, a)
  {
    if a == "" {
    } else {
      BeforeIrreflexive(a[1..]);
    }
  }

  // The first place where the strings differ decides, and a string comes before its extensions.
  ghost predicate DiffersFirst(a: string, b: string, i: nat) {
    i < |a| && i < |b| && a[..i] == b[..i] && a[i] < b[i]
  }

  /** The order is the lexicographic one. */
  lemma {:induction false} BeforeIsLexicographic(a: string, b: string)
    ensures Before(a, b) <==> a < b || exists i: nat :: DiffersFirst(a, b, i)
  {
    if a == "" || b == "" {
    } else {
      BeforeIsLexicographic(a[1..], b[1..]);
      assert a == [a[0]] + a[1..] && b == [b[0]] + b[1..];
      if a[0] == b[0] {
        if i: nat :| DiffersFirst(a[1..], b[1..], i) {
          assert a[..i + 1] == [a[0]] + a[1..][..i] && b[..i + 1] == [b[0]] + b[1..][..i];
          assert DiffersFirst(a, b, i + 1);
        }
        if i: nat :| DiffersFirst(a, b, i) {
          assert a[1..][..i - 1] == a[..i][1..] && b[1..][..i - 1] == b[..i][1..];
          assert DiffersFirst(a[1..], b[1..], i - 1);
        }
      } else if a[0] < b[0] {
        assert DiffersFirst(a, b, 0);
      } else {
        forall i: nat ensures !DiffersFirst(a, b, i) {
          assert i > 0 && i < |a| && i < |b| ==> a[..i][0] == a[0] && b[..i][0] == b[0];
        }
      }
    }
  }

  ghost predicate Ascending(names: seq<string>) {
    forall i, j :: 0 <= i < j < |names| ==> Before(names[i], names[j])
  }

  ghost predicate SortedBy(cfg: Config, names: seq<string>, sources: seq<Source>) {
    && Ascending(names) && (forall n :: n in names <==> n in cfg.sources) && |sources| == |names|
    && forall i :: 0 <= i < |names| ==> names[i] in cfg.sources && sources[i] == cfg.sources[names[i]]
  }

  // All configured sources, each once, by name.
  ghost predicate Sorted(cfg: Config, sources: seq<Source>) {
    exists names :: SortedBy(cfg, names, sources)
  }

  lemma FirstIsLeast(names: seq<string>, others: seq<string>)
    requires Ascending(names) && Ascending(others) && forall n :: n in names <==> n in others
    requires names != [] && others != []
    ensures names[0] == others[0]
  {
    assert names[0] in names && others[0] in others;
    var i :| 0 <= i < |others| && others[i] == names[0];
    var j :| 0 <= j < |names| && names[j] == others[0];
    if i > 0 && j > 0 {
      BeforeTransitive(names[0], names[j], names[0]);
      BeforeIrreflexive(names[0]);
    }
  }

  lemma RestIsSmaller(names: seq<string>, n: string)
    requires Ascending(names) && names != []
    ensures Ascending(names[1..])
    ensures n in names[1..] <==> n in names && n != names[0]
  {
    assert names == [names[0]] + names[1..];
    BeforeIrreflexive(names[0]);
  }

  lemma {:induction false} AscendingIsUnique(names: seq<string>, others: seq<string>)
    requires Ascending(names) && Ascending(others) && forall n :: n in names <==> n in others
    ensures names == others
  {
    if names == [] {
      HasMember(others);
    } else {
      assert names[0] in names;
      FirstIsLeast(names, others);
      forall n ensures n in names[1..] <==> n in others[1..] {
        RestIsSmaller(names, n);
        RestIsSmaller(others, n);
      }
      RestIsSmaller(names, "");
      RestIsSmaller(others, "");
      AscendingIsUnique(names[1..], others[1..]);
      assert names == [names[0]] + names[1..] && others == [others[0]] + others[1..];
    }
  }

  lemma SameNames(cfg: Config, names: seq<string>, a: seq<Source>, b: seq<Source>)
    requires SortedBy(cfg, names, a) && SortedBy(cfg, names, b)
    ensures a == b
  {
  }

  /** The order by name leaves no choice, so discoveries are deterministic. */
  lemma SortedIsUnique(cfg: Config, a: seq<Source>, b: seq<Source>)
    requires Sorted(cfg, a) && Sorted(cfg, b)
    ensures a == b
  {
    var m :| SortedBy(cfg, m, a);
    var n :| SortedBy(cfg, n, b);
    AscendingIsUnique(m, n);
    SameNames(cfg, m, a, b);
  }

  /** ... and every source listed is a configured one. */
  lemma SortedAreConfigured(cfg: Config, sources: seq<Source>)
    requires ConfigOk(cfg) && Sorted(cfg, sources)
    ensures forall s :: s in sources ==> Configured(cfg, s)
  {
    var names :| SortedBy(cfg, names, sources);
  }

  // Where name goes among ascending names.
  method Place(names: seq<string>, name: string) returns (i: nat)
    requires Ascending(names) && name !in names
    ensures i <= |names| && Ascending(names[..i] + [name] + names[i..])
  {
    i := 0;
    while i < |names| && Before(names[i], name)
      invariant i <= |names| && forall j :: 0 <= j < i ==> Before(names[j], name)
    {
      i := i + 1;
    }
    if i < |names| {
      BeforeTotal(names[i], name);
      assert names[i] in names;
      forall j | i < j < |names| ensures Before(name, names[j]) {
        BeforeTransitive(name, names[i], names[j]);
      }
    }
  }

  method SortNames(given: set<string>) returns (names: seq<string>)
    ensures Ascending(names) && forall n :: n in names <==> n in given
  {
    names := [];
    var todo := given;
    while todo != {}
      invariant Ascending(names) && todo <= given
      invariant forall n :: n in given <==> n in todo || n in names
      invariant forall n :: n in names ==> n !in todo
      decreases todo
    {
      var name :| name in todo;
      var i := Place(names, name);
      ghost var before := names;
      names := names[..i] + [name] + names[i..];
      assert before == before[..i] + before[i..];
      todo := todo - {name};
    }
  }

  method SortedKubeconfigs(cfg: Config) returns (out: seq<Source>)
    ensures Sorted(cfg, out)
  {
    var names := SortNames(cfg.sources.Keys);
    out := [];
    for i := 0 to |names|
      invariant |out| == i && forall j :: 0 <= j < i ==> out[j] == cfg.sources[names[j]]
    {
      assert names[i] in names;
      out := out + [cfg.sources[names[i]]];
    }
    assert forall i :: 0 <= i < |names| ==> names[i] in names;
    assert SortedBy(cfg, names, out);
  }
}
