// strings.Split and strings.Join for a one-character separator.
module Text {
  function Split(s: string, sep: char): (parts: seq<string>)
    ensures |parts| >= 1
  {
    if s == "" then [""]
    else
      var rest := Split(s[1..], sep);
      if s[0] == sep then [""] + rest else [[s[0]] + rest[0]] + rest[1..]
  }

  function Join(parts: seq<string>, sep: char): string {
    if parts == [] then ""
    else if |parts| == 1 then parts[0]
    else parts[0] + [sep] + Join(parts[1..], sep)
  }

  predicate Free(s: string, sep: char) {
    sep !in s
  }

  ghost predicate AllFree(parts: seq<string>, sep: char) {
    forall i :: 0 <= i < |parts| ==> Free(parts[i], sep)
  }

  lemma {:induction false} SplitIsFree(s: string, sep: char)
    ensures AllFree(Split(s, sep), sep)
  {
    if s == "" {
    } else {
      SplitIsFree(s[1..], sep);
    }
  }

  /** Splitting never loses anything: joining the parts gives the string back. */
  lemma {:induction false} JoinSplit(s: string, sep: char)
    ensures Join(Split(s, sep), sep) == s
  {
    if s == "" {
    } else {
      JoinSplit(s[1..], sep);
      var rest := Split(s[1..], sep);
      if s[0] == sep {
        assert ([""] + rest)[1..] == rest;
      } else {
        assert ([[s[0]] + rest[0]] + rest[1..])[1..] == rest[1..];
      }
    }
  }

  lemma {:induction false} SplitFree(s: string, sep: char)
    ensures Split(s, sep) == [s] <==> Free(s, sep)
    ensures |Split(s, sep)| == 1 <==> Free(s, sep)
  {
    if s == "" {
    } else {
      SplitFree(s[1..], sep);
      assert s == [s[0]] + s[1..];
    }
  }

  /** Splitting at a separator splits each side. */
  lemma {:induction false} SplitConcat(a: string, b: string, sep: char)
    ensures Split(a + [sep] + b, sep) == Split(a, sep) + Split(b, sep)
  {
    var s := a + [sep] + b;
    if a == "" {
      assert s[1..] == b;
    } else {
      SplitConcat(a[1..], b, sep);
      assert s[1..] == a[1..] + [sep] + b;
    }
  }

  lemma {:induction false} JoinConcat(a: seq<string>, b: seq<string>, sep: char)
    requires a != [] && b != []
    ensures Join(a + b, sep) == Join(a, sep) + [sep] + Join(b, sep)
  {
    if |a| == 1 {
      assert (a + b)[1..] == b;
    } else {
      JoinConcat(a[1..], b, sep);
      assert (a + b)[1..] == a[1..] + b;
    }
  }

  /** Parts without separators survive joining and splitting. */
  lemma {:induction false} SplitJoin(parts: seq<string>, sep: char)
    requires parts != [] && AllFree(parts, sep)
    ensures Split(Join(parts, sep), sep) == parts
  {
    SplitFree(parts[0], sep);
    if |parts| > 1 {
      SplitConcat(parts[0], Join(parts[1..], sep), sep);
      SplitJoin(parts[1..], sep);
    }
  }

  /** Joining and splitting gives back as many parts exactly if all are separator-free. */
  lemma {:induction false} SplitJoinCount(parts: seq<string>, sep: char)
    requires parts != []
    ensures |Split(Join(parts, sep), sep)| >= |parts|
    ensures |Split(Join(parts, sep), sep)| == |parts| <==> AllFree(parts, sep)
  {
    SplitFree(parts[0], sep);
    if |parts| > 1 {
      SplitConcat(parts[0], Join(parts[1..], sep), sep);
      SplitJoinCount(parts[1..], sep);
      assert AllFree(parts, sep) <==> Free(parts[0], sep) && AllFree(parts[1..], sep) by {
        assert parts == [parts[0]] + parts[1..];
      }
    }
  }

  // t is p, or continues p after a separator.
  predicate PathPrefix(p: string, t: string, sep: char) {
    t == p || p + [sep] <= t
  }

  /** A path prefix is a prefix of the segments. */
  lemma PathPrefixIsSegmentPrefix(p: string, t: string, sep: char)
    ensures PathPrefix(p, t, sep) <==> Split(p, sep) <= Split(t, sep)
  {
    if p + [sep] <= t {
      var rest := t[|p| + 1..];
      assert t == p + [sep] + rest;
      SplitConcat(p, rest, sep);
    }
    if Split(p, sep) <= Split(t, sep) {
      var rest := Split(t, sep)[|Split(p, sep)|..];
      assert Split(t, sep) == Split(p, sep) + rest;
      JoinSplit(p, sep);
      JoinSplit(t, sep);
      if rest == [] {
        assert Split(t, sep) == Split(p, sep);
      } else {
        JoinConcat(Split(p, sep), rest, sep);
      }
    }
  }
}
