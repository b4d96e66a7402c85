/**
 The composite cache keys of internal/capi/store.go: when two of them can collide.
 */
module Keys {
  import opened Text

  function ClusterListKey(kubeconfigName: string, context: string): string {
    kubeconfigName + ":" + context
  }

  function KubeconfigKey(kubeconfigName: string, context: string, namespace: string, clusterName: string): string {
    kubeconfigName + ":" + context + ":" + namespace + ":" + clusterName
  }

  // ---------------------------------------------------------------- parts that meet

  predicate EndsWith(s: string, t: string) {
    |t| <= |s| && s[|s| - |t|..] == t
  }

  predicate SameStart(a: string, b: string) {
    a <= b || b <= a
  }

  predicate SameEnd(a: string, b: string) {
    EndsWith(a, b) || EndsWith(b, a)
  }

  lemma StartsAgree(s: string, a: string, b: string)
    requires a <= s && b <= s
    ensures SameStart(a, b)
  {
    if |a| <= |b| {
      assert b[..|a|] == s[..|a|] == a;
    } else {
      assert a[..|b|] == s[..|b|] == b;
    }
  }

  lemma EndsAgree(s: string, a: string, b: string)
    requires EndsWith(s, a) && EndsWith(s, b)
    ensures SameEnd(a, b)
  {
    if |a| <= |b| {
      assert b[|b| - |a|..] == s[|s| - |a|..];
    } else {
      assert a[|a| - |b|..] == s[|s| - |b|..];
    }
  }

  // Something that starts with two given strings and ends with two others.
  lemma Meeting(a: string, t: string, b: string, u: string) returns (c: string, d: string)
    requires SameStart(a, b) && SameEnd(t, u)
    ensures a + c + t == b + d + u
  {
    var head := if a <= b then b else a;
    var tail := if EndsWith(t, u) then t else u;
    c := head[|a|..] + tail[..|tail| - |t|];
    d := head[|b|..] + tail[..|tail| - |u|];
    assert a + c + t == (a + head[|a|..]) + (tail[..|tail| - |t|] + t) == head + tail;
    assert b + d + u == (b + head[|b|..]) + (tail[..|tail| - |u|] + u) == head + tail;
  }

  // ---------------------------------------------------------------- cluster-list keys

  // Neither kubeconfig name is the other one continued after a colon.
  predicate Separate(a: string, b: string) {
    !(a + ":" <= b) && !(b + ":" <= a)
  }

  lemma HeadWithin(a: string, b: string)
    ensures a + ":" <= b + ":" <==> a == b || a + ":" <= b
  {
    var s, t := a + ":", b + ":";
    assert s[..|a|] == a && t[..|b|] == b;
    if s <= t {
      assert t[..|s|] == s;
      if |a| == |b| {
        assert a == s[..|a|] == t[..|b|] == b;
      } else {
        assert b[..|s|] == t[..|s|];
      }
    }
  }

  lemma SeparateHeads(a: string, b: string)
    ensures a == b || !Separate(a, b) <==> SameStart(a + ":", b + ":")
  {
    HeadWithin(a, b);
    HeadWithin(b, a);
  }

  /** Two different kubeconfig names share a cluster-list key, for some contexts, exactly if
      one of them is the other continued after a colon. */
  lemma ClusterListKeysCollideIff(a: string, b: string)
    requires a != b
    ensures (exists c, d :: ClusterListKey(a, c) == ClusterListKey(b, d)) <==> !Separate(a, b)
  {
    SeparateHeads(a, b);
    if c, d :| ClusterListKey(a, c) == ClusterListKey(b, d) {
      StartsAgree(ClusterListKey(a, c), a + ":", b + ":");
    }
    if !Separate(a, b) {
      var c, d := Meeting(a + ":", "", b + ":", "");
      assert ClusterListKey(a, c) == a + ":" + c + "" && ClusterListKey(b, d) == b + ":" + d + "";
    }
  }

  /** Cluster-list keys of separate names are equal only for equal name and context. */
  lemma ClusterListKeyInjective(a: string, c: string, b: string, d: string)
    requires a == b || Separate(a, b)
    ensures ClusterListKey(a, c) == ClusterListKey(b, d) <==> a == b && c == d
  {
    if ClusterListKey(a, c) == ClusterListKey(b, d) {
      if a != b {
        ClusterListKeysCollideIff(a, b);
      }
      assert ClusterListKey(a, c)[|a| + 1..] == c && ClusterListKey(b, d)[|b| + 1..] == d;
    }
  }

  // ---------------------------------------------------------------- kubeconfig keys

  function KeyTail(namespace: string, clusterName: string): string {
    ":" + namespace + ":" + clusterName
  }

  lemma KeyParts(a: string, c: string, n: string, l: string)
    ensures KubeconfigKey(a, c, n, l) == a + ":" + c + KeyTail(n, l)
    ensures a + ":" <= KubeconfigKey(a, c, n, l) && EndsWith(KubeconfigKey(a, c, n, l), KeyTail(n, l))
  {
    assert KubeconfigKey(a, c, n, l) == a + ":" + c + KeyTail(n, l);
  }

  /** Two kubeconfig names, each with a namespace and a cluster name, share a kubeconfig key,
      for some contexts, exactly if one name with its colon starts with the other, and one
      ":namespace:cluster" ends with the other. */
  lemma KubeconfigKeysCollideIff(a: string, n: string, l: string, b: string, m: string, k: string)
    ensures (exists c, d :: KubeconfigKey(a, c, n, l) == KubeconfigKey(b, d, m, k)) <==>
      SameStart(a + ":", b + ":") && SameEnd(KeyTail(n, l), KeyTail(m, k))
  {
    if c, d :| KubeconfigKey(a, c, n, l) == KubeconfigKey(b, d, m, k) {
      KeyParts(a, c, n, l);
      KeyParts(b, d, m, k);
      StartsAgree(KubeconfigKey(a, c, n, l), a + ":", b + ":");
      EndsAgree(KubeconfigKey(a, c, n, l), KeyTail(n, l), KeyTail(m, k));
    }
    if SameStart(a + ":", b + ":") && SameEnd(KeyTail(n, l), KeyTail(m, k)) {
      var c, d := Meeting(a + ":", KeyTail(n, l), b + ":", KeyTail(m, k));
      KeyParts(a, c, n, l);
      KeyParts(b, d, m, k);
    }
  }

  /** Within one such triple the key determines the context. */
  lemma ContextIsDetermined(a: string, c: string, d: string, n: string, l: string)
    ensures KubeconfigKey(a, c, n, l) == KubeconfigKey(a, d, n, l) <==> c == d
  {
    KeyParts(a, c, n, l);
    KeyParts(a, d, n, l);
    var s, t := KubeconfigKey(a, c, n, l), KubeconfigKey(a, d, n, l);
    assert s[|a| + 1..|s| - |KeyTail(n, l)|] == c && t[|a| + 1..|t| - |KeyTail(n, l)|] == d;
  }

  // A tail that ends with a shorter one has a colon after its second.
  lemma LongerTailHasColon(n: string, l: string, m: string, k: string)
    requires EndsWith(KeyTail(n, l), KeyTail(m, k)) && (n, l) != (m, k)
    ensures !Free(n, ':') || !Free(l, ':')
  {
    var s, t := KeyTail(n, l), KeyTail(m, k);
    var i := |s| - |t|;
    assert s[i] == t[0] == ':' && s[i + 1 + |m|] == t[1 + |m|] == ':';
    assert s[1..1 + |n|] == n && s[2 + |n|..] == l;
    assert t[1..1 + |m|] == m && t[2 + |m|..] == k;
    if 0 < i <= |n| {
      assert n[i - 1] == s[i];
    } else if i > |n| + 1 {
      assert l[i - |n| - 2] == s[i];
    } else if i == |n| + 1 {
      assert l[|m|] == s[i + 1 + |m|];
    } else if |m| < |n| {
      assert n[|m|] == s[1 + |m|];
    } else if |n| < |m| {
      assert l[|m| - |n| - 1] == s[1 + |m|];
    }
  }

  /** With separate names and colon-free namespaces and cluster names, whatever the contexts,
      the key determines all four parts. */
  lemma KubeconfigKeyInjective(a: string, c: string, n: string, l: string,
                               b: string, d: string, m: string, k: string)
    requires a == b || Separate(a, b)
    requires Free(n, ':') && Free(l, ':') && Free(m, ':') && Free(k, ':')
    ensures KubeconfigKey(a, c, n, l) == KubeconfigKey(b, d, m, k) <==> (a, c, n, l) == (b, d, m, k)
  {
    if KubeconfigKey(a, c, n, l) == KubeconfigKey(b, d, m, k) {
      KubeconfigKeysCollideIff(a, n, l, b, m, k);
      SeparateHeads(a, b);
      if (n, l) != (m, k) {
        if EndsWith(KeyTail(n, l), KeyTail(m, k)) {
          LongerTailHasColon(n, l, m, k);
        } else {
          LongerTailHasColon(m, k, n, l);
        }
      }
      ContextIsDetermined(a, c, d, n, l);
    }
  }

  /** Every cluster whose context holds a colon has a twin of the same kubeconfig under the
      same key: the part of the context after the colon moved into the namespace. */
  lemma NamespaceColonCollides(a: string, c: string, x: string, n: string, l: string)
    ensures KubeconfigKey(a, c + ":" + x, n, l) == KubeconfigKey(a, c, x + ":" + n, l)
  {
    var s, t := KubeconfigKey(a, c + ":" + x, n, l), KubeconfigKey(a, c, x + ":" + n, l);
    assert s == t;
  }
}
