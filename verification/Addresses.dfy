/**
 What a tunnel is named by: the API server's address (internal/proxy/manager.go:27-29), and
 when two addresses share a tunnel.  At the coarse granularity of module Leases.
 */
module Addresses {
  import opened Basics
  import opened Text
  import opened Leases
  import opened TunnelManager

  // The address b:q is spelled like a:p because a part of b is taken for a part of a's port.
  ghost predicate SpelledAlike(a: string, p: string, b: string, q: string) {
    exists r :: b == a + ":" + r && p == r + ":" + q
  }

  lemma ShorterIpFirst(a: string, p: string, b: string, q: string)
    requires TargetKey(a, p) == TargetKey(b, q) && |a| <= |b|
    ensures (a, p) == (b, q) || SpelledAlike(a, p, b, q)
  {
    var s, t := TargetKey(a, p), TargetKey(b, q);
    assert s == a + ":" + p && t == b + ":" + q;
    assert s[..|a|] == a && s[|a|] == ':' && s[|a| + 1..] == p;
    assert t[..|b|] == b && t[|b|] == ':' && t[|b| + 1..] == q;
    if |a| < |b| {
      var r := b[|a| + 1..];
      assert b[..|a|] == a && b[|a|] == ':';
      assert b == a + ":" + r;
      assert p == r + ":" + q;
    }
  }

  /** Two addresses name the same tunnel exactly if they are the same, or one is the other with
      the colon between ip and port put elsewhere. */
  lemma SameTunnelIff(a: string, p: string, b: string, q: string)
    ensures TargetKey(a, p) == TargetKey(b, q) <==>
      (a, p) == (b, q) || SpelledAlike(a, p, b, q) || SpelledAlike(b, q, a, p)
  {
    if TargetKey(a, p) == TargetKey(b, q) {
      if |a| <= |b| {
        ShorterIpFirst(a, p, b, q);
      } else {
        ShorterIpFirst(b, q, a, p);
      }
    }
    if r :| b == a + ":" + r && p == r + ":" + q {
      assert TargetKey(a, p) == a + ":" + (r + ":" + q) == TargetKey(b, q);
    }
    if r :| a == b + ":" + r && q == r + ":" + p {
      assert TargetKey(b, q) == b + ":" + (r + ":" + p) == TargetKey(a, p);
    }
  }

  lemma ColonWithin(r: string, q: string)
    ensures !Free(r + ":" + q, ':')
  {
    assert (r + ":" + q)[|r|] == ':';
  }

  /** Addresses with colon-free ports name different tunnels unless they are the same, whatever
      colons their ips hold. */
  lemma PortsTellTunnelsApart(a: string, p: string, b: string, q: string)
    requires Free(p, ':') && Free(q, ':')
    ensures TargetKey(a, p) == TargetKey(b, q) <==> (a, p) == (b, q)
  {
    SameTunnelIff(a, p, b, q);
    forall r: string ensures !Free(r + ":" + q, ':') && !Free(r + ":" + p, ':') {
      ColonWithin(r, q);
      ColonWithin(r, p);
    }
  }

  /** Asking for a tunnel to one address leaves the tunnel to any other as it is. */
  lemma OtherAddressesUntouched(v: Tunnels, ip: string, port: string, ttl: int, st: Startup,
                                otherIp: string, otherPort: string)
    requires Coherent(v) && Free(port, ':') && Free(otherPort, ':') && (ip, port) != (otherIp, otherPort)
    ensures var v' := Ensure(v, TargetKey(ip, port), ttl, st).0;
      var k := TargetKey(otherIp, otherPort);
      && Coherent(v') && (k in LeaseOf(v') <==> k in LeaseOf(v))
      && (k in LeaseOf(v) ==> LeaseOf(v')[k] == LeaseOf(v)[k])
  {
    PortsTellTunnelsApart(ip, port, otherIp, otherPort);
    EnsureLeases(v, TargetKey(ip, port), ttl, st);
  }

  // The operation asks for a tunnel to some other address.
  ghost predicate AsksElsewhere(op: Op, ip: string, port: string) {
    op.OpEnsure? ==> exists a, p :: op.k == TargetKey(a, p) && (a, p) != (ip, port) && Free(p, ':')
  }

  /** An address that no earlier ensure asked for gets a process of its own: on any run, if one
      can be started, it is registered under the address with a lease of the ttl, and if none
      can, the ensure fails. */
  lemma NewAddressGetsItsOwnProcess(ops: seq<Op>, v: Tunnels, ip: string, port: string, ttl: int, pid: Pid)
    requires RunOps(ops) == Some(v) && Free(port, ':') && pid !in v.spawned
    requires forall op :: op in ops ==> AsksElsewhere(op, ip, port)
    ensures var (v', ok) := Ensure(v, TargetKey(ip, port), ttl, Up(pid));
      && ok && v'.spawned == v.spawned + {pid} && Coherent(v')
      && TargetKey(ip, port) in LeaseOf(v')
      && LeaseOf(v')[TargetKey(ip, port)] == Lease(pid, v.now + ttl)
    ensures !Ensure(v, TargetKey(ip, port), ttl, SpawnFails).1
    ensures !Ensure(v, TargetKey(ip, port), ttl, ExitsEarly(pid)).1
  {
    var k := TargetKey(ip, port);
    RunCoherent(ops, v);
    if k in v.entries {
      var i := LeaseIsSetByLastEnsure(ops, v, k);
      assert ops[i] in ops;
      var a, p :| ops[i].k == TargetKey(a, p) && (a, p) != (ip, port) && Free(p, ':');
      PortsTellTunnelsApart(a, p, ip, port);
      assert false;
    }
    EnsureLeases(v, k, ttl, Up(pid));
  }
}
