/** Derived names identify their owner. */
module Names {
  import opened Text
  import opened Resources

  lemma SameEnding(a: string, s: string, b: string, t: string, i: nat)
    requires a + s == b + t && i < |s| && i < |t|
    ensures s[|s| - 1 - i] == t[|t| - 1 - i]
  {
    var w := a + s;
    assert w[|w| - 1 - i] == s[|s| - 1 - i];
    assert (b + t)[|w| - 1 - i] == t[|t| - 1 - i];
  }

  lemma SamePrefix(a: string, b: string, s: string)
    requires a + s == b + s
    ensures a == b
  {
    assert a == (a + s)[..|a|] && b == (b + s)[..|b|];
  }

  /** No suffix of a policy member is the end of another's, so a member's name tells both
      its service account and its role. */
  lemma MemberNameInjective(a: string, r: Role, b: string, q: Role)
    requires a + Suffix(r) == b + Suffix(q)
    ensures a == b && r == q
  {
    if r == q {
      SamePrefix(a, b, Suffix(r));
    } else if r == DataAdmin || q == DataAdmin {
      SameEnding(a, Suffix(r), b, Suffix(q), 0);
    } else if r == WorkloadIdentity || q == WorkloadIdentity {
      SameEnding(a, Suffix(r), b, Suffix(q), 2);
    } else {
      SameEnding(a, Suffix(r), b, Suffix(q), 14);
    }
  }

  /** The two rules of a target have names that no other target's rules have, unless the
      targets share a name. */
  lemma RuleNameInjective(t: Target, d: Direction, u: Target, e: Direction)
    requires RuleName(t, d) == RuleName(u, e)
    ensures NameOf(t) == NameOf(u) && d == e
  {
    var s, r := if d.ToGateway? then "-to-gateway" else "-from-gateway", if e.ToGateway? then "-to-gateway" else "-from-gateway";
    if d != e {
      SameEnding(NameOf(t), s, NameOf(u), r, 8);
    } else {
      SamePrefix(NameOf(t), NameOf(u), s);
    }
  }

  lemma LastDash(p: string, d: string)
    requires '-' !in d
    ensures Namespace(p, d)[|p|] == '-'
    ensures forall i :: |p| < i < |Namespace(p, d)| ==> Namespace(p, d)[i] != '-'
  {
    forall i | |p| < i < |Namespace(p, d)| ensures Namespace(p, d)[i] != '-' {
      assert Namespace(p, d)[i] == d[i - |p| - 1];
      assert d[i - |p| - 1] in d;
    }
  }

  /** `project-domain` tells the two apart when no domain holds a dash. */
  lemma NamespaceInjective(p: string, d: string, q: string, e: string)
    requires '-' !in d && '-' !in e && Namespace(p, d) == Namespace(q, e)
    ensures p == q && d == e
  {
    var w := Namespace(p, d);
    LastDash(p, d);
    LastDash(q, e);
    assert p == w[..|p|] && q == w[..|q|];
    assert d == w[|p| + 1..] && e == w[|q| + 1..];
  }

  /** The dash-free side condition is needed: these two teams share one namespace. */
  lemma NamespaceCollides()
    ensures Namespace("a", "b-c") == Namespace("a-b", "c") && "a" != "a-b"
  {
    assert Namespace("a", "b-c") == "a-b-c" == Namespace("a-b", "c");
  }

  /** A truncated name is at most six characters longer than its limit, and two of them
      differ whenever their digests do. */
  lemma TruncatedDistinct(cfg: Config, a: string, b: string, limit: nat)
    ensures |Truncated(cfg, a, limit)| <= limit + 6
    ensures Truncated(cfg, a, limit) == (if |a| <= limit then a else a[..limit]) + "-" + cfg.digest(a)
    ensures cfg.digest(a) != cfg.digest(b) ==> Truncated(cfg, a, limit) != Truncated(cfg, b, limit)
  {
    var x, y := Truncated(cfg, a, limit), Truncated(cfg, b, limit);
    assert a[..|a|] == a;
    if x == y {
      assert cfg.digest(a) == x[|x| - 5..];
      assert cfg.digest(b) == y[|y| - 5..];
    }
  }

  /** The name is the full one with its digest, cut only where it would not fit and then to
      fill what there is room for. */
  ghost predicate Fitted(cfg: Config, full: string, name: string, room: nat)
    requires room >= 6
  {
    && |name| <= room
    && (|full| + 6 <= room ==> name == full + "-" + cfg.digest(full))
    && (|full| + 6 > room ==> |name| == room && name[..room - 6] == full[..room - 6] && name[room - 5..] == cfg.digest(full))
  }

  /** Policy names fit a label value, Google service account names fit their limit. */
  lemma NameLengths(cfg: Config, l: Labels, spec: Spec, name: string)
    ensures Fitted(cfg, l.project + "-" + l.domain + "-" + l.account + "-" + Dashed(l.host), PolicyName(cfg, l), 63)
    ensures Fitted(cfg, name + "-" + spec.domain + "-" + spec.project, GoogleName(cfg, spec, name), 28)
  {
    TruncatedDistinct(cfg, l.project + "-" + l.domain + "-" + l.account + "-" + Dashed(l.host), "", 57);
    TruncatedDistinct(cfg, name + "-" + spec.domain + "-" + spec.project, "", 22);
  }

  /** CloudSQL instances with dotted addresses never share a host or a name. */
  lemma SqlHostInjective(ip: string, jp: string)
    requires '-' !in ip && '-' !in jp && SqlHost(ip) == SqlHost(jp)
    ensures ip == jp
  {
    SamePrefix(Dashed(ip), Dashed(jp), ".cloudsql");
    DashedInjective(ip, jp);
  }

  lemma SqlNameInjective(ip: string, jp: string)
    requires '-' !in ip && '-' !in jp && NameOf(CloudSQL(ip)) == NameOf(CloudSQL(jp))
    ensures ip == jp
  {
    assert Dashed(ip) == NameOf(CloudSQL(ip))[9..] && Dashed(jp) == NameOf(CloudSQL(jp))[9..];
    DashedInjective(ip, jp);
  }
}
