/** Creating authorization policies. */
module PolicyReconciler {
  import opened Wrappers
  import opened Resources
  import opened Protocol
  import opened ApiServer
  import opened EgressSpec
  import opened EgressReconciler

  /** The history, the finalizer and the gateways all stand ready for this grant. */
  ghost predicate Cleared(cfg: Config, m: Monitor, name: string, spec: Spec, r: Request) {
    && spec in m.view && spec in m.live && Requested(cfg, spec, r)
    && Recorded(m.world.history, r.labels) && Held(m.world.crs, name, spec) && AccountsReady(m.world.objects, spec)
    && (r.labels.hostType == External ==> Listed(m.world.objects, r.labels.host))
  }

  ghost predicate SameHosts(s: Store, s': Store) {
    Hosts(s, ExternalSide) == Hosts(s', ExternalSide) && Hosts(s, CloudSQLSide) == Hosts(s', CloudSQLSide)
  }

  lemma StillCleared(cfg: Config, a: Moment, b: Moment, ok: bool, name: string, spec: Spec, r: Request)
    requires Ensured(a, b, ok) && SameHosts(a.world.objects, b.world.objects)
    requires Cleared(cfg, a.Known(), name, spec, r)
    ensures Cleared(cfg, b.Known(), name, spec, r)
  {
    StillReady(a.world.objects, b.world.objects, spec);
  }

  lemma PolicyCreatable(cfg: Config, m: Monitor, name: string, spec: Spec, r: Request, o: Object)
    requires Cleared(cfg, m, name, spec, r) && NewPolicy(cfg, r) == Some(o)
    ensures MayCreate(cfg, m, o) && !AccountKind(o.Id().kind) && SameHosts(m.world.objects, m.world.objects[o.Id() := o])
  {
    assert MayCreatePolicy(cfg, m, name, spec, r, o);
  }

  /** `ensureAuthorizationPolicyForHost`. */
  method EnsureGrant(c: Cluster, ghost name: string, ghost spec: Spec, r: Request) returns (ok: bool)
    requires c.Valid() && Cleared(c.cfg, c.Known(), name, spec, r)
    modifies c
    ensures c.Valid() && Ensured(old(c.Now()), c.Now(), ok) && SameHosts(old(c.world.objects), c.world.objects)
    ensures ok ==> EnsurePolicy(c.cfg, old(c.world.objects), r) == Some(c.world.objects)
    ensures !ok && c.faults == old(c.faults) ==> EnsurePolicy(c.cfg, old(c.world.objects), r) == None
  {
    var found;
    ok, found := Exists(c, ByGrant(r.labels));
    if !ok || found { return; }
    var policy := NewPolicy(c.cfg, r);
    if policy.None? { return false; }
    ghost var mid := c.Now();
    StillCleared(c.cfg, old(c.Now()), mid, true, name, spec, r);
    PolicyCreatable(c.cfg, c.Known(), name, spec, r, policy.value);
    var created := CreateEgress(c, policy.value);
    // A name that is already taken is logged and passed over.
    ok := !created.Failed?;
    EnsuredOn(old(c.Now()), mid, c.Now(), ok);
  }

  lemma PoliciesStep(cfg: Config, s: Store, mine: seq<Request>, later: seq<Request>, j: nat)
    requires j < |mine|
    ensures EnsurePolicies(cfg, s, mine[j..] + later) ==
      if EnsurePolicy(cfg, s, mine[j]).Some? then EnsurePolicies(cfg, EnsurePolicy(cfg, s, mine[j]).value, mine[j + 1..] + later) else None
  {
    assert mine[j..] + later == [mine[j]] + (mine[j + 1..] + later);
  }

  /** One list of grants, with `later` still to come. */
  method EnsureGrants(c: Cluster, ghost name: string, ghost spec: Spec, mine: seq<Request>, ghost later: seq<Request>) returns (ok: bool)
    requires c.Valid() && forall r :: r in mine + later ==> Cleared(c.cfg, c.Known(), name, spec, r)
    modifies c
    ensures c.Valid() && Ensured(old(c.Now()), c.Now(), ok) && SameHosts(old(c.world.objects), c.world.objects)
    ensures ok ==> EnsurePolicies(c.cfg, old(c.world.objects), mine + later) == EnsurePolicies(c.cfg, c.world.objects, later)
    ensures ok ==> forall r :: r in later ==> Cleared(c.cfg, c.Known(), name, spec, r)
    ensures !ok && c.faults == old(c.faults) ==> EnsurePolicies(c.cfg, old(c.world.objects), mine + later) == None
  {
    ghost var m0, result := c.Now(), EnsurePolicies(c.cfg, c.world.objects, mine + later);
    for j := 0 to |mine|
      invariant c.Valid() && Ensured(m0, c.Now(), true) && SameHosts(m0.world.objects, c.world.objects)
      invariant result == EnsurePolicies(c.cfg, c.world.objects, mine[j..] + later)
    {
      ghost var m1 := c.Now();
      PoliciesStep(c.cfg, c.world.objects, mine, later, j);
      assert mine[j] in mine + later;
      StillCleared(c.cfg, m0, m1, true, name, spec, mine[j]);
      ok := EnsureGrant(c, name, spec, mine[j]);
      EnsuredOn(m0, m1, c.Now(), ok);
      if !ok { return; }
    }
    assert mine[|mine|..] + later == later;
    forall r | r in later ensures Cleared(c.cfg, c.Known(), name, spec, r) {
      StillCleared(c.cfg, m0, c.Now(), true, name, spec, r);
    }
    ok := true;
  }

  /** The host itself and then its virtual IPs. */
  function HostGrants(spec: Spec, name: string, host: Host, onprem: OnpremHost): seq<Request> {
    [InternalRequest(spec, name, host, onprem.protocol)] + VipRequests(spec, name, host.host, onprem)
  }

  lemma InternalStep(cfg: Config, spec: Spec, name: string, hosts: seq<Host>, later: seq<Request>, j: nat)
    requires j < |hosts|
    ensures var rest := InternalRequests(cfg, spec, name, hosts[j + 1..]) + later;
      InternalRequests(cfg, spec, name, hosts[j..]) + later ==
        if hosts[j].host in cfg.onprem then HostGrants(spec, name, hosts[j], cfg.onprem[hosts[j].host]) + rest else rest
  {
    assert hosts[j..][1..] == hosts[j + 1..];
  }

  /** The internal hosts of one account: those of the on-prem map, each with its VIPs. */
  method EnsureInternalGrants(c: Cluster, ghost name: string, spec: Spec, account: Account, ghost later: seq<Request>) returns (ok: bool)
    requires c.Valid()
    requires forall r :: r in InternalRequests(c.cfg, spec, account.name, account.internal) + later ==>
      Cleared(c.cfg, c.Known(), name, spec, r)
    modifies c
    ensures c.Valid() && Ensured(old(c.Now()), c.Now(), ok) && SameHosts(old(c.world.objects), c.world.objects)
    ensures ok ==> EnsurePolicies(c.cfg, old(c.world.objects), InternalRequests(c.cfg, spec, account.name, account.internal) + later)
                   == EnsurePolicies(c.cfg, c.world.objects, later)
    ensures ok ==> forall r :: r in later ==> Cleared(c.cfg, c.Known(), name, spec, r)
    ensures !ok && c.faults == old(c.faults) ==>
      EnsurePolicies(c.cfg, old(c.world.objects), InternalRequests(c.cfg, spec, account.name, account.internal) + later) == None
  {
    var hosts := account.internal;
    ghost var m0 := c.Now();
    ghost var result := EnsurePolicies(c.cfg, c.world.objects, InternalRequests(c.cfg, spec, account.name, hosts) + later);
    for j := 0 to |hosts|
      invariant c.Valid() && Ensured(m0, c.Now(), true) && SameHosts(m0.world.objects, c.world.objects)
      invariant forall r :: r in InternalRequests(c.cfg, spec, account.name, hosts[j..]) + later ==>
        Cleared(c.cfg, c.Known(), name, spec, r)
      invariant result == EnsurePolicies(c.cfg, c.world.objects, InternalRequests(c.cfg, spec, account.name, hosts[j..]) + later)
    {
      ghost var rest := InternalRequests(c.cfg, spec, account.name, hosts[j + 1..]) + later;
      InternalStep(c.cfg, spec, account.name, hosts, later, j);
      if hosts[j].host in c.cfg.onprem {
        var mine := HostGrants(spec, account.name, hosts[j], c.cfg.onprem[hosts[j].host]);
        ghost var m1 := c.Now();
        ok := EnsureGrants(c, name, spec, mine, rest);
        EnsuredOn(m0, m1, c.Now(), ok);
        if !ok { return; }
      }
    }
    assert InternalRequests(c.cfg, spec, account.name, hosts[|hosts|..]) + later == later;
    ok := true;
  }

  /** One account: external hosts, CloudSQL instances, internal hosts, in this order. */
  method EnsureAccountGrants(c: Cluster, ghost name: string, spec: Spec, account: Account, ghost later: seq<Request>) returns (ok: bool)
    requires c.Valid()
    requires forall r :: r in AccountRequests(c.cfg, spec, account) + later ==> Cleared(c.cfg, c.Known(), name, spec, r)
    modifies c
    ensures c.Valid() && Ensured(old(c.Now()), c.Now(), ok) && SameHosts(old(c.world.objects), c.world.objects)
    ensures ok ==> EnsurePolicies(c.cfg, old(c.world.objects), AccountRequests(c.cfg, spec, account) + later)
                   == EnsurePolicies(c.cfg, c.world.objects, later)
    ensures ok ==> forall r :: r in later ==> Cleared(c.cfg, c.Known(), name, spec, r)
    ensures !ok && c.faults == old(c.faults) ==>
      EnsurePolicies(c.cfg, old(c.world.objects), AccountRequests(c.cfg, spec, account) + later) == None
  {
    var external, sql := ExternalRequests(spec, account.name, account.external), SqlRequests(spec, account.name, account.cloudSQL);
    ghost var internal := InternalRequests(c.cfg, spec, account.name, account.internal);
    assert AccountRequests(c.cfg, spec, account) + later == external + (sql + (internal + later));
    ghost var m0 := c.Now();
    ok := EnsureGrants(c, name, spec, external, sql + (internal + later));
    if !ok { return; }
    ghost var m1 := c.Now();
    ok := EnsureGrants(c, name, spec, sql, internal + later);
    EnsuredOn(m0, m1, c.Now(), ok);
    if !ok { return; }
    ghost var m2 := c.Now();
    ok := EnsureInternalGrants(c, name, spec, account, later);
    EnsuredOn(m0, m2, c.Now(), ok);
  }

  method EnsureAuthorizationPolicies(c: Cluster, ghost name: string, spec: Spec) returns (ok: bool)
    requires c.Valid() && forall r :: Requested(c.cfg, spec, r) ==> Cleared(c.cfg, c.Known(), name, spec, r)
    modifies c
    ensures c.Valid() && Ensured(old(c.Now()), c.Now(), ok) && SameHosts(old(c.world.objects), c.world.objects)
    ensures ok ==> EnsurePolicies(c.cfg, old(c.world.objects), Requests(c.cfg, spec, spec.accounts)) == Some(c.world.objects)
    ensures !ok && c.faults == old(c.faults) ==>
      EnsurePolicies(c.cfg, old(c.world.objects), Requests(c.cfg, spec, spec.accounts)) == None
  {
    var accounts := spec.accounts;
    ghost var m0, result := c.Now(), EnsurePolicies(c.cfg, c.world.objects, Requests(c.cfg, spec, accounts));
    for i := 0 to |accounts|
      invariant c.Valid() && Ensured(m0, c.Now(), true) && SameHosts(m0.world.objects, c.world.objects)
      invariant forall r :: r in Requests(c.cfg, spec, accounts[i..]) ==> Cleared(c.cfg, c.Known(), name, spec, r)
      invariant result == EnsurePolicies(c.cfg, c.world.objects, Requests(c.cfg, spec, accounts[i..]))
    {
      ghost var m1 := c.Now();
      ghost var later := Requests(c.cfg, spec, accounts[i + 1..]);
      assert Requests(c.cfg, spec, accounts[i..]) == AccountRequests(c.cfg, spec, accounts[i]) + later;
      ok := EnsureAccountGrants(c, name, spec, accounts[i], later);
      EnsuredOn(m0, m1, c.Now(), ok);
      if !ok { return; }
    }
    ok := true;
  }
}
