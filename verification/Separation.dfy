/** What separated names buy: one pass is enough, the order of the resources does not
    matter, and no reconcile fails on its own account. */
module Separation {
  import opened Wrappers
  import opened Resources
  import opened Protocol
  import opened Safety
  import opened EgressSpec
  import opened Convergence

  /** Everything that was ever allowlisted. */
  datatype Scope = Scope(targets: set<Target>, policies: set<Labels>)

  ghost predicate Separated(cfg: Config, scope: Scope) {
    && (forall a, b :: a in scope.targets && b in scope.targets && Label(a) == Label(b) ==> a == b)
    && (forall a, b :: a in scope.targets && b in scope.targets && NameOf(a) == NameOf(b) ==> a == b)
    && (forall l, m :: l in scope.policies && m in scope.policies && PolicyName(cfg, l) == PolicyName(cfg, m) ==> l == m)
    && (forall l, t :: l in scope.policies && l.hostType == Internal && t in scope.targets ==> l.host != Label(t))
  }

  ghost predicate ChildWithin(scope: Scope, o: Object) {
    exists t :: t in scope.targets && o in ChildrenOf(t)
  }

  ghost function EntriesWithin(scope: Scope, side: Side): set<string> {
    LabelsOf(scope.targets, side) + if side.CloudSQLSide? then {"*"} else {}
  }

  /** The stored objects were made for the scope. */
  ghost predicate Within(cfg: Config, scope: Scope, s: Store) {
    && Keyed(s) && PoliciesNamed(cfg, s) && Gated(s) && NoOrphans(s)
    && (forall k :: k in s && s[k].Child() ==> ChildWithin(scope, s[k]))
    && (forall k :: k in s && s[k].AuthorizationPolicy? ==> s[k].labels in scope.policies)
    && (forall side :: Hosts(s, side) <= EntriesWithin(scope, side))
  }

  ghost predicate SpecsWithin(cfg: Config, scope: Scope, specs: set<Spec>) {
    && Demand(specs) <= scope.targets
    && forall spec, r :: spec in specs && Requested(cfg, spec, r) ==> r.labels in scope.policies
  }

  // ---- Ensuring stays within the scope ---------------------------------------------

  lemma ExtendsKeyed(s: Store, s': Store, ts: set<Target>)
    requires Extends(s, s', ts) && Keyed(s)
    ensures Keyed(s')
  {
    forall k | k in s' ensures s'[k].Id() == k {
      if k in s {
        assert s'[k] == s[k] || EntriesGrow(s[k], s'[k]);
      } else {
        assert MadeFor(ts, k, s'[k]);
      }
    }
  }

  lemma ExtendsChildren(scope: Scope, s: Store, s': Store, ts: set<Target>)
    requires Extends(s, s', ts) && ts <= scope.targets
    requires forall k :: k in s && s[k].Child() ==> ChildWithin(scope, s[k])
    ensures forall k :: k in s' && s'[k].Child() ==> ChildWithin(scope, s'[k])
  {
    forall k | k in s' && s'[k].Child() ensures ChildWithin(scope, s'[k]) {
      if k !in s { assert MadeFor(ts, k, s'[k]); }
    }
  }

  lemma ExtendsPolicies(s: Store, s': Store, ts: set<Target>)
    requires Extends(s, s', ts)
    ensures forall k :: k in s' && s'[k].AuthorizationPolicy? ==> k in s && s[k] == s'[k]
  {
    forall k | k in s' && s'[k].AuthorizationPolicy? ensures k in s && s[k] == s'[k] {
      if k !in s { NoPolicyMade(ts, k, s'[k]); }
    }
  }

  lemma ExtendsGated(s: Store, s': Store, ts: set<Target>)
    requires Extends(s, s', ts) && Gated(s)
    ensures Gated(s')
  {
    forall side | GatewayKey(side) in s' ensures s'[GatewayKey(side)].Gateway? && |s'[GatewayKey(side)].servers| > 0 {
      GatedMade(s, s', ts, side);
    }
  }

  lemma GrowsHosts(s: Store, s': Store, side: Side)
    requires Grows(s, s')
    ensures Hosts(s, side) <= Hosts(s', side)
  {
    if GatewayKey(side) in s { assert GatewayKey(side) in s'; }
  }

  lemma GrowsListed(s: Store, s': Store, h: string)
    requires Grows(s, s') && Listed(s, h)
    ensures Listed(s', h)
  {
    GrowsHosts(s, s', ExternalSide);
    GrowsHosts(s, s', CloudSQLSide);
  }

  lemma ServedListed(s: Store, t: Target)
    requires Served(s, t)
    ensures Listed(s, Label(t))
  {
    if t.CloudSQL? { assert |Label(t)| > 1; }
  }

  lemma ExtendsNoOrphans(s: Store, s': Store, ts: set<Target>)
    requires Extends(s, s', ts) && NoOrphans(s) && forall t :: t in ts ==> Served(s', t)
    ensures NoOrphans(s')
  {
    forall k | k in s' && EgressObject(s'[k]) ensures Listed(s', s'[k].HostLabel().value) {
      if k in s {
        assert s'[k] == s[k];
        GrowsListed(s, s', s[k].HostLabel().value);
      } else {
        NoPolicyMade(ts, k, s'[k]);
        assert MadeFor(ts, k, s'[k]);
        var t :| t in ts && s'[k] in ChildrenOf(t);
        ChildLabel(t, s'[k]);
        ServedListed(s', t);
      }
    }
  }

  lemma TargetsWithin(cfg: Config, scope: Scope, s: Store, s': Store, ts: set<Target>)
    requires Within(cfg, scope, s) && Extends(s, s', ts) && ts <= scope.targets
    requires forall t :: t in ts ==> Served(s', t)
    ensures Within(cfg, scope, s')
  {
    ExtendsKeyed(s, s', ts);
    ExtendsChildren(scope, s, s', ts);
    ExtendsPolicies(s, s', ts);
    ExtendsGated(s, s', ts);
    ExtendsNoOrphans(s, s', ts);
    forall side ensures Hosts(s', side) <= EntriesWithin(scope, side) {
      assert LabelsOf(ts, side) <= LabelsOf(scope.targets, side);
    }
  }

  lemma PoliciesWithin(cfg: Config, scope: Scope, s: Store, s': Store, spec: Spec, specs: set<Spec>)
    requires Within(cfg, scope, s) && SpecsWithin(cfg, scope, specs) && spec in specs
    requires Adds(cfg, s, s', Requests(cfg, spec, spec.accounts))
    requires forall r :: Requested(cfg, spec, r) && r.labels.hostType == External ==> Listed(s, r.labels.host)
    ensures Within(cfg, scope, s')
  {
    forall k | k in s' && k !in s
      ensures s'[k].AuthorizationPolicy? && s'[k].labels in scope.policies && s'[k].name == PolicyName(cfg, s'[k].labels)
      ensures k == s'[k].Id() && (s'[k].labels.hostType == External ==> Listed(s, s'[k].labels.host))
    {
      var r :| Requested(cfg, spec, r) && NewPolicy(cfg, r) == Some(s'[k]);
    }
    AddsHosts(cfg, s, s', Requests(cfg, spec, spec.accounts));
  }

  lemma AddsHosts(cfg: Config, s: Store, s': Store, rs: seq<Request>)
    requires Adds(cfg, s, s', rs)
    ensures forall side :: Hosts(s', side) == Hosts(s, side) && (GatewayKey(side) in s' <==> GatewayKey(side) in s)
  {
    forall side ensures GatewayKey(side) in s' <==> GatewayKey(side) in s {
      PoliciesKeepGateways(cfg, s, s', rs, side);
    }
  }

  lemma RequestHost(cfg: Config, spec: Spec, r: Request) returns (t: Target)
    requires Requested(cfg, spec, r) && r.labels.hostType == External
    ensures t in WantedTargets(spec) && Label(t) == r.labels.host
  {
    var account := RequestAsksFor(cfg, spec, spec.accounts, r);
    t :| (t in TargetsOf(account, ExternalSide) || t in TargetsOf(account, CloudSQLSide)) && Label(t) == r.labels.host;
    if t in TargetsOf(account, ExternalSide) {
      TargetsCover(spec.accounts, account, ExternalSide, t);
    } else {
      TargetsCover(spec.accounts, account, CloudSQLSide, t);
    }
  }

  lemma EnsureWithin(cfg: Config, scope: Scope, s: Store, spec: Spec, specs: set<Spec>, s': Store)
    requires Within(cfg, scope, s) && SpecsWithin(cfg, scope, specs) && spec in specs
    requires EnsureAll(cfg, s, spec) == Some(s')
    ensures Within(cfg, scope, s')
  {
    var mid := EnsureAllSplit(cfg, s, spec, s');
    var rs := Requests(cfg, spec, spec.accounts);
    assert WantedTargets(spec) <= Demand(specs);
    TargetsWithin(cfg, scope, s, mid, WantedTargets(spec));
    PoliciesAdd(cfg, mid, rs, s', rs);
    forall r | Requested(cfg, spec, r) && r.labels.hostType == External ensures Listed(mid, r.labels.host) {
      var t := RequestHost(cfg, spec, r);
      ServedListed(mid, t);
    }
    PoliciesWithin(cfg, scope, mid, s', spec, specs);
  }

  // ---- What cleaning leaves --------------------------------------------------------

  ghost predicate Stale(s: Store, specs: set<Spec>, h: string) {
    exists side :: h in Hosts(s, side) && h !in InUse(specs, side)
  }

  /** Some cleanup has a reason to remove a policy with these labels. */
  ghost predicate Doomed(s: Store, spec: Spec, specs: set<Spec>, l: Labels) {
    (l.account != "" && Dropped(spec, l)) || RevokedByAny(specs, l) || Stale(s, specs, l.host)
  }

  /** No cleanup has a reason to remove the object. */
  ghost predicate Spared(s: Store, spec: Spec, specs: set<Spec>, o: Object) {
    && (o.AuthorizationPolicy? ==> !Doomed(s, spec, specs, o.labels))
    && (o.Child() ==> !Stale(s, specs, o.HostLabel().value))
  }

  lemma SweepSpares(s: Store, side: Side, keep: set<string>, k: Key)
    requires k in s && s[k].Id() == k && !s[k].Gateway? && Gated(s)
    requires s[k].HostLabel().Some? ==> s[k].HostLabel().value !in Hosts(s, side) - keep
    ensures k in Sweep(s, side, keep) && Sweep(s, side, keep)[k] == s[k]
  {
  }

  lemma CleanSpares(s: Store, spec: Spec, specs: set<Spec>, k: Key)
    requires Gated(s) && k in s && s[k].Id() == k && !s[k].Gateway? && Spared(s, spec, specs, s[k])
    ensures k in CleanAll(s, spec, specs) && CleanAll(s, spec, specs)[k] == s[k]
  {
    var s2 := WithoutRevoked(WithoutDropped(s, spec), specs);
    assert k in s2 && s2[k] == s[k];
    assert forall side :: Hosts(s2, side) == Hosts(s, side);
    assert Gated(s2);
    SweepSpares(s2, ExternalSide, InUse(specs, ExternalSide), k);
    CleanSideGated(s2, specs, ExternalSide);
    CleanSideKeeps(s2, specs, ExternalSide, CloudSQLSide);
    SweepSpares(CleanSide(s2, specs, ExternalSide), CloudSQLSide, InUse(specs, CloudSQLSide), k);
  }

  /** The host of a demanded target is never stale, on either side. */
  lemma DemandedFresh(cfg: Config, scope: Scope, s: Store, specs: set<Spec>, t: Target)
    requires Within(cfg, scope, s) && Separated(cfg, scope) && SpecsWithin(cfg, scope, specs) && t in Demand(specs)
    ensures !Stale(s, specs, Label(t))
  {
    forall side | Label(t) in Hosts(s, side) ensures Label(t) in InUse(specs, side) {
      if side != SideOf(t) {
        assert Hosts(s, side) <= EntriesWithin(scope, side);
        assert Label(t) !in LabelsOf(scope.targets, side);
      }
    }
  }

  lemma InternalFresh(cfg: Config, scope: Scope, s: Store, specs: set<Spec>, l: Labels)
    requires Within(cfg, scope, s) && Separated(cfg, scope) && l in scope.policies && l.hostType == Internal
    ensures !Stale(s, specs, l.host)
  {
    forall side | l.host in Hosts(s, side) ensures l.host in InUse(specs, side) {
      assert Hosts(s, side) <= EntriesWithin(scope, side);
      assert l.host !in LabelsOf(scope.targets, side);
    }
  }

  // ---- Served targets hold exactly their objects -----------------------------------

  ghost predicate Holds(s: Store, o: Object) {
    o.Id() in s && s[o.Id()] == o
  }

  /** Under separated names the existence checks find the target's own objects. */
  lemma ChildByLabel(cfg: Config, scope: Scope, s: Store, t: Target, k: Key)
    requires Within(cfg, scope, s) && Separated(cfg, scope) && t in scope.targets
    requires k in s && s[k].Child() && s[k].HostLabel() == Some(Label(t))
    ensures s[k] in ChildrenOf(t)
  {
    var u :| u in scope.targets && s[k] in ChildrenOf(u);
    ChildLabel(u, s[k]);
  }

  lemma VirtualServiceByName(cfg: Config, scope: Scope, s: Store, t: Target)
    requires Within(cfg, scope, s) && Separated(cfg, scope) && t in scope.targets
    requires NewVirtualService(t).Id() in s
    ensures Holds(s, NewVirtualService(t))
  {
    var k := NewVirtualService(t).Id();
    assert s[k].Id() == k && s[k].VirtualService?;
    var u :| u in scope.targets && s[k] in ChildrenOf(u);
    VirtualServiceOf(u, s[k]);
    VirtualServiceOf(t, NewVirtualService(t));
  }

  lemma VirtualServiceOf(t: Target, o: Object)
    requires o in ChildrenOf(t) && o.VirtualService?
    ensures o == NewVirtualService(t) && o.name == NameOf(t)
  {
  }

  lemma RuleOf(t: Target, o: Object)
    requires o in ChildrenOf(t) && o.DestinationRule?
    ensures o == NewRule(t, o.direction) && o.name == RuleName(t, o.direction) && o.host == Label(t)
  {
  }

  lemma ServiceEntryOf(t: Target, o: Object)
    requires o in ChildrenOf(t) && o.ServiceEntry?
    ensures o == NewServiceEntry(t) && o.name == NameOf(t) && o.host == Label(t)
  {
  }

  lemma RuleByLabel(cfg: Config, scope: Scope, s: Store, t: Target, d: Direction)
    requires Within(cfg, scope, s) && Separated(cfg, scope) && t in scope.targets
    requires Any(s, ByRule(Label(t), d))
    ensures Holds(s, NewRule(t, d))
  {
    var k :| k in s && Matches(ByRule(Label(t), d), s[k]);
    ChildByLabel(cfg, scope, s, t, k);
    RuleOf(t, s[k]);
  }

  lemma RuleDirections(t: Target)
    ensures NewRule(t, ToGateway).direction == ToGateway && NewRule(t, FromGateway).direction == FromGateway
    ensures NewVirtualService(t).VirtualService? && NewServiceEntry(t).ServiceEntry?
  {
  }

  lemma EntryByLabel(cfg: Config, scope: Scope, s: Store, t: Target)
    requires Within(cfg, scope, s) && Separated(cfg, scope) && t in scope.targets
    requires Any(s, ByHost(ServiceEntries, Label(t)))
    ensures Holds(s, NewServiceEntry(t))
  {
    var k :| k in s && Matches(ByHost(ServiceEntries, Label(t)), s[k]);
    assert s[k].ServiceEntry?;
    ChildByLabel(cfg, scope, s, t, k);
    ServiceEntryOf(t, s[k]);
  }

  lemma ServedExactly(cfg: Config, scope: Scope, s: Store, t: Target)
    requires Within(cfg, scope, s) && Separated(cfg, scope) && t in scope.targets && Served(s, t)
    ensures forall o :: o in ChildrenOf(t) ==> Holds(s, o)
  {
    VirtualServiceByName(cfg, scope, s, t);
    RuleByLabel(cfg, scope, s, t, ToGateway);
    RuleByLabel(cfg, scope, s, t, FromGateway);
    EntryByLabel(cfg, scope, s, t);
  }

  lemma HoldsServes(s: Store, t: Target)
    requires forall o :: o in ChildrenOf(t) ==> Holds(s, o)
    requires GatewayServes(s, SideOf(t), Label(t))
    ensures Served(s, t)
  {
    RuleServes(s, t, ToGateway);
    RuleServes(s, t, FromGateway);
    assert Holds(s, NewVirtualService(t)) && Holds(s, NewServiceEntry(t));
    assert Matches(ByHost(ServiceEntries, Label(t)), NewServiceEntry(t));
  }

  lemma RuleServes(s: Store, t: Target, d: Direction)
    requires Holds(s, NewRule(t, d))
    ensures Any(s, ByRule(Label(t), d))
  {
    assert Matches(ByRule(Label(t), d), NewRule(t, d));
  }

  // ---- Cleaning spares what any resource needs -------------------------------------

  lemma GatewaySurvives(s: Store, spec: Spec, specs: set<Spec>, t: Target)
    requires Gated(s) && t in Demand(specs) && GatewayKey(SideOf(t)) in s
    ensures GatewayServes(CleanAll(s, spec, specs), SideOf(t), Label(t))
  {
    var side := SideOf(t);
    assert Label(t) in InUse(specs, side);
    CleanAllTidy(s, spec, specs);
    CleanAllPresent(s, spec, specs, side);
    TidyServes(CleanAll(s, spec, specs), specs, side, Label(t));
  }

  lemma TidyServes(s: Store, specs: set<Spec>, side: Side, h: string)
    requires TidySide(s, specs, side) && GatewayKey(side) in s && h in InUse(specs, side)
    ensures GatewayServes(s, side, h)
  {
  }

  /** No reconcile removes a gateway entry or an object that any resource's current
      specification asks for. */
  lemma ServedSurvives(cfg: Config, scope: Scope, s: Store, spec: Spec, specs: set<Spec>, t: Target)
    requires Within(cfg, scope, s) && Separated(cfg, scope) && SpecsWithin(cfg, scope, specs)
    requires t in Demand(specs) && Served(s, t)
    ensures Served(CleanAll(s, spec, specs), t)
  {
    ServedExactly(cfg, scope, s, t);
    DemandedFresh(cfg, scope, s, specs, t);
    forall o | o in ChildrenOf(t) ensures Holds(CleanAll(s, spec, specs), o) {
      ChildLabel(t, o);
      CleanSpares(s, spec, specs, o.Id());
    }
    GatewaySurvives(s, spec, specs, t);
    HoldsServes(CleanAll(s, spec, specs), t);
  }

  /** Under separated names the policy under a request's name is the one it asks for. */
  lemma PolicyByName(cfg: Config, scope: Scope, s: Store, r: Request)
    requires Within(cfg, scope, s) && Separated(cfg, scope) && r.labels in scope.policies && Granted(cfg, s, r)
    ensures var k := PolicyKey(cfg, r.labels); k in s && s[k].AuthorizationPolicy? && s[k].labels == r.labels
  {
    GrantedNamed(cfg, s, r);
    var k := PolicyKey(cfg, r.labels);
    assert s[k].Id() == k && s[k].AuthorizationPolicy?;
    assert s[k].name == PolicyName(cfg, s[k].labels);
  }

  /** No reconcile removes a policy that any resource's current specification asks for. */
  lemma GrantedSurvives(cfg: Config, scope: Scope, s: Store, spec: Spec, specs: set<Spec>, mine: Spec, r: Request)
    requires Within(cfg, scope, s) && Separated(cfg, scope) && SpecsWithin(cfg, scope, specs)
    requires spec in specs && Governs(mine, specs) && Requested(cfg, mine, r) && Granted(cfg, s, r)
    ensures Granted(cfg, CleanAll(s, spec, specs), r)
  {
    PolicyByName(cfg, scope, s, r);
    var k := PolicyKey(cfg, r.labels);
    RequestTidy(cfg, mine, specs, r);
    NotDropped(cfg, mine, specs, spec, r);
    if r.labels.hostType == External {
      var t := RequestHost(cfg, mine, r);
      assert t in Demand(specs);
      DemandedFresh(cfg, scope, s, specs, t);
    } else {
      InternalFresh(cfg, scope, s, specs, r.labels);
    }
    CleanSpares(s, spec, specs, k);
    assert Matches(ByGrant(r.labels), s[k]);
  }

  lemma NotDropped(cfg: Config, mine: Spec, specs: set<Spec>, spec: Spec, r: Request)
    requires Governs(mine, specs) && spec in specs && Requested(cfg, mine, r)
    ensures !Dropped(spec, r.labels)
  {
    RequestTidy(cfg, mine, specs, r);
    var account := RequestAsksFor(cfg, mine, mine.accounts, r);
    assert SameOwner(spec, mine) ==> spec == mine;
  }

  // ---- One pass --------------------------------------------------------------------

  lemma SettledSurvives(cfg: Config, scope: Scope, s: Store, spec: Spec, specs: set<Spec>, mine: Spec)
    requires Within(cfg, scope, s) && Separated(cfg, scope) && SpecsWithin(cfg, scope, specs)
    requires spec in specs && Governs(mine, specs) && Settled(cfg, s, mine)
    ensures Settled(cfg, CleanAll(s, spec, specs), mine)
  {
    forall t | t in WantedTargets(mine) ensures Served(CleanAll(s, spec, specs), t) {
      assert t in Demand(specs);
      ServedSurvives(cfg, scope, s, spec, specs, t);
    }
    forall r | Requested(cfg, mine, r) ensures Granted(cfg, CleanAll(s, spec, specs), r) {
      GrantedSurvives(cfg, scope, s, spec, specs, mine, r);
    }
  }

  /** With separated names one successful pass already makes the next one the identity. */
  lemma OnePassConverges(cfg: Config, scope: Scope, s0: Store, s1: Store, spec: Spec, specs: set<Spec>)
    requires Within(cfg, scope, s0) && Separated(cfg, scope) && SpecsWithin(cfg, scope, specs) && Governs(spec, specs)
    requires EgressPass(cfg, s0, spec, specs) == Some(s1)
    ensures Settled(cfg, s1, spec) && Tidy(s1, spec, specs)
    ensures EgressPass(cfg, s1, spec, specs) == Some(s1)
  {
    var mid := EnsureAll(cfg, s0, spec).value;
    EnsureWithin(cfg, scope, s0, spec, specs, mid);
    EnsureAllSettles(cfg, s0, spec, mid);
    SettledSurvives(cfg, scope, mid, spec, specs, spec);
    PassTidy(cfg, s0, spec, specs, s1);
    SettledIdle(cfg, s1, spec);
    TidyIdle(s1, spec, specs);
  }
}
