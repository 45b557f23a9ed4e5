/** Where egress passes lead: what a pass establishes, what later passes leave alone, and
    when one or two passes are enough. No names are assumed to be distinct here. */
module Convergence {
  import opened Wrappers
  import opened HostList
  import opened Resources
  import opened Protocol
  import opened Safety
  import opened EgressSpec

  // ---- Ensuring only adds ----------------------------------------------------------

  /** A gateway rewritten, with nothing changed but the entries. */
  ghost predicate Rewritten(was: Object, now: Object) {
    was.Gateway? && |was.servers| > 0 && now == WithHosts(was, Entries(now))
  }

  /** Name, ports, protocols and further servers stay. */
  lemma RewrittenKeeps(was: Object, now: Object)
    requires Rewritten(was, now)
    ensures now.Gateway? && now.name == was.name && |now.servers| == |was.servers|
    ensures forall i :: 0 <= i < |was.servers| ==>
      && now.servers[i].port == was.servers[i].port && now.servers[i].protocol == was.servers[i].protocol
      && (i > 0 ==> now.servers[i] == was.servers[i])
  {
  }

  /** The server that `newGateway` builds, with any entries. */
  ghost predicate HttpsGateway(o: Object) {
    o.Gateway? && o.servers == [Server(80, "HTTPS", Entries(o))]
  }

  ghost predicate EntriesGrow(was: Object, now: Object) {
    && Rewritten(was, now)
    && Elems(Entries(was)) <= Elems(Entries(now))
    && (Ascending(Entries(was)) && Elems(Entries(now)) == Elems(Entries(was)) ==> now == was)
    && (Ascending(Entries(was)) ==> Ascending(Entries(now)))
  }

  /** Nothing is lost and only gateways change, by gaining entries. */
  ghost predicate Grows(s: Store, s': Store) {
    forall k :: k in s ==> k in s' && (s'[k] == s[k] || EntriesGrow(s[k], s'[k]))
  }

  lemma GrowsTransitive(a: Store, b: Store, c: Store)
    requires Grows(a, b) && Grows(b, c)
    ensures Grows(a, c)
  {
    forall k | k in a ensures k in c && (c[k] == a[k] || EntriesGrow(a[k], c[k])) {
      assert k in b;
    }
  }

  lemma MakeGrows(s: Store, present: bool, o: Object, s': Store)
    requires Make(s, present, o) == Some(s')
    ensures Grows(s, s')
  {
  }

  lemma AddEntryGrows(s: Store, side: Side, h: string, s': Store)
    requires AddEntry(s, side, h) == Some(s')
    ensures Grows(s, s') && h in Hosts(s', side)
    ensures GatewayKey(side) in s' && Ascending(Entries(s'[GatewayKey(side)]))
    ensures |s'[GatewayKey(side)].servers| > 0
  {
    var was := s[GatewayKey(side)];
    var hosts := Elems(Entries(was)) + {h};
    assert Entries(WithHosts(was, Canon(hosts))) == Canon(hosts);
    if Ascending(Entries(was)) && hosts == Elems(Entries(was)) {
      AscendingIsCanon(Entries(was));
      assert was.servers[0 := was.servers[0].(hosts := Entries(was))] == was.servers;
    }
  }

  ghost predicate GatewayServes(s: Store, side: Side, h: string) {
    var k := GatewayKey(side);
    && k in s && s[k].Gateway? && |s[k].servers| > 0
    && Ascending(Entries(s[k])) && h in Elems(Entries(s[k]))
  }

  /** Every existence check of the target's ensure round succeeds. */
  ghost predicate Served(s: Store, t: Target) {
    && GatewayServes(s, SideOf(t), Label(t))
    && NewVirtualService(t).Id() in s
    && Any(s, ByRule(Label(t), ToGateway)) && Any(s, ByRule(Label(t), FromGateway))
    && Any(s, ByHost(ServiceEntries, Label(t)))
  }

  lemma AnyStays(s: Store, s': Store, sel: Selector)
    requires Any(s, sel) && Grows(s, s') && !sel.ByOwner?
    requires sel.ByHost? ==> sel.kind != Gateways
    ensures Any(s', sel)
  {
    var k :| k in s && Matches(sel, s[k]);
    assert k in s' && Matches(sel, s'[k]);
  }

  lemma ServedStays(s: Store, s': Store, t: Target)
    requires Served(s, t) && Grows(s, s')
    ensures Served(s', t)
  {
    AnyStays(s, s', ByRule(Label(t), ToGateway));
    AnyStays(s, s', ByRule(Label(t), FromGateway));
    AnyStays(s, s', ByHost(ServiceEntries, Label(t)));
    assert GatewayKey(SideOf(t)) in s';
  }

  /** An ensure round ends with every check satisfied, and is idle where they already are. */
  lemma ServedIdle(s: Store, t: Target)
    requires Served(s, t)
    ensures EnsureTarget(s, t) == Some(s)
  {
    var k := GatewayKey(SideOf(t));
    assert Elems(Entries(s[k])) + {Label(t)} == Elems(Entries(s[k]));
    AscendingIsCanon(Entries(s[k]));
    assert s[k].servers[0 := s[k].servers[0].(hosts := Entries(s[k]))] == s[k].servers;
    assert s[k := s[k]] == s;
  }

  // ---- Ensuring adds only what its targets call for --------------------------------

  ghost function LabelsOf(ts: set<Target>, side: Side): set<string> {
    set t | t in ts && SideOf(t) == side :: Label(t)
  }

  ghost predicate MadeFor(ts: set<Target>, k: Key, o: Object) {
    && k == o.Id()
    && (|| (exists t :: t in ts && o in ChildrenOf(t))
        || (k == GatewayKey(ExternalSide) && HttpsGateway(o) && exists t: Target :: t in ts && t.ExternalHost?))
  }

  ghost predicate Extends(s: Store, s': Store, ts: set<Target>) {
    && Grows(s, s')
    && (forall side :: Hosts(s', side) <= Hosts(s, side) + LabelsOf(ts, side))
    && (forall k :: k in s' && k !in s ==> MadeFor(ts, k, s'[k]))
  }

  lemma ExtendsTransitive(a: Store, b: Store, c: Store, ts: set<Target>)
    requires Extends(a, b, ts) && Extends(b, c, ts)
    ensures Extends(a, c, ts)
  {
    GrowsTransitive(a, b, c);
    forall k | k in c && k !in a ensures MadeFor(ts, k, c[k]) {
      if k in b { StillMadeFor(ts, k, b[k], c[k]); }
    }
    forall side ensures Hosts(c, side) <= Hosts(a, side) + LabelsOf(ts, side) {
      assert Hosts(b, side) <= Hosts(a, side) + LabelsOf(ts, side);
    }
  }

  lemma StillMadeFor(ts: set<Target>, k: Key, was: Object, now: Object)
    requires MadeFor(ts, k, was) && (now == was || EntriesGrow(was, now))
    ensures MadeFor(ts, k, now)
  {
    if now != was {
      if t :| t in ts && was in ChildrenOf(t) { ChildLabel(t, was); }
    }
  }

  lemma MakeExtends(s: Store, present: bool, o: Object, s': Store, t: Target, ts: set<Target>)
    requires Make(s, present, o) == Some(s') && o in ChildrenOf(t) && t in ts
    ensures Extends(s, s', ts)
  {
    MakeGrows(s, present, o, s');
    ChildLabel(t, o);
  }

  lemma EntryExtends(s: Store, t: Target, s': Store, ts: set<Target>)
    requires EnsureEntry(s, t) == Some(s') && t in ts
    ensures Extends(s, s', ts) && GatewayServes(s', SideOf(t), Label(t))
  {
    assert Label(t) in LabelsOf(ts, SideOf(t));
    if t.ExternalHost? {
      var s0 := Make(s, GatewayKey(ExternalSide) in s, NewGateway(t.url)).value;
      GatewayExtends(s, t, s0, ts);
      AddEntryExtends(s0, t, s', ts);
      ExtendsTransitive(s, s0, s', ts);
    } else {
      AddEntryExtends(s, t, s', ts);
    }
  }

  lemma GatewayExtends(s: Store, t: Target, s': Store, ts: set<Target>)
    requires t.ExternalHost? && t in ts && Make(s, GatewayKey(ExternalSide) in s, NewGateway(t.url)) == Some(s')
    ensures Extends(s, s', ts)
  {
    MakeGrows(s, GatewayKey(ExternalSide) in s, NewGateway(t.url), s');
    GatewaysDiffer();
    assert Label(t) in LabelsOf(ts, ExternalSide);
    assert Entries(NewGateway(t.url)) == [t.url];
  }

  lemma AddEntryExtends(s: Store, t: Target, s': Store, ts: set<Target>)
    requires t in ts && AddEntry(s, SideOf(t), Label(t)) == Some(s')
    ensures Extends(s, s', ts) && GatewayServes(s', SideOf(t), Label(t))
  {
    AddEntryGrows(s, SideOf(t), Label(t), s');
    GatewaysDiffer();
    assert Label(t) in LabelsOf(ts, SideOf(t));
  }

  lemma ChildrenExtend(s: Store, t: Target, s': Store, ts: set<Target>)
    requires EnsureChildren(s, t) == Some(s') && t in ts
    ensures Extends(s, s', ts)
  {
    var vs, to, from, se := NewVirtualService(t), NewRule(t, ToGateway), NewRule(t, FromGateway), NewServiceEntry(t);
    var s1 := Make(s, vs.Id() in s, vs).value;
    var s2 := Make(s1, Any(s1, ByRule(Label(t), ToGateway)), to).value;
    var s3 := Make(s2, Any(s2, ByRule(Label(t), FromGateway)), from).value;
    MakeExtends(s, vs.Id() in s, vs, s1, t, ts);
    MakeExtends(s1, Any(s1, ByRule(Label(t), ToGateway)), to, s2, t, ts);
    MakeExtends(s2, Any(s2, ByRule(Label(t), FromGateway)), from, s3, t, ts);
    MakeExtends(s3, Any(s3, ByHost(ServiceEntries, Label(t))), se, s', t, ts);
    ExtendsTransitive(s, s1, s2, ts);
    ExtendsTransitive(s, s2, s3, ts);
    ExtendsTransitive(s, s3, s', ts);
  }

  lemma MakeFound(s: Store, sel: Selector, o: Object, s': Store)
    requires Make(s, Any(s, sel), o) == Some(s') && Matches(sel, o)
    ensures Any(s', sel) && Grows(s, s')
  {
    if !Any(s, sel) { assert o.Id() in s' && s'[o.Id()] == o; }
  }

  lemma RuleServed(s: Store, t: Target, d: Direction, s': Store)
    requires Make(s, Any(s, ByRule(Label(t), d)), NewRule(t, d)) == Some(s')
    ensures Any(s', ByRule(Label(t), d)) && Grows(s, s')
  {
    MakeFound(s, ByRule(Label(t), d), NewRule(t, d), s');
  }

  lemma ChildrenServed(s: Store, t: Target, s': Store)
    requires EnsureChildren(s, t) == Some(s')
    ensures NewVirtualService(t).Id() in s'
    ensures Any(s', ByRule(Label(t), ToGateway)) && Any(s', ByRule(Label(t), FromGateway))
    ensures Any(s', ByHost(ServiceEntries, Label(t)))
  {
    var vs, to, from := NewVirtualService(t), NewRule(t, ToGateway), NewRule(t, FromGateway);
    var s1 := Make(s, vs.Id() in s, vs).value;
    var s2 := Make(s1, Any(s1, ByRule(Label(t), ToGateway)), to).value;
    var s3 := Make(s2, Any(s2, ByRule(Label(t), FromGateway)), from).value;
    RuleServed(s1, t, ToGateway, s2);
    RuleServed(s2, t, FromGateway, s3);
    MakeFound(s3, ByHost(ServiceEntries, Label(t)), NewServiceEntry(t), s');
    GrowsTransitive(s2, s3, s');
    AnyStays(s2, s', ByRule(Label(t), ToGateway));
    AnyStays(s3, s', ByRule(Label(t), FromGateway));
    assert vs.Id() in s1 && vs.Id() in s2 && vs.Id() in s3;
  }

  lemma TargetExtends(s: Store, t: Target, s': Store, ts: set<Target>)
    requires EnsureTarget(s, t) == Some(s') && t in ts
    ensures Extends(s, s', ts) && Served(s', t)
  {
    var s0 := EnsureEntry(s, t).value;
    EntryExtends(s, t, s0, ts);
    ChildrenExtend(s0, t, s', ts);
    ChildrenServed(s0, t, s');
    assert GatewayKey(SideOf(t)) in s';
    ExtendsTransitive(s, s0, s', ts);
  }

  /** Ensuring a list of targets serves all of them and adds nothing else. */
  lemma {:induction false} TargetsExtend(s: Store, ts: seq<Target>, s': Store, all: set<Target>)
    requires EnsureTargets(s, ts) == Some(s') && forall t :: t in ts ==> t in all
    ensures Extends(s, s', all) && forall t :: t in ts ==> Served(s', t)
    decreases |ts|
  {
    if ts != [] {
      var s1 := EnsureTarget(s, ts[0]).value;
      TargetExtends(s, ts[0], s1, all);
      TargetsExtend(s1, ts[1..], s', all);
      ExtendsTransitive(s, s1, s', all);
      ServedStays(s1, s', ts[0]);
    }
  }

  lemma {:induction false} TargetsIdle(s: Store, ts: seq<Target>)
    requires forall t :: t in ts ==> Served(s, t)
    ensures EnsureTargets(s, ts) == Some(s)
    decreases |ts|
  {
    if ts != [] {
      ServedIdle(s, ts[0]);
      TargetsIdle(s, ts[1..]);
    }
  }

  // ---- Policies --------------------------------------------------------------------

  /** The request is met, or its name is taken. */
  ghost predicate Granted(cfg: Config, s: Store, r: Request) {
    Any(s, ByGrant(r.labels)) || (NewPolicy(cfg, r).Some? && PolicyKey(cfg, r.labels) in s)
  }

  ghost predicate HasPolicy(s: Store, l: Labels) {
    exists k :: k in s && s[k].AuthorizationPolicy? && s[k].labels == l
  }

  ghost predicate Adds(cfg: Config, s: Store, s': Store, rs: seq<Request>) {
    && (forall k :: k in s ==> k in s' && s'[k] == s[k])
    && (forall k :: k in s' && k !in s ==> k == s'[k].Id() && exists r :: r in rs && NewPolicy(cfg, r) == Some(s'[k]))
  }

  lemma PolicyAdds(cfg: Config, s: Store, r: Request, s': Store, all: seq<Request>)
    requires EnsurePolicy(cfg, s, r) == Some(s') && r in all
    ensures Adds(cfg, s, s', all) && Granted(cfg, s', r)
  {
  }

  lemma GrantedStays(cfg: Config, s: Store, s': Store, r: Request)
    requires Granted(cfg, s, r) && Grows(s, s')
    ensures Granted(cfg, s', r)
  {
    if Any(s, ByGrant(r.labels)) { AnyStays(s, s', ByGrant(r.labels)); }
  }

  lemma {:induction false} PoliciesAdd(cfg: Config, s: Store, rs: seq<Request>, s': Store, all: seq<Request>)
    requires EnsurePolicies(cfg, s, rs) == Some(s') && forall r :: r in rs ==> r in all
    ensures Adds(cfg, s, s', all) && forall r :: r in rs ==> Granted(cfg, s', r)
    decreases |rs|
  {
    if rs != [] {
      var s1 := EnsurePolicy(cfg, s, rs[0]).value;
      PolicyAdds(cfg, s, rs[0], s1, all);
      PoliciesAdd(cfg, s1, rs[1..], s', all);
      GrantedStays(cfg, s1, s', rs[0]);
    }
  }

  lemma {:induction false} PoliciesIdle(cfg: Config, s: Store, rs: seq<Request>)
    requires forall r :: r in rs ==> Granted(cfg, s, r)
    ensures EnsurePolicies(cfg, s, rs) == Some(s)
    decreases |rs|
  {
    if rs != [] {
      assert rs[0] in rs;
      PoliciesIdle(cfg, s, rs[1..]);
    }
  }

  /** A granted request has a policy under its name, whoever that policy was made for. */
  lemma GrantedNamed(cfg: Config, s: Store, r: Request)
    requires Granted(cfg, s, r) && Keyed(s) && PoliciesNamed(cfg, s)
    ensures PolicyKey(cfg, r.labels) in s
  {
    if Any(s, ByGrant(r.labels)) {
      var k :| k in s && Matches(ByGrant(r.labels), s[k]);
      assert s[k].Id() == PolicyKey(cfg, r.labels);
    }
  }

  // ---- What requests ask for -------------------------------------------------------

  ghost predicate AsksFor(spec: Spec, account: Account, r: Request) {
    && r.labels.project == spec.project && r.labels.domain == spec.domain && r.labels.account == account.name
    && match r.labels.hostType
       case External => r.labels.parent == r.labels.host
         && exists t :: (t in TargetsOf(account, ExternalSide) || t in TargetsOf(account, CloudSQLSide)) && Label(t) == r.labels.host
       case Internal => r.labels.parent in HostsOf(account.internal)
  }

  lemma {:induction false} InternalAskFor(cfg: Config, spec: Spec, account: Account, hosts: seq<Host>, r: Request)
    requires r in InternalRequests(cfg, spec, account.name, hosts)
    requires forall h :: h in hosts ==> h.host in HostsOf(account.internal)
    ensures AsksFor(spec, account, r)
    decreases |hosts|
  {
    assert hosts[0] in hosts;
    if r in InternalRequests(cfg, spec, account.name, hosts[1..]) {
      InternalAskFor(cfg, spec, account, hosts[1..], r);
    }
  }

  lemma AccountAsksFor(cfg: Config, spec: Spec, account: Account, r: Request)
    requires r in AccountRequests(cfg, spec, account)
    ensures AsksFor(spec, account, r)
  {
    if r in ExternalRequests(spec, account.name, account.external) {
      var i :| 0 <= i < |account.external| && r == ExternalRequest(spec, account.name, account.external[i]);
      var t := ExternalHost(r.labels.host);
      assert TargetsOf(account, ExternalSide)[i] == t;
      assert t in TargetsOf(account, ExternalSide) && Label(t) == r.labels.host;
    } else if r in SqlRequests(spec, account.name, account.cloudSQL) {
      var i :| 0 <= i < |account.cloudSQL| && r == SqlRequest(spec, account.name, account.cloudSQL[i]);
      var t := CloudSQL(account.cloudSQL[i]);
      assert TargetsOf(account, CloudSQLSide)[i] == t;
      assert t in TargetsOf(account, CloudSQLSide) && Label(t) == r.labels.host;
    } else {
      assert forall i :: 0 <= i < |account.internal| ==> HostsOf(account.internal)[i] == account.internal[i].host;
      InternalAskFor(cfg, spec, account, account.internal, r);
    }
  }

  lemma {:induction false} RequestAsksFor(cfg: Config, spec: Spec, accounts: seq<Account>, r: Request) returns (account: Account)
    requires r in Requests(cfg, spec, accounts)
    ensures account in accounts && AsksFor(spec, account, r)
  {
    if r in AccountRequests(cfg, spec, accounts[0]) {
      account := accounts[0];
      AccountAsksFor(cfg, spec, account, r);
    } else {
      account := RequestAsksFor(cfg, spec, accounts[1..], r);
    }
  }

  lemma {:induction false} TargetsCover(accounts: seq<Account>, account: Account, side: Side, t: Target)
    requires account in accounts && t in TargetsOf(account, side)
    ensures t in Targets(accounts, side) && SideOf(t) == side
  {
    if account != accounts[0] { TargetsCover(accounts[1..], account, side, t); }
  }

  // ---- The cleanups ----------------------------------------------------------------

  lemma GatewaysDiffer()
    ensures GatewayKey(ExternalSide) != GatewayKey(CloudSQLSide)
  {
    assert EXTERNAL_GATEWAY[20] != CLOUDSQL_GATEWAY[20];
  }

  ghost predicate Gated(s: Store) {
    forall side :: GatewayKey(side) in s ==> s[GatewayKey(side)].Gateway? && |s[GatewayKey(side)].servers| > 0
  }

  ghost predicate TidyPolicies(s: Store, spec: Spec, specs: set<Spec>) {
    forall k :: k in s && s[k].AuthorizationPolicy? ==>
      && (s[k].labels.account == "" || !Dropped(spec, s[k].labels))
      && !RevokedByAny(specs, s[k].labels)
  }

  /** The gateway, if there is one, lists exactly what the allowlists ask for. */
  ghost predicate TidySide(s: Store, specs: set<Spec>, side: Side) {
    var k := GatewayKey(side);
    k in s ==> s[k].Gateway? && |s[k].servers| > 0 && Entries(s[k]) == Canon(InUse(specs, side)) && InUse(specs, side) != {}
  }

  /** Nothing is left for the cleanups to do. */
  ghost predicate Tidy(s: Store, spec: Spec, specs: set<Spec>) {
    TidyPolicies(s, spec, specs) && forall side :: TidySide(s, specs, side)
  }

  /** Every object of s' is in s, up to the entries of gateways. */
  ghost predicate Shrinks(s: Store, s': Store) {
    forall k :: k in s' ==> k in s && (s'[k] == s[k] || Rewritten(s[k], s'[k]))
  }

  lemma ShrinksTransitive(a: Store, b: Store, c: Store)
    requires Shrinks(a, b) && Shrinks(b, c)
    ensures Shrinks(a, c)
  {
    forall k | k in c ensures k in a && (c[k] == a[k] || Rewritten(a[k], c[k])) {
      assert k in b;
    }
  }

  lemma SweepShrinks(s: Store, side: Side, keep: set<string>)
    requires Gated(s)
    ensures Shrinks(s, Sweep(s, side, keep))
  {
  }

  lemma SweepTidy(s: Store, side: Side, keep: set<string>)
    requires Gated(s)
    ensures var s', k := Sweep(s, side, keep), GatewayKey(side);
      k in s' ==> s'[k].Gateway? && |s'[k].servers| > 0 && Entries(s'[k]) == Canon(keep) && keep != {}
  {
  }

  lemma CleanSideShrinks(s: Store, specs: set<Spec>, side: Side)
    requires Gated(s)
    ensures Shrinks(s, CleanSide(s, specs, side))
    ensures TidySide(CleanSide(s, specs, side), specs, side)
  {
    SweepShrinks(s, side, InUse(specs, side));
    SweepTidy(s, side, InUse(specs, side));
  }

  lemma CleanSideKeeps(s: Store, specs: set<Spec>, side: Side, other: Side)
    requires Gated(s) && other != side
    ensures GatewayKey(other) in CleanSide(s, specs, side) <==> GatewayKey(other) in s
    ensures GatewayKey(other) in s ==> CleanSide(s, specs, side)[GatewayKey(other)] == s[GatewayKey(other)]
  {
    GatewaysDiffer();
    assert GatewayKey(side) != GatewayKey(other);
  }

  lemma CleanSideGated(s: Store, specs: set<Spec>, side: Side)
    requires Gated(s)
    ensures Gated(CleanSide(s, specs, side))
  {
    var s' := CleanSide(s, specs, side);
    CleanSideShrinks(s, specs, side);
    forall other | GatewayKey(other) in s' ensures s'[GatewayKey(other)].Gateway? && |s'[GatewayKey(other)].servers| > 0 {
      if other != side { CleanSideKeeps(s, specs, side, other); }
    }
  }

  lemma CleanAllTidy(s: Store, spec: Spec, specs: set<Spec>)
    requires Gated(s)
    ensures Shrinks(s, CleanAll(s, spec, specs)) && Tidy(CleanAll(s, spec, specs), spec, specs)
  {
    var s1 := WithoutDropped(s, spec);
    var s2 := WithoutRevoked(s1, specs);
    var s3 := CleanSide(s2, specs, ExternalSide);
    var s4 := CleanSide(s3, specs, CloudSQLSide);
    CleanSideShrinks(s2, specs, ExternalSide);
    CleanSideGated(s2, specs, ExternalSide);
    CleanSideShrinks(s3, specs, CloudSQLSide);
    CleanSideKeeps(s3, specs, CloudSQLSide, ExternalSide);
    assert TidyPolicies(s2, spec, specs);
    TidyPoliciesStay(s2, s3, spec, specs);
    TidyPoliciesStay(s3, s4, spec, specs);
    ShrinksTransitive(s2, s3, s4);
    assert Shrinks(s, s2);
    ShrinksTransitive(s, s2, s4);
    forall side ensures TidySide(s4, specs, side) {
      if side.ExternalSide? { assert TidySide(s3, specs, side); }
    }
  }

  lemma TidyPoliciesStay(s: Store, s': Store, spec: Spec, specs: set<Spec>)
    requires TidyPolicies(s, spec, specs) && Shrinks(s, s')
    ensures TidyPolicies(s', spec, specs)
  {
  }

  lemma CleanSideIdle(s: Store, specs: set<Spec>, side: Side)
    requires TidySide(s, specs, side)
    ensures CleanSide(s, specs, side) == s
  {
    var k := GatewayKey(side);
    if k in s {
      assert Hosts(s, side) - InUse(specs, side) == {};
      assert WithoutHosts(s, {}) == s;
      assert s[k].servers[0 := s[k].servers[0].(hosts := Entries(s[k]))] == s[k].servers;
      assert s[k := s[k]] == s;
    }
  }

  lemma TidyIdle(s: Store, spec: Spec, specs: set<Spec>)
    requires Tidy(s, spec, specs)
    ensures CleanAll(s, spec, specs) == s
  {
    assert WithoutDropped(s, spec) == s;
    assert WithoutRevoked(s, specs) == s;
    CleanSideIdle(s, specs, ExternalSide);
    CleanSideIdle(s, specs, CloudSQLSide);
  }

  // ---- Ensuring keeps tidy ---------------------------------------------------------

  ghost predicate DistinctAccounts(spec: Spec) {
    forall a, b :: a in spec.accounts && b in spec.accounts && a.name == b.name ==> a == b
  }

  /** The one specification of its team, with account names that are not repeated. */
  ghost predicate Governs(spec: Spec, specs: set<Spec>) {
    && spec in specs && DistinctAccounts(spec)
    && forall other :: other in specs && SameOwner(other, spec) ==> other == spec
  }

  lemma InUseCovers(spec: Spec, specs: set<Spec>, side: Side)
    requires spec in specs
    ensures LabelsOf(WantedTargets(spec), side) <= InUse(specs, side)
  {
    assert WantedTargets(spec) <= Demand(specs);
  }

  lemma TidySideGrows(s: Store, s': Store, spec: Spec, specs: set<Spec>, side: Side)
    requires TidySide(s, specs, side) && spec in specs
    requires Extends(s, s', WantedTargets(spec))
    requires side.ExternalSide? && (exists t: Target :: t in WantedTargets(spec) && t.ExternalHost?) ==> GatewayKey(side) in s
    ensures GatewayKey(side) in s' ==> GatewayKey(side) in s && s'[GatewayKey(side)] == s[GatewayKey(side)]
  {
    var k := GatewayKey(side);
    if k in s {
      InUseCovers(spec, specs, side);
      assert Hosts(s', side) <= Hosts(s, side) + LabelsOf(WantedTargets(spec), side);
      EntriesUnchanged(s, s', specs, side);
    } else if k in s' {
      NotAChild(WantedTargets(spec), side, s'[k]);
    }
  }

  lemma EntriesUnchanged(s: Store, s': Store, specs: set<Spec>, side: Side)
    requires TidySide(s, specs, side) && GatewayKey(side) in s && Grows(s, s')
    requires Hosts(s', side) <= Hosts(s, side) + InUse(specs, side)
    ensures s'[GatewayKey(side)] == s[GatewayKey(side)]
  {
    var k := GatewayKey(side);
    assert Hosts(s, side) == InUse(specs, side);
    assert s'[k] == s[k] || EntriesGrow(s[k], s'[k]);
  }

  lemma NotAChild(ts: set<Target>, side: Side, o: Object)
    requires MadeFor(ts, GatewayKey(side), o)
    ensures side.ExternalSide? && exists t: Target :: t in ts && t.ExternalHost?
  {
    GatewaysDiffer();
    if t :| t in ts && o in ChildrenOf(t) { ChildLabel(t, o); }
  }

  lemma WantedCover(accounts: seq<Account>, side: Side, t: Target)
    requires t in Targets(accounts, side)
    ensures SideOf(t) == side
  {
    if t in TargetsOf(accounts[0], side) {
    } else {
      WantedCover(accounts[1..], side, t);
    }
  }

  /** The effect of the whole ensure phase: egress objects first, then policies. */
  lemma EnsureAllSplit(cfg: Config, s: Store, spec: Spec, s': Store) returns (mid: Store)
    requires EnsureAll(cfg, s, spec) == Some(s')
    ensures Extends(s, mid, WantedTargets(spec)) && forall t :: t in WantedTargets(spec) ==> Served(mid, t)
    ensures EnsurePolicies(cfg, mid, Requests(cfg, spec, spec.accounts)) == Some(s')
  {
    var s1 := EnsureTargets(s, Targets(spec.accounts, ExternalSide)).value;
    mid := EnsureTargets(s1, Targets(spec.accounts, CloudSQLSide)).value;
    TargetsExtend(s, Targets(spec.accounts, ExternalSide), s1, WantedTargets(spec));
    TargetsExtend(s1, Targets(spec.accounts, CloudSQLSide), mid, WantedTargets(spec));
    ExtendsTransitive(s, s1, mid, WantedTargets(spec));
    forall t | t in Targets(spec.accounts, ExternalSide) ensures Served(mid, t) {
      ServedStays(s1, mid, t);
    }
  }

  /** Every check of the ensure phase succeeds: nothing more would be created. */
  ghost predicate Settled(cfg: Config, s: Store, spec: Spec) {
    && (forall t :: t in WantedTargets(spec) ==> Served(s, t))
    && (forall r :: Requested(cfg, spec, r) ==> Granted(cfg, s, r))
  }

  lemma EnsureAllSettles(cfg: Config, s: Store, spec: Spec, s': Store)
    requires EnsureAll(cfg, s, spec) == Some(s')
    ensures Settled(cfg, s', spec)
  {
    var mid := EnsureAllSplit(cfg, s, spec, s');
    var rs := Requests(cfg, spec, spec.accounts);
    PoliciesAdd(cfg, mid, rs, s', rs);
    forall t | t in WantedTargets(spec) ensures Served(s', t) {
      ServedStays(mid, s', t);
    }
  }

  lemma SettledIdle(cfg: Config, s: Store, spec: Spec)
    requires Settled(cfg, s, spec)
    ensures EnsureAll(cfg, s, spec) == Some(s)
  {
    TargetsIdle(s, Targets(spec.accounts, ExternalSide));
    TargetsIdle(s, Targets(spec.accounts, CloudSQLSide));
    PoliciesIdle(cfg, s, Requests(cfg, spec, spec.accounts));
  }

  /** A policy the specification asks for is never what the cleanups of policies remove. */
  lemma RequestTidy(cfg: Config, spec: Spec, specs: set<Spec>, r: Request)
    requires Governs(spec, specs) && Requested(cfg, spec, r)
    ensures !Dropped(spec, r.labels) && !RevokedByAny(specs, r.labels)
  {
    var account := RequestAsksFor(cfg, spec, spec.accounts, r);
    var i :| 0 <= i < |spec.accounts| && spec.accounts[i] == account;
    assert Named(spec.accounts, r.labels.account);
    forall other | other in specs ensures !Revoked(other, r.labels) {
      assert SameOwner(other, spec) ==> other == spec;
    }
  }

  lemma TidyPoliciesAdd(cfg: Config, s: Store, s': Store, spec: Spec, specs: set<Spec>)
    requires Governs(spec, specs) && TidyPolicies(s, spec, specs)
    requires Adds(cfg, s, s', Requests(cfg, spec, spec.accounts))
    ensures TidyPolicies(s', spec, specs)
  {
    forall k | k in s' && s'[k].AuthorizationPolicy?
      ensures !RevokedByAny(specs, s'[k].labels) && (s'[k].labels.account == "" || !Dropped(spec, s'[k].labels))
    {
      if k !in s {
        var r :| Requested(cfg, spec, r) && NewPolicy(cfg, r) == Some(s'[k]);
        RequestTidy(cfg, spec, specs, r);
      }
    }
  }

  lemma TidyPoliciesExtend(s: Store, s': Store, spec: Spec, specs: set<Spec>, ts: set<Target>)
    requires TidyPolicies(s, spec, specs) && Extends(s, s', ts)
    ensures TidyPolicies(s', spec, specs)
  {
    forall k | k in s' && s'[k].AuthorizationPolicy?
      ensures !RevokedByAny(specs, s'[k].labels) && (s'[k].labels.account == "" || !Dropped(spec, s'[k].labels))
    {
      if k !in s { NoPolicyMade(ts, k, s'[k]); }
    }
  }

  lemma NoPolicyMade(ts: set<Target>, k: Key, o: Object)
    requires MadeFor(ts, k, o)
    ensures !o.AuthorizationPolicy?
  {
    if t :| t in ts && o in ChildrenOf(t) { ChildLabel(t, o); }
  }

  /** The external gateway stands if the specification has external hosts. */
  ghost predicate Anchored(s: Store, spec: Spec) {
    (exists t: Target :: t in WantedTargets(spec) && t.ExternalHost?) ==> GatewayKey(ExternalSide) in s
  }

  lemma PoliciesKeepGateways(cfg: Config, s: Store, s': Store, rs: seq<Request>, side: Side)
    requires Adds(cfg, s, s', rs)
    ensures GatewayKey(side) in s' ==> GatewayKey(side) in s && s'[GatewayKey(side)] == s[GatewayKey(side)]
  {
  }

  /** Ensuring leaves nothing new to clean. */
  lemma EnsureAllTidy(cfg: Config, s: Store, spec: Spec, specs: set<Spec>, s': Store)
    requires EnsureAll(cfg, s, spec) == Some(s') && Governs(spec, specs)
    requires Tidy(s, spec, specs) && Anchored(s, spec)
    ensures Tidy(s', spec, specs)
  {
    var mid := EnsureAllSplit(cfg, s, spec, s');
    var rs := Requests(cfg, spec, spec.accounts);
    PoliciesAdd(cfg, mid, rs, s', rs);
    TidyPoliciesExtend(s, mid, spec, specs, WantedTargets(spec));
    TidyPoliciesAdd(cfg, mid, s', spec, specs);
    forall side ensures TidySide(s', specs, side) {
      TidySideGrows(s, mid, spec, specs, side);
      PoliciesKeepGateways(cfg, mid, s', rs, side);
    }
  }

  lemma EnsureAllGated(cfg: Config, s: Store, spec: Spec, s': Store)
    requires EnsureAll(cfg, s, spec) == Some(s') && Gated(s)
    ensures Gated(s') && Anchored(s', spec)
  {
    var mid := EnsureAllSplit(cfg, s, spec, s');
    var rs := Requests(cfg, spec, spec.accounts);
    PoliciesAdd(cfg, mid, rs, s', rs);
    forall side | GatewayKey(side) in s' ensures s'[GatewayKey(side)].Gateway? && |s'[GatewayKey(side)].servers| > 0 {
      PoliciesKeepGateways(cfg, mid, s', rs, side);
      GatedMade(s, mid, WantedTargets(spec), side);
    }
    if t: Target :| t in WantedTargets(spec) && t.ExternalHost? {
      assert Served(mid, t);
    }
  }

  lemma GatedMade(s: Store, s': Store, ts: set<Target>, side: Side)
    requires Gated(s) && Extends(s, s', ts) && GatewayKey(side) in s'
    ensures s'[GatewayKey(side)].Gateway? && |s'[GatewayKey(side)].servers| > 0
  {
    var k := GatewayKey(side);
    if k in s {
      assert s'[k] == s[k] || EntriesGrow(s[k], s'[k]);
    } else {
      NotAChild(ts, side, s'[k]);
      if t :| t in ts && s'[k] in ChildrenOf(t) { ChildLabel(t, s'[k]); }
    }
  }

  // ---- Passes ----------------------------------------------------------------------

  lemma CleanAllPresent(s: Store, spec: Spec, specs: set<Spec>, side: Side)
    requires Gated(s) && GatewayKey(side) in s && InUse(specs, side) != {}
    ensures GatewayKey(side) in CleanAll(s, spec, specs)
  {
    var s2 := WithoutRevoked(WithoutDropped(s, spec), specs);
    assert GatewayKey(side) in s2 && Gated(s2);
    var s3 := CleanSide(s2, specs, ExternalSide);
    CleanSideGated(s2, specs, ExternalSide);
    if side.ExternalSide? {
      SweepPresent(s2, side, InUse(specs, side));
      CleanSideKeeps(s3, specs, CloudSQLSide, ExternalSide);
    } else {
      CleanSideKeeps(s2, specs, ExternalSide, CloudSQLSide);
      SweepPresent(s3, side, InUse(specs, side));
    }
  }

  lemma SweepPresent(s: Store, side: Side, keep: set<string>)
    requires Gated(s) && GatewayKey(side) in s && keep != {}
    ensures GatewayKey(side) in Sweep(s, side, keep)
  {
  }

  lemma CleanAllAnchored(s: Store, spec: Spec, specs: set<Spec>)
    requires Gated(s) && Anchored(s, spec) && spec in specs
    ensures Anchored(CleanAll(s, spec, specs), spec)
  {
    if t: Target :| t in WantedTargets(spec) && t.ExternalHost? {
      assert t in Demand(specs);
      assert Label(t) in InUse(specs, ExternalSide);
      CleanAllPresent(s, spec, specs, ExternalSide);
    }
  }

  /** After one pass nothing is left to clean, and the next pass leaves nothing to clean. */
  lemma PassTidy(cfg: Config, s: Store, spec: Spec, specs: set<Spec>, s': Store)
    requires EgressPass(cfg, s, spec, specs) == Some(s') && Gated(s) && spec in specs
    ensures Tidy(s', spec, specs) && Anchored(s', spec)
  {
    var mid := EnsureAll(cfg, s, spec).value;
    EnsureAllGated(cfg, s, spec, mid);
    CleanAllTidy(mid, spec, specs);
    CleanAllAnchored(mid, spec, specs);
  }

  /** Two successful passes of one resource reach a state that every later pass of it
      leaves as it is, even where names collide: when a virtual IP is shared, a host is both
      external and internal, or policy names clash. Every policy name asked for is taken. */
  lemma TwoPassesConverge(cfg: Config, s0: Store, s1: Store, s2: Store, spec: Spec, specs: set<Spec>)
    requires Gated(s0) && Governs(spec, specs)
    requires EgressPass(cfg, s0, spec, specs) == Some(s1) && EgressPass(cfg, s1, spec, specs) == Some(s2)
    ensures EgressPass(cfg, s2, spec, specs) == Some(s2)
    ensures Settled(cfg, s2, spec) && Tidy(s2, spec, specs)
    ensures Keyed(s2) && PoliciesNamed(cfg, s2) ==> forall r :: Requested(cfg, spec, r) ==> PolicyKey(cfg, r.labels) in s2
  {
    PassTidy(cfg, s0, spec, specs, s1);
    var mid := EnsureAll(cfg, s1, spec).value;
    EnsureAllTidy(cfg, s1, spec, specs, mid);
    EnsureAllSettles(cfg, s1, spec, mid);
    TidyIdle(mid, spec, specs);
    assert s2 == mid;
    SettledIdle(cfg, s2, spec);
    if Keyed(s2) && PoliciesNamed(cfg, s2) {
      forall r | Requested(cfg, spec, r) ensures PolicyKey(cfg, r.labels) in s2 {
        GrantedNamed(cfg, s2, r);
      }
    }
  }
}
