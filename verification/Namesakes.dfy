/** What the cleanups remove and what they spare, exactly, and from it when one successful
    pass is enough: whoever holds a name that a resource needs must outlast the cleanups. */
module Namesakes {
  import opened Wrappers
  import opened Resources
  import opened Protocol
  import opened Safety
  import opened EgressSpec
  import opened Convergence
  import opened Separation
  import opened Confluence
  import opened AccountSpec
  import opened Stability

  // ---- What the cleanups remove ----------------------------------------------------

  /** The cleanups remove an object exactly when one of them has a reason to, as far as can
      be read from the objects before. */
  lemma CleanExact(s: Store, spec: Spec, specs: set<Spec>, k: Key)
    requires Gated(s) && Keyed(s) && k in s && !s[k].Gateway?
    ensures k in CleanAll(s, spec, specs) <==> Spared(s, spec, specs, s[k])
    ensures k in CleanAll(s, spec, specs) ==> CleanAll(s, spec, specs)[k] == s[k]
  {
    CleanAllTidy(s, spec, specs);
    if Spared(s, spec, specs, s[k]) {
      CleanSpares(s, spec, specs, k);
    } else if s[k].HostLabel().Some? && Stale(s, specs, s[k].HostLabel().value) {
      var side :| s[k].HostLabel().value in Hosts(s, side) && s[k].HostLabel().value !in InUse(specs, side);
      StaleGone(s, spec, specs, k, side);
    }
  }

  /** An egress policy of a listed account is removed exactly when its host is an entry that
      no allowlist at all asks for. Dropping the host from the account's own allowlist does
      not remove it as long as any other account of any resource uses the host. */
  lemma EgressPolicyFate(s: Store, spec: Spec, specs: set<Spec>, k: Key)
    requires Gated(s) && Keyed(s) && k in s && s[k].AuthorizationPolicy? && s[k].labels.hostType == External
    ensures k in CleanAll(s, spec, specs) <==>
      !Stale(s, specs, s[k].labels.host) && (s[k].labels.account == "" || !Dropped(spec, s[k].labels))
  {
    assert !RevokedByAny(specs, s[k].labels);
    CleanExact(s, spec, specs, k);
  }

  lemma StaleGone(s: Store, spec: Spec, specs: set<Spec>, k: Key, side: Side)
    requires Gated(s) && Keyed(s) && k in s && !s[k].Gateway? && s[k].HostLabel().Some?
    requires s[k].HostLabel().value in Hosts(s, side) && s[k].HostLabel().value !in InUse(specs, side)
    ensures k !in CleanAll(s, spec, specs)
  {
    var s2 := WithoutRevoked(WithoutDropped(s, spec), specs);
    assert PoliciesOnly(s, s2) && Gated(s2);
    PoliciesOnlyHosts(s, s2);
    var s3 := CleanSide(s2, specs, ExternalSide);
    CleanSideGated(s2, specs, ExternalSide);
    CleanSideShrinks(s2, specs, ExternalSide);
    CleanSideShrinks(s3, specs, CloudSQLSide);
    CleanSideHosts(s2, specs, ExternalSide, CloudSQLSide);
    if k in s3 && side.ExternalSide? { SweepUnstale(s2, side, InUse(specs, side), k); }
    if k in CleanSide(s3, specs, CloudSQLSide) && !side.ExternalSide? { SweepUnstale(s3, side, InUse(specs, side), k); }
  }

  lemma PoliciesOnlyHosts(s: Store, s': Store)
    requires PoliciesOnly(s, s') && Keyed(s)
    ensures forall side :: Hosts(s', side) == Hosts(s, side)
  {
    forall side ensures GatewayKey(side) in s' <==> GatewayKey(side) in s {
      if GatewayKey(side) in s { assert s[GatewayKey(side)].Id() == GatewayKey(side); }
    }
  }

  // ---- Whose policy has the name ---------------------------------------------------

  ghost predicate Asked(cfg: Config, rs: seq<Request>, k: Key) {
    exists r :: r in rs && PolicyKey(cfg, r.labels) == k
  }

  /** The first of the requests that goes by the name. */
  ghost function FirstAsked(cfg: Config, rs: seq<Request>, k: Key): Labels
    requires Asked(cfg, rs, k)
    decreases |rs|
  {
    if PolicyKey(cfg, rs[0].labels) == k then rs[0].labels else FirstAsked(cfg, rs[1..], k)
  }

  /** Whose policy stands under the name of a request once a pass has ensured its own: the
      one that was there, or else the first of its namesakes. */
  ghost function Holder(cfg: Config, s: Store, spec: Spec, r: Request): Labels
    requires Requested(cfg, spec, r)
  {
    var k := PolicyKey(cfg, r.labels);
    if k in s && s[k].AuthorizationPolicy? then s[k].labels else FirstAsked(cfg, Requests(cfg, spec, spec.accounts), k)
  }

  lemma PolicyHeld(cfg: Config, s: Store, r: Request, s': Store, k: Key)
    requires Keyed(s) && PoliciesNamed(cfg, s) && EnsurePolicy(cfg, s, r) == Some(s')
    ensures Keyed(s') && PoliciesNamed(cfg, s')
    ensures k in s ==> k in s' && s'[k] == s[k]
    ensures k !in s && k in s' ==> k == PolicyKey(cfg, r.labels) && s'[k].AuthorizationPolicy? && s'[k].labels == r.labels
    ensures PolicyKey(cfg, r.labels) in s'
  {
    PolicyAdds(cfg, s, r, s', [r]);
    AddsNamed(cfg, s, s', [r]);
    GrantedNamed(cfg, s', r);
  }

  lemma {:induction false} PoliciesHeld(cfg: Config, s: Store, rs: seq<Request>, s': Store, k: Key)
    requires Keyed(s) && PoliciesNamed(cfg, s) && EnsurePolicies(cfg, s, rs) == Some(s')
    ensures k in s ==> k in s' && s'[k] == s[k]
    ensures Asked(cfg, rs, k) ==> k in s'
    ensures Asked(cfg, rs, k) && k !in s ==> s'[k].AuthorizationPolicy? && s'[k].labels == FirstAsked(cfg, rs, k)
    decreases |rs|
  {
    if rs != [] {
      var s1 := EnsurePolicy(cfg, s, rs[0]).value;
      PolicyHeld(cfg, s, rs[0], s1, k);
      PoliciesHeld(cfg, s1, rs[1..], s', k);
    }
  }

  lemma AddsNamed(cfg: Config, s: Store, s': Store, rs: seq<Request>)
    requires Keyed(s) && PoliciesNamed(cfg, s) && Adds(cfg, s, s', rs)
    ensures Keyed(s') && PoliciesNamed(cfg, s')
  {
  }

  lemma HolderStays(cfg: Config, s: Store, mid: Store, spec: Spec, r: Request)
    requires Requested(cfg, spec, r)
    requires forall k :: k in mid && mid[k].AuthorizationPolicy? ==> k in s && s[k] == mid[k]
    requires forall k :: k in s ==> k in mid && (mid[k] == s[k] || EntriesGrow(s[k], mid[k]))
    ensures Holder(cfg, mid, spec, r) == Holder(cfg, s, spec, r)
  {
    var k := PolicyKey(cfg, r.labels);
    if k in s && s[k].AuthorizationPolicy? { assert k in mid; }
  }

  /** What ensuring leaves under the name of a request. */
  lemma EnsureAllHeld(cfg: Config, s: Store, spec: Spec, s': Store, r: Request)
    requires Keyed(s) && PoliciesNamed(cfg, s) && EnsureAll(cfg, s, spec) == Some(s') && Requested(cfg, spec, r)
    ensures var k := PolicyKey(cfg, r.labels);
      k in s' && s'[k].AuthorizationPolicy? && s'[k].labels == Holder(cfg, s, spec, r)
  {
    var mid := EnsureAllSplit(cfg, s, spec, s');
    ExtendsKeyed(s, mid, WantedTargets(spec));
    ExtendsPolicies(s, mid, WantedTargets(spec));
    HolderStays(cfg, s, mid, spec, r);
    HeldAfter(cfg, mid, spec, s', r);
  }

  lemma HeldAfter(cfg: Config, s: Store, spec: Spec, s': Store, r: Request)
    requires Keyed(s) && PoliciesNamed(cfg, s) && Requested(cfg, spec, r)
    requires EnsurePolicies(cfg, s, Requests(cfg, spec, spec.accounts)) == Some(s')
    ensures var k := PolicyKey(cfg, r.labels);
      k in s' && s'[k].AuthorizationPolicy? && s'[k].labels == Holder(cfg, s, spec, r)
  {
    PoliciesHeld(cfg, s, Requests(cfg, spec, spec.accounts), s', PolicyKey(cfg, r.labels));
    HolderIs(cfg, s, spec, s', r);
  }

  lemma HolderIs(cfg: Config, s: Store, spec: Spec, s': Store, r: Request)
    requires Keyed(s) && Requested(cfg, spec, r)
    requires var k, rs := PolicyKey(cfg, r.labels), Requests(cfg, spec, spec.accounts);
      k in s' && if k in s then s'[k] == s[k] else s'[k].AuthorizationPolicy? && s'[k].labels == FirstAsked(cfg, rs, k)
    ensures var k := PolicyKey(cfg, r.labels); s'[k].AuthorizationPolicy? && s'[k].labels == Holder(cfg, s, spec, r)
  {
    var k := PolicyKey(cfg, r.labels);
    if k in s { assert s[k].Id() == k; }
  }

  lemma EnsureAllNamed(cfg: Config, s: Store, spec: Spec, s': Store)
    requires Keyed(s) && PoliciesNamed(cfg, s) && EnsureAll(cfg, s, spec) == Some(s')
    ensures Keyed(s') && PoliciesNamed(cfg, s')
  {
    var mid := EnsureAllSplit(cfg, s, spec, s');
    var rs := Requests(cfg, spec, spec.accounts);
    PoliciesAdd(cfg, mid, rs, s', rs);
    ExtendsKeyed(s, mid, WantedTargets(spec));
    ExtendsPolicies(s, mid, WantedTargets(spec));
    AddsNamed(cfg, mid, s', rs);
  }

  /** Ensuring makes no entry stale and keeps the stale ones. */
  lemma EnsureAllStale(cfg: Config, s: Store, spec: Spec, specs: set<Spec>, s': Store, h: string)
    requires EnsureAll(cfg, s, spec) == Some(s') && spec in specs
    ensures Stale(s', specs, h) <==> Stale(s, specs, h)
  {
    var mid := EnsureAllSplit(cfg, s, spec, s');
    var rs := Requests(cfg, spec, spec.accounts);
    PoliciesAdd(cfg, mid, rs, s', rs);
    AddsHosts(cfg, mid, s', rs);
    forall side ensures h in Hosts(s', side) && h !in InUse(specs, side) <==> h in Hosts(s, side) && h !in InUse(specs, side) {
      InUseCovers(spec, specs, side);
      GrowsHosts(s, mid, side);
      assert Hosts(mid, side) <= Hosts(s, side) + LabelsOf(WantedTargets(spec), side);
    }
  }

  lemma NamedOnly(cfg: Config, s: Store, l: Labels)
    requires Keyed(s) && PoliciesNamed(cfg, s)
    ensures forall k :: k in s && Matches(ByGrant(l), s[k]) ==> k == PolicyKey(cfg, l)
  {
    forall k | k in s && Matches(ByGrant(l), s[k]) ensures k == PolicyKey(cfg, l) {
      assert s[k].Id() == k;
    }
  }

  /** After a pass a request is granted exactly when the holder of its name is not doomed,
      and it has the very policy it asks for exactly when it is the holder itself. Both can
      be read from the objects before the pass. */
  lemma GrantedExactly(cfg: Config, s: Store, spec: Spec, specs: set<Spec>, s': Store, r: Request)
    requires Gated(s) && Keyed(s) && PoliciesNamed(cfg, s) && spec in specs
    requires Requested(cfg, spec, r) && EgressPass(cfg, s, spec, specs) == Some(s')
    ensures Granted(cfg, s', r) <==> !Doomed(s, spec, specs, Holder(cfg, s, spec, r))
    ensures HasPolicy(s', r.labels) <==> !Doomed(s, spec, specs, r.labels) && Holder(cfg, s, spec, r) == r.labels
  {
    var k, mid := PolicyKey(cfg, r.labels), EnsureAll(cfg, s, spec).value;
    EnsureAllHeld(cfg, s, spec, mid, r);
    EnsureAllNamed(cfg, s, spec, mid);
    EnsureAllGated(cfg, s, spec, mid);
    EnsureAllStale(cfg, s, spec, specs, mid, mid[k].labels.host);
    EnsureAllSettles(cfg, s, spec, mid);
    CleanExact(mid, spec, specs, k);
    assert k in s' <==> !Doomed(s, spec, specs, Holder(cfg, s, spec, r));
    NamedOnly(cfg, mid, r.labels);
    CleanAllTidy(mid, spec, specs);
    LeftUnder(cfg, mid, s', r, k);
  }

  lemma LeftUnder(cfg: Config, s: Store, s': Store, r: Request, k: Key)
    requires Shrinks(s, s') && Granted(cfg, s, r) && k == PolicyKey(cfg, r.labels) && k in s && s[k].AuthorizationPolicy?
    requires forall j :: j in s && Matches(ByGrant(r.labels), s[j]) ==> j == k
    ensures Granted(cfg, s', r) <==> k in s'
    ensures HasPolicy(s', r.labels) <==> k in s' && s[k].labels == r.labels
  {
    assert forall j :: j in s' && s'[j].AuthorizationPolicy? ==> s[j] == s'[j];
    if k in s' && Any(s, ByGrant(r.labels)) { assert Matches(ByGrant(r.labels), s'[k]); }
    if HasPolicy(s', r.labels) {
      var j :| j in s' && s'[j].AuthorizationPolicy? && s'[j].labels == r.labels;
      assert Matches(ByGrant(r.labels), s[j]);
    }
  }

  // ---- Whose VirtualService has the name -------------------------------------------

  /** All targets of a specification, in the order their objects are ensured. */
  ghost function InTurn(spec: Spec): seq<Target> {
    Targets(spec.accounts, ExternalSide) + Targets(spec.accounts, CloudSQLSide)
  }

  ghost predicate Routed(ts: seq<Target>, k: Key) {
    exists t :: t in ts && NewVirtualService(t).Id() == k
  }

  ghost function FirstRouted(ts: seq<Target>, k: Key): Target
    requires Routed(ts, k)
    decreases |ts|
  {
    if NewVirtualService(ts[0]).Id() == k then ts[0] else FirstRouted(ts[1..], k)
  }

  /** The host of the VirtualService that stands under the name of a target once a pass has
      ensured its own. */
  ghost function RouteHost(s: Store, spec: Spec, t: Target): string
    requires Routed(InTurn(spec), NewVirtualService(t).Id())
  {
    var k := NewVirtualService(t).Id();
    if k in s && s[k].VirtualService? then s[k].host else Label(FirstRouted(InTurn(spec), k))
  }

  lemma {:induction false} FirstOfTwo(a: seq<Target>, b: seq<Target>, k: Key)
    requires Routed(a + b, k)
    ensures if Routed(a, k) then FirstRouted(a + b, k) == FirstRouted(a, k)
            else Routed(b, k) && FirstRouted(a + b, k) == FirstRouted(b, k)
    decreases |a|
  {
    if a == [] {
      assert a + b == b;
    } else if NewVirtualService(a[0]).Id() != k {
      assert (a + b)[1..] == a[1..] + b;
      FirstOfTwo(a[1..], b, k);
      if Routed(a, k) { assert Routed(a[1..], k); }
    } else {
      assert (a + b)[0] == a[0];
    }
  }

  lemma RouteMade(s: Store, t: Target, s': Store, k: Key)
    requires Keyed(s) && k.kind == VirtualServices && Extends(s, s', {t})
    ensures Keyed(s')
    ensures k in s ==> k in s' && s'[k] == s[k]
    ensures k !in s && k in s' ==> s'[k] == NewVirtualService(t) && k == NewVirtualService(t).Id()
  {
    ExtendsKeyed(s, s', {t});
    if k in s {
      assert s[k].Id() == k;
    } else if k in s' {
      assert MadeFor({t}, k, s'[k]) && s'[k].Id() == k;
      VirtualServiceOf(t, s'[k]);
    }
  }

  lemma {:induction false} TargetsRouted(s: Store, ts: seq<Target>, s': Store, k: Key)
    requires Keyed(s) && k.kind == VirtualServices && EnsureTargets(s, ts) == Some(s')
    ensures Keyed(s') && (k in s ==> k in s' && s'[k] == s[k])
    ensures k !in s ==> (k in s' <==> Routed(ts, k))
    ensures Routed(ts, k) && k !in s ==> s'[k] == NewVirtualService(FirstRouted(ts, k))
    decreases |ts|
  {
    if ts != [] {
      var s1 := EnsureTarget(s, ts[0]).value;
      TargetExtends(s, ts[0], s1, {ts[0]});
      RouteMade(s, ts[0], s1, k);
      assert NewVirtualService(ts[0]).Id() in s1;
      TargetsRouted(s1, ts[1..], s', k);
    }
  }

  lemma RouteLabel(t: Target)
    ensures NewVirtualService(t).VirtualService? && NewVirtualService(t).host == Label(t)
    ensures NewVirtualService(t).Id().kind == VirtualServices
  {
  }

  lemma InTurnRouted(spec: Spec, t: Target)
    requires t in WantedTargets(spec)
    ensures Routed(InTurn(spec), NewVirtualService(t).Id())
  {
    assert t in InTurn(spec);
  }

  lemma TwoSidesRouted(s: Store, ext: seq<Target>, s1: Store, sql: seq<Target>, s2: Store, k: Key)
    requires Keyed(s) && k.kind == VirtualServices && Routed(ext + sql, k)
    requires EnsureTargets(s, ext) == Some(s1) && EnsureTargets(s1, sql) == Some(s2)
    ensures k in s2 && (k in s ==> s2[k] == s[k]) && (k !in s ==> s2[k] == NewVirtualService(FirstRouted(ext + sql, k)))
  {
    TargetsRouted(s, ext, s1, k);
    TargetsRouted(s1, sql, s2, k);
    FirstOfTwo(ext, sql, k);
  }

  lemma RouteHeld(s: Store, spec: Spec, s': Store, t: Target)
    requires t in WantedTargets(spec) && Keyed(s) && Routed(InTurn(spec), NewVirtualService(t).Id())
    requires var k := NewVirtualService(t).Id();
      k in s' && s'[k] == if k in s then s[k] else NewVirtualService(FirstRouted(InTurn(spec), k))
    ensures var k := NewVirtualService(t).Id(); s'[k].VirtualService? && s'[k].host == RouteHost(s, spec, t)
  {
    var k := NewVirtualService(t).Id();
    RouteLabel(t);
    RouteLabel(FirstRouted(InTurn(spec), k));
    if k in s { assert s[k].Id() == k; }
  }

  lemma EnsureAllRouted(cfg: Config, s: Store, spec: Spec, s': Store, t: Target)
    requires Keyed(s) && EnsureAll(cfg, s, spec) == Some(s') && t in WantedTargets(spec)
    ensures Routed(InTurn(spec), NewVirtualService(t).Id())
    ensures var k := NewVirtualService(t).Id();
      k in s' && s'[k].VirtualService? && s'[k].host == RouteHost(s, spec, t)
  {
    var s1, s2 := EnsureAllStages(cfg, s, spec, s');
    var k := NewVirtualService(t).Id();
    InTurnRouted(spec, t);
    RouteLabel(t);
    TwoSidesRouted(s, Targets(spec.accounts, ExternalSide), s1, Targets(spec.accounts, CloudSQLSide), s2, k);
    assert k in s' && s'[k] == s2[k];
    RouteHeld(s, spec, s', t);
  }

  lemma EnsureAllStages(cfg: Config, s: Store, spec: Spec, s': Store) returns (s1: Store, s2: Store)
    requires EnsureAll(cfg, s, spec) == Some(s')
    ensures EnsureTargets(s, Targets(spec.accounts, ExternalSide)) == Some(s1)
    ensures EnsureTargets(s1, Targets(spec.accounts, CloudSQLSide)) == Some(s2)
    ensures Adds(cfg, s2, s', Requests(cfg, spec, spec.accounts))
  {
    s1 := EnsureTargets(s, Targets(spec.accounts, ExternalSide)).value;
    s2 := EnsureTargets(s1, Targets(spec.accounts, CloudSQLSide)).value;
    var rs := Requests(cfg, spec, spec.accounts);
    PoliciesAdd(cfg, s2, rs, s', rs);
  }

  // ---- When one pass is enough -----------------------------------------------------

  lemma RuleLasts(s: Store, spec: Spec, specs: set<Spec>, t: Target, d: Direction)
    requires Gated(s) && Keyed(s) && Any(s, ByRule(Label(t), d))
    ensures Any(CleanAll(s, spec, specs), ByRule(Label(t), d)) <==> !Stale(s, specs, Label(t))
  {
    LabelLasts(s, spec, specs, ByRule(Label(t), d), Label(t));
  }

  /** What a selector by one host finds outlasts the cleanups unless the host is stale. */
  lemma LabelLasts(s: Store, spec: Spec, specs: set<Spec>, sel: Selector, h: string)
    requires Gated(s) && Keyed(s) && Any(s, sel)
    requires forall o :: Matches(sel, o) ==> o.Child() && o.HostLabel() == Some(h)
    ensures Any(CleanAll(s, spec, specs), sel) <==> !Stale(s, specs, h)
  {
    var s' := CleanAll(s, spec, specs);
    var k :| k in s && Matches(sel, s[k]);
    CleanExact(s, spec, specs, k);
    if Any(s', sel) {
      var j :| j in s' && Matches(sel, s'[j]);
      CleanAllTidy(s, spec, specs);
      assert j in s && s[j] == s'[j];
      CleanExact(s, spec, specs, j);
    }
  }

  /** After a pass every existence check of a target succeeds exactly when neither its own
      host nor the host of the VirtualService under its name is stale. */
  lemma ServedAfter(cfg: Config, s: Store, spec: Spec, specs: set<Spec>, s': Store, t: Target)
    requires Gated(s) && Keyed(s) && PoliciesNamed(cfg, s) && spec in specs
    requires t in WantedTargets(spec) && EgressPass(cfg, s, spec, specs) == Some(s')
    ensures Routed(InTurn(spec), NewVirtualService(t).Id())
    ensures Served(s', t) <==> !Stale(s, specs, Label(t)) && !Stale(s, specs, RouteHost(s, spec, t))
  {
    var mid, k := EnsureAll(cfg, s, spec).value, NewVirtualService(t).Id();
    EnsureAllSettles(cfg, s, spec, mid);
    EnsureAllNamed(cfg, s, spec, mid);
    EnsureAllGated(cfg, s, spec, mid);
    EnsureAllRouted(cfg, s, spec, mid, t);
    EnsureAllStale(cfg, s, spec, specs, mid, Label(t));
    EnsureAllStale(cfg, s, spec, specs, mid, mid[k].host);
    assert t in Demand(specs);
    ServedLasts(mid, spec, specs, t);
  }

  lemma ServedLasts(s: Store, spec: Spec, specs: set<Spec>, t: Target)
    requires Gated(s) && Keyed(s) && t in Demand(specs) && Served(s, t) && s[NewVirtualService(t).Id()].VirtualService?
    ensures Served(CleanAll(s, spec, specs), t) <==>
      !Stale(s, specs, Label(t)) && !Stale(s, specs, s[NewVirtualService(t).Id()].host)
  {
    CleanExact(s, spec, specs, NewVirtualService(t).Id());
    RuleLasts(s, spec, specs, t, ToGateway);
    RuleLasts(s, spec, specs, t, FromGateway);
    LabelLasts(s, spec, specs, ByHost(ServiceEntries, Label(t)), Label(t));
    GatewaySurvives(s, spec, specs, t);
  }

  lemma PassNamed(cfg: Config, s: Store, spec: Spec, specs: set<Spec>, s': Store)
    requires Gated(s) && Keyed(s) && PoliciesNamed(cfg, s) && EgressPass(cfg, s, spec, specs) == Some(s')
    ensures Keyed(s') && PoliciesNamed(cfg, s')
  {
    var mid := EnsureAll(cfg, s, spec).value;
    EnsureAllNamed(cfg, s, spec, mid);
    EnsureAllGated(cfg, s, spec, mid);
    CleanAllTidy(mid, spec, specs);
    ShrinksNamed(cfg, mid, s');
  }

  lemma ShrinksNamed(cfg: Config, s: Store, s': Store)
    requires Keyed(s) && PoliciesNamed(cfg, s) && Shrinks(s, s')
    ensures Keyed(s') && PoliciesNamed(cfg, s')
  {
    forall k | k in s' ensures s'[k].Id() == k && (s'[k].AuthorizationPolicy? ==> s'[k] == s[k]) {
      assert s'[k] == s[k] || Rewritten(s[k], s'[k]);
    }
  }

  /** Everything whose name a resource needs is held by something no cleanup removes. */
  ghost predicate HoldersLast(cfg: Config, s: Store, spec: Spec, specs: set<Spec>) {
    && (forall t :: t in WantedTargets(spec) ==> TargetLasts(s, spec, specs, t))
    && (forall r :: Requested(cfg, spec, r) ==> !Doomed(s, spec, specs, Holder(cfg, s, spec, r)))
  }

  ghost predicate TargetLasts(s: Store, spec: Spec, specs: set<Spec>, t: Target) {
    && Routed(InTurn(spec), NewVirtualService(t).Id())
    && !Stale(s, specs, Label(t)) && !Stale(s, specs, RouteHost(s, spec, t))
  }

  lemma FixedSettled(cfg: Config, s: Store, spec: Spec, specs: set<Spec>)
    requires Governs(spec, specs) && Tidy(s, spec, specs) && Anchored(s, spec)
    ensures EgressPass(cfg, s, spec, specs) == Some(s) <==> Settled(cfg, s, spec)
  {
    if EgressPass(cfg, s, spec, specs) == Some(s) {
      var mid := EnsureAll(cfg, s, spec).value;
      EnsureAllTidy(cfg, s, spec, specs, mid);
      EnsureAllSettles(cfg, s, spec, mid);
      TidyIdle(mid, spec, specs);
    }
    if Settled(cfg, s, spec) {
      SettledIdle(cfg, s, spec);
      TidyIdle(s, spec, specs);
    }
  }

  /** With no name assumed distinct, one successful pass is enough, so that the next one
      changes nothing, exactly when before the pass no name the resource needs is held by
      something that a cleanup removes. */
  lemma OnePassExact(cfg: Config, s: Store, spec: Spec, specs: set<Spec>, s': Store)
    requires Gated(s) && Keyed(s) && PoliciesNamed(cfg, s) && Governs(spec, specs)
    requires EgressPass(cfg, s, spec, specs) == Some(s')
    ensures EgressPass(cfg, s', spec, specs) == Some(s') <==> HoldersLast(cfg, s, spec, specs)
  {
    PassTidy(cfg, s, spec, specs, s');
    FixedSettled(cfg, s', spec, specs);
    forall t | t in WantedTargets(spec) ensures Served(s', t) <==> TargetLasts(s, spec, specs, t) {
      ServedAfter(cfg, s, spec, specs, s', t);
    }
    forall r | Requested(cfg, spec, r) ensures Granted(cfg, s', r) <==> !Doomed(s, spec, specs, Holder(cfg, s, spec, r)) {
      GrantedExactly(cfg, s, spec, specs, s', r);
    }
  }

  lemma SameHolders(cfg: Config, s: Store, s': Store, spec: Spec, specs: set<Spec>)
    requires SameEgress(s, s')
    ensures HoldersLast(cfg, s, spec, specs) <==> HoldersLast(cfg, s', spec, specs)
  {
    SameHostsWithin(s, s');
    assert forall h :: Stale(s, specs, h) <==> Stale(s', specs, h);
    forall t | Routed(InTurn(spec), NewVirtualService(t).Id()) ensures RouteHost(s, spec, t) == RouteHost(s', spec, t) {
      RouteLabel(t);
      assert !AccountKind(NewVirtualService(t).Id().kind);
    }
    forall r | Requested(cfg, spec, r) ensures Holder(cfg, s, spec, r) == Holder(cfg, s', spec, r) {
      assert !AccountKind(PolicyKey(cfg, r.labels).kind);
    }
  }

  lemma SameNamed(cfg: Config, s: Store, s': Store)
    requires SameEgress(s, s') && Keyed(s') && PoliciesNamed(cfg, s)
    ensures PoliciesNamed(cfg, s')
  {
    forall k | k in s' && s'[k].AuthorizationPolicy? ensures k in s && s[k] == s'[k] { EgressKinds(s'[k]); }
  }

  /** The same for whole reconciles: the next one succeeds and leaves every gateway, child
      and policy as it is exactly when no name the resource needs was held by something that
      a cleanup removes. */
  lemma OneReconcileExact(cfg: Config, s0: Store, s1: Store, spec: Spec, specs: set<Spec>)
    requires Gated(s0) && Keyed(s0) && PoliciesNamed(cfg, s0) && Governs(spec, specs)
    requires ObjectsPass(cfg, s0, spec, specs) == Some(s1)
    ensures ObjectsPass(cfg, s1, spec, specs) == Some(AccountsDone(cfg, s1, spec)) <==> HoldersLast(cfg, s0, spec, specs)
    ensures SameEgress(s1, AccountsDone(cfg, s1, spec))
  {
    var a0, a1 := AccountsDone(cfg, s0, spec), AccountsDone(cfg, s1, spec);
    AccountsDoneFacts(cfg, s0, spec);
    SameGated(s0, a0);
    SameNamed(cfg, s0, a0);
    SameHolders(cfg, s0, a0, spec, specs);
    OnePassExact(cfg, a0, spec, specs, s1);
    PassTidy(cfg, a0, spec, specs, s1);
    PassNamed(cfg, a0, spec, specs, s1);
    AccountsDoneFacts(cfg, s1, spec);
    SettledAcross(cfg, s1, a1, spec, specs);
  }

  lemma SettledAcross(cfg: Config, s: Store, s': Store, spec: Spec, specs: set<Spec>)
    requires SameEgress(s, s') && Keyed(s) && Keyed(s') && Governs(spec, specs) && Tidy(s, spec, specs) && Anchored(s, spec)
    ensures EgressPass(cfg, s', spec, specs) == Some(s') <==> EgressPass(cfg, s, spec, specs) == Some(s)
  {
    SameTidy(s, s', spec, specs);
    FixedSettled(cfg, s, spec, specs);
    FixedSettled(cfg, s', spec, specs);
    if Settled(cfg, s, spec) { SameAllSettled(cfg, s, s', spec); }
    if Settled(cfg, s', spec) { SameAllSettled(cfg, s', s, spec); }
  }
}
