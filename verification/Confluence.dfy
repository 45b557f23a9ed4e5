/** Whatever order the resources are reconciled in, the egress objects end up the same: a
    function of all allowlists together. And without a fault no reconcile fails. */
module Confluence {
  import opened Wrappers
  import opened HostList
  import opened Resources
  import opened Protocol
  import opened Safety
  import opened EgressSpec
  import opened Convergence
  import opened Separation
  import opened AccountSpec
  import opened Stability
  import Names

  // ---- Cleaning stays within the scope ---------------------------------------------

  lemma SweepUnstale(s: Store, side: Side, keep: set<string>, k: Key)
    requires Gated(s) && GatewayKey(side) in s && k in Sweep(s, side, keep) && !s[k].Gateway? && s[k].HostLabel().Some?
    ensures s[k].HostLabel().value in Hosts(s, side) ==> s[k].HostLabel().value in keep
  {
  }

  lemma SweepHosts(s: Store, side: Side, keep: set<string>)
    requires Gated(s)
    ensures Hosts(Sweep(s, side, keep), side) <= keep
    ensures GatewayKey(side) in s && keep != {} ==> Hosts(Sweep(s, side, keep), side) == keep
  {
  }

  lemma CleanSideHosts(s: Store, specs: set<Spec>, side: Side, other: Side)
    requires Gated(s)
    ensures other != side ==> Hosts(CleanSide(s, specs, side), other) == Hosts(s, other)
    ensures Hosts(CleanSide(s, specs, side), side) <= InUse(specs, side)
    ensures forall h :: h in Hosts(s, side) && h in InUse(specs, side) ==> h in Hosts(CleanSide(s, specs, side), side)
  {
    if other != side { CleanSideKeeps(s, specs, side, other); }
    SweepHosts(s, side, InUse(specs, side));
  }

  /** Sweeping one side orphans nothing. */
  lemma CleanSideNoOrphans(s: Store, specs: set<Spec>, side: Side)
    requires Gated(s) && Keyed(s) && NoOrphans(s)
    ensures NoOrphans(CleanSide(s, specs, side)) && Keyed(CleanSide(s, specs, side))
  {
    var s' := CleanSide(s, specs, side);
    CleanSideShrinks(s, specs, side);
    CleanSideHosts(s, specs, side, ExternalSide);
    CleanSideHosts(s, specs, side, CloudSQLSide);
    forall k | k in s' && EgressObject(s'[k]) ensures Listed(s', s'[k].HostLabel().value) {
      assert s'[k] == s[k] && Listed(s, s[k].HostLabel().value);
      if GatewayKey(side) in s { SweepUnstale(s, side, InUse(specs, side), k); }
    }
  }

  lemma CleanSideWithin(cfg: Config, scope: Scope, s: Store, specs: set<Spec>, side: Side)
    requires Within(cfg, scope, s) && SpecsWithin(cfg, scope, specs)
    ensures Within(cfg, scope, CleanSide(s, specs, side))
  {
    var s' := CleanSide(s, specs, side);
    CleanSideNoOrphans(s, specs, side);
    CleanSideGated(s, specs, side);
    CleanSideShrinks(s, specs, side);
    ShrinksWithin(cfg, scope, s, s');
    forall other ensures Hosts(s', other) <= EntriesWithin(scope, other) {
      InUseWithin(cfg, scope, specs, side);
      CleanSideHosts(s, specs, side, other);
    }
  }

  /** Dropping policies only. */
  ghost predicate PoliciesOnly(s: Store, s': Store) {
    && (forall k :: k in s' ==> k in s && s'[k] == s[k])
    && (forall k :: k in s && !s[k].AuthorizationPolicy? ==> k in s')
  }

  lemma PoliciesOnlyWithin(cfg: Config, scope: Scope, s: Store, s': Store)
    requires Within(cfg, scope, s) && PoliciesOnly(s, s')
    ensures Within(cfg, scope, s')
  {
    forall side ensures Hosts(s', side) == Hosts(s, side) && (GatewayKey(side) in s' <==> GatewayKey(side) in s) {
      if GatewayKey(side) in s { assert s[GatewayKey(side)].Gateway?; }
    }
  }

  lemma CleanWithin(cfg: Config, scope: Scope, s: Store, spec: Spec, specs: set<Spec>)
    requires Within(cfg, scope, s) && SpecsWithin(cfg, scope, specs)
    ensures Within(cfg, scope, CleanAll(s, spec, specs))
  {
    var s2 := WithoutRevoked(WithoutDropped(s, spec), specs);
    assert PoliciesOnly(s, s2);
    PoliciesOnlyWithin(cfg, scope, s, s2);
    CleanSideWithin(cfg, scope, s2, specs, ExternalSide);
    CleanSideWithin(cfg, scope, CleanSide(s2, specs, ExternalSide), specs, CloudSQLSide);
  }

  lemma InUseWithin(cfg: Config, scope: Scope, specs: set<Spec>, side: Side)
    requires SpecsWithin(cfg, scope, specs)
    ensures InUse(specs, side) <= EntriesWithin(scope, side)
  {
  }

  lemma ShrinksWithin(cfg: Config, scope: Scope, s: Store, s': Store)
    requires Within(cfg, scope, s) && Keyed(s')
    requires forall k :: k in s' ==> k in s && (s'[k] == s[k] || (s[k].Gateway? && s'[k].Gateway?))
    ensures PoliciesNamed(cfg, s')
    ensures forall k :: k in s' && s'[k].Child() ==> ChildWithin(scope, s'[k])
    ensures forall k :: k in s' && s'[k].AuthorizationPolicy? ==> s'[k].labels in scope.policies
  {
  }

  lemma PassWithin(cfg: Config, scope: Scope, s: Store, spec: Spec, specs: set<Spec>, s': Store)
    requires Within(cfg, scope, s) && SpecsWithin(cfg, scope, specs) && spec in specs
    requires EgressPass(cfg, s, spec, specs) == Some(s')
    ensures Within(cfg, scope, s')
  {
    var mid := EnsureAll(cfg, s, spec).value;
    EnsureWithin(cfg, scope, s, spec, specs, mid);
    CleanWithin(cfg, scope, mid, spec, specs);
  }

  // ---- Any order -------------------------------------------------------------------

  ghost function Passes(cfg: Config, s: Store, order: seq<Spec>, specs: set<Spec>): Option<Store> {
    if order == [] then Some(s)
    else
      var s' :- Passes(cfg, s, order[..|order| - 1], specs);
      ObjectsPass(cfg, s', order[|order| - 1], specs)
  }

  ghost function Children(s: Store): set<Object> {
    set k | k in s && s[k].Child() :: s[k]
  }

  /** The egress objects that all allowlists together ask for, and nothing else. */
  ghost predicate Canonical(s: Store, specs: set<Spec>) {
    && Children(s) == AllChildren(specs)
    && (GatewayKey(ExternalSide) in s <==> InUse(specs, ExternalSide) != {})
    && forall side :: GatewayKey(side) in s ==> Entries(s[GatewayKey(side)]) == Canon(InUse(specs, side))
  }

  ghost predicate ServesAll(s: Store, order: seq<Spec>) {
    forall spec, t :: spec in order && t in WantedTargets(spec) ==> Served(s, t)
  }

  lemma PassServesAll(cfg: Config, scope: Scope, s: Store, before: seq<Spec>, spec: Spec, specs: set<Spec>, s': Store)
    requires Within(cfg, scope, s) && Separated(cfg, scope) && SpecsWithin(cfg, scope, specs) && spec in specs
    requires EgressPass(cfg, s, spec, specs) == Some(s') && ServesAll(s, before)
    requires forall other :: other in before ==> other in specs
    ensures ServesAll(s', before + [spec])
  {
    forall other, t | other in before + [spec] && t in WantedTargets(other) ensures Served(s', t) {
      assert t in Demand(specs);
      PassServes(cfg, scope, s, spec, specs, s', t, other == spec);
    }
  }

  ghost predicate TidySides(s: Store, specs: set<Spec>) {
    forall side :: TidySide(s, specs, side)
  }

  lemma NextPass(cfg: Config, scope: Scope, s: Store, before: seq<Spec>, spec: Spec, specs: set<Spec>, s': Store)
    requires Within(cfg, scope, s) && Separated(cfg, scope) && SpecsWithin(cfg, scope, specs) && spec in specs
    requires ObjectsPass(cfg, s, spec, specs) == Some(s') && ServesAll(s, before)
    requires forall other :: other in before ==> other in specs
    ensures Within(cfg, scope, s') && ServesAll(s', before + [spec]) && TidySides(s', specs)
  {
    var a := AccountsDone(cfg, s, spec);
    AccountsDoneFacts(cfg, s, spec);
    SameWithin(cfg, scope, s, a);
    forall other, t | other in before && t in WantedTargets(other) ensures Served(a, t) { SameServed(s, a, t); }
    PassWithin(cfg, scope, a, spec, specs, s');
    PassTidy(cfg, a, spec, specs, s');
    PassServesAll(cfg, scope, a, before, spec, specs, s');
  }

  lemma {:induction false} PassesServe(cfg: Config, scope: Scope, s: Store, order: seq<Spec>, specs: set<Spec>, s': Store)
    requires Within(cfg, scope, s) && Separated(cfg, scope) && SpecsWithin(cfg, scope, specs)
    requires (forall spec :: spec in order ==> spec in specs) && Passes(cfg, s, order, specs) == Some(s')
    ensures Within(cfg, scope, s') && ServesAll(s', order)
    ensures order != [] ==> TidySides(s', specs)
    decreases |order|
  {
    if order != [] {
      var s1 := PassesSplit(cfg, s, order, specs, s');
      PassesServe(cfg, scope, s, order[..|order| - 1], specs, s1);
      LastPass(cfg, scope, s1, order, specs, s');
    }
  }

  lemma LastPass(cfg: Config, scope: Scope, s: Store, order: seq<Spec>, specs: set<Spec>, s': Store)
    requires Within(cfg, scope, s) && Separated(cfg, scope) && SpecsWithin(cfg, scope, specs)
    requires order != [] && forall spec :: spec in order ==> spec in specs
    requires ServesAll(s, order[..|order| - 1])
    requires ObjectsPass(cfg, s, order[|order| - 1], specs) == Some(s')
    ensures Within(cfg, scope, s') && ServesAll(s', order) && TidySides(s', specs)
  {
    NextPass(cfg, scope, s, order[..|order| - 1], order[|order| - 1], specs, s');
    assert order == order[..|order| - 1] + [order[|order| - 1]];
  }

  lemma PassesSplit(cfg: Config, s: Store, order: seq<Spec>, specs: set<Spec>, s': Store) returns (mid: Store)
    requires order != [] && Passes(cfg, s, order, specs) == Some(s')
    ensures Passes(cfg, s, order[..|order| - 1], specs) == Some(mid)
    ensures ObjectsPass(cfg, mid, order[|order| - 1], specs) == Some(s')
  {
    mid := Passes(cfg, s, order[..|order| - 1], specs).value;
  }

  lemma PassServes(cfg: Config, scope: Scope, s: Store, spec: Spec, specs: set<Spec>, s': Store, t: Target, mine: bool)
    requires Within(cfg, scope, s) && Separated(cfg, scope) && SpecsWithin(cfg, scope, specs) && spec in specs
    requires EgressPass(cfg, s, spec, specs) == Some(s') && t in Demand(specs)
    requires if mine then t in WantedTargets(spec) else Served(s, t)
    ensures Served(s', t)
  {
    var mid := EnsureAll(cfg, s, spec).value;
    EnsureWithin(cfg, scope, s, spec, specs, mid);
    EnsureAllSettles(cfg, s, spec, mid);
    if !mine { EnsureAllKeeps(cfg, s, spec, mid, t); }
    ServedSurvives(cfg, scope, mid, spec, specs, t);
  }

  lemma EnsureAllKeeps(cfg: Config, s: Store, spec: Spec, s': Store, t: Target)
    requires EnsureAll(cfg, s, spec) == Some(s') && Served(s, t)
    ensures Served(s', t)
  {
    var mid := EnsureAllSplit(cfg, s, spec, s');
    ServedStays(s, mid, t);
    PoliciesAdd(cfg, mid, Requests(cfg, spec, spec.accounts), s', Requests(cfg, spec, spec.accounts));
    ServedStays(mid, s', t);
  }

  /** No child stands for a host that is not asked for. */
  lemma ChildDemanded(cfg: Config, scope: Scope, s: Store, specs: set<Spec>, k: Key)
    requires Within(cfg, scope, s) && Separated(cfg, scope) && SpecsWithin(cfg, scope, specs)
    requires TidySides(s, specs) && k in s && s[k].Child()
    ensures exists t :: t in Demand(specs) && s[k] in ChildrenOf(t)
  {
    var t :| t in scope.targets && s[k] in ChildrenOf(t);
    ChildLabel(t, s[k]);
    assert Listed(s, Label(t));
    var side := if Label(t) in Hosts(s, ExternalSide) then ExternalSide else CloudSQLSide;
    assert TidySide(s, specs, side);
    assert Hosts(s, side) == InUse(specs, side);
    if Label(t) in Hosts(s, ExternalSide) || Label(t) != "*" {
      var u :| u in Demand(specs) && SideOf(u) == side && Label(u) == Label(t);
      assert u == t;
    }
  }

  ghost function AllChildren(specs: set<Spec>): set<Object> {
    set t, o | t in Demand(specs) && o in ChildrenOf(t) :: o
  }

  lemma ChildrenCanonical(cfg: Config, scope: Scope, s: Store, order: seq<Spec>, specs: set<Spec>)
    requires Within(cfg, scope, s) && Separated(cfg, scope) && SpecsWithin(cfg, scope, specs)
    requires (forall spec :: spec in order <==> spec in specs) && ServesAll(s, order) && TidySides(s, specs)
    ensures Children(s) == AllChildren(specs)
  {
    forall k | k in s && s[k].Child() ensures s[k] in AllChildren(specs) {
      ChildDemanded(cfg, scope, s, specs, k);
    }
    forall t, o | t in Demand(specs) && o in ChildrenOf(t) ensures o in Children(s) {
      DemandServed(order, specs, s, t);
      ServedExactly(cfg, scope, s, t);
      ChildLabel(t, o);
    }
  }

  lemma GatewayCanonical(s: Store, order: seq<Spec>, specs: set<Spec>)
    requires (forall spec :: spec in order <==> spec in specs) && ServesAll(s, order) && TidySides(s, specs)
    ensures GatewayKey(ExternalSide) in s <==> InUse(specs, ExternalSide) != {}
  {
    if InUse(specs, ExternalSide) != {} {
      var t :| t in Demand(specs) && SideOf(t) == ExternalSide;
      DemandServed(order, specs, s, t);
    }
    assert TidySide(s, specs, ExternalSide);
  }

  /** After successful reconciles that cover every resource, in any order and from any
      state within the scope, the egress objects are canonical. */
  lemma AnyOrderCanonical(cfg: Config, scope: Scope, s: Store, order: seq<Spec>, specs: set<Spec>, s': Store)
    requires Within(cfg, scope, s) && Separated(cfg, scope) && SpecsWithin(cfg, scope, specs)
    requires order != [] && (forall spec :: spec in order <==> spec in specs) && Passes(cfg, s, order, specs) == Some(s')
    ensures Canonical(s', specs)
  {
    PassesServe(cfg, scope, s, order, specs, s');
    ChildrenCanonical(cfg, scope, s', order, specs);
    GatewayCanonical(s', order, specs);
    assert TidySide(s', specs, ExternalSide) && TidySide(s', specs, CloudSQLSide);
  }

  lemma DemandServed(order: seq<Spec>, specs: set<Spec>, s: Store, t: Target)
    requires forall spec :: spec in order <==> spec in specs
    requires ServesAll(s, order) && t in Demand(specs)
    ensures Served(s, t)
  {
    var spec :| spec in specs && t in WantedTargets(spec);
    assert spec in order;
  }

  ghost predicate HttpsOnly(s: Store) {
    GatewayKey(ExternalSide) in s ==> HttpsGateway(s[GatewayKey(ExternalSide)])
  }

  lemma ExtendsHttps(s: Store, s': Store, ts: set<Target>)
    requires Extends(s, s', ts) && HttpsOnly(s)
    ensures HttpsOnly(s')
  {
    var k := GatewayKey(ExternalSide);
    if k in s' && k !in s {
      assert MadeFor(ts, k, s'[k]);
      if t :| t in ts && s'[k] in ChildrenOf(t) { ChildLabel(t, s'[k]); }
    }
  }

  lemma EnsureHttps(cfg: Config, s: Store, spec: Spec, s': Store)
    requires HttpsOnly(s) && EnsureAll(cfg, s, spec) == Some(s')
    ensures HttpsOnly(s')
  {
    var mid := EnsureAllSplit(cfg, s, spec, s');
    ExtendsHttps(s, mid, WantedTargets(spec));
    var rs := Requests(cfg, spec, spec.accounts);
    PoliciesAdd(cfg, mid, rs, s', rs);
    PoliciesKeepGateways(cfg, mid, s', rs, ExternalSide);
  }

  lemma ShrinksHttps(s: Store, s': Store)
    requires HttpsOnly(s) && Shrinks(s, s')
    ensures HttpsOnly(s')
  {
    var k := GatewayKey(ExternalSide);
    assert k in s' ==> s'[k] == s[k] || Rewritten(s[k], s'[k]);
  }

  lemma PassHttps(cfg: Config, s: Store, spec: Spec, specs: set<Spec>, s': Store)
    requires Gated(s) && HttpsOnly(s) && EgressPass(cfg, s, spec, specs) == Some(s')
    ensures HttpsOnly(s')
  {
    var mid := EnsureAll(cfg, s, spec).value;
    EnsureHttps(cfg, s, spec, mid);
    EnsureAllGated(cfg, s, spec, mid);
    CleanAllTidy(mid, spec, specs);
    ShrinksHttps(mid, s');
  }

  lemma ObjectsPassHttps(cfg: Config, s: Store, spec: Spec, specs: set<Spec>, s': Store)
    requires Keyed(s) && Gated(s) && HttpsOnly(s) && ObjectsPass(cfg, s, spec, specs) == Some(s')
    ensures HttpsOnly(s')
  {
    var a := AccountsDone(cfg, s, spec);
    AccountsDoneFacts(cfg, s, spec);
    SameGated(s, a);
    assert !AccountKind(GatewayKey(ExternalSide).kind);
    PassHttps(cfg, a, spec, specs, s');
  }

  lemma {:induction false} PassesHttps(cfg: Config, scope: Scope, s: Store, order: seq<Spec>, specs: set<Spec>, s': Store)
    requires Within(cfg, scope, s) && Separated(cfg, scope) && SpecsWithin(cfg, scope, specs) && HttpsOnly(s)
    requires (forall spec :: spec in order ==> spec in specs) && Passes(cfg, s, order, specs) == Some(s')
    ensures HttpsOnly(s')
    decreases |order|
  {
    if order != [] {
      var s1 := PassesSplit(cfg, s, order, specs, s');
      PassesHttps(cfg, scope, s, order[..|order| - 1], specs, s1);
      PassesServe(cfg, scope, s, order[..|order| - 1], specs, s1);
      ObjectsPassHttps(cfg, s1, order[|order| - 1], specs, s');
    }
  }

  /** The VirtualServices, DestinationRules and ServiceEntries by their keys. */
  ghost function ChildMap(s: Store): Store {
    map k | k in s && s[k].Child() :: s[k]
  }

  lemma SameChildMap(s: Store, s': Store)
    requires Keyed(s) && Keyed(s') && Children(s) == Children(s')
    ensures ChildMap(s) == ChildMap(s')
  {
    forall k | k in s && s[k].Child() ensures k in s' && s'[k] == s[k] {
      assert s[k] in Children(s');
    }
    forall k | k in s' && s'[k].Child() ensures k in s && s[k] == s'[k] {
      assert s'[k] in Children(s);
    }
  }

  lemma PassesEnd(cfg: Config, scope: Scope, s: Store, order: seq<Spec>, specs: set<Spec>, s': Store)
    requires Within(cfg, scope, s) && Shaped(s) && Separated(cfg, scope) && SpecsWithin(cfg, scope, specs)
    requires order != [] && (forall spec :: spec in order <==> spec in specs) && Passes(cfg, s, order, specs) == Some(s')
    ensures Canonical(s', specs) && Keyed(s')
    ensures var k := GatewayKey(ExternalSide);
      k in s' ==> s'[k] == Gateway(EXTERNAL_GATEWAY, [Server(80, "HTTPS", Canon(InUse(specs, ExternalSide)))])
  {
    AnyOrderCanonical(cfg, scope, s, order, specs, s');
    PassesServe(cfg, scope, s, order, specs, s');
    assert GatewayKey(ExternalSide) in s ==> ShapedGateway(s[GatewayKey(ExternalSide)], ExternalSide);
    PassesHttps(cfg, scope, s, order, specs, s');
    ExternalBuilt(s', specs);
  }

  lemma ExternalBuilt(s: Store, specs: set<Spec>)
    requires Keyed(s) && HttpsOnly(s) && Canonical(s, specs)
    ensures var k := GatewayKey(ExternalSide);
      k in s ==> s[k] == Gateway(EXTERNAL_GATEWAY, [Server(80, "HTTPS", Canon(InUse(specs, ExternalSide)))])
  {
    var k := GatewayKey(ExternalSide);
    if k in s { assert s[k].Id() == k; }
  }

  /** Confluence: two histories that end with the same specifications, whatever they
      started from and in whatever order they went, end with the same VirtualServices,
      DestinationRules and ServiceEntries, the same external gateway and the same CloudSQL
      entries. The CloudSQL gateway itself is not the operator's to build. */
  lemma Confluent(cfg: Config, scope: Scope, a: Store, p: seq<Spec>, a': Store, b: Store, q: seq<Spec>, b': Store, specs: set<Spec>)
    requires Within(cfg, scope, a) && Within(cfg, scope, b) && Shaped(a) && Shaped(b)
    requires Separated(cfg, scope) && SpecsWithin(cfg, scope, specs)
    requires p != [] && (forall spec :: spec in p <==> spec in specs) && Passes(cfg, a, p, specs) == Some(a')
    requires q != [] && (forall spec :: spec in q <==> spec in specs) && Passes(cfg, b, q, specs) == Some(b')
    ensures ChildMap(a') == ChildMap(b')
    ensures var k := GatewayKey(ExternalSide); (k in a' <==> k in b') && (k in a' ==> a'[k] == b'[k])
    ensures var k := GatewayKey(CloudSQLSide); k in a' && k in b' ==> Entries(a'[k]) == Entries(b'[k])
  {
    PassesEnd(cfg, scope, a, p, specs, a');
    PassesEnd(cfg, scope, b, q, specs, b');
    SameChildMap(a', b');
  }

  // ---- No failure of its own -------------------------------------------------------

  ghost predicate Supported(cfg: Config, spec: Spec) {
    forall r :: Requested(cfg, spec, r) ==> NewPolicy(cfg, r).Some?
  }

  ghost predicate ChildrenWithin(scope: Scope, s: Store) {
    Keyed(s) && forall k :: k in s && s[k].Child() ==> ChildWithin(scope, s[k])
  }

  lemma MakeWithin(scope: Scope, s: Store, present: bool, t: Target, o: Object, s': Store)
    requires ChildrenWithin(scope, s) && t in scope.targets && o in ChildrenOf(t) && Make(s, present, o) == Some(s')
    ensures ChildrenWithin(scope, s')
  {
  }

  /** The check by label and the uniqueness of names agree: a rule that is not found by its
      label has no name to clash with. */
  lemma RuleFree(cfg: Config, scope: Scope, s: Store, t: Target, d: Direction)
    requires ChildrenWithin(scope, s) && Separated(cfg, scope) && t in scope.targets
    requires NewRule(t, d).Id() in s
    ensures Any(s, ByRule(Label(t), d))
  {
    var k := NewRule(t, d).Id();
    assert s[k].Id() == k && s[k].DestinationRule?;
    var u :| u in scope.targets && s[k] in ChildrenOf(u);
    RuleOf(u, s[k]);
    RuleDirections(t);
    RuleOf(t, NewRule(t, d));
    Names.RuleNameInjective(t, d, u, s[k].direction);
    assert Matches(ByRule(Label(t), d), s[k]);
  }

  lemma ServiceEntryFree(cfg: Config, scope: Scope, s: Store, t: Target)
    requires ChildrenWithin(scope, s) && Separated(cfg, scope) && t in scope.targets
    requires NewServiceEntry(t).Id() in s
    ensures Any(s, ByHost(ServiceEntries, Label(t)))
  {
    var k := NewServiceEntry(t).Id();
    assert s[k].Id() == k && s[k].ServiceEntry?;
    var u :| u in scope.targets && s[k] in ChildrenOf(u);
    ServiceEntryOf(u, s[k]);
    ServiceEntryOf(t, NewServiceEntry(t));
    assert Matches(ByHost(ServiceEntries, Label(t)), s[k]);
  }

  /** No creation of a child hits AlreadyExists. */
  lemma ChildrenProgress(cfg: Config, scope: Scope, s: Store, t: Target)
    requires ChildrenWithin(scope, s) && Separated(cfg, scope) && t in scope.targets
    ensures EnsureChildren(s, t).Some?
  {
    var vs, to, from := NewVirtualService(t), NewRule(t, ToGateway), NewRule(t, FromGateway);
    var s1 := Make(s, vs.Id() in s, vs).value;
    MakeWithin(scope, s, vs.Id() in s, t, vs, s1);
    if !Any(s1, ByRule(Label(t), ToGateway)) && to.Id() in s1 { RuleFree(cfg, scope, s1, t, ToGateway); }
    var s2 := Make(s1, Any(s1, ByRule(Label(t), ToGateway)), to).value;
    MakeWithin(scope, s1, Any(s1, ByRule(Label(t), ToGateway)), t, to, s2);
    if !Any(s2, ByRule(Label(t), FromGateway)) && from.Id() in s2 { RuleFree(cfg, scope, s2, t, FromGateway); }
    var s3 := Make(s2, Any(s2, ByRule(Label(t), FromGateway)), from).value;
    MakeWithin(scope, s2, Any(s2, ByRule(Label(t), FromGateway)), t, from, s3);
    if !Any(s3, ByHost(ServiceEntries, Label(t))) && NewServiceEntry(t).Id() in s3 { ServiceEntryFree(cfg, scope, s3, t); }
  }

  lemma EntryProgress(s: Store, t: Target)
    requires Gated(s) && (t.CloudSQL? ==> GatewayKey(CloudSQLSide) in s)
    ensures EnsureEntry(s, t).Some?
  {
  }

  lemma {:induction false} TargetsProgress(cfg: Config, scope: Scope, s: Store, ts: seq<Target>)
    requires Within(cfg, scope, s) && Separated(cfg, scope) && forall t :: t in ts ==> t in scope.targets
    requires (exists t: Target :: t in ts && t.CloudSQL?) ==> GatewayKey(CloudSQLSide) in s
    ensures EnsureTargets(s, ts).Some?
    decreases |ts|
  {
    if ts != [] {
      EntryProgress(s, ts[0]);
      var s0 := EnsureEntry(s, ts[0]).value;
      EntryExtends(s, ts[0], s0, {ts[0]});
      ExtendsKeyed(s, s0, {ts[0]});
      ExtendsChildren(scope, s, s0, {ts[0]});
      ChildrenProgress(cfg, scope, s0, ts[0]);
      var s1 := EnsureTarget(s, ts[0]).value;
      TargetExtends(s, ts[0], s1, {ts[0]});
      TargetsWithin(cfg, scope, s, s1, {ts[0]});
      TargetsProgress(cfg, scope, s1, ts[1..]);
    }
  }

  lemma {:induction false} PoliciesProgress(cfg: Config, s: Store, rs: seq<Request>)
    requires forall r :: r in rs ==> NewPolicy(cfg, r).Some?
    ensures EnsurePolicies(cfg, s, rs).Some?
    decreases |rs|
  {
    if rs != [] {
      assert rs[0] in rs;
      PoliciesProgress(cfg, EnsurePolicy(cfg, s, rs[0]).value, rs[1..]);
    }
  }

  /** Fault-free progress: from any state within separated names a pass has a result, so a
      reconcile without an injected fault returns success. */
  lemma PassProgress(cfg: Config, scope: Scope, s: Store, spec: Spec, specs: set<Spec>)
    requires Within(cfg, scope, s) && Separated(cfg, scope) && SpecsWithin(cfg, scope, specs) && spec in specs
    requires Supported(cfg, spec) && GatewayKey(CloudSQLSide) in s
    ensures EgressPass(cfg, s, spec, specs).Some?
  {
    assert WantedTargets(spec) <= Demand(specs);
    var ext, sql := Targets(spec.accounts, ExternalSide), Targets(spec.accounts, CloudSQLSide);
    TargetsProgress(cfg, scope, s, ext);
    var s1 := EnsureTargets(s, ext).value;
    var here := set t | t in ext;
    TargetsExtend(s, ext, s1, here);
    TargetsWithin(cfg, scope, s, s1, here);
    TargetsProgress(cfg, scope, s1, sql);
    PoliciesProgress(cfg, EnsureTargets(s1, sql).value, Requests(cfg, spec, spec.accounts));
  }

  lemma ObjectsProgress(cfg: Config, scope: Scope, s: Store, spec: Spec, specs: set<Spec>)
    requires Within(cfg, scope, s) && Separated(cfg, scope) && SpecsWithin(cfg, scope, specs) && spec in specs
    requires Supported(cfg, spec) && GatewayKey(CloudSQLSide) in s
    ensures ObjectsPass(cfg, s, spec, specs).Some?
  {
    var a := AccountsDone(cfg, s, spec);
    AccountsDoneFacts(cfg, s, spec);
    SameWithin(cfg, scope, s, a);
    assert !AccountKind(GatewayKey(CloudSQLSide).kind);
    PassProgress(cfg, scope, a, spec, specs);
  }

  // ---- From scratch ----------------------------------------------------------------

  /** What the operator finds when it is installed: the CloudSQL gateway and nothing else. */
  const FRESH: Store := map[GatewayKey(CloudSQLSide) := Gateway(CLOUDSQL_GATEWAY, [Server(3307, "TLS", ["*"])])]

  /** A fresh cluster is a safe start and within every scope. */
  lemma FreshStart(cfg: Config, scope: Scope, crs: map<string, Resource>, history: seq<Row>)
    requires UniqueOwners(crs)
    ensures Safe(cfg, World(crs, FRESH, history)) && Within(cfg, scope, FRESH)
  {
    GatewaysDiffer();
    assert Shaped(FRESH) by {
      forall side | GatewayKey(side) in FRESH ensures ShapedGateway(FRESH[GatewayKey(side)], side) {}
    }
  }

  ghost function WantedLabels(cfg: Config, specs: set<Spec>): set<Labels> {
    set spec, r | spec in specs && r in Requests(cfg, spec, spec.accounts) :: r.labels
  }

  /** The scope of the specifications themselves. */
  ghost function OwnScope(cfg: Config, specs: set<Spec>): Scope {
    Scope(Demand(specs), WantedLabels(cfg, specs))
  }

  lemma OwnScopeCovers(cfg: Config, specs: set<Spec>)
    ensures SpecsWithin(cfg, OwnScope(cfg, specs), specs)
  {
    forall spec, r | spec in specs && Requested(cfg, spec, r) ensures r.labels in OwnScope(cfg, specs).policies {
      assert r in Requests(cfg, spec, spec.accounts);
    }
  }

  lemma GatewayStays(cfg: Config, s: Store, spec: Spec, specs: set<Spec>, s': Store)
    requires Keyed(s) && Gated(s) && GatewayKey(CloudSQLSide) in s && ObjectsPass(cfg, s, spec, specs) == Some(s')
    ensures GatewayKey(CloudSQLSide) in s'
  {
    var a := AccountsDone(cfg, s, spec);
    AccountsDoneFacts(cfg, s, spec);
    SameGated(s, a);
    assert !AccountKind(GatewayKey(CloudSQLSide).kind);
    var mid := EnsureAll(cfg, a, spec).value;
    var split := EnsureAllSplit(cfg, a, spec, mid);
    AddsHosts(cfg, split, mid, Requests(cfg, spec, spec.accounts)) by {
      PoliciesAdd(cfg, split, Requests(cfg, spec, spec.accounts), mid, Requests(cfg, spec, spec.accounts));
    }
    EnsureAllGated(cfg, a, spec, mid);
    assert "*" in InUse(specs, CloudSQLSide);
    CleanAllPresent(mid, spec, specs, CloudSQLSide);
  }

  lemma {:induction false} PassesProgress(cfg: Config, scope: Scope, s: Store, order: seq<Spec>, specs: set<Spec>)
    requires Within(cfg, scope, s) && Separated(cfg, scope) && SpecsWithin(cfg, scope, specs)
    requires (forall spec :: spec in order ==> spec in specs && Supported(cfg, spec)) && GatewayKey(CloudSQLSide) in s
    ensures Passes(cfg, s, order, specs).Some? && GatewayKey(CloudSQLSide) in Passes(cfg, s, order, specs).value
    decreases |order|
  {
    if order != [] {
      var before, last := order[..|order| - 1], order[|order| - 1];
      PassesProgress(cfg, scope, s, before, specs);
      var s1 := Passes(cfg, s, before, specs).value;
      PassesServe(cfg, scope, s, before, specs, s1);
      assert last in order;
      ObjectsProgress(cfg, scope, s1, last, specs);
      GatewayStays(cfg, s1, last, specs, ObjectsPass(cfg, s1, last, specs).value);
    }
  }

  /** The closed form: for any specifications whose own names are separated and whose
      protocols are supported, fault-free reconciles that cover all of them in any order
      all succeed on a fresh cluster and end with exactly what they ask for. */
  lemma FromScratch(cfg: Config, specs: set<Spec>, order: seq<Spec>)
    requires Separated(cfg, OwnScope(cfg, specs)) && forall spec :: spec in specs ==> Supported(cfg, spec)
    requires order != [] && forall spec :: spec in order <==> spec in specs
    ensures Passes(cfg, FRESH, order, specs).Some? && Canonical(Passes(cfg, FRESH, order, specs).value, specs)
  {
    var scope := OwnScope(cfg, specs);
    FreshStart(cfg, scope, map[], []);
    OwnScopeCovers(cfg, specs);
    PassesProgress(cfg, scope, FRESH, order, specs);
    AnyOrderCanonical(cfg, scope, FRESH, order, specs, Passes(cfg, FRESH, order, specs).value);
  }
}
