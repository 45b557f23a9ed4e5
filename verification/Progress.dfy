/** As long as the operator reads the same specifications, every call of every reconcile of
    any resource goes in one direction: towards what all of them together ask for. Resources
    that are being deleted ask for hosts like the others, but for policies no more. */
module Progress {
  import opened Wrappers
  import opened HostList
  import opened Resources
  import opened Protocol
  import opened Safety
  import opened EgressSpec
  import opened Convergence
  import opened Separation
  import opened Confluence
  import opened Stability
  import opened Scoped

  // ---- Defects ---------------------------------------------------------------------

  datatype Defect =
    | MissingEntry(side: Side, host: string)
    | StaleEntry(side: Side, host: string)
    | MissingChild(child: Object)
    | MissingPolicy(labels: Labels)
    | StaleObject(key: Key)

  ghost predicate DroppedByAny(specs: set<Spec>, l: Labels) {
    exists spec :: spec in specs && Dropped(spec, l)
  }

  /** What the cleanups are there to remove. A policy for a host that another account still
      uses is not among it. */
  ghost predicate Superfluous(specs: set<Spec>, live: set<Spec>, o: Object) {
    || (o.Child() && o !in AllChildren(specs))
    || (o.AuthorizationPolicy? &&
        (|| DroppedByAny(specs, o.labels) || RevokedByAny(specs, o.labels)
         || Ending(specs, live, o.labels)
         || (o.labels.hostType == External && !DemandedHost(specs, o.labels.host))))
  }

  /** The policy of an account whose resource is being deleted. */
  ghost predicate Ending(specs: set<Spec>, live: set<Spec>, l: Labels) {
    exists spec :: spec in specs && spec !in live && l.project == spec.project && l.domain == spec.domain
      && Named(spec.accounts, l.account)
  }

  ghost predicate DemandedHost(specs: set<Spec>, h: string) {
    exists t :: t in Demand(specs) && Label(t) == h
  }

  ghost predicate IsDefect(cfg: Config, s: Store, specs: set<Spec>, live: set<Spec>, d: Defect) {
    match d
    case MissingEntry(side, h) => h in InUse(specs, side) && h !in Hosts(s, side)
    case StaleEntry(side, h) => h in Hosts(s, side) && h !in InUse(specs, side)
    case MissingChild(o) => o in AllChildren(specs) && !Holds(s, o)
    case MissingPolicy(l) => l in WantedLabels(cfg, live) && !HasPolicy(s, l)
    case StaleObject(k) => k in s && Superfluous(specs, live, s[k])
  }

  const SIDES := {ExternalSide, CloudSQLSide}

  /** Every defect is one of finitely many. */
  ghost function Suspects(cfg: Config, s: Store, specs: set<Spec>, live: set<Spec>): set<Defect> {
    (set side, h | side in SIDES && h in InUse(specs, side) :: MissingEntry(side, h))
    + (set side, h | side in SIDES && h in Hosts(s, side) :: StaleEntry(side, h))
    + (set o | o in AllChildren(specs) :: MissingChild(o))
    + (set l | l in WantedLabels(cfg, live) :: MissingPolicy(l))
    + (set k | k in s :: StaleObject(k))
  }

  ghost function Defects(cfg: Config, s: Store, specs: set<Spec>, live: set<Spec>): set<Defect> {
    set d | d in Suspects(cfg, s, specs, live) && IsDefect(cfg, s, specs, live, d)
  }

  lemma DefectsExact(cfg: Config, s: Store, specs: set<Spec>, live: set<Spec>, d: Defect)
    ensures d in Defects(cfg, s, specs, live) <==> IsDefect(cfg, s, specs, live, d)
  {
    if IsDefect(cfg, s, specs, live, d) {
      assert d in Suspects(cfg, s, specs, live) by {
        match d
        case MissingEntry(side, h) => assert side in SIDES;
        case StaleEntry(side, h) => assert side in SIDES;
        case _ =>
      }
    }
  }

  ghost function Distance(cfg: Config, s: Store, specs: set<Spec>, live: set<Spec>): nat {
    |Defects(cfg, s, specs, live)|
  }

  ghost predicate NoWorse(cfg: Config, s: Store, s': Store, specs: set<Spec>, live: set<Spec>) {
    forall d :: IsDefect(cfg, s', specs, live, d) ==> IsDefect(cfg, s, specs, live, d)
  }

  ghost predicate Mended(cfg: Config, s: Store, s': Store, specs: set<Spec>, live: set<Spec>) {
    exists d :: IsDefect(cfg, s, specs, live, d) && !IsDefect(cfg, s', specs, live, d)
  }

  lemma SmallerSet<T>(a: set<T>, b: set<T>)
    requires a <= b
    ensures |a| <= |b| && (a != b ==> |a| < |b|)
  {
    assert b == a + (b - a);
  }

  lemma NoWorseDistance(cfg: Config, s: Store, s': Store, specs: set<Spec>, live: set<Spec>)
    requires NoWorse(cfg, s, s', specs, live)
    ensures Distance(cfg, s', specs, live) <= Distance(cfg, s, specs, live)
    ensures Mended(cfg, s, s', specs, live) ==> Distance(cfg, s', specs, live) < Distance(cfg, s, specs, live)
  {
    var a, b := Defects(cfg, s', specs, live), Defects(cfg, s, specs, live);
    forall d | d in a ensures d in b {
      DefectsExact(cfg, s', specs, live, d);
      DefectsExact(cfg, s, specs, live, d);
    }
    SmallerSet(a, b);
    if Mended(cfg, s, s', specs, live) {
      var d :| IsDefect(cfg, s, specs, live, d) && !IsDefect(cfg, s', specs, live, d);
      DefectsExact(cfg, s', specs, live, d);
      DefectsExact(cfg, s, specs, live, d);
    }
  }

  // ---- Names apart -----------------------------------------------------------------

  ghost predicate AllGovern(specs: set<Spec>) {
    forall spec :: spec in specs ==> Governs(spec, specs)
  }

  /** Names are separated, and what the operator last read has one resource for a team and
      no account twice in a resource. Resources may be in deletion, and users may have edited
      any of them since. */
  ghost predicate Apart(cfg: Config, scope: Scope, m: Monitor) {
    && Separated(cfg, scope) && SpecsWithin(cfg, scope, m.view) && Within(cfg, scope, m.world.objects)
    && Safe(cfg, m.world)
    && AllGovern(m.view) && m.live <= m.view
  }

  /** A wanted policy is nothing the cleanups remove. */
  lemma WantedKept(cfg: Config, scope: Scope, m: Monitor, l: Labels)
    requires Apart(cfg, scope, m) && l in WantedLabels(cfg, m.live)
    ensures l in scope.policies && !Stale(m.world.objects, m.view, l.host)
    ensures !DroppedByAny(m.view, l) && !RevokedByAny(m.view, l) && !Ending(m.view, m.live, l)
    ensures l.hostType == External ==> DemandedHost(m.view, l.host)
  {
    var spec, r :| spec in m.live && Requested(cfg, spec, r) && r.labels == l;
    var account := RequestAsksFor(cfg, spec, spec.accounts, r);
    RequestTidy(cfg, spec, m.view, r);
    forall other | other in m.view ensures !Dropped(other, l) { NotDropped(cfg, spec, m.view, other, r); }
    if l.hostType == External {
      var t := RequestHost(cfg, spec, r);
      assert t in Demand(m.view);
      DemandedFresh(cfg, scope, m.world.objects, m.view, t);
    } else {
      InternalFresh(cfg, scope, m.world.objects, m.view, l);
    }
  }

  lemma ChildKept(cfg: Config, scope: Scope, m: Monitor, o: Object)
    requires Apart(cfg, scope, m) && o in AllChildren(m.view)
    ensures o.Child() && !Stale(m.world.objects, m.view, o.HostLabel().value)
  {
    var t :| t in Demand(m.view) && o in ChildrenOf(t);
    ChildLabel(t, o);
    DemandedFresh(cfg, scope, m.world.objects, m.view, t);
  }

  lemma PolicyStays(s: Store, s': Store, l: Labels)
    requires forall k :: k in s && s[k].AuthorizationPolicy? && s[k].labels == l ==> k in s' && s'[k] == s[k]
    ensures HasPolicy(s, l) ==> HasPolicy(s', l)
  {
  }

  // ---- Creations -------------------------------------------------------------------

  /** Nothing but one new object, which is not superfluous. */
  lemma AddedNoWorse(cfg: Config, s: Store, specs: set<Spec>, live: set<Spec>, o: Object)
    requires o.Id() !in s && !Superfluous(specs, live, o)
    requires o.Gateway? ==> o.Id() == GatewayKey(ExternalSide) && Elems(Entries(o)) <= InUse(specs, ExternalSide)
    ensures NoWorse(cfg, s, s[o.Id() := o], specs, live)
  {
    var s' := s[o.Id() := o];
    forall d | IsDefect(cfg, s', specs, live, d) ensures IsDefect(cfg, s, specs, live, d) {
      match d
      case MissingEntry(side, h) =>
      case StaleEntry(side, h) => GatewaysDiffer();
      case MissingChild(c) =>
      case MissingPolicy(l) => PolicyStays(s, s', l);
      case StaleObject(k) =>
    }
  }

  lemma ChildAsked(cfg: Config, m: Monitor, o: Object)
    requires o.Child() && MayCreate(cfg, m, o)
    ensures o in AllChildren(m.view)
  {
    var spec, t :| MayCreateChild(m, spec, t, o);
    assert t in Demand(m.view);
  }

  lemma CreatedChild(cfg: Config, scope: Scope, m: Monitor, o: Object)
    requires Apart(cfg, scope, m) && o.Id() !in m.world.objects && o.Child() && MayCreate(cfg, m, o)
    ensures NoWorse(cfg, m.world.objects, m.world.objects[o.Id() := o], m.view, m.live)
    ensures Mended(cfg, m.world.objects, m.world.objects[o.Id() := o], m.view, m.live)
  {
    ChildAsked(cfg, m, o);
    AddedNoWorse(cfg, m.world.objects, m.view, m.live, o);
    assert IsDefect(cfg, m.world.objects, m.view, m.live, MissingChild(o));
    assert !IsDefect(cfg, m.world.objects[o.Id() := o], m.view, m.live, MissingChild(o));
  }

  lemma CreatedPolicy(cfg: Config, scope: Scope, m: Monitor, o: Object)
    requires Apart(cfg, scope, m) && o.Id() !in m.world.objects && o.AuthorizationPolicy? && MayCreate(cfg, m, o)
    ensures NoWorse(cfg, m.world.objects, m.world.objects[o.Id() := o], m.view, m.live)
    ensures Mended(cfg, m.world.objects, m.world.objects[o.Id() := o], m.view, m.live)
  {
    var s, s' := m.world.objects, m.world.objects[o.Id() := o];
    var name, spec, r :| MayCreatePolicy(cfg, m, name, spec, r, o);
    assert r in Requests(cfg, spec, spec.accounts) && o.labels == r.labels;
    assert o.labels in WantedLabels(cfg, m.live);
    WantedKept(cfg, scope, m, o.labels);
    AddedNoWorse(cfg, s, m.view, m.live, o);
    assert !HasPolicy(s, o.labels) by {
      forall k | k in s && s[k].AuthorizationPolicy? && s[k].labels == o.labels ensures k == o.Id() {
        assert s[k].Id() == k && s[k].name == o.name;
      }
    }
    assert HasPolicy(s', o.labels) by { assert o.Id() in s' && s'[o.Id()] == o; }
    assert IsDefect(cfg, s, m.view, m.live, MissingPolicy(o.labels)) && !IsDefect(cfg, s', m.view, m.live, MissingPolicy(o.labels));
  }

  lemma CreatedGateway(cfg: Config, scope: Scope, m: Monitor, o: Object)
    requires Apart(cfg, scope, m) && o.Id() !in m.world.objects && o.Gateway? && MayCreate(cfg, m, o)
    ensures NoWorse(cfg, m.world.objects, m.world.objects[o.Id() := o], m.view, m.live)
    ensures Mended(cfg, m.world.objects, m.world.objects[o.Id() := o], m.view, m.live)
  {
    var spec, t :| MayServe(m, spec, t) && t.ExternalHost? && o == NewGateway(t.url);
    var h := t.url;
    assert t in Demand(m.view) && Label(t) == h;
    assert Entries(o) == [h];
    AddedNoWorse(cfg, m.world.objects, m.view, m.live, o);
    assert h in Elems([h]);
    assert IsDefect(cfg, m.world.objects, m.view, m.live, MissingEntry(ExternalSide, h));
    assert !IsDefect(cfg, m.world.objects[o.Id() := o], m.view, m.live, MissingEntry(ExternalSide, h));
  }

  // ---- Updates ---------------------------------------------------------------------

  /** Only the entries of one gateway change, and for the better. */
  lemma EntriesNoWorse(cfg: Config, s: Store, s': Store, specs: set<Spec>, live: set<Spec>, side: Side)
    requires GatewayKey(side) in s && s[GatewayKey(side)].Gateway?
    requires GatewayKey(side) in s' ==> s'[GatewayKey(side)].Gateway?
    requires s' - {GatewayKey(side)} == s - {GatewayKey(side)}
    requires Hosts(s', side) <= Hosts(s, side) + InUse(specs, side)
    requires Hosts(s, side) * InUse(specs, side) <= Hosts(s', side)
    ensures NoWorse(cfg, s, s', specs, live)
  {
    var g := GatewayKey(side);
    forall k | k != g ensures k in s' <==> k in s { assert k in s - {g} <==> k in s' - {g}; }
    forall k | k != g && k in s ensures s'[k] == s[k] { assert (s - {g})[k] == (s' - {g})[k]; }
    GatewaysDiffer();
    forall d | IsDefect(cfg, s', specs, live, d) ensures IsDefect(cfg, s, specs, live, d) {
      match d
      case MissingEntry(other, h) =>
      case StaleEntry(other, h) =>
      case MissingChild(c) =>
      case MissingPolicy(l) => PolicyStays(s, s', l);
      case StaleObject(k) =>
    }
  }

  lemma RewrittenGateway(cfg: Config, s: Store, specs: set<Spec>, live: set<Spec>, side: Side, o: Object, hosts: set<string>)
    requires GatewayKey(side) in s && s[GatewayKey(side)].Gateway? && |s[GatewayKey(side)].servers| > 0
    requires o == WithHosts(s[GatewayKey(side)], Canon(hosts))
    requires hosts <= Hosts(s, side) + InUse(specs, side) && Hosts(s, side) * InUse(specs, side) <= hosts
    ensures NoWorse(cfg, s, s[GatewayKey(side) := o], specs, live)
  {
    var s' := s[GatewayKey(side) := o];
    assert Entries(o) == Canon(hosts);
    assert s' - {GatewayKey(side)} == s - {GatewayKey(side)};
    EntriesNoWorse(cfg, s, s', specs, live, side);
  }

  lemma UpdatedGateway(cfg: Config, scope: Scope, m: Monitor, o: Object)
    requires Apart(cfg, scope, m) && o.Id() in m.world.objects && o.Gateway?
    requires MayUpdate(cfg, m, m.world.objects[o.Id()], o)
    ensures NoWorse(cfg, m.world.objects, m.world.objects[o.Id() := o], m.view, m.live)
  {
    var s := m.world.objects;
    var was := s[o.Id()];
    assert was.Id() == o.Id();
    var side :| was.Id() == GatewayKey(side)
      && (GatewayShrinks(m, side, was, o) || exists spec, t :: SideOf(t) == side && GatewayGrows(m, spec, t, was, o));
    if GatewayShrinks(m, side, was, o) {
      RewrittenGateway(cfg, s, m.view, m.live, side, o, InUse(m.view, side));
    } else {
      var spec, t :| SideOf(t) == side && GatewayGrows(m, spec, t, was, o);
      assert t in Demand(m.view);
      RewrittenGateway(cfg, s, m.view, m.live, side, o, Elems(Entries(was)) + {Label(t)});
    }
  }

  // ---- Deletions -------------------------------------------------------------------

  /** One superfluous object less. */
  lemma RemovedMends(cfg: Config, s: Store, specs: set<Spec>, live: set<Spec>, k: Key)
    requires k in s && Keyed(s) && !s[k].Gateway? && Superfluous(specs, live, s[k])
    requires s[k].AuthorizationPolicy? ==> s[k].labels !in WantedLabels(cfg, live)
    ensures NoWorse(cfg, s, s - {k}, specs, live) && Mended(cfg, s, s - {k}, specs, live)
  {
    var s' := s - {k};
    forall side ensures Hosts(s', side) == Hosts(s, side) {
      if GatewayKey(side) in s { assert s[GatewayKey(side)].Id() == GatewayKey(side); }
    }
    forall d | IsDefect(cfg, s', specs, live, d) ensures IsDefect(cfg, s, specs, live, d) {
      match d
      case MissingChild(c) =>
      case MissingPolicy(l) => PolicyStays(s, s', l);
      case _ =>
    }
    assert IsDefect(cfg, s, specs, live, StaleObject(k)) && !IsDefect(cfg, s', specs, live, StaleObject(k));
  }

  lemma DeletedEgress(cfg: Config, scope: Scope, m: Monitor, k: Key)
    requires Apart(cfg, scope, m) && k in m.world.objects && MayDeleteEgress(m, m.world.objects[k])
    requires m.world.objects[k].Child() || m.world.objects[k].AuthorizationPolicy?
    ensures NoWorse(cfg, m.world.objects, m.world.objects - {k}, m.view, m.live)
    ensures Mended(cfg, m.world.objects, m.world.objects - {k}, m.view, m.live)
  {
    var o := m.world.objects[k];
    if o.Child() {
      if o in AllChildren(m.view) { ChildKept(cfg, scope, m, o); }
    } else {
      if o.labels in WantedLabels(cfg, m.live) { WantedKept(cfg, scope, m, o.labels); }
      PolicySuperfluous(cfg, scope, m, o);
    }
    RemovedMends(cfg, m.world.objects, m.view, m.live, k);
  }

  lemma PolicySuperfluous(cfg: Config, scope: Scope, m: Monitor, o: Object)
    requires Apart(cfg, scope, m) && o.AuthorizationPolicy? && o.labels in scope.policies && MayDeleteEgress(m, o)
    ensures DroppedByAny(m.view, o.labels) || RevokedByAny(m.view, o.labels) || Ending(m.view, m.live, o.labels)
      || (o.labels.hostType == External && !DemandedHost(m.view, o.labels.host))
  {
    if side :| StaleHost(m, side, o.labels.host) {
      assert Stale(m.world.objects, m.view, o.labels.host);
      if o.labels.hostType == Internal {
        InternalFresh(cfg, scope, m.world.objects, m.view, o.labels);
      } else if t :| t in Demand(m.view) && Label(t) == o.labels.host {
        DemandedFresh(cfg, scope, m.world.objects, m.view, t);
      }
    } else {
      var spec :| MayDeletePolicy(m, spec, o.labels);
    }
  }

  lemma DeletedGateway(cfg: Config, scope: Scope, m: Monitor, k: Key)
    requires Apart(cfg, scope, m) && k in m.world.objects && m.world.objects[k].Gateway? && MayDelete(cfg, m, k, m.world.objects[k])
    ensures NoWorse(cfg, m.world.objects, m.world.objects - {k}, m.view, m.live)
    ensures Mended(cfg, m.world.objects, m.world.objects - {k}, m.view, m.live)
  {
    var s, s' := m.world.objects, m.world.objects - {k};
    assert s' - {k} == s - {k};
    EntriesNoWorse(cfg, s, s', m.view, m.live, ExternalSide);
    assert ShapedGateway(s[k], ExternalSide);
    var h := s[k].servers[0].hosts[0];
    assert h in Elems(Entries(s[k]));
    assert IsDefect(cfg, s, m.view, m.live, StaleEntry(ExternalSide, h)) && !IsDefect(cfg, s', m.view, m.live, StaleEntry(ExternalSide, h));
  }

  // ---- Any call --------------------------------------------------------------------

  lemma AccountCall(cfg: Config, s: Store, s': Store, specs: set<Spec>, live: set<Spec>)
    requires Keyed(s) && Keyed(s') && SameEgress(s, s')
    ensures NoWorse(cfg, s, s', specs, live)
  {
    forall k | k in s && !AccountKind(s[k].Id().kind) ensures k in s' && s'[k] == s[k] {}
    forall k | k in s' && !AccountKind(s'[k].Id().kind) ensures k in s && s'[k] == s[k] {}
    forall d | IsDefect(cfg, s', specs, live, d) ensures IsDefect(cfg, s, specs, live, d) {
      match d
      case MissingEntry(side, h) => assert !AccountKind(GatewayKey(side).kind);
      case StaleEntry(side, h) => assert !AccountKind(GatewayKey(side).kind);
      case MissingChild(c) =>
        var t :| t in Demand(specs) && c in ChildrenOf(t);
        ChildLabel(t, c);
        EgressKinds(c);
      case MissingPolicy(l) =>
        forall k | k in s && s[k].AuthorizationPolicy? ensures k in s' && s'[k] == s[k] { EgressKinds(s[k]); }
        PolicyStays(s, s', l);
      case StaleObject(k) => EgressKinds(s'[k]);
    }
  }

  /** The call creates or deletes a gateway, a child or a policy. */
  ghost predicate Moves(call: Call) {
    || (call.Create? && !AccountKind(call.item.Id().kind))
    || (call.Delete? && !AccountKind(call.key.kind))
  }

  lemma CreateProgress(cfg: Config, scope: Scope, m: Monitor, o: Object)
    requires Apart(cfg, scope, m) && o.Id() !in m.world.objects && MayCreate(cfg, m, o)
    ensures NoWorse(cfg, m.world.objects, m.world.objects[o.Id() := o], m.view, m.live)
    ensures Moves(Create(o)) ==> Mended(cfg, m.world.objects, m.world.objects[o.Id() := o], m.view, m.live)
  {
    EgressKinds(o);
    if AccountKind(o.Id().kind) {
      AccountCall(cfg, m.world.objects, m.world.objects[o.Id() := o], m.view, m.live);
    } else if o.Gateway? {
      CreatedGateway(cfg, scope, m, o);
    } else if o.AuthorizationPolicy? {
      CreatedPolicy(cfg, scope, m, o);
    } else {
      CreatedChild(cfg, scope, m, o);
    }
  }

  lemma UpdateProgress(cfg: Config, scope: Scope, m: Monitor, o: Object)
    requires Apart(cfg, scope, m) && o.Id() in m.world.objects && MayUpdate(cfg, m, m.world.objects[o.Id()], o)
    ensures NoWorse(cfg, m.world.objects, m.world.objects[o.Id() := o], m.view, m.live)
  {
    EgressKinds(o);
    if o.Gateway? {
      UpdatedGateway(cfg, scope, m, o);
    } else {
      AccountCall(cfg, m.world.objects, m.world.objects[o.Id() := o], m.view, m.live);
    }
  }

  lemma DeleteProgress(cfg: Config, scope: Scope, m: Monitor, k: Key)
    requires Apart(cfg, scope, m) && k in m.world.objects && MayDelete(cfg, m, k, m.world.objects[k])
    ensures NoWorse(cfg, m.world.objects, m.world.objects - {k}, m.view, m.live)
    ensures Moves(Delete(k)) ==> Mended(cfg, m.world.objects, m.world.objects - {k}, m.view, m.live)
  {
    var o := m.world.objects[k];
    assert o.Id() == k;
    EgressKinds(o);
    if AccountKind(k.kind) {
      AccountCall(cfg, m.world.objects, m.world.objects - {k}, m.view, m.live);
    } else if o.Gateway? {
      DeletedGateway(cfg, scope, m, k);
    } else {
      DeletedEgress(cfg, scope, m, k);
    }
  }

  /** No call of any reconcile adds a defect, and each that creates or deletes a gateway, a
      child or a policy removes one. */
  lemma CallProgress(cfg: Config, scope: Scope, m: Monitor, call: Call)
    requires Apart(cfg, scope, m) && Permitted(cfg, m, call) && Apply(m.world.objects, call).Some?
    ensures NoWorse(cfg, m.world.objects, Apply(m.world.objects, call).value, m.view, m.live)
    ensures Moves(call) ==> Mended(cfg, m.world.objects, Apply(m.world.objects, call).value, m.view, m.live)
  {
    match call
    case Create(o) => CreateProgress(cfg, scope, m, o);
    case Update(o) => UpdateProgress(cfg, scope, m, o);
    case Delete(k) => DeleteProgress(cfg, scope, m, k);
  }

  // ---- Whole runs ------------------------------------------------------------------

  ghost predicate SameReading(m: Monitor, n: Monitor) {
    n.view == m.view && n.live == m.live
  }

  lemma EventProgress(cfg: Config, scope: Scope, m: Monitor, e: Event, n: Monitor)
    requires Apart(cfg, scope, m) && Next(cfg, m, e) == Some(n) && SameReading(m, n)
    ensures Apart(cfg, scope, n)
    ensures NoWorse(cfg, m.world.objects, n.world.objects, m.view, m.live)
    ensures e.Do? && Moves(e.call) ==> Mended(cfg, m.world.objects, n.world.objects, m.view, m.live)
  {
    SafeStep(cfg, m, e);
    if e.Do? {
      CallProgress(cfg, scope, m, e.call);
      WithinCall(cfg, scope, m, e.call);
    }
  }

  /** Throughout the run the operator reads the same specifications. */
  ghost predicate ReadsSame(cfg: Config, m: Monitor, run: seq<Event>) {
    forall i :: 0 <= i <= |run| ==> ReadsSameAt(cfg, m, run, i)
  }

  ghost predicate ReadsSameAt(cfg: Config, m: Monitor, run: seq<Event>, i: nat)
    requires i <= |run|
  {
    Replay(cfg, m, run[..i]).Some? ==> SameReading(m, Replay(cfg, m, run[..i]).value)
  }

  lemma ReadsSameBefore(cfg: Config, m: Monitor, run: seq<Event>)
    requires run != [] && ReadsSame(cfg, m, run)
    ensures ReadsSame(cfg, m, run[..|run| - 1])
    ensures Replay(cfg, m, run).Some? ==> SameReading(m, Replay(cfg, m, run).value)
  {
    var before := run[..|run| - 1];
    forall i | 0 <= i <= |before| ensures ReadsSameAt(cfg, m, before, i) {
      assert before[..i] == run[..i] && ReadsSameAt(cfg, m, run, i);
    }
    assert run[..|run|] == run && ReadsSameAt(cfg, m, run, |run|);
  }

  /** Monotone progress: over a run in which the operator reads the same specifications,
      whichever calls fail, whoever is being deleted and whatever users edit unseen, the
      distance to what all resources ask for never grows at any call boundary, and every
      effective creation or deletion of an egress object lowers it. */
  lemma {:induction false} RunProgress(cfg: Config, scope: Scope, m: Monitor, run: seq<Event>)
    requires Apart(cfg, scope, m) && Replay(cfg, m, run).Some? && ReadsSame(cfg, m, run)
    ensures Apart(cfg, scope, Replay(cfg, m, run).value)
    ensures Distance(cfg, Replay(cfg, m, run).value.world.objects, m.view, m.live) <= Distance(cfg, m.world.objects, m.view, m.live)
    ensures forall i :: 0 <= i < |run| ==> Nearer(cfg, m, run, i)
    decreases |run|
  {
    if run != [] {
      var before := run[..|run| - 1];
      ReadsSameBefore(cfg, m, run);
      RunProgress(cfg, scope, m, before);
      LastProgress(cfg, scope, m, run);
      forall i | 0 <= i < |run| ensures Nearer(cfg, m, run, i) {
        if i < |before| { NearerStays(cfg, m, run, i); }
      }
    }
  }

  lemma LastProgress(cfg: Config, scope: Scope, m: Monitor, run: seq<Event>)
    requires run != [] && Replay(cfg, m, run).Some? && ReadsSame(cfg, m, run)
    requires Apart(cfg, scope, Replay(cfg, m, run[..|run| - 1]).value)
    ensures Apart(cfg, scope, Replay(cfg, m, run).value) && Nearer(cfg, m, run, |run| - 1)
    ensures Distance(cfg, Replay(cfg, m, run).value.world.objects, m.view, m.live)
      <= Distance(cfg, Replay(cfg, m, run[..|run| - 1]).value.world.objects, m.view, m.live)
  {
    var i := |run| - 1;
    var n, n' := Replay(cfg, m, run[..i]).value, Replay(cfg, m, run).value;
    assert run[..i + 1] == run;
    assert ReadsSameAt(cfg, m, run, i) && ReadsSameAt(cfg, m, run, i + 1);
    EventProgress(cfg, scope, n, run[i], n');
    NoWorseDistance(cfg, n.world.objects, n'.world.objects, m.view, m.live);
  }

  lemma NearerStays(cfg: Config, m: Monitor, run: seq<Event>, i: nat)
    requires i < |run| - 1 && Nearer(cfg, m, run[..|run| - 1], i)
    ensures Nearer(cfg, m, run, i)
  {
    var before := run[..|run| - 1];
    assert before[..i] == run[..i] && before[..i + 1] == run[..i + 1];
  }

  /** The i-th event of the run does not lead away. */
  ghost predicate Nearer(cfg: Config, m: Monitor, run: seq<Event>, i: nat)
    requires i < |run|
  {
    match (Replay(cfg, m, run[..i]), Replay(cfg, m, run[..i + 1]))
    case (Some(a), Some(b)) =>
      var x, y := Distance(cfg, a.world.objects, m.view, m.live), Distance(cfg, b.world.objects, m.view, m.live);
      y <= x && (run[i].Do? && Moves(run[i].call) ==> y < x)
    case _ => false
  }
}
