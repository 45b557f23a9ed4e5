/** Runs stay within their scope: as long as everything that is ever allowlisted is, so is
    everything the operator makes, whatever fails and however the allowlists change. No
    name is assumed to be distinct. */
module Scoped {
  import opened Wrappers
  import opened HostList
  import opened Resources
  import opened Protocol
  import opened Safety
  import opened Convergence
  import opened Separation
  import opened Confluence
  import opened Stability

  lemma ChildrenStayWithin(cfg: Config, scope: Scope, m: Monitor, call: Call)
    requires Within(cfg, scope, m.world.objects) && SpecsWithin(cfg, scope, m.view)
    requires Permitted(cfg, m, call) && Apply(m.world.objects, call).Some?
    ensures var s' := Apply(m.world.objects, call).value;
      && (forall k :: k in s' && s'[k].Child() ==> ChildWithin(scope, s'[k]))
      && (forall k :: k in s' && s'[k].AuthorizationPolicy? ==> s'[k].labels in scope.policies)
  {
    if call.Create? {
      var o := call.item;
      if o.Child() {
        var spec, t :| MayCreateChild(m, spec, t, o);
        assert t in Demand(m.view) && t in scope.targets;
      } else if o.AuthorizationPolicy? {
        var name, spec, r :| MayCreatePolicy(cfg, m, name, spec, r, o);
        assert o.labels == r.labels;
      }
    }
  }

  /** No call lists a host that the allowlists, as the operator last read them, do not ask for. */
  lemma CreatedHosts(cfg: Config, m: Monitor, o: Object, side: Side)
    requires MayCreate(cfg, m, o) && o.Id() == GatewayKey(side)
    ensures o.Gateway? && Elems(Entries(o)) <= InUse(m.view, side)
  {
    var spec, t :| MayServe(m, spec, t) && t.ExternalHost? && o == NewGateway(t.url);
    GatewaysDiffer();
    assert t in Demand(m.view) && Label(t) == t.url;
    assert Entries(o) == [t.url];
  }

  lemma RewrittenHosts(cfg: Config, m: Monitor, was: Object, o: Object, side: Side)
    requires MayUpdate(cfg, m, was, o) && was.Id() == o.Id() == GatewayKey(side) && ShapedGateway(was, side)
    ensures o.Gateway? && Elems(Entries(o)) <= Elems(Entries(was)) + InUse(m.view, side)
  {
    GatewaysDiffer();
    if GatewayShrinks(m, side, was, o) {
      assert Elems(Entries(o)) == InUse(m.view, side);
    } else {
      var spec, t :| SideOf(t) == side && GatewayGrows(m, spec, t, was, o);
      assert t in Demand(m.view);
      assert Elems(Entries(o)) == Elems(Entries(was)) + {Label(t)};
    }
  }

  lemma HostsGrow(cfg: Config, m: Monitor, call: Call, side: Side)
    requires Permitted(cfg, m, call) && Apply(m.world.objects, call).Some?
    requires Keyed(m.world.objects) && Shaped(m.world.objects)
    ensures Hosts(Apply(m.world.objects, call).value, side) <= Hosts(m.world.objects, side) + InUse(m.view, side)
  {
    var s, k := m.world.objects, GatewayKey(side);
    match call
    case Create(o) => if o.Id() == k { CreatedHosts(cfg, m, o, side); }
    case Update(o) => if o.Id() == k { RewrittenHosts(cfg, m, s[k], o, side); }
    case Delete(d) =>
  }

  lemma WithinCall(cfg: Config, scope: Scope, m: Monitor, call: Call)
    requires Safe(cfg, m.world) && Within(cfg, scope, m.world.objects) && SpecsWithin(cfg, scope, m.view)
    requires Permitted(cfg, m, call) && Apply(m.world.objects, call).Some?
    ensures Within(cfg, scope, Apply(m.world.objects, call).value)
  {
    var s' := Apply(m.world.objects, call).value;
    SafeCall(cfg, m, call);
    ShapedGated(s');
    ChildrenStayWithin(cfg, scope, m, call);
    forall side ensures Hosts(s', side) <= EntriesWithin(scope, side) {
      HostsGrow(cfg, m, call, side);
      InUseWithin(cfg, scope, m.view, side);
    }
  }

  /** The objects, what the operator last read and what the resources say now are all within
      the scope. */
  ghost predicate InScope(cfg: Config, scope: Scope, m: Monitor) {
    && Within(cfg, scope, m.world.objects) && SpecsWithin(cfg, scope, m.view)
    && SpecsWithin(cfg, scope, Specs(m.world.crs))
  }

  /** Users only ever allowlist what is in the scope. */
  ghost predicate EditsWithin(cfg: Config, scope: Scope, run: seq<Event>) {
    forall e :: e in run && e.Edit? ==> SpecsWithin(cfg, scope, Specs(e.crs))
  }

  lemma FewerWithin(cfg: Config, scope: Scope, specs: set<Spec>, fewer: set<Spec>)
    requires SpecsWithin(cfg, scope, specs) && fewer <= specs
    ensures SpecsWithin(cfg, scope, fewer)
  {
    assert Demand(fewer) <= Demand(specs);
  }

  lemma StoredFewer(crs: map<string, Resource>, name: string, finalizers: set<string>)
    requires name in crs
    ensures Specs(StoreFinalizers(crs, name, finalizers)) <= Specs(crs)
  {
    var crs' := StoreFinalizers(crs, name, finalizers);
    forall n | n in crs' ensures crs'[n].spec in Specs(crs) { assert n in crs; }
  }

  lemma InScopeStep(cfg: Config, scope: Scope, m: Monitor, e: Event, n: Monitor)
    requires Safe(cfg, m.world) && InScope(cfg, scope, m) && Next(cfg, m, e) == Some(n)
    requires e.Edit? ==> SpecsWithin(cfg, scope, Specs(e.crs))
    ensures InScope(cfg, scope, n)
  {
    match e
    case Do(call) => WithinCall(cfg, scope, m, call);
    case Finalize(name, finalizers) =>
      StoredFewer(m.world.crs, name, finalizers);
      FewerWithin(cfg, scope, Specs(m.world.crs), Specs(n.world.crs));
    case _ =>
  }

  /** At every call boundary of every run, whatever fails and whatever users edit within the
      scope, the objects are within the scope. */
  lemma {:induction false} WithinThroughout(cfg: Config, scope: Scope, m: Monitor, run: seq<Event>)
    requires Safe(cfg, m.world) && InScope(cfg, scope, m) && EditsWithin(cfg, scope, run)
    requires Replay(cfg, m, run).Some?
    ensures InScope(cfg, scope, Replay(cfg, m, run).value)
    decreases |run|
  {
    if run != [] {
      var before, last := run[..|run| - 1], run[|run| - 1];
      WithinThroughout(cfg, scope, m, before);
      SafeThroughout(cfg, m, run, |before|);
      InScopeStep(cfg, scope, Replay(cfg, m, before).value, last, Replay(cfg, m, run).value);
    }
  }
}
