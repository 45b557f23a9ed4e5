/** The egress reconciler: gateways, their hosts' objects and the policies. Every call is
    permitted by the protocol; when a method succeeds the objects are what EgressSpec says,
    and without a fault it fails only where EgressSpec has no result. */
module EgressReconciler {
  import opened Wrappers
  import opened HostList
  import opened Resources
  import opened Protocol
  import opened ApiServer
  import opened Safety
  import opened EgressSpec
  import opened Convergence

  /** The operator worked on the objects and nothing else. */
  ghost predicate Worked(a: Moment, b: Moment) {
    Kept(a, b) && b.world == a.world.(crs := b.world.crs, objects := b.world.objects)
  }

  lemma WorkedOn(a: Moment, b: Moment, c: Moment)
    requires Worked(a, b) && Worked(b, c)
    ensures Worked(a, c)
  {
  }

  /** At most one call failed, and none if all is well: whatever is done call by call stops
      at the first that fails. */
  ghost predicate FailsFast(a: Moment, b: Moment, ok: bool) {
    b.faults <= a.faults + 1 && (ok ==> b.faults == a.faults)
  }

  /** The operator ensured egress objects: nothing is lost, and the accounts are as they were. */
  ghost predicate Ensured(a: Moment, b: Moment, ok: bool) {
    && Worked(a, b) && FailsFast(a, b, ok)
    && SameAccounts(a.world.objects, b.world.objects) && Grows(a.world.objects, b.world.objects)
  }

  lemma EnsuredOn(a: Moment, b: Moment, c: Moment, ok: bool)
    requires Ensured(a, b, true) && Ensured(b, c, ok)
    ensures Ensured(a, c, ok)
  {
    GrowsTransitive(a.world.objects, b.world.objects, c.world.objects);
  }

  lemma StillReady(s: Store, s': Store, spec: Spec)
    requires SameAccounts(s, s') && AccountsReady(s, spec)
    ensures AccountsReady(s', spec)
  {
    forall name | Named(spec.accounts, name) ensures AccountReady(s', spec, name) {
      assert AccountReady(s, spec, name);
      assert AccountKind(AccountKey(spec, name).kind) && forall role: Role :: AccountKind(MemberKey(spec, name, role).kind);
    }
  }

  lemma StillServes(a: Moment, b: Moment, ok: bool, spec: Spec, t: Target)
    requires Ensured(a, b, ok) && MayServe(a.Known(), spec, t)
    ensures MayServe(b.Known(), spec, t)
  {
    StillReady(a.world.objects, b.world.objects, spec);
  }

  lemma ServeInUse(m: Monitor, spec: Spec, t: Target)
    requires MayServe(m, spec, t)
    ensures t in Demand(m.view) && Label(t) in InUse(m.view, SideOf(t))
  {
  }

  /** The operator went on, possibly reading the resources again. */
  ghost predicate Onward(a: Moment, b: Moment) {
    && a.run <= b.run && a.faults <= b.faults && a.edits <= b.edits
    && Steady(a.world.crs, b.world.crs)
    && (a.edits == b.edits ==> a.world.crs == b.world.crs)
  }

  lemma OnwardOn(a: Moment, b: Moment, c: Moment)
    requires Onward(a, b) && Onward(b, c)
    ensures Onward(a, c)
  {
  }

  // ---- Existence checks ------------------------------------------------------------

  method Exists(c: Cluster, sel: Selector) returns (ok: bool, found: bool)
    requires c.Valid()
    modifies c
    ensures c.Valid() && Ensured(old(c.Now()), c.Now(), ok) && c.world.objects == old(c.world.objects)
    ensures ok <==> c.faults == old(c.faults)
    ensures ok ==> found == Any(c.world.objects, sel)
  {
    var items;
    ok, items := c.List(sel);
    found := |items| > 0;
    if ok && found { assert items[0] in items; }
  }

  method VirtualServiceExists(c: Cluster, name: string) returns (ok: bool, found: bool)
    requires c.Valid()
    modifies c
    ensures c.Valid() && Ensured(old(c.Now()), c.Now(), ok) && c.world.objects == old(c.world.objects)
    ensures ok <==> c.faults == old(c.faults)
    ensures ok ==> found == (Key(VirtualServices, EGRESS_NAMESPACE, name) in c.world.objects)
  {
    var r := c.Get(Key(VirtualServices, EGRESS_NAMESPACE, name));
    ok, found := !r.Unreachable?, r.Found?;
  }

  // ---- Writing ---------------------------------------------------------------------

  method CreateEgress(c: Cluster, o: Object) returns (r: Outcome)
    requires c.Valid() && (o.Id() !in c.world.objects ==> MayCreate(c.cfg, c.Known(), o)) && !AccountKind(o.Id().kind)
    modifies c
    ensures c.Valid() && Ensured(old(c.Now()), c.Now(), !r.Failed?)
    ensures r.Done? ==> o.Id() !in old(c.world.objects) && c.world.objects == old(c.world.objects)[o.Id() := o]
    ensures r.Rejected? ==> o.Id() in old(c.world.objects) && c.world.objects == old(c.world.objects)
    ensures c.world.objects == old(c.world.objects)
      || (o.Id() !in old(c.world.objects) && c.world.objects == old(c.world.objects)[o.Id() := o])
    ensures r.Failed? <==> c.faults != old(c.faults)
  {
    r := c.Submit(Create(o));
  }

  lemma ChildCreatable(cfg: Config, m: Monitor, spec: Spec, t: Target, o: Object)
    requires MayCreateChild(m, spec, t, o)
    ensures MayCreate(cfg, m, o) && !AccountKind(o.Id().kind)
  {
    ChildLabel(t, o);
  }

  lemma GatewayCreatable(cfg: Config, m: Monitor, spec: Spec, host: string)
    requires MayServe(m, spec, ExternalHost(host))
    ensures MayCreate(cfg, m, NewGateway(host)) && !AccountKind(NewGateway(host).Id().kind)
  {
    assert ExternalHost(host).ExternalHost?;
  }

  // ---- Gateways --------------------------------------------------------------------

  method EnsureGatewayExists(c: Cluster, ghost spec: Spec, host: string) returns (ok: bool)
    requires c.Valid() && MayServe(c.Known(), spec, ExternalHost(host))
    modifies c
    ensures c.Valid() && Ensured(old(c.Now()), c.Now(), ok)
    ensures ok ==> Make(old(c.world.objects), GatewayKey(ExternalSide) in old(c.world.objects), NewGateway(host)) == Some(c.world.objects)
    ensures ok <==> c.faults == old(c.faults)
  {
    var r := c.Get(GatewayKey(ExternalSide));
    ok := !r.Unreachable?;
    if r.Missing? {
      ghost var mid := c.Now();
      StillServes(old(c.Now()), mid, true, spec, ExternalHost(host));
      GatewayCreatable(c.cfg, c.Known(), spec, host);
      var created := CreateEgress(c, NewGateway(host));
      ok := created.Done?;
      EnsuredOn(old(c.Now()), mid, c.Now(), ok);
    }
  }

  lemma AddEntryKeeps(s: Store, side: Side, h: string, s': Store)
    requires AddEntry(s, side, h) == Some(s')
    ensures Grows(s, s') && SameAccounts(s, s')
  {
    AddEntryGrows(s, side, h, s');
  }

  method EnsureGatewayContainsHost(c: Cluster, ghost spec: Spec, ghost t: Target, side: Side, host: string) returns (ok: bool)
    requires c.Valid() && MayServe(c.Known(), spec, t) && side == SideOf(t) && host == Label(t)
    modifies c
    ensures c.Valid() && Ensured(old(c.Now()), c.Now(), ok)
    ensures ok ==> AddEntry(old(c.world.objects), side, host) == Some(c.world.objects)
    ensures !ok && c.faults == old(c.faults) ==> AddEntry(old(c.world.objects), side, host) == None
  {
    var r := c.Get(GatewayKey(side));
    if !r.Found? { return false; }
    ghost var mid := c.Now();
    c.SafeNow();
    assert ShapedGateway(r.item, side);
    var hosts := AppendSortedCompact(r.item.servers[0].hosts, host);
    assert GatewayGrows(c.Known(), spec, t, r.item, WithHosts(r.item, hosts));
    AddEntryKeeps(c.world.objects, side, host, AddEntry(c.world.objects, side, host).value);
    var updated := c.Submit(Update(WithHosts(r.item, hosts)));
    ok := updated.Done?;
    EnsuredOn(old(c.Now()), mid, c.Now(), ok);
  }

  // ---- Hosts -----------------------------------------------------------------------

  method CreateChild(c: Cluster, ghost spec: Spec, ghost t: Target, present: bool, o: Object) returns (ok: bool)
    requires c.Valid() && MayServe(c.Known(), spec, t) && o in ChildrenOf(t)
    requires Label(t) in Hosts(c.world.objects, SideOf(t))
    modifies c
    ensures c.Valid() && Ensured(old(c.Now()), c.Now(), ok)
    ensures ok ==> Make(old(c.world.objects), present, o) == Some(c.world.objects)
    ensures ok ==> Label(t) in Hosts(c.world.objects, SideOf(t))
    ensures !ok && c.faults == old(c.faults) ==> Make(old(c.world.objects), present, o) == None
  {
    ok := true;
    if !present {
      ChildCreatable(c.cfg, c.Known(), spec, t, o);
      var created := CreateEgress(c, o);
      ok := created.Done?;
    }
  }

  method EnsureVirtualService(c: Cluster, ghost spec: Spec, t: Target) returns (ok: bool)
    requires c.Valid() && MayServe(c.Known(), spec, t) && Label(t) in Hosts(c.world.objects, SideOf(t))
    modifies c
    ensures c.Valid() && Ensured(old(c.Now()), c.Now(), ok)
    ensures ok ==> Label(t) in Hosts(c.world.objects, SideOf(t))
    ensures ok ==>
      Make(old(c.world.objects), NewVirtualService(t).Id() in old(c.world.objects), NewVirtualService(t))
      == Some(c.world.objects)
    ensures !ok && c.faults == old(c.faults) ==>
      Make(old(c.world.objects), NewVirtualService(t).Id() in old(c.world.objects), NewVirtualService(t)) == None
  {
    var found;
    ok, found := VirtualServiceExists(c, NameOf(t));
    if ok {
      ghost var mid := c.Now();
      ok := CreateChild(c, spec, t, found, NewVirtualService(t));
      EnsuredOn(old(c.Now()), mid, c.Now(), ok);
    }
  }

  method EnsureListed(c: Cluster, ghost spec: Spec, t: Target, sel: Selector, o: Object) returns (ok: bool)
    requires c.Valid() && MayServe(c.Known(), spec, t) && Label(t) in Hosts(c.world.objects, SideOf(t)) && o in ChildrenOf(t)
    modifies c
    ensures c.Valid() && Ensured(old(c.Now()), c.Now(), ok)
    ensures ok ==> Label(t) in Hosts(c.world.objects, SideOf(t))
    ensures ok ==> Make(old(c.world.objects), Any(old(c.world.objects), sel), o) == Some(c.world.objects)
    ensures !ok && c.faults == old(c.faults) ==> Make(old(c.world.objects), Any(old(c.world.objects), sel), o) == None
  {
    var found;
    ok, found := Exists(c, sel);
    if ok {
      ghost var mid := c.Now();
      ok := CreateChild(c, spec, t, found, o);
      EnsuredOn(old(c.Now()), mid, c.Now(), ok);
    }
  }

  method EnsureChildObjects(c: Cluster, ghost spec: Spec, t: Target) returns (ok: bool)
    requires c.Valid() && MayServe(c.Known(), spec, t) && Label(t) in Hosts(c.world.objects, SideOf(t))
    modifies c
    ensures c.Valid() && Ensured(old(c.Now()), c.Now(), ok)
    ensures ok ==> EnsureChildren(old(c.world.objects), t) == Some(c.world.objects)
    ensures !ok && c.faults == old(c.faults) ==> EnsureChildren(old(c.world.objects), t) == None
  {
    ghost var m0 := c.Now();
    ok := EnsureVirtualService(c, spec, t);
    if !ok { return; }
    ghost var m1 := c.Now();
    StillServes(m0, m1, ok, spec, t);
    ok := EnsureListed(c, spec, t, ByRule(Label(t), ToGateway), NewRule(t, ToGateway));
    EnsuredOn(m0, m1, c.Now(), ok);
    if !ok { return; }
    ghost var m2 := c.Now();
    StillServes(m0, m2, ok, spec, t);
    ok := EnsureListed(c, spec, t, ByRule(Label(t), FromGateway), NewRule(t, FromGateway));
    EnsuredOn(m0, m2, c.Now(), ok);
    if !ok { return; }
    ghost var m3 := c.Now();
    StillServes(m0, m3, ok, spec, t);
    ok := EnsureListed(c, spec, t, ByHost(ServiceEntries, Label(t)), NewServiceEntry(t));
    EnsuredOn(m0, m3, c.Now(), ok);
  }

  method EnsureGatewayEntry(c: Cluster, ghost spec: Spec, t: Target) returns (ok: bool)
    requires c.Valid() && MayServe(c.Known(), spec, t)
    modifies c
    ensures c.Valid() && Ensured(old(c.Now()), c.Now(), ok)
    ensures ok ==> EnsureEntry(old(c.world.objects), t) == Some(c.world.objects)
    ensures ok ==> Label(t) in Hosts(c.world.objects, SideOf(t))
    ensures !ok && c.faults == old(c.faults) ==> EnsureEntry(old(c.world.objects), t) == None
  {
    ghost var m0 := c.Now();
    if t.ExternalHost? {
      ok := EnsureGatewayExists(c, spec, t.url);
      if !ok { return; }
    }
    ghost var m1 := c.Now();
    StillServes(m0, m1, true, spec, t);
    ok := EnsureGatewayContainsHost(c, spec, t, SideOf(t), Label(t));
    EnsuredOn(m0, m1, c.Now(), ok);
  }

  /** The body of the ensure loops: the gateway entry first, the objects behind it after. */
  method EnsureHost(c: Cluster, ghost spec: Spec, t: Target) returns (ok: bool)
    requires c.Valid() && MayServe(c.Known(), spec, t)
    modifies c
    ensures c.Valid() && Ensured(old(c.Now()), c.Now(), ok)
    ensures ok ==> EnsureTarget(old(c.world.objects), t) == Some(c.world.objects)
    ensures !ok && c.faults == old(c.faults) ==> EnsureTarget(old(c.world.objects), t) == None
  {
    ghost var m0 := c.Now();
    ok := EnsureGatewayEntry(c, spec, t);
    if !ok { return; }
    ghost var m1 := c.Now();
    StillServes(m0, m1, ok, spec, t);
    ok := EnsureChildObjects(c, spec, t);
    EnsuredOn(m0, m1, c.Now(), ok);
  }

  lemma TargetsStep(s: Store, mine: seq<Target>, later: seq<Target>, j: nat)
    requires j < |mine|
    ensures EnsureTargets(s, mine[j..] + later) ==
      if EnsureTarget(s, mine[j]).Some? then EnsureTargets(EnsureTarget(s, mine[j]).value, mine[j + 1..] + later) else None
  {
    assert mine[j..] + later == [mine[j]] + (mine[j + 1..] + later);
  }

  /** One account's list, with `later` still to come. */
  method EnsureEach(c: Cluster, ghost spec: Spec, mine: seq<Target>, ghost later: seq<Target>) returns (ok: bool)
    requires c.Valid() && forall t :: t in mine ==> MayServe(c.Known(), spec, t)
    modifies c
    ensures c.Valid() && Ensured(old(c.Now()), c.Now(), ok)
    ensures ok ==> EnsureTargets(old(c.world.objects), mine + later) == EnsureTargets(c.world.objects, later)
    ensures !ok && c.faults == old(c.faults) ==> EnsureTargets(old(c.world.objects), mine + later) == None
  {
    ghost var m0, result := c.Now(), EnsureTargets(c.world.objects, mine + later);
    for j := 0 to |mine|
      invariant c.Valid() && Ensured(m0, c.Now(), true)
      invariant result == EnsureTargets(c.world.objects, mine[j..] + later)
    {
      ghost var m1 := c.Now();
      TargetsStep(c.world.objects, mine, later, j);
      StillServes(m0, m1, true, spec, mine[j]);
      ok := EnsureHost(c, spec, mine[j]);
      EnsuredOn(m0, m1, c.Now(), ok);
      if !ok { return; }
    }
    assert mine[|mine|..] + later == later;
    ok := true;
  }

  /** `EnsureExternalHosts` and `EnsureCloudSQLHosts` differ in the list they visit and the
      builders they use, which the side of a target selects. */
  method EnsureHosts(c: Cluster, ghost spec: Spec, accounts: seq<Account>, side: Side) returns (ok: bool)
    requires c.Valid() && forall t :: t in Targets(accounts, side) ==> MayServe(c.Known(), spec, t)
    modifies c
    ensures c.Valid() && Ensured(old(c.Now()), c.Now(), ok)
    ensures ok ==> EnsureTargets(old(c.world.objects), Targets(accounts, side)) == Some(c.world.objects)
    ensures !ok && c.faults == old(c.faults) ==> EnsureTargets(old(c.world.objects), Targets(accounts, side)) == None
  {
    ghost var m0, result := c.Now(), EnsureTargets(c.world.objects, Targets(accounts, side));
    for i := 0 to |accounts|
      invariant c.Valid() && Ensured(m0, c.Now(), true)
      invariant forall t :: t in Targets(accounts[i..], side) ==> MayServe(m0.Known(), spec, t)
      invariant result == EnsureTargets(c.world.objects, Targets(accounts[i..], side))
    {
      ghost var m1 := c.Now();
      ghost var later := Targets(accounts[i + 1..], side);
      assert Targets(accounts[i..], side) == TargetsOf(accounts[i], side) + later;
      forall t | t in TargetsOf(accounts[i], side) ensures MayServe(c.Known(), spec, t) {
        StillServes(m0, m1, true, spec, t);
      }
      ok := EnsureEach(c, spec, TargetsOf(accounts[i], side), later);
      EnsuredOn(m0, m1, c.Now(), ok);
      if !ok { return; }
    }
    ok := true;
  }
}
