/** Every run of permitted calls, whatever fails and however users edit in between, keeps
    the worlds safe: no orphans, audited grants, indexed accounts. */
module Safety {
  import opened Wrappers
  import opened HostList
  import opened Resources
  import opened Protocol
  import opened Entitlements
  import Names

  // ---- What is safe ----------------------------------------------------------------

  ghost predicate Keyed(s: Store) {
    forall k :: k in s ==> s[k].Id() == k
  }

  ghost predicate PoliciesNamed(cfg: Config, s: Store) {
    forall k :: k in s && s[k].AuthorizationPolicy? ==> s[k].name == PolicyName(cfg, s[k].labels)
  }

  /** The objects that exist for an egress host: its children and the policies for it. */
  predicate EgressObject(o: Object) {
    o.Child() || (o.AuthorizationPolicy? && o.labels.hostType == External)
  }

  ghost predicate NoOrphans(s: Store) {
    forall k :: k in s && EgressObject(s[k]) ==> Listed(s, s[k].HostLabel().value)
  }

  ghost predicate Audited(w: World) {
    forall k :: k in w.objects && w.objects[k].AuthorizationPolicy? ==> Recorded(w.history, w.objects[k].labels)
  }

  function MemberAt(namespace: string, name: string, role: Role): Key {
    Key(IamMembers, namespace, name + Suffix(role))
  }

  /** The labels by which some team's cleanup finds the service account. */
  ghost predicate Findable(s: Store, k: Key, project: string, domain: string) {
    k in s && s[k].ServiceAccount? && OwnedBy(s[k].meta, project, domain) && Namespace(project, domain) == k.namespace
  }

  /** Every policy member the cleanup knows of stands beside its labelled service account. */
  ghost predicate Indexed(s: Store) {
    forall namespace, name, role :: role != DataViewer && MemberAt(namespace, name, role) in s ==>
      exists project, domain :: Findable(s, Key(ServiceAccounts, namespace, name), project, domain)
  }

  /** A service account lives in the namespace of the team it is labelled with. */
  ghost predicate Homed(s: Store) {
    forall k, project, domain :: k in s && s[k].ServiceAccount? && OwnedBy(s[k].meta, project, domain) ==>
      s[k].namespace == Namespace(project, domain)
  }

  /** Every policy admits the one account and opens the one host that its labels name. */
  ghost predicate PoliciesAdmit(s: Store) {
    forall k :: k in s && s[k].AuthorizationPolicy? ==> Admits(s[k])
  }

  ghost predicate MemberOf(cfg: Config, o: Object, project: string, domain: string, name: string) {
    exists role :: Grants(cfg, project, domain, name, role, o)
  }

  /** Every policy member grants what its kind calls for to an account of its namespace. */
  ghost predicate MembersGrant(cfg: Config, s: Store) {
    forall k :: k in s && s[k].IamPolicyMember? ==> exists project, domain, name :: MemberOf(cfg, s[k], project, domain, name)
  }

  ghost predicate Safe(cfg: Config, w: World) {
    && Keyed(w.objects) && Shaped(w.objects) && PoliciesNamed(cfg, w.objects)
    && NoOrphans(w.objects) && Audited(w) && Indexed(w.objects) && Homed(w.objects)
    && PoliciesAdmit(w.objects) && MembersGrant(cfg, w.objects)
    && UniqueOwners(w.crs)
  }

  // ---- Every call keeps it ---------------------------------------------------------

  lemma KeyedStep(cfg: Config, s: Store, call: Call)
    requires Keyed(s) && Apply(s, call).Some?
    ensures Keyed(Apply(s, call).value)
  {
  }

  lemma ShapedStep(cfg: Config, m: Monitor, call: Call)
    requires Permitted(cfg, m, call) && Apply(m.world.objects, call).Some?
    requires Keyed(m.world.objects) && Shaped(m.world.objects)
    ensures Shaped(Apply(m.world.objects, call).value)
  {
    var s, s' := m.world.objects, Apply(m.world.objects, call).value;
    forall side | GatewayKey(side) in s' ensures ShapedGateway(s'[GatewayKey(side)], side) {
      match call
      case Create(o) =>
        if o.Id() == GatewayKey(side) { assert MayCreate(cfg, m, o); }
      case Update(o) =>
        if o.Id() == GatewayKey(side) { GrownOrShrunk(cfg, m, side, s[o.Id()], o); }
      case Delete(k) =>
    }
  }

  lemma GrownOrShrunk(cfg: Config, m: Monitor, side: Side, was: Object, now: Object)
    requires was.Id() == GatewayKey(side) && now.Id() == GatewayKey(side) && MayUpdate(cfg, m, was, now)
    requires ShapedGateway(was, side)
    ensures ShapedGateway(now, side)
    ensures Elems(Entries(was)) <= Elems(Entries(now)) || GatewayShrinks(m, side, was, now)
  {
    if GatewayShrinks(m, side, was, now) {
      EmptyCanon(InUse(m.view, side));
    } else {
      var spec, t :| SideOf(t) == side && GatewayGrows(m, spec, t, was, now);
      EmptyCanon(Elems(Entries(was)) + {Label(t)});
    }
  }

  lemma EmptyCanon(hosts: set<string>)
    requires hosts != {}
    ensures Canon(hosts) != []
  {
    assert Elems(Canon(hosts)) == hosts;
  }

  lemma PoliciesNamedStep(cfg: Config, m: Monitor, call: Call)
    requires Permitted(cfg, m, call) && Apply(m.world.objects, call).Some?
    requires Keyed(m.world.objects) && PoliciesNamed(cfg, m.world.objects)
    ensures PoliciesNamed(cfg, Apply(m.world.objects, call).value)
  {
  }

  lemma CreatedListed(cfg: Config, m: Monitor, o: Object)
    requires MayCreate(cfg, m, o) && EgressObject(o)
    ensures Listed(m.world.objects, o.HostLabel().value)
  {
    if o.Child() {
      var spec, t :| MayCreateChild(m, spec, t, o);
      ChildLabel(t, o);
      if t.CloudSQL? { assert |Label(t)| > 1; }
    } else {
      var name, spec, r :| MayCreatePolicy(cfg, m, name, spec, r, o);
    }
  }

  lemma ChildLabel(t: Target, o: Object)
    requires o in ChildrenOf(t)
    ensures o.Child() && o.HostLabel() == Some(Label(t))
  {
  }

  lemma MoreHosts(s: Store, o: Object)
    requires o.Id() !in s
    ensures forall side :: Hosts(s, side) <= Hosts(s[o.Id() := o], side)
  {
  }

  lemma NoOrphansCreate(cfg: Config, m: Monitor, o: Object)
    requires o.Id() !in m.world.objects && MayCreate(cfg, m, o)
    requires NoOrphans(m.world.objects)
    ensures NoOrphans(m.world.objects[o.Id() := o])
  {
    var s, s' := m.world.objects, m.world.objects[o.Id() := o];
    MoreHosts(s, o);
    forall k | k in s' && EgressObject(s'[k]) ensures Listed(s', s'[k].HostLabel().value) {
      if k == o.Id() {
        CreatedListed(cfg, m, o);
      } else {
        assert Listed(s, s[k].HostLabel().value);
      }
    }
  }

  lemma NoOrphansRewritten(cfg: Config, m: Monitor, o: Object)
    requires o.Gateway? && o.Id() in m.world.objects && MayUpdate(cfg, m, m.world.objects[o.Id()], o)
    requires Keyed(m.world.objects) && Shaped(m.world.objects) && NoOrphans(m.world.objects)
    ensures NoOrphans(m.world.objects[o.Id() := o])
  {
    var s, s' := m.world.objects, m.world.objects[o.Id() := o];
    var side :| o.Id() == GatewayKey(side);
    GrownOrShrunk(cfg, m, side, s[o.Id()], o);
    forall k | k in s' && EgressObject(s'[k]) ensures Listed(s', s'[k].HostLabel().value) {
      assert s'[k] == s[k] && Listed(s, s[k].HostLabel().value);
    }
  }

  lemma NoOrphansUpdate(cfg: Config, m: Monitor, o: Object)
    requires o.Id() in m.world.objects && MayUpdate(cfg, m, m.world.objects[o.Id()], o)
    requires Keyed(m.world.objects) && Shaped(m.world.objects) && NoOrphans(m.world.objects)
    ensures NoOrphans(m.world.objects[o.Id() := o])
  {
    if o.Gateway? {
      NoOrphansRewritten(cfg, m, o);
    } else {
      assert forall side :: Hosts(m.world.objects, side) == Hosts(m.world.objects[o.Id() := o], side);
    }
  }

  lemma NoOrphansDelete(cfg: Config, m: Monitor, k: Key)
    requires k in m.world.objects && MayDelete(cfg, m, k, m.world.objects[k])
    requires Keyed(m.world.objects) && NoOrphans(m.world.objects)
    ensures NoOrphans(m.world.objects - {k})
  {
    var s, s' := m.world.objects, m.world.objects - {k};
    forall j | j in s' && EgressObject(s'[j]) ensures Listed(s', s'[j].HostLabel().value) {
      assert s'[j] == s[j] && Listed(s, s[j].HostLabel().value);
    }
  }

  lemma NoOrphansStep(cfg: Config, m: Monitor, call: Call)
    requires Permitted(cfg, m, call) && Apply(m.world.objects, call).Some?
    requires Keyed(m.world.objects) && Shaped(m.world.objects) && NoOrphans(m.world.objects)
    ensures NoOrphans(Apply(m.world.objects, call).value)
  {
    match call
    case Create(o) => NoOrphansCreate(cfg, m, o);
    case Update(o) => NoOrphansUpdate(cfg, m, o);
    case Delete(k) => NoOrphansDelete(cfg, m, k);
  }

  lemma AuditedStep(cfg: Config, m: Monitor, call: Call)
    requires Permitted(cfg, m, call) && Apply(m.world.objects, call).Some?
    requires Audited(m.world)
    ensures Audited(m.world.(objects := Apply(m.world.objects, call).value))
  {
  }

  /** A service account is deleted only after the three members the cleanup knows of and
      after the IAM account that goes by its name in the team it is labelled with. */
  lemma AccountLast(cfg: Config, m: Monitor, k: Key)
    requires Permitted(cfg, m, Delete(k)) && k in m.world.objects && m.world.objects[k].ServiceAccount?
    requires Keyed(m.world.objects)
    ensures forall role :: role != DataViewer ==> MemberAt(k.namespace, k.name, role) !in m.world.objects
    ensures forall spec: Spec :: OwnedBy(m.world.objects[k].meta, spec.project, spec.domain) ==>
      IamKey(cfg, spec, k.name) !in m.world.objects
  {
    var team, name :| MayDeleteAccount(cfg, m, team, name, k);
    assert forall role :: MemberKey(team, name, role) == MemberAt(k.namespace, k.name, role);
    forall spec: Spec | OwnedBy(m.world.objects[k].meta, spec.project, spec.domain)
      ensures IamKey(cfg, spec, k.name) == IamKey(cfg, team, name) {}
  }

  lemma IndexedStep(cfg: Config, m: Monitor, call: Call)
    requires Permitted(cfg, m, call) && Apply(m.world.objects, call).Some?
    requires Keyed(m.world.objects) && Indexed(m.world.objects) && Homed(m.world.objects)
    ensures Indexed(Apply(m.world.objects, call).value)
  {
    var s, s' := m.world.objects, Apply(m.world.objects, call).value;
    forall namespace, name, role | role != DataViewer && MemberAt(namespace, name, role) in s'
      ensures exists project, domain :: Findable(s', Key(ServiceAccounts, namespace, name), project, domain)
    {
      if MemberAt(namespace, name, role) in s {
        StaysFindable(cfg, m, call, namespace, name, role);
      } else {
        var spec, other, q :| MayCreateMember(cfg, m, spec, other, q, call.item);
        Names.MemberNameInjective(name, role, other, q);
        assert Findable(s', AccountKey(spec, name), spec.project, spec.domain);
      }
    }
  }

  lemma StaysFindable(cfg: Config, m: Monitor, call: Call, namespace: string, name: string, role: Role)
    requires Permitted(cfg, m, call) && Apply(m.world.objects, call).Some?
    requires Keyed(m.world.objects) && Indexed(m.world.objects)
    requires role != DataViewer && MemberAt(namespace, name, role) in m.world.objects
    requires MemberAt(namespace, name, role) in Apply(m.world.objects, call).value
    ensures exists project, domain :: Findable(Apply(m.world.objects, call).value, Key(ServiceAccounts, namespace, name), project, domain)
  {
    var s, s', k := m.world.objects, Apply(m.world.objects, call).value, Key(ServiceAccounts, namespace, name);
    var project, domain :| Findable(s, k, project, domain);
    assert s[k].Id() == k;
    if call.Update? && call.item.Id() == k {
      var spec, other :| MayWriteAccount(cfg, m, spec, other, s[k].meta, call.item);
      assert |PROJECT_LABEL| != |DOMAIN_LABEL|;
      assert Findable(s', k, spec.project, spec.domain);
    } else {
      if call == Delete(k) { AccountLast(cfg, m, k); }
      assert Findable(s', k, project, domain);
    }
  }

  lemma PoliciesAdmitStep(cfg: Config, m: Monitor, call: Call)
    requires Permitted(cfg, m, call) && Apply(m.world.objects, call).Some?
    requires PoliciesAdmit(m.world.objects)
    ensures PoliciesAdmit(Apply(m.world.objects, call).value)
  {
    if call.Create? && call.item.AuthorizationPolicy? {
      var name, spec, r :| MayCreatePolicy(cfg, m, name, spec, r, call.item);
      var account := RequestEntitled(cfg, spec, r, call.item);
      EntitledAdmits(cfg, spec, account, call.item);
    }
  }

  lemma MembersGrantStep(cfg: Config, m: Monitor, call: Call)
    requires Permitted(cfg, m, call) && Apply(m.world.objects, call).Some?
    requires MembersGrant(cfg, m.world.objects)
    ensures MembersGrant(cfg, Apply(m.world.objects, call).value)
  {
    var s' := Apply(m.world.objects, call).value;
    if call.Create? && call.item.IamPolicyMember? {
      var spec, name, role :| MayCreateMember(cfg, m, spec, name, role, call.item);
      MemberWritten(cfg, spec, name, role);
      assert MemberOf(cfg, call.item, spec.project, spec.domain, name);
    }
    forall k | k in s' && s'[k].IamPolicyMember?
      ensures exists project, domain, name :: MemberOf(cfg, s'[k], project, domain, name)
    {
      if !(call.Create? && k == call.item.Id()) { assert k in m.world.objects && s'[k] == m.world.objects[k]; }
    }
  }

  lemma HomedStep(cfg: Config, m: Monitor, call: Call)
    requires Permitted(cfg, m, call) && Apply(m.world.objects, call).Some?
    requires Homed(m.world.objects)
    ensures Homed(Apply(m.world.objects, call).value)
  {
  }

  lemma SafeCall(cfg: Config, m: Monitor, call: Call)
    requires Permitted(cfg, m, call) && Apply(m.world.objects, call).Some? && Safe(cfg, m.world)
    ensures Safe(cfg, m.world.(objects := Apply(m.world.objects, call).value))
  {
    KeyedStep(cfg, m.world.objects, call);
    ShapedStep(cfg, m, call);
    PoliciesNamedStep(cfg, m, call);
    NoOrphansStep(cfg, m, call);
    AuditedStep(cfg, m, call);
    IndexedStep(cfg, m, call);
    HomedStep(cfg, m, call);
    PoliciesAdmitStep(cfg, m, call);
    MembersGrantStep(cfg, m, call);
  }

  lemma SafeStep(cfg: Config, m: Monitor, e: Event)
    requires Safe(cfg, m.world) && Next(cfg, m, e).Some?
    ensures Safe(cfg, Next(cfg, m, e).value.world)
  {
    if e.Do? { SafeCall(cfg, m, e.call); }
  }

  /** Safety over whole runs: at every call boundary of every run. */
  lemma {:induction false} SafeThroughout(cfg: Config, m: Monitor, run: seq<Event>, i: nat)
    requires Safe(cfg, m.world) && Replay(cfg, m, run).Some? && i <= |run|
    ensures Replay(cfg, m, run[..i]).Some? && Safe(cfg, Replay(cfg, m, run[..i]).value.world)
    decreases |run|
  {
    if i < |run| {
      assert run[..|run| - 1][..i] == run[..i];
      SafeThroughout(cfg, m, run[..|run| - 1], i);
    } else {
      assert run[..i] == run;
      if run != [] {
        SafeThroughout(cfg, m, run[..|run| - 1], |run| - 1);
        assert run[..|run| - 1][..|run| - 1] == run[..|run| - 1];
        SafeStep(cfg, Replay(cfg, m, run[..|run| - 1]).value, run[|run| - 1]);
      }
    }
  }

  lemma {:induction false} ReplayPrefix(cfg: Config, m: Monitor, run: seq<Event>, i: nat)
    requires Replay(cfg, m, run).Some? && i <= |run|
    ensures Replay(cfg, m, run[..i]).Some?
    ensures i < |run| ==> Replay(cfg, m, run[..i + 1]) == Next(cfg, Replay(cfg, m, run[..i]).value, run[i])
    decreases |run|
  {
    if i < |run| {
      if i + 1 < |run| {
        ReplayPrefix(cfg, m, run[..|run| - 1], i);
        assert run[..|run| - 1][..i] == run[..i] && run[..|run| - 1][..i + 1] == run[..i + 1];
      } else {
        assert run[..i + 1] == run;
      }
    } else {
      assert run[..i] == run;
    }
  }

  lemma {:induction false} ReplayAppend(cfg: Config, m: Monitor, a: seq<Event>, b: seq<Event>)
    requires Replay(cfg, m, a + b).Some?
    ensures Replay(cfg, m, a).Some? && Replay(cfg, Replay(cfg, m, a).value, b) == Replay(cfg, m, a + b)
    decreases |b|
  {
    if b == [] {
      assert a + b == a;
    } else {
      assert (a + b)[..|a + b| - 1] == a + b[..|b| - 1];
      ReplayAppend(cfg, m, a, b[..|b| - 1]);
    }
  }

  lemma EditedSteady(crs: map<string, Resource>, crs': map<string, Resource>)
    requires Edited(crs, crs')
    ensures Steady(crs, crs')
  {
  }

  /** No edit takes a permission away: each rests on what the operator read, on objects
      only it writes, and on resources it holds. */
  lemma StillPermitted(cfg: Config, m: Monitor, n: Monitor, call: Call)
    requires Permitted(cfg, m, call)
    requires n == m.(world := m.world.(crs := n.world.crs)) && Steady(m.world.crs, n.world.crs)
    ensures Permitted(cfg, n, call)
  {
    match call
    case Create(o) =>
      if o.Id() !in m.world.objects {
        if o.AuthorizationPolicy? {
          var name, spec, r :| MayCreatePolicy(cfg, m, name, spec, r, o);
          assert MayCreatePolicy(cfg, n, name, spec, r, o);
        } else if o.IamPolicyMember? {
          var spec, name, role :| MayCreateMember(cfg, m, spec, name, role, o);
          assert MayCreateMember(cfg, n, spec, name, role, o);
        } else if o.ServiceAccount? || o.IamServiceAccount? {
          var spec, name :| MayWriteAccount(cfg, m, spec, name, NO_METADATA, o);
          assert MayWriteAccount(cfg, n, spec, name, NO_METADATA, o);
        } else if o.Child() {
          var spec, t :| MayCreateChild(m, spec, t, o);
          assert MayCreateChild(n, spec, t, o);
        } else if o.Gateway? {
          var spec, t :| MayServe(m, spec, t) && t.ExternalHost? && o == NewGateway(t.url);
          assert MayServe(n, spec, t);
        }
      }
    case Update(o) =>
      if o.Id() in m.world.objects { StillUpdatable(cfg, m, n, m.world.objects[o.Id()], o); }
    case Delete(k) =>
      if k in m.world.objects { StillDeletable(cfg, m, n, k, m.world.objects[k]); }
  }

  lemma MayStillDo(cfg: Config, m: Monitor, n: Monitor, call: Call)
    requires Permitted(cfg, m, call) && Apply(n.world.objects, call).Some?
    requires n == m.(world := m.world.(crs := n.world.crs)) && Steady(m.world.crs, n.world.crs)
    ensures Next(cfg, n, Do(call)) == Some(n.(world := n.world.(objects := Apply(n.world.objects, call).value)))
  {
    StillPermitted(cfg, m, n, call);
  }

  lemma StillUpdatable(cfg: Config, m: Monitor, n: Monitor, was: Object, now: Object)
    requires MayUpdate(cfg, m, was, now)
    requires n == m.(world := m.world.(crs := n.world.crs))
    ensures MayUpdate(cfg, n, was, now)
  {
    if now.Gateway? {
      var side :| was.Id() == GatewayKey(side)
        && (GatewayShrinks(m, side, was, now) || exists spec, t :: SideOf(t) == side && GatewayGrows(m, spec, t, was, now));
      if GatewayShrinks(m, side, was, now) {
        assert GatewayShrinks(n, side, was, now);
      } else {
        var spec, t :| SideOf(t) == side && GatewayGrows(m, spec, t, was, now);
        assert GatewayGrows(n, spec, t, was, now);
      }
    } else {
      var spec, name :| MayWriteAccount(cfg, m, spec, name, was.meta, now);
      assert MayWriteAccount(cfg, n, spec, name, was.meta, now);
    }
  }

  lemma StillDeletable(cfg: Config, m: Monitor, n: Monitor, k: Key, o: Object)
    requires MayDelete(cfg, m, k, o)
    requires n == m.(world := m.world.(crs := n.world.crs)) && Steady(m.world.crs, n.world.crs)
    ensures MayDelete(cfg, n, k, o)
  {
    if o.ServiceAccount? || o.IamServiceAccount? || o.IamPolicyMember? {
      var spec, name :| MayDeleteAccount(cfg, m, spec, name, k);
      assert MayDeleteAccount(cfg, n, spec, name, k);
    } else if !o.Gateway? {
      if exists side :: o.HostLabel().Some? && StaleHost(m, side, o.HostLabel().value) {
        var side :| StaleHost(m, side, o.HostLabel().value);
        assert StaleHost(n, side, o.HostLabel().value);
      } else {
        var spec :| MayDeletePolicy(m, spec, o.labels);
        if TerminatedWith(m.world.crs, spec, o.labels) {
          var name :| Terminating(m.world.crs, name, spec);
          assert Terminating(n.world.crs, name, spec);
        }
        assert MayDeletePolicy(n, spec, o.labels);
      }
    }
  }
}
