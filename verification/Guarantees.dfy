/** Guarantees about grants, finalizers and other resources' objects, over whole runs. */
module Guarantees {
  import opened Wrappers
  import opened Resources
  import opened Protocol
  import opened Entitlements
  import opened Safety
  import opened EgressSpec
  import opened Convergence
  import opened Separation
  import opened Confluence
  import opened Progress
  import opened Controller
  import opened Stability
  import Names

  // ---- Grants ----------------------------------------------------------------------

  ghost predicate HeldFor(crs: map<string, Resource>, project: string, domain: string) {
    exists name :: name in crs && FINALIZER in crs[name].finalizers
      && crs[name].spec.project == project && crs[name].spec.domain == domain
  }

  /** The policy opens what the specification, as it was read last and from a resource not
      being deleted, entitles one of its accounts to. The grant is in the history, the
      finalizer is held, the service accounts stand, and an egress host is listed. */
  ghost predicate InOrder(cfg: Config, m: Monitor, spec: Spec, account: Account, o: Object) {
    && spec in m.view && spec in m.live && account in spec.accounts && Entitled(cfg, spec, account, o)
    && Recorded(m.world.history, o.labels) && HeldFor(m.world.crs, spec.project, spec.domain)
    && AccountsReady(m.world.objects, spec)
    && (o.labels.hostType == External ==> Listed(m.world.objects, o.labels.host))
  }

  lemma GrantStep(cfg: Config, m: Monitor, o: Object)
    requires o.AuthorizationPolicy? && Next(cfg, m, Do(Create(o))).Some?
    ensures exists spec, account :: InOrder(cfg, m, spec, account, o)
  {
    var name, spec, r :| MayCreatePolicy(cfg, m, name, spec, r, o);
    var account := RequestEntitled(cfg, spec, r, o);
    assert Held(m.world.crs, name, spec) && o.labels == r.labels;
    assert HeldFor(m.world.crs, spec.project, spec.domain);
    assert InOrder(cfg, m, spec, account, o);
  }

  /** Whatever run led to it, each policy is created in order. */
  lemma GrantInOrder(cfg: Config, m: Monitor, run: seq<Event>, i: nat, o: Object)
    requires Replay(cfg, m, run).Some? && i < |run| && run[i] == Do(Create(o)) && o.AuthorizationPolicy?
    ensures Replay(cfg, m, run[..i]).Some?
    ensures exists spec, account :: InOrder(cfg, Replay(cfg, m, run[..i]).value, spec, account, o)
  {
    ReplayPrefix(cfg, m, run, i);
    ReplayPrefix(cfg, m, run, i + 1);
    GrantStep(cfg, Replay(cfg, m, run[..i]).value, o);
  }

  /** A child serves a target of a specification whose service accounts all stand, and its
      host is listed. */
  ghost predicate ServesInOrder(m: Monitor, spec: Spec, t: Target, o: Object) {
    && spec in m.view && t in WantedTargets(spec) && o in ChildrenOf(t)
    && AccountsReady(m.world.objects, spec) && Listed(m.world.objects, Label(t))
  }

  /** Whatever run led to it, each child is created in order. */
  lemma ChildInOrder(cfg: Config, m: Monitor, run: seq<Event>, i: nat, o: Object)
    requires Replay(cfg, m, run).Some? && i < |run| && run[i] == Do(Create(o)) && o.Child()
    ensures Replay(cfg, m, run[..i]).Some?
    ensures exists spec, t :: ServesInOrder(Replay(cfg, m, run[..i]).value, spec, t, o)
  {
    ReplayPrefix(cfg, m, run, i);
    ReplayPrefix(cfg, m, run, i + 1);
    var n := Replay(cfg, m, run[..i]).value;
    CreatedListed(cfg, n, o);
    var spec, t :| MayCreateChild(n, spec, t, o);
    ChildLabel(t, o);
    assert ServesInOrder(n, spec, t, o);
  }

  /** After any successful pass the internal policies of every listed account, of whichever
      resource, have their parent host in the allowlist of that account. */
  lemma InternalPoliciesMatch(cfg: Config, s: Store, spec: Spec, specs: set<Spec>, s': Store, other: Spec, account: Account, k: Key)
    requires Gated(s) && spec in specs && EgressPass(cfg, s, spec, specs) == Some(s')
    requires other in specs && account in other.accounts && k in s' && s'[k].AuthorizationPolicy?
    requires s'[k].labels.project == other.project && s'[k].labels.domain == other.domain
    requires s'[k].labels.account == account.name && s'[k].labels.hostType == Internal
    ensures s'[k].labels.parent in HostsOf(account.internal)
  {
    PassTidy(cfg, s, spec, specs, s');
    assert !Revoked(other, s'[k].labels);
    assert !RevokedBy(other, account, s'[k].labels);
  }

  /** With separated names the reconciled resource has a policy for everything its accounts
      list: each external host, each CloudSQL instance, and each on-prem host with each of
      its virtual IPs. */
  lemma PoliciesStand(cfg: Config, scope: Scope, s: Store, spec: Spec, specs: set<Spec>, s': Store, account: Account)
    requires Within(cfg, scope, s) && Separated(cfg, scope) && SpecsWithin(cfg, scope, specs) && Governs(spec, specs)
    requires EgressPass(cfg, s, spec, specs) == Some(s') && account in spec.accounts
    ensures forall h :: h in account.external ==>
      HasPolicy(s', Labels(spec.project, spec.domain, account.name, h.host, External, h.host))
    ensures forall ip :: ip in account.cloudSQL ==>
      HasPolicy(s', Labels(spec.project, spec.domain, account.name, SqlHost(ip), External, SqlHost(ip)))
    ensures forall h :: h in account.internal && h.host in cfg.onprem ==>
      HasPolicy(s', Labels(spec.project, spec.domain, account.name, h.host, Internal, h.host))
    ensures forall h, vip :: h in account.internal && h.host in cfg.onprem && vip in cfg.onprem[h.host].vip ==>
      HasPolicy(s', Labels(spec.project, spec.domain, account.name, vip, Internal, h.host))
  {
    OnePassConverges(cfg, scope, s, s', spec, specs);
    PassWithin(cfg, scope, s, spec, specs, s');
    var p, d, n := spec.project, spec.domain, account.name;
    forall h | h in account.external ensures HasPolicy(s', Labels(p, d, n, h.host, External, h.host)) {
      AskedStands(cfg, scope, s', spec, specs, account, Request(Labels(p, d, n, h.host, External, h.host), h.host, h.paths, "HTTPS"));
    }
    forall ip | ip in account.cloudSQL ensures HasPolicy(s', Labels(p, d, n, SqlHost(ip), External, SqlHost(ip))) {
      AskedStands(cfg, scope, s', spec, specs, account, Request(Labels(p, d, n, SqlHost(ip), External, SqlHost(ip)), ip, [], "TCP"));
    }
    forall h | h in account.internal && h.host in cfg.onprem ensures HasPolicy(s', Labels(p, d, n, h.host, Internal, h.host)) {
      var r := Request(Labels(p, d, n, h.host, Internal, h.host), h.host, h.paths, cfg.onprem[h.host].protocol);
      assert AsksInternal(cfg, spec, n, h, r);
      AskedStands(cfg, scope, s', spec, specs, account, r);
    }
    forall h, vip | h in account.internal && h.host in cfg.onprem && vip in cfg.onprem[h.host].vip
      ensures HasPolicy(s', Labels(p, d, n, vip, Internal, h.host))
    {
      var r := Request(Labels(p, d, n, vip, Internal, h.host), vip, [], cfg.onprem[h.host].protocol);
      assert AsksInternal(cfg, spec, n, h, r);
      AskedStands(cfg, scope, s', spec, specs, account, r);
    }
  }

  lemma AskedStands(cfg: Config, scope: Scope, s: Store, spec: Spec, specs: set<Spec>, account: Account, r: Request)
    requires Within(cfg, scope, s) && Separated(cfg, scope) && SpecsWithin(cfg, scope, specs) && spec in specs
    requires Settled(cfg, s, spec) && account in spec.accounts && Asks(cfg, spec, account, r)
    ensures HasPolicy(s, r.labels)
  {
    RequestsExact(cfg, spec, r);
    PolicyByName(cfg, scope, s, r);
  }

  /** And each policy that was not there before the pass is one that an account of the
      resource is entitled to. */
  lemma NewPoliciesEntitled(cfg: Config, s: Store, spec: Spec, specs: set<Spec>, s': Store, k: Key)
    requires Gated(s) && EgressPass(cfg, s, spec, specs) == Some(s')
    requires k in s' && k !in s && s'[k].AuthorizationPolicy?
    ensures exists account :: account in spec.accounts && Entitled(cfg, spec, account, s'[k])
  {
    var ensured := EnsureAll(cfg, s, spec).value;
    EnsureAllGated(cfg, s, spec, ensured);
    CleanAllTidy(ensured, spec, specs);
    assert ensured[k] == s'[k];
    var mid := EnsureAllSplit(cfg, s, spec, ensured);
    ExtendsPolicies(s, mid, WantedTargets(spec));
    PoliciesAdd(cfg, mid, Requests(cfg, spec, spec.accounts), ensured, Requests(cfg, spec, spec.accounts));
    var r :| Requested(cfg, spec, r) && NewPolicy(cfg, r) == Some(ensured[k]);
    var account := RequestEntitled(cfg, spec, r, ensured[k]);
  }

  // ---- Other resources -------------------------------------------------------------

  /** No call takes away a gateway entry or a child that any resource asks for, nor a policy
      that a resource asks for which is not being deleted: by the specifications as the
      operator last read them, however far it gets and whatever it is doing to which
      resource. */
  lemma NothingNeededLost(cfg: Config, scope: Scope, m: Monitor, e: Event, n: Monitor)
    requires Apart(cfg, scope, m) && Next(cfg, m, e) == Some(n)
    ensures forall side, h :: h in InUse(m.view, side) && h in Hosts(m.world.objects, side) ==> h in Hosts(n.world.objects, side)
    ensures forall o :: o in AllChildren(m.view) && Holds(m.world.objects, o) ==> Holds(n.world.objects, o)
    ensures forall l :: l in WantedLabels(cfg, m.live) && HasPolicy(m.world.objects, l) ==> HasPolicy(n.world.objects, l)
  {
    if e.Do? { CallProgress(cfg, scope, m, e.call); }
    forall side, h | h in InUse(m.view, side) && h !in Hosts(n.world.objects, side) ensures h !in Hosts(m.world.objects, side) {
      assert IsDefect(cfg, n.world.objects, m.view, m.live, MissingEntry(side, h));
    }
    forall o | o in AllChildren(m.view) && !Holds(n.world.objects, o) ensures !Holds(m.world.objects, o) {
      assert IsDefect(cfg, n.world.objects, m.view, m.live, MissingChild(o));
    }
    forall l | l in WantedLabels(cfg, m.live) && !HasPolicy(n.world.objects, l) ensures !HasPolicy(m.world.objects, l) {
      assert IsDefect(cfg, n.world.objects, m.view, m.live, MissingPolicy(l));
    }
  }

  ghost predicate NamespacesApart(specs: set<Spec>) {
    forall a, b :: a in specs && b in specs && Namespace(a.project, a.domain) == Namespace(b.project, b.domain) ==> a == b
  }

  /** Nor does any call delete a service account or a policy member that a specification
      asks for, as long as no two of them share a namespace. */
  lemma AccountsKept(cfg: Config, m: Monitor, k: Key, spec: Spec, name: string, role: Role)
    requires Keyed(m.world.objects) && NamespacesApart(m.view)
    requires spec in m.view && Named(spec.accounts, name) && k in m.world.objects
    requires k == AccountKey(spec, name) || k == MemberKey(spec, name, role)
    ensures !Permitted(cfg, m, Delete(k))
  {
    assert m.world.objects[k].Id() == k;
    if Permitted(cfg, m, Delete(k)) {
      var other, left :| MayDeleteAccount(cfg, m, other, left, k);
      assert other == spec;
      if q :| q in CLEANED_ROLES && k == MemberKey(other, left, q) {
        Names.MemberNameInjective(left, q, name, role);
      }
    }
  }

  // ---- The finalizer ---------------------------------------------------------------

  ghost predicate TeamFree(s: Store, spec: Spec) {
    forall k :: k in s && s[k].AuthorizationPolicy? ==> s[k].labels.project != spec.project || s[k].labels.domain != spec.domain
  }

  /** Every policy of the team belongs to an account that the specification lists. */
  ghost predicate TeamListed(s: Store, spec: Spec) {
    forall k :: k in s && Matches(ByTeam(spec.project, spec.domain), s[k]) ==> Named(spec.accounts, s[k].labels.account)
  }

  /** The resource holds the finalizer and has this specification, the operator has read no
      other for its team, and the team has no policy but for its listed accounts. */
  ghost predicate Guarded(m: Monitor, name: string, spec: Spec) {
    && name in m.world.crs && FINALIZER in m.world.crs[name].finalizers && m.world.crs[name].spec == spec
    && (forall v :: v in m.view && SameOwner(v, spec) ==> v == spec)
    && TeamListed(m.world.objects, spec)
  }

  /** Users do not change this specification. Whatever else they edit is up to them: other
      resources may come, go and change, and this one may be deleted. */
  ghost predicate SpecKept(run: seq<Event>, name: string, spec: Spec) {
    forall e :: e in run && e.Edit? && name in e.crs ==> e.crs[name].spec == spec
  }

  ghost predicate Unfinalized(e: Event, name: string) {
    e.Finalize? && e.name == name && FINALIZER !in e.finalizers
  }

  lemma GuardedCall(cfg: Config, m: Monitor, call: Call, name: string, spec: Spec)
    requires Guarded(m, name, spec) && Permitted(cfg, m, call) && Apply(m.world.objects, call).Some?
    ensures TeamListed(Apply(m.world.objects, call).value, spec)
  {
    if call.Create? && call.item.AuthorizationPolicy? {
      var owner, mine, r :| MayCreatePolicy(cfg, m, owner, mine, r, call.item);
      RequestNamed(cfg, mine, r);
    }
  }

  lemma RequestNamed(cfg: Config, spec: Spec, r: Request)
    requires Requested(cfg, spec, r)
    ensures r.labels.project == spec.project && r.labels.domain == spec.domain && Named(spec.accounts, r.labels.account)
  {
    var account := RequestAsksFor(cfg, spec, spec.accounts, r);
    var i :| 0 <= i < |spec.accounts| && spec.accounts[i] == account;
  }

  lemma GuardedStep(cfg: Config, m: Monitor, e: Event, n: Monitor, name: string, spec: Spec)
    requires Safe(cfg, m.world) && Guarded(m, name, spec) && Next(cfg, m, e) == Some(n)
    requires e.Edit? && name in e.crs ==> e.crs[name].spec == spec
    ensures if Unfinalized(e, name) then TeamFree(m.world.objects, spec) else Guarded(n, name, spec)
  {
    match e
    case Do(call) => GuardedCall(cfg, m, call, name, spec);
    case Edit(crs) =>
    case Finalize(other, finalizers) =>
      if Unfinalized(e, name) {
        assert NoPolicyOf(m.world.objects, spec);
        assert forall k :: k in m.world.objects && m.world.objects[k].AuthorizationPolicy? ==>
          (Matches(ByTeam(spec.project, spec.domain), m.world.objects[k]) <==>
            m.world.objects[k].labels.project == spec.project && m.world.objects[k].labels.domain == spec.domain);
      }
    case Look =>
      forall v | v in n.view && SameOwner(v, spec) ensures v == spec {
        var other :| other in m.world.crs && m.world.crs[other].spec == v;
        assert SameOwner(m.world.crs[other].spec, m.world.crs[name].spec);
      }
    case _ =>
  }

  lemma {:induction false} GuardedUntil(cfg: Config, m: Monitor, run: seq<Event>, name: string, spec: Spec)
    requires Safe(cfg, m.world) && Guarded(m, name, spec) && Replay(cfg, m, run).Some? && SpecKept(run, name, spec)
    requires forall e :: e in run ==> !Unfinalized(e, name)
    ensures Guarded(Replay(cfg, m, run).value, name, spec)
    decreases |run|
  {
    if run != [] {
      var before, last := run[..|run| - 1], run[|run| - 1];
      GuardedUntil(cfg, m, before, name, spec);
      SafeThroughout(cfg, m, run, |before|);
      assert last in run;
      GuardedStep(cfg, Replay(cfg, m, before).value, last, Replay(cfg, m, run).value, name, spec);
    }
  }

  /** Finalizer safety: from any moment at which every policy of a resource's team belongs to
      an account it lists, through any failed and retried reconciles of any resources and any
      edits that leave this specification alone, the finalizer first leaves the resource in a
      world without a policy of the team. */
  lemma FinalizerSafe(cfg: Config, m: Monitor, run: seq<Event>, i: nat, name: string, spec: Spec)
    requires Safe(cfg, m.world) && Guarded(m, name, spec) && Replay(cfg, m, run).Some? && SpecKept(run, name, spec)
    requires i < |run| && Unfinalized(run[i], name) && forall j :: 0 <= j < i ==> !Unfinalized(run[j], name)
    ensures Replay(cfg, m, run[..i]).Some? && TeamFree(Replay(cfg, m, run[..i]).value.world.objects, spec)
  {
    ReplayPrefix(cfg, m, run, i);
    ReplayPrefix(cfg, m, run, i + 1);
    GuardedUntil(cfg, m, run[..i], name, spec);
    SafeThroughout(cfg, m, run, i);
    GuardedStep(cfg, Replay(cfg, m, run[..i]).value, run[i], Replay(cfg, m, run[..i + 1]).value, name, spec);
  }

  /** A resource that is gone, or no longer holds the finalizer, was let go in a world
      without a policy of its team. */
  lemma GoneLeavesNone(cfg: Config, m: Monitor, run: seq<Event>, name: string, spec: Spec) returns (i: nat)
    requires Safe(cfg, m.world) && Guarded(m, name, spec) && Replay(cfg, m, run).Some? && SpecKept(run, name, spec)
    requires var crs := Replay(cfg, m, run).value.world.crs; name !in crs || FINALIZER !in crs[name].finalizers
    ensures i < |run| && Unfinalized(run[i], name) && forall j :: 0 <= j < i ==> !Unfinalized(run[j], name)
    ensures Replay(cfg, m, run[..i]).Some? && TeamFree(Replay(cfg, m, run[..i]).value.world.objects, spec)
  {
    i := 0;
    while i < |run| && !Unfinalized(run[i], name)
      invariant i <= |run| && forall j :: 0 <= j < i ==> !Unfinalized(run[j], name)
    {
      i := i + 1;
    }
    if i == |run| {
      GuardedUntil(cfg, m, run, name, spec);
      assert false;
    }
    FinalizerSafe(cfg, m, run, i, name, spec);
  }

  /** Such a moment is the end of every undisturbed successful reconcile of a resource that
      is not being deleted, unless a policy has an empty account label. */
  lemma ReconcileGuards(cfg: Config, w: World, name: string, w': World)
    requires Safe(cfg, w) && name in w.crs && !w.crs[name].deleting && Reconciled(cfg, w, name) == Some(w')
    requires forall k :: k in w'.objects && w'.objects[k].AuthorizationPolicy? ==> w'.objects[k].labels.account != ""
    ensures Guarded(Fresh(w'), name, w.crs[name].spec)
  {
    var spec := w.crs[name].spec;
    ReconciledParts(cfg, w, name, w');
    ShapedGated(w.objects);
    FirstPass(cfg, w.objects, spec, Specs(w.crs), w'.objects);
    forall v | v in Specs(w'.crs) && SameOwner(v, spec) ensures v == spec {
      var other :| other in w.crs && w.crs[other].spec == v;
      assert SameOwner(w.crs[other].spec, w.crs[name].spec);
    }
  }

  /** A successful deletion reconcile leaves no policy of the team behind exactly when each
      of them belonged to an account still in the specification; and it always lets the
      resource go. */
  lemma DeletionExact(cfg: Config, w: World, name: string, w': World)
    requires name in w.crs && w.crs[name].deleting && FINALIZER in w.crs[name].finalizers
    requires Reconciled(cfg, w, name) == Some(w')
    ensures name in w'.crs ==> FINALIZER !in w'.crs[name].finalizers
    ensures TeamFree(w'.objects, w.crs[name].spec) <==>
      forall k :: k in w.objects && Matches(ByTeam(w.crs[name].spec.project, w.crs[name].spec.domain), w.objects[k]) ==>
        Named(w.crs[name].spec.accounts, w.objects[k].labels.account)
  {
    var spec := w.crs[name].spec;
    if TeamFree(w'.objects, spec) {
      assert forall k :: k in w.objects && Matches(ByTeam(spec.project, spec.domain), w.objects[k]) ==>
        (k in w'.objects <==> !Named(spec.accounts, w.objects[k].labels.account));
    }
  }
}
