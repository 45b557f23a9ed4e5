/** Whole reconciles: two of them settle every object of the cluster. */
module Stability {
  import opened Wrappers
  import opened Resources
  import opened Protocol
  import opened Safety
  import opened EgressSpec
  import opened Convergence
  import opened Separation
  import opened AccountSpec
  import opened AccountFacts
  import opened Controller

  // ---- The two parts do not meet ---------------------------------------------------

  lemma EgressKinds(o: Object)
    ensures AccountKind(o.Id().kind) <==> o.ServiceAccount? || o.IamServiceAccount? || o.IamPolicyMember?
    ensures AccountKind(o.Id().kind) ==> o.HostLabel() == None && !o.AuthorizationPolicy? && !o.Gateway? && !o.Child()
  {
  }

  lemma ExtendsKeepsAccounts(s: Store, s': Store, ts: set<Target>)
    requires Keyed(s) && Extends(s, s', ts)
    ensures SameAccounts(s, s')
  {
    forall k: Key | AccountKind(k.kind) ensures (k in s <==> k in s') && (k in s ==> s[k] == s'[k]) {
      if k in s { EgressKinds(s[k]); }
      if k in s' && k !in s {
        assert MadeFor(ts, k, s'[k]);
        EgressKinds(s'[k]);
        if t :| t in ts && s'[k] in ChildrenOf(t) { ChildLabel(t, s'[k]); }
      }
    }
  }

  lemma AddsKeepsAccounts(cfg: Config, s: Store, s': Store, rs: seq<Request>)
    requires Keyed(s) && Adds(cfg, s, s', rs)
    ensures SameAccounts(s, s') && Keyed(s')
  {
    forall k: Key | AccountKind(k.kind) && k in s' ensures k in s {
      if k !in s { EgressKinds(s'[k]); }
    }
  }

  lemma EnsureKeepsAccounts(cfg: Config, s: Store, spec: Spec, s': Store)
    requires Keyed(s) && EnsureAll(cfg, s, spec) == Some(s')
    ensures SameAccounts(s, s') && Keyed(s')
  {
    var mid := EnsureAllSplit(cfg, s, spec, s');
    var rs := Requests(cfg, spec, spec.accounts);
    PoliciesAdd(cfg, mid, rs, s', rs);
    ExtendsKeyed(s, mid, WantedTargets(spec));
    ExtendsKeepsAccounts(s, mid, WantedTargets(spec));
    AddsKeepsAccounts(cfg, mid, s', rs);
  }

  lemma SweepKeepsAccounts(s: Store, side: Side, keep: set<string>)
    requires Keyed(s) && Gated(s)
    ensures SameAccounts(s, Sweep(s, side, keep)) && Keyed(Sweep(s, side, keep))
  {
    forall k: Key | AccountKind(k.kind) && k in s ensures k in Sweep(s, side, keep) && Sweep(s, side, keep)[k] == s[k] {
      EgressKinds(s[k]);
    }
  }

  lemma CleanKeepsAccounts(s: Store, spec: Spec, specs: set<Spec>)
    requires Keyed(s) && Gated(s)
    ensures SameAccounts(s, CleanAll(s, spec, specs)) && Keyed(CleanAll(s, spec, specs))
  {
    var s2 := WithoutRevoked(WithoutDropped(s, spec), specs);
    forall k: Key | AccountKind(k.kind) && k in s ensures k in s2 { EgressKinds(s[k]); }
    assert Gated(s2) && Keyed(s2) && SameAccounts(s, s2);
    SweepKeepsAccounts(s2, ExternalSide, InUse(specs, ExternalSide));
    CleanSideGated(s2, specs, ExternalSide);
    SweepKeepsAccounts(CleanSide(s2, specs, ExternalSide), CloudSQLSide, InUse(specs, CloudSQLSide));
  }

  lemma PassKeepsAccounts(cfg: Config, s: Store, spec: Spec, specs: set<Spec>, s': Store)
    requires Keyed(s) && Gated(s) && EgressPass(cfg, s, spec, specs) == Some(s')
    ensures SameAccounts(s, s') && Keyed(s')
  {
    var mid := EnsureAll(cfg, s, spec).value;
    EnsureKeepsAccounts(cfg, s, spec, mid);
    EnsureAllGated(cfg, s, spec, mid);
    CleanKeepsAccounts(mid, spec, specs);
  }

  lemma SameNoLeavers(s: Store, s': Store, spec: Spec)
    requires SameAccounts(s, s') && Keyed(s') && NoLeavers(s, spec)
    ensures NoLeavers(s', spec)
  {
    forall k | k in s' ensures !Leaver(s'[k], spec) { EgressKinds(s'[k]); }
  }

  lemma SameSettled(cfg: Config, s: Store, s': Store, spec: Spec)
    requires SameAccounts(s, s') && AllSettled(cfg, s, spec, spec.accounts)
    ensures AllSettled(cfg, s', spec, spec.accounts)
  {
    forall i | 0 <= i < |spec.accounts| ensures AccountSettled(cfg, s', spec, spec.accounts[i].name) {
      assert AccountSettled(cfg, s, spec, spec.accounts[i].name);
    }
  }

  lemma SameTidy(s: Store, s': Store, spec: Spec, specs: set<Spec>)
    requires SameEgress(s, s') && Keyed(s') && Tidy(s, spec, specs) && Anchored(s, spec)
    ensures Tidy(s', spec, specs) && Anchored(s', spec)
  {
    forall k | k in s' && s'[k].AuthorizationPolicy? ensures k in s && s[k] == s'[k] { EgressKinds(s'[k]); }
    forall side ensures TidySide(s', specs, side) {
      assert !AccountKind(GatewayKey(side).kind);
      assert TidySide(s, specs, side);
    }
    assert !AccountKind(GatewayKey(ExternalSide).kind);
  }

  lemma AnySame(s: Store, s': Store, sel: Selector)
    requires SameEgress(s, s') && Keyed(s) && Any(s, sel) && !sel.ByOwner?
    requires sel.ByHost? ==> !AccountKind(sel.kind)
    ensures Any(s', sel)
  {
    var k :| k in s && Matches(sel, s[k]);
    EgressKinds(s[k]);
    assert k in s' && s'[k] == s[k];
  }

  lemma SameServed(s: Store, s': Store, t: Target)
    requires SameEgress(s, s') && Keyed(s) && Served(s, t)
    ensures Served(s', t)
  {
    AnySame(s, s', ByRule(Label(t), ToGateway));
    AnySame(s, s', ByRule(Label(t), FromGateway));
    AnySame(s, s', ByHost(ServiceEntries, Label(t)));
    assert !AccountKind(GatewayKey(SideOf(t)).kind) && !AccountKind(NewVirtualService(t).Id().kind);
  }

  lemma SameGranted(cfg: Config, s: Store, s': Store, r: Request)
    requires SameEgress(s, s') && Keyed(s) && Granted(cfg, s, r)
    ensures Granted(cfg, s', r)
  {
    if Any(s, ByGrant(r.labels)) { AnySame(s, s', ByGrant(r.labels)); }
    assert !AccountKind(PolicyKey(cfg, r.labels).kind);
  }

  lemma SameHostsWithin(s: Store, s': Store)
    requires SameEgress(s, s')
    ensures forall side :: Hosts(s', side) == Hosts(s, side)
  {
    assert forall side :: !AccountKind(GatewayKey(side).kind);
  }

  lemma SameWithin(cfg: Config, scope: Scope, s: Store, s': Store)
    requires SameEgress(s, s') && Keyed(s') && Within(cfg, scope, s)
    ensures Within(cfg, scope, s')
  {
    SameHostsWithin(s, s');
    SameGated(s, s');
    forall k | k in s' && (s'[k].Child() || s'[k].AuthorizationPolicy?) ensures k in s && s[k] == s'[k] {
      EgressKinds(s'[k]);
    }
    assert forall k :: k in s' && EgressObject(s'[k]) ==> Listed(s', s'[k].HostLabel().value);
  }

  // ---- The account phase -----------------------------------------------------------

  lemma AccountsDoneFacts(cfg: Config, s: Store, spec: Spec)
    requires Keyed(s)
    ensures var s' := AccountsDone(cfg, s, spec); SameEgress(s, s') && Keyed(s') && NoLeavers(s', spec)
  {
    var s0 := EnsureAccounts(cfg, s, spec, spec.accounts);
    AccountsKeepEgress(cfg, s, spec, spec.accounts);
    EnsuredKeyed(cfg, s, spec, spec.accounts);
    CleanKeepsEgress(cfg, s0, spec);
    SecondCleanupIdle(cfg, s0, spec);
    CleanLeavesNone(cfg, s0, spec);
  }

  lemma SameGated(s: Store, s': Store)
    requires SameEgress(s, s') && Gated(s)
    ensures Gated(s')
  {
    assert forall side :: !AccountKind(GatewayKey(side).kind);
  }

  // ---- Two reconciles --------------------------------------------------------------

  ghost predicate StableObjects(cfg: Config, s: Store, spec: Spec, specs: set<Spec>) {
    && AllSettled(cfg, s, spec, spec.accounts) && NoLeavers(s, spec)
    && Settled(cfg, s, spec) && Tidy(s, spec, specs)
  }

  lemma StableIdle(cfg: Config, s: Store, spec: Spec, specs: set<Spec>)
    requires StableObjects(cfg, s, spec, specs)
    ensures ObjectsPass(cfg, s, spec, specs) == Some(s)
  {
    AccountPassIdle(cfg, s, spec);
    SettledIdle(cfg, s, spec);
    TidyIdle(s, spec, specs);
  }

  /** After one pass: no leavers, nothing to clean. */
  lemma FirstPass(cfg: Config, s: Store, spec: Spec, specs: set<Spec>, s': Store)
    requires Keyed(s) && Gated(s) && spec in specs && ObjectsPass(cfg, s, spec, specs) == Some(s')
    ensures Keyed(s') && NoLeavers(s', spec) && Tidy(s', spec, specs) && Anchored(s', spec)
  {
    var a := AccountsDone(cfg, s, spec);
    AccountsDoneFacts(cfg, s, spec);
    SameGated(s, a);
    PassKeepsAccounts(cfg, a, spec, specs, s');
    SameNoLeavers(a, s', spec);
    PassTidy(cfg, a, spec, specs, s');
  }

  /** The second pass, from such a state, settles everything. */
  lemma SecondPass(cfg: Config, s: Store, spec: Spec, specs: set<Spec>, s': Store)
    requires Keyed(s) && NoLeavers(s, spec) && Tidy(s, spec, specs) && Anchored(s, spec)
    requires Governs(spec, specs) && ObjectsPass(cfg, s, spec, specs) == Some(s')
    ensures StableObjects(cfg, s', spec, specs) && Keyed(s')
  {
    var a := AccountsDone(cfg, s, spec);
    AccountsDoneFacts(cfg, s, spec);
    SecondPassSettles(cfg, s, spec);
    SameTidy(s, a, spec, specs);
    var mid := EnsureAll(cfg, a, spec).value;
    EnsureKeepsAccounts(cfg, a, spec, mid);
    EnsureAllTidy(cfg, a, spec, specs, mid);
    EnsureAllSettles(cfg, a, spec, mid);
    TidyIdle(mid, spec, specs);
    SameSettled(cfg, a, mid, spec);
    SameNoLeavers(a, mid, spec);
  }

  lemma ReconciledParts(cfg: Config, w: World, name: string, w': World)
    requires name in w.crs && !w.crs[name].deleting && Reconciled(cfg, w, name) == Some(w')
    ensures w'.crs == WithFinalizer(w.crs, name) && Specs(w'.crs) == Specs(w.crs)
    ensures ObjectsPass(cfg, w.objects, w.crs[name].spec, Specs(w.crs)) == Some(w'.objects)
  {
    FinalizerKeepsSpecs(w.crs, name);
  }

  lemma ReconciledIdle(cfg: Config, w: World, name: string)
    requires name in w.crs && !w.crs[name].deleting && FINALIZER in w.crs[name].finalizers
    requires ObjectsPass(cfg, w.objects, w.crs[name].spec, Specs(w.crs)) == Some(w.objects)
    ensures Reconciled(cfg, w, name) == Some(w.(history := w.history + RowsFor(w.crs[name], w.crs[name].spec.accounts)))
  {
    assert w.crs[name].finalizers + {FINALIZER} == w.crs[name].finalizers;
    assert WithFinalizer(w.crs, name) == w.crs;
  }

  lemma OwnerGoverns(crs: map<string, Resource>, name: string)
    requires name in crs && UniqueOwners(crs) && DistinctAccounts(crs[name].spec)
    ensures Governs(crs[name].spec, Specs(crs))
  {
  }

  lemma ObjectsSettle(cfg: Config, s0: Store, s1: Store, s2: Store, spec: Spec, specs: set<Spec>)
    requires Keyed(s0) && Gated(s0) && Governs(spec, specs)
    requires ObjectsPass(cfg, s0, spec, specs) == Some(s1) && ObjectsPass(cfg, s1, spec, specs) == Some(s2)
    ensures ObjectsPass(cfg, s2, spec, specs) == Some(s2)
  {
    FirstPass(cfg, s0, spec, specs, s1);
    SecondPass(cfg, s1, spec, specs, s2);
    StableIdle(cfg, s2, spec, specs);
  }

  /** Two successful reconciles of one resource, with no name assumed distinct, reach a
      world in which every later reconcile of it succeeds and only appends to the history. */
  lemma TwoReconcilesSettle(cfg: Config, w0: World, w1: World, w2: World, name: string)
    requires Safe(cfg, w0) && name in w0.crs && !w0.crs[name].deleting && DistinctAccounts(w0.crs[name].spec)
    requires Reconciled(cfg, w0, name) == Some(w1) && Reconciled(cfg, w1, name) == Some(w2)
    ensures Reconciled(cfg, w2, name) ==
      Some(w2.(history := w2.history + RowsFor(w2.crs[name], w2.crs[name].spec.accounts)))
  {
    ReconciledParts(cfg, w0, name, w1);
    ReconciledParts(cfg, w1, name, w2);
    OwnerGoverns(w0.crs, name);
    ShapedGated(w0.objects);
    ObjectsSettle(cfg, w0.objects, w1.objects, w2.objects, w0.crs[name].spec, Specs(w0.crs));
    ReconciledIdle(cfg, w2, name);
  }

  lemma ShapedGated(s: Store)
    requires Shaped(s)
    ensures Gated(s)
  {
    forall side | GatewayKey(side) in s ensures s[GatewayKey(side)].Gateway? && |s[GatewayKey(side)].servers| > 0 {
      assert ShapedGateway(s[GatewayKey(side)], side);
    }
  }

  /** With separated names one successful reconcile is enough: the next one succeeds as well
      and leaves every gateway, child and policy as it is. */
  lemma OneReconcileSettles(cfg: Config, scope: Scope, s0: Store, s1: Store, spec: Spec, specs: set<Spec>)
    requires Within(cfg, scope, s0) && Separated(cfg, scope) && SpecsWithin(cfg, scope, specs) && Governs(spec, specs)
    requires ObjectsPass(cfg, s0, spec, specs) == Some(s1)
    ensures var s2 := AccountsDone(cfg, s1, spec);
      ObjectsPass(cfg, s1, spec, specs) == Some(s2) && SameEgress(s1, s2)
  {
    var a, b := AccountsDone(cfg, s0, spec), AccountsDone(cfg, s1, spec);
    AccountsDoneFacts(cfg, s0, spec);
    SameWithin(cfg, scope, s0, a);
    OnePassConverges(cfg, scope, a, s1, spec, specs);
    PassTidy(cfg, a, spec, specs, s1);
    PassKeepsAccounts(cfg, a, spec, specs, s1);
    AccountsDoneFacts(cfg, s1, spec);
    SameTidy(s1, b, spec, specs);
    SameAllSettled(cfg, s1, b, spec);
    SettledIdle(cfg, b, spec);
    TidyIdle(b, spec, specs);
  }

  lemma SameAllSettled(cfg: Config, s: Store, s': Store, spec: Spec)
    requires SameEgress(s, s') && Keyed(s) && Settled(cfg, s, spec)
    ensures Settled(cfg, s', spec)
  {
    forall t | t in WantedTargets(spec) ensures Served(s', t) { SameServed(s, s', t); }
    forall r | Requested(cfg, spec, r) ensures Granted(cfg, s', r) { SameGranted(cfg, s, s', r); }
  }
}
