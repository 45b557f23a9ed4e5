/** What the egress part of a reconcile does to the objects when no call fails. */
module EgressSpec {
  import opened Wrappers
  import opened HostList
  import opened Resources
  import opened Protocol

  // ---- Ensuring --------------------------------------------------------------------

  /** Creates an object unless the existence check found one. */
  ghost function Make(s: Store, present: bool, o: Object): Option<Store> {
    if present then Some(s) else Apply(s, Create(o))
  }

  /** Adds a host to the first server of a gateway; None when the gateway is missing. */
  ghost function AddEntry(s: Store, side: Side, h: string): Option<Store> {
    var k := GatewayKey(side);
    if k in s && s[k].Gateway? && |s[k].servers| > 0
    then Some(s[k := WithHosts(s[k], Canon(Elems(Entries(s[k])) + {h}))])
    else None
  }

  /** One round of the loops in `EnsureExternalHosts` and `EnsureCloudSQLHosts`. Only the
      external gateway is created on demand. */
  ghost function EnsureTarget(s: Store, t: Target): Option<Store> {
    var s0 :- EnsureEntry(s, t);
    EnsureChildren(s0, t)
  }

  ghost function EnsureEntry(s: Store, t: Target): Option<Store> {
    var s0 :- if t.ExternalHost? then Make(s, GatewayKey(ExternalSide) in s, NewGateway(t.url)) else Some(s);
    AddEntry(s0, SideOf(t), Label(t))
  }

  ghost function EnsureChildren(s: Store, t: Target): Option<Store> {
    var s1 :- Make(s, NewVirtualService(t).Id() in s, NewVirtualService(t));
    var s2 :- Make(s1, Any(s1, ByRule(Label(t), ToGateway)), NewRule(t, ToGateway));
    var s3 :- Make(s2, Any(s2, ByRule(Label(t), FromGateway)), NewRule(t, FromGateway));
    Make(s3, Any(s3, ByHost(ServiceEntries, Label(t))), NewServiceEntry(t))
  }

  ghost function EnsureTargets(s: Store, ts: seq<Target>): Option<Store>
    decreases |ts|
  {
    if ts == [] then Some(s)
    else
      var s' :- EnsureTarget(s, ts[0]);
      EnsureTargets(s', ts[1..])
  }

  /** The existence check goes by labels, uniqueness by name; a taken name is not an error. */
  ghost function EnsurePolicy(cfg: Config, s: Store, r: Request): Option<Store> {
    if Any(s, ByGrant(r.labels)) then Some(s)
    else
      var o :- NewPolicy(cfg, r);
      if o.Id() in s then Some(s) else Some(s[o.Id() := o])
  }

  ghost function EnsurePolicies(cfg: Config, s: Store, rs: seq<Request>): Option<Store>
    decreases |rs|
  {
    if rs == [] then Some(s)
    else
      var s' :- EnsurePolicy(cfg, s, rs[0]);
      EnsurePolicies(cfg, s', rs[1..])
  }

  // ---- Cleaning --------------------------------------------------------------------

  /** The AuthorizationPolicies of accounts that left the specification. A policy with an
      empty account label is passed over. */
  ghost function WithoutDropped(s: Store, spec: Spec): Store {
    map k | k in s && !(s[k].AuthorizationPolicy? && s[k].labels.account != "" && Dropped(spec, s[k].labels)) :: s[k]
  }

  ghost predicate PolicyOf(o: Object, spec: Spec, accounts: seq<Account>) {
    && o.AuthorizationPolicy? && o.labels.project == spec.project && o.labels.domain == spec.domain
    && Named(accounts, o.labels.account)
  }

  /** A deleted resource takes with it the policies of the accounts it still lists. */
  ghost function WithoutPoliciesOf(s: Store, spec: Spec, accounts: seq<Account>): Store {
    map k | k in s && !PolicyOf(s[k], spec, accounts) :: s[k]
  }

  ghost predicate RevokedByAny(specs: set<Spec>, l: Labels) {
    exists spec :: spec in specs && Revoked(spec, l)
  }

  ghost function WithoutRevoked(s: Store, specs: set<Spec>): Store {
    map k | k in s && !(s[k].AuthorizationPolicy? && RevokedByAny(specs, s[k].labels)) :: s[k]
  }

  ghost predicate LabelledIn(o: Object, hosts: set<string>) {
    o.HostLabel().Some? && o.HostLabel().value in hosts
  }

  ghost function WithoutHosts(s: Store, hosts: set<string>): Store {
    map k | k in s && !LabelledIn(s[k], hosts) :: s[k]
  }

  /** Removes what belongs to entries no allowlist asks for, then rewrites the entries. An
      external gateway without entries is deleted; a missing gateway is left alone. */
  ghost function Sweep(s: Store, side: Side, keep: set<string>): Store {
    var k := GatewayKey(side);
    if k !in s then s
    else
      var s' := WithoutHosts(s, Hosts(s, side) - keep);
      if keep == {} then s' - {k}
      else if k in s' && s'[k].Gateway? && |s'[k].servers| > 0
      then s'[k := WithHosts(s'[k], Canon(keep))] else s'
  }

  ghost function CleanSide(s: Store, specs: set<Spec>, side: Side): Store {
    Sweep(s, side, InUse(specs, side))
  }

  /** `CleanupUnusedHosts`. */
  ghost function CleanHosts(s: Store, specs: set<Spec>): Store {
    CleanSide(CleanSide(WithoutRevoked(s, specs), specs, ExternalSide), specs, CloudSQLSide)
  }

  // ---- The whole pass --------------------------------------------------------------

  ghost function EnsureAll(cfg: Config, s: Store, spec: Spec): Option<Store> {
    var s1 :- EnsureTargets(s, Targets(spec.accounts, ExternalSide));
    var s2 :- EnsureTargets(s1, Targets(spec.accounts, CloudSQLSide));
    EnsurePolicies(cfg, s2, Requests(cfg, spec, spec.accounts))
  }

  ghost function CleanAll(s: Store, spec: Spec, specs: set<Spec>): Store {
    CleanHosts(WithoutDropped(s, spec), specs)
  }

  /** The egress part of one successful reconcile of a specification. */
  ghost function EgressPass(cfg: Config, s: Store, spec: Spec, specs: set<Spec>): Option<Store> {
    var s' :- EnsureAll(cfg, s, spec);
    Some(CleanAll(s', spec, specs))
  }
}
