/** The protocol the operator follows, one API call at a time: which calls it may make in
    which world, what a call does, and what every run of permitted calls keeps. */
module Protocol {
  import opened Wrappers
  import opened HostList
  import opened Resources

  datatype World = World(crs: map<string, Resource>, objects: Store, history: seq<Row>)

  // ---- API calls -------------------------------------------------------------------

  datatype Call = Create(item: Object) | Update(item: Object) | Delete(key: Key)

  /** None is AlreadyExists for a creation and NotFound otherwise. */
  function Apply(s: Store, call: Call): Option<Store> {
    match call
    case Create(o) => if o.Id() in s then None else Some(s[o.Id() := o])
    case Update(o) => if o.Id() in s then Some(s[o.Id() := o]) else None
    case Delete(k) => if k in s then Some(s - {k}) else None
  }

  // ---- The two parts of a store ----------------------------------------------------

  predicate AccountKind(kind: Kind) {
    kind == ServiceAccounts || kind == IamAccounts || kind == IamMembers
  }

  ghost predicate SameEgress(s: Store, s': Store) {
    forall k: Key :: !AccountKind(k.kind) ==> (k in s <==> k in s') && (k in s ==> s[k] == s'[k])
  }

  ghost predicate SameAccounts(s: Store, s': Store) {
    forall k: Key :: AccountKind(k.kind) ==> (k in s <==> k in s') && (k in s ==> s[k] == s'[k])
  }

  // ---- Service accounts ------------------------------------------------------------

  /** The service account stands, labelled so that the cleanup will find it. */
  ghost predicate Labelled(s: Store, spec: Spec, name: string) {
    var k := AccountKey(spec, name);
    k in s && s[k].ServiceAccount? && OwnedBy(s[k].meta, spec.project, spec.domain)
  }

  /** A service account labelled with the team whose name the specification lacks. */
  ghost predicate Leaver(o: Object, spec: Spec) {
    o.ServiceAccount? && OwnedBy(o.meta, spec.project, spec.domain) && !Named(spec.accounts, o.name)
  }

  ghost predicate NoLeavers(s: Store, spec: Spec) {
    forall k :: k in s ==> !Leaver(s[k], spec)
  }

  /** The service account part is done: every account stands labelled and with all its policy
      members, and no dropped one is left. */
  ghost predicate AccountsReady(s: Store, spec: Spec) {
    && (forall name :: Named(spec.accounts, name) ==> AccountReady(s, spec, name))
    && (forall k: Key :: k.kind == ServiceAccounts && k in s ==> !Leaver(s[k], spec))
  }

  ghost predicate AccountReady(s: Store, spec: Spec, name: string) {
    Labelled(s, spec, name) && forall role: Role :: MemberKey(spec, name, role) in s
  }

  // ---- Demand ----------------------------------------------------------------------

  ghost function Specs(crs: map<string, Resource>): set<Spec> {
    set n | n in crs :: crs[n].spec
  }

  /** The specifications of the resources that are not being deleted. */
  ghost function LiveSpecs(crs: map<string, Resource>): set<Spec> {
    set n | n in crs && !crs[n].deleting :: crs[n].spec
  }

  ghost function WantedTargets(spec: Spec): set<Target> {
    (set t | t in Targets(spec.accounts, ExternalSide)) + (set t | t in Targets(spec.accounts, CloudSQLSide))
  }

  ghost function Demand(specs: set<Spec>): set<Target> {
    set spec, t | spec in specs && t in WantedTargets(spec) :: t
  }

  /** The gateway entries the allowlists ask for; the CloudSQL gateway always keeps "*". */
  ghost function InUse(specs: set<Spec>, side: Side): set<string> {
    (set t | t in Demand(specs) && SideOf(t) == side :: Label(t))
    + (if side.CloudSQLSide? then {"*"} else {})
  }

  ghost predicate Requested(cfg: Config, spec: Spec, r: Request) {
    r in Requests(cfg, spec, spec.accounts)
  }

  // ---- Gateways --------------------------------------------------------------------

  function ServerProtocol(side: Side): string {
    if side.ExternalSide? then "HTTPS" else "TLS"
  }

  ghost predicate ShapedGateway(o: Object, side: Side) {
    && o.Gateway? && |o.servers| == 1 && o.servers[0].protocol == ServerProtocol(side)
    && (side.ExternalSide? ==> o.servers[0].port == 80 && o.servers[0].hosts != [])
  }

  ghost predicate Shaped(s: Store) {
    forall side :: GatewayKey(side) in s ==> ShapedGateway(s[GatewayKey(side)], side)
  }

  function Entries(o: Object): seq<string> {
    if o.Gateway? && |o.servers| > 0 then o.servers[0].hosts else []
  }

  function Hosts(s: Store, side: Side): set<string> {
    if GatewayKey(side) in s then Elems(Entries(s[GatewayKey(side)])) else {}
  }

  function WithHosts(o: Object, hosts: seq<string>): Object
    requires o.Gateway? && |o.servers| > 0
  {
    Gateway(o.name, o.servers[0 := o.servers[0].(hosts := hosts)])
  }

  ghost predicate Listed(s: Store, h: string) {
    h in Hosts(s, ExternalSide) || (h in Hosts(s, CloudSQLSide) && h != "*")
  }

  /** No object carries one of these host labels. */
  ghost predicate Unlabelled(s: Store, hosts: set<string>) {
    forall k :: k in s && s[k].HostLabel().Some? ==> s[k].HostLabel().value !in hosts
  }

  // ---- Permission ------------------------------------------------------------------

  /** What the operator knows: the world, and the specifications as it last read them, all
      and those of resources that were not being deleted then. */
  datatype Monitor = Monitor(world: World, view: set<Spec>, live: set<Spec>)

  /** What it knows right after reading the resources. */
  ghost function Fresh(w: World): Monitor {
    Monitor(w, Specs(w.crs), LiveSpecs(w.crs))
  }

  ghost predicate Covers(row: Row, l: Labels) {
    && row.team == l.project && row.environment == l.domain && row.account == l.account
    && match l.hostType
       case External => l.host in row.external || exists ip :: ip in row.cloudSQL && SqlHost(ip) == l.host
       case Internal => l.parent in row.internal
  }

  ghost predicate Recorded(history: seq<Row>, l: Labels) {
    exists row :: row in history && Covers(row, l)
  }

  ghost predicate Held(crs: map<string, Resource>, name: string, spec: Spec) {
    name in crs && FINALIZER in crs[name].finalizers && SameOwner(crs[name].spec, spec)
  }

  /** A target may be served for a resource whose service accounts are ready. */
  ghost predicate MayServe(m: Monitor, spec: Spec, t: Target) {
    spec in m.view && t in WantedTargets(spec) && AccountsReady(m.world.objects, spec)
  }

  /** A child may be created once its host is listed. */
  ghost predicate MayCreateChild(m: Monitor, spec: Spec, t: Target, o: Object) {
    MayServe(m, spec, t) && o in ChildrenOf(t) && Label(t) in Hosts(m.world.objects, SideOf(t))
  }

  /** A policy may be created for a resource that was not being deleted when it was read,
      once its grant is in the history, the resource holds the finalizer, its service accounts
      are ready and, for an egress host, the host is listed. */
  ghost predicate MayCreatePolicy(cfg: Config, m: Monitor, name: string, spec: Spec, r: Request, o: Object) {
    && spec in m.view && spec in m.live && Requested(cfg, spec, r) && NewPolicy(cfg, r) == Some(o)
    && Recorded(m.world.history, r.labels)
    && Held(m.world.crs, name, spec) && AccountsReady(m.world.objects, spec)
    && (r.labels.hostType == External ==> Listed(m.world.objects, r.labels.host))
  }

  ghost predicate MayCreateMember(cfg: Config, m: Monitor, spec: Spec, name: string, role: Role, o: Object) {
    && spec in m.view && Named(spec.accounts, name) && o == NewMember(cfg, spec, name, role)
    && Labelled(m.world.objects, spec, name)
  }

  /** A service account is written once its IAM account stands. */
  ghost predicate MayWriteAccount(cfg: Config, m: Monitor, spec: Spec, name: string, meta: Metadata, o: Object) {
    && spec in m.view && Named(spec.accounts, name)
    && (|| (o == NewServiceAccount(cfg, spec, name, meta) && IamKey(cfg, spec, name) in m.world.objects)
        || o == NewIamAccount(cfg, spec, name, meta))
  }

  ghost predicate MayCreate(cfg: Config, m: Monitor, o: Object) {
    match o
    case Gateway(_, _) => exists spec, t :: MayServe(m, spec, t) && t.ExternalHost? && o == NewGateway(t.url)
    case AuthorizationPolicy(_, _, _, _) => exists name, spec, r :: MayCreatePolicy(cfg, m, name, spec, r, o)
    case IamPolicyMember(_, _, _, _, _, _, _) => exists spec, name, role :: MayCreateMember(cfg, m, spec, name, role, o)
    case ServiceAccount(_, _, _) => exists spec, name :: MayWriteAccount(cfg, m, spec, name, NO_METADATA, o)
    case IamServiceAccount(_, _, _) => exists spec, name :: MayWriteAccount(cfg, m, spec, name, NO_METADATA, o)
    case _ => exists spec, t :: MayCreateChild(m, spec, t, o)
  }

  ghost predicate GatewayGrows(m: Monitor, spec: Spec, t: Target, was: Object, now: Object) {
    && was.Gateway? && |was.servers| > 0
    && MayServe(m, spec, t)
    && now == WithHosts(was, Canon(Elems(Entries(was)) + {Label(t)}))
  }

  /** The gateway is the index of the egress objects: entries leave it last. */
  ghost predicate GatewayShrinks(m: Monitor, side: Side, was: Object, now: Object) {
    && was.Gateway? && |was.servers| > 0
    && now == WithHosts(was, Canon(InUse(m.view, side)))
    && InUse(m.view, side) != {}
    && Unlabelled(m.world.objects, Hosts(m.world.objects, side) - InUse(m.view, side))
  }

  ghost predicate MayUpdate(cfg: Config, m: Monitor, was: Object, now: Object) {
    match now
    case Gateway(_, _) =>
      exists side :: was.Id() == GatewayKey(side)
        && (GatewayShrinks(m, side, was, now) || exists spec, t :: SideOf(t) == side && GatewayGrows(m, spec, t, was, now))
    case ServiceAccount(_, _, _) =>
      was.ServiceAccount? && exists spec, name :: MayWriteAccount(cfg, m, spec, name, was.meta, now)
    case IamServiceAccount(_, _, _) =>
      was.IamServiceAccount? && exists spec, name :: MayWriteAccount(cfg, m, spec, name, was.meta, now)
    case _ => false
  }

  /** The host is an entry of a gateway that no allowlist asks for. */
  ghost predicate StaleHost(m: Monitor, side: Side, h: string) {
    h in Hosts(m.world.objects, side) && h !in InUse(m.view, side)
  }

  /** The account is not in the specification of its team. */
  ghost predicate Dropped(spec: Spec, l: Labels) {
    l.project == spec.project && l.domain == spec.domain && !Named(spec.accounts, l.account)
  }

  ghost predicate RevokedBy(spec: Spec, account: Account, l: Labels) {
    && account in spec.accounts
    && l.project == spec.project && l.domain == spec.domain && l.account == account.name
    && l.hostType == Internal && l.parent !in HostsOf(account.internal)
  }

  /** An internal policy whose parent host is not in the allowlist of its account. */
  ghost predicate Revoked(spec: Spec, l: Labels) {
    exists account :: RevokedBy(spec, account, l)
  }

  ghost predicate Terminating(crs: map<string, Resource>, name: string, spec: Spec) {
    Held(crs, name, spec) && crs[name].deleting
  }

  ghost predicate TerminatedWith(crs: map<string, Resource>, spec: Spec, l: Labels) {
    && l.project == spec.project && l.domain == spec.domain && Named(spec.accounts, l.account)
    && exists name :: Terminating(crs, name, spec)
  }

  ghost predicate MayDeletePolicy(m: Monitor, spec: Spec, l: Labels) {
    && spec in m.view
    && (Dropped(spec, l) || Revoked(spec, l) || (spec !in m.live && TerminatedWith(m.world.crs, spec, l)))
  }

  ghost predicate MayDeleteEgress(m: Monitor, o: Object) {
    || (o.HostLabel().Some? && exists side :: StaleHost(m, side, o.HostLabel().value))
    || (o.AuthorizationPolicy? && exists spec :: MayDeletePolicy(m, spec, o.labels))
  }

  /** The labelled service account of a dropped account still stands. */
  ghost predicate Leaving(m: Monitor, spec: Spec, name: string) {
    spec in m.view && !Named(spec.accounts, name) && Labelled(m.world.objects, spec, name)
  }

  ghost predicate MembersGone(cfg: Config, s: Store, spec: Spec, name: string) {
    && IamKey(cfg, spec, name) !in s
    && forall role :: role != DataViewer ==> MemberKey(spec, name, role) !in s
  }

  /** The service account is the index of its IAM objects: it goes last. */
  ghost predicate MayDeleteAccount(cfg: Config, m: Monitor, spec: Spec, name: string, k: Key) {
    && Leaving(m, spec, name)
    && (|| k == IamKey(cfg, spec, name)
        || (exists role :: role != DataViewer && k == MemberKey(spec, name, role))
        || (k == AccountKey(spec, name) && MembersGone(cfg, m.world.objects, spec, name)))
  }

  ghost predicate MayDelete(cfg: Config, m: Monitor, k: Key, o: Object) {
    match o
    case Gateway(_, _) =>
      && k == GatewayKey(ExternalSide) && InUse(m.view, ExternalSide) == {}
      && Unlabelled(m.world.objects, Hosts(m.world.objects, ExternalSide))
    case ServiceAccount(_, _, _) => exists spec, name :: MayDeleteAccount(cfg, m, spec, name, k)
    case IamServiceAccount(_, _, _) => exists spec, name :: MayDeleteAccount(cfg, m, spec, name, k)
    case IamPolicyMember(_, _, _, _, _, _, _) => exists spec, name :: MayDeleteAccount(cfg, m, spec, name, k)
    case _ => MayDeleteEgress(m, o)
  }

  /** A call that the API server rejects needs no permission. */
  ghost predicate Permitted(cfg: Config, m: Monitor, call: Call) {
    var s := m.world.objects;
    match call
    case Create(o) => o.Id() in s || MayCreate(cfg, m, o)
    case Update(o) => o.Id() in s ==> MayUpdate(cfg, m, s[o.Id()], o)
    case Delete(k) => k in s ==> MayDelete(cfg, m, k, s[k])
  }

  // ---- Custom resources ------------------------------------------------------------

  /** The admission policy: at most one resource per project and domain. */
  predicate UniqueOwners(crs: map<string, Resource>) {
    forall a, b :: a in crs && b in crs && SameOwner(crs[a].spec, crs[b].spec) ==> a == b
  }

  /** What users may do to the resources at any moment. A resource that holds the
      operator's finalizer stays, at most marked for deletion, and keeps its owner. */
  predicate Edited(crs: map<string, Resource>, crs': map<string, Resource>) {
    && (UniqueOwners(crs) ==> UniqueOwners(crs'))
    && forall n :: n in crs && FINALIZER in crs[n].finalizers ==>
         && n in crs' && FINALIZER in crs'[n].finalizers
         && SameOwner(crs'[n].spec, crs[n].spec)
         && (crs[n].deleting ==> crs'[n].deleting)
  }

  /** Held resources stay held, and stay marked for deletion. */
  ghost predicate Steady(crs: map<string, Resource>, crs': map<string, Resource>) {
    forall name, spec :: Held(crs, name, spec) ==> Held(crs', name, spec) && (crs[name].deleting ==> crs'[name].deleting)
  }

  /** Storing new finalizers. The API server drops a deleted resource with its last one. */
  function StoreFinalizers(crs: map<string, Resource>, name: string, finalizers: set<string>): map<string, Resource>
    requires name in crs
  {
    if crs[name].deleting && finalizers == {} then crs - {name}
    else crs[name := crs[name].(finalizers := finalizers)]
  }

  ghost predicate NoPolicyOf(s: Store, spec: Spec) {
    forall k :: k in s && s[k].AuthorizationPolicy?
      && s[k].labels.project == spec.project && s[k].labels.domain == spec.domain
      ==> !Named(spec.accounts, s[k].labels.account)
  }

  ghost predicate MayStoreFinalizers(w: World, name: string, finalizers: set<string>) {
    && name in w.crs
    && (|| (!w.crs[name].deleting && finalizers == w.crs[name].finalizers + {FINALIZER})
        || (w.crs[name].deleting && finalizers == w.crs[name].finalizers - {FINALIZER}
            && NoPolicyOf(w.objects, w.crs[name].spec)))
  }

  // ---- Runs ------------------------------------------------------------------------

  datatype Event =
    | Look                                             // the operator reads the resources
    | Edit(crs: map<string, Resource>)                 // users change the resources
    | Do(call: Call)
    | Insert(row: Row)
    | Finalize(name: string, finalizers: set<string>)

  ghost function Next(cfg: Config, m: Monitor, e: Event): Option<Monitor> {
    var w := m.world;
    match e
    case Look => Some(Fresh(w))
    case Edit(crs) => if Edited(w.crs, crs) then Some(m.(world := w.(crs := crs))) else None
    case Do(call) =>
      if Permitted(cfg, m, call) && Apply(w.objects, call).Some?
      then Some(m.(world := w.(objects := Apply(w.objects, call).value))) else None
    case Insert(row) => Some(m.(world := w.(history := w.history + [row])))
    case Finalize(name, finalizers) =>
      if MayStoreFinalizers(w, name, finalizers)
      then Some(m.(world := w.(crs := StoreFinalizers(w.crs, name, finalizers)))) else None
  }

  ghost function Replay(cfg: Config, m: Monitor, run: seq<Event>): Option<Monitor> {
    if run == [] then Some(m)
    else match Replay(cfg, m, run[..|run| - 1])
      case None => None
      case Some(n) => Next(cfg, n, run[|run| - 1])
  }
}
