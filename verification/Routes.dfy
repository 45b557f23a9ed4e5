/** Traffic finds its way: the objects that different builders made refer to each other. */
module Routes {
  import opened Wrappers
  import opened Resources
  import opened Protocol
  import opened Convergence
  import opened Separation
  import opened Confluence

  /** Where a VirtualService sends what reaches it at a gateway and port: the first match. */
  function Follow(routes: seq<Route>, gateway: string, port: nat): Option<Destination> {
    if routes == [] then None
    else if routes[0].gateway == gateway && routes[0].port == port then Some(routes[0].destination)
    else Follow(routes[1..], gateway, port)
  }

  ghost predicate Claims(s: Store, k: Key, h: string) {
    k in s && s[k].VirtualService? && h in s[k].hosts
  }

  /** A DestinationRule that defines the subset for the destination host. */
  ghost predicate Defines(s: Store, k: Key, host: string, subset: string) {
    k in s && s[k].DestinationRule? && s[k].target == host
    && exists i :: 0 <= i < |s[k].subsets| && s[k].subsets[i].name == subset
  }

  /** Its subset speaks mutual TLS to the port, under the server name. */
  ghost predicate Speaks(s: Store, k: Key, subset: string, policy: PortPolicy)
    requires k in s && s[k].DestinationRule?
  {
    forall i :: 0 <= i < |s[k].subsets| && s[k].subsets[i].name == subset ==> s[k].subsets[i].policy == policy
  }

  /** A DestinationRule that says how the gateway speaks to the destination host. */
  ghost predicate Leaves(s: Store, k: Key, host: string, policy: PortPolicy) {
    k in s && s[k].DestinationRule? && s[k].target == host && s[k].policy == Some(policy)
  }

  /** A ServiceEntry that declares the host with the port and protocol, and where it is. */
  ghost predicate Declares(s: Store, k: Key, host: string, port: nat, protocol: string, at: Location) {
    k in s && s[k].ServiceEntry? && host in s[k].hosts && s[k].addresses == s[k].endpoints
    && (exists i :: 0 <= i < |s[k].ports| && s[k].ports[i].number == port && s[k].ports[i].protocol == protocol)
    && match at
       case ByName => s[k].resolution == Dns && s[k].endpoints == []
       case At(ip) => s[k].resolution == Static && s[k].endpoints == [ip]
  }

  /** An external host is looked up by its name, a CloudSQL instance is at its address. */
  datatype Location = ByName | At(ip: string)

  function LocationOf(t: Target): Location {
    match t
    case ExternalHost(_) => ByName
    case CloudSQL(ip) => At(ip)
  }

  function EntryPort(t: Target): nat { if t.ExternalHost? then 80 else 3307 }

  function ExitPort(t: Target): nat { if t.ExternalHost? then 443 else 3307 }

  function EntryProtocol(t: Target): string { if t.ExternalHost? then "HTTP" else "TCP" }

  function ExitProtocol(t: Target): string { if t.ExternalHost? then "HTTPS" else "TCP" }

  /** From the mesh to the gateway: mutual TLS, with what was allowlisted as server name. */
  function EntryPolicy(t: Target): PortPolicy {
    match t
    case ExternalHost(url) => PortPolicy(80, IstioMutual, url)
    case CloudSQL(ip) => PortPolicy(3307, IstioMutual, ip)
  }

  /** From the gateway on: TLS to an external host, plain to an instance, whose clients
      encrypt themselves. */
  function ExitPolicy(t: Target): PortPolicy {
    match t
    case ExternalHost(url) => PortPolicy(443, Simple, url)
    case CloudSQL(ip) => PortPolicy(3307, Disable, "")
  }

  ghost predicate FirstHop(s: Store, vs: Object, t: Target) {
    vs.VirtualService? && MESH in vs.gateways && match Follow(vs.routes, MESH, EntryPort(t))
    case None => false
    case Some(d) =>
      && d.host == GatewayHost(SideOf(t)) && d.port == EntryPort(t) && d.subset.Some?
      && (exists k :: Declares(s, k, Label(t), EntryPort(t), EntryProtocol(t), LocationOf(t)))
      && (exists k :: Defines(s, k, d.host, d.subset.value))
      && (forall k :: Defines(s, k, d.host, d.subset.value) ==> Speaks(s, k, d.subset.value, EntryPolicy(t)))
      && (forall k, j :: Defines(s, k, d.host, d.subset.value) && Defines(s, j, d.host, d.subset.value) ==> k == j)
  }

  ghost predicate SecondHop(s: Store, vs: Object, t: Target) {
    var h, exit := Label(t), ExitPort(t);
    vs.VirtualService? && GatewayName(SideOf(t)) in vs.gateways && h in Hosts(s, SideOf(t))
    && match Follow(vs.routes, GatewayName(SideOf(t)), EntryPort(t))
       case None => false
       case Some(d) =>
         && d.host == h && d.port == exit && d.subset == None
         && (exists k :: Leaves(s, k, h, ExitPolicy(t)))
         && (exists k :: Declares(s, k, h, exit, ExitProtocol(t), LocationOf(t)))
  }

  /** Exactly one VirtualService claims the host, for the right kind of traffic. In the mesh a
      ServiceEntry makes the host known on the port the clients use; from there the way leads to a subset of the egress gateway that exactly one rule defines; the
      gateway lists the host, and from there the way leads to a host and port that a
      ServiceEntry declares, where it is, and that a rule says how to speak to. */
  ghost predicate Resolves(s: Store, t: Target) {
    && (exists k :: Claims(s, k, Label(t)))
    && forall k :: Claims(s, k, Label(t)) ==>
         && k == NewVirtualService(t).Id() && s[k].transport == (if t.ExternalHost? then Http else Tcp)
         && FirstHop(s, s[k], t) && SecondHop(s, s[k], t)
  }

  lemma ClaimsExactly(cfg: Config, scope: Scope, s: Store, t: Target, k: Key)
    requires Within(cfg, scope, s) && Separated(cfg, scope) && t in scope.targets && Claims(s, k, Label(t))
    ensures s[k] == NewVirtualService(t) && k == NewVirtualService(t).Id()
  {
    var u :| u in scope.targets && s[k] in ChildrenOf(u);
    ClaimLabel(u, s[k]);
    assert Label(t) in [Label(u)];
    assert u == t;
  }

  lemma ClaimLabel(t: Target, o: Object)
    requires o in ChildrenOf(t) && o.VirtualService?
    ensures o == NewVirtualService(t) && o.hosts == [Label(t)]
  {
  }

  lemma DefinesExactly(cfg: Config, scope: Scope, s: Store, t: Target, k: Key)
    requires Within(cfg, scope, s) && Separated(cfg, scope) && t in scope.targets
    requires Defines(s, k, GatewayHost(SideOf(t)), NameOf(t))
    ensures k == NewRule(t, ToGateway).Id()
  {
    var u :| u in scope.targets && s[k] in ChildrenOf(u);
    RuleOf(u, s[k]);
    RuleSubset(u, s[k].direction, NameOf(t));
  }

  lemma RuleSubset(t: Target, d: Direction, name: string)
    ensures (exists i :: 0 <= i < |NewRule(t, d).subsets| && NewRule(t, d).subsets[i].name == name) <==>
      d == ToGateway && NameOf(t) == name
  {
    if d == ToGateway { assert NewRule(t, d).subsets[0].name == NameOf(t); }
  }

  lemma RuleSpeaks(t: Target)
    ensures var o := NewRule(t, ToGateway);
      o.DestinationRule? && forall i :: 0 <= i < |o.subsets| ==> o.subsets[i].policy == EntryPolicy(t)
    ensures var o := NewRule(t, FromGateway); o.DestinationRule? && o.target == Label(t) && o.policy == Some(ExitPolicy(t))
  {
  }

  lemma FirstHopResolves(cfg: Config, scope: Scope, s: Store, t: Target)
    requires Within(cfg, scope, s) && Separated(cfg, scope) && t in scope.targets && Holds(s, NewRule(t, ToGateway))
    requires Holds(s, NewServiceEntry(t))
    ensures FirstHop(s, NewVirtualService(t), t)
  {
    var vs, k := NewVirtualService(t), NewRule(t, ToGateway).Id();
    assert Follow(vs.routes, MESH, EntryPort(t)) == Some(vs.routes[0].destination);
    assert vs.gateways[0] == MESH;
    var se := NewServiceEntry(t);
    assert se.ports[0].number == EntryPort(t) && se.ports[0].protocol == EntryProtocol(t);
    assert Declares(s, se.Id(), Label(t), EntryPort(t), EntryProtocol(t), LocationOf(t));
    RuleSubset(t, ToGateway, NameOf(t));
    RuleSpeaks(t);
    assert Defines(s, k, GatewayHost(SideOf(t)), NameOf(t));
    forall j | Defines(s, j, GatewayHost(SideOf(t)), NameOf(t)) ensures j == k {
      DefinesExactly(cfg, scope, s, t, j);
    }
  }

  lemma SecondHopResolves(s: Store, t: Target)
    requires Holds(s, NewServiceEntry(t)) && Holds(s, NewRule(t, FromGateway)) && GatewayServes(s, SideOf(t), Label(t))
    ensures SecondHop(s, NewVirtualService(t), t)
  {
    var vs, se := NewVirtualService(t), NewServiceEntry(t);
    assert MESH != GatewayName(SideOf(t)) by { assert |MESH| != |GatewayName(SideOf(t))|; }
    assert vs.routes[1..][0] == vs.routes[1] && vs.gateways[1] == GatewayName(SideOf(t));
    assert Follow(vs.routes, GatewayName(SideOf(t)), EntryPort(t)) == Some(vs.routes[1].destination);
    assert se.ports[|se.ports| - 1].number == ExitPort(t) && se.ports[|se.ports| - 1].protocol == ExitProtocol(t);
    assert Declares(s, se.Id(), Label(t), ExitPort(t), ExitProtocol(t), LocationOf(t));
    RuleSpeaks(t);
    assert Leaves(s, NewRule(t, FromGateway).Id(), Label(t), ExitPolicy(t));
  }

  /** Wherever a target is served under separated names, its traffic resolves end to end. */
  lemma ServedResolves(cfg: Config, scope: Scope, s: Store, t: Target)
    requires Within(cfg, scope, s) && Separated(cfg, scope) && t in scope.targets && Served(s, t)
    ensures Resolves(s, t)
  {
    ServedExactly(cfg, scope, s, t);
    FirstHopResolves(cfg, scope, s, t);
    SecondHopResolves(s, t);
    var k := NewVirtualService(t).Id();
    assert Holds(s, NewVirtualService(t));
    assert Label(t) in NewVirtualService(t).hosts;
    assert Claims(s, k, Label(t));
    forall j | Claims(s, j, Label(t)) ensures j == k && s[j] == NewVirtualService(t) {
      ClaimsExactly(cfg, scope, s, t, j);
    }
  }

  /** After successful reconciles in any order the traffic of every host and instance that
      a reconciled resource lists resolves. */
  lemma RoutesResolve(cfg: Config, scope: Scope, s: Store, order: seq<Spec>, specs: set<Spec>, s': Store, spec: Spec, t: Target)
    requires Within(cfg, scope, s) && Separated(cfg, scope) && SpecsWithin(cfg, scope, specs)
    requires (forall other :: other in order ==> other in specs) && Passes(cfg, s, order, specs) == Some(s')
    requires spec in order && t in WantedTargets(spec)
    ensures Resolves(s', t)
  {
    PassesServe(cfg, scope, s, order, specs, s');
    assert t in Demand(specs);
    ServedResolves(cfg, scope, s', t);
  }
}
