/** The custom resource, the Kubernetes objects derived from it, and their builders. */
module Resources {
  import opened Wrappers
  import opened Text

  // ---- The custom resource ---------------------------------------------------------

  datatype Host = Host(host: string, paths: seq<string>)

  /** `cloudSQL` lists the IP addresses of the instances. */
  datatype Account = Account(name: string, external: seq<Host>, internal: seq<Host>, cloudSQL: seq<string>)

  datatype Spec = Spec(project: string, domain: string, accounts: seq<Account>)

  const FINALIZER := "data.nav.no/finalizer"

  datatype Resource = Resource(spec: Spec, annotations: map<string, string>, created: int,
                               finalizers: set<string>, deleting: bool)

  predicate SameOwner(a: Spec, b: Spec) {
    a.project == b.project && a.domain == b.domain
  }

  predicate Named(accounts: seq<Account>, name: string) {
    exists i :: 0 <= i < |accounts| && accounts[i].name == name
  }

  // ---- Configuration ---------------------------------------------------------------

  datatype OnpremHost = OnpremHost(vip: seq<string>, protocol: string)

  /** The first five hex digits of a SHA-256 sum; which digits is left to the configuration. */
  type Digest = s: string | |s| == 5 witness "00000"

  datatype Config = Config(onprem: map<string, OnpremHost>, digest: string -> Digest,
                           gcpProject: string, dataBucket: string, registrationBucket: string)

  const EGRESS_NAMESPACE := "istio-egress"
  const EXTERNAL_GATEWAY := "istio-egressgateway-external"
  const EXTERNAL_GATEWAY_HOST := "istio-egressgateway-external.istio-egress.svc.cluster.local"
  const CLOUDSQL_GATEWAY := "istio-egressgateway-cloudsql"
  const CLOUDSQL_GATEWAY_HOST := "istio-egressgateway-cloudsql.istio-egress.svc.cluster.local"
  const MESH := "mesh"

  function Truncated(cfg: Config, name: string, limit: nat): string {
    name[..if limit < |name| then limit else |name|] + "-" + cfg.digest(name)
  }

  // ---- Objects ---------------------------------------------------------------------

  datatype Kind =
    | VirtualServices | DestinationRules | ServiceEntries | Policies | Gateways
    | ServiceAccounts | IamAccounts | IamMembers

  datatype Key = Key(kind: Kind, namespace: string, name: string)

  datatype Transport = Http | Tcp
  datatype Destination = Destination(host: string, port: nat, subset: Option<string>)
  datatype Route = Route(gateway: string, port: nat, destination: Destination)
  datatype TlsMode = IstioMutual | Simple | Disable
  datatype PortPolicy = PortPolicy(port: nat, mode: TlsMode, sni: string)
  datatype Subset = Subset(name: string, policy: PortPolicy)
  datatype Direction = ToGateway | FromGateway
  datatype ServicePort = ServicePort(number: nat, name: string, protocol: string)
  datatype Resolution = Dns | Static
  datatype Server = Server(port: nat, protocol: string, hosts: seq<string>)
  datatype HostType = External | Internal
  datatype Labels = Labels(project: string, domain: string, account: string,
                           host: string, hostType: HostType, parent: string)
  datatype Grant = OnHosts(hosts: seq<string>, paths: seq<string>) | OnSni(values: seq<string>)
  datatype Metadata = Metadata(labels: map<string, string>, annotations: map<string, string>)

  datatype Object =
    | VirtualService(name: string, host: string, hosts: seq<string>, gateways: seq<string>,
                     transport: Transport, routes: seq<Route>)
    | DestinationRule(name: string, host: string, direction: Direction, target: string,
                      subsets: seq<Subset>, policy: Option<PortPolicy>)
    | ServiceEntry(name: string, host: string, hosts: seq<string>, addresses: seq<string>,
                   endpoints: seq<string>, ports: seq<ServicePort>, resolution: Resolution)
    | AuthorizationPolicy(name: string, labels: Labels, principal: string, grant: Grant)
    | Gateway(name: string, servers: seq<Server>)
    | ServiceAccount(namespace: string, name: string, meta: Metadata)
    | IamServiceAccount(namespace: string, name: string, meta: Metadata)
    | IamPolicyMember(namespace: string, name: string, meta: Metadata,
                      role: string, kind: string, resource: string, member: string)
  {
    function Id(): Key {
      match this
      case VirtualService(name, _, _, _, _, _) => Key(VirtualServices, EGRESS_NAMESPACE, name)
      case DestinationRule(name, _, _, _, _, _) => Key(DestinationRules, EGRESS_NAMESPACE, name)
      case ServiceEntry(name, _, _, _, _, _, _) => Key(ServiceEntries, EGRESS_NAMESPACE, name)
      case AuthorizationPolicy(name, _, _, _) => Key(Policies, EGRESS_NAMESPACE, name)
      case Gateway(name, _) => Key(Gateways, EGRESS_NAMESPACE, name)
      case ServiceAccount(namespace, name, _) => Key(ServiceAccounts, namespace, name)
      case IamServiceAccount(namespace, name, _) => Key(IamAccounts, namespace, name)
      case IamPolicyMember(namespace, name, _, _, _, _, _) => Key(IamMembers, namespace, name)
    }

    /** A VirtualService, DestinationRule or ServiceEntry: what one egress host owns. */
    predicate Child() {
      VirtualService? || DestinationRule? || ServiceEntry?
    }

    /** The value of the `host` label, for the kinds that carry one. */
    function HostLabel(): Option<string> {
      match this
      case VirtualService(_, host, _, _, _, _) => Some(host)
      case DestinationRule(_, host, _, _, _, _) => Some(host)
      case ServiceEntry(_, host, _, _, _, _, _) => Some(host)
      case AuthorizationPolicy(_, labels, _, _) => Some(labels.host)
      case _ => None
    }
  }

  type Store = map<Key, Object>

  // ---- Egress targets --------------------------------------------------------------

  /** An allowlisted egress destination. External hosts and CloudSQL instances get the
      same set of objects, built with different names and ports. */
  datatype Target = ExternalHost(url: string) | CloudSQL(ip: string)

  datatype Side = ExternalSide | CloudSQLSide

  function SideOf(t: Target): Side {
    if t.ExternalHost? then ExternalSide else CloudSQLSide
  }

  function SqlHost(ip: string): string { Dashed(ip) + ".cloudsql" }

  /** The `host` label of the target's objects and its entry in the gateway. */
  function Label(t: Target): string {
    match t
    case ExternalHost(url) => url
    case CloudSQL(ip) => SqlHost(ip)
  }

  function NameOf(t: Target): string {
    match t
    case ExternalHost(url) => Dashed(url)
    case CloudSQL(ip) => "cloudsql-" + Dashed(ip)
  }

  function GatewayName(side: Side): string {
    if side.ExternalSide? then EXTERNAL_GATEWAY else CLOUDSQL_GATEWAY
  }

  function GatewayHost(side: Side): string {
    if side.ExternalSide? then EXTERNAL_GATEWAY_HOST else CLOUDSQL_GATEWAY_HOST
  }

  function GatewayKey(side: Side): Key {
    Key(Gateways, EGRESS_NAMESPACE, GatewayName(side))
  }

  function NewGateway(host: string): Object {
    Gateway(EXTERNAL_GATEWAY, [Server(80, "HTTPS", [host])])
  }

  function NewVirtualService(t: Target): Object {
    match t
    case ExternalHost(url) =>
      VirtualService(NameOf(t), url, [url], [MESH, EXTERNAL_GATEWAY], Http,
                     [Route(MESH, 80, Destination(EXTERNAL_GATEWAY_HOST, 80, Some(NameOf(t)))),
                      Route(EXTERNAL_GATEWAY, 80, Destination(url, 443, None))])
    case CloudSQL(ip) =>
      VirtualService(NameOf(t), SqlHost(ip), [SqlHost(ip)], [MESH, CLOUDSQL_GATEWAY], Tcp,
                     [Route(MESH, 3307, Destination(CLOUDSQL_GATEWAY_HOST, 3307, Some(NameOf(t)))),
                      Route(CLOUDSQL_GATEWAY, 3307, Destination(SqlHost(ip), 3307, None))])
  }

  function RuleName(t: Target, d: Direction): string {
    NameOf(t) + if d.ToGateway? then "-to-gateway" else "-from-gateway"
  }

  function NewRule(t: Target, d: Direction): Object {
    match (t, d)
    case (ExternalHost(url), ToGateway) =>
      DestinationRule(RuleName(t, d), url, d, EXTERNAL_GATEWAY_HOST,
                      [Subset(NameOf(t), PortPolicy(80, IstioMutual, url))], None)
    case (ExternalHost(url), FromGateway) =>
      DestinationRule(RuleName(t, d), url, d, url, [], Some(PortPolicy(443, Simple, url)))
    case (CloudSQL(ip), ToGateway) =>
      DestinationRule(RuleName(t, d), SqlHost(ip), d, CLOUDSQL_GATEWAY_HOST,
                      [Subset(NameOf(t), PortPolicy(3307, IstioMutual, ip))], None)
    case (CloudSQL(ip), FromGateway) =>
      DestinationRule(RuleName(t, d), SqlHost(ip), d, SqlHost(ip), [], Some(PortPolicy(3307, Disable, "")))
  }

  function NewServiceEntry(t: Target): Object {
    match t
    case ExternalHost(url) =>
      ServiceEntry(NameOf(t), url, [url], [], [],
                   [ServicePort(80, "http", "HTTP"), ServicePort(443, "https", "HTTPS")], Dns)
    case CloudSQL(ip) =>
      ServiceEntry(NameOf(t), SqlHost(ip), [SqlHost(ip)], [ip], [ip],
                   [ServicePort(3307, "tcp-3307", "TCP")], Static)
  }

  /** The four objects a target owns beside its gateway entry. */
  function ChildrenOf(t: Target): set<Object> {
    {NewVirtualService(t), NewRule(t, ToGateway), NewRule(t, FromGateway), NewServiceEntry(t)}
  }

  // ---- What a specification asks for -----------------------------------------------

  function ExternalTargets(hosts: seq<Host>): seq<Target> {
    seq(|hosts|, i requires 0 <= i < |hosts| => ExternalHost(hosts[i].host))
  }

  function SqlTargets(ips: seq<string>): seq<Target> {
    seq(|ips|, i requires 0 <= i < |ips| => CloudSQL(ips[i]))
  }

  /** The targets of one side, in the order the ensure loops visit them. */
  function Targets(accounts: seq<Account>, side: Side): seq<Target> {
    if accounts == [] then []
    else TargetsOf(accounts[0], side) + Targets(accounts[1..], side)
  }

  function TargetsOf(account: Account, side: Side): seq<Target> {
    if side.ExternalSide? then ExternalTargets(account.external) else SqlTargets(account.cloudSQL)
  }

  /** One call of `ensureAuthorizationPolicyForHost`. */
  datatype Request = Request(labels: Labels, host: string, paths: seq<string>, protocol: string)

  function ExternalRequest(spec: Spec, name: string, host: Host): Request {
    Request(Labels(spec.project, spec.domain, name, host.host, External, host.host), host.host, host.paths, "HTTPS")
  }

  function SqlRequest(spec: Spec, name: string, ip: string): Request {
    Request(Labels(spec.project, spec.domain, name, SqlHost(ip), External, SqlHost(ip)), ip, [], "TCP")
  }

  function InternalRequest(spec: Spec, name: string, host: Host, protocol: string): Request {
    Request(Labels(spec.project, spec.domain, name, host.host, Internal, host.host), host.host, host.paths, protocol)
  }

  function VipRequest(spec: Spec, name: string, parent: string, vip: string, protocol: string): Request {
    Request(Labels(spec.project, spec.domain, name, vip, Internal, parent), vip, [], protocol)
  }

  function ExternalRequests(spec: Spec, name: string, hosts: seq<Host>): seq<Request> {
    seq(|hosts|, i requires 0 <= i < |hosts| => ExternalRequest(spec, name, hosts[i]))
  }

  function SqlRequests(spec: Spec, name: string, ips: seq<string>): seq<Request> {
    seq(|ips|, i requires 0 <= i < |ips| => SqlRequest(spec, name, ips[i]))
  }

  function VipRequests(spec: Spec, name: string, parent: string, onprem: OnpremHost): seq<Request> {
    seq(|onprem.vip|, i requires 0 <= i < |onprem.vip| => VipRequest(spec, name, parent, onprem.vip[i], onprem.protocol))
  }

  /** A host that is not in the on-prem map is silently skipped. */
  function InternalRequests(cfg: Config, spec: Spec, name: string, hosts: seq<Host>): seq<Request> {
    if hosts == [] then []
    else
      (if hosts[0].host in cfg.onprem then
         var onprem := cfg.onprem[hosts[0].host];
         [InternalRequest(spec, name, hosts[0], onprem.protocol)] + VipRequests(spec, name, hosts[0].host, onprem)
       else [])
      + InternalRequests(cfg, spec, name, hosts[1..])
  }

  function AccountRequests(cfg: Config, spec: Spec, account: Account): seq<Request> {
    ExternalRequests(spec, account.name, account.external)
    + (SqlRequests(spec, account.name, account.cloudSQL)
       + InternalRequests(cfg, spec, account.name, account.internal))
  }

  /** Every policy a specification asks for, in the order of `EnsureAuthorizationPolicies`. */
  function Requests(cfg: Config, spec: Spec, accounts: seq<Account>): seq<Request> {
    if accounts == [] then []
    else AccountRequests(cfg, spec, accounts[0]) + Requests(cfg, spec, accounts[1..])
  }

  function PolicyName(cfg: Config, l: Labels): string {
    Truncated(cfg, l.project + "-" + l.domain + "-" + l.account + "-" + Dashed(l.host), 57)
  }

  function PolicyKey(cfg: Config, l: Labels): Key {
    Key(Policies, EGRESS_NAMESPACE, PolicyName(cfg, l))
  }

  function Namespace(project: string, domain: string): string {
    project + "-" + domain
  }

  /** None is the "unsupported protocol" error. */
  function NewPolicy(cfg: Config, r: Request): Option<Object> {
    var principal := "cluster.local/ns/" + Namespace(r.labels.project, r.labels.domain) + "/sa/" + r.labels.account;
    if Upper(r.protocol) == "HTTPS" then
      Some(AuthorizationPolicy(PolicyName(cfg, r.labels), r.labels, principal, OnHosts([r.host], r.paths)))
    else if Upper(r.protocol) == "TCP" then
      Some(AuthorizationPolicy(PolicyName(cfg, r.labels), r.labels, principal, OnSni([r.host])))
    else None
  }

  // ---- Service accounts ------------------------------------------------------------

  const PROJECT_LABEL := "union.nav.no/project"
  const DOMAIN_LABEL := "union.nav.no/domain"
  const EMAIL_ANNOTATION := "iam.gke.io/gcp-service-account"
  const PROJECT_ANNOTATION := "cnrm.cloud.google.com/project-id"

  const NO_METADATA := Metadata(map[], map[])

  /** `setUnionMetadata`: other labels and annotations stay. */
  function UnionMetadata(meta: Metadata, spec: Spec, annotations: map<string, string>): Metadata {
    Metadata(meta.labels[PROJECT_LABEL := spec.project][DOMAIN_LABEL := spec.domain],
             meta.annotations + annotations)
  }

  predicate OwnedBy(meta: Metadata, project: string, domain: string) {
    && PROJECT_LABEL in meta.labels && meta.labels[PROJECT_LABEL] == project
    && DOMAIN_LABEL in meta.labels && meta.labels[DOMAIN_LABEL] == domain
  }

  function GoogleName(cfg: Config, spec: Spec, name: string): string {
    Truncated(cfg, name + "-" + spec.domain + "-" + spec.project, 22)
  }

  function GoogleEmail(cfg: Config, spec: Spec, name: string): string {
    GoogleName(cfg, spec, name) + "@" + cfg.gcpProject + ".iam.gserviceaccount.com"
  }

  function AccountKey(spec: Spec, name: string): Key {
    Key(ServiceAccounts, Namespace(spec.project, spec.domain), name)
  }

  function IamKey(cfg: Config, spec: Spec, name: string): Key {
    Key(IamAccounts, Namespace(spec.project, spec.domain), GoogleName(cfg, spec, name))
  }

  function NewServiceAccount(cfg: Config, spec: Spec, name: string, meta: Metadata): Object {
    ServiceAccount(Namespace(spec.project, spec.domain), name,
                   UnionMetadata(meta, spec, map[EMAIL_ANNOTATION := GoogleEmail(cfg, spec, name)]))
  }

  function NewIamAccount(cfg: Config, spec: Spec, name: string, meta: Metadata): Object {
    IamServiceAccount(Namespace(spec.project, spec.domain), GoogleName(cfg, spec, name),
                      UnionMetadata(meta, spec, map[PROJECT_ANNOTATION := cfg.gcpProject]))
  }

  datatype Role = WorkloadIdentity | DataAdmin | DataViewer | RegistrationViewer

  function Suffix(role: Role): string {
    match role
    case WorkloadIdentity => "-workload-identity-user"
    case DataAdmin => "-union-data-bucket-object-admin"
    case DataViewer => "-union-data-bucket-viewer"
    case RegistrationViewer => "-union-fast-registration-bucket-viewer"
  }

  /** In the order they are created. */
  const ROLES := [WorkloadIdentity, DataAdmin, DataViewer, RegistrationViewer]

  /** Only three of the four are deleted with their account; the data bucket viewer stays. */
  const CLEANED_ROLES := [WorkloadIdentity, DataAdmin, RegistrationViewer]

  lemma RolesExact(role: Role)
    ensures role in ROLES
    ensures role in CLEANED_ROLES <==> role != DataViewer
  {
    match role
    case WorkloadIdentity => assert ROLES[0] == role && CLEANED_ROLES[0] == role;
    case DataAdmin => assert ROLES[1] == role && CLEANED_ROLES[1] == role;
    case DataViewer => assert ROLES[2] == role;
    case RegistrationViewer => assert ROLES[3] == role && CLEANED_ROLES[2] == role;
  }

  function MemberKey(spec: Spec, name: string, role: Role): Key {
    Key(IamMembers, Namespace(spec.project, spec.domain), name + Suffix(role))
  }

  function NewMember(cfg: Config, spec: Spec, name: string, role: Role): Object {
    var namespace := Namespace(spec.project, spec.domain);
    var meta := UnionMetadata(Metadata(map[], map[PROJECT_ANNOTATION := cfg.gcpProject]), spec, map[]);
    var email := GoogleEmail(cfg, spec, name);
    match role
    case WorkloadIdentity =>
      IamPolicyMember(namespace, name + Suffix(role), meta, "roles/iam.workloadIdentityUser", "IAMServiceAccount",
                      "projects/" + cfg.gcpProject + "/serviceAccounts/" + email,
                      "serviceAccount:" + cfg.gcpProject + ".svc.id.goog[" + namespace + "/" + name + "]")
    case DataAdmin =>
      IamPolicyMember(namespace, name + Suffix(role), meta, "roles/storage.objectAdmin", "StorageBucket",
                      cfg.dataBucket, "serviceAccount:" + email)
    case DataViewer =>
      IamPolicyMember(namespace, name + Suffix(role), meta, "roles/storage.bucketViewer", "StorageBucket",
                      cfg.dataBucket, "serviceAccount:" + email)
    case RegistrationViewer =>
      IamPolicyMember(namespace, name + Suffix(role), meta, "roles/storage.objectViewer", "StorageBucket",
                      cfg.registrationBucket, "serviceAccount:" + email)
  }

  // ---- The allowlist history -------------------------------------------------------

  datatype Row = Row(team: string, environment: string, account: string,
                     internal: seq<string>, external: seq<string>, cloudSQL: seq<string>,
                     actor: string, repo: string, hash: string, created: int)

  function HostsOf(hosts: seq<Host>): seq<string> {
    seq(|hosts|, i requires 0 <= i < |hosts| => hosts[i].host)
  }

  function Annotation(cr: Resource, name: string): string {
    if name in cr.annotations then cr.annotations[name] else ""
  }

  function RowFor(cr: Resource, account: Account): Row {
    Row(cr.spec.project, cr.spec.domain, account.name,
        HostsOf(account.internal), HostsOf(account.external), account.cloudSQL,
        Annotation(cr, "data.nav.no/github.actor"), Annotation(cr, "data.nav.no/github.repository"),
        Annotation(cr, "data.nav.no/github.sha"), cr.created)
  }

  function RowsFor(cr: Resource, accounts: seq<Account>): seq<Row> {
    seq(|accounts|, i requires 0 <= i < |accounts| => RowFor(cr, accounts[i]))
  }

  // ---- Selecting objects -----------------------------------------------------------

  /** The label selectors the operator lists with. */
  datatype Selector =
    | ByHost(kind: Kind, host: string)
    | ByRule(host: string, direction: Direction)
    | ByGrant(labels: Labels)
    | ByAccount(project: string, domain: string, account: string)
    | ByInternal(project: string, domain: string, account: string)
    | ByTeam(project: string, domain: string)
    | ByOwner(project: string, domain: string)

  predicate Matches(sel: Selector, o: Object) {
    match sel
    case ByHost(kind, host) => o.Id().kind == kind && o.HostLabel() == Some(host)
    case ByRule(host, direction) => o.DestinationRule? && o.host == host && o.direction == direction
    case ByGrant(labels) => o.AuthorizationPolicy? && o.labels.(hostType := labels.hostType) == labels
    case ByAccount(project, domain, account) =>
      o.AuthorizationPolicy? && o.labels.project == project && o.labels.domain == domain && o.labels.account == account
    case ByInternal(project, domain, account) =>
      o.AuthorizationPolicy? && o.labels.project == project && o.labels.domain == domain
      && o.labels.account == account && o.labels.hostType == Internal
    case ByTeam(project, domain) =>
      o.AuthorizationPolicy? && o.labels.project == project && o.labels.domain == domain
    case ByOwner(project, domain) => o.ServiceAccount? && OwnedBy(o.meta, project, domain)
  }

  predicate Any(s: Store, sel: Selector) {
    exists k :: k in s && Matches(sel, s[k])
  }

  ghost predicate Distinct(items: seq<Object>) {
    forall i, j :: 0 <= i < j < |items| ==> items[i].Id() != items[j].Id()
  }

  /** The items are the stored objects that the selector matches, each once. */
  ghost predicate Lists(s: Store, sel: Selector, items: seq<Object>) {
    && (forall o :: o in items ==> o.Id() in s && s[o.Id()] == o && Matches(sel, o))
    && (forall k :: k in s && Matches(sel, s[k]) ==> s[k] in items)
    && Distinct(items)
  }
}
