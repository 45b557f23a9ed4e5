/** Concrete clusters in which the surprising cases happen, whatever the digests are. */
module Witnesses {
  import opened Wrappers
  import opened Text
  import opened HostList
  import opened Resources
  import opened Protocol
  import opened Safety
  import opened EgressSpec
  import opened Convergence
  import opened Separation
  import opened Confluence
  import opened AccountSpec
  import opened Stability
  import opened Controller
  import opened Namesakes
  import Names

  const VIP := "10.0.0.1"

  /** Two on-prem hosts behind one virtual IP. */
  function SharedVip(digest: string -> Digest): Config {
    Config(map["h1" := OnpremHost([VIP], "TCP"), "h2" := OnpremHost([VIP], "TCP")], digest, "g", "data", "registration")
  }

  /** A team whose one account may reach one on-prem host. */
  function Reaching(host: string): Spec {
    Spec("p", "d", [Account("a", [], [Host(host, [])], [])])
  }

  function ViaLabels(host: string): Labels {
    Labels("p", "d", "a", VIP, Internal, host)
  }

  lemma NoTargets(host: string)
    ensures forall side :: Targets(Reaching(host).accounts, side) == []
    ensures WantedTargets(Reaching(host)) == {}
  {
    forall side ensures Targets(Reaching(host).accounts, side) == [] {
      assert TargetsOf(Reaching(host).accounts[0], side) == [];
    }
  }

  lemma ReachingRequests(digest: string -> Digest, host: string)
    requires host in SharedVip(digest).onprem
    ensures Requests(SharedVip(digest), Reaching(host), Reaching(host).accounts) ==
      [InternalRequest(Reaching(host), "a", Host(host, []), "TCP"), VipRequest(Reaching(host), "a", host, VIP, "TCP")]
  {
    var cfg, spec := SharedVip(digest), Reaching(host);
    var account := spec.accounts[0];
    var onprem := cfg.onprem[host];
    assert VipRequests(spec, "a", host, onprem) == [VipRequest(spec, "a", host, VIP, "TCP")];
    assert InternalRequests(cfg, spec, "a", account.internal[1..]) == [];
    assert AccountRequests(cfg, spec, account) == InternalRequests(cfg, spec, "a", account.internal);
    assert Requests(cfg, spec, spec.accounts[1..]) == [];
  }

  lemma TcpSupported(digest: string -> Digest, host: string)
    requires host in SharedVip(digest).onprem
    ensures Supported(SharedVip(digest), Reaching(host))
  {
    ReachingRequests(digest, host);
    assert Upper("TCP") == "TCP";
  }

  lemma ReachingPass(digest: string -> Digest, s: Store, host: string) returns (s': Store)
    requires host in SharedVip(digest).onprem
    ensures EgressPass(SharedVip(digest), s, Reaching(host), {Reaching(host)}) == Some(s')
  {
    NoTargets(host);
    TcpSupported(digest, host);
    PoliciesProgress(SharedVip(digest), s, Requests(SharedVip(digest), Reaching(host), Reaching(host).accounts));
    s' := EgressPass(SharedVip(digest), s, Reaching(host), {Reaching(host)}).value;
  }

  lemma KeysDiffer(digest: string -> Digest, host: string)
    requires host == "h1" || host == "h2"
    ensures var cfg := SharedVip(digest);
      PolicyKey(cfg, InternalRequest(Reaching(host), "a", Host(host, []), "TCP").labels) != PolicyKey(cfg, ViaLabels(host))
  {
    var cfg, l := SharedVip(digest), InternalRequest(Reaching(host), "a", Host(host, []), "TCP").labels;
    assert |PolicyName(cfg, l)| == 14 && |PolicyName(cfg, ViaLabels(host))| == 20;
  }

  lemma ReachingGoverns(host: string)
    ensures Governs(Reaching(host), {Reaching(host)})
  {
  }

  /** Where no entry is stale and the name of the virtual IP is free, a pass grants it. */
  lemma FreeGranted(digest: string -> Digest, s: Store, host: string, s': Store)
    requires host == "h1" || host == "h2"
    requires Gated(s) && Keyed(s) && PoliciesNamed(SharedVip(digest), s)
    requires PolicyKey(SharedVip(digest), ViaLabels(host)) !in s && !Stale(s, {Reaching(host)}, VIP)
    requires EgressPass(SharedVip(digest), s, Reaching(host), {Reaching(host)}) == Some(s')
    ensures HasPolicy(s', ViaLabels(host))
  {
    var cfg, spec := SharedVip(digest), Reaching(host);
    var r := VipRequest(spec, "a", host, VIP, "TCP");
    ReachingRequests(digest, host);
    KeysDiffer(digest, host);
    ReachingGoverns(host);
    var rs, k := Requests(cfg, spec, spec.accounts), PolicyKey(cfg, r.labels);
    assert rs[1] == r && rs[1..] == [r];
    RequestTidy(cfg, spec, {spec}, r);
    assert Asked(cfg, rs, k);
    assert FirstAsked(cfg, rs, k) == FirstAsked(cfg, [r], k) == r.labels;
    GrantedExactly(cfg, s, spec, {spec}, s', r);
  }

  lemma TidyFresh(s: Store, spec: Spec, specs: set<Spec>, h: string)
    requires Tidy(s, spec, specs)
    ensures !Stale(s, specs, h) && Gated(s)
  {
    forall side ensures Hosts(s, side) <= InUse(specs, side) { assert TidySide(s, specs, side); }
    forall side | GatewayKey(side) in s ensures s[GatewayKey(side)].Gateway? && |s[GatewayKey(side)].servers| > 0 {
      assert TidySide(s, specs, side);
    }
  }

  lemma FreshTidy(host: string)
    ensures Tidy(FRESH, Reaching(host), {Reaching(host)})
  {
    GatewaysDiffer();
    NoTargets(host);
    var specs := {Reaching(host)};
    assert Demand(specs) == {};
    assert InUse(specs, CloudSQLSide) == {"*"};
    assert Ascending(["*"]) && Elems(["*"]) == {"*"};
    AscendingIsCanon(["*"]);
    forall side ensures TidySide(FRESH, specs, side) {}
  }

  /** One pass is not enough: two on-prem hosts share a virtual IP, and the account moves
      from one to the other. The policy for the first still has the name, so the pass does
      not create the other and then deletes the first. Only a second pass grants the IP. */
  lemma SharedVipLost(digest: string -> Digest) returns (s1: Store, s2: Store, s3: Store)
    ensures EgressPass(SharedVip(digest), FRESH, Reaching("h1"), {Reaching("h1")}) == Some(s1)
    ensures EgressPass(SharedVip(digest), s1, Reaching("h2"), {Reaching("h2")}) == Some(s2)
    ensures EgressPass(SharedVip(digest), s2, Reaching("h2"), {Reaching("h2")}) == Some(s3)
    ensures HasPolicy(s1, ViaLabels("h1"))
    ensures !Granted(SharedVip(digest), s2, VipRequest(Reaching("h2"), "a", "h2", VIP, "TCP"))
    ensures HasPolicy(s3, ViaLabels("h2"))
  {
    var cfg, before, after := SharedVip(digest), Reaching("h1"), Reaching("h2");
    s1 := ReachingPass(digest, FRESH, "h1");
    s2 := ReachingPass(digest, s1, "h2");
    s3 := ReachingPass(digest, s2, "h2");
    FreshStart(cfg, OwnScope(cfg, {}), map[], []);
    FreshTidy("h1");
    TidyFresh(FRESH, before, {before}, VIP);
    FreeGranted(digest, FRESH, "h1", s1);
    PassNamed(cfg, FRESH, before, {before}, s1);
    PassTidy(cfg, FRESH, before, {before}, s1);
    TidyFresh(s1, before, {before}, VIP);
    MovedLost(digest, s1, s2);
    PassNamed(cfg, s1, after, {after}, s2);
    PassTidy(cfg, s1, after, {after}, s2);
    TidyFresh(s2, after, {after}, VIP);
    FreeGranted(digest, s2, "h2", s3);
  }

  lemma MovedLost(digest: string -> Digest, s: Store, s': Store)
    requires Gated(s) && Keyed(s) && PoliciesNamed(SharedVip(digest), s) && HasPolicy(s, ViaLabels("h1"))
    requires EgressPass(SharedVip(digest), s, Reaching("h2"), {Reaching("h2")}) == Some(s')
    ensures !Granted(SharedVip(digest), s', VipRequest(Reaching("h2"), "a", "h2", VIP, "TCP"))
    ensures PolicyKey(SharedVip(digest), ViaLabels("h2")) !in s'
  {
    var cfg, spec := SharedVip(digest), Reaching("h2");
    var r := VipRequest(spec, "a", "h2", VIP, "TCP");
    ReachingRequests(digest, "h2");
    assert Requests(cfg, spec, spec.accounts)[1] == r;
    var k :| k in s && s[k].AuthorizationPolicy? && s[k].labels == ViaLabels("h1");
    assert s[k].Id() == k && k == PolicyKey(cfg, r.labels);
    assert RevokedBy(spec, spec.accounts[0], ViaLabels("h1")) by {
      assert HostsOf(spec.accounts[0].internal) == ["h2"];
      assert "h1"[1] != "h2"[1];
    }
    GrantedExactly(cfg, s, spec, {spec}, s', r);
    TcpSupported(digest, "h2");
  }

  /** Names collide without any help from the digest: dots and dashes run together. */
  lemma DashedAccounts(cfg: Config, project: string, domain: string)
    ensures PolicyName(cfg, Labels(project, domain, "a", "b.c", Internal, "b.c"))
         == PolicyName(cfg, Labels(project, domain, "a-b", "c", Internal, "c"))
  {
    assert Dashed("b.c") == "b-c" && Dashed("c") == "c";
    var team := project + "-" + domain + "-";
    assert team + "a" + "-" + "b-c" == team + "a-b-c" == team + "a-b" + "-" + "c";
  }

  /** The names of one example, spelled. */
  lemma TargetNames()
    ensures NameOf(ExternalHost("api.no")) == "api-no" && Label(ExternalHost("api.no")) == "api.no"
    ensures RuleName(ExternalHost("api.no"), ToGateway) == "api-no-to-gateway"
    ensures RuleName(ExternalHost("api.no"), FromGateway) == "api-no-from-gateway"
  {
    assert Dashed("api.no") == "api-no";
  }

  lemma InstanceNames()
    ensures NameOf(CloudSQL(VIP)) == "cloudsql-10-0-0-1" && Label(CloudSQL(VIP)) == "10-0-0-1.cloudsql"
  {
    assert Dashed(VIP) == "10-0-0-1";
  }

  lemma GatewayNames()
    ensures GatewayKey(ExternalSide) == Key(Gateways, "istio-egress", "istio-egressgateway-external")
    ensures GatewayKey(CloudSQLSide) == Key(Gateways, "istio-egress", "istio-egressgateway-cloudsql")
    ensures GatewayHost(ExternalSide) == "istio-egressgateway-external.istio-egress.svc.cluster.local"
    ensures GatewayHost(CloudSQLSide) == "istio-egressgateway-cloudsql.istio-egress.svc.cluster.local"
  {
  }

  lemma TeamNames(cfg: Config)
    ensures PolicyName(cfg, Labels("p", "d", "a", "api.no", External, "api.no")) == "p-d-a-api-no-" + cfg.digest("p-d-a-api-no")
    ensures AccountKey(Spec("p", "d", []), "a") == Key(ServiceAccounts, "p-d", "a")
    ensures GoogleName(cfg, Spec("p", "d", []), "a") == "a-d-p-" + cfg.digest("a-d-p")
  {
    assert Dashed("api.no") == "api-no";
    assert "p" + "-" + "d" + "-" + "a" + "-" + "api-no" == "p-d-a-api-no" && "a" + "-" + "d" + "-" + "p" == "a-d-p";
    Names.TruncatedDistinct(cfg, "p-d-a-api-no", "", 57);
    Names.TruncatedDistinct(cfg, "a-d-p", "", 22);
  }

  // ---- A deletion that leaves a policy behind --------------------------------------

  function Team(spec: Spec, deleting: bool): map<string, Resource> {
    map["u" := Resource(spec, map[], 0, {FINALIZER}, deleting)]
  }

  lemma FreshPass(digest: string -> Digest, host: string) returns (s: Store)
    requires host == "h1" || host == "h2"
    ensures ObjectsPass(SharedVip(digest), FRESH, Reaching(host), {Reaching(host)}) == Some(s)
    ensures HasPolicy(s, ViaLabels(host))
  {
    var cfg, spec := SharedVip(digest), Reaching(host);
    var a := AccountsDone(cfg, FRESH, spec);
    FreshStart(cfg, OwnScope(cfg, {}), map[], []);
    AccountsDoneFacts(cfg, FRESH, spec);
    SameWithin(cfg, OwnScope(cfg, {}), FRESH, a);
    SameHostsWithin(FRESH, a);
    FreshTidy(host);
    TidyFresh(FRESH, spec, {spec}, VIP);
    assert !AccountKind(PolicyKey(cfg, ViaLabels(host)).kind);
    s := ReachingPass(digest, a, host);
    FreeGranted(digest, a, host, s);
  }

  /** The account is dropped from the specification and the resource deleted before the next
      reconcile: the deletion succeeds, the resource goes, and the policy of the account
      stays behind. */
  lemma DroppedAccountLeft(digest: string -> Digest) returns (w1: World, w2: World, w3: World)
    ensures Safe(SharedVip(digest), World(Team(Reaching("h1"), false), FRESH, []))
    ensures Reconciled(SharedVip(digest), World(Team(Reaching("h1"), false), FRESH, []), "u") == Some(w1)
    ensures Edited(w1.crs, w2.crs) && w2 == w1.(crs := Team(Spec("p", "d", []), true))
    ensures Reconciled(SharedVip(digest), w2, "u") == Some(w3)
    ensures "u" !in w3.crs && HasPolicy(w3.objects, ViaLabels("h1"))
  {
    var cfg, spec := SharedVip(digest), Reaching("h1");
    var w0 := World(Team(spec, false), FRESH, []);
    FreshStart(cfg, OwnScope(cfg, {}), w0.crs, []);
    assert Specs(w0.crs) == {spec} by { assert w0.crs["u"].spec == spec; }
    var s := FreshPass(digest, "h1");
    w1 := Reconciled(cfg, w0, "u").value;
    w2 := w1.(crs := Team(Spec("p", "d", []), true));
    w3 := Reconciled(cfg, w2, "u").value;
    LeftByDeletion(cfg, w2, w3);
  }

  lemma LeftByDeletion(cfg: Config, w: World, w': World)
    requires w.crs == Team(Spec("p", "d", []), true) && Reconciled(cfg, w, "u") == Some(w')
    requires HasPolicy(w.objects, ViaLabels("h1"))
    ensures "u" !in w'.crs && HasPolicy(w'.objects, ViaLabels("h1"))
  {
    assert {FINALIZER} - {FINALIZER} == {};
    var k :| k in w.objects && w.objects[k].AuthorizationPolicy? && w.objects[k].labels == ViaLabels("h1");
    assert k in w'.objects && w'.objects[k] == w.objects[k];
  }
}
