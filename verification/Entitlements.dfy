/** What the allowlists stand for, written out: which requests and targets a specification
    makes, whom and what a policy admits, and what a policy member grants. */
module Entitlements {
  import opened Wrappers
  import opened Text
  import opened Resources
  import opened Protocol

  // ---- Requests --------------------------------------------------------------------

  /** A request that stems from the account's external list, from its CloudSQL list, or from
      an internal host that the on-prem map knows: the host itself, or one of its VIPs. */
  ghost predicate Asks(cfg: Config, spec: Spec, account: Account, r: Request) {
    || (exists h :: h in account.external && r ==
          Request(Labels(spec.project, spec.domain, account.name, h.host, External, h.host), h.host, h.paths, "HTTPS"))
    || (exists ip :: ip in account.cloudSQL && r ==
          Request(Labels(spec.project, spec.domain, account.name, SqlHost(ip), External, SqlHost(ip)), ip, [], "TCP"))
    || (exists h :: h in account.internal && AsksInternal(cfg, spec, account.name, h, r))
  }

  ghost predicate AsksInternal(cfg: Config, spec: Spec, name: string, h: Host, r: Request) {
    h.host in cfg.onprem && (
      || r == Request(Labels(spec.project, spec.domain, name, h.host, Internal, h.host), h.host, h.paths, cfg.onprem[h.host].protocol)
      || (exists vip :: vip in cfg.onprem[h.host].vip && r ==
            Request(Labels(spec.project, spec.domain, name, vip, Internal, h.host), vip, [], cfg.onprem[h.host].protocol)))
  }

  lemma VipsExact(spec: Spec, name: string, parent: string, onprem: OnpremHost, r: Request)
    ensures r in VipRequests(spec, name, parent, onprem) <==>
      (exists vip :: vip in onprem.vip && r == Request(Labels(spec.project, spec.domain, name, vip, Internal, parent), vip, [], onprem.protocol))
  {
    var rs := VipRequests(spec, name, parent, onprem);
    if vip :| vip in onprem.vip && r == Request(Labels(spec.project, spec.domain, name, vip, Internal, parent), vip, [], onprem.protocol) {
      var i :| 0 <= i < |onprem.vip| && onprem.vip[i] == vip;
      assert rs[i] == r;
    }
  }

  lemma FirstExact(cfg: Config, spec: Spec, name: string, hosts: seq<Host>, r: Request)
    requires hosts != []
    ensures r in InternalRequests(cfg, spec, name, hosts) <==>
      AsksInternal(cfg, spec, name, hosts[0], r) || r in InternalRequests(cfg, spec, name, hosts[1..])
  {
    var h := hosts[0];
    if h.host in cfg.onprem {
      var mine := [InternalRequest(spec, name, h, cfg.onprem[h.host].protocol)] + VipRequests(spec, name, h.host, cfg.onprem[h.host]);
      VipsExact(spec, name, h.host, cfg.onprem[h.host], r);
      assert r in mine <==> AsksInternal(cfg, spec, name, h, r);
      assert InternalRequests(cfg, spec, name, hosts) == mine + InternalRequests(cfg, spec, name, hosts[1..]);
    } else {
      assert InternalRequests(cfg, spec, name, hosts) == [] + InternalRequests(cfg, spec, name, hosts[1..]);
    }
  }

  lemma {:induction false} InternalExact(cfg: Config, spec: Spec, name: string, hosts: seq<Host>, r: Request)
    ensures r in InternalRequests(cfg, spec, name, hosts) <==> exists h :: h in hosts && AsksInternal(cfg, spec, name, h, r)
    decreases |hosts|
  {
    if hosts != [] {
      InternalExact(cfg, spec, name, hosts[1..], r);
      FirstExact(cfg, spec, name, hosts, r);
      if h :| h in hosts && AsksInternal(cfg, spec, name, h, r) { assert h == hosts[0] || h in hosts[1..]; }
    }
  }

  lemma ExternalExact(spec: Spec, name: string, hosts: seq<Host>, r: Request)
    ensures r in ExternalRequests(spec, name, hosts) <==>
      (exists h :: h in hosts && r == Request(Labels(spec.project, spec.domain, name, h.host, External, h.host), h.host, h.paths, "HTTPS"))
  {
    var rs := ExternalRequests(spec, name, hosts);
    if h :| h in hosts && r == Request(Labels(spec.project, spec.domain, name, h.host, External, h.host), h.host, h.paths, "HTTPS") {
      var i :| 0 <= i < |hosts| && hosts[i] == h;
      assert rs[i] == r;
    }
  }

  lemma SqlExact(spec: Spec, name: string, ips: seq<string>, r: Request)
    ensures r in SqlRequests(spec, name, ips) <==>
      (exists ip :: ip in ips && r == Request(Labels(spec.project, spec.domain, name, SqlHost(ip), External, SqlHost(ip)), ip, [], "TCP"))
  {
    var rs := SqlRequests(spec, name, ips);
    if ip :| ip in ips && r == Request(Labels(spec.project, spec.domain, name, SqlHost(ip), External, SqlHost(ip)), ip, [], "TCP") {
      var i :| 0 <= i < |ips| && ips[i] == ip;
      assert rs[i] == r;
    }
  }

  lemma AccountExact(cfg: Config, spec: Spec, account: Account, r: Request)
    ensures r in AccountRequests(cfg, spec, account) <==> Asks(cfg, spec, account, r)
  {
    ExternalExact(spec, account.name, account.external, r);
    SqlExact(spec, account.name, account.cloudSQL, r);
    InternalExact(cfg, spec, account.name, account.internal, r);
  }

  lemma {:induction false} AccountsExactly(cfg: Config, spec: Spec, accounts: seq<Account>, r: Request)
    ensures r in Requests(cfg, spec, accounts) <==> exists account :: account in accounts && Asks(cfg, spec, account, r)
    decreases |accounts|
  {
    if accounts != [] {
      AccountsExactly(cfg, spec, accounts[1..], r);
      AccountExact(cfg, spec, accounts[0], r);
      if account :| account in accounts && Asks(cfg, spec, account, r) { assert account == accounts[0] || account in accounts[1..]; }
    }
  }

  /** The operator requests exactly the policies that the allowlists stand for: none is
      forgotten, and an internal host that the on-prem map lacks brings none. */
  lemma RequestsExact(cfg: Config, spec: Spec, r: Request)
    ensures Requested(cfg, spec, r) <==> exists account :: account in spec.accounts && Asks(cfg, spec, account, r)
  {
    AccountsExactly(cfg, spec, spec.accounts, r);
  }

  /** The check whether a policy is already there goes by every label but the kind of host: a
      policy for an external host stands for the internal one of the same name, and the other
      way round. */
  lemma CheckedFor(l: Labels, o: Object)
    ensures Matches(ByGrant(l), o) <==>
      && o.AuthorizationPolicy? && o.labels.project == l.project && o.labels.domain == l.domain
      && o.labels.account == l.account && o.labels.host == l.host && o.labels.parent == l.parent
  {
  }

  // ---- Targets ---------------------------------------------------------------------

  ghost predicate AllowsTarget(account: Account, t: Target) {
    match t
    case ExternalHost(url) => exists h :: h in account.external && h.host == url
    case CloudSQL(ip) => ip in account.cloudSQL
  }

  lemma TargetsOfExact(account: Account, t: Target)
    ensures t in TargetsOf(account, ExternalSide) + TargetsOf(account, CloudSQLSide) <==> AllowsTarget(account, t)
    ensures forall side :: t in TargetsOf(account, side) ==> SideOf(t) == side
  {
    match t
    case ExternalHost(url) =>
      if h :| h in account.external && h.host == url {
        var i :| 0 <= i < |account.external| && account.external[i] == h;
        assert TargetsOf(account, ExternalSide)[i] == t;
      }
    case CloudSQL(ip) =>
      if ip in account.cloudSQL {
        var i :| 0 <= i < |account.cloudSQL| && account.cloudSQL[i] == ip;
        assert TargetsOf(account, CloudSQLSide)[i] == t;
      }
  }

  lemma {:induction false} TargetsOfAll(accounts: seq<Account>, side: Side, t: Target)
    ensures t in Targets(accounts, side) <==> exists account :: account in accounts && t in TargetsOf(account, side)
    decreases |accounts|
  {
    if accounts != [] {
      TargetsOfAll(accounts[1..], side, t);
      if account :| account in accounts && t in TargetsOf(account, side) { assert account == accounts[0] || account in accounts[1..]; }
    }
  }

  /** The targets of a specification are exactly the hosts and instances its accounts list. */
  lemma TargetsExact(spec: Spec, t: Target)
    ensures t in WantedTargets(spec) <==> exists account :: account in spec.accounts && AllowsTarget(account, t)
  {
    TargetsOfAll(spec.accounts, ExternalSide, t);
    TargetsOfAll(spec.accounts, CloudSQLSide, t);
    if account :| account in spec.accounts && t in TargetsOf(account, ExternalSide) { TargetsOfExact(account, t); }
    if account :| account in spec.accounts && t in TargetsOf(account, CloudSQLSide) { TargetsOfExact(account, t); }
    if account :| account in spec.accounts && AllowsTarget(account, t) { TargetsOfExact(account, t); }
  }

  // ---- Policies --------------------------------------------------------------------

  /** The capital letter in either case; the long s counts as an s. */
  predicate Cased(c: char, capital: char) {
    c == capital || c as int == capital as int + 32 || (capital == 'S' && c == '\U{17F}')
  }

  predicate Spells(s: string, word: string) {
    |s| == |word| && forall i :: 0 <= i < |s| ==> Cased(s[i], word[i])
  }

  lemma UpperSpells(s: string, word: string)
    requires forall i :: 0 <= i < |word| ==> 'A' <= word[i] <= 'Z'
    ensures Upper(s) == word <==> Spells(s, word)
  {
    if Upper(s) == word {
      forall i | 0 <= i < |s| ensures Cased(s[i], word[i]) { assert Upper(s)[i] == word[i]; }
    }
    if Spells(s, word) {
      forall i | 0 <= i < |s| ensures Upper(s)[i] == word[i] { assert Cased(s[i], word[i]); }
    }
  }

  /** The grant for a host in the form its protocol calls for. */
  ghost predicate InForm(protocol: string, host: string, paths: seq<string>, g: Grant) {
    || (Spells(protocol, "HTTPS") && g == OnHosts([host], paths))
    || (Spells(protocol, "TCP") && g == OnSni([host]))
  }

  /** A request has a policy exactly if its protocol is HTTPS or TCP in any letter case. It
      carries the request's labels, admits the one service account that they name, and opens
      the request's host in the form of its protocol. */
  lemma PolicyWritten(cfg: Config, r: Request)
    ensures NewPolicy(cfg, r).Some? <==> Spells(r.protocol, "HTTPS") || Spells(r.protocol, "TCP")
    ensures NewPolicy(cfg, r).Some? ==> var o := NewPolicy(cfg, r).value;
      && o.AuthorizationPolicy? && o.labels == r.labels && o.name == PolicyName(cfg, r.labels)
      && o.principal == "cluster.local/ns/" + r.labels.project + "-" + r.labels.domain + "/sa/" + r.labels.account
      && InForm(r.protocol, r.host, r.paths, o.grant)
  {
    UpperSpells(r.protocol, "HTTPS");
    UpperSpells(r.protocol, "TCP");
    var l := r.labels;
    assert "cluster.local/ns/" + (l.project + "-" + l.domain) + "/sa/" + l.account
        == "cluster.local/ns/" + l.project + "-" + l.domain + "/sa/" + l.account;
  }

  /** The policy opens what one entry of the account's allowlists names, to this account. */
  ghost predicate Entitled(cfg: Config, spec: Spec, account: Account, o: Object) {
    && o.AuthorizationPolicy?
    && o.principal == "cluster.local/ns/" + spec.project + "-" + spec.domain + "/sa/" + account.name
    && (|| (exists h :: h in account.external && o.grant == OnHosts([h.host], h.paths)
              && o.labels == Labels(spec.project, spec.domain, account.name, h.host, External, h.host))
        || (exists ip :: ip in account.cloudSQL && o.grant == OnSni([ip])
              && o.labels == Labels(spec.project, spec.domain, account.name, SqlHost(ip), External, SqlHost(ip)))
        || (exists h :: h in account.internal && EntitledInternal(cfg, spec, account.name, h, o)))
  }

  ghost predicate EntitledInternal(cfg: Config, spec: Spec, name: string, h: Host, o: Object)
    requires o.AuthorizationPolicy?
  {
    h.host in cfg.onprem && (
      || (o.labels == Labels(spec.project, spec.domain, name, h.host, Internal, h.host)
          && InForm(cfg.onprem[h.host].protocol, h.host, h.paths, o.grant))
      || (exists vip :: vip in cfg.onprem[h.host].vip
            && o.labels == Labels(spec.project, spec.domain, name, vip, Internal, h.host)
            && InForm(cfg.onprem[h.host].protocol, vip, [], o.grant)))
  }

  lemma FixedForm(host: string, paths: seq<string>, g: Grant)
    ensures InForm("HTTPS", host, paths, g) <==> g == OnHosts([host], paths)
    ensures InForm("TCP", host, paths, g) <==> g == OnSni([host])
  {
    assert |"HTTPS"| != |"TCP"|;
  }

  /** Every policy that the operator makes is one its account is entitled to. */
  lemma RequestEntitled(cfg: Config, spec: Spec, r: Request, o: Object) returns (account: Account)
    requires Requested(cfg, spec, r) && NewPolicy(cfg, r) == Some(o)
    ensures account in spec.accounts && Entitled(cfg, spec, account, o) && o.labels.account == account.name
  {
    RequestsExact(cfg, spec, r);
    PolicyWritten(cfg, r);
    account :| account in spec.accounts && Asks(cfg, spec, account, r);
    FixedForm(r.host, r.paths, o.grant);
    if h :| h in account.internal && AsksInternal(cfg, spec, account.name, h, r) {
      assert EntitledInternal(cfg, spec, account.name, h, o);
    }
  }

  /** Whatever the allowlists said when it was made: the policy admits the account that its
      labels name, and opens nothing but the host that its labels name. */
  predicate Admits(o: Object)
    requires o.AuthorizationPolicy?
  {
    var l := o.labels;
    && o.principal == "cluster.local/ns/" + l.project + "-" + l.domain + "/sa/" + l.account
    && match o.grant
       case OnHosts(hosts, _) => hosts == [l.host]
       case OnSni(values) => |values| == 1 && l.host == if l.hostType == External then SqlHost(values[0]) else values[0]
  }

  lemma EntitledAdmits(cfg: Config, spec: Spec, account: Account, o: Object)
    requires Entitled(cfg, spec, account, o)
    ensures Admits(o)
  {
  }

  /** The labels or annotations hold the value under the key. */
  predicate Carries(m: map<string, string>, key: string, value: string) {
    key in m && m[key] == value
  }

  // ---- Policy members --------------------------------------------------------------

  /** What each of the four policy members of an account grants to whom. */
  ghost predicate Grants(cfg: Config, project: string, domain: string, name: string, role: Role, o: Object) {
    && o.IamPolicyMember? && o.namespace == project + "-" + domain && OwnedBy(o.meta, project, domain)
    && Carries(o.meta.annotations, "cnrm.cloud.google.com/project-id", cfg.gcpProject)
    && match role
       case WorkloadIdentity =>
         && o.name == name + "-workload-identity-user" && o.role == "roles/iam.workloadIdentityUser"
         && o.kind == "IAMServiceAccount"
         && o.resource == "projects/" + cfg.gcpProject + "/serviceAccounts/" + Email(cfg, project, domain, name)
         && o.member == "serviceAccount:" + cfg.gcpProject + ".svc.id.goog[" + project + "-" + domain + "/" + name + "]"
       case DataAdmin =>
         && o.name == name + "-union-data-bucket-object-admin" && o.role == "roles/storage.objectAdmin"
         && o.kind == "StorageBucket" && o.resource == cfg.dataBucket
         && o.member == "serviceAccount:" + Email(cfg, project, domain, name)
       case DataViewer =>
         && o.name == name + "-union-data-bucket-viewer" && o.role == "roles/storage.bucketViewer"
         && o.kind == "StorageBucket" && o.resource == cfg.dataBucket
         && o.member == "serviceAccount:" + Email(cfg, project, domain, name)
       case RegistrationViewer =>
         && o.name == name + "-union-fast-registration-bucket-viewer" && o.role == "roles/storage.objectViewer"
         && o.kind == "StorageBucket" && o.resource == cfg.registrationBucket
         && o.member == "serviceAccount:" + Email(cfg, project, domain, name)
  }

  /** The address of the Google service account: at most 22 characters of account, domain and
      project, then the digest, then the Google project. */
  function Email(cfg: Config, project: string, domain: string, name: string): string {
    var full := name + "-" + domain + "-" + project;
    (if |full| <= 22 then full else full[..22]) + "-" + cfg.digest(full) + "@" + cfg.gcpProject + ".iam.gserviceaccount.com"
  }

  lemma EmailWritten(cfg: Config, spec: Spec, name: string)
    ensures GoogleEmail(cfg, spec, name) == Email(cfg, spec.project, spec.domain, name)
  {
    var full := name + "-" + spec.domain + "-" + spec.project;
    assert full[..|full|] == full;
  }

  lemma MemberWritten(cfg: Config, spec: Spec, name: string, role: Role)
    ensures Grants(cfg, spec.project, spec.domain, name, role, NewMember(cfg, spec, name, role))
  {
    EmailWritten(cfg, spec, name);
    assert |PROJECT_LABEL| != |DOMAIN_LABEL|;
    var gcp, p, d := cfg.gcpProject, spec.project, spec.domain;
    assert "serviceAccount:" + gcp + ".svc.id.goog[" + (p + "-" + d) + "/" + name + "]"
        == "serviceAccount:" + gcp + ".svc.id.goog[" + p + "-" + d + "/" + name + "]";
  }

  /** Of the members that are made for an account only one may write to a bucket. */
  lemma OneWriter(cfg: Config, project: string, domain: string, name: string, role: Role, o: Object)
    requires Grants(cfg, project, domain, name, role, o)
    ensures o.role == "roles/storage.objectAdmin" <==> role == DataAdmin
  {
    assert |"roles/storage.objectAdmin"| == 25 && |"roles/iam.workloadIdentityUser"| == 30;
    assert |"roles/storage.bucketViewer"| == 26 && |"roles/storage.objectViewer"| == 26;
  }
}
