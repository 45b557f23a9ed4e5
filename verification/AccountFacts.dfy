/** What the service account part of a reconcile establishes. */
module AccountFacts {
  import opened Resources
  import opened Protocol
  import opened Entitlements
  import opened Safety
  import opened AccountSpec
  import Names

  // ---- Idempotence of the metadata -------------------------------------------------

  /** The union labels and the given annotations are set, everything else stays as it was
      and nothing else appears; and setting them again changes nothing. */
  lemma MetadataIdempotent(meta: Metadata, spec: Spec, annotations: map<string, string>)
    ensures UnionMetadata(UnionMetadata(meta, spec, annotations), spec, annotations) == UnionMetadata(meta, spec, annotations)
    ensures OwnedBy(UnionMetadata(meta, spec, annotations), spec.project, spec.domain)
    ensures Carries(UnionMetadata(meta, spec, annotations).labels, "union.nav.no/project", spec.project)
    ensures Carries(UnionMetadata(meta, spec, annotations).labels, "union.nav.no/domain", spec.domain)
    ensures forall l, v :: l != PROJECT_LABEL && l != DOMAIN_LABEL ==>
      (Carries(UnionMetadata(meta, spec, annotations).labels, l, v) <==> Carries(meta.labels, l, v))
    ensures forall a, v :: Carries(annotations, a, v) ==> Carries(UnionMetadata(meta, spec, annotations).annotations, a, v)
    ensures forall a, v :: a !in annotations ==>
      (Carries(UnionMetadata(meta, spec, annotations).annotations, a, v) <==> Carries(meta.annotations, a, v))
  {
    assert |PROJECT_LABEL| != |DOMAIN_LABEL|;
    var once := UnionMetadata(meta, spec, annotations);
    assert once.labels[PROJECT_LABEL := spec.project][DOMAIN_LABEL := spec.domain] == once.labels;
    assert once.annotations + annotations == once.annotations;
  }

  // ---- What ensuring settles -------------------------------------------------------

  /** The account and its IAM objects stand as a reconcile would write them. */
  ghost predicate AccountSettled(cfg: Config, s: Store, spec: Spec, name: string) {
    var k, a := IamKey(cfg, spec, name), AccountKey(spec, name);
    && k in s && s[k].IamServiceAccount? && s[k] == NewIamAccount(cfg, spec, name, s[k].meta)
    && a in s && s[a].ServiceAccount? && s[a] == NewServiceAccount(cfg, spec, name, s[a].meta)
    && forall role: Role :: MemberKey(spec, name, role) in s
  }

  ghost predicate AllSettled(cfg: Config, s: Store, spec: Spec, accounts: seq<Account>) {
    forall i :: 0 <= i < |accounts| ==> AccountSettled(cfg, s, spec, accounts[i].name)
  }

  lemma {:induction false} MembersKept(cfg: Config, s: Store, spec: Spec, name: string, roles: seq<Role>)
    ensures var s' := EnsureMembers(cfg, s, spec, name, roles);
      && (forall k :: k in s ==> k in s' && s'[k] == s[k])
      && (forall k :: k in s' && k !in s ==> k.kind == IamMembers)
    decreases |roles|
  {
    if roles != [] { MembersKept(cfg, s, spec, name, roles[..|roles| - 1]); }
  }

  lemma {:induction false} MembersMade(cfg: Config, s: Store, spec: Spec, name: string, roles: seq<Role>)
    ensures var s' := EnsureMembers(cfg, s, spec, name, roles);
      && (forall role :: role in roles ==> MemberKey(spec, name, role) in s')
      && (forall k :: k in s ==> k in s' && s'[k] == s[k])
      && (forall k :: k in s' && k !in s ==> k.kind == IamMembers)
      && ((forall role :: role in roles ==> MemberKey(spec, name, role) in s) ==> s' == s)
    decreases |roles|
  {
    MembersKept(cfg, s, spec, name, roles);
    if roles != [] {
      var before, last := roles[..|roles| - 1], roles[|roles| - 1];
      MembersMade(cfg, s, spec, name, before);
      var s1 := EnsureMembers(cfg, s, spec, name, before);
      LastMember(cfg, s1, spec, name, last);
      RolesNext(s1, EnsureMember(cfg, s1, spec, name, last), spec, name, roles);
      RolesNext(s, s, spec, name, roles);
    }
  }

  lemma RolesNext(s: Store, s': Store, spec: Spec, name: string, roles: seq<Role>)
    requires roles != [] && s.Keys <= s'.Keys
    ensures var before, last := roles[..|roles| - 1], roles[|roles| - 1];
      && ((forall role :: role in before ==> MemberKey(spec, name, role) in s) && MemberKey(spec, name, last) in s'
          ==> forall role :: role in roles ==> MemberKey(spec, name, role) in s')
      && ((forall role :: role in roles ==> MemberKey(spec, name, role) in s) ==>
          MemberKey(spec, name, last) in s && forall role :: role in before ==> MemberKey(spec, name, role) in s)
  {
    assert roles == roles[..|roles| - 1] + [roles[|roles| - 1]];
  }

  lemma LastMember(cfg: Config, s: Store, spec: Spec, name: string, role: Role)
    ensures var s' := EnsureMember(cfg, s, spec, name, role);
      && MemberKey(spec, name, role) in s' && s.Keys <= s'.Keys && (MemberKey(spec, name, role) in s ==> s' == s)
  {
  }

  lemma IamSettles(cfg: Config, s: Store, spec: Spec, name: string)
    ensures var s', k := EnsureIam(cfg, s, spec, name), IamKey(cfg, spec, name);
      k in s' && s'[k].IamServiceAccount? && s'[k] == NewIamAccount(cfg, spec, name, s'[k].meta)
  {
    var k := IamKey(cfg, spec, name);
    var meta := if k in s && s[k].IamServiceAccount? then s[k].meta else NO_METADATA;
    MetadataIdempotent(meta, spec, map[PROJECT_ANNOTATION := cfg.gcpProject]);
  }

  lemma K8sSettles(cfg: Config, s: Store, spec: Spec, name: string)
    ensures var s', k := EnsureAccount(cfg, s, spec, name), AccountKey(spec, name);
      k in s' && s'[k].ServiceAccount? && s'[k] == NewServiceAccount(cfg, spec, name, s'[k].meta)
      && OwnedBy(s'[k].meta, spec.project, spec.domain)
  {
    var k := AccountKey(spec, name);
    var meta := if k in s && s[k].ServiceAccount? then s[k].meta else NO_METADATA;
    MetadataIdempotent(meta, spec, map[EMAIL_ANNOTATION := GoogleEmail(cfg, spec, name)]);
  }

  lemma OneSettles(cfg: Config, s: Store, spec: Spec, name: string)
    ensures AccountSettled(cfg, EnsureOne(cfg, s, spec, name), spec, name)
  {
    IamSettles(cfg, s, spec, name);
    var s1 := EnsureIam(cfg, s, spec, name);
    K8sSettles(cfg, s1, spec, name);
    MembersMade(cfg, EnsureAccount(cfg, s1, spec, name), spec, name, ROLES);
  }

  lemma OneKeeps(cfg: Config, s: Store, spec: Spec, name: string, other: string)
    requires AccountSettled(cfg, s, spec, other)
    ensures AccountSettled(cfg, EnsureOne(cfg, s, spec, name), spec, other)
  {
    if name == other {
      OneSettles(cfg, s, spec, name);
    } else {
      IamSettles(cfg, s, spec, name);
      var s1 := EnsureIam(cfg, s, spec, name);
      MembersMade(cfg, EnsureAccount(cfg, s1, spec, name), spec, name, ROLES);
    }
  }

  lemma AllKept(cfg: Config, s: Store, spec: Spec, name: string, accounts: seq<Account>)
    requires AllSettled(cfg, s, spec, accounts)
    ensures AllSettled(cfg, EnsureOne(cfg, s, spec, name), spec, accounts)
  {
    forall i | 0 <= i < |accounts| ensures AccountSettled(cfg, EnsureOne(cfg, s, spec, name), spec, accounts[i].name) {
      OneKeeps(cfg, s, spec, name, accounts[i].name);
    }
  }

  lemma AllSettledWith(cfg: Config, s: Store, spec: Spec, accounts: seq<Account>, n: nat)
    requires n + 1 == |accounts| && AllSettled(cfg, s, spec, accounts[..n]) && AccountSettled(cfg, s, spec, accounts[n].name)
    ensures AllSettled(cfg, s, spec, accounts)
  {
    var before := accounts[..n];
    forall i | 0 <= i < |accounts| ensures AccountSettled(cfg, s, spec, accounts[i].name) {
      if i < n {
        assert AccountSettled(cfg, s, spec, before[i].name);
        assert before[i] == accounts[i];
      }
    }
  }

  lemma {:induction false} AccountsSettle(cfg: Config, s: Store, spec: Spec, accounts: seq<Account>)
    ensures AllSettled(cfg, EnsureAccounts(cfg, s, spec, accounts), spec, accounts)
    decreases |accounts|
  {
    if accounts != [] {
      var n := |accounts| - 1;
      AccountsSettle(cfg, s, spec, accounts[..n]);
      var s1 := EnsureAccounts(cfg, s, spec, accounts[..n]);
      AllKept(cfg, s1, spec, accounts[n].name, accounts[..n]);
      OneSettles(cfg, s1, spec, accounts[n].name);
      AllSettledWith(cfg, EnsureOne(cfg, s1, spec, accounts[n].name), spec, accounts, n);
    }
  }

  lemma OneIdle(cfg: Config, s: Store, spec: Spec, name: string)
    requires AccountSettled(cfg, s, spec, name)
    ensures EnsureOne(cfg, s, spec, name) == s
  {
    assert EnsureIam(cfg, s, spec, name) == s;
    assert EnsureAccount(cfg, s, spec, name) == s;
    MembersMade(cfg, s, spec, name, ROLES);
  }

  lemma AllSettledBefore(cfg: Config, s: Store, spec: Spec, accounts: seq<Account>, n: nat)
    requires n < |accounts| && AllSettled(cfg, s, spec, accounts)
    ensures AllSettled(cfg, s, spec, accounts[..n]) && AccountSettled(cfg, s, spec, accounts[n].name)
  {
    var before := accounts[..n];
    forall i | 0 <= i < n ensures AccountSettled(cfg, s, spec, before[i].name) {
      assert AccountSettled(cfg, s, spec, accounts[i].name);
      assert before[i] == accounts[i];
    }
  }

  lemma {:induction false} AccountsIdle(cfg: Config, s: Store, spec: Spec, accounts: seq<Account>)
    requires AllSettled(cfg, s, spec, accounts)
    ensures EnsureAccounts(cfg, s, spec, accounts) == s
    decreases |accounts|
  {
    if accounts != [] {
      var n := |accounts| - 1;
      AllSettledBefore(cfg, s, spec, accounts, n);
      AccountsIdle(cfg, s, spec, accounts[..n]);
      OneIdle(cfg, s, spec, accounts[n].name);
    }
  }

  // ---- Only accounts are touched ---------------------------------------------------

  lemma {:induction false} AccountsKeepEgress(cfg: Config, s: Store, spec: Spec, accounts: seq<Account>)
    ensures SameEgress(s, EnsureAccounts(cfg, s, spec, accounts))
    ensures forall k :: k in s ==> k in EnsureAccounts(cfg, s, spec, accounts)
    decreases |accounts|
  {
    if accounts != [] {
      var n := |accounts| - 1;
      AccountsKeepEgress(cfg, s, spec, accounts[..n]);
      var s1, name := EnsureAccounts(cfg, s, spec, accounts[..n]), accounts[n].name;
      MembersMade(cfg, EnsureAccount(cfg, EnsureIam(cfg, s1, spec, name), spec, name), spec, name, ROLES);
    }
  }

  lemma CleanKeepsEgress(cfg: Config, s: Store, spec: Spec)
    ensures SameEgress(s, CleanAccounts(cfg, s, spec))
  {
    forall k: Key | !AccountKind(k.kind) ensures !Leaves(cfg, s, spec, k) {
      forall j | j in s && Leaver(s[j], spec) ensures k !in KeysOf(cfg, spec, s[j]) {}
    }
  }

  // ---- Leavers ---------------------------------------------------------------------

  lemma CleanLeavesNone(cfg: Config, s: Store, spec: Spec)
    requires Keyed(s)
    ensures NoLeavers(CleanAccounts(cfg, s, spec), spec)
  {
    forall k | k in s && Leaver(s[k], spec) ensures Leaves(cfg, s, spec, k) {
      assert k in KeysOf(cfg, spec, s[k]);
    }
  }

  lemma NoLeaversIdle(cfg: Config, s: Store, spec: Spec)
    requires NoLeavers(s, spec)
    ensures CleanAccounts(cfg, s, spec) == s
  {
    forall k ensures !Leaves(cfg, s, spec, k) {}
  }

  /** The second cleanup of a reconcile computes what the first did and changes nothing. */
  lemma SecondCleanupIdle(cfg: Config, s: Store, spec: Spec)
    requires Keyed(s)
    ensures CleanAccounts(cfg, CleanAccounts(cfg, s, spec), spec) == CleanAccounts(cfg, s, spec)
  {
    CleanLeavesNone(cfg, s, spec);
    NoLeaversIdle(cfg, CleanAccounts(cfg, s, spec), spec);
  }

  lemma NamedAt(spec: Spec, name: string) returns (i: nat)
    requires Named(spec.accounts, name)
    ensures i < |spec.accounts| && spec.accounts[i].name == name
  {
    i :| 0 <= i < |spec.accounts| && spec.accounts[i].name == name;
  }

  lemma NamedStays(cfg: Config, s: Store, spec: Spec, name: string, role: Role)
    requires Named(spec.accounts, name)
    ensures !Leaves(cfg, s, spec, MemberKey(spec, name, role))
    ensures !Leaves(cfg, s, spec, AccountKey(spec, name))
  {
    forall j | j in s && Leaver(s[j], spec) ensures MemberKey(spec, name, role) !in KeysOf(cfg, spec, s[j]) {
      forall q | q in CLEANED_ROLES ensures MemberKey(spec, s[j].name, q) != MemberKey(spec, name, role) {
        if s[j].name + Suffix(q) == name + Suffix(role) { Names.MemberNameInjective(s[j].name, q, name, role); }
      }
    }
  }

  // ---- The pass --------------------------------------------------------------------

  lemma {:induction false} MembersKeyed(cfg: Config, s: Store, spec: Spec, name: string, roles: seq<Role>)
    requires Keyed(s)
    ensures Keyed(EnsureMembers(cfg, s, spec, name, roles))
    decreases |roles|
  {
    if roles != [] {
      MembersKeyed(cfg, s, spec, name, roles[..|roles| - 1]);
      MemberKeyed(cfg, EnsureMembers(cfg, s, spec, name, roles[..|roles| - 1]), spec, name, roles[|roles| - 1]);
    }
  }

  lemma MemberKeyed(cfg: Config, s: Store, spec: Spec, name: string, role: Role)
    requires Keyed(s)
    ensures Keyed(EnsureMember(cfg, s, spec, name, role))
  {
    assert NewMember(cfg, spec, name, role).Id() == MemberKey(spec, name, role);
  }

  lemma OneKeyed(cfg: Config, s: Store, spec: Spec, name: string)
    requires Keyed(s)
    ensures Keyed(EnsureOne(cfg, s, spec, name))
  {
    assert Keyed(EnsureIam(cfg, s, spec, name));
    assert Keyed(EnsureAccount(cfg, EnsureIam(cfg, s, spec, name), spec, name));
    MembersKeyed(cfg, EnsureAccount(cfg, EnsureIam(cfg, s, spec, name), spec, name), spec, name, ROLES);
  }

  lemma {:induction false} EnsuredKeyed(cfg: Config, s: Store, spec: Spec, accounts: seq<Account>)
    requires Keyed(s)
    ensures Keyed(EnsureAccounts(cfg, s, spec, accounts))
    decreases |accounts|
  {
    if accounts != [] {
      var n := |accounts| - 1;
      EnsuredKeyed(cfg, s, spec, accounts[..n]);
      OneKeyed(cfg, EnsureAccounts(cfg, s, spec, accounts[..n]), spec, accounts[n].name);
    }
  }

  /** No account of the team that is about to leave goes by the same Google name. */
  ghost predicate GoogleNameFree(cfg: Config, s: Store, spec: Spec, name: string) {
    forall j :: j in s && Leaver(s[j], spec) ==> GoogleName(cfg, spec, s[j].name) != GoogleName(cfg, spec, name)
  }

  /** The key of an object that ensuring an account of that name writes. */
  ghost predicate KeyOf(cfg: Config, spec: Spec, name: string, k: Key) {
    k == IamKey(cfg, spec, name) || k == AccountKey(spec, name) || exists role :: k == MemberKey(spec, name, role)
  }

  lemma OneFrame(cfg: Config, s: Store, spec: Spec, name: string, k: Key)
    requires !KeyOf(cfg, spec, name, k)
    ensures k in EnsureOne(cfg, s, spec, name) <==> k in s
    ensures k in s ==> EnsureOne(cfg, s, spec, name)[k] == s[k]
  {
    var s2 := EnsureAccount(cfg, EnsureIam(cfg, s, spec, name), spec, name);
    assert MemberKey(spec, name, WorkloadIdentity) != k && MemberKey(spec, name, DataAdmin) != k;
    assert MemberKey(spec, name, DataViewer) != k && MemberKey(spec, name, RegistrationViewer) != k;
    MembersFrame(cfg, s2, spec, name, ROLES, k);
  }

  lemma {:induction false} MembersFrame(cfg: Config, s: Store, spec: Spec, name: string, roles: seq<Role>, k: Key)
    requires forall role :: k != MemberKey(spec, name, role)
    ensures k in EnsureMembers(cfg, s, spec, name, roles) <==> k in s
    ensures k in s ==> EnsureMembers(cfg, s, spec, name, roles)[k] == s[k]
    decreases |roles|
  {
    if roles != [] { MembersFrame(cfg, s, spec, name, roles[..|roles| - 1], k); }
  }

  /** Ensuring touches nothing but what goes by the name of one of the accounts. */
  lemma {:induction false} EnsuredFrame(cfg: Config, s: Store, spec: Spec, accounts: seq<Account>, k: Key)
    requires forall a :: a in accounts ==> !KeyOf(cfg, spec, a.name, k)
    ensures k in EnsureAccounts(cfg, s, spec, accounts) <==> k in s
    ensures k in s ==> EnsureAccounts(cfg, s, spec, accounts)[k] == s[k]
    decreases |accounts|
  {
    if accounts != [] {
      var n := |accounts| - 1;
      EnsuredFrame(cfg, s, spec, accounts[..n], k);
      assert accounts[n] in accounts;
      OneFrame(cfg, EnsureAccounts(cfg, s, spec, accounts[..n]), spec, accounts[n].name, k);
    }
  }

  lemma UnnamedFrame(cfg: Config, s: Store, spec: Spec, k: Key)
    requires k.kind == ServiceAccounts && !Named(spec.accounts, k.name)
    ensures var s0 := EnsureAccounts(cfg, s, spec, spec.accounts); (k in s0 <==> k in s) && (k in s ==> s0[k] == s[k])
  {
    forall a | a in spec.accounts ensures !KeyOf(cfg, spec, a.name, k) {
      var i :| 0 <= i < |spec.accounts| && spec.accounts[i] == a;
    }
    EnsuredFrame(cfg, s, spec, spec.accounts, k);
  }

  /** Ensuring makes no account leave and keeps none from leaving. */
  lemma LeaversStay(cfg: Config, s: Store, spec: Spec, j: Key)
    requires Keyed(s)
    ensures var s0 := EnsureAccounts(cfg, s, spec, spec.accounts);
      (j in s && Leaver(s[j], spec) <==> j in s0 && Leaver(s0[j], spec)) && (j in s && Leaver(s[j], spec) ==> s0[j] == s[j])
  {
    EnsuredKeyed(cfg, s, spec, spec.accounts);
    if j.kind == ServiceAccounts && !Named(spec.accounts, j.name) {
      UnnamedFrame(cfg, s, spec, j);
    } else {
      NoLeaverAt(s, spec, j);
      NoLeaverAt(EnsureAccounts(cfg, s, spec, spec.accounts), spec, j);
    }
  }

  lemma NoLeaverAt(s: Store, spec: Spec, j: Key)
    requires Keyed(s) && (j.kind != ServiceAccounts || Named(spec.accounts, j.name))
    ensures !(j in s && Leaver(s[j], spec))
  {
    if j in s { assert s[j].Id() == j; }
  }

  /** The IAM account is marked with the team and with its Google project. */
  ghost predicate IamWritten(cfg: Config, spec: Spec, o: Object) {
    && o.IamServiceAccount? && OwnedBy(o.meta, spec.project, spec.domain)
    && Carries(o.meta.annotations, "cnrm.cloud.google.com/project-id", cfg.gcpProject)
  }

  /** After a successful pass the labelled service accounts of the team are exactly the
      specification's, each with all four members. Its IAM account is missing exactly when
      before the pass a dropped account went by the same Google name. */
  lemma AccountsExact(cfg: Config, s: Store, spec: Spec)
    requires Keyed(s)
    ensures var s' := AccountPass(cfg, s, spec);
      && NoLeavers(s', spec)
      && (forall name :: Named(spec.accounts, name) ==>
            && AccountReady(s', spec, name)
            && Carries(s'[AccountKey(spec, name)].meta.annotations, "iam.gke.io/gcp-service-account",
                       Email(cfg, spec.project, spec.domain, name))
            && (IamKey(cfg, spec, name) in s' <==> GoogleNameFree(cfg, s, spec, name))
            && (IamKey(cfg, spec, name) in s' ==> IamWritten(cfg, spec, s'[IamKey(cfg, spec, name)])))
  {
    var s0 := EnsureAccounts(cfg, s, spec, spec.accounts);
    forall name ensures GoogleNameFree(cfg, s0, spec, name) <==> GoogleNameFree(cfg, s, spec, name) {
      forall j ensures j in s && Leaver(s[j], spec) <==> j in s0 && Leaver(s0[j], spec) { LeaversStay(cfg, s, spec, j); }
      forall j | j in s && Leaver(s[j], spec) ensures s0[j] == s[j] { LeaversStay(cfg, s, spec, j); }
    }
    EnsuredKeyed(cfg, s, spec, spec.accounts);
    AccountsSettle(cfg, s, spec, spec.accounts);
    CleanLeavesNone(cfg, s0, spec);
    forall name | Named(spec.accounts, name)
      ensures AccountReady(CleanAccounts(cfg, s0, spec), spec, name)
      ensures Carries(CleanAccounts(cfg, s0, spec)[AccountKey(spec, name)].meta.annotations, EMAIL_ANNOTATION,
                      Email(cfg, spec.project, spec.domain, name))
      ensures IamKey(cfg, spec, name) in CleanAccounts(cfg, s0, spec) <==> GoogleNameFree(cfg, s0, spec, name)
      ensures IamKey(cfg, spec, name) in CleanAccounts(cfg, s0, spec) ==>
        IamWritten(cfg, spec, CleanAccounts(cfg, s0, spec)[IamKey(cfg, spec, name)])
    {
      NamedPresent(cfg, s0, spec, name);
      IamPresent(cfg, s0, spec, name);
    }
  }

  lemma NamedPresent(cfg: Config, s: Store, spec: Spec, name: string)
    requires Named(spec.accounts, name) && AllSettled(cfg, s, spec, spec.accounts)
    ensures AccountSettled(cfg, s, spec, name) && IamWritten(cfg, spec, s[IamKey(cfg, spec, name)])
    ensures var s' := CleanAccounts(cfg, s, spec);
      && AccountReady(s', spec, name)
      && Carries(s'[AccountKey(spec, name)].meta.annotations, EMAIL_ANNOTATION, Email(cfg, spec.project, spec.domain, name))
  {
    var i := NamedAt(spec, name);
    EmailWritten(cfg, spec, name);
    MetadataIdempotent(s[IamKey(cfg, spec, name)].meta, spec, map[PROJECT_ANNOTATION := cfg.gcpProject]);
    assert AccountSettled(cfg, s, spec, spec.accounts[i].name);
    var k := AccountKey(spec, name);
    MetadataIdempotent(s[k].meta, spec, map[EMAIL_ANNOTATION := GoogleEmail(cfg, spec, name)]);
    forall role: Role ensures MemberKey(spec, name, role) in CleanAccounts(cfg, s, spec) {
      NamedStays(cfg, s, spec, name, role);
    }
    NamedStays(cfg, s, spec, name, WorkloadIdentity);
  }

  lemma IamPresent(cfg: Config, s: Store, spec: Spec, name: string)
    requires IamKey(cfg, spec, name) in s
    ensures IamKey(cfg, spec, name) in CleanAccounts(cfg, s, spec) <==> GoogleNameFree(cfg, s, spec, name)
  {
    var k := IamKey(cfg, spec, name);
    forall j | j in s && Leaver(s[j], spec)
      ensures k in KeysOf(cfg, spec, s[j]) <==> GoogleName(cfg, spec, s[j].name) == GoogleName(cfg, spec, name)
    {
    }
  }

  /** No service account in the team's namespace is labelled with another team. */
  ghost predicate OwnNamespace(s: Store, spec: Spec) {
    forall k: Key, project, domain :: k.namespace == Namespace(spec.project, spec.domain) && Findable(s, k, project, domain) ==>
      project == spec.project && domain == spec.domain
  }

  /** What the index is for: after a successful pass no member that the cleanup knows of is
      left over in the team's namespace, whatever reconciles failed before. */
  lemma NoMemberForgotten(cfg: Config, s: Store, spec: Spec, name: string, role: Role)
    requires Keyed(s) && Indexed(s) && OwnNamespace(s, spec)
    requires role != DataViewer && MemberKey(spec, name, role) in AccountPass(cfg, s, spec)
    ensures Named(spec.accounts, name)
  {
    if !Named(spec.accounts, name) {
      EnsuredKeyed(cfg, s, spec, spec.accounts);
      OldMember(cfg, s, spec, name, role);
      IndexLeaves(s, spec, name, role);
      LeaversStay(cfg, s, spec, AccountKey(spec, name));
      LeaverTakes(cfg, EnsureAccounts(cfg, s, spec, spec.accounts), spec, name, role);
    }
  }

  /** Ensuring creates no member for an account that is not listed. */
  lemma OldMember(cfg: Config, s: Store, spec: Spec, name: string, role: Role)
    requires !Named(spec.accounts, name) && MemberKey(spec, name, role) in EnsureAccounts(cfg, s, spec, spec.accounts)
    ensures MemberKey(spec, name, role) in s
  {
    var k := MemberKey(spec, name, role);
    forall other: Account | other in spec.accounts ensures !KeyOf(cfg, spec, other.name, k) {
      var i :| 0 <= i < |spec.accounts| && spec.accounts[i] == other;
      if q :| k == MemberKey(spec, other.name, q) { Names.MemberNameInjective(name, role, other.name, q); }
    }
    EnsuredFrame(cfg, s, spec, spec.accounts, k);
  }

  lemma IndexLeaves(s: Store, spec: Spec, name: string, role: Role)
    requires Keyed(s) && Indexed(s) && OwnNamespace(s, spec) && !Named(spec.accounts, name)
    requires role != DataViewer && MemberKey(spec, name, role) in s
    ensures var a := AccountKey(spec, name); a in s && Leaver(s[a], spec)
  {
    var a := AccountKey(spec, name);
    assert MemberAt(a.namespace, name, role) in s;
    var project, domain :| Findable(s, a, project, domain);
    assert s[a].Id() == a;
  }

  lemma LeaverTakes(cfg: Config, s: Store, spec: Spec, name: string, role: Role)
    requires Keyed(s) && role != DataViewer
    requires var a := AccountKey(spec, name); a in s && Leaver(s[a], spec)
    ensures MemberKey(spec, name, role) !in CleanAccounts(cfg, s, spec)
  {
    var a := AccountKey(spec, name);
    assert s[a].Id() == a;
    RolesExact(role);
    assert MemberKey(spec, name, role) in KeysOf(cfg, spec, s[a]);
  }

  /** After a pass the service account part is ready for the egress part to begin. */
  lemma PassReady(cfg: Config, s: Store, spec: Spec)
    requires Keyed(s)
    ensures AccountsReady(AccountsDone(cfg, s, spec), spec)
  {
    AccountsExact(cfg, s, spec);
    NoLeaversIdle(cfg, AccountPass(cfg, s, spec), spec);
  }

  // ---- What the members grant ------------------------------------------------------

  lemma {:induction false} NewMembers(cfg: Config, s: Store, spec: Spec, name: string, roles: seq<Role>, role: Role)
    requires MemberKey(spec, name, role) !in s
    ensures var s', k := EnsureMembers(cfg, s, spec, name, roles), MemberKey(spec, name, role);
      k in s' ==> s'[k] == NewMember(cfg, spec, name, role)
    decreases |roles|
  {
    if roles != [] {
      NewMembers(cfg, s, spec, name, roles[..|roles| - 1], role);
      var q := roles[|roles| - 1];
      if MemberKey(spec, name, q) == MemberKey(spec, name, role) { Names.MemberNameInjective(name, q, name, role); }
    }
  }

  lemma OneNewMember(cfg: Config, s: Store, spec: Spec, other: string, name: string, role: Role)
    requires var k := MemberKey(spec, name, role); k !in s || s[k] == NewMember(cfg, spec, name, role)
    ensures var s', k := EnsureOne(cfg, s, spec, other), MemberKey(spec, name, role);
      k in s' ==> s'[k] == NewMember(cfg, spec, name, role)
  {
    var k, s2 := MemberKey(spec, name, role), EnsureAccount(cfg, EnsureIam(cfg, s, spec, other), spec, other);
    MembersMade(cfg, s2, spec, other, ROLES);
    if k !in s {
      if other == name {
        NewMembers(cfg, s2, spec, name, ROLES, role);
      } else {
        forall q: Role ensures k != MemberKey(spec, other, q) {
          if k == MemberKey(spec, other, q) { Names.MemberNameInjective(name, role, other, q); }
        }
        MembersFrame(cfg, s2, spec, other, ROLES, k);
      }
    }
  }

  lemma {:induction false} AllNewMembers(cfg: Config, s: Store, spec: Spec, accounts: seq<Account>, name: string, role: Role)
    requires MemberKey(spec, name, role) !in s
    ensures var s', k := EnsureAccounts(cfg, s, spec, accounts), MemberKey(spec, name, role);
      k in s' ==> s'[k] == NewMember(cfg, spec, name, role)
    decreases |accounts|
  {
    if accounts != [] {
      var n := |accounts| - 1;
      AllNewMembers(cfg, s, spec, accounts[..n], name, role);
      OneNewMember(cfg, EnsureAccounts(cfg, s, spec, accounts[..n]), spec, accounts[n].name, name, role);
    }
  }

  /** After a pass each member of a listed account that was not there before grants what its
      kind calls for, and the workload identity binds the service account to the Google
      account that its annotation names. */
  lemma NewMembersGrant(cfg: Config, s: Store, spec: Spec, name: string, role: Role)
    requires Keyed(s) && Named(spec.accounts, name) && MemberKey(spec, name, role) !in s
    ensures var s', k := AccountPass(cfg, s, spec), MemberKey(spec, name, role);
      && k in s' && Grants(cfg, spec.project, spec.domain, name, role, s'[k])
      && AccountReady(s', spec, name)
      && (role == WorkloadIdentity ==>
            var a := AccountKey(spec, name);
            && EMAIL_ANNOTATION in s'[a].meta.annotations
            && s'[k].resource == "projects/" + cfg.gcpProject + "/serviceAccounts/" + s'[a].meta.annotations[EMAIL_ANNOTATION]
            && s'[k].member == "serviceAccount:" + cfg.gcpProject + ".svc.id.goog[" + a.namespace + "/" + a.name + "]")
  {
    var s' := AccountPass(cfg, s, spec);
    NewMemberStands(cfg, s, spec, name, role);
    MemberWritten(cfg, spec, name, role);
    if role == WorkloadIdentity { WorkloadBinds(cfg, spec, name, s'[AccountKey(spec, name)], s'[MemberKey(spec, name, role)]); }
  }

  lemma NewMemberStands(cfg: Config, s: Store, spec: Spec, name: string, role: Role)
    requires Keyed(s) && Named(spec.accounts, name) && MemberKey(spec, name, role) !in s
    ensures var s', k := AccountPass(cfg, s, spec), MemberKey(spec, name, role);
      && k in s' && s'[k] == NewMember(cfg, spec, name, role) && AccountReady(s', spec, name)
      && Carries(s'[AccountKey(spec, name)].meta.annotations, EMAIL_ANNOTATION, Email(cfg, spec.project, spec.domain, name))
  {
    AccountsExact(cfg, s, spec);
    assert AccountReady(AccountPass(cfg, s, spec), spec, name);
    AllNewMembers(cfg, s, spec, spec.accounts, name, role);
  }

  lemma WorkloadBinds(cfg: Config, spec: Spec, name: string, account: Object, member: Object)
    requires account.ServiceAccount? && member == NewMember(cfg, spec, name, WorkloadIdentity)
    requires Carries(account.meta.annotations, EMAIL_ANNOTATION, Email(cfg, spec.project, spec.domain, name))
    ensures var a := AccountKey(spec, name);
      && member.resource == "projects/" + cfg.gcpProject + "/serviceAccounts/" + account.meta.annotations[EMAIL_ANNOTATION]
      && member.member == "serviceAccount:" + cfg.gcpProject + ".svc.id.goog[" + a.namespace + "/" + a.name + "]"
  {
    EmailWritten(cfg, spec, name);
  }

  /** In every safe world whoever may write to a bucket is a service account of the operator
      that stands, labelled so that the cleanup will find it. What the cleanup leaves behind
      never is a right to write. */
  lemma WritersStand(cfg: Config, w: World, k: Key)
    requires Safe(cfg, w) && k in w.objects && w.objects[k].IamPolicyMember?
    requires w.objects[k].role == "roles/storage.objectAdmin"
    ensures exists project, domain, name ::
      && k == MemberAt(project + "-" + domain, name, DataAdmin)
      && w.objects[k].resource == cfg.dataBucket && w.objects[k].member == "serviceAccount:" + Email(cfg, project, domain, name)
      && exists p, d :: Findable(w.objects, Key(ServiceAccounts, k.namespace, name), p, d)
  {
    var o := w.objects[k];
    assert o.Id() == k;
    var project, domain, name :| MemberOf(cfg, o, project, domain, name);
    var role :| Grants(cfg, project, domain, name, role, o);
    OneWriter(cfg, project, domain, name, role, o);
    assert k == MemberAt(project + "-" + domain, name, DataAdmin);
  }

  lemma ViewerReads(cfg: Config, w: World, namespace: string, name: string)
    requires Safe(cfg, w) && MemberAt(namespace, name, DataViewer) in w.objects
    ensures w.objects[MemberAt(namespace, name, DataViewer)].IamPolicyMember?
    ensures w.objects[MemberAt(namespace, name, DataViewer)].role == "roles/storage.bucketViewer"
  {
    var k := MemberAt(namespace, name, DataViewer);
    var o := w.objects[k];
    assert o.Id() == k;
    var project, domain, other :| MemberOf(cfg, o, project, domain, other);
    var role :| Grants(cfg, project, domain, other, role, o);
    GrantsSuffix(cfg, project, domain, other, role, o);
    Names.MemberNameInjective(name, DataViewer, other, role);
  }

  lemma GrantsSuffix(cfg: Config, project: string, domain: string, name: string, role: Role, o: Object)
    requires Grants(cfg, project, domain, name, role, o)
    ensures o.name == name + Suffix(role)
  {
  }

  /** Cleaning an account up leaves its data bucket viewer behind. */
  lemma ViewerStays(cfg: Config, s: Store, spec: Spec, name: string)
    requires MemberKey(spec, name, DataViewer) in s
    ensures MemberKey(spec, name, DataViewer) in CleanAccounts(cfg, s, spec)
  {
    forall j | j in s && Leaver(s[j], spec) ensures MemberKey(spec, name, DataViewer) !in KeysOf(cfg, spec, s[j]) {
      forall q | q in CLEANED_ROLES ensures MemberKey(spec, s[j].name, q) != MemberKey(spec, name, DataViewer) {
        if s[j].name + Suffix(q) == name + Suffix(DataViewer) { Names.MemberNameInjective(s[j].name, q, name, DataViewer); }
      }
    }
  }

  /** Where no account of the team leaves, a second pass changes nothing. */
  lemma AccountPassIdle(cfg: Config, s: Store, spec: Spec)
    requires AllSettled(cfg, s, spec, spec.accounts) && NoLeavers(s, spec)
    ensures CleanAccounts(cfg, AccountPass(cfg, s, spec), spec) == s
  {
    AccountsIdle(cfg, s, spec, spec.accounts);
    NoLeaversIdle(cfg, s, spec);
  }

  lemma {:induction false} NoLeaversEnsured(cfg: Config, s: Store, spec: Spec, accounts: seq<Account>)
    requires NoLeavers(s, spec) && forall a :: a in accounts ==> Named(spec.accounts, a.name)
    ensures NoLeavers(EnsureAccounts(cfg, s, spec, accounts), spec)
    decreases |accounts|
  {
    if accounts != [] {
      var n := |accounts| - 1;
      assert accounts[n] in accounts;
      NoLeaversEnsured(cfg, s, spec, accounts[..n]);
      var s1, name := EnsureAccounts(cfg, s, spec, accounts[..n]), accounts[n].name;
      OneNoLeavers(cfg, s1, spec, name);
    }
  }

  lemma {:induction false} MembersNoLeavers(cfg: Config, s: Store, spec: Spec, name: string, roles: seq<Role>)
    requires NoLeavers(s, spec)
    ensures NoLeavers(EnsureMembers(cfg, s, spec, name, roles), spec)
    decreases |roles|
  {
    if roles != [] { MembersNoLeavers(cfg, s, spec, name, roles[..|roles| - 1]); }
  }

  lemma OneNoLeavers(cfg: Config, s: Store, spec: Spec, name: string)
    requires NoLeavers(s, spec) && Named(spec.accounts, name)
    ensures NoLeavers(EnsureOne(cfg, s, spec, name), spec)
  {
    assert NoLeavers(EnsureIam(cfg, s, spec, name), spec);
    assert NoLeavers(EnsureAccount(cfg, EnsureIam(cfg, s, spec, name), spec, name), spec);
    MembersNoLeavers(cfg, EnsureAccount(cfg, EnsureIam(cfg, s, spec, name), spec, name), spec, name, ROLES);
  }

  /** Starting without leavers, one pass settles every account. */
  lemma SecondPassSettles(cfg: Config, s: Store, spec: Spec)
    requires NoLeavers(s, spec)
    ensures var s' := CleanAccounts(cfg, AccountPass(cfg, s, spec), spec);
      AllSettled(cfg, s', spec, spec.accounts) && NoLeavers(s', spec)
  {
    AccountsSettle(cfg, s, spec, spec.accounts);
    assert forall a :: a in spec.accounts ==> Named(spec.accounts, a.name);
    NoLeaversEnsured(cfg, s, spec, spec.accounts);
    NoLeaversIdle(cfg, EnsureAccounts(cfg, s, spec, spec.accounts), spec);
  }
}
