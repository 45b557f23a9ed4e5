/** What the service account part of a reconcile does to the objects when no call fails. */
module AccountSpec {
  import opened Wrappers
  import opened Resources
  import opened Protocol
  import opened EgressSpec

  ghost function EnsureIam(cfg: Config, s: Store, spec: Spec, name: string): Store {
    var k := IamKey(cfg, spec, name);
    s[k := NewIamAccount(cfg, spec, name, if k in s && s[k].IamServiceAccount? then s[k].meta else NO_METADATA)]
  }

  ghost function EnsureAccount(cfg: Config, s: Store, spec: Spec, name: string): Store {
    var k := AccountKey(spec, name);
    s[k := NewServiceAccount(cfg, spec, name, if k in s && s[k].ServiceAccount? then s[k].meta else NO_METADATA)]
  }

  ghost function EnsureMember(cfg: Config, s: Store, spec: Spec, name: string, role: Role): Store {
    if MemberKey(spec, name, role) in s then s
    else s[MemberKey(spec, name, role) := NewMember(cfg, spec, name, role)]
  }

  ghost function EnsureMembers(cfg: Config, s: Store, spec: Spec, name: string, roles: seq<Role>): Store {
    if roles == [] then s
    else EnsureMember(cfg, EnsureMembers(cfg, s, spec, name, roles[..|roles| - 1]), spec, name, roles[|roles| - 1])
  }

  ghost function EnsureOne(cfg: Config, s: Store, spec: Spec, name: string): Store {
    EnsureMembers(cfg, EnsureAccount(cfg, EnsureIam(cfg, s, spec, name), spec, name), spec, name, ROLES)
  }

  ghost function EnsureAccounts(cfg: Config, s: Store, spec: Spec, accounts: seq<Account>): Store {
    if accounts == [] then s
    else EnsureOne(cfg, EnsureAccounts(cfg, s, spec, accounts[..|accounts| - 1]), spec, accounts[|accounts| - 1].name)
  }

  /** The IAM objects that are deleted with an account: the data bucket viewer is not. */
  ghost function IamKeys(cfg: Config, spec: Spec, name: string): set<Key> {
    {IamKey(cfg, spec, name)} + (set role | role in CLEANED_ROLES :: MemberKey(spec, name, role))
  }

  ghost function KeysOf(cfg: Config, spec: Spec, o: Object): set<Key> {
    IamKeys(cfg, spec, o.name) + {o.Id()}
  }

  ghost predicate Leaves(cfg: Config, s: Store, spec: Spec, k: Key) {
    exists j :: j in s && Leaver(s[j], spec) && k in KeysOf(cfg, spec, s[j])
  }

  ghost function CleanAccounts(cfg: Config, s: Store, spec: Spec): Store {
    map k | k in s && !Leaves(cfg, s, spec, k) :: s[k]
  }

  /** `CreateOrUpdateServiceAccounts`, which ends with a cleanup of its own. */
  ghost function AccountPass(cfg: Config, s: Store, spec: Spec): Store {
    CleanAccounts(cfg, EnsureAccounts(cfg, s, spec, spec.accounts), spec)
  }

  /** The whole service account part: the cleanup runs a second time. */
  ghost function AccountsDone(cfg: Config, s: Store, spec: Spec): Store {
    CleanAccounts(cfg, AccountPass(cfg, s, spec), spec)
  }

  /** What one successful reconcile of a live resource does to the objects. */
  ghost function ObjectsPass(cfg: Config, s: Store, spec: Spec, specs: set<Spec>): Option<Store> {
    EgressPass(cfg, AccountsDone(cfg, s, spec), spec, specs)
  }
}
