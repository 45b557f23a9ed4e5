/** The service account reconciler. The labelled Kubernetes service account is created
    before its policy members and deleted after them. */
module AccountReconciler {
  import opened Wrappers
  import opened Resources
  import opened Protocol
  import opened Safety
  import opened ApiServer
  import opened EgressReconciler
  import opened AccountSpec
  import opened EgressCleanup

  /** The operator worked on the accounts; the egress objects are as they were. */
  ghost predicate Accounted(a: Moment, b: Moment) {
    Worked(a, b) && SameEgress(a.world.objects, b.world.objects)
  }

  lemma AccountedOn(a: Moment, b: Moment, c: Moment)
    requires Accounted(a, b) && Accounted(b, c)
    ensures Accounted(a, c)
  {
  }

  /** It only added, call by call, and stopped at the first that failed. */
  ghost predicate Founded(a: Moment, b: Moment, ok: bool) {
    Accounted(a, b) && FailsFast(a, b, ok) && a.world.objects.Keys <= b.world.objects.Keys
  }

  lemma FoundedOn(a: Moment, b: Moment, c: Moment, ok: bool)
    requires Founded(a, b, true) && Founded(b, c, ok)
    ensures Founded(a, c, ok)
  {
    AccountedOn(a, b, c);
  }

  // ---- Creating --------------------------------------------------------------------

  method WriteObject(c: Cluster, call: Call) returns (r: Outcome)
    requires c.Valid() && !call.Delete? && Permitted(c.cfg, c.Known(), call) && AccountKind(call.item.Id().kind)
    modifies c
    ensures c.Valid() && Founded(old(c.Now()), c.Now(), !r.Failed?)
    ensures r.Done? ==> Some(c.world.objects) == Apply(old(c.world.objects), call)
    ensures r.Rejected? ==> Apply(old(c.world.objects), call) == None && c.world.objects == old(c.world.objects)
    ensures r.Failed? <==> c.faults != old(c.faults)
  {
    r := c.Submit(call);
  }

  lemma Writable(cfg: Config, m: Monitor, spec: Spec, name: string, o: Object)
    requires spec in m.view && Named(spec.accounts, name) && Keyed(m.world.objects)
    requires o == NewIamAccount(cfg, spec, name, NO_METADATA)
      || (o == NewServiceAccount(cfg, spec, name, NO_METADATA) && IamKey(cfg, spec, name) in m.world.objects)
    ensures AccountKind(o.Id().kind) && (o.Id() !in m.world.objects ==> Permitted(cfg, m, Create(o)))
  {
    assert MayWriteAccount(cfg, m, spec, name, NO_METADATA, o);
  }

  lemma Rewritable(cfg: Config, m: Monitor, spec: Spec, name: string, was: Object, o: Object)
    requires spec in m.view && Named(spec.accounts, name) && was.Id() in m.world.objects && m.world.objects[was.Id()] == was
    requires (was.IamServiceAccount? && o == NewIamAccount(cfg, spec, name, was.meta))
      || (was.ServiceAccount? && o == NewServiceAccount(cfg, spec, name, was.meta) && IamKey(cfg, spec, name) in m.world.objects)
    requires o.Id() == was.Id()
    ensures AccountKind(o.Id().kind) && Permitted(cfg, m, Update(o))
  {
    assert MayWriteAccount(cfg, m, spec, name, was.meta, o);
  }

  method ReconcileIamAccount(c: Cluster, spec: Spec, name: string) returns (ok: bool)
    requires c.Valid() && spec in c.view && Named(spec.accounts, name)
    modifies c
    ensures c.Valid() && Founded(old(c.Now()), c.Now(), ok)
    ensures ok ==> c.world.objects == EnsureIam(c.cfg, old(c.world.objects), spec, name)
    ensures c.faults == old(c.faults) ==> ok
  {
    c.SafeNow();
    var k := IamKey(c.cfg, spec, name);
    var r := c.Get(k);
    if r.Unreachable? { return false; }
    ghost var mid := c.Now();
    if r.Missing? {
      Writable(c.cfg, c.Known(), spec, name, NewIamAccount(c.cfg, spec, name, NO_METADATA));
      var created := WriteObject(c, Create(NewIamAccount(c.cfg, spec, name, NO_METADATA)));
      ok := !created.Failed?;
    } else {
      assert r.item.Id() == k;
      Rewritable(c.cfg, c.Known(), spec, name, r.item, NewIamAccount(c.cfg, spec, name, r.item.meta));
      var patched := WriteObject(c, Update(NewIamAccount(c.cfg, spec, name, r.item.meta)));
      ok := patched.Done?;
    }
    FoundedOn(old(c.Now()), mid, c.Now(), ok);
  }

  /** `controllerutil.CreateOrUpdate`: an object that would not change is not written. */
  method ReconcileServiceAccount(c: Cluster, spec: Spec, name: string) returns (ok: bool)
    requires c.Valid() && spec in c.view && Named(spec.accounts, name) && IamKey(c.cfg, spec, name) in c.world.objects
    modifies c
    ensures c.Valid() && Founded(old(c.Now()), c.Now(), ok)
    ensures ok ==> c.world.objects == EnsureAccount(c.cfg, old(c.world.objects), spec, name)
    ensures c.edits == old(c.edits) && EnsureAccount(c.cfg, old(c.world.objects), spec, name) == old(c.world.objects) ==>
      c.run == old(c.run)
    ensures c.faults == old(c.faults) ==> ok
  {
    c.SafeNow();
    var k := AccountKey(spec, name);
    var r := c.Get(k);
    if r.Unreachable? { return false; }
    ghost var mid := c.Now();
    if r.Missing? {
      Writable(c.cfg, c.Known(), spec, name, NewServiceAccount(c.cfg, spec, name, NO_METADATA));
      var created := WriteObject(c, Create(NewServiceAccount(c.cfg, spec, name, NO_METADATA)));
      ok := created.Done?;
    } else {
      assert r.item.Id() == k;
      var wanted := NewServiceAccount(c.cfg, spec, name, r.item.meta);
      ok := true;
      if wanted != r.item {
        Rewritable(c.cfg, c.Known(), spec, name, r.item, wanted);
        var updated := WriteObject(c, Update(wanted));
        ok := updated.Done?;
      }
    }
    FoundedOn(old(c.Now()), mid, c.Now(), ok);
  }

  lemma MemberCreatable(cfg: Config, m: Monitor, spec: Spec, name: string, role: Role)
    requires spec in m.view && Named(spec.accounts, name) && Labelled(m.world.objects, spec, name)
    ensures Permitted(cfg, m, Create(NewMember(cfg, spec, name, role)))
    ensures NewMember(cfg, spec, name, role).Id() == MemberKey(spec, name, role)
  {
    assert MayCreateMember(cfg, m, spec, name, role, NewMember(cfg, spec, name, role));
  }

  method CreateMember(c: Cluster, spec: Spec, name: string, role: Role) returns (ok: bool)
    requires c.Valid() && spec in c.view && Named(spec.accounts, name) && Labelled(c.world.objects, spec, name)
    modifies c
    ensures c.Valid() && Founded(old(c.Now()), c.Now(), ok)
    ensures ok ==> c.world.objects == EnsureMember(c.cfg, old(c.world.objects), spec, name, role)
    ensures c.edits == old(c.edits) && MemberKey(spec, name, role) in old(c.world.objects) ==> c.run == old(c.run)
    ensures c.faults == old(c.faults) ==> ok
  {
    var r := c.Get(MemberKey(spec, name, role));
    ok := !r.Unreachable?;
    if r.Missing? {
      ghost var mid := c.Now();
      MemberCreatable(c.cfg, c.Known(), spec, name, role);
      var created := WriteObject(c, Create(NewMember(c.cfg, spec, name, role)));
      ok := !created.Failed?;
      FoundedOn(old(c.Now()), mid, c.Now(), ok);
    }
  }

  lemma MembersNext(cfg: Config, s: Store, spec: Spec, name: string, roles: seq<Role>, i: nat)
    requires i < |roles|
    ensures EnsureMembers(cfg, s, spec, name, roles[..i + 1]) ==
      EnsureMember(cfg, EnsureMembers(cfg, s, spec, name, roles[..i]), spec, name, roles[i])
  {
    assert roles[..i + 1][..i] == roles[..i];
  }

  method CreateMembers(c: Cluster, spec: Spec, name: string) returns (ok: bool)
    requires c.Valid() && spec in c.view && Named(spec.accounts, name) && Labelled(c.world.objects, spec, name)
    modifies c
    ensures c.Valid() && Founded(old(c.Now()), c.Now(), ok)
    ensures ok ==> c.world.objects == EnsureMembers(c.cfg, old(c.world.objects), spec, name, ROLES)
    ensures c.faults == old(c.faults) ==> ok
  {
    ghost var m0, s := c.Now(), c.world.objects;
    for i := 0 to |ROLES|
      invariant c.Valid() && Founded(m0, c.Now(), true)
      invariant c.world.objects == EnsureMembers(c.cfg, s, spec, name, ROLES[..i])
      invariant Labelled(c.world.objects, spec, name)
    {
      ghost var m1 := c.Now();
      ok := CreateMember(c, spec, name, ROLES[i]);
      FoundedOn(m0, m1, c.Now(), ok);
      if !ok { return; }
      MembersNext(c.cfg, s, spec, name, ROLES, i);
    }
    assert ROLES[..|ROLES|] == ROLES;
    ok := true;
  }

  method ReconcileOne(c: Cluster, spec: Spec, name: string) returns (ok: bool)
    requires c.Valid() && spec in c.view && Named(spec.accounts, name)
    modifies c
    ensures c.Valid() && Founded(old(c.Now()), c.Now(), ok)
    ensures ok ==> c.world.objects == EnsureOne(c.cfg, old(c.world.objects), spec, name)
    ensures c.faults == old(c.faults) ==> ok
  {
    ghost var m0 := c.Now();
    ok := ReconcileIamAccount(c, spec, name);
    if !ok { return; }
    ghost var m1 := c.Now();
    ok := ReconcileServiceAccount(c, spec, name);
    FoundedOn(m0, m1, c.Now(), ok);
    if !ok { return; }
    ghost var m2 := c.Now();
    ok := CreateMembers(c, spec, name);
    FoundedOn(m0, m2, c.Now(), ok);
  }

  // ---- Cleaning --------------------------------------------------------------------

  method DeleteKey(c: Cluster, k: Key) returns (r: Outcome)
    requires c.Valid() && Permitted(c.cfg, c.Known(), Delete(k)) && AccountKind(k.kind) && k in c.world.objects
    modifies c
    ensures c.Valid() && Accounted(old(c.Now()), c.Now()) && !r.Rejected?
    ensures r.Done? ==> c.world.objects == old(c.world.objects) - {k}
    ensures c.world.objects == old(c.world.objects) || c.world.objects == old(c.world.objects) - {k}
    ensures (!r.Failed? <==> c.faults == old(c.faults)) && c.faults <= old(c.faults) + 1
  {
    r := c.Submit(Delete(k));
  }

  /** Looks an IAM object of a leaving account up and deletes it. */
  method DeleteIam(c: Cluster, spec: Spec, name: string, k: Key, strict: bool) returns (ok: bool)
    requires c.Valid() && Leaving(c.Known(), spec, name) && k in IamKeys(c.cfg, spec, name)
    modifies c
    ensures c.Valid() && Accounted(old(c.Now()), c.Now())
    ensures Deleted(old(c.world.objects), c.world.objects, {k}, ok) && Bounded(old(c.Now()), c.Now(), {k})
    ensures ok <==> c.faults == old(c.faults)
  {
    c.SafeNow();
    var r := c.Get(k);
    ok := !r.Unreachable?;
    if r.Found? {
      ghost var mid := c.Now();
      MayTake(c.cfg, c.Known(), spec, name, k, r.item);
      var deleted := DeleteKey(c, k);
      ok := deleted.Done? || (deleted.Rejected? && !strict);
      AccountedOn(old(c.Now()), mid, c.Now());
    }
    OneDeleted(old(c.Now()), c.Now(), k, ok);
  }

  lemma OneDeleted(a: Moment, b: Moment, k: Key, ok: bool)
    requires b.world.objects == a.world.objects - {k} || (b.world.objects == a.world.objects && (!ok || k !in a.world.objects))
    requires a.faults <= b.faults && (!ok ==> a.faults < b.faults)
    ensures Deleted(a.world.objects, b.world.objects, {k}, ok) && Bounded(a, b, {k})
  {
    OneKey(b.world.objects, k);
  }

  lemma MayTake(cfg: Config, m: Monitor, spec: Spec, name: string, k: Key, o: Object)
    requires Leaving(m, spec, name) && k in IamKeys(cfg, spec, name) && Keyed(m.world.objects)
    requires k in m.world.objects && m.world.objects[k] == o
    ensures Permitted(cfg, m, Delete(k)) && AccountKind(k.kind)
  {
    assert o.Id() == k;
    assert MayDeleteAccount(cfg, m, spec, name, k);
  }

  lemma OneKey(s: Store, k: Key)
    ensures {k} * s.Keys == if k in s then {k} else {}
  {
  }

  lemma IamsGone(cfg: Config, s: Store, spec: Spec, name: string)
    requires IamKeys(cfg, spec, name) * s.Keys == {}
    ensures MembersGone(cfg, s, spec, name)
  {
    forall k | k in IamKeys(cfg, spec, name) ensures k !in s {
      assert k !in IamKeys(cfg, spec, name) * s.Keys;
    }
    forall role: Role | role != DataViewer ensures MemberKey(spec, name, role) !in s {
      RolesExact(role);
      assert MemberKey(spec, name, role) in IamKeys(cfg, spec, name);
    }
  }

  lemma DeletedTwice(a: Store, b: Store, c: Store, gone: set<Key>, more: set<Key>, ok: bool, done: bool)
    requires Deleted(a, b, gone, ok) && Deleted(b, c, more, done)
    ensures Deleted(a, c, gone + more, ok && done)
  {
  }

  lemma StillLeaving(a: Moment, b: Moment, spec: Spec, name: string, gone: set<Key>, ok: bool)
    requires Leaving(a.Known(), spec, name) && Accounted(a, b)
    requires Deleted(a.world.objects, b.world.objects, gone, ok) && AccountKey(spec, name) !in gone
    ensures Leaving(b.Known(), spec, name)
  {
  }

  ghost function MemberKeys(spec: Spec, name: string, roles: seq<Role>): set<Key> {
    set role | role in roles :: MemberKey(spec, name, role)
  }

  lemma MembersStep(a: Store, b: Store, c: Store, spec: Spec, name: string, roles: seq<Role>, i: nat, ok: bool, done: bool)
    requires i < |roles|
    requires Deleted(a, b, MemberKeys(spec, name, roles[..i]), ok) && Deleted(b, c, {MemberKey(spec, name, roles[i])}, done)
    ensures Deleted(a, c, MemberKeys(spec, name, roles[..i + 1]), ok && done)
  {
    DeletedTwice(a, b, c, MemberKeys(spec, name, roles[..i]), {MemberKey(spec, name, roles[i])}, ok, done);
    MemberKeysNext(spec, name, roles, i);
  }

  lemma MemberKeysNext(spec: Spec, name: string, roles: seq<Role>, i: nat)
    requires i < |roles|
    ensures MemberKeys(spec, name, roles[..i + 1]) == MemberKeys(spec, name, roles[..i]) + {MemberKey(spec, name, roles[i])}
  {
    assert roles[..i + 1] == roles[..i] + [roles[i]];
  }

  lemma OtherKind(spec: Spec, name: string, roles: seq<Role>)
    ensures AccountKey(spec, name) !in MemberKeys(spec, name, roles)
  {
  }

  /** The first i members were all tried. */
  ghost predicate MembersTried(a: Moment, b: Moment, spec: Spec, name: string, i: nat, ok: bool)
    requires i <= |CLEANED_ROLES|
  {
    var gone := MemberKeys(spec, name, CLEANED_ROLES[..i]);
    && Deleted(a.world.objects, b.world.objects, gone, ok) && Bounded(a, b, gone)
    && (ok <==> b.faults == a.faults) && a.faults <= b.faults
  }

  lemma NoneTried(a: Moment, spec: Spec, name: string)
    ensures MembersTried(a, a, spec, name, 0, true)
  {
    assert MemberKeys(spec, name, CLEANED_ROLES[..0]) == {};
  }

  lemma NextTried(a: Moment, b: Moment, c: Moment, spec: Spec, name: string, i: nat, ok: bool, done: bool)
    requires i < |CLEANED_ROLES| && MembersTried(a, b, spec, name, i, ok)
    requires var k := MemberKey(spec, name, CLEANED_ROLES[i]);
      Deleted(b.world.objects, c.world.objects, {k}, done) && Bounded(b, c, {k})
    requires (done <==> b.faults == c.faults) && b.faults <= c.faults
    ensures MembersTried(a, c, spec, name, i + 1, ok && done)
  {
    MembersStep(a.world.objects, b.world.objects, c.world.objects, spec, name, CLEANED_ROLES, i, ok, done);
    BoundedOn(a, b, c, MemberKeys(spec, name, CLEANED_ROLES[..i]), {MemberKey(spec, name, CLEANED_ROLES[i])});
    MemberKeysNext(spec, name, CLEANED_ROLES, i);
  }

  lemma StillTrying(a: Moment, b: Moment, spec: Spec, name: string, i: nat, ok: bool)
    requires i < |CLEANED_ROLES| && MembersTried(a, b, spec, name, i, ok)
    requires Leaving(a.Known(), spec, name) && Accounted(a, b)
    ensures Leaving(b.Known(), spec, name)
  {
    OtherKind(spec, name, CLEANED_ROLES[..i]);
    StillLeaving(a, b, spec, name, MemberKeys(spec, name, CLEANED_ROLES[..i]), ok);
  }

  /** Three of the four members; an error does not keep the next from being tried. */
  method CleanupMembers(c: Cluster, spec: Spec, name: string) returns (ok: bool)
    requires c.Valid() && Leaving(c.Known(), spec, name)
    modifies c
    ensures c.Valid() && Accounted(old(c.Now()), c.Now())
    ensures Deleted(old(c.world.objects), c.world.objects, MemberKeys(spec, name, CLEANED_ROLES), ok)
    ensures Bounded(old(c.Now()), c.Now(), MemberKeys(spec, name, CLEANED_ROLES))
    ensures ok <==> c.faults == old(c.faults)
  {
    ghost var m0 := c.Now();
    ok := true;
    NoneTried(m0, spec, name);
    for i := 0 to |CLEANED_ROLES|
      invariant c.Valid() && Accounted(m0, c.Now()) && MembersTried(m0, c.Now(), spec, name, i, ok)
    {
      ghost var m1 := c.Now();
      StillTrying(m0, m1, spec, name, i, ok);
      var done := DeleteIam(c, spec, name, MemberKey(spec, name, CLEANED_ROLES[i]), false);
      AccountedOn(m0, m1, c.Now());
      NextTried(m0, m1, c.Now(), spec, name, i, ok, done);
      ok := ok && done;
    }
    assert CLEANED_ROLES[..|CLEANED_ROLES|] == CLEANED_ROLES;
  }

  lemma WentAfter(s: Store, mid: Store, s': Store, gone: set<Key>, k: Key, cleaned: bool, ok: bool)
    requires Deleted(s, mid, gone, cleaned) && k !in gone && Deleted(mid, s', {k}, ok)
    ensures WentLast(s, mid, s', k)
  {
    if k in s' { assert s' == mid; } else { assert s' == mid - {k}; }
  }

  /** The object under the key went last: all else came to pass while it stood. */
  ghost predicate WentLast(s: Store, mid: Store, s': Store, k: Key) {
    (k in s <==> k in mid) && (s' == mid || s' == mid - {k})
  }

  ghost predicate LastOf(c: Cluster, n: nat, s: Store, k: Key)
    reads c
  {
    exists mid :: Passed(c.cfg, c.start, c.run, n, mid) && WentLast(s, mid, c.world.objects, k)
  }

  /** `cleanupServiceAccount`: the members first, the IAM account after, whether or not all
      members could be deleted. */
  method CleanupIam(c: Cluster, spec: Spec, name: string) returns (ok: bool)
    requires c.Valid() && Leaving(c.Known(), spec, name)
    modifies c
    ensures c.Valid() && Accounted(old(c.Now()), c.Now())
    ensures Deleted(old(c.world.objects), c.world.objects, IamKeys(c.cfg, spec, name), ok)
    ensures Bounded(old(c.Now()), c.Now(), IamKeys(c.cfg, spec, name))
    ensures LastOf(c, |old(c.run)|, old(c.world.objects), IamKey(c.cfg, spec, name))
    ensures ok <==> c.faults == old(c.faults)
  {
    ghost var m0 := c.Now();
    var cleaned := CleanupMembers(c, spec, name);
    ghost var m1, members := c.Now(), MemberKeys(spec, name, CLEANED_ROLES);
    StillLeaving(m0, m1, spec, name, members, cleaned);
    ok := DeleteIam(c, spec, name, IamKey(c.cfg, spec, name), true);
    AccountedOn(m0, m1, c.Now());
    PassedThen(c.cfg, c.start, m1, c.run, |m0.run|);
    WentAfter(m0.world.objects, m1.world.objects, c.world.objects, members, IamKey(c.cfg, spec, name), cleaned, ok);
    DeletedTwice(m0.world.objects, m1.world.objects, c.world.objects, members, {IamKey(c.cfg, spec, name)}, cleaned, ok);
    BoundedOn(m0, m1, c.Now(), members, {IamKey(c.cfg, spec, name)});
    assert IamKeys(c.cfg, spec, name) == members + {IamKey(c.cfg, spec, name)};
    ok := ok && cleaned;
  }

  lemma AccountGone(cfg: Config, m: Monitor, spec: Spec, o: Object)
    requires Leaving(m, spec, o.name) && Leaver(o, spec) && o.Id() == AccountKey(spec, o.name)
    requires MembersGone(cfg, m.world.objects, spec, o.name) && Keyed(m.world.objects)
    ensures Permitted(cfg, m, Delete(o.Id()))
  {
    assert MayDeleteAccount(cfg, m, spec, o.name, o.Id());
    assert m.world.objects[o.Id()].Id() == o.Id();
  }

  lemma RemovedBounds(a: Moment, b: Moment, c: Moment, gone: set<Key>, k: Key, ok: bool)
    requires Deleted(a.world.objects, b.world.objects, gone, true) && a.faults == b.faults && b.faults <= c.faults
    requires c.world.objects == b.world.objects - {k} || (c.world.objects == b.world.objects && c.faults > b.faults)
    ensures Bounded(a, c, gone) && Bounded(a, c, {k})
  {
    OneKey(c.world.objects, k);
    assert gone * c.world.objects.Keys == {};
  }

  /** One leaving account: its IAM objects and, only once they are gone, itself. */
  method RemoveAccount(c: Cluster, spec: Spec, o: Object) returns (ok: bool)
    requires c.Valid() && Leaver(o, spec) && o.Id() == AccountKey(spec, o.name)
    requires Leaving(c.Known(), spec, o.name)
    modifies c
    ensures c.Valid() && Accounted(old(c.Now()), c.Now())
    ensures Deleted(old(c.world.objects), c.world.objects, KeysOf(c.cfg, spec, o), ok)
    ensures Bounded(old(c.Now()), c.Now(), IamKeys(c.cfg, spec, o.name)) && Bounded(old(c.Now()), c.Now(), {o.Id()})
    ensures ok <==> c.faults == old(c.faults)
  {
    ghost var m0 := c.Now();
    ok := CleanupIam(c, spec, o.name);
    OneKey(c.world.objects, o.Id());
    if !ok { return; }
    ghost var m1 := c.Now();
    c.SafeNow();
    StillLeaving(m0, m1, spec, o.name, IamKeys(c.cfg, spec, o.name), ok);
    IamsGone(c.cfg, c.world.objects, spec, o.name);
    AccountGone(c.cfg, c.Known(), spec, o);
    var r := DeleteKey(c, o.Id());
    AccountedOn(m0, m1, c.Now());
    ok := !r.Failed?;
    DeletedTwice(m0.world.objects, m1.world.objects, c.world.objects, IamKeys(c.cfg, spec, o.name), {o.Id()}, true, ok);
    RemovedBounds(m0, m1, c.Now(), IamKeys(c.cfg, spec, o.name), o.Id(), ok);
  }

  /** `containsSA`. */
  method Contains(accounts: seq<Account>, name: string) returns (found: bool)
    ensures found == Named(accounts, name)
  {
    for i := 0 to |accounts|
      invariant !Named(accounts[..i], name)
    {
      if accounts[i].name == name { return true; }
      assert accounts[..i + 1] == accounts[..i] + [accounts[i]];
    }
    assert accounts[..|accounts|] == accounts;
    found := false;
  }

  ghost function GoneOf(cfg: Config, spec: Spec, items: seq<Object>): set<Key> {
    set o, k | o in items && Leaver(o, spec) && k in KeysOf(cfg, spec, o) :: k
  }

  lemma GoneOfStep(cfg: Config, spec: Spec, items: seq<Object>, i: nat)
    requires i < |items|
    ensures GoneOf(cfg, spec, items[..i + 1]) ==
      GoneOf(cfg, spec, items[..i]) + if Leaver(items[i], spec) then KeysOf(cfg, spec, items[i]) else {}
  {
    assert items[..i + 1] == items[..i] + [items[i]];
  }

  lemma OtherKeys(cfg: Config, spec: Spec, o: Object, p: Object)
    requires p.ServiceAccount? && o.Id() != p.Id()
    ensures p.Id() !in KeysOf(cfg, spec, o)
  {
  }

  /** The service account of a listed item outlives the cleanup of the items before it. */
  lemma ItemStays(cfg: Config, spec: Spec, items: seq<Object>, i: nat)
    requires i < |items| && Distinct(items) && forall o :: o in items ==> o.ServiceAccount?
    ensures items[i].Id() !in GoneOf(cfg, spec, items[..i])
  {
    forall j | 0 <= j < i ensures items[i].Id() !in KeysOf(cfg, spec, items[j]) {
      OtherKeys(cfg, spec, items[j], items[i]);
    }
    assert forall o :: o in items[..i] ==> exists j :: 0 <= j < i && items[j] == o;
  }

  lemma ItemLeaver(s: Store, spec: Spec, items: seq<Object>, i: nat)
    requires Homed(s) && Lists(s, ByOwner(spec.project, spec.domain), items) && i < |items|
    requires !Named(spec.accounts, items[i].name)
    ensures Leaver(items[i], spec) && items[i].Id() == AccountKey(spec, items[i].name)
    ensures items[i].Id() in s && s[items[i].Id()] == items[i]
  {
    assert items[i] in items;
  }

  lemma ItemLeaving(a: Moment, b: Moment, cfg: Config, spec: Spec, items: seq<Object>, i: nat, ok: bool)
    requires Keyed(a.world.objects) && Homed(a.world.objects) && spec in a.view
    requires Lists(a.world.objects, ByOwner(spec.project, spec.domain), items) && i < |items|
    requires Accounted(a, b) && Deleted(a.world.objects, b.world.objects, GoneOf(cfg, spec, items[..i]), ok)
    requires !Named(spec.accounts, items[i].name)
    ensures Leaver(items[i], spec) && items[i].Id() == AccountKey(spec, items[i].name)
    ensures Leaving(b.Known(), spec, items[i].name)
  {
    ItemLeaver(a.world.objects, spec, items, i);
    ItemStays(cfg, spec, items, i);
  }

  lemma LeaversListed(s: Store, spec: Spec, items: seq<Object>)
    requires Lists(s, ByOwner(spec.project, spec.domain), items)
    ensures forall o :: o in items ==> o.Id() in s && s[o.Id()] == o
    ensures forall j :: j in s && Leaver(s[j], spec) ==> s[j] in items
  {
  }

  lemma AllGone(cfg: Config, s: Store, spec: Spec, items: seq<Object>)
    requires Lists(s, ByOwner(spec.project, spec.domain), items)
    ensures s - GoneOf(cfg, spec, items) == CleanAccounts(cfg, s, spec)
  {
    LeaversListed(s, spec, items);
    forall k | k in s ensures k in GoneOf(cfg, spec, items) <==> Leaves(cfg, s, spec, k) {
      if o :| o in items && Leaver(o, spec) && k in KeysOf(cfg, spec, o) { assert s[o.Id()] == o; }
    }
  }

  lemma RemovedStep(cfg: Config, s: Store, s1: Store, s2: Store, spec: Spec, items: seq<Object>, i: nat, ok: bool, done: bool)
    requires i < |items| && Leaver(items[i], spec)
    requires Deleted(s, s1, GoneOf(cfg, spec, items[..i]), ok) && Deleted(s1, s2, KeysOf(cfg, spec, items[i]), done)
    ensures Deleted(s, s2, GoneOf(cfg, spec, items[..i + 1]), ok && done)
  {
    GoneOfStep(cfg, spec, items, i);
    DeletedTwice(s, s1, s2, GoneOf(cfg, spec, items[..i]), KeysOf(cfg, spec, items[i]), ok, done);
  }

  /** The IAM objects of the leaving accounts, and these accounts themselves. */
  ghost function LeaverIams(cfg: Config, s: Store, spec: Spec): set<Key> {
    set j, k | j in s && Leaver(s[j], spec) && k in IamKeys(cfg, spec, s[j].name) :: k
  }

  ghost function LeaverIds(s: Store, spec: Spec): set<Key> {
    set j | j in s && Leaver(s[j], spec)
  }

  ghost function IamsOf(cfg: Config, spec: Spec, items: seq<Object>): set<Key> {
    set o, k | o in items && Leaver(o, spec) && k in IamKeys(cfg, spec, o.name) :: k
  }

  ghost function IdsOf(spec: Spec, items: seq<Object>): set<Key> {
    set o | o in items && Leaver(o, spec) :: o.Id()
  }

  lemma ItemsNext(cfg: Config, spec: Spec, items: seq<Object>, i: nat)
    requires i < |items|
    ensures IamsOf(cfg, spec, items[..i + 1]) ==
      IamsOf(cfg, spec, items[..i]) + if Leaver(items[i], spec) then IamKeys(cfg, spec, items[i].name) else {}
    ensures IdsOf(spec, items[..i + 1]) == IdsOf(spec, items[..i]) + if Leaver(items[i], spec) then {items[i].Id()} else {}
  {
    assert items[..i + 1] == items[..i] + [items[i]];
  }

  lemma ItemsAll(cfg: Config, s: Store, spec: Spec, items: seq<Object>)
    requires Keyed(s) && Lists(s, ByOwner(spec.project, spec.domain), items)
    ensures IamsOf(cfg, spec, items) == LeaverIams(cfg, s, spec) && IdsOf(spec, items) == LeaverIds(s, spec)
  {
    LeaversListed(s, spec, items);
  }

  /** Of the leaving accounts and of their IAM objects no more is left than calls have
      failed: one account that cannot be removed keeps no other from being tried. */
  ghost predicate Vacating(a: Moment, b: Moment, cfg: Config, spec: Spec, items: seq<Object>, ok: bool) {
    && Deleted(a.world.objects, b.world.objects, GoneOf(cfg, spec, items), ok)
    && Bounded(a, b, IamsOf(cfg, spec, items)) && Bounded(a, b, IdsOf(spec, items))
    && (ok <==> a.faults == b.faults) && a.faults <= b.faults
  }

  lemma VacatingStart(a: Moment, cfg: Config, spec: Spec)
    ensures Vacating(a, a, cfg, spec, [], true)
  {
    assert GoneOf(cfg, spec, []) == {} && IamsOf(cfg, spec, []) == {} && IdsOf(spec, []) == {};
  }

  lemma VacatingKept(a: Moment, b: Moment, cfg: Config, spec: Spec, items: seq<Object>, i: nat, ok: bool)
    requires i < |items| && Named(spec.accounts, items[i].name) && Vacating(a, b, cfg, spec, items[..i], ok)
    ensures Vacating(a, b, cfg, spec, items[..i + 1], ok)
  {
    KeptAlike(cfg, spec, items, i);
  }

  lemma KeptAlike(cfg: Config, spec: Spec, items: seq<Object>, i: nat)
    requires i < |items| && Named(spec.accounts, items[i].name)
    ensures GoneOf(cfg, spec, items[..i + 1]) == GoneOf(cfg, spec, items[..i])
    ensures IamsOf(cfg, spec, items[..i + 1]) == IamsOf(cfg, spec, items[..i]) && IdsOf(spec, items[..i + 1]) == IdsOf(spec, items[..i])
  {
    GoneOfStep(cfg, spec, items, i);
    ItemsNext(cfg, spec, items, i);
  }

  lemma VacatingRemoved(a: Moment, b: Moment, c: Moment, cfg: Config, spec: Spec, items: seq<Object>, i: nat, ok: bool, done: bool)
    requires i < |items| && Leaver(items[i], spec) && Vacating(a, b, cfg, spec, items[..i], ok)
    requires Deleted(b.world.objects, c.world.objects, KeysOf(cfg, spec, items[i]), done)
    requires Bounded(b, c, IamKeys(cfg, spec, items[i].name)) && Bounded(b, c, {items[i].Id()})
    requires (done <==> b.faults == c.faults) && b.faults <= c.faults
    ensures Vacating(a, c, cfg, spec, items[..i + 1], ok && done)
  {
    RemovedStep(cfg, a.world.objects, b.world.objects, c.world.objects, spec, items, i, ok, done);
    ItemsNext(cfg, spec, items, i);
    BoundedOn(a, b, c, IamsOf(cfg, spec, items[..i]), IamKeys(cfg, spec, items[i].name));
    BoundedOn(a, b, c, IdsOf(spec, items[..i]), {items[i].Id()});
  }

  /** What a cleanup of accounts leaves: nothing on success, and in any case no more than
      calls have failed, unless it was already the listing that failed. */
  ghost predicate Vacated(a: Moment, b: Moment, cfg: Config, spec: Spec, ok: bool) {
    && (ok ==> b.world.objects == CleanAccounts(cfg, a.world.objects, spec))
    && Between(CleanAccounts(cfg, a.world.objects, spec), b.world.objects, a.world.objects)
    && (ok <==> a.faults == b.faults)
    && (|| (b.world.objects == a.world.objects && b.faults == a.faults + 1)
        || (Bounded(a, b, LeaverIams(cfg, a.world.objects, spec)) && Bounded(a, b, LeaverIds(a.world.objects, spec))))
  }

  lemma VacatingEnd(a: Moment, b: Moment, cfg: Config, spec: Spec, items: seq<Object>, ok: bool)
    requires Vacating(a, b, cfg, spec, items, ok) && Keyed(a.world.objects)
    requires Lists(a.world.objects, ByOwner(spec.project, spec.domain), items)
    ensures Vacated(a, b, cfg, spec, ok)
  {
    AllGone(cfg, a.world.objects, spec, items);
    ItemsAll(cfg, a.world.objects, spec, items);
    assert CleanAccounts(cfg, a.world.objects, spec) == a.world.objects - GoneOf(cfg, spec, items);
  }

  lemma UnlistedBetween(cfg: Config, s: Store, spec: Spec)
    ensures Between(CleanAccounts(cfg, s, spec), s, s)
  {
  }

  /** One account that leaves: an error is kept, and the next account is tried all the same. */
  method RemoveNext(c: Cluster, ghost m0: Moment, spec: Spec, ghost items: seq<Object>, ghost i: nat, item: Object, ok: bool)
    returns (r: bool)
    requires c.Valid() && spec in c.view && Accounted(m0, c.Now()) && Keyed(m0.world.objects) && Homed(m0.world.objects)
    requires Lists(m0.world.objects, ByOwner(spec.project, spec.domain), items)
    requires i < |items| && item == items[i] && !Named(spec.accounts, item.name)
    requires Vacating(m0, c.Now(), c.cfg, spec, items[..i], ok)
    modifies c
    ensures c.Valid() && Accounted(m0, c.Now()) && Vacating(m0, c.Now(), c.cfg, spec, items[..i + 1], r)
  {
    ghost var m1 := c.Now();
    ItemLeaving(m0, m1, c.cfg, spec, items, i, ok);
    var done := RemoveAccount(c, spec, item);
    AccountedOn(m0, m1, c.Now());
    VacatingRemoved(m0, m1, c.Now(), c.cfg, spec, items, i, ok, done);
    r := ok && done;
  }

  /** `CleanupRemovedServiceAccounts`. */
  method CleanupRemovedAccounts(c: Cluster, spec: Spec) returns (ok: bool)
    requires c.Valid() && spec in c.view
    modifies c
    ensures c.Valid() && Accounted(old(c.Now()), c.Now())
    ensures Vacated(old(c.Now()), c.Now(), c.cfg, spec, ok)
  {
    ghost var m0 := c.Now();
    c.SafeNow();
    UnlistedBetween(c.cfg, c.world.objects, spec);
    var items;
    ok, items := c.List(ByOwner(spec.project, spec.domain));
    if !ok { return; }
    VacatingStart(m0, c.cfg, spec);
    assert items[..0] == [];
    for i := 0 to |items|
      invariant c.Valid() && Accounted(m0, c.Now())
      invariant Vacating(m0, c.Now(), c.cfg, spec, items[..i], ok)
    {
      var kept := Contains(spec.accounts, items[i].name);
      if kept {
        VacatingKept(m0, c.Now(), c.cfg, spec, items, i, ok);
      } else {
        ok := RemoveNext(c, m0, spec, items, i, items[i], ok);
      }
    }
    assert items[..|items|] == items;
    VacatingEnd(m0, c.Now(), c.cfg, spec, items, ok);
  }

  /** `cleanupRemovedServiceAccounts`: the same cleanup, written with an early continue. */
  method CleanupRemovedAccountsFirst(c: Cluster, spec: Spec) returns (ok: bool)
    requires c.Valid() && spec in c.view
    modifies c
    ensures c.Valid() && Accounted(old(c.Now()), c.Now())
    ensures Vacated(old(c.Now()), c.Now(), c.cfg, spec, ok)
  {
    ghost var m0 := c.Now();
    c.SafeNow();
    UnlistedBetween(c.cfg, c.world.objects, spec);
    var items;
    ok, items := c.List(ByOwner(spec.project, spec.domain));
    if !ok { return; }
    VacatingStart(m0, c.cfg, spec);
    assert items[..0] == [];
    for i := 0 to |items|
      invariant c.Valid() && Accounted(m0, c.Now())
      invariant Vacating(m0, c.Now(), c.cfg, spec, items[..i], ok)
    {
      if Named(spec.accounts, items[i].name) {
        VacatingKept(m0, c.Now(), c.cfg, spec, items, i, ok);
        continue;
      }
      ok := RemoveNext(c, m0, spec, items, i, items[i], ok);
    }
    assert items[..|items|] == items;
    VacatingEnd(m0, c.Now(), c.cfg, spec, items, ok);
  }

  lemma AccountsNext(cfg: Config, s: Store, spec: Spec, accounts: seq<Account>, i: nat)
    requires i < |accounts|
    ensures EnsureAccounts(cfg, s, spec, accounts[..i + 1]) ==
      EnsureOne(cfg, EnsureAccounts(cfg, s, spec, accounts[..i]), spec, accounts[i].name)
  {
    assert accounts[..i + 1][..i] == accounts[..i];
  }

  method ReconcileAll(c: Cluster, spec: Spec) returns (ok: bool)
    requires c.Valid() && spec in c.view
    modifies c
    ensures c.Valid() && Founded(old(c.Now()), c.Now(), ok)
    ensures ok ==> c.world.objects == EnsureAccounts(c.cfg, old(c.world.objects), spec, spec.accounts)
    ensures c.faults == old(c.faults) ==> ok
  {
    ghost var m0, s := c.Now(), c.world.objects;
    assert forall i :: 0 <= i < |spec.accounts| ==> Named(spec.accounts, spec.accounts[i].name);
    for i := 0 to |spec.accounts|
      invariant c.Valid() && Founded(m0, c.Now(), true)
      invariant c.world.objects == EnsureAccounts(c.cfg, s, spec, spec.accounts[..i])
    {
      ghost var m1 := c.Now();
      ok := ReconcileOne(c, spec, spec.accounts[i].name);
      FoundedOn(m0, m1, c.Now(), ok);
      if !ok { return; }
      AccountsNext(c.cfg, s, spec, spec.accounts, i);
    }
    assert spec.accounts[..|spec.accounts|] == spec.accounts;
    ok := true;
  }

  /** Nothing is deleted unless all accounts were ensured before. */
  ghost predicate EnsuredFirst(c: Cluster, n: nat, s: Store, spec: Spec)
    reads c
  {
    s.Keys <= c.world.objects.Keys || Passed(c.cfg, c.start, c.run, n, EnsureAccounts(c.cfg, s, spec, spec.accounts))
  }

  method CreateOrUpdateServiceAccounts(c: Cluster, spec: Spec) returns (ok: bool)
    requires c.Valid() && spec in c.view
    modifies c
    ensures c.Valid() && Accounted(old(c.Now()), c.Now())
    ensures ok ==> c.world.objects == AccountPass(c.cfg, old(c.world.objects), spec)
    ensures EnsuredFirst(c, |old(c.run)|, old(c.world.objects), spec)
    ensures ok <==> c.faults == old(c.faults)
  {
    ghost var m0 := c.Now();
    ok := ReconcileAll(c, spec);
    if !ok { return; }
    ghost var m1 := c.Now();
    ok := CleanupRemovedAccountsFirst(c, spec);
    AccountedOn(m0, m1, c.Now());
    PassedThen(c.cfg, c.start, m1, c.run, |m0.run|);
  }
}
