/** The egress cleanups. Objects go before the gateway entries that point at them, so what
    a failed cleanup leaves behind is found again. */
module EgressCleanup {
  import opened Wrappers
  import opened HostList
  import opened Resources
  import opened Protocol
  import opened Safety
  import opened ApiServer
  import opened EgressSpec
  import opened EgressReconciler
  import opened PolicyReconciler
  import opened Convergence

  /** The objects without those a selector matches and a test dooms. */
  ghost function Minus(s: Store, sel: Selector, doomed: Object -> bool): Store {
    map k | k in s && !(Matches(sel, s[k]) && doomed(s[k])) :: s[k]
  }

  /** Only objects other than gateways were deleted. */
  ghost predicate Pruned(s: Store, s': Store) {
    && (forall k :: k in s' ==> k in s && s'[k] == s[k])
    && (forall k :: k in s && s[k].Gateway? ==> k in s')
  }

  lemma PrunedHosts(s: Store, s': Store)
    requires Pruned(s, s') && Keyed(s)
    ensures SameHosts(s, s')
  {
    forall side ensures GatewayKey(side) in s <==> GatewayKey(side) in s' {
      if GatewayKey(side) in s { assert s[GatewayKey(side)].Id() == GatewayKey(side); }
    }
  }

  /** The operator deleted or rewrote egress objects; the accounts are as they were. */
  ghost predicate Trimmed(a: Moment, b: Moment) {
    Worked(a, b) && SameAccounts(a.world.objects, b.world.objects)
  }

  lemma TrimmedOn(a: Moment, b: Moment, c: Moment)
    requires Trimmed(a, b) && Trimmed(b, c)
    ensures Trimmed(a, c)
  {
  }

  /** Nothing is there but what was, and everything is that was to stay. */
  ghost predicate Between(less: Store, s: Store, more: Store) {
    && (forall k :: k in s ==> k in more && s[k] == more[k])
    && (forall k :: k in less ==> k in s && s[k] == less[k])
  }

  /** Of what was to go, no more is left than calls have failed. */
  ghost predicate Bounded(a: Moment, b: Moment, gone: set<Key>) {
    |gone * b.world.objects.Keys| <= b.faults - a.faults
  }

  lemma BoundedOn(a: Moment, b: Moment, c: Moment, gone: set<Key>, more: set<Key>)
    requires Bounded(a, b, gone) && Bounded(b, c, more) && c.world.objects.Keys <= b.world.objects.Keys
    ensures Bounded(a, c, gone + more)
  {
    var now := c.world.objects.Keys;
    assert (gone + more) * now == gone * now + (more * now - gone * now);
    Fewer(gone * now, gone * b.world.objects.Keys);
    Fewer(more * now - gone * now, more * now);
  }

  lemma Fewer(a: set<Key>, b: set<Key>)
    requires a <= b
    ensures |a| <= |b|
  {
    assert b == a + (b - a);
  }

  /** What a selector matches and a test dooms. */
  ghost function Hit(s: Store, sel: Selector, doomed: Object -> bool): set<Key> {
    set k | k in s && Matches(sel, s[k]) && doomed(s[k])
  }

  /** Leave to delete an egress object outlasts other deletions. */
  lemma StillRemovable(a: Moment, b: Moment, o: Object)
    requires Worked(a, b) && SameHosts(a.world.objects, b.world.objects)
    requires MayDeleteEgress(a.Known(), o)
    ensures MayDeleteEgress(b.Known(), o)
  {
    var m, n := a.Known(), b.Known();
    if side :| o.HostLabel().Some? && StaleHost(m, side, o.HostLabel().value) {
      assert StaleHost(n, side, o.HostLabel().value);
    } else {
      var spec :| MayDeletePolicy(m, spec, o.labels);
      if TerminatedWith(m.world.crs, spec, o.labels) {
        var name :| Terminating(m.world.crs, name, spec);
        assert Terminating(n.world.crs, name, spec);
      }
      assert MayDeletePolicy(n, spec, o.labels);
    }
  }

  /** How a cleanup loop takes errors: does an object that is already gone count as one,
      and does the first error end the loop? */
  datatype Manner = Manner(strict: bool, hasty: bool)

  ghost predicate Removable(m: Monitor, o: Object) {
    (o.Child() || o.AuthorizationPolicy?) && MayDeleteEgress(m, o)
  }

  ghost function Gone(items: seq<Object>, doomed: Object -> bool): set<Key> {
    set o | o in items && doomed(o) :: o.Id()
  }

  lemma GoneStep(items: seq<Object>, doomed: Object -> bool, i: nat)
    requires i < |items| && Distinct(items)
    ensures Gone(items[..i + 1], doomed) == Gone(items[..i], doomed) + if doomed(items[i]) then {items[i].Id()} else {}
    ensures items[i].Id() !in Gone(items[..i], doomed)
  {
    assert items[..i + 1] == items[..i] + [items[i]];
  }

  /** At most the doomed items are deleted, and exactly those if no call failed. */
  ghost predicate Deleted(s: Store, s': Store, gone: set<Key>, ok: bool) {
    && (forall k :: k in s' ==> k in s && s'[k] == s[k])
    && (forall k :: k in s && k !in gone ==> k in s')
    && (ok ==> s' == s - gone)
  }

  lemma DeletedPruned(s: Store, s': Store, items: seq<Object>, doomed: Object -> bool, ok: bool)
    requires Deleted(s, s', Gone(items, doomed), ok) && Keyed(s)
    requires forall o :: o in items && doomed(o) ==> !o.Gateway? && o.Id() in s && s[o.Id()] == o
    ensures Pruned(s, s') && SameHosts(s, s')
  {
    PrunedHosts(s, s');
  }

  method DeleteOne(c: Cluster, o: Object) returns (r: Outcome)
    requires c.Valid() && Removable(c.Known(), o)
    requires o.Id() in c.world.objects && c.world.objects[o.Id()] == o
    modifies c
    ensures c.Valid() && Trimmed(old(c.Now()), c.Now()) && !r.Rejected?
    ensures r.Done? ==> c.world.objects == old(c.world.objects) - {o.Id()}
    ensures r.Failed? ==> c.world.objects == old(c.world.objects) || c.world.objects == old(c.world.objects) - {o.Id()}
    ensures (!r.Failed? <==> c.faults == old(c.faults)) && c.faults <= old(c.faults) + 1
  {
    assert !AccountKind(o.Id().kind);
    r := c.Submit(Delete(o.Id()));
  }

  lemma DeletedStep(s: Store, s1: Store, s2: Store, items: seq<Object>, doomed: Object -> bool, i: nat, ok: bool, done: bool)
    requires i < |items| && Distinct(items) && doomed(items[i])
    requires Deleted(s, s1, Gone(items[..i], doomed), ok)
    requires s2 == s1 - {items[i].Id()} || (!done && s2 == s1)
    ensures Deleted(s, s2, Gone(items[..i + 1], doomed), ok && done)
  {
    GoneStep(items, doomed, i);
  }

  lemma NextRemovable(a: Moment, b: Moment, items: seq<Object>, doomed: Object -> bool, i: nat, ok: bool)
    requires Worked(a, b) && Keyed(a.world.objects) && i < |items| && Distinct(items) && doomed(items[i])
    requires forall o :: o in items ==> o.Id() in a.world.objects && a.world.objects[o.Id()] == o
    requires forall o :: o in items && doomed(o) ==> Removable(a.Known(), o)
    requires Deleted(a.world.objects, b.world.objects, Gone(items[..i], doomed), ok)
    ensures Removable(b.Known(), items[i])
    ensures items[i].Id() in b.world.objects && b.world.objects[items[i].Id()] == items[i]
  {
    assert items[i] in items;
    DeletedPruned(a.world.objects, b.world.objects, items[..i], doomed, ok);
    StillRemovable(a, b, items[i]);
    GoneStep(items, doomed, i);
  }

  lemma DeletedSoFar(s: Store, s': Store, items: seq<Object>, doomed: Object -> bool, n: nat)
    requires n <= |items| && Deleted(s, s', Gone(items[..n], doomed), false)
    ensures Deleted(s, s', Gone(items, doomed), false)
  {
    assert Gone(items[..n], doomed) <= Gone(items, doomed);
  }

  lemma BoundedStep(a: Moment, b: Moment, c: Moment, items: seq<Object>, doomed: Object -> bool, i: nat)
    requires i < |items| && Distinct(items) && Bounded(a, b, Gone(items[..i], doomed))
    requires c.world.objects.Keys <= b.world.objects.Keys && b.faults <= c.faults
    requires doomed(items[i]) && items[i].Id() in c.world.objects ==> c.faults > b.faults
    ensures Bounded(a, c, Gone(items[..i + 1], doomed))
  {
    var more := if doomed(items[i]) then {items[i].Id()} else {};
    GoneStep(items, doomed, i);
    assert more * c.world.objects.Keys == if doomed(items[i]) && items[i].Id() in c.world.objects then {items[i].Id()} else {};
    BoundedOn(a, b, c, Gone(items[..i], doomed), more);
  }

  /** One turn of a cleanup loop; `ok` says whether the turns before went well. */
  method DeleteNext(c: Cluster, ghost m0: Moment, items: seq<Object>, doomed: Object -> bool, i: nat, manner: Manner,
                    ghost ok: bool) returns (done: bool)
    requires c.Valid() && Trimmed(m0, c.Now()) && Keyed(m0.world.objects) && i < |items| && Distinct(items)
    requires forall o :: o in items ==> o.Id() in m0.world.objects && m0.world.objects[o.Id()] == o
    requires forall o :: o in items && doomed(o) ==> Removable(m0.Known(), o)
    requires Deleted(m0.world.objects, c.world.objects, Gone(items[..i], doomed), ok)
    modifies c
    ensures c.Valid() && Trimmed(m0, c.Now()) && FailsFast(old(c.Now()), c.Now(), done)
    ensures old(c.faults) <= c.faults && (!done ==> c.faults > old(c.faults))
    ensures Deleted(m0.world.objects, c.world.objects, Gone(items[..i + 1], doomed), ok && done)
    ensures c.world.objects.Keys <= old(c.world.objects).Keys
    ensures doomed(items[i]) && items[i].Id() in c.world.objects ==> c.faults > old(c.faults)
  {
    done := true;
    if doomed(items[i]) {
      ghost var m1 := c.Now();
      NextRemovable(m0, m1, items, doomed, i, ok);
      var r := DeleteOne(c, items[i]);
      TrimmedOn(m0, m1, c.Now());
      DeletedStep(m0.world.objects, m1.world.objects, c.world.objects, items, doomed, i, ok, r.Done?);
      done := !(r.Failed? || (manner.strict && r.Rejected?));
    } else {
      GoneStep(items, doomed, i);
    }
  }

  method DeleteDoomed(c: Cluster, items: seq<Object>, doomed: Object -> bool, manner: Manner) returns (ok: bool)
    requires c.Valid() && Distinct(items)
    requires forall o :: o in items ==> o.Id() in c.world.objects && c.world.objects[o.Id()] == o
    requires forall o :: o in items && doomed(o) ==> Removable(c.Known(), o)
    modifies c
    ensures c.Valid() && Trimmed(old(c.Now()), c.Now())
    ensures Deleted(old(c.world.objects), c.world.objects, Gone(items, doomed), ok)
    ensures ok <==> c.faults == old(c.faults)
    ensures manner.hasty ==> FailsFast(old(c.Now()), c.Now(), ok)
    ensures !manner.hasty ==> Bounded(old(c.Now()), c.Now(), Gone(items, doomed))
  {
    ghost var m0, s := c.Now(), c.world.objects;
    c.SafeNow();
    ok := true;
    assert Gone(items[..0], doomed) == {};
    for i := 0 to |items|
      invariant c.Valid() && Trimmed(m0, c.Now())
      invariant Deleted(s, c.world.objects, Gone(items[..i], doomed), ok)
      invariant Bounded(m0, c.Now(), Gone(items[..i], doomed))
      invariant (ok <==> c.faults == m0.faults) && (manner.hasty ==> ok)
    {
      ghost var m1 := c.Now();
      var done := DeleteNext(c, m0, items, doomed, i, manner, ok);
      BoundedStep(m0, m1, c.Now(), items, doomed, i);
      ok := ok && done;
      if !done && manner.hasty {
        DeletedSoFar(s, c.world.objects, items, doomed, i + 1);
        return;
      }
    }
    assert items[..|items|] == items;
  }

  lemma MinusListed(s: Store, sel: Selector, doomed: Object -> bool, items: seq<Object>)
    requires Lists(s, sel, items) && Keyed(s)
    ensures s - Gone(items, doomed) == Minus(s, sel, doomed) && Gone(items, doomed) == Hit(s, sel, doomed)
  {
    forall k | k in s ensures k in Gone(items, doomed) <==> Matches(sel, s[k]) && doomed(s[k]) {
      if Matches(sel, s[k]) && doomed(s[k]) { assert s[k] in items && s[k].Id() == k; }
    }
  }

  lemma DeletedMatches(s: Store, s': Store, sel: Selector, doomed: Object -> bool, items: seq<Object>, ok: bool)
    requires Lists(s, sel, items) && Keyed(s) && Deleted(s, s', Gone(items, doomed), ok)
    requires forall o :: o in items && doomed(o) ==> !o.Gateway?
    ensures SameHosts(s, s') && Pruned(s, s') && Gone(items, doomed) == Hit(s, sel, doomed)
    ensures (ok ==> s' == Minus(s, sel, doomed)) && Between(Minus(s, sel, doomed), s', s)
  {
    DeletedPruned(s, s', items, doomed, ok);
    MinusListed(s, sel, doomed, items);
  }

  lemma NoneDeleted(s: Store, sel: Selector, doomed: Object -> bool)
    ensures SameHosts(s, s) && Pruned(s, s) && Between(Minus(s, sel, doomed), s, s)
  {
  }

  lemma ListedRemovable(a: Moment, b: Moment, sel: Selector, doomed: Object -> bool, items: seq<Object>)
    requires Worked(a, b) && a.world.objects == b.world.objects && Keyed(a.world.objects)
    requires Lists(a.world.objects, sel, items)
    requires forall k :: k in a.world.objects && Matches(sel, a.world.objects[k]) && doomed(a.world.objects[k]) ==>
      Removable(a.Known(), a.world.objects[k])
    ensures forall o :: o in items && doomed(o) ==> Removable(b.Known(), o)
  {
    forall o | o in items && doomed(o) ensures Removable(b.Known(), o) {
      StillRemovable(a, b, a.world.objects[o.Id()]);
    }
  }

  /** Lists what a selector matches and deletes what the test dooms. Only a hasty loop lets
      one error keep the next object from being tried. */
  method DeleteMatching(c: Cluster, sel: Selector, doomed: Object -> bool, manner: Manner) returns (listed: bool, ok: bool)
    requires c.Valid()
    requires forall k :: k in c.world.objects && Matches(sel, c.world.objects[k]) && doomed(c.world.objects[k]) ==>
      Removable(c.Known(), c.world.objects[k])
    modifies c
    ensures c.Valid() && Trimmed(old(c.Now()), c.Now()) && SameHosts(old(c.world.objects), c.world.objects)
    ensures Pruned(old(c.world.objects), c.world.objects)
    ensures ok ==> c.world.objects == Minus(old(c.world.objects), sel, doomed)
    ensures Between(Minus(old(c.world.objects), sel, doomed), c.world.objects, old(c.world.objects))
    ensures (ok <==> c.faults == old(c.faults)) && (ok ==> listed)
    ensures manner.hasty ==> FailsFast(old(c.Now()), c.Now(), ok)
    ensures !listed ==> c.world.objects == old(c.world.objects) && c.faults == old(c.faults) + 1
    ensures listed && !manner.hasty ==> Bounded(old(c.Now()), c.Now(), Hit(old(c.world.objects), sel, doomed))
  {
    ghost var m0, s := c.Now(), c.world.objects;
    c.SafeNow();
    NoneDeleted(s, sel, doomed);
    var items;
    listed, items := c.List(sel);
    if !listed { return false, false; }
    ghost var m1 := c.Now();
    ListedRemovable(m0, m1, sel, doomed, items);
    ok := DeleteDoomed(c, items, doomed, manner);
    TrimmedOn(m0, m1, c.Now());
    DeletedMatches(s, c.world.objects, sel, doomed, items, ok);
  }

  // ---- Stale hosts -----------------------------------------------------------------

  const ALL_KINDS := [ServiceEntries, VirtualServices, DestinationRules, Policies]

  lemma LabelledKinds(o: Object)
    ensures o.HostLabel().Some? <==> o.Id().kind in ALL_KINDS
  {
  }

  ghost function WithoutKinds(s: Store, host: string, kinds: seq<Kind>): Store {
    map k | k in s && !(s[k].HostLabel() == Some(host) && s[k].Id().kind in kinds) :: s[k]
  }

  lemma WithoutKindsStep(s: Store, host: string, kinds: seq<Kind>, i: nat)
    requires i < |kinds|
    ensures Minus(WithoutKinds(s, host, kinds[..i]), ByHost(kinds[i], host), (o: Object) => true)
            == WithoutKinds(s, host, kinds[..i + 1])
  {
    assert kinds[..i + 1] == kinds[..i] + [kinds[i]];
  }

  lemma StaleRemovable(m: Monitor, side: Side, host: string, o: Object)
    requires StaleHost(m, side, host) && o.HostLabel() == Some(host)
    ensures Removable(m, o)
  {
  }

  lemma KindRemovable(m: Monitor, side: Side, host: string, kind: Kind)
    requires StaleHost(m, side, host)
    ensures forall k :: k in m.world.objects && Matches(ByHost(kind, host), m.world.objects[k]) ==> Removable(m, m.world.objects[k])
  {
    forall k | k in m.world.objects && Matches(ByHost(kind, host), m.world.objects[k]) ensures Removable(m, m.world.objects[k]) {
      StaleRemovable(m, side, host, m.world.objects[k]);
    }
  }

  /** The kinds of which an object still carries the label. */
  ghost function KindsLeft(s: Store, host: string, kinds: seq<Kind>): set<Kind> {
    set kind | kind in kinds && Any(s, ByHost(kind, host))
  }

  lemma KindsStep(s: Store, s': Store, host: string, kinds: seq<Kind>, i: nat)
    requires i < |kinds| && Pruned(s, s')
    ensures |KindsLeft(s', host, kinds[..i + 1])| <= |KindsLeft(s, host, kinds[..i])| + if Any(s', ByHost(kinds[i], host)) then 1 else 0
  {
    var before, now := KindsLeft(s, host, kinds[..i]), KindsLeft(s', host, kinds[..i + 1]);
    assert kinds[..i + 1] == kinds[..i] + [kinds[i]];
    var more := if Any(s', ByHost(kinds[i], host)) then {kinds[i]} else {};
    forall kind | kind in now ensures kind in before + more {
      var k :| k in s' && Matches(ByHost(kind, host), s'[k]);
      assert k in s && s[k] == s'[k];
    }
    FewerKinds(now, before + more);
  }

  lemma FewerKinds(a: set<Kind>, b: set<Kind>)
    requires a <= b
    ensures |a| <= |b|
  {
    assert b == a + (b - a);
  }

  /** The four kinds that carry host labels, whatever order they are gone through in. */
  ghost function LabelledLeft(s: Store, host: string): set<Kind> {
    set kind: Kind | Any(s, ByHost(kind, host))
  }

  lemma AllKindsLeft(s: Store, host: string)
    ensures KindsLeft(s, host, ALL_KINDS) == LabelledLeft(s, host)
  {
    forall kind: Kind | Any(s, ByHost(kind, host)) ensures kind in ALL_KINDS {
      var k :| k in s && Matches(ByHost(kind, host), s[k]);
      LabelledKinds(s[k]);
    }
  }

  lemma WithoutHostBetween(s: Store, s1: Store, s2: Store, host: string, kind: Kind)
    requires Between(WithoutHosts(s, {host}), s1, s)
    requires Between(Minus(s1, ByHost(kind, host), (o: Object) => true), s2, s1)
    ensures Between(WithoutHosts(s, {host}), s2, s)
  {
    forall k | k in WithoutHosts(s, {host}) ensures k in s2 && s2[k] == s[k] {
      assert k in Minus(s1, ByHost(kind, host), (o: Object) => true);
    }
  }

  /** `removeByHostLabel`: the objects of one kind. */
  method RemoveByHostLabel(c: Cluster, ghost side: Side, host: string, kind: Kind) returns (ok: bool)
    requires c.Valid() && StaleHost(c.Known(), side, host)
    modifies c
    ensures c.Valid() && Trimmed(old(c.Now()), c.Now()) && SameHosts(old(c.world.objects), c.world.objects)
    ensures Pruned(old(c.world.objects), c.world.objects)
    ensures ok ==> c.world.objects == Minus(old(c.world.objects), ByHost(kind, host), (o: Object) => true)
    ensures Between(Minus(old(c.world.objects), ByHost(kind, host), (o: Object) => true), c.world.objects, old(c.world.objects))
    ensures (ok <==> c.faults == old(c.faults)) && (Any(c.world.objects, ByHost(kind, host)) ==> !ok)
    ensures (c.faults == old(c.faults) + 1 && c.world.objects == old(c.world.objects))
      || Bounded(old(c.Now()), c.Now(), Hit(old(c.world.objects), ByHost(kind, host), (o: Object) => true))
  {
    KindRemovable(c.Known(), side, host, kind);
    var listed, removed := DeleteMatching(c, ByHost(kind, host), (o: Object) => true, Manner(true, false));
    ok := removed;
  }

  /** The part of the removal that is over. */
  ghost predicate Removing(a: Moment, b: Moment, host: string, i: nat, ok: bool)
    requires i <= |ALL_KINDS|
  {
    && SameHosts(a.world.objects, b.world.objects) && Pruned(a.world.objects, b.world.objects)
    && (ok ==> b.world.objects == WithoutKinds(a.world.objects, host, ALL_KINDS[..i]))
    && Between(WithoutHosts(a.world.objects, {host}), b.world.objects, a.world.objects)
    && (ok <==> b.faults == a.faults) && a.faults <= b.faults
    && |KindsLeft(b.world.objects, host, ALL_KINDS[..i])| <= b.faults - a.faults
  }

  lemma RemovingStep(a: Moment, b: Moment, c: Moment, host: string, i: nat, ok: bool, removed: bool)
    requires i < |ALL_KINDS| && Removing(a, b, host, i, ok)
    requires SameHosts(b.world.objects, c.world.objects) && Pruned(b.world.objects, c.world.objects)
    requires removed ==> c.world.objects == Minus(b.world.objects, ByHost(ALL_KINDS[i], host), (o: Object) => true)
    requires Between(Minus(b.world.objects, ByHost(ALL_KINDS[i], host), (o: Object) => true), c.world.objects, b.world.objects)
    requires (removed <==> c.faults == b.faults) && b.faults <= c.faults
    requires Any(c.world.objects, ByHost(ALL_KINDS[i], host)) ==> !removed
    ensures Removing(a, c, host, i + 1, ok && removed)
  {
    WithoutKindsStep(a.world.objects, host, ALL_KINDS, i);
    WithoutHostBetween(a.world.objects, b.world.objects, c.world.objects, host, ALL_KINDS[i]);
    KindsStep(b.world.objects, c.world.objects, host, ALL_KINDS, i);
  }

  lemma AllKindsRemoved(s: Store, host: string)
    ensures WithoutKinds(s, host, ALL_KINDS) == WithoutHosts(s, {host})
  {
    forall k | k in s ensures (s[k].HostLabel() == Some(host) && s[k].Id().kind in ALL_KINDS) <==> LabelledIn(s[k], {host}) {
      LabelledKinds(s[k]);
    }
  }

  /** `removeExternalHost`: whatever carries the label goes, and errors do not stop it: of no
      more kinds is something left than calls have failed. */
  method RemoveExternalHost(c: Cluster, ghost side: Side, host: string) returns (ok: bool)
    requires c.Valid() && StaleHost(c.Known(), side, host)
    modifies c
    ensures c.Valid() && Trimmed(old(c.Now()), c.Now()) && SameHosts(old(c.world.objects), c.world.objects)
    ensures Pruned(old(c.world.objects), c.world.objects)
    ensures ok ==> c.world.objects == WithoutHosts(old(c.world.objects), {host})
    ensures Between(WithoutHosts(old(c.world.objects), {host}), c.world.objects, old(c.world.objects))
    ensures ok <==> c.faults == old(c.faults)
    ensures |LabelledLeft(c.world.objects, host)| <= c.faults - old(c.faults)
  {
    ghost var m0, s := c.Now(), c.world.objects;
    ok := true;
    assert KindsLeft(s, host, ALL_KINDS[..0]) == {};
    for i := 0 to |ALL_KINDS|
      invariant c.Valid() && Trimmed(m0, c.Now()) && Removing(m0, c.Now(), host, i, ok)
    {
      ghost var m1 := c.Now();
      var removed := RemoveByHostLabel(c, side, host, ALL_KINDS[i]);
      TrimmedOn(m0, m1, c.Now());
      RemovingStep(m0, m1, c.Now(), host, i, ok, removed);
      ok := ok && removed;
    }
    assert ALL_KINDS[..|ALL_KINDS|] == ALL_KINDS;
    AllKindsLeft(c.world.objects, host);
    AllKindsRemoved(s, host);
  }

  ghost function StaleIn(hosts: seq<string>, keep: set<string>): set<string> {
    Elems(hosts) - keep
  }

  lemma StaleStep(s: Store, hosts: seq<string>, keep: set<string>, i: nat)
    requires i < |hosts|
    ensures hosts[i] in keep ==> WithoutHosts(s, StaleIn(hosts[..i + 1], keep)) == WithoutHosts(s, StaleIn(hosts[..i], keep))
    ensures hosts[i] !in keep ==>
      WithoutHosts(WithoutHosts(s, StaleIn(hosts[..i], keep)), {hosts[i]}) == WithoutHosts(s, StaleIn(hosts[..i + 1], keep))
  {
    assert hosts[..i + 1] == hosts[..i] + [hosts[i]];
    ElemsAppend(hosts[..i], [hosts[i]]);
  }

  /** The removal ended at one of the entries: those before it are done with, and those
      after it untouched. */
  ghost predicate StoppedAt(s: Store, s': Store, hosts: seq<string>, keep: set<string>, i: nat)
    requires i < |hosts|
  {
    Between(WithoutHosts(s, StaleIn(hosts[..i + 1], keep)), s', WithoutHosts(s, StaleIn(hosts[..i], keep)))
  }

  lemma StoppedHere(s: Store, s1: Store, s2: Store, hosts: seq<string>, keep: set<string>, i: nat)
    requires i < |hosts| && hosts[i] !in keep && s1 == WithoutHosts(s, StaleIn(hosts[..i], keep))
    requires Between(WithoutHosts(s1, {hosts[i]}), s2, s1)
    ensures StoppedAt(s, s2, hosts, keep, i)
  {
    StaleStep(s, hosts, keep, i);
  }

  lemma StoppedBetween(s: Store, s': Store, hosts: seq<string>, keep: set<string>, i: nat)
    requires i < |hosts| && StoppedAt(s, s', hosts, keep, i)
    ensures Between(WithoutHosts(s, StaleIn(hosts, keep)), s', s)
  {
    assert StaleIn(hosts[..i + 1], keep) <= StaleIn(hosts, keep);
  }

  /** Removes what belongs to the entries that are not in use, one entry at a time; the
      first entry that fails ends it. */
  method RemoveStaleHosts(c: Cluster, side: Side, hosts: seq<string>, keep: set<string>) returns (ok: bool)
    requires c.Valid() && Elems(hosts) == Hosts(c.world.objects, side) && keep == InUse(c.view, side)
    modifies c
    ensures c.Valid() && Trimmed(old(c.Now()), c.Now()) && SameHosts(old(c.world.objects), c.world.objects)
    ensures Pruned(old(c.world.objects), c.world.objects)
    ensures ok ==> c.world.objects == WithoutHosts(old(c.world.objects), Hosts(old(c.world.objects), side) - keep)
    ensures !ok ==> exists i :: 0 <= i < |hosts| && StoppedAt(old(c.world.objects), c.world.objects, hosts, keep, i)
    ensures ok <==> c.faults == old(c.faults)
  {
    ghost var m0, s := c.Now(), c.world.objects;
    assert WithoutHosts(s, {}) == s;
    for i := 0 to |hosts|
      invariant c.Valid() && Trimmed(m0, c.Now()) && SameHosts(s, c.world.objects) && Pruned(s, c.world.objects)
      invariant c.world.objects == WithoutHosts(s, StaleIn(hosts[..i], keep)) && c.faults == m0.faults
    {
      StaleStep(s, hosts, keep, i);
      if hosts[i] !in keep {
        ghost var m1 := c.Now();
        assert hosts[i] in Elems(hosts);
        ok := RemoveExternalHost(c, side, hosts[i]);
        TrimmedOn(m0, m1, c.Now());
        StoppedHere(s, m1.world.objects, c.world.objects, hosts, keep, i);
        if !ok { return; }
      }
    }
    assert hosts[..|hosts|] == hosts;
    ok := true;
  }

  // ---- Gateways --------------------------------------------------------------------

  ghost function LabelsIn(ts: seq<Target>): set<string> {
    set t | t in ts :: Label(t)
  }

  method HostsOfAccounts(accounts: seq<Account>, side: Side) returns (keep: set<string>)
    ensures keep == LabelsIn(Targets(accounts, side))
  {
    keep := {};
    for j := 0 to |accounts|
      invariant keep + LabelsIn(Targets(accounts[j..], side)) == LabelsIn(Targets(accounts, side))
    {
      ghost var mine, later := TargetsOf(accounts[j], side), Targets(accounts[j + 1..], side);
      assert Targets(accounts[j..], side) == mine + later;
      assert LabelsIn(mine + later) == LabelsIn(mine) + LabelsIn(later);
      keep := keep + set t | t in TargetsOf(accounts[j], side) :: Label(t);
    }
  }

  ghost predicate AskedBy(specs: seq<Spec>, side: Side, h: string) {
    exists j :: 0 <= j < |specs| && h in LabelsIn(Targets(specs[j].accounts, side))
  }

  /** The hosts all allowlists together ask for, collected in a map as the loops do. */
  method HostsInUse(specs: seq<Spec>, side: Side) returns (keep: set<string>)
    ensures keep == InUse((set s | s in specs), side)
  {
    keep := if side.CloudSQLSide? then {"*"} else {};
    ghost var base := keep;
    for i := 0 to |specs|
      invariant forall h :: h in keep <==> h in base || AskedBy(specs[..i], side, h)
    {
      ghost var before := keep;
      var mine := HostsOfAccounts(specs[i].accounts, side);
      keep := keep + mine;
      forall h ensures AskedBy(specs[..i + 1], side, h) <==> AskedBy(specs[..i], side, h) || h in mine {
        AskedStep(specs, side, h, i);
      }
    }
    assert specs[..|specs|] == specs;
    forall h ensures h in keep <==> h in InUse((set s | s in specs), side) {
      AskedInUse(specs, side, h);
    }
  }

  lemma AskedStep(specs: seq<Spec>, side: Side, h: string, i: nat)
    requires i < |specs|
    ensures AskedBy(specs[..i + 1], side, h) <==>
      AskedBy(specs[..i], side, h) || h in LabelsIn(Targets(specs[i].accounts, side))
  {
    if j :| 0 <= j < i && h in LabelsIn(Targets(specs[..i][j].accounts, side)) {
      assert specs[..i + 1][j] == specs[..i][j];
    }
    if h in LabelsIn(Targets(specs[i].accounts, side)) {
      assert specs[..i + 1][i] == specs[i];
    }
  }

  lemma AskedInUse(specs: seq<Spec>, side: Side, h: string)
    ensures AskedBy(specs, side, h) <==> exists t :: t in Demand(set s | s in specs) && SideOf(t) == side && Label(t) == h
  {
    if AskedBy(specs, side, h) {
      var j :| 0 <= j < |specs| && h in LabelsIn(Targets(specs[j].accounts, side));
      var t :| t in Targets(specs[j].accounts, side) && Label(t) == h;
      WantedCover(specs[j].accounts, side, t);
      assert specs[j] in specs && t in WantedTargets(specs[j]);
    }
    if t :| t in Demand(set s | s in specs) && SideOf(t) == side && Label(t) == h {
      var spec :| spec in specs && t in WantedTargets(spec);
      var j :| 0 <= j < |specs| && specs[j] == spec;
      if t in Targets(spec.accounts, ExternalSide) { WantedCover(spec.accounts, ExternalSide, t); }
      if t in Targets(spec.accounts, CloudSQLSide) { WantedCover(spec.accounts, CloudSQLSide, t); }
      assert Label(t) in LabelsIn(Targets(specs[j].accounts, side));
    }
  }

  method WriteGateway(c: Cluster, ghost side: Side, call: Call) returns (r: Outcome)
    requires c.Valid() && Permitted(c.cfg, c.Known(), call) && GatewayKey(side) in c.world.objects
    requires (call.Update? && call.item.Id() == GatewayKey(side)) || call == Delete(GatewayKey(side))
    modifies c
    ensures c.Valid() && Trimmed(old(c.Now()), c.Now()) && !r.Rejected? && FailsFast(old(c.Now()), c.Now(), r.Done?)
    ensures r.Done? ==> Some(c.world.objects) == Apply(old(c.world.objects), call)
    ensures c.world.objects == old(c.world.objects) || Some(c.world.objects) == Apply(old(c.world.objects), call)
    ensures c.faults == old(c.faults) ==> r.Done?
  {
    GatewayAlone(c.world.objects, side, call);
    r := c.Submit(call);
  }

  lemma GatewayAlone(s: Store, side: Side, call: Call)
    requires (call.Update? && call.item.Id() == GatewayKey(side)) || call == Delete(GatewayKey(side))
    requires GatewayKey(side) in s
    ensures Apply(s, call).Some? && SameAccounts(s, Apply(s, call).value)
  {
  }

  lemma Shrinkable(cfg: Config, m: Monitor, side: Side, was: Object, now: Object)
    requires was.Id() == GatewayKey(side) && GatewayShrinks(m, side, was, now)
    requires GatewayKey(side) in m.world.objects && m.world.objects[GatewayKey(side)] == was
    ensures Permitted(cfg, m, Update(now)) && now.Id() == GatewayKey(side)
  {
  }

  lemma GatewayDeletable(cfg: Config, m: Monitor)
    requires GatewayKey(ExternalSide) in m.world.objects && m.world.objects[GatewayKey(ExternalSide)].Gateway?
    requires InUse(m.view, ExternalSide) == {} && Unlabelled(m.world.objects, Hosts(m.world.objects, ExternalSide))
    ensures Permitted(cfg, m, Delete(GatewayKey(ExternalSide)))
  {
  }

  /** Rewrites the entries once nothing carries the labels that go. */
  method RewriteEntries(c: Cluster, side: Side, gateway: Object, keep: set<string>) returns (ok: bool)
    requires c.Valid() && ShapedGateway(gateway, side) && keep == InUse(c.view, side)
    requires GatewayKey(side) in c.world.objects && c.world.objects[GatewayKey(side)] == gateway
    requires Unlabelled(c.world.objects, Hosts(c.world.objects, side) - keep)
    modifies c
    ensures c.Valid() && Trimmed(old(c.Now()), c.Now())
    ensures ok ==> c.world.objects == if keep == {} then old(c.world.objects) - {GatewayKey(side)}
                     else old(c.world.objects)[GatewayKey(side) := WithHosts(gateway, Canon(keep))]
    ensures c.world.objects == old(c.world.objects) || c.world.objects == if keep == {} then old(c.world.objects) - {GatewayKey(side)}
                     else old(c.world.objects)[GatewayKey(side) := WithHosts(gateway, Canon(keep))]
    ensures FailsFast(old(c.Now()), c.Now(), ok) && (c.faults == old(c.faults) ==> ok)
  {
    c.SafeNow();
    var hosts := SortedKeys(keep);
    var r;
    if side.ExternalSide? && |hosts| == 0 {
      assert keep == {} by { assert Elems(hosts) == keep; }
      GatewayDeletable(c.cfg, c.Known());
      r := WriteGateway(c, side, Delete(GatewayKey(side)));
    } else {
      assert keep != {};
      Shrinkable(c.cfg, c.Known(), side, gateway, WithHosts(gateway, hosts));
      r := WriteGateway(c, side, Update(WithHosts(gateway, hosts)));
    }
    ok := r.Done?;
  }

  /** A sweep that was begun: either objects of unused entries are missing and the gateway is
      as it was, or it is complete. */
  ghost predicate Swept(s: Store, side: Side, keep: set<string>, s': Store) {
    Between(WithoutHosts(s, Hosts(s, side) - keep), s', s) || s' == Sweep(s, side, keep)
  }

  /** One server of a gateway. The external cleanup leaves servers of another protocol
      alone; the CloudSQL cleanup rewrites them but removes nothing for them. */
  method CleanupServer(c: Cluster, side: Side, gateway: Object, i: nat, keep: set<string>) returns (ok: bool)
    requires c.Valid() && ShapedGateway(gateway, side) && i < |gateway.servers| && keep == InUse(c.view, side)
    requires GatewayKey(side) in c.world.objects && c.world.objects[GatewayKey(side)] == gateway
    modifies c
    ensures c.Valid() && Trimmed(old(c.Now()), c.Now())
    ensures ok ==> c.world.objects == Sweep(old(c.world.objects), side, keep)
    ensures Swept(old(c.world.objects), side, keep, c.world.objects)
    ensures ok <==> c.faults == old(c.faults)
  {
    ghost var m0, s := c.Now(), c.world.objects;
    ok := true;
    var mine := gateway.servers[i].protocol == ServerProtocol(side);
    if mine {
      ok := RemoveStaleHosts(c, side, gateway.servers[i].hosts, keep);
      if !ok {
        ghost var j :| 0 <= j < |gateway.servers[i].hosts| && StoppedAt(s, c.world.objects, gateway.servers[i].hosts, keep, j);
        StoppedBetween(s, c.world.objects, gateway.servers[i].hosts, keep, j);
        return;
      }
    }
    if mine || side.CloudSQLSide? {
      ghost var m1 := c.Now();
      ok := RewriteEntries(c, side, gateway, keep);
      TrimmedOn(m0, m1, c.Now());
    }
  }

  /** `cleanupExternalHosts` and `cleanupCloudSQLHosts`. */
  method CleanupSide(c: Cluster, side: Side, specs: seq<Spec>) returns (ok: bool)
    requires c.Valid() && c.view == set s | s in specs
    modifies c
    ensures c.Valid() && Trimmed(old(c.Now()), c.Now())
    ensures ok ==> c.world.objects == CleanSide(old(c.world.objects), old(c.view), side)
    ensures Swept(old(c.world.objects), side, InUse(old(c.view), side), c.world.objects)
    ensures ok <==> c.faults == old(c.faults)
  {
    var keep := HostsInUse(specs, side);
    ghost var m0 := c.Now();
    assert Between(WithoutHosts(m0.world.objects, Hosts(m0.world.objects, side) - keep), m0.world.objects, m0.world.objects);
    var r := c.Get(GatewayKey(side));
    if !r.Found? { return r.Missing?; }
    c.SafeNow();
    assert ShapedGateway(r.item, side);
    for i := 0 to |r.item.servers|
      invariant c.Valid() && Trimmed(m0, c.Now())
      invariant c.world.objects == if i == 0 then m0.world.objects else Sweep(m0.world.objects, side, keep)
      invariant c.faults == m0.faults
    {
      ghost var m1 := c.Now();
      ok := CleanupServer(c, side, r.item, i, keep);
      TrimmedOn(m0, m1, c.Now());
      if !ok { return; }
    }
    ok := true;
  }

  // ---- Policies --------------------------------------------------------------------

  /** `CleanupRemovedServiceAccountAuthzPolicies`. */
  method CleanupDropped(c: Cluster, spec: Spec) returns (ok: bool)
    requires c.Valid() && spec in c.view
    modifies c
    ensures c.Valid() && Trimmed(old(c.Now()), c.Now())
    ensures ok ==> c.world.objects == WithoutDropped(old(c.world.objects), spec)
    ensures Between(WithoutDropped(old(c.world.objects), spec), c.world.objects, old(c.world.objects))
    ensures ok <==> c.faults == old(c.faults)
    ensures (c.world.objects == old(c.world.objects) && c.faults == old(c.faults) + 1)
      || Bounded(old(c.Now()), c.Now(), old(c.world.objects).Keys - WithoutDropped(old(c.world.objects), spec).Keys)
  {
    ghost var s := c.world.objects;
    var left := (o: Object) => o.AuthorizationPolicy? && o.labels.account != "" && !Named(spec.accounts, o.labels.account);
    forall k | k in s && Matches(ByTeam(spec.project, spec.domain), s[k]) && left(s[k])
      ensures Removable(c.Known(), s[k])
    {
      assert MayDeletePolicy(c.Known(), spec, s[k].labels);
    }
    var _, done := DeleteMatching(c, ByTeam(spec.project, spec.domain), left, Manner(false, false));
    ok := done;
    DroppedMinus(s, spec, left);
  }

  lemma DroppedMinus(s: Store, spec: Spec, left: Object -> bool)
    requires forall o :: left(o) <==> o.AuthorizationPolicy? && o.labels.account != "" && !Named(spec.accounts, o.labels.account)
    ensures Minus(s, ByTeam(spec.project, spec.domain), left) == WithoutDropped(s, spec)
    ensures Hit(s, ByTeam(spec.project, spec.domain), left) == s.Keys - WithoutDropped(s, spec).Keys
  {
  }

  ghost function PolicyKeysOf(s: Store, spec: Spec, accounts: seq<Account>): set<Key> {
    set k | k in s && PolicyOf(s[k], spec, accounts)
  }

  /** The cleanup came to the i-th account: the policies of those before were all tried, and
      no others. Unless it came to the end, one more call failed, the listing for this one. */
  ghost predicate CameTo(a: Moment, b: Moment, spec: Spec, i: nat)
    requires i <= |spec.accounts|
  {
    var s, mine := a.world.objects, spec.accounts[..i];
    && Between(WithoutPoliciesOf(s, spec, mine), b.world.objects, s)
    && |PolicyKeysOf(s, spec, mine) * b.world.objects.Keys| + (if i < |spec.accounts| then 1 else 0) <= b.faults - a.faults
  }

  lemma CameFurther(a: Moment, b: Moment, c: Moment, spec: Spec, i: nat)
    requires i < |spec.accounts|
    requires Between(WithoutPoliciesOf(a.world.objects, spec, spec.accounts[..i]), b.world.objects, a.world.objects)
    requires Bounded(a, b, PolicyKeysOf(a.world.objects, spec, spec.accounts[..i]))
    requires var mine := ByAccount(spec.project, spec.domain, spec.accounts[i].name);
      && Between(Minus(b.world.objects, mine, (o: Object) => true), c.world.objects, b.world.objects)
      && Bounded(b, c, Hit(b.world.objects, mine, (o: Object) => true))
    ensures Between(WithoutPoliciesOf(a.world.objects, spec, spec.accounts[..i + 1]), c.world.objects, a.world.objects)
    ensures Bounded(a, c, PolicyKeysOf(a.world.objects, spec, spec.accounts[..i + 1]))
  {
    NamedNext(spec, i);
    FurtherBetween(a.world.objects, b.world.objects, c.world.objects, spec, i);
    FurtherHit(a.world.objects, b.world.objects, c.world.objects, spec, i);
    BoundedOn(a, b, c, PolicyKeysOf(a.world.objects, spec, spec.accounts[..i]),
              Hit(b.world.objects, ByAccount(spec.project, spec.domain, spec.accounts[i].name), (o: Object) => true));
  }

  lemma FurtherBetween(s: Store, s1: Store, s2: Store, spec: Spec, i: nat)
    requires i < |spec.accounts| && Between(WithoutPoliciesOf(s, spec, spec.accounts[..i]), s1, s)
    requires Between(Minus(s1, ByAccount(spec.project, spec.domain, spec.accounts[i].name), (o: Object) => true), s2, s1)
    ensures Between(WithoutPoliciesOf(s, spec, spec.accounts[..i + 1]), s2, s)
  {
    NamedNext(spec, i);
    forall k | k in WithoutPoliciesOf(s, spec, spec.accounts[..i + 1]) ensures k in s2 && s2[k] == s[k] {
      assert k in WithoutPoliciesOf(s, spec, spec.accounts[..i]);
      assert k in Minus(s1, ByAccount(spec.project, spec.domain, spec.accounts[i].name), (o: Object) => true);
    }
  }

  lemma FurtherHit(s: Store, s1: Store, s2: Store, spec: Spec, i: nat)
    requires i < |spec.accounts| && Between(WithoutPoliciesOf(s, spec, spec.accounts[..i]), s1, s) && s2.Keys <= s1.Keys
    ensures PolicyKeysOf(s, spec, spec.accounts[..i + 1]) * s2.Keys ==
      (PolicyKeysOf(s, spec, spec.accounts[..i])
       + Hit(s1, ByAccount(spec.project, spec.domain, spec.accounts[i].name), (o: Object) => true)) * s2.Keys
  {
    NamedNext(spec, i);
    var sel := ByAccount(spec.project, spec.domain, spec.accounts[i].name);
    forall k | k in s2.Keys
      ensures k in PolicyKeysOf(s, spec, spec.accounts[..i + 1]) <==>
        k in PolicyKeysOf(s, spec, spec.accounts[..i]) || k in Hit(s1, sel, (o: Object) => true)
    {
      assert k in s1.Keys && s1[k] == s[k];
    }
  }

  /** `CleanupUTSAServiceAccountAuthzPolicies`, for a resource that is being deleted. */
  method CleanupTerminated(c: Cluster, ghost name: string, spec: Spec) returns (ok: bool)
    requires c.Valid() && spec in c.view && spec !in c.live && Terminating(c.world.crs, name, spec)
    modifies c
    ensures c.Valid() && Trimmed(old(c.Now()), c.Now())
    ensures ok ==> c.world.objects == WithoutPoliciesOf(old(c.world.objects), spec, spec.accounts)
    ensures exists i :: 0 <= i <= |spec.accounts| && CameTo(old(c.Now()), c.Now(), spec, i)
    ensures ok <==> c.faults == old(c.faults)
  {
    ghost var m0 := c.Now();
    ok := true;
    AtFirst(m0, spec);
    for i := 0 to |spec.accounts|
      invariant c.Valid() && Trimmed(m0, c.Now()) && AllTried(m0, c.Now(), spec, i, ok)
    {
      ghost var m1 := c.Now();
      var mine := ByAccount(spec.project, spec.domain, spec.accounts[i].name);
      forall k | k in c.world.objects && Matches(mine, c.world.objects[k])
        ensures Removable(c.Known(), c.world.objects[k])
      {
        TerminatedRemovable(m1, name, spec, i, c.world.objects[k]);
      }
      var listed, removed := DeleteMatching(c, mine, (o: Object) => true, Manner(false, false));
      TrimmedOn(m0, m1, c.Now());
      if !listed {
        assert CameTo(m0, c.Now(), spec, i);
        return false;
      }
      AllTriedNext(m0, m1, c.Now(), spec, i, ok, removed);
      ok := ok && removed;
    }
    assert spec.accounts[..|spec.accounts|] == spec.accounts;
    assert CameTo(m0, c.Now(), spec, |spec.accounts|);
  }

  /** The policies of the first i accounts were all tried, and no others. */
  ghost predicate AllTried(a: Moment, b: Moment, spec: Spec, i: nat, ok: bool)
    requires i <= |spec.accounts|
  {
    var s, mine := a.world.objects, spec.accounts[..i];
    && (ok ==> b.world.objects == WithoutPoliciesOf(s, spec, mine))
    && Between(WithoutPoliciesOf(s, spec, mine), b.world.objects, s)
    && Bounded(a, b, PolicyKeysOf(s, spec, mine))
    && (ok <==> b.faults == a.faults)
  }

  lemma AtFirst(a: Moment, spec: Spec)
    ensures AllTried(a, a, spec, 0, true)
  {
    assert WithoutPoliciesOf(a.world.objects, spec, []) == a.world.objects;
    assert PolicyKeysOf(a.world.objects, spec, []) == {};
  }

  lemma AllTriedNext(a: Moment, b: Moment, c: Moment, spec: Spec, i: nat, ok: bool, removed: bool)
    requires i < |spec.accounts| && AllTried(a, b, spec, i, ok) && a.faults <= b.faults <= c.faults
    requires var mine := ByAccount(spec.project, spec.domain, spec.accounts[i].name);
      && (removed ==> c.world.objects == Minus(b.world.objects, mine, (o: Object) => true))
      && Between(Minus(b.world.objects, mine, (o: Object) => true), c.world.objects, b.world.objects)
      && Bounded(b, c, Hit(b.world.objects, mine, (o: Object) => true))
      && (removed <==> c.faults == b.faults)
    ensures AllTried(a, c, spec, i + 1, ok && removed)
  {
    PoliciesOfStep(a.world.objects, spec, i);
    CameFurther(a, b, c, spec, i);
  }

  lemma TerminatedRemovable(a: Moment, name: string, spec: Spec, i: nat, o: Object)
    requires spec in a.view && spec !in a.live && Terminating(a.world.crs, name, spec) && i < |spec.accounts|
    requires Matches(ByAccount(spec.project, spec.domain, spec.accounts[i].name), o)
    ensures Removable(a.Known(), o)
  {
    assert TerminatedWith(a.world.crs, spec, o.labels);
    assert MayDeletePolicy(a.Known(), spec, o.labels);
  }

  lemma PoliciesOfStep(s: Store, spec: Spec, i: nat)
    requires i < |spec.accounts|
    ensures Minus(WithoutPoliciesOf(s, spec, spec.accounts[..i]),
                  ByAccount(spec.project, spec.domain, spec.accounts[i].name), (o: Object) => true)
            == WithoutPoliciesOf(s, spec, spec.accounts[..i + 1])
  {
    NamedNext(spec, i);
  }

  lemma NamedNext(spec: Spec, i: nat)
    requires i < |spec.accounts|
    ensures forall name :: Named(spec.accounts[..i + 1], name) <==> Named(spec.accounts[..i], name) || name == spec.accounts[i].name
  {
    forall name ensures Named(spec.accounts[..i + 1], name) <==> Named(spec.accounts[..i], name) || name == spec.accounts[i].name {
      if Named(spec.accounts[..i], name) {
        var j :| 0 <= j < i && spec.accounts[..i][j].name == name;
        assert spec.accounts[..i + 1][j].name == name;
      }
      assert spec.accounts[..i + 1][i] == spec.accounts[i];
    }
  }

  ghost predicate RevokedByPair(done: set<(Spec, Account)>, l: Labels) {
    exists p :: p in done && RevokedBy(p.0, p.1, l)
  }

  ghost function WithoutRevokedBy(s: Store, done: set<(Spec, Account)>): Store {
    map k | k in s && !(s[k].AuthorizationPolicy? && RevokedByPair(done, s[k].labels)) :: s[k]
  }

  lemma RevokedByOne(spec: Spec, account: Account, l: Labels)
    ensures RevokedByPair({(spec, account)}, l) <==> RevokedBy(spec, account, l)
  {
    assert (spec, account) in {(spec, account)};
  }

  /** The internal policies of one account whose parent host is no longer allowed. */
  method CleanupRevokedOf(c: Cluster, spec: Spec, account: Account) returns (ok: bool)
    requires c.Valid() && spec in c.view && account in spec.accounts
    modifies c
    ensures c.Valid() && Trimmed(old(c.Now()), c.Now())
    ensures ok ==> c.world.objects == WithoutRevokedBy(old(c.world.objects), {(spec, account)})
    ensures Between(WithoutRevokedBy(old(c.world.objects), {(spec, account)}), c.world.objects, old(c.world.objects))
    ensures FailsFast(old(c.Now()), c.Now(), ok) && (c.faults == old(c.faults) ==> ok)
  {
    ghost var s := c.world.objects;
    var sel := ByInternal(spec.project, spec.domain, account.name);
    var gone := (o: Object) => o.AuthorizationPolicy? && o.labels.parent !in HostsOf(account.internal);
    forall k | k in s && Matches(sel, s[k]) && gone(s[k]) ensures Removable(c.Known(), s[k]) {
      assert RevokedBy(spec, account, s[k].labels);
      assert MayDeletePolicy(c.Known(), spec, s[k].labels);
    }
    var _, done := DeleteMatching(c, sel, gone, Manner(true, true));
    ok := done;
    forall k | k in s && s[k].AuthorizationPolicy?
      ensures (Matches(sel, s[k]) && gone(s[k])) <==> RevokedByPair({(spec, account)}, s[k].labels)
    {
      RevokedByOne(spec, account, s[k].labels);
    }
    assert Minus(s, sel, gone) == WithoutRevokedBy(s, {(spec, account)});
  }

  ghost function Pairs(specs: seq<Spec>): set<(Spec, Account)> {
    set spec, account | spec in specs && account in spec.accounts :: (spec, account)
  }

  ghost function PairsOf(spec: Spec, accounts: seq<Account>): set<(Spec, Account)> {
    set account | account in accounts :: (spec, account)
  }

  lemma RevokedByUnion(s: Store, done: set<(Spec, Account)>, more: set<(Spec, Account)>)
    ensures WithoutRevokedBy(WithoutRevokedBy(s, done), more) == WithoutRevokedBy(s, done + more)
  {
  }

  lemma RevokedBetween(s: Store, s': Store, done: set<(Spec, Account)>, more: set<(Spec, Account)>, all: set<(Spec, Account)>)
    requires done + more <= all
    requires Between(WithoutRevokedBy(WithoutRevokedBy(s, done), more), s', WithoutRevokedBy(s, done))
    ensures Between(WithoutRevokedBy(s, all), s', s)
  {
    forall k | k in WithoutRevokedBy(s, all) ensures k in s' && s'[k] == s[k] {
      assert k in WithoutRevokedBy(WithoutRevokedBy(s, done), more);
    }
  }

  method CleanupRevokedIn(c: Cluster, spec: Spec) returns (ok: bool)
    requires c.Valid() && spec in c.view
    modifies c
    ensures c.Valid() && Trimmed(old(c.Now()), c.Now())
    ensures ok ==> c.world.objects == WithoutRevokedBy(old(c.world.objects), PairsOf(spec, spec.accounts))
    ensures Between(WithoutRevokedBy(old(c.world.objects), PairsOf(spec, spec.accounts)), c.world.objects, old(c.world.objects))
    ensures FailsFast(old(c.Now()), c.Now(), ok) && (c.faults == old(c.faults) ==> ok)
  {
    ghost var m0, s := c.Now(), c.world.objects;
    assert WithoutRevokedBy(s, PairsOf(spec, [])) == s;
    for j := 0 to |spec.accounts|
      invariant c.Valid() && Trimmed(m0, c.Now())
      invariant c.world.objects == WithoutRevokedBy(s, PairsOf(spec, spec.accounts[..j])) && c.faults == m0.faults
    {
      ghost var m1 := c.Now();
      ok := CleanupRevokedOf(c, spec, spec.accounts[j]);
      TrimmedOn(m0, m1, c.Now());
      RevokedBetween(s, c.world.objects, PairsOf(spec, spec.accounts[..j]), {(spec, spec.accounts[j])}, PairsOf(spec, spec.accounts));
      if !ok { return; }
      RevokedByUnion(s, PairsOf(spec, spec.accounts[..j]), {(spec, spec.accounts[j])});
      assert spec.accounts[..j + 1] == spec.accounts[..j] + [spec.accounts[j]];
      assert PairsOf(spec, spec.accounts[..j + 1]) == PairsOf(spec, spec.accounts[..j]) + {(spec, spec.accounts[j])};
    }
    assert spec.accounts[..|spec.accounts|] == spec.accounts;
    ok := true;
  }

  lemma AllRevoked(s: Store, specs: seq<Spec>)
    ensures WithoutRevokedBy(s, Pairs(specs)) == WithoutRevoked(s, set x | x in specs)
  {
    forall l: Labels ensures RevokedByPair(Pairs(specs), l) <==> RevokedByAny((set x | x in specs), l) {
      if RevokedByPair(Pairs(specs), l) {
        var p :| p in Pairs(specs) && RevokedBy(p.0, p.1, l);
        assert Revoked(p.0, l);
      }
      if RevokedByAny((set x | x in specs), l) {
        var spec :| spec in specs && Revoked(spec, l);
        var account :| RevokedBy(spec, account, l);
        assert (spec, account) in Pairs(specs);
      }
    }
  }

  /** `cleanupInternalHosts`. */
  method CleanupRevoked(c: Cluster, specs: seq<Spec>) returns (ok: bool)
    requires c.Valid() && c.view == set s | s in specs
    modifies c
    ensures c.Valid() && Trimmed(old(c.Now()), c.Now())
    ensures ok ==> c.world.objects == WithoutRevoked(old(c.world.objects), old(c.view))
    ensures Between(WithoutRevoked(old(c.world.objects), old(c.view)), c.world.objects, old(c.world.objects))
    ensures FailsFast(old(c.Now()), c.Now(), ok) && (c.faults == old(c.faults) ==> ok)
  {
    ghost var m0, s := c.Now(), c.world.objects;
    assert WithoutRevokedBy(s, Pairs([])) == s;
    for i := 0 to |specs|
      invariant c.Valid() && Trimmed(m0, c.Now())
      invariant c.world.objects == WithoutRevokedBy(s, Pairs(specs[..i])) && c.faults == m0.faults
    {
      ghost var m1 := c.Now();
      ok := CleanupRevokedIn(c, specs[i]);
      TrimmedOn(m0, m1, c.Now());
      RevokedBetween(s, c.world.objects, Pairs(specs[..i]), PairsOf(specs[i], specs[i].accounts), Pairs(specs));
      AllRevoked(s, specs);
      if !ok { return; }
      RevokedByUnion(s, Pairs(specs[..i]), PairsOf(specs[i], specs[i].accounts));
      assert specs[..i + 1] == specs[..i] + [specs[i]];
      assert Pairs(specs[..i + 1]) == Pairs(specs[..i]) + PairsOf(specs[i], specs[i].accounts);
    }
    assert specs[..|specs|] == specs;
    AllRevoked(s, specs);
    ok := true;
  }

  /** How far the three cleanups came. Each begins only once the one before is complete. */
  ghost predicate CleanedSoFar(cfg: Config, start: Monitor, run: seq<Event>, n: nat, s: Store, specs: set<Spec>, s': Store) {
    var s1 := WithoutRevoked(s, specs);
    var s2 := CleanSide(s1, specs, ExternalSide);
    || Between(s1, s', s)
    || (Passed(cfg, start, run, n, s1) && Swept(s1, ExternalSide, InUse(specs, ExternalSide), s'))
    || (Passed(cfg, start, run, n, s2) && Swept(s2, CloudSQLSide, InUse(specs, CloudSQLSide), s'))
  }

  /** `CleanupUnusedHosts`: what all resources together no longer ask for. */
  method CleanupUnusedHosts(c: Cluster) returns (ok: bool)
    requires c.Valid()
    modifies c
    ensures c.Valid() && Onward(old(c.Now()), c.Now()) && SameAccounts(old(c.world.objects), c.world.objects)
    ensures c.world == old(c.world).(crs := c.world.crs, objects := c.world.objects)
    ensures ok ==> c.world.objects == CleanHosts(old(c.world.objects), c.view)
    ensures CleanedSoFar(c.cfg, c.start, c.run, |old(c.run)|, old(c.world.objects), c.view, c.world.objects)
    ensures c.edits == old(c.edits) ==> c.view == Specs(c.world.crs)
    ensures ok <==> c.faults == old(c.faults)
  {
    ghost var m0 := c.Now();
    var specs;
    ok, specs := c.ReadAll();
    assert Between(WithoutRevoked(c.world.objects, c.view), c.world.objects, c.world.objects);
    if !ok { return; }
    ghost var m1 := c.Now();
    ok := CleanupRevoked(c, specs);
    if !ok { return; }
    ghost var m2 := c.Now();
    ok := CleanupSide(c, ExternalSide, specs);
    TrimmedOn(m1, m2, c.Now());
    PassedThen(c.cfg, c.start, m2, c.run, |m0.run|);
    if !ok { return; }
    ghost var m3 := c.Now();
    ok := CleanupSide(c, CloudSQLSide, specs);
    TrimmedOn(m1, m3, c.Now());
    PassedThen(c.cfg, c.start, m3, c.run, |m0.run|);
  }
}
