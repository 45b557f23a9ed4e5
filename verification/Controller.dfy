/** The reconcile loop. */
module Controller {
  import opened Wrappers
  import opened Resources
  import opened Protocol
  import opened Safety
  import opened ApiServer
  import opened Convergence
  import opened EgressSpec
  import opened EgressReconciler
  import opened PolicyReconciler
  import opened EgressCleanup
  import opened AccountSpec
  import opened AccountFacts
  import opened AccountReconciler

  // ---- What a reconcile does when no call fails ------------------------------------

  ghost function WithFinalizer(crs: map<string, Resource>, name: string): map<string, Resource>
    requires name in crs
  {
    crs[name := crs[name].(finalizers := crs[name].finalizers + {FINALIZER})]
  }

  /** Only finalizers differ. */
  ghost predicate SameSpecs(crs: map<string, Resource>, crs': map<string, Resource>) {
    crs'.Keys == crs.Keys && forall n :: n in crs ==> crs'[n].spec == crs[n].spec && crs'[n].deleting == crs[n].deleting
  }

  /** The last event of the run wrote a resource, which may have been its end, and up to then
      only finalizers differ. */
  ghost predicate LastDrops(cfg: Config, start: Monitor, run: seq<Event>, crs: map<string, Resource>) {
    && run != [] && run[|run| - 1].Finalize?
    && Replay(cfg, start, run[..|run| - 1]).Some?
    && SameSpecs(crs, Replay(cfg, start, run[..|run| - 1]).value.world.crs)
  }

  /** The whole effect of one undisturbed reconcile, or None where it cannot succeed. */
  ghost function Reconciled(cfg: Config, w: World, name: string): Option<World> {
    if name !in w.crs then Some(w)
    else
      var cr := w.crs[name];
      if cr.deleting then
        if FINALIZER in cr.finalizers then
          Some(w.(objects := WithoutPoliciesOf(w.objects, cr.spec, cr.spec.accounts),
                  crs := StoreFinalizers(w.crs, name, cr.finalizers - {FINALIZER})))
        else Some(w)
      else
        var objects :- ObjectsPass(cfg, w.objects, cr.spec, Specs(w.crs));
        Some(World(WithFinalizer(w.crs, name), objects, w.history + RowsFor(cr, cr.spec.accounts)))
  }

  /** The effect of reconciling one name after the other, undisturbed. */
  ghost function Reconciles(cfg: Config, w: World, queue: seq<string>): Option<World> {
    if queue == [] then Some(w)
    else
      var w' :- Reconciles(cfg, w, queue[..|queue| - 1]);
      Reconciled(cfg, w', queue[|queue| - 1])
  }

  // ---- The history -----------------------------------------------------------------

  /** The operator wrote the history and nothing else. */
  ghost predicate Wrote(a: Moment, b: Moment) {
    && Kept(a, b) && a.world.history <= b.world.history
    && b.world == a.world.(crs := b.world.crs, history := b.world.history)
  }

  lemma WroteOn(a: Moment, b: Moment, c: Moment)
    requires Wrote(a, b) && Wrote(b, c)
    ensures Wrote(a, c)
  {
  }

  method PersistAllowlist(c: Cluster, cr: Resource) returns (ok: bool)
    requires c.Valid()
    modifies c
    ensures c.Valid() && Wrote(old(c.Now()), c.Now())
    ensures ok ==> c.world.history == old(c.world.history) + RowsFor(cr, cr.spec.accounts)
    ensures old(c.world.history) <= c.world.history <= old(c.world.history) + RowsFor(cr, cr.spec.accounts)
    ensures FailsFast(old(c.Now()), c.Now(), ok) && (c.faults == old(c.faults) ==> ok)
  {
    var accounts := cr.spec.accounts;
    ghost var m0 := c.Now();
    ok := c.Reach();                      // the client
    assert RowsFor(cr, []) == [] && m0.world.history <= m0.world.history + RowsFor(cr, accounts);
    if !ok { return; }
    ghost var m1 := c.Now();
    ok := c.Reach();                      // the table, created unless it exists
    WroteOn(m0, m1, c.Now());
    if !ok { return; }
    ghost var m2 := c.Now();
    ok := InsertRows(c, cr, accounts);
    WroteOn(m0, m2, c.Now());
    if !ok { return; }
    ghost var m3 := c.Now();
    ok := c.Reach();                      // closing the client
    WroteOn(m0, m3, c.Now());
  }

  lemma RowsNext(cr: Resource, accounts: seq<Account>, i: nat)
    requires i < |accounts|
    ensures RowsFor(cr, accounts[..i + 1]) == RowsFor(cr, accounts[..i]) + [RowFor(cr, accounts[i])]
    ensures RowsFor(cr, accounts[..i + 1]) == RowsFor(cr, accounts)[..i + 1] && RowsFor(cr, accounts[..i]) == RowsFor(cr, accounts)[..i]
  {
  }

  /** One row for each account, in order, up to the first that fails. */
  method InsertRows(c: Cluster, cr: Resource, accounts: seq<Account>) returns (ok: bool)
    requires c.Valid()
    modifies c
    ensures c.Valid() && Wrote(old(c.Now()), c.Now()) && FailsFast(old(c.Now()), c.Now(), ok) && (c.faults == old(c.faults) ==> ok)
    ensures ok ==> c.world.history == old(c.world.history) + RowsFor(cr, accounts)
    ensures c.world.history <= old(c.world.history) + RowsFor(cr, accounts)
  {
    ghost var m0 := c.Now();
    assert m0.world.history + RowsFor(cr, accounts[..0]) == m0.world.history;
    for i := 0 to |accounts|
      invariant c.Valid() && Wrote(m0, c.Now())
      invariant c.world.history == m0.world.history + RowsFor(cr, accounts[..i]) && c.faults == m0.faults
    {
      ghost var m2 := c.Now();
      RowsNext(cr, accounts, i);
      ok := c.Insert(RowFor(cr, accounts[i]));
      WroteOn(m0, m2, c.Now());
      if !ok { return; }
    }
    assert accounts[..|accounts|] == accounts;
    ok := true;
  }

  ghost predicate ListsHosts(list: seq<string>, hosts: seq<Host>) {
    |list| == |hosts| && forall i :: 0 <= i < |list| ==> list[i] == hosts[i].host
  }

  /** The value of an annotation, or nothing where the resource has none of that name. */
  predicate Brings(cr: Resource, name: string, value: string) {
    value == if name in cr.annotations then cr.annotations[name] else ""
  }

  /** One row for each account, in order: its allowlists as the resource has them, and who
      brought the resource here, from where and when. */
  lemma RowsExact(cr: Resource, i: nat)
    requires i < |cr.spec.accounts|
    ensures |RowsFor(cr, cr.spec.accounts)| == |cr.spec.accounts|
    ensures var row, account := RowsFor(cr, cr.spec.accounts)[i], cr.spec.accounts[i];
      && row.team == cr.spec.project && row.environment == cr.spec.domain && row.account == account.name
      && ListsHosts(row.internal, account.internal) && ListsHosts(row.external, account.external)
      && row.cloudSQL == account.cloudSQL && row.created == cr.created
      && Brings(cr, "data.nav.no/github.actor", row.actor)
      && Brings(cr, "data.nav.no/github.repository", row.repo)
      && Brings(cr, "data.nav.no/github.sha", row.hash)
  {
    assert RowsFor(cr, cr.spec.accounts)[i] == RowFor(cr, cr.spec.accounts[i]);
  }

  /** The rows of a resource cover every policy it asks for. */
  lemma RowsCover(cfg: Config, history: seq<Row>, cr: Resource, r: Request)
    requires forall row :: row in RowsFor(cr, cr.spec.accounts) ==> row in history
    requires Requested(cfg, cr.spec, r)
    ensures Recorded(history, r.labels)
  {
    var account := RequestAsksFor(cfg, cr.spec, cr.spec.accounts, r);
    var i :| 0 <= i < |cr.spec.accounts| && cr.spec.accounts[i] == account;
    var row := RowFor(cr, account);
    assert RowsFor(cr, cr.spec.accounts)[i] == row;
    if r.labels.hostType == External {
      var t :| (t in TargetsOf(account, ExternalSide) || t in TargetsOf(account, CloudSQLSide)) && Label(t) == r.labels.host;
      if t in TargetsOf(account, ExternalSide) {
        var j :| 0 <= j < |account.external| && TargetsOf(account, ExternalSide)[j] == t;
        assert HostsOf(account.external)[j] == r.labels.host;
      } else {
        var j :| 0 <= j < |account.cloudSQL| && TargetsOf(account, CloudSQLSide)[j] == t;
        assert account.cloudSQL[j] in row.cloudSQL;
      }
    }
    assert Covers(row, r.labels);
  }

  lemma RequestListed(cfg: Config, spec: Spec, s: Store, r: Request)
    requires forall t :: t in WantedTargets(spec) ==> Served(s, t)
    requires Requested(cfg, spec, r) && r.labels.hostType == External
    ensures Listed(s, r.labels.host)
  {
    var account := RequestAsksFor(cfg, spec, spec.accounts, r);
    var t :| (t in TargetsOf(account, ExternalSide) || t in TargetsOf(account, CloudSQLSide)) && Label(t) == r.labels.host;
    if t in TargetsOf(account, ExternalSide) {
      TargetsCover(spec.accounts, account, ExternalSide, t);
    } else {
      TargetsCover(spec.accounts, account, CloudSQLSide, t);
      assert |Label(t)| > 1;
    }
    assert t in WantedTargets(spec);
  }

  // ---- The egress part -------------------------------------------------------------

  /** The first half: both kinds of hosts, then the policies for them. */
  method EnsurePhase(c: Cluster, ghost name: string, spec: Spec) returns (ok: bool)
    requires c.Valid() && spec in c.view && spec in c.live && Held(c.world.crs, name, spec) && AccountsReady(c.world.objects, spec)
    requires forall r :: Requested(c.cfg, spec, r) ==> Recorded(c.world.history, r.labels)
    modifies c
    ensures c.Valid() && Ensured(old(c.Now()), c.Now(), ok)
    ensures ok ==> EnsureAll(c.cfg, old(c.world.objects), spec) == Some(c.world.objects)
    ensures !ok && c.faults == old(c.faults) ==> EnsureAll(c.cfg, old(c.world.objects), spec) == None
  {
    ghost var m0 := c.Now();
    WantedServed(m0.Known(), spec);
    ok := EnsureHosts(c, spec, spec.accounts, ExternalSide);
    if !ok { return; }
    ghost var m1 := c.Now();
    StillReady(m0.world.objects, m1.world.objects, spec);
    WantedServed(m1.Known(), spec);
    ok := EnsureHosts(c, spec, spec.accounts, CloudSQLSide);
    EnsuredOn(m0, m1, c.Now(), ok);
    if !ok { return; }
    ghost var m2 := c.Now();
    StillReady(m0.world.objects, m2.world.objects, spec);
    AllServed(m0.world.objects, m1.world.objects, c.world.objects, spec);
    forall r | Requested(c.cfg, spec, r) ensures Cleared(c.cfg, c.Known(), name, spec, r) {
      if r.labels.hostType == External { RequestListed(c.cfg, spec, c.world.objects, r); }
    }
    ok := EnsureAuthorizationPolicies(c, name, spec);
    EnsuredOn(m0, m2, c.Now(), ok);
  }

  lemma WantedServed(m: Monitor, spec: Spec)
    requires spec in m.view && AccountsReady(m.world.objects, spec)
    ensures forall side, t :: t in Targets(spec.accounts, side) ==> MayServe(m, spec, t)
  {
    forall side, t | t in Targets(spec.accounts, side) ensures MayServe(m, spec, t) {
      assert t in WantedTargets(spec) by { if side.ExternalSide? {} }
    }
  }

  lemma AllServed(s: Store, s1: Store, s2: Store, spec: Spec)
    requires EnsureTargets(s, Targets(spec.accounts, ExternalSide)) == Some(s1)
    requires EnsureTargets(s1, Targets(spec.accounts, CloudSQLSide)) == Some(s2)
    ensures forall t :: t in WantedTargets(spec) ==> Served(s2, t)
  {
    TargetsExtend(s, Targets(spec.accounts, ExternalSide), s1, WantedTargets(spec));
    TargetsExtend(s1, Targets(spec.accounts, CloudSQLSide), s2, WantedTargets(spec));
    forall t | t in Targets(spec.accounts, ExternalSide) ensures Served(s2, t) {
      ServedStays(s1, s2, t);
    }
  }

  // ---- How far it came -------------------------------------------------------------

  /** How far a run came in cleaning up after s. What is unused goes only once the policies of
      dropped accounts are all gone. */
  ghost predicate Cleaning(cfg: Config, start: Monitor, run: seq<Event>, n: nat, s: Store, spec: Spec, specs: set<Spec>, s': Store) {
    var s1 := WithoutDropped(s, spec);
    || Between(s1, s', s)
    || (Passed(cfg, start, run, n, s1) && CleanedSoFar(cfg, start, run, n, s1, specs, s'))
  }

  /** How far a run came with the egress part. Nothing is lost unless everything the resource
      asks for was ensured before. */
  ghost predicate Egressing(cfg: Config, start: Monitor, run: seq<Event>, n: nat, s: Store, spec: Spec, specs: set<Spec>, s': Store) {
    || Grows(s, s')
    || (var ensured := EnsureAll(cfg, s, spec);
        ensured.Some? && Passed(cfg, start, run, n, ensured.value) && Cleaning(cfg, start, run, n, ensured.value, spec, specs, s'))
  }

  /** How far a run came with the objects: the egress part begins only once the service
      account part is complete, and leaves it so. */
  ghost predicate Objecting(cfg: Config, start: Monitor, run: seq<Event>, n: nat, s: Store, spec: Spec, specs: set<Spec>, s': Store) {
    || (SameEgress(s, s') && (s.Keys <= s'.Keys || Passed(cfg, start, run, n, EnsureAccounts(cfg, s, spec, spec.accounts))))
    || (var done := AccountsDone(cfg, s, spec);
        && Passed(cfg, start, run, n, done) && AccountsReady(s', spec)
        && Egressing(cfg, start, run, n, done, spec, specs, s'))
  }

  lemma CleaningSince(cfg: Config, start: Monitor, run: seq<Event>, n: nat, since: nat, s: Store, spec: Spec, specs: set<Spec>, s': Store)
    requires since <= n && Cleaning(cfg, start, run, n, s, spec, specs, s')
    ensures Cleaning(cfg, start, run, since, s, spec, specs, s')
  {
    var s1 := WithoutDropped(s, spec);
    PassedSince(cfg, start, run, n, since, s1);
    CleanedSince(cfg, start, run, n, since, s1, specs, s');
  }

  lemma CleanedSince(cfg: Config, start: Monitor, run: seq<Event>, n: nat, since: nat, s: Store, specs: set<Spec>, s': Store)
    requires since <= n
    ensures CleanedSoFar(cfg, start, run, n, s, specs, s') ==> CleanedSoFar(cfg, start, run, since, s, specs, s')
  {
    var s1 := WithoutRevoked(s, specs);
    PassedSince(cfg, start, run, n, since, s1);
    PassedSince(cfg, start, run, n, since, CleanSide(s1, specs, ExternalSide));
  }

  lemma EgressingSince(cfg: Config, start: Monitor, run: seq<Event>, n: nat, since: nat, s: Store, spec: Spec, specs: set<Spec>, s': Store)
    requires since <= n && Egressing(cfg, start, run, n, s, spec, specs, s')
    ensures Egressing(cfg, start, run, since, s, spec, specs, s')
  {
    if !Grows(s, s') {
      var ensured := EnsureAll(cfg, s, spec).value;
      PassedSince(cfg, start, run, n, since, ensured);
      CleaningSince(cfg, start, run, n, since, ensured, spec, specs, s');
    }
  }

  lemma ObjectingSince(cfg: Config, start: Monitor, run: seq<Event>, n: nat, since: nat, s: Store, spec: Spec, specs: set<Spec>, s': Store)
    requires since <= n && Objecting(cfg, start, run, n, s, spec, specs, s')
    ensures Objecting(cfg, start, run, since, s, spec, specs, s')
  {
    PassedSince(cfg, start, run, n, since, EnsureAccounts(cfg, s, spec, spec.accounts));
    var done := AccountsDone(cfg, s, spec);
    PassedSince(cfg, start, run, n, since, done);
    if Egressing(cfg, start, run, n, done, spec, specs, s') { EgressingSince(cfg, start, run, n, since, done, spec, specs, s'); }
  }

  // ---- The phases ------------------------------------------------------------------

  /** The second half: policies of dropped accounts, then whatever is no longer used. */
  method CleanPhase(c: Cluster, spec: Spec) returns (ok: bool)
    requires c.Valid() && spec in c.view
    modifies c
    ensures c.Valid() && Onward(old(c.Now()), c.Now()) && SameAccounts(old(c.world.objects), c.world.objects)
    ensures c.world == old(c.world).(crs := c.world.crs, objects := c.world.objects)
    ensures ok ==> c.world.objects == CleanAll(old(c.world.objects), spec, c.view)
    ensures Cleaning(c.cfg, c.start, c.run, |old(c.run)|, old(c.world.objects), spec, c.view, c.world.objects)
    ensures ok && c.edits == old(c.edits) ==> c.view == Specs(c.world.crs)
    ensures ok <==> c.faults == old(c.faults)
  {
    ghost var m0 := c.Now();
    ok := CleanupDropped(c, spec);
    if !ok { return; }
    ghost var m1 := c.Now();
    ok := CleanupUnusedHosts(c);
    OnwardOn(m0, m1, c.Now());
    PassedThen(c.cfg, c.start, m1, c.run, |m0.run|);
    CleanedSince(c.cfg, c.start, c.run, |m1.run|, |m0.run|, m1.world.objects, c.view, c.world.objects);
  }

  // ---- The reconcile ---------------------------------------------------------------

  method EgressPhase(c: Cluster, ghost name: string, spec: Spec) returns (ok: bool)
    requires c.Valid() && spec in c.view && spec in c.live && Held(c.world.crs, name, spec) && AccountsReady(c.world.objects, spec)
    requires forall r :: Requested(c.cfg, spec, r) ==> Recorded(c.world.history, r.labels)
    modifies c
    ensures c.Valid() && Onward(old(c.Now()), c.Now()) && SameAccounts(old(c.world.objects), c.world.objects)
    ensures c.world == old(c.world).(crs := c.world.crs, objects := c.world.objects)
    ensures ok ==> EgressPass(c.cfg, old(c.world.objects), spec, c.view) == Some(c.world.objects)
    ensures Egressing(c.cfg, c.start, c.run, |old(c.run)|, old(c.world.objects), spec, c.view, c.world.objects)
    ensures ok && c.edits == old(c.edits) ==> c.view == Specs(old(c.world.crs))
    ensures ok ==> c.faults == old(c.faults)
    ensures !ok && c.faults == old(c.faults) ==>
      EgressPass(c.cfg, old(c.world.objects), spec, Specs(old(c.world.crs))) == None
  {
    ghost var m0 := c.Now();
    ok := EnsurePhase(c, name, spec);
    if !ok { return; }
    ghost var m1 := c.Now();
    ok := CleanPhase(c, spec);
    OnwardOn(m0, m1, c.Now());
    PassedThen(c.cfg, c.start, m1, c.run, |m0.run|);
    CleaningSince(c.cfg, c.start, c.run, |m1.run|, |m0.run|, m1.world.objects, spec, c.view, c.world.objects);
  }

  /** Both cleanups of service accounts run; the second finds nothing left to do. */
  method AccountPhase(c: Cluster, spec: Spec) returns (ok: bool)
    requires c.Valid() && spec in c.view
    modifies c
    ensures c.Valid() && Accounted(old(c.Now()), c.Now())
    ensures ok ==> c.world.objects == AccountsDone(c.cfg, old(c.world.objects), spec)
    ensures EnsuredFirst(c, |old(c.run)|, old(c.world.objects), spec)
    ensures ok <==> c.faults == old(c.faults)
  {
    ghost var m0 := c.Now();
    c.SafeNow();
    ok := CreateOrUpdateServiceAccounts(c, spec);
    if !ok { return; }
    ghost var m1 := c.Now();
    ok := CleanupRemovedAccounts(c, spec);
    AccountedOn(m0, m1, c.Now());
    SecondIdle(c.cfg, m0.world.objects, spec, c.world.objects);
    if !(m0.world.objects.Keys <= m1.world.objects.Keys) {
      PassedLater(c.cfg, c.start, m1.run, c.run, |m0.run|, EnsureAccounts(c.cfg, m0.world.objects, spec, spec.accounts));
    }
  }

  /** The second cleanup has nothing to delete, whether or not its calls fail. */
  lemma SecondIdle(cfg: Config, s: Store, spec: Spec, s': Store)
    requires Keyed(s) && Between(CleanAccounts(cfg, AccountPass(cfg, s, spec), spec), s', AccountPass(cfg, s, spec))
    ensures s' == AccountPass(cfg, s, spec) == AccountsDone(cfg, s, spec)
  {
    EnsuredKeyed(cfg, s, spec, spec.accounts);
    SecondCleanupIdle(cfg, EnsureAccounts(cfg, s, spec, spec.accounts), spec);
  }

  method ObjectsPhase(c: Cluster, ghost name: string, spec: Spec) returns (ok: bool)
    requires c.Valid() && spec in c.view && spec in c.live && Held(c.world.crs, name, spec)
    requires forall r :: Requested(c.cfg, spec, r) ==> Recorded(c.world.history, r.labels)
    modifies c
    ensures c.Valid() && Onward(old(c.Now()), c.Now())
    ensures c.world == old(c.world).(crs := c.world.crs, objects := c.world.objects)
    ensures ok ==> ObjectsPass(c.cfg, old(c.world.objects), spec, c.view) == Some(c.world.objects)
    ensures Objecting(c.cfg, c.start, c.run, |old(c.run)|, old(c.world.objects), spec, c.view, c.world.objects)
    ensures ok && c.edits == old(c.edits) ==> c.view == Specs(old(c.world.crs))
    ensures ok ==> c.faults == old(c.faults)
    ensures !ok && c.faults == old(c.faults) ==>
      ObjectsPass(c.cfg, old(c.world.objects), spec, Specs(old(c.world.crs))) == None
  {
    ghost var m0 := c.Now();
    c.SafeNow();
    PassReady(c.cfg, c.world.objects, spec);
    ok := AccountPhase(c, spec);
    if !ok { return; }
    ghost var m1 := c.Now();
    ok := EgressPhase(c, name, spec);
    OnwardOn(m0, m1, c.Now());
    PassedThen(c.cfg, c.start, m1, c.run, |m0.run|);
    EgressingSince(c.cfg, c.start, c.run, |m1.run|, |m0.run|, m1.world.objects, spec, c.view, c.world.objects);
    StillReady(m1.world.objects, c.world.objects, spec);
  }

  /** What a normal reconcile does once the finalizer is stored: it works with the resource
      as it was read at the start, and cleans by the specifications as it listed them last,
      whatever users change in between. Wherever it fails, no object is touched before all
      rows are in the history, and the objects tell how far it came. */
  method ReconcileNormal(c: Cluster, ghost name: string, cr: Resource) returns (ok: bool)
    requires c.Valid() && cr.spec in c.view && cr.spec in c.live && Held(c.world.crs, name, cr.spec)
    modifies c
    ensures c.Valid() && Onward(old(c.Now()), c.Now())
    ensures ok ==> ObjectsPass(c.cfg, old(c.world.objects), cr.spec, c.view) == Some(c.world.objects)
    ensures ok ==> c.world.history == old(c.world.history) + RowsFor(cr, cr.spec.accounts)
    ensures Normal(c, |old(c.run)|, old(c.world), cr)
    ensures ok && c.edits == old(c.edits) ==> c.view == Specs(old(c.world.crs))
    ensures ok ==> c.faults == old(c.faults)
    ensures !ok && c.faults == old(c.faults) ==>
      ObjectsPass(c.cfg, old(c.world.objects), cr.spec, Specs(old(c.world.crs))) == None
  {
    ghost var m0 := c.Now();
    ok := PersistAllowlist(c, cr);
    assert SameEgress(m0.world.objects, c.world.objects);
    if !ok { return; }
    ghost var m1 := c.Now();
    forall r | Requested(c.cfg, cr.spec, r) ensures Recorded(c.world.history, r.labels) {
      RowsCover(c.cfg, c.world.history, cr, r);
    }
    ok := ObjectsPhase(c, name, cr.spec);
    OnwardOn(m0, m1, c.Now());
    ObjectingSince(c.cfg, c.start, c.run, |m1.run|, |m0.run|, m1.world.objects, cr.spec, c.view, c.world.objects);
  }

  /** Whatever failed: the history gained rows of the resource in order, all of them before
      any object changed, and the objects tell how far the reconcile came. */
  ghost predicate Normal(c: Cluster, n: nat, w: World, cr: Resource)
    reads c
  {
    var rows := RowsFor(cr, cr.spec.accounts);
    && w.history <= c.world.history <= w.history + rows
    && (c.world.objects == w.objects || c.world.history == w.history + rows)
    && Objecting(c.cfg, c.start, c.run, n, w.objects, cr.spec, c.view, c.world.objects)
  }

  /** Whatever failed, a deletion touches nothing but the policies of the listed accounts. */
  ghost predicate Ended(w: World, w': World, cr: Resource) {
    w'.history == w.history && Between(WithoutPoliciesOf(w.objects, cr.spec, cr.spec.accounts), w'.objects, w.objects)
  }

  lemma EndedBetween(s: Store, s': Store, spec: Spec, i: nat)
    requires i <= |spec.accounts| && Between(WithoutPoliciesOf(s, spec, spec.accounts[..i]), s', s)
    ensures Between(WithoutPoliciesOf(s, spec, spec.accounts), s', s)
  {
    forall k | k in WithoutPoliciesOf(s, spec, spec.accounts) ensures k in s' && s'[k] == s[k] {
      if s[k].AuthorizationPolicy? && Named(spec.accounts[..i], s[k].labels.account) {
        var j :| 0 <= j < i && spec.accounts[..i][j].name == s[k].labels.account;
        assert spec.accounts[j].name == s[k].labels.account;
      }
      assert k in WithoutPoliciesOf(s, spec, spec.accounts[..i]);
    }
  }

  lemma CameBetween(a: Moment, b: Moment, spec: Spec)
    requires exists i :: 0 <= i <= |spec.accounts| && CameTo(a, b, spec, i)
    ensures Between(WithoutPoliciesOf(a.world.objects, spec, spec.accounts), b.world.objects, a.world.objects)
  {
    var i :| 0 <= i <= |spec.accounts| && CameTo(a, b, spec, i);
    EndedBetween(a.world.objects, b.world.objects, spec, i);
  }

  /** Takes the finalizer off, once no policy of the listed accounts is left. */
  method LetGo(c: Cluster, name: string, cr: Resource) returns (ok: bool)
    requires c.Valid() && cr.deleting && NoPolicyOf(c.world.objects, cr.spec)
    modifies c
    ensures c.Valid() && Finalized(old(c.Now()), c.Now())
    ensures c.edits == old(c.edits) && name in old(c.world.crs) && old(c.world.crs)[name] == cr ==>
      (ok ==> c.world.crs == StoreFinalizers(old(c.world.crs), name, cr.finalizers - {FINALIZER}))
      && (c.faults == old(c.faults) ==> ok)
    ensures c.edits == old(c.edits) ==>
      c.world.crs == old(c.world.crs) || LastDrops(c.cfg, c.start, c.run, old(c.world.crs))
  {
    ghost var before := c.run;
    var r := c.Store(name, cr, cr.finalizers - {FINALIZER});
    ok := r.Done?;
    if c.edits == old(c.edits) && c.run != before { assert c.run[..|c.run| - 1] == before; }
  }

  lemma ListedGone(s: Store, spec: Spec)
    ensures NoPolicyOf(WithoutPoliciesOf(s, spec, spec.accounts), spec)
  {
  }

  /** The deletion branch: the policies first, the finalizer after. */
  method ReconcileDeleted(c: Cluster, name: string, cr: Resource) returns (ok: bool)
    requires c.Valid() && cr.spec in c.view && cr.spec !in c.live && cr.deleting
    requires FINALIZER in cr.finalizers ==> Terminating(c.world.crs, name, cr.spec)
    requires name in c.world.crs && c.world.crs[name] == cr
    modifies c
    ensures c.Valid() && old(c.run) <= c.run && old(c.edits) <= c.edits && old(c.faults) <= c.faults
    ensures ok && c.edits == old(c.edits) ==> Reconciled(c.cfg, old(c.world), name) == Some(c.world)
    ensures Ended(old(c.world), c.world, cr)
    ensures c.faults == old(c.faults) && c.edits == old(c.edits) ==> ok
    ensures c.edits == old(c.edits) ==>
      SameSpecs(old(c.world.crs), c.world.crs) || LastDrops(c.cfg, c.start, c.run, old(c.world.crs))
  {
    if FINALIZER !in cr.finalizers { return true; }
    ghost var m0 := c.Now();
    ok := CleanupTerminated(c, name, cr.spec);
    CameBetween(m0, c.Now(), cr.spec);
    ListedGone(m0.world.objects, cr.spec);
    if !ok { return; }
    ok := LetGo(c, name, cr);
  }

  /** Adds the finalizer before anything else, unless it is there. */
  method EnsureFinalizer(c: Cluster, name: string, cr: Resource) returns (ok: bool)
    requires c.Valid() && !cr.deleting && name in c.world.crs && c.world.crs[name] == cr
    modifies c
    ensures c.Valid() && Finalized(old(c.Now()), c.Now())
    ensures ok ==> Held(c.world.crs, name, cr.spec)
    ensures ok && c.edits == old(c.edits) ==> c.world.crs == WithFinalizer(old(c.world.crs), name)
    ensures c.edits == old(c.edits) ==> SameSpecs(old(c.world.crs), c.world.crs)
    ensures c.faults == old(c.faults) && c.edits == old(c.edits) ==> ok
  {
    if FINALIZER in cr.finalizers {
      assert cr.finalizers + {FINALIZER} == cr.finalizers;
      assert c.world.crs[name := cr] == c.world.crs;
      return true;
    }
    var r := c.Store(name, cr, cr.finalizers + {FINALIZER});
    ok := r.Done?;
  }

  lemma FinalizerKeepsSpecs(crs: map<string, Resource>, name: string)
    requires name in crs
    ensures Specs(WithFinalizer(crs, name)) == Specs(crs)
  {
    var crs' := WithFinalizer(crs, name);
    assert forall n :: n in crs <==> n in crs';
    assert forall n :: n in crs ==> crs'[n].spec == crs[n].spec;
  }

  /** Whatever failed: nothing is written for the resource before it holds the finalizer. */
  ghost predicate Begun(w: World, w': World, name: string, spec: Spec) {
    w' == w.(crs := w'.crs) || Held(w'.crs, name, spec)
  }

  method ReconcileLive(c: Cluster, name: string, cr: Resource) returns (ok: bool)
    requires c.Valid() && cr.spec in c.view && cr.spec in c.live && !cr.deleting && name in c.world.crs && c.world.crs[name] == cr
    modifies c
    ensures c.Valid() && old(c.run) <= c.run && old(c.edits) <= c.edits && old(c.faults) <= c.faults
    ensures ok && c.edits == old(c.edits) ==> Reconciled(c.cfg, old(c.world), name) == Some(c.world)
    ensures c.faults == old(c.faults) && c.edits == old(c.edits) ==> (ok <==> Reconciled(c.cfg, old(c.world), name).Some?)
    ensures c.edits == old(c.edits) ==> SameSpecs(old(c.world.crs), c.world.crs)
    ensures Begun(old(c.world), c.world, name, cr.spec) && Normal(c, |old(c.run)|, old(c.world), cr)
  {
    ghost var m1 := c.Now();
    ok := EnsureFinalizer(c, name, cr);
    assert Objecting(c.cfg, c.start, c.run, |m1.run|, m1.world.objects, cr.spec, c.view, c.world.objects);
    if !ok { return; }
    FinalizerKeepsSpecs(m1.world.crs, name);
    ghost var m2 := c.Now();
    ok := ReconcileNormal(c, name, cr);
    assert m1.run <= m2.run <= c.run;
    ObjectingSince(c.cfg, c.start, c.run, |m2.run|, |m1.run|, m1.world.objects, cr.spec, c.view, c.world.objects);
  }

  /** What a reconcile did, to success or to whatever call failed, by the resource as it was
      read at the start, if it was. */
  ghost predicate Outcome(c: Cluster, n: nat, w: World, name: string, read: Option<Resource>)
    reads c
  {
    match read
    case None => c.world == w.(crs := c.world.crs)
    case Some(cr) =>
      if cr.deleting then Ended(w, c.world, cr)
      else Begun(w, c.world, name, cr.spec) && Normal(c, n, w, cr)
  }

  /** One reconcile of the named resource. */
  method Reconcile(c: Cluster, name: string) returns (ok: bool, ghost read: Option<Resource>)
    requires c.Valid()
    modifies c
    ensures c.Valid() && old(c.run) <= c.run && old(c.edits) <= c.edits && old(c.faults) <= c.faults
    ensures ok && c.edits == old(c.edits) ==> Reconciled(c.cfg, old(c.world), name) == Some(c.world)
    ensures c.faults == old(c.faults) && c.edits == old(c.edits) ==> (ok <==> Reconciled(c.cfg, old(c.world), name).Some?)
    ensures Outcome(c, |old(c.run)|, old(c.world), name, read)
    ensures c.edits == old(c.edits) && read.Some? ==> name in old(c.world.crs) && old(c.world.crs)[name] == read.value
    ensures c.edits == old(c.edits) ==> old(c.run) + [Look] <= c.run
    ensures c.edits == old(c.edits) ==>
      SameSpecs(old(c.world.crs), c.world.crs) || LastDrops(c.cfg, c.start, c.run, old(c.world.crs))
  {
    ghost var m0 := c.Now();
    read := None;
    var r := c.Read(name);
    if !r.Found? { return r.Missing?, None; }
    var cr := r.item;
    read := Some(cr);
    ghost var m1 := c.Now();
    c.SafeNow();
    if cr.deleting {
      ok := ReconcileDeleted(c, name, cr);
      return;
    }
    ok := ReconcileLive(c, name, cr);
    ObjectingSince(c.cfg, c.start, c.run, |m1.run|, |m0.run|, m0.world.objects, cr.spec, c.view, c.world.objects);
  }

  lemma ReconcilesNext(cfg: Config, w: World, queue: seq<string>, i: nat)
    requires i < |queue|
    ensures Reconciles(cfg, w, queue[..i + 1]) ==
      match Reconciles(cfg, w, queue[..i])
      case None => None
      case Some(w') => Reconciled(cfg, w', queue[i])
  {
    assert queue[..i + 1][..i] == queue[..i];
  }

  /** The one worker: reconciles what the queue holds, one after the other, a failed one
      as often as it comes up again. Whatever fails and whatever users edit meanwhile, the
      world is safe at every call boundary; and if nothing disturbs it, the world becomes
      what the reconciles make of it one by one. */
  method Work(c: Cluster, queue: seq<string>)
    requires c.Valid()
    modifies c
    ensures c.Valid() && old(c.run) <= c.run && old(c.edits) <= c.edits && old(c.faults) <= c.faults
    ensures c.faults == old(c.faults) && c.edits == old(c.edits) && Reconciles(c.cfg, old(c.world), queue).Some? ==>
      Reconciles(c.cfg, old(c.world), queue) == Some(c.world)
    ensures forall i :: 0 <= i <= |c.run| ==>
      Replay(c.cfg, c.start, c.run[..i]).Some? && Safe(c.cfg, Replay(c.cfg, c.start, c.run[..i]).value.world)
  {
    for i := 0 to |queue|
      invariant c.Valid() && old(c.run) <= c.run && old(c.edits) <= c.edits && old(c.faults) <= c.faults
      invariant c.faults == old(c.faults) && c.edits == old(c.edits) && Reconciles(c.cfg, old(c.world), queue[..i]).Some? ==>
        Reconciles(c.cfg, old(c.world), queue[..i]) == Some(c.world)
    {
      ReconcilesNext(c.cfg, old(c.world), queue, i);
      var ok, _ := Reconcile(c, queue[i]);
    }
    assert queue[..|queue|] == queue;
    forall i | 0 <= i <= |c.run|
      ensures Replay(c.cfg, c.start, c.run[..i]).Some? && Safe(c.cfg, Replay(c.cfg, c.start, c.run[..i]).value.world)
    {
      SafeThroughout(c.cfg, c.start, c.run, i);
    }
  }
}
