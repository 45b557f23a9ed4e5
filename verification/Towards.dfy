/** The run theorems, brought back to the methods that make the runs. */
module Towards {
  import opened Wrappers
  import opened Resources
  import opened Protocol
  import opened Safety
  import opened ApiServer
  import opened Separation
  import opened Confluence
  import opened Scoped
  import opened Routes
  import opened Progress
  import opened Guarantees
  import opened Controller
  import opened Queues

  // ---- Runs without edits ----------------------------------------------------------

  lemma {:induction false} EditsAppend(a: seq<Event>, b: seq<Event>)
    ensures Edits(a + b) >= Edits(a)
    ensures Edits(a + b) == Edits(a) ==> forall e :: e in b ==> !e.Edit?
    decreases |b|
  {
    if b == [] {
      assert a + b == a;
    } else {
      assert (a + b)[..|a + b| - 1] == a + b[..|b| - 1];
      EditsAppend(a, b[..|b| - 1]);
      assert b == b[..|b| - 1] + [b[|b| - 1]];
    }
  }

  /** Resources may go, and finalizers may change. */
  ghost predicate Fewer(crs: map<string, Resource>, crs': map<string, Resource>) {
    forall n :: n in crs' ==> n in crs && crs'[n].spec == crs[n].spec && crs'[n].deleting == crs[n].deleting
  }

  lemma {:induction false} FewerLater(cfg: Config, m: Monitor, run: seq<Event>)
    requires Replay(cfg, m, run).Some? && forall e :: e in run ==> !e.Edit?
    ensures Fewer(m.world.crs, Replay(cfg, m, run).value.world.crs)
    decreases |run|
  {
    if run != [] {
      FewerLater(cfg, m, run[..|run| - 1]);
      assert run[|run| - 1] in run;
    }
  }

  lemma BetweenSame(a: map<string, Resource>, b: map<string, Resource>, c: map<string, Resource>)
    requires Fewer(a, b) && Fewer(b, c) && SameSpecs(a, c)
    ensures SameSpecs(a, b)
  {
    forall n ensures n in a.Keys <==> n in b.Keys { assert n in a.Keys <==> n in c.Keys; }
  }

  lemma ReadsSameAfter(cfg: Config, m: Monitor, run: seq<Event>)
    requires run != [] && ReadsSame(cfg, m, run[..|run| - 1])
    requires Replay(cfg, m, run).Some? ==> SameReading(m, Replay(cfg, m, run).value)
    ensures ReadsSame(cfg, m, run)
  {
    var before := run[..|run| - 1];
    forall i | 0 <= i <= |run| ensures ReadsSameAt(cfg, m, run, i) {
      if i < |run| {
        assert before[..i] == run[..i] && ReadsSameAt(cfg, m, before, i);
      } else {
        assert run[..i] == run;
      }
    }
  }

  /** Without edits and without a resource going, every read finds the same. */
  lemma {:induction false} QuietReads(cfg: Config, w: World, run: seq<Event>)
    requires Replay(cfg, Fresh(w), run).Some? && forall e :: e in run ==> !e.Edit?
    requires SameSpecs(w.crs, Replay(cfg, Fresh(w), run).value.world.crs)
    ensures ReadsSame(cfg, Fresh(w), run)
    decreases |run|
  {
    var m := Fresh(w);
    if run == [] {
      assert run[..0] == run;
    } else {
      var before := run[..|run| - 1];
      var n := Replay(cfg, m, before).value;
      FewerLater(cfg, m, before);
      assert run[|run| - 1] in run;
      assert Fewer(n.world.crs, Replay(cfg, m, run).value.world.crs);
      BetweenSame(w.crs, n.world.crs, Replay(cfg, m, run).value.world.crs);
      QuietReads(cfg, w, before);
      SameSpecsSet(w.crs, n.world.crs);
      assert before[..|before|] == before && ReadsSameAt(cfg, m, before, |before|);
      ReadsSameAfter(cfg, m, run);
    }
  }

  // ---- One reconcile ---------------------------------------------------------------

  lemma LookedOnce(cfg: Config, start: Monitor, a: seq<Event>, w: World)
    requires Replay(cfg, start, a).Some? && Replay(cfg, start, a).value.world == w
    ensures Replay(cfg, start, a + [Look]) == Some(Fresh(w))
  {
    assert (a + [Look])[..|a + [Look]| - 1] == a;
  }

  /** The part of a run that comes after a read. */
  lemma Tail(cfg: Config, start: Monitor, a: seq<Event>, b: seq<Event>, w: World)
    requires Replay(cfg, start, a).Some? && Replay(cfg, start, a).value.world == w
    requires Replay(cfg, start, a + [Look] + b).Some?
    ensures Replay(cfg, Fresh(w), b) == Replay(cfg, start, a + [Look] + b)
  {
    LookedOnce(cfg, start, a, w);
    ReplayAppend(cfg, start, a + [Look], b);
  }

  lemma TailDrops(cfg: Config, start: Monitor, a: seq<Event>, b: seq<Event>, w: World)
    requires Replay(cfg, start, a).Some? && Replay(cfg, start, a).value.world == w
    requires LastDrops(cfg, start, a + [Look] + b, w.crs)
    ensures LastDrops(cfg, Fresh(w), b, w.crs)
  {
    var run := a + [Look] + b;
    assert run[|run| - 1] == if b == [] then Look else b[|b| - 1];
    assert run[..|run| - 1] == a + [Look] + b[..|b| - 1];
    Tail(cfg, start, a, b[..|b| - 1], w);
  }

  lemma TailEdits(a: seq<Event>, b: seq<Event>)
    requires Edits(a + [Look] + b) == Edits(a)
    ensures forall e :: e in b ==> !e.Edit?
  {
    assert a + [Look] + b == a + ([Look] + b);
    EditsAppend(a, [Look] + b);
  }

  lemma TailReads(cfg: Config, w: World, b: seq<Event>)
    requires Replay(cfg, Fresh(w), b).Some? && forall e :: e in b ==> !e.Edit?
    requires SameSpecs(w.crs, Replay(cfg, Fresh(w), b).value.world.crs) || LastDrops(cfg, Fresh(w), b, w.crs)
    ensures ReadsSame(cfg, Fresh(w), b)
  {
    if SameSpecs(w.crs, Replay(cfg, Fresh(w), b).value.world.crs) {
      QuietReads(cfg, w, b);
    } else {
      var before := b[..|b| - 1];
      QuietReads(cfg, w, before);
      assert before[..|before|] == before && ReadsSameAt(cfg, Fresh(w), before, |before|);
      ReadsSameAfter(cfg, Fresh(w), b);
    }
  }

  lemma FewerApart(cfg: Config, scope: Scope, m: Monitor, fewer: set<Spec>, live: set<Spec>)
    requires Apart(cfg, scope, m) && live <= fewer <= m.view
    ensures Apart(cfg, scope, m.(view := fewer, live := live))
  {
    FewerWithin(cfg, scope, m.view, fewer);
  }

  /** What one read and what follows it do to the distance. */
  lemma LookedProgress(cfg: Config, scope: Scope, w: World, b: seq<Event>)
    requires Apart(cfg, scope, Fresh(w)) && Replay(cfg, Fresh(w), b).Some? && forall e :: e in b ==> !e.Edit?
    requires SameSpecs(w.crs, Replay(cfg, Fresh(w), b).value.world.crs) || LastDrops(cfg, Fresh(w), b, w.crs)
    ensures var w' := Replay(cfg, Fresh(w), b).value.world;
      && Apart(cfg, scope, Fresh(w'))
      && Distance(cfg, w'.objects, Specs(w.crs), LiveSpecs(w.crs)) <= Distance(cfg, w.objects, Specs(w.crs), LiveSpecs(w.crs))
  {
    TailReads(cfg, w, b);
    RunProgress(cfg, scope, Fresh(w), b);
    FewerLater(cfg, Fresh(w), b);
    var n := Replay(cfg, Fresh(w), b).value;
    assert b[..|b|] == b && ReadsSameAt(cfg, Fresh(w), b, |b|);
    FewerApart(cfg, scope, n, Specs(n.world.crs), LiveSpecs(n.world.crs));
  }

  lemma SupportedSucceeds(cfg: Config, scope: Scope, w: World, name: string)
    requires Apart(cfg, scope, Fresh(w)) && GatewayKey(CloudSQLSide) in w.objects
    requires name in w.crs ==> Supported(cfg, w.crs[name].spec)
    ensures Reconciled(cfg, w, name).Some?
  {
    if name in w.crs {
      ObjectsProgress(cfg, scope, w.objects, w.crs[name].spec, Specs(w.crs));
    }
  }

  lemma RunTowards(cfg: Config, scope: Scope, start: Monitor, a: seq<Event>, run: seq<Event>, w: World)
    requires a + [Look] <= run && Edits(run) == Edits(a)
    requires Replay(cfg, start, a).Some? && Replay(cfg, start, a).value.world == w && Replay(cfg, start, run).Some?
    requires Apart(cfg, scope, Fresh(w))
    requires SameSpecs(w.crs, Replay(cfg, start, run).value.world.crs) || LastDrops(cfg, start, run, w.crs)
    ensures var w' := Replay(cfg, start, run).value.world;
      && Apart(cfg, scope, Fresh(w'))
      && Distance(cfg, w'.objects, Specs(w.crs), LiveSpecs(w.crs)) <= Distance(cfg, w.objects, Specs(w.crs), LiveSpecs(w.crs))
  {
    var b := run[|a| + 1..];
    assert run == a + [Look] + b;
    Tail(cfg, start, a, b, w);
    TailEdits(a, b);
    if LastDrops(cfg, start, run, w.crs) { TailDrops(cfg, start, a, b, w); }
    LookedProgress(cfg, scope, w, b);
  }

  /** A reconcile that nobody disturbs, of a live resource or of one that is being deleted,
      to success or to whatever call fails, leaves the egress objects no further from what
      all resources ask for; and it succeeds if no call fails and the protocols are
      supported. */
  method ReconcileTowards(c: Cluster, name: string, ghost scope: Scope) returns (ok: bool)
    requires c.Valid() && Apart(c.cfg, scope, Fresh(c.world))
    modifies c
    ensures c.Valid()
    ensures c.edits == old(c.edits) ==> Apart(c.cfg, scope, Fresh(c.world))
    ensures c.edits == old(c.edits) ==>
      Distance(c.cfg, c.world.objects, Specs(old(c.world.crs)), LiveSpecs(old(c.world.crs)))
      <= Distance(c.cfg, old(c.world.objects), Specs(old(c.world.crs)), LiveSpecs(old(c.world.crs)))
    ensures (c.edits == old(c.edits) && c.faults == old(c.faults) && GatewayKey(CloudSQLSide) in old(c.world.objects)
             && (name in old(c.world.crs) ==> Supported(c.cfg, old(c.world.crs)[name].spec))) ==> ok
  {
    ghost var w, a := c.world, c.run;
    if GatewayKey(CloudSQLSide) in c.world.objects && (name in c.world.crs ==> Supported(c.cfg, c.world.crs[name].spec)) {
      SupportedSucceeds(c.cfg, scope, c.world, name);
    }
    ghost var read;
    ok, read := Reconcile(c, name);
    if c.edits == old(c.edits) { RunTowards(c.cfg, scope, c.start, a, c.run, w); }
  }

  lemma RunInScope(c: Cluster, scope: Scope)
    requires c.Valid() && InScope(c.cfg, scope, c.start) && EditsWithin(c.cfg, scope, c.run)
    ensures InScope(c.cfg, scope, c.Known())
  {
    WithinThroughout(c.cfg, scope, c.start, c.run);
  }

  lemma OneResolves(cfg: Config, scope: Scope, w: World, name: string, w': World)
    requires Within(cfg, scope, w.objects) && Separated(cfg, scope) && SpecsWithin(cfg, scope, Specs(w.crs))
    requires name in w.crs && !w.crs[name].deleting && Reconciled(cfg, w, name) == Some(w')
    ensures forall t :: t in WantedTargets(w.crs[name].spec) ==> Resolves(w'.objects, t)
  {
    var spec, specs := w.crs[name].spec, Specs(w.crs);
    assert [spec][..0] == [];
    assert Passes(cfg, w.objects, [], specs) == Some(w.objects);
    assert Passes(cfg, w.objects, [spec], specs) == Some(w'.objects);
    forall t | t in WantedTargets(spec) ensures Resolves(w'.objects, t) {
      RoutesResolve(cfg, scope, w.objects, [spec], specs, w'.objects, spec, t);
    }
  }

  /** Whatever happened before and whatever state the other resources are in: once a
      reconcile succeeds undisturbed, the traffic of every target its resource lists finds
      its way. */
  method ReconcileResolves(c: Cluster, name: string, ghost scope: Scope) returns (ok: bool)
    requires c.Valid() && InScope(c.cfg, scope, c.start) && EditsWithin(c.cfg, scope, c.run) && Separated(c.cfg, scope)
    modifies c
    ensures c.Valid()
    ensures ok && c.edits == old(c.edits) && name in old(c.world.crs) && !old(c.world.crs)[name].deleting ==>
      forall t :: t in WantedTargets(old(c.world.crs)[name].spec) ==> Resolves(c.world.objects, t)
  {
    ghost var w := c.world;
    RunInScope(c, scope);
    ghost var read;
    ok, read := Reconcile(c, name);
    if ok && c.edits == old(c.edits) && name in w.crs && !w.crs[name].deleting {
      OneResolves(c.cfg, scope, w, name, c.world);
    }
  }

  // ---- The queue -------------------------------------------------------------------

  /** The operator from any start, after any history of failed reconciles and edited
      allowlists: when a queue that covers all resources then goes through undisturbed, the
      egress objects are exactly what the allowlists ask for, and the traffic of every
      allowlisted target finds its way. */
  method WorkSettles(c: Cluster, queue: seq<string>, ghost scope: Scope)
    requires c.Valid() && InScope(c.cfg, scope, c.start) && EditsWithin(c.cfg, scope, c.run) && Separated(c.cfg, scope)
    requires NoneDeleting(c.world.crs) && Covering(c.world.crs, queue) && GatewayKey(CloudSQLSide) in c.world.objects
    requires forall spec :: spec in Specs(c.world.crs) ==> Supported(c.cfg, spec)
    modifies c
    ensures c.Valid()
    ensures c.faults == old(c.faults) && c.edits == old(c.edits) ==>
      && SameSpecs(old(c.world.crs), c.world.crs) && Canonical(c.world.objects, Specs(c.world.crs))
      && forall t :: t in Demand(Specs(c.world.crs)) ==> Resolves(c.world.objects, t)
  {
    ghost var w := c.world;
    RunInScope(c, scope);
    QueueCanonical(c.cfg, scope, c.world, queue);
    Work(c, queue);
    if c.faults == old(c.faults) && c.edits == old(c.edits) { SameSpecsSet(w.crs, c.world.crs); }
  }

  /** In everything the operator did so far, each policy was created in order: with what an
      account was entitled to, with its grant in the history, its resource holding the
      finalizer, its service accounts standing and its egress host listed. */
  lemma GrantsInOrder(c: Cluster, i: nat, o: Object)
    requires c.Valid() && i < |c.run| && c.run[i] == Do(Create(o)) && o.AuthorizationPolicy?
    ensures Replay(c.cfg, c.start, c.run[..i]).Some?
    ensures exists spec, account :: InOrder(c.cfg, Replay(c.cfg, c.start, c.run[..i]).value, spec, account, o)
  {
    GrantInOrder(c.cfg, c.start, c.run, i, o);
  }
}
