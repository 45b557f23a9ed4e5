/** What a queue of reconciles does, from the program down to the passes over the objects. */
module Queues {
  import opened Wrappers
  import opened Resources
  import opened Protocol
  import opened Separation
  import opened Confluence
  import opened AccountSpec
  import opened Controller
  import opened Routes

  /** The specifications of the queued resources, in turn; unknown names are passed over. */
  ghost function SpecsIn(crs: map<string, Resource>, queue: seq<string>): seq<Spec> {
    if queue == [] then []
    else
      var name := queue[|queue| - 1];
      SpecsIn(crs, queue[..|queue| - 1]) + if name in crs then [crs[name].spec] else []
  }

  ghost predicate NoneDeleting(crs: map<string, Resource>) {
    forall n :: n in crs ==> !crs[n].deleting
  }

  lemma SameSpecsSet(crs: map<string, Resource>, crs': map<string, Resource>)
    requires SameSpecs(crs, crs')
    ensures Specs(crs') == Specs(crs) && LiveSpecs(crs') == LiveSpecs(crs)
  {
    forall n | n in crs' ensures n in crs { assert n in crs'.Keys; }
    forall n | n in crs ensures n in crs' { assert n in crs.Keys; }
  }

  /** The pass over the objects tells whether and where the reconcile leads. */
  ghost predicate Leads(w: World, pass: Option<Store>, end: Option<World>) {
    && (pass.Some? <==> end.Some?)
    && (end.Some? ==> end.value.objects == pass.value && SameSpecs(w.crs, end.value.crs))
  }

  lemma ReconciledPass(cfg: Config, w: World, name: string)
    requires NoneDeleting(w.crs)
    ensures name !in w.crs ==> Reconciled(cfg, w, name) == Some(w)
    ensures name in w.crs ==>
      Leads(w, ObjectsPass(cfg, w.objects, w.crs[name].spec, Specs(w.crs)), Reconciled(cfg, w, name))
  {
    if name in w.crs { FinalizerOnly(w.crs, name); }
  }

  lemma FinalizerOnly(crs: map<string, Resource>, name: string)
    requires name in crs
    ensures SameSpecs(crs, WithFinalizer(crs, name))
  {
  }

  /** A queue of reconciles is the passes of its resources, and fails where they do. */
  lemma {:induction false} QueuePasses(cfg: Config, w: World, queue: seq<string>)
    requires NoneDeleting(w.crs)
    ensures Leads(w, Passes(cfg, w.objects, SpecsIn(w.crs, queue), Specs(w.crs)), Reconciles(cfg, w, queue))
    decreases |queue|
  {
    if queue != [] {
      var before, name := queue[..|queue| - 1], queue[|queue| - 1];
      QueuePasses(cfg, w, before);
      if name in w.crs {
        var order := SpecsIn(w.crs, before);
        assert (order + [w.crs[name].spec])[..|order|] == order;
      } else {
        assert SpecsIn(w.crs, queue) == SpecsIn(w.crs, before);
      }
      if Reconciles(cfg, w, before).Some? {
        var w1 := Reconciles(cfg, w, before).value;
        SameSpecsSet(w.crs, w1.crs);
        assert name in w1.crs <==> name in w.crs by { assert name in w1.crs.Keys <==> name in w.crs.Keys; }
        ReconciledPass(cfg, w1, name);
      }
    }
  }

  lemma {:induction false} SpecsInExact(crs: map<string, Resource>, queue: seq<string>, spec: Spec)
    ensures spec in SpecsIn(crs, queue) <==> exists n :: n in queue && n in crs && crs[n].spec == spec
    decreases |queue|
  {
    if queue != [] {
      SpecsInExact(crs, queue[..|queue| - 1], spec);
      assert queue == queue[..|queue| - 1] + [queue[|queue| - 1]];
    }
  }

  /** The queue holds every resource, at least one. */
  ghost predicate Covering(crs: map<string, Resource>, queue: seq<string>) {
    crs != map[] && forall n :: n in crs ==> n in queue
  }

  lemma CoveringSpecs(crs: map<string, Resource>, queue: seq<string>)
    requires Covering(crs, queue)
    ensures SpecsIn(crs, queue) != [] && forall spec :: spec in SpecsIn(crs, queue) <==> spec in Specs(crs)
  {
    forall spec ensures spec in SpecsIn(crs, queue) <==> spec in Specs(crs) { SpecsInExact(crs, queue, spec); }
    var n :| n in crs;
    assert crs[n].spec in Specs(crs);
  }

  /** Reconciles of a covering queue, in any order and with any repeats, all succeed, and
      they leave the egress objects canonical and every allowlisted target's traffic with a
      way through. */
  lemma QueueCanonical(cfg: Config, scope: Scope, w: World, queue: seq<string>)
    requires Within(cfg, scope, w.objects) && Separated(cfg, scope) && SpecsWithin(cfg, scope, Specs(w.crs))
    requires NoneDeleting(w.crs) && Covering(w.crs, queue)
    requires GatewayKey(CloudSQLSide) in w.objects && forall spec :: spec in Specs(w.crs) ==> Supported(cfg, spec)
    ensures Reconciles(cfg, w, queue).Some?
    ensures var w' := Reconciles(cfg, w, queue).value;
      && SameSpecs(w.crs, w'.crs) && Canonical(w'.objects, Specs(w.crs))
      && forall t :: t in Demand(Specs(w.crs)) ==> Resolves(w'.objects, t)
  {
    var specs, order := Specs(w.crs), SpecsIn(w.crs, queue);
    CoveringSpecs(w.crs, queue);
    PassesProgress(cfg, scope, w.objects, order, specs);
    QueuePasses(cfg, w, queue);
    var s' := Passes(cfg, w.objects, order, specs).value;
    AnyOrderCanonical(cfg, scope, w.objects, order, specs, s');
    forall t | t in Demand(specs) ensures Resolves(s', t) {
      var spec :| spec in specs && t in WantedTargets(spec);
      RoutesResolve(cfg, scope, w.objects, order, specs, s', spec, t);
    }
  }
}
