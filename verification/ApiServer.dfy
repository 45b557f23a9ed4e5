/** The API server and the history table as the operator meets them: any call may fail,
    whether or not it took effect, and users may edit the resources before any call. */
module ApiServer {
  import opened Wrappers
  import opened Resources
  import opened Protocol
  import opened Safety

  datatype Outcome = Done | Rejected | Failed

  datatype Lookup<+T> = Found(item: T) | Missing | Unreachable

  /** The whole state at one moment, real and ghost. */
  datatype Moment = Moment(world: World, view: set<Spec>, live: set<Spec>, run: seq<Event>, faults: nat, edits: nat) {
    ghost function Known(): Monitor {
      Monitor(world, view, live)
    }
  }

  ghost function Edits(run: seq<Event>): nat {
    if run == [] then 0 else Edits(run[..|run| - 1]) + if run[|run| - 1].Edit? then 1 else 0
  }

  /** The operator went on from one moment to a later one without reading the resources
      again or writing them. */
  ghost predicate Kept(a: Moment, b: Moment) {
    && a.run <= b.run && a.view == b.view && a.live == b.live && a.faults <= b.faults && a.edits <= b.edits
    && Steady(a.world.crs, b.world.crs)
    && (UniqueOwners(a.world.crs) ==> UniqueOwners(b.world.crs))
    && (a.edits == b.edits ==> a.world.crs == b.world.crs)
  }

  /** The operator read the resources. */
  ghost predicate Looked(a: Moment, b: Moment) {
    && Kept(a.(view := b.view, live := b.live), b) && b.Known() == Fresh(b.world)
    && b.world == a.world.(crs := b.world.crs)
  }

  /** The operator wrote a resource. */
  ghost predicate Finalized(a: Moment, b: Moment) {
    && a.run <= b.run && a.view == b.view && a.live == b.live && a.faults <= b.faults && a.edits <= b.edits
    && b.world == a.world.(crs := b.world.crs)
  }

  /** The objects were just so at some moment of the run, from its n-th event on. */
  ghost predicate Passed(cfg: Config, start: Monitor, run: seq<Event>, n: nat, s: Store) {
    exists i :: n <= i <= |run| && PassedAt(cfg, start, run, i, s)
  }

  ghost predicate PassedAt(cfg: Config, start: Monitor, run: seq<Event>, i: nat, s: Store)
    requires i <= |run|
  {
    Replay(cfg, start, run[..i]).Some? && Replay(cfg, start, run[..i]).value.world.objects == s
  }

  lemma PassedLater(cfg: Config, start: Monitor, run: seq<Event>, later: seq<Event>, n: nat, s: Store)
    requires Passed(cfg, start, run, n, s) && run <= later
    ensures Passed(cfg, start, later, n, s)
  {
    var i :| n <= i <= |run| && PassedAt(cfg, start, run, i, s);
    assert later[..i] == run[..i] && PassedAt(cfg, start, later, i, s);
  }

  lemma PassedSince(cfg: Config, start: Monitor, run: seq<Event>, n: nat, since: nat, s: Store)
    requires since <= n
    ensures Passed(cfg, start, run, n, s) ==> Passed(cfg, start, run, since, s)
  {
    if i :| n <= i <= |run| && PassedAt(cfg, start, run, i, s) {
      assert since <= i && PassedAt(cfg, start, run, i, s);
    }
  }

  /** The objects of one moment are passed by every later run. */
  lemma PassedThen(cfg: Config, start: Monitor, m: Moment, later: seq<Event>, n: nat)
    requires Replay(cfg, start, m.run) == Some(m.Known()) && m.run <= later && n <= |m.run|
    ensures Passed(cfg, start, later, n, m.world.objects)
  {
    assert m.run[..|m.run|] == m.run && PassedAt(cfg, start, m.run, |m.run|, m.world.objects);
    PassedLater(cfg, start, m.run, later, n, m.world.objects);
  }

  method Collect(crs: map<string, Resource>) returns (specs: seq<Spec>)
    ensures Specs(crs) == set s | s in specs
  {
    specs := [];
    var rest := crs.Keys;
    while rest != {}
      invariant rest <= crs.Keys
      invariant forall s :: s in specs <==> exists n :: n in crs.Keys - rest && crs[n].spec == s
      decreases |rest|
    {
      var n :| n in rest;
      specs, rest := specs + [crs[n].spec], rest - {n};
    }
  }

  method Select(s: Store, sel: Selector) returns (items: seq<Object>)
    requires Keyed(s)
    ensures Lists(s, sel, items)
  {
    items := [];
    var all := set k | k in s && Matches(sel, s[k]);
    var rest := all;
    while rest != {}
      invariant rest <= all
      invariant forall o :: o in items ==> o.Id() in all - rest && s[o.Id()] == o
      invariant forall k :: k in all - rest ==> s[k] in items
      invariant Distinct(items)
      decreases |rest|
    {
      var k :| k in rest;
      items, rest := items + [s[k]], rest - {k};
    }
  }

  class Cluster {
    const cfg: Config
    var world: World
    ghost const start: Monitor
    ghost var view: set<Spec>
    ghost var live: set<Spec>
    ghost var run: seq<Event>
    ghost var faults: nat
    ghost var edits: nat

    /** The run so far is a run of permitted calls from a safe world to the present one. */
    ghost predicate Valid()
      reads this
    {
      Safe(cfg, start.world) && Replay(cfg, start, run) == Some(Known()) && edits == Edits(run)
    }

    lemma SafeNow()
      requires Valid()
      ensures Safe(cfg, world)
    {
      SafeThroughout(cfg, start, run, |run|);
      assert run[..|run|] == run;
    }

    ghost function Known(): Monitor
      reads this
    {
      Monitor(world, view, live)
    }

    ghost function Now(): Moment
      reads this
    {
      Moment(world, view, live, run, faults, edits)
    }

    constructor (cfg: Config, world: World)
      requires Safe(cfg, world)
      ensures Valid() && this.cfg == cfg && this.world == world
      ensures start == Fresh(world) && run == []
    {
      this.cfg, this.world := cfg, world;
      start, view, live := Fresh(world), Specs(world.crs), LiveSpecs(world.crs);
      run, faults, edits := [], 0, 0;
    }

    ghost method Record(e: Event)
      requires Safe(cfg, start.world) && Replay(cfg, start, run).Some? && edits == Edits(run)
      requires Next(cfg, Replay(cfg, start, run).value, e) == Some(Known())
      modifies this`run, this`edits
      ensures Valid() && run == old(run) + [e]
      ensures edits == old(edits) + if e.Edit? then 1 else 0
    {
      run, edits := run + [e], edits + if e.Edit? then 1 else 0;
      assert run[..|run| - 1] == old(run);
    }

    /** Users may change the resources between any two calls. */
    method Interleave()
      requires Valid()
      modifies this
      ensures Valid() && Kept(old(Now()), Now())
      ensures world == old(world).(crs := world.crs) && faults == old(faults)
      ensures edits == old(edits) ==> run == old(run)
    {
      var edit: bool, crs: map<string, Resource> := *, *;
      if edit {
        if Edited(world.crs, crs) {
          EditedSteady(world.crs, crs);
          world := world.(crs := crs);
          Record(Edit(crs));
        }
      }
    }

    /** A call that only reads. */
    method Reach() returns (ok: bool)
      requires Valid()
      modifies this
      ensures Valid() && Kept(old(Now()), Now())
      ensures world == old(world).(crs := world.crs) && (ok <==> faults == old(faults)) && faults <= old(faults) + 1
      ensures edits == old(edits) ==> run == old(run)
    {
      Interleave();
      ok := *;
      if !ok { faults := faults + 1; }
    }

    method Get(k: Key) returns (r: Lookup<Object>)
      requires Valid()
      modifies this
      ensures Valid() && Kept(old(Now()), Now())
      ensures world == old(world).(crs := world.crs) && (!r.Unreachable? <==> faults == old(faults)) && faults <= old(faults) + 1
      ensures r.Found? ==> k in world.objects && world.objects[k] == r.item
      ensures r.Missing? ==> k !in world.objects
      ensures edits == old(edits) ==> run == old(run)
    {
      var ok := Reach();
      r := if !ok then Unreachable else if k in world.objects then Found(world.objects[k]) else Missing;
    }

    /** Lists the objects that a selector matches, in no particular order. */
    method List(sel: Selector) returns (ok: bool, items: seq<Object>)
      requires Valid()
      modifies this
      ensures Valid() && Kept(old(Now()), Now())
      ensures world == old(world).(crs := world.crs) && (ok <==> faults == old(faults)) && faults <= old(faults) + 1
      ensures ok ==> Lists(world.objects, sel, items)
    {
      ok := Reach();
      SafeNow();
      items := Select(world.objects, sel);
    }

    /** Reads one resource. From here on the operator's calls answer to the specifications
        of this moment. */
    method Read(name: string) returns (r: Lookup<Resource>)
      requires Valid()
      modifies this
      ensures Valid() && Looked(old(Now()), Now())
      ensures (!r.Unreachable? <==> faults == old(faults)) && faults <= old(faults) + 1
      ensures r.Found? ==> name in world.crs && world.crs[name] == r.item
      ensures r.Missing? ==> name !in world.crs
      ensures edits == old(edits) ==> run == old(run) + [Look]
    {
      var ok := Reach();
      view, live := Specs(world.crs), LiveSpecs(world.crs);
      Record(Look);
      r := if !ok then Unreachable else if name in world.crs then Found(world.crs[name]) else Missing;
    }

    /** Lists the specifications of all resources, in no particular order. */
    method ReadAll() returns (ok: bool, specs: seq<Spec>)
      requires Valid()
      modifies this
      ensures Valid() && Looked(old(Now()), Now())
      ensures (ok <==> faults == old(faults)) && faults <= old(faults) + 1
      ensures ok ==> view == set s | s in specs
    {
      ok := Reach();
      view, live := Specs(world.crs), LiveSpecs(world.crs);
      Record(Look);
      specs := Collect(world.crs);
    }

    /** Creates, updates or deletes one object. */
    method Submit(call: Call) returns (r: Outcome)
      requires Valid() && Permitted(cfg, Known(), call)
      modifies this
      ensures Valid() && Kept(old(Now()), Now())
      ensures world == old(world).(crs := world.crs, objects := world.objects)
      ensures r.Done? ==> Some(world.objects) == Apply(old(world.objects), call)
      ensures r.Rejected? ==> Apply(old(world.objects), call) == None && world.objects == old(world.objects)
      ensures r.Failed? ==> world.objects == old(world.objects) || Some(world.objects) == Apply(old(world.objects), call)
      ensures (!r.Failed? <==> faults == old(faults)) && faults <= old(faults) + 1
    {
      Interleave();
      var ok: bool, applied: bool := *, *;
      var result := Apply(world.objects, call);
      r := if !ok then Failed else if result.None? then Rejected else Done;
      if !ok { faults := faults + 1; }
      if result.Some? && (ok || applied) {
        MayStillDo(cfg, old(Known()), Known(), call);
        TakeEffect(Do(call), world.(objects := result.value));
      }
    }

    method TakeEffect(e: Event, w: World)
      requires Valid() && Next(cfg, Known(), e) == Some(Known().(world := w)) && !e.Edit?
      modifies this`world, this`run, this`edits
      ensures Valid() && world == w && run == old(run) + [e] && edits == old(edits)
    {
      world := w;
      Record(e);
    }

    /** Inserts one row into the history table. */
    method Insert(row: Row) returns (ok: bool)
      requires Valid()
      modifies this
      ensures Valid() && Kept(old(Now()), Now())
      ensures world == old(world).(crs := world.crs, history := world.history)
      ensures ok ==> world.history == old(world.history) + [row]
      ensures world.history == old(world.history) || world.history == old(world.history) + [row]
      ensures (ok <==> faults == old(faults)) && faults <= old(faults) + 1
    {
      Interleave();
      ok := *;
      var applied: bool := *;
      if !ok { faults := faults + 1; }
      if ok || applied {
        TakeEffect(Event.Insert(row), world.(history := world.history + [row]));
      }
    }

    /** Stores the finalizers of a resource, if it is still as it was read. */
    method Store(name: string, was: Resource, finalizers: set<string>) returns (r: Outcome)
      requires Valid()
      requires (!was.deleting && finalizers == was.finalizers + {FINALIZER})
        || (was.deleting && finalizers == was.finalizers - {FINALIZER} && NoPolicyOf(world.objects, was.spec))
      modifies this
      ensures Valid() && Finalized(old(Now()), Now())
      ensures edits == old(edits) && name in old(world.crs) && old(world.crs)[name] == was ==>
        !r.Rejected? && (r.Done? ==> world.crs == StoreFinalizers(old(world.crs), name, finalizers))
      ensures edits == old(edits) ==>
        || (run == old(run) && world.crs == old(world.crs))
        || (run == old(run) + [Finalize(name, finalizers)] && name in old(world.crs) && old(world.crs)[name] == was
            && world.crs == StoreFinalizers(old(world.crs), name, finalizers))
      ensures r.Done? && FINALIZER in finalizers ==> Held(world.crs, name, was.spec)
      ensures (!r.Failed? <==> faults == old(faults)) && faults <= old(faults) + 1
    {
      Interleave();
      var ok: bool, applied: bool := *, *;
      var current := name in world.crs && world.crs[name] == was;
      r := if !ok then Failed else if !current then Rejected else Done;
      if !ok { faults := faults + 1; }
      if current && (ok || applied) {
        TakeEffect(Finalize(name, finalizers), world.(crs := StoreFinalizers(world.crs, name, finalizers)));
      }
    }
  }
}
