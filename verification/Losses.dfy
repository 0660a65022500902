/** Which wirings keep dependency order, exactly. */
module Losses {
  import opened Basics
  import opened ApiServer
  import opened Passes
  import opened Deletion
  import opened Teardown

  /**
   No Delete pass, whatever its calls go through, takes a dependency away from an existing dependent: from
   any store, or from any store in which every object has its namespace.
  */
  ghost predicate KeepsAnchored(plan: seq<Managed>, cs: seq<Cleaner>, housed: bool) {
    forall env: Env, w: World ::
      (housed ==> Housed(w.objs)) && Anchored(plan, w.objs) ==>
        Anchored(plan, Pass(env, w, Deleting, plan, cs).world.objs)
  }

  // ----- an environment in which nothing goes, and everything deleted is only marked -----

  ghost function Patient(locs: set<Loc>): Env {
    var order: Listing := s => SomeOrder(s);
    Env(c => Event(Fate.Served, {}, locs, Token("", 0)), order)
  }

  lemma PatientTick(locs: set<Loc>, w: World)
    ensures Tick(Patient(locs), w) == World(w.objs, w.calls + 1)
  {
    assert Vanish(w.objs, {}) == w.objs;
  }

  lemma PatientDelete(locs: set<Loc>, w: World, l: Loc)
    requires w.objs.Keys <= locs
    ensures Delete(Patient(locs), w, l).0.objs == if l in w.objs then Marked(w.objs, l) else w.objs
  {
    PatientTick(locs, w);
  }

  lemma {:induction false} PatientCheck(locs: set<Loc>, w: World, deps: seq<Managed>)
    ensures CheckForDependents(Patient(locs), w, deps).0.objs == w.objs
  {
    if deps != [] {
      PatientCheck(locs, w, Front(deps));
      PatientTick(locs, CheckForDependents(Patient(locs), w, Front(deps)).0);
    }
  }

  lemma PatientDeletion(locs: set<Loc>, w: World, plan: seq<Managed>, m: Managed)
    requires w.objs.Keys <= locs
    ensures DeleteOne(Patient(locs), w, plan, m).0.objs.Keys == w.objs.Keys
  {
    var w1 := CheckForDependents(Patient(locs), w, Dependents(plan, m)).0;
    PatientCheck(locs, w, Dependents(plan, m));
    PatientDelete(locs, w1, m.loc);
  }

  lemma {:induction false} PatientVisits(locs: set<Loc>, w: World, plan: seq<Managed>, n: nat)
    requires n <= |plan| && w.objs.Keys <= locs
    ensures Visits(Patient(locs), w, Deleting, plan, n).0.objs.Keys == w.objs.Keys
  {
    hide DeleteOne, ApplyOne;
    if n > 0 {
      PatientVisits(locs, w, plan, n - 1);
      PatientDeletion(locs, Visits(Patient(locs), w, Deleting, plan, n - 1).0, plan, plan[n - 1]);
    }
  }

  lemma {:induction false} PatientSweep(locs: set<Loc>, w: World, c: Cleaner, items: seq<Loc>, n: nat)
    requires n <= |items| && w.objs.Keys <= locs
    ensures Sweep(Patient(locs), w, c, items, n).0.objs.Keys == w.objs.Keys
  {
    hide Delete;
    if n > 0 {
      PatientSweep(locs, w, c, items, n - 1);
      PatientDelete(locs, Sweep(Patient(locs), w, c, items, n - 1).0, items[n - 1]);
    }
  }

  lemma {:induction false} PatientCleanups(locs: set<Loc>, start: Report, cs: seq<Cleaner>, n: nat)
    requires n <= |cs| && start.world.objs.Keys <= locs
    ensures Cleanups(Patient(locs), start, cs, n).world.objs.Keys == start.world.objs.Keys
  {
    hide Sweep;
    if n > 0 {
      PatientCleanups(locs, start, cs, n - 1);
      var before, c := Cleanups(Patient(locs), start, cs, n - 1).world, cs[n - 1];
      PatientTick(locs, before);
      var (w1, items) := List(Patient(locs), before, c.cluster, c.ns);
      PatientSweep(locs, w1, c, items.value, |items.value|);
    }
  }

  lemma PatientPass(locs: set<Loc>, w: World, plan: seq<Managed>, cs: seq<Cleaner>)
    requires w.objs.Keys <= locs
    ensures Pass(Patient(locs), w, Deleting, plan, cs).world.objs.Keys == w.objs.Keys
  {
    hide Visits, Cleanups;
    var (w1, results) := Visits(Patient(locs), w, Deleting, plan, |plan|);
    PatientVisits(locs, w, plan, |plan|);
    PatientCleanups(locs, Report(w1, results, false), cs, |cs|);
  }

  /** An object without existing dependents is marked by the pass, and stays marked. */
  lemma UnblockedIsMarked(locs: set<Loc>, w: World, plan: seq<Managed>, cs: seq<Cleaner>, x: Managed)
    requires w.objs.Keys <= locs && x in plan && x.policy.DeletePolicy? && x.loc in w.objs
    requires forall y :: y in Dependents(plan, x) ==> y.loc !in w.objs
    ensures var objs := Pass(Patient(locs), w, Deleting, plan, cs).world.objs;
            objs.Keys == w.objs.Keys && objs[x.loc].terminating
  {
    hide DeleteOne, ApplyOne, Cleanup;
    var env := Patient(locs);
    var i :| 0 <= i < |plan| && plan[i] == x;
    var before := Visits(env, w, Deleting, plan, i).0;
    PatientVisits(locs, w, plan, i);
    UnblockedVisitDeletes(env, before, plan, x);
    VisitsFade(env, w, plan, i + 1, |plan|);
    DeletePassFades(env, w, plan, cs);
    PatientVisits(locs, w, plan, i + 1);
    PatientPass(locs, w, plan, cs);
  }

  // ----- a store that holds two objects and what they need -----

  ghost function HousesOf(locs: set<Loc>): set<Loc> {
    set l | l in locs && l.Namespaced() :: l.House()
  }

  /** The places that `a` or `b` needs. */
  ghost function Needed(plan: seq<Managed>, housed: bool, a: Loc, b: Loc): set<Loc> {
    var places := {a, b} + (set m, d | m in plan && d in m.deps :: d.loc);
    set l | l in places + HousesOf(places) && (Needs(plan, housed, a, l) || Needs(plan, housed, b, l))
  }

  lemma NeedsOneMore(plan: seq<Managed>, housed: bool, a: Loc, l: Loc, x: Loc)
    requires Needs(plan, housed, a, l) && Link(plan, housed, l, x)
    ensures Needs(plan, housed, a, x)
  {
    var path :| Chain(plan, housed, path) && path[0] == a && Last(path) == l;
    var longer := path + [x];
    assert forall i :: 0 <= i < |longer| - 1 ==> Link(plan, housed, longer[i], longer[i + 1]);
    assert Chain(plan, housed, longer);
  }

  lemma NeedsItself(plan: seq<Managed>, housed: bool, a: Loc)
    ensures Needs(plan, housed, a, a)
  {
    assert Chain(plan, housed, [a]);
  }

  /** What is needed by something needed is needed. */
  lemma NeededIsClosed(plan: seq<Managed>, housed: bool, a: Loc, b: Loc, l: Loc, x: Loc)
    requires l in Needed(plan, housed, a, b) && Link(plan, housed, l, x)
    requires (exists m, d :: Dependency(plan, m, d) && x == d.loc) || (l.Namespaced() && x == l.House())
    ensures x in Needed(plan, housed, a, b)
  {
    if Needs(plan, housed, a, l) {
      NeedsOneMore(plan, housed, a, l, x);
    } else {
      NeedsOneMore(plan, housed, b, l, x);
    }
  }

  /** Stored objects where they are needed; the one at `marked` carries the label the cleaners look for. */
  ghost function Stocked(plan: seq<Managed>, housed: bool, a: Loc, b: Loc, marked: Loc): Objects {
    map l | l in Needed(plan, housed, a, b) ::
      if l == marked then STORED.(labels := map[MANAGED_BY := MANAGED_BY_VALUE]) else STORED
  }

  lemma StockedIsAnchored(plan: seq<Managed>, housed: bool, a: Loc, b: Loc, marked: Loc)
    ensures var objs := Stocked(plan, housed, a, b, marked);
            Anchored(plan, objs) && (housed ==> Housed(objs)) && a in objs && b in objs
  {
    NeedsItself(plan, housed, a);
    NeedsItself(plan, housed, b);
    var objs := Stocked(plan, housed, a, b, marked);
    forall m, d | Dependency(plan, m, d) && m.loc in objs
      ensures Firm(objs, d.loc)
    {
      assert Link(plan, housed, m.loc, d.loc);
      NeededIsClosed(plan, housed, a, b, m.loc, d.loc);
    }
    if housed {
      forall l | l in objs && l.Namespaced()
        ensures l.House() in objs
      {
        assert Link(plan, housed, l, l.House());
        NeededIsClosed(plan, housed, a, b, l, l.House());
      }
    }
  }

  // ----- both directions -----

  /** A deletion aimed at a dependency that nothing blocks: a Delete pass takes the dependency away. */
  lemma UnblockedAimLoses(
    plan: seq<Managed>, cs: seq<Cleaner>, housed: bool, m: Managed, d: Managed, x: Managed)
    requires Dependency(plan, m, d) && x in plan && Aims(x, d.loc) && !Blocks(plan, housed, x, m)
    ensures !KeepsAnchored(plan, cs, housed)
  {
    hide Pass;
    var objs := Stocked(plan, housed, m.loc, x.loc, d.loc);
    StockedIsAnchored(plan, housed, m.loc, x.loc, d.loc);
    var env, w := Patient(objs.Keys), World(objs, 0);
    UnblockedIsMarked(objs.Keys, w, plan, cs, x);
    var after := Pass(env, w, Deleting, plan, cs).world.objs;
    assert m.loc in after && !Firm(after, d.loc);
    assert !Anchored(plan, after);
  }

  /** A cleaner that reaches a dependency takes it away. */
  lemma SweptDependencyLoses(
    plan: seq<Managed>, cs: seq<Cleaner>, housed: bool, m: Managed, d: Managed, c: Cleaner)
    requires Dependency(plan, m, d) && c in cs && Sweeps(c, d.loc)
    ensures !KeepsAnchored(plan, cs, housed)
  {
    hide Visits, Cleanups;
    var objs := Stocked(plan, housed, m.loc, m.loc, d.loc);
    StockedIsAnchored(plan, housed, m.loc, m.loc, d.loc);
    var env, w := Patient(objs.Keys), World(objs, 0);
    PatientPass(objs.Keys, w, plan, cs);
    DeletePassFades(env, w, plan, cs);
    var (w1, results) := Visits(env, w, Deleting, plan, |plan|);
    var k :| 0 <= k < |cs| && cs[k] == c;
    PromptCleanupsSweep(env, Report(w1, results, false), cs, |cs|, k);
    var after := Pass(env, w, Deleting, plan, cs).world.objs;
    assert Firm(objs, d.loc);
    assert d.loc in ManagedSecrets(after, c.cluster, c.ns);
    assert m.loc in after && !Firm(after, d.loc);
    assert !Anchored(plan, after);
  }

  /**
   Delete passes keep dependency order in every environment if and only if every deletion aimed at
   a dependency is blocked while the dependent exists, and no cleaner reaches a dependency. On housed stores,
   the only ones a server can hold, what is blocked includes what the namespaces of objects block.
  */
  lemma KeepsAnchoredExactly(plan: seq<Managed>, cs: seq<Cleaner>, housed: bool)
    ensures KeepsAnchored(plan, cs, housed) <==> WellWired(plan, cs, housed)
  {
    hide Pass;
    if WellWired(plan, cs, housed) {
      forall env: Env, w: World | (housed ==> Housed(w.objs)) && Anchored(plan, w.objs)
        ensures Anchored(plan, Pass(env, w, Deleting, plan, cs).world.objs)
      {
        DeletePassKeepsAnchored(env, w, plan, cs, housed);
      }
    } else {
      var m, d :| Dependency(plan, m, d)
                  && !((forall x :: x in plan && Aims(x, d.loc) ==> Blocks(plan, housed, x, m))
                       && (forall c :: c in cs ==> !Sweeps(c, d.loc)));
      if x :| x in plan && Aims(x, d.loc) && !Blocks(plan, housed, x, m) {
        UnblockedAimLoses(plan, cs, housed, m, d, x);
      } else {
        var c :| c in cs && Sweeps(c, d.loc);
        SweptDependencyLoses(plan, cs, housed, m, d, c);
      }
    }
  }
}
