/** What Delete passes keep, what they finish, and when they finish. */
module Deletion {
  import opened Basics
  import opened ApiServer
  import opened Passes

  // ----- a Delete pass only takes away -----

  lemma FadesItself(a: Objects)
    ensures Fades(a, a)
  {
  }

  lemma FadesTransitive(a: Objects, b: Objects, c: Objects)
    requires Fades(a, b) && Fades(b, c)
    ensures Fades(a, c)
  {
  }

  lemma {:induction false} CheckFades(env: Env, w: World, deps: seq<Managed>)
    ensures Fades(w.objs, CheckForDependents(env, w, deps).0.objs)
  {
    if deps != [] {
      var w1 := CheckForDependents(env, w, Front(deps)).0;
      CheckFades(env, w, Front(deps));
      TickFades(env, w1);
      FadesTransitive(w.objs, w1.objs, Tick(env, w1).objs);
    }
  }

  lemma DeleteOneFades(env: Env, w: World, plan: seq<Managed>, m: Managed)
    ensures Fades(w.objs, DeleteOne(env, w, plan, m).0.objs)
  {
    var (w1, causes) := CheckForDependents(env, w, Dependents(plan, m));
    CheckFades(env, w, Dependents(plan, m));
    DeleteFades(env, w1, m.loc);
    FadesTransitive(w.objs, w1.objs, Delete(env, w1, m.loc).0.objs);
  }

  lemma {:induction false} VisitsFade(env: Env, w: World, plan: seq<Managed>, i: nat, n: nat)
    requires i <= n <= |plan|
    ensures Fades(Visits(env, w, Deleting, plan, i).0.objs, Visits(env, w, Deleting, plan, n).0.objs)
  {
    hide DeleteOne, ApplyOne, Fades;
    if i < n {
      VisitsFade(env, w, plan, i, n - 1);
      var w1 := Visits(env, w, Deleting, plan, n - 1).0;
      DeleteOneFades(env, w1, plan, plan[n - 1]);
      FadesTransitive(Visits(env, w, Deleting, plan, i).0.objs, w1.objs,
                      Visits(env, w, Deleting, plan, n).0.objs);
    } else {
      FadesItself(Visits(env, w, Deleting, plan, i).0.objs);
    }
  }

  lemma {:induction false} SweepFades(env: Env, w: World, c: Cleaner, items: seq<Loc>, i: nat, n: nat)
    requires i <= n <= |items|
    ensures Fades(Sweep(env, w, c, items, i).0.objs, Sweep(env, w, c, items, n).0.objs)
  {
    hide Delete, Fades;
    if i < n {
      SweepFades(env, w, c, items, i, n - 1);
      var w1 := Sweep(env, w, c, items, n - 1).0;
      FadesItself(w1.objs);
      DeleteFades(env, w1, items[n - 1]);
      FadesTransitive(Sweep(env, w, c, items, i).0.objs, w1.objs, Sweep(env, w, c, items, n).0.objs);
    } else {
      FadesItself(Sweep(env, w, c, items, i).0.objs);
    }
  }

  lemma CleanupFades(env: Env, w: World, c: Cleaner)
    ensures Fades(w.objs, Cleanup(env, w, c).0.objs)
  {
    TickFades(env, w);
    var (w1, items) := List(env, w, c.cluster, c.ns);
    if items.Some? {
      SweepFades(env, w1, c, items.value, 0, |items.value|);
      FadesTransitive(w.objs, w1.objs, Cleanup(env, w, c).0.objs);
    }
  }

  lemma {:induction false} CleanupsFade(env: Env, start: Report, cs: seq<Cleaner>, i: nat, n: nat)
    requires i <= n <= |cs|
    ensures Fades(Cleanups(env, start, cs, i).world.objs, Cleanups(env, start, cs, n).world.objs)
  {
    hide Cleanup, Fades;
    if i < n {
      CleanupsFade(env, start, cs, i, n - 1);
      var before := Cleanups(env, start, cs, n - 1);
      FadesItself(before.world.objs);
      CleanupFades(env, before.world, cs[n - 1]);
      FadesTransitive(Cleanups(env, start, cs, i).world.objs, before.world.objs,
                      Cleanups(env, start, cs, n).world.objs);
    } else {
      FadesItself(Cleanups(env, start, cs, i).world.objs);
    }
  }

  /** Whatever fails, the store after a Delete pass is the store before it with objects gone or terminating. */
  lemma DeletePassFades(env: Env, w: World, plan: seq<Managed>, cs: seq<Cleaner>)
    ensures Fades(w.objs, Pass(env, w, Deleting, plan, cs).world.objs)
    ensures Fades(Visits(env, w, Deleting, plan, |plan|).0.objs, Pass(env, w, Deleting, plan, cs).world.objs)
  {
    hide Visit, Cleanup;
    var (w1, results) := Visits(env, w, Deleting, plan, |plan|);
    VisitsFade(env, w, plan, 0, |plan|);
    CleanupsFade(env, Report(w1, results, false), cs, 0, |cs|);
    FadesTransitive(w.objs, w1.objs, Pass(env, w, Deleting, plan, cs).world.objs);
  }

  // ----- the dependents check -----

  /** The replies the check received, one per dependent. */
  function Replies(env: Env, w: World, deps: seq<Managed>): seq<Reply> {
    if deps == [] then []
    else Replies(env, w, Front(deps)) + [Get(env, CheckForDependents(env, w, Front(deps)).0, Last(deps).loc).1]
  }

  /** The check lets a deletion through exactly when every dependent was reported "not found". */
  lemma {:induction false} CheckPassesExactly(env: Env, w: World, deps: seq<Managed>)
    ensures |Replies(env, w, deps)| == |deps|
    ensures CheckForDependents(env, w, deps).1 == [] <==>
            forall i :: 0 <= i < |deps| ==> Replies(env, w, deps)[i] == Missing
  {
    if deps != [] {
      CheckPassesExactly(env, w, Front(deps));
      var before, now := Replies(env, w, Front(deps)), Replies(env, w, deps);
      assert forall i :: 0 <= i < |before| ==> now[i] == before[i];
      assert now[|before|] == Get(env, CheckForDependents(env, w, Front(deps)).0, Last(deps).loc).1;
    }
  }

  /** When the check lets a deletion through, no dependent exists any more. */
  lemma {:induction false} CheckPassedMeansGone(env: Env, w: World, deps: seq<Managed>)
    requires CheckForDependents(env, w, deps).1 == []
    ensures forall x :: x in deps ==> x.loc !in CheckForDependents(env, w, deps).0.objs
  {
    if deps != [] {
      CheckPassedMeansGone(env, w, Front(deps));
      TickFades(env, CheckForDependents(env, w, Front(deps)).0);
      assert deps == Front(deps) + [Last(deps)];
    }
  }

  /** If no dependent exists and calls are served, the check finds nothing to complain about. */
  lemma {:induction false} CheckPassesWhenGone(env: Env, w: World, deps: seq<Managed>)
    requires Prompt(env, w.calls)
    requires forall x :: x in deps ==> x.loc !in w.objs
    ensures CheckForDependents(env, w, deps).1 == []
  {
    if deps != [] {
      CheckPassesWhenGone(env, w, Front(deps));
      CheckFades(env, w, Front(deps));
      TickFades(env, CheckForDependents(env, w, Front(deps)).0);
    }
  }

  lemma {:induction false} CheckKeepsFirm(env: Env, w: World, deps: seq<Managed>, l: Loc)
    requires Firm(w.objs, l)
    ensures var b := CheckForDependents(env, w, deps).0.objs; Firm(b, l) && b[l] == w.objs[l]
  {
    if deps != [] {
      CheckKeepsFirm(env, w, Front(deps), l);
      var w1 := CheckForDependents(env, w, Front(deps)).0;
      VanishKeepsFirm(w1.objs, env.event(w1.calls).vanishing, l);
    }
  }

  /** A dependent that stays put blocks, whatever happens to the calls. */
  lemma {:induction false} CheckBlockedByFirm(env: Env, w: World, deps: seq<Managed>, x: Managed)
    requires x in deps && Firm(w.objs, x.loc)
    ensures CheckForDependents(env, w, deps).1 != []
  {
    CheckKeepsFirm(env, w, Front(deps), x.loc);
    var w1 := CheckForDependents(env, w, Front(deps)).0;
    if x == Last(deps) {
      VanishKeepsFirm(w1.objs, env.event(w1.calls).vanishing, x.loc);
    } else {
      assert deps == Front(deps) + [Last(deps)];
      CheckBlockedByFirm(env, w, Front(deps), x);
    }
  }

  // ----- namespaces -----

  lemma {:induction false} CheckKeepsHoused(env: Env, w: World, deps: seq<Managed>)
    requires Housed(w.objs)
    ensures Housed(CheckForDependents(env, w, deps).0.objs)
  {
    if deps != [] {
      CheckKeepsHoused(env, w, Front(deps));
    }
  }

  lemma DeleteOneKeepsHoused(env: Env, w: World, plan: seq<Managed>, m: Managed)
    requires Housed(w.objs)
    ensures Housed(DeleteOne(env, w, plan, m).0.objs)
  {
    CheckKeepsHoused(env, w, Dependents(plan, m));
    DeleteKeepsHoused(env, CheckForDependents(env, w, Dependents(plan, m)).0, m.loc);
  }

  // ----- dependency order -----

  /** The cleaner would remove a managed secret at this place. */
  predicate Sweeps(c: Cleaner, l: Loc) {
    l.kind == Secret && l.cluster == c.cluster && l.ns == c.ns && l.name !in c.keep
  }

  ghost predicate Dependency(plan: seq<Managed>, m: Managed, d: Managed) {
    m in plan && d in m.deps
  }

  /** Every existing dependent has its dependencies, and nothing is about to take them away. */
  ghost predicate Anchored(plan: seq<Managed>, objs: Objects) {
    forall m, d :: Dependency(plan, m, d) && m.loc in objs ==> Firm(objs, d.loc)
  }

  /** Deleting `x` takes away what is at `l`, directly or with its namespace. */
  predicate Aims(x: Managed, l: Loc) {
    x.policy.DeletePolicy? && (x.loc == l || l.LivesIn(x.loc))
  }

  /** Something managed at `a` depends on something at `b`; in housed stores what is at `a` needs its namespace too. */
  ghost predicate Link(plan: seq<Managed>, housed: bool, a: Loc, b: Loc) {
    || (exists m, d :: Dependency(plan, m, d) && m.loc == a && d.loc == b)
    || (housed && a.Namespaced() && a.House() == b)
  }

  ghost predicate Chain(plan: seq<Managed>, housed: bool, path: seq<Loc>) {
    path != [] && forall i :: 0 <= i < |path| - 1 ==> Link(plan, housed, path[i], path[i + 1])
  }

  /** What is at `a` needs what is at `b`, over any number of steps. */
  ghost predicate Needs(plan: seq<Managed>, housed: bool, a: Loc, b: Loc) {
    exists path :: Chain(plan, housed, path) && path[0] == a && Last(path) == b
  }

  /** While `m` and `x` exist, some dependent of `x` exists: it sits where one of them is, or at a place they need. */
  ghost predicate Blocks(plan: seq<Managed>, housed: bool, x: Managed, m: Managed) {
    exists y :: y in Dependents(plan, x) && (Needs(plan, housed, m.loc, y.loc) || Needs(plan, housed, x.loc, y.loc))
  }

  /**
   Whatever is aimed at a dependency, directly or through its namespace, waits for the dependent,
   and the dependency is out of reach of the cleaners. In housed stores more is blocked.
  */
  ghost predicate WellWired(plan: seq<Managed>, cs: seq<Cleaner>, housed: bool) {
    forall m, d :: Dependency(plan, m, d) ==>
      && (forall x :: x in plan && Aims(x, d.loc) ==> Blocks(plan, housed, x, m))
      && (forall c :: c in cs ==> !Sweeps(c, d.loc))
  }

  lemma {:induction false} NeedsAreThere(plan: seq<Managed>, housed: bool, objs: Objects, path: seq<Loc>)
    requires Anchored(plan, objs) && (housed ==> Housed(objs)) && Chain(plan, housed, path) && path[0] in objs
    ensures Last(path) in objs
  {
    if |path| > 1 {
      assert Link(plan, housed, path[0], path[1]);
      assert forall i :: 0 <= i < |path[1..]| - 1 ==> Link(plan, housed, path[1..][i], path[1..][i + 1]) by {
        assert forall i :: 0 < i < |path| - 1 ==> Link(plan, housed, path[i], path[i + 1]);
      }
      NeedsAreThere(plan, housed, objs, path[1..]);
    }
  }

  /** What blocks the deletion of `x` is there as long as `m` and `x` are. */
  lemma BlockerIsThere(plan: seq<Managed>, housed: bool, objs: Objects, x: Managed, m: Managed) returns (y: Managed)
    requires Anchored(plan, objs) && (housed ==> Housed(objs))
    requires Blocks(plan, housed, x, m) && m.loc in objs && x.loc in objs
    ensures y in Dependents(plan, x) && y.loc in objs
  {
    y :| y in Dependents(plan, x) && (Needs(plan, housed, m.loc, y.loc) || Needs(plan, housed, x.loc, y.loc));
    var from := if Needs(plan, housed, m.loc, y.loc) then m.loc else x.loc;
    var path :| Chain(plan, housed, path) && path[0] == from && Last(path) == y.loc;
    NeedsAreThere(plan, housed, objs, path);
  }

  lemma TickKeepsAnchored(env: Env, w: World, plan: seq<Managed>)
    requires Anchored(plan, w.objs)
    ensures Anchored(plan, Tick(env, w).objs)
  {
    forall m, d | Dependency(plan, m, d) && m.loc in Tick(env, w).objs
      ensures Firm(Tick(env, w).objs, d.loc)
    {
      VanishKeepsFirm(w.objs, env.event(w.calls).vanishing, d.loc);
    }
  }

  lemma {:induction false} CheckKeepsAnchored(env: Env, w: World, plan: seq<Managed>, deps: seq<Managed>)
    requires Anchored(plan, w.objs)
    ensures Anchored(plan, CheckForDependents(env, w, deps).0.objs)
  {
    if deps != [] {
      CheckKeepsAnchored(env, w, plan, Front(deps));
      TickKeepsAnchored(env, CheckForDependents(env, w, Front(deps)).0, plan);
    }
  }

  lemma DeleteOneKeepsAnchored(env: Env, w: World, plan: seq<Managed>, cs: seq<Cleaner>, housed: bool, x: Managed)
    requires WellWired(plan, cs, housed) && (housed ==> Housed(w.objs)) && Anchored(plan, w.objs) && x in plan
    ensures Anchored(plan, DeleteOne(env, w, plan, x).0.objs)
  {
    var deps := Dependents(plan, x);
    var (w1, causes) := CheckForDependents(env, w, deps);
    if housed {
      CheckKeepsHoused(env, w, deps);
    }
    CheckKeepsAnchored(env, w, plan, deps);
    if causes == [] && x.policy.DeletePolicy? {
      CheckPassedMeansGone(env, w, deps);
      var w2 := Delete(env, w1, x.loc).0;
      DeleteFades(env, w1, x.loc);
      TickKeepsAnchored(env, w1, plan);
      forall m, d | Dependency(plan, m, d) && m.loc in w2.objs
        ensures Firm(w2.objs, d.loc)
      {
        if Aims(x, d.loc) && x.loc in w1.objs {
          var y := BlockerIsThere(plan, housed, w1.objs, x, m);
          assert false;
        } else if !Aims(x, d.loc) {
          DeleteSpares(env, w1, x.loc, d.loc);
        }
      }
    }
  }

  lemma SweepStepKeepsAnchored(
    env: Env, w: World, plan: seq<Managed>, cs: seq<Cleaner>, housed: bool, c: Cleaner, l: Loc)
    requires WellWired(plan, cs, housed) && c in cs && Anchored(plan, w.objs)
    requires Sweeps(c, l)
    ensures Anchored(plan, Delete(env, w, l).0.objs)
  {
    var b := Delete(env, w, l).0.objs;
    DeleteFades(env, w, l);
    forall m, d | Dependency(plan, m, d) && m.loc in b
      ensures Firm(b, d.loc)
    {
      DeleteSpares(env, w, l, d.loc);
    }
  }

  /** What a list call of the cleaner can return. */
  ghost predicate Listable(c: Cleaner, items: seq<Loc>) {
    forall i :: 0 <= i < |items| ==> items[i].kind == Secret && items[i].cluster == c.cluster && items[i].ns == c.ns
  }

  lemma ListIsListable(env: Env, w: World, c: Cleaner)
    ensures var items := List(env, w, c.cluster, c.ns).1;
            items.Some? ==>
              && Listable(c, items.value)
              && Enumerates(items.value, ManagedSecrets(Tick(env, w).objs, c.cluster, c.ns))
  {
    var items := List(env, w, c.cluster, c.ns).1;
    if items.Some? {
      var s := ManagedSecrets(Tick(env, w).objs, c.cluster, c.ns);
      assert Enumerates(env.order(s), s);
      forall i | 0 <= i < |items.value|
        ensures items.value[i] in s
      {
      }
    }
  }

  lemma {:induction false} SweepKeepsAnchored(
    env: Env, w: World, plan: seq<Managed>, cs: seq<Cleaner>, housed: bool, c: Cleaner, items: seq<Loc>, n: nat)
    requires n <= |items| && Listable(c, items)
    requires WellWired(plan, cs, housed) && c in cs && Anchored(plan, w.objs)
    ensures Anchored(plan, Sweep(env, w, c, items, n).0.objs)
  {
    if n > 0 {
      SweepKeepsAnchored(env, w, plan, cs, housed, c, items, n - 1);
      if items[n - 1].name !in c.keep {
        SweepStepKeepsAnchored(env, Sweep(env, w, c, items, n - 1).0, plan, cs, housed, c, items[n - 1]);
      }
    }
  }

  lemma {:induction false} CleanupsKeepAnchored(
    env: Env, start: Report, plan: seq<Managed>, cs: seq<Cleaner>, housed: bool, n: nat)
    requires n <= |cs|
    requires WellWired(plan, cs, housed) && Anchored(plan, start.world.objs)
    ensures Anchored(plan, Cleanups(env, start, cs, n).world.objs)
  {
    hide Sweep;
    if n > 0 {
      CleanupsKeepAnchored(env, start, plan, cs, housed, n - 1);
      var before := Cleanups(env, start, cs, n - 1);
      if !before.failed {
        var c := cs[n - 1];
        TickKeepsAnchored(env, before.world, plan);
        ListIsListable(env, before.world, c);
        var (w1, items) := List(env, before.world, c.cluster, c.ns);
        if items.Some? {
          SweepKeepsAnchored(env, w1, plan, cs, housed, c, items.value, |items.value|);
        }
      }
    }
  }

  lemma {:induction false} VisitsKeepAnchored(
    env: Env, w: World, plan: seq<Managed>, cs: seq<Cleaner>, housed: bool, n: nat)
    requires n <= |plan|
    requires WellWired(plan, cs, housed) && (housed ==> Housed(w.objs)) && Anchored(plan, w.objs)
    ensures var objs := Visits(env, w, Deleting, plan, n).0.objs;
            Anchored(plan, objs) && (housed ==> Housed(objs))
  {
    hide DeleteOne, ApplyOne, Housed, WellWired;
    if n > 0 {
      VisitsKeepAnchored(env, w, plan, cs, housed, n - 1);
      var before := Visits(env, w, Deleting, plan, n - 1).0;
      DeleteOneKeepsAnchored(env, before, plan, cs, housed, plan[n - 1]);
      if housed {
        DeleteOneKeepsHoused(env, before, plan, plan[n - 1]);
      }
    }
  }

  /**
   Dependency order: however calls fail, linger or lose their replies, a Delete pass never takes
   a dependency away from an existing dependent.
  */
  lemma DeletePassKeepsAnchored(env: Env, w: World, plan: seq<Managed>, cs: seq<Cleaner>, housed: bool)
    requires WellWired(plan, cs, housed) && (housed ==> Housed(w.objs)) && Anchored(plan, w.objs)
    ensures Anchored(plan, Pass(env, w, Deleting, plan, cs).world.objs)
  {
    hide DeleteOne, ApplyOne;
    VisitsKeepAnchored(env, w, plan, cs, housed, |plan|);
    var (w1, results) := Visits(env, w, Deleting, plan, |plan|);
    CleanupsKeepAnchored(env, Report(w1, results, false), plan, cs, housed, |cs|);
  }

  // ----- clean finish -----

  ghost predicate Finished(report: Report) {
    ErrorFree(report) && AllDeleted(report.results)
  }

  /** The results of a sweep are one error for each item at the positions `failed`, in list order. */
  ghost predicate ErrorsAt(c: Cleaner, items: seq<Loc>, results: seq<Result>, failed: seq<nat>) {
    && |failed| == |results|
    && (forall a :: 0 <= a < |failed| ==>
          && failed[a] < |items| && items[failed[a]].name !in c.keep
          && results[a].managed.loc == items[failed[a]] && results[a].managed.recipe == Leftover
          && results[a].managed.policy == DeletePolicy && results[a].managed.deps == []
          && results[a].op == DeletionFailed && results[a].error == Some(CallFailed))
    && (forall a, b :: 0 <= a < b < |failed| ==> failed[a] < failed[b])
  }

  ghost predicate Handled(objs: Objects, c: Cleaner, l: Loc) {
    l.name in c.keep || l !in objs || objs[l].terminating
  }

  predicate Fails(env: Env, w: World, c: Cleaner, l: Loc) {
    l.name !in c.keep && Delete(env, w, l).1.Failed?
  }

  /** The positions among the first `n` items whose deletion failed. */
  function FailedAt(env: Env, w: World, c: Cleaner, items: seq<Loc>, n: nat): seq<nat>
    requires n <= |items|
  {
    if n == 0 then []
    else
      FailedAt(env, w, c, items, n - 1) +
      (if Fails(env, Sweep(env, w, c, items, n - 1).0, c, items[n - 1]) then [n - 1] else [])
  }

  lemma {:induction false} FailedAtInRange(env: Env, w: World, c: Cleaner, items: seq<Loc>, n: nat)
    requires n <= |items|
    ensures forall a :: 0 <= a < |FailedAt(env, w, c, items, n)| ==> FailedAt(env, w, c, items, n)[a] < n
  {
    if n > 0 {
      FailedAtInRange(env, w, c, items, n - 1);
    }
  }

  /** The results of a sweep are exactly one error for each failed deletion, in list order. */
  lemma {:induction false} SweepReportsFailures(env: Env, w: World, c: Cleaner, items: seq<Loc>, n: nat)
    requires n <= |items|
    ensures ErrorsAt(c, items, Sweep(env, w, c, items, n).1, FailedAt(env, w, c, items, n))
  {
    hide Delete;
    if n > 0 {
      SweepReportsFailures(env, w, c, items, n - 1);
      FailedAtInRange(env, w, c, items, n - 1);
    }
  }

  lemma ServedDeletionHandles(env: Env, w: World, c: Cleaner, l: Loc)
    requires l.name !in c.keep && !Delete(env, w, l).1.Failed?
    ensures Handled(Delete(env, w, l).0.objs, c, l)
  {
  }

  /** Every listed secret without an error of its own is kept, gone or terminating. */
  lemma {:induction false} SweepHandlesTheRest(env: Env, w: World, c: Cleaner, items: seq<Loc>, n: nat, i: nat)
    requires i < n <= |items|
    requires i !in FailedAt(env, w, c, items, n)
    ensures Handled(Sweep(env, w, c, items, n).0.objs, c, items[i])
  {
    hide Delete;
    var w1 := Sweep(env, w, c, items, n - 1).0;
    var before := FailedAt(env, w, c, items, n - 1);
    var now := FailedAt(env, w, c, items, n);
    assert forall a :: 0 <= a < |before| ==> now[a] == before[a];
    if i < n - 1 {
      assert i !in before;
      SweepHandlesTheRest(env, w, c, items, n - 1, i);
      SweepFades(env, w, c, items, n - 1, n);
    } else {
      assert now == before + if Fails(env, w1, c, items[i]) then [i] else [];
      assert i in [i];
      if items[i].name !in c.keep {
        ServedDeletionHandles(env, w1, c, items[i]);
      }
    }
  }

  /** Every managed secret left in the cleaner's namespace is kept or terminating. */
  ghost predicate Swept(objs: Objects, c: Cleaner) {
    forall l :: l in ManagedSecrets(objs, c.cluster, c.ns) ==> l.name in c.keep || objs[l].terminating
  }

  lemma SweptFades(a: Objects, b: Objects, c: Cleaner)
    requires Fades(a, b) && Swept(a, c)
    ensures Swept(b, c)
  {
    forall l | l in ManagedSecrets(b, c.cluster, c.ns)
      ensures l.name in c.keep || b[l].terminating
    {
      assert l in ManagedSecrets(a, c.cluster, c.ns);
    }
  }

  lemma ErrorFreeCleanupSweeps(env: Env, w: World, c: Cleaner)
    requires Cleanup(env, w, c).1 == Some([])
    ensures Swept(Cleanup(env, w, c).0.objs, c)
  {
    var (w1, items) := List(env, w, c.cluster, c.ns);
    ListIsListable(env, w, c);
    SweepReportsFailures(env, w1, c, items.value, |items.value|);
    SweepFades(env, w1, c, items.value, 0, |items.value|);
    var b := Cleanup(env, w, c).0.objs;
    forall l | l in ManagedSecrets(b, c.cluster, c.ns)
      ensures l.name in c.keep || b[l].terminating
    {
      assert l in ManagedSecrets(w1.objs, c.cluster, c.ns);
      assert l in items.value;
      var i :| 0 <= i < |items.value| && items.value[i] == l;
      SweepHandlesTheRest(env, w1, c, items.value, |items.value|, i);
    }
  }

  lemma ErrorsShow(c: Cleaner, items: seq<Loc>, results: seq<Result>, failed: seq<nat>)
    requires ErrorsAt(c, items, results, failed)
    ensures results == [] || exists a :: 0 <= a < |results| && results[a].error.Some?
  {
    if results != [] {
      assert failed[0] < |items| && results[0].error.Some?;
    }
  }

  lemma SweepResultsAreErrors(env: Env, w: World, c: Cleaner, items: seq<Loc>, n: nat)
    requires n <= |items|
    requires forall i :: 0 <= i < |Sweep(env, w, c, items, n).1| ==> Sweep(env, w, c, items, n).1[i].error.None?
    ensures Sweep(env, w, c, items, n).1 == []
  {
    SweepReportsFailures(env, w, c, items, n);
    ErrorsShow(c, items, Sweep(env, w, c, items, n).1, FailedAt(env, w, c, items, n));
  }

  lemma {:induction false} ErrorFreeCleanupsSweep(env: Env, start: Report, cs: seq<Cleaner>, n: nat, k: nat)
    requires k < n <= |cs|
    requires ErrorFree(Cleanups(env, start, cs, n))
    ensures Swept(Cleanups(env, start, cs, n).world.objs, cs[k])
  {
    hide Sweep;
    var before := Cleanups(env, start, cs, n - 1);
    var after := Cleanups(env, start, cs, n);
    assert !before.failed;
    var (w, outcome) := Cleanup(env, before.world, cs[n - 1]);
    assert forall i :: 0 <= i < |before.results| ==> before.results[i] == after.results[i];
    if k < n - 1 {
      ErrorFreeCleanupsSweep(env, start, cs, n - 1, k);
      CleanupsFade(env, start, cs, n - 1, n);
      SweptFades(before.world.objs, after.world.objs, cs[k]);
    } else {
      assert forall i :: 0 <= i < |outcome.value| ==> after.results[|before.results| + i] == outcome.value[i];
      var (w1, items) := List(env, before.world, cs[k].cluster, cs[k].ns);
      SweepResultsAreErrors(env, w1, cs[k], items.value, |items.value|);
      ErrorFreeCleanupSweeps(env, before.world, cs[k]);
    }
  }

  /** A visit that reports "deleted" for a Delete-policy object leaves it absent. */
  lemma DeletedMeansAbsent(env: Env, w: World, plan: seq<Managed>, m: Managed)
    requires DeleteOne(env, w, plan, m).1.op == Deleted && m.policy.DeletePolicy?
    ensures m.loc !in DeleteOne(env, w, plan, m).0.objs
  {
  }

  /** The result at position `i` is that of the visit made after the first `i` visits. */
  lemma VisitResult(env: Env, w: World, mode: Mode, plan: seq<Managed>, i: nat)
    requires i < |plan|
    ensures var all := Visits(env, w, mode, plan, |plan|).1;
            && |all| == |plan|
            && all[i] == Visit(env, Visits(env, w, mode, plan, i).0, mode, plan, plan[i]).1
  {
    hide DeleteOne, ApplyOne;
    VisitsExtend(env, w, mode, plan, i + 1, |plan|);
    VisitsReportInOrder(env, w, mode, plan, i);
  }

  lemma FinishedVisitMeansGone(env: Env, w: World, plan: seq<Managed>, cs: seq<Cleaner>, i: nat)
    requires i < |plan| && plan[i].policy.DeletePolicy?
    requires AllDeleted(Pass(env, w, Deleting, plan, cs).results)
    ensures plan[i].loc !in Pass(env, w, Deleting, plan, cs).world.objs
  {
    hide DeleteOne, ApplyOne;
    var results := Visits(env, w, Deleting, plan, |plan|).1;
    PassReportsEveryObject(env, w, Deleting, plan, cs);
    VisitResult(env, w, Deleting, plan, i);
    assert results[i] == Pass(env, w, Deleting, plan, cs).results[i];
    DeletedMeansAbsent(env, Visits(env, w, Deleting, plan, i).0, plan, plan[i]);
    VisitsFade(env, w, plan, i + 1, |plan|);
    DeletePassFades(env, w, plan, cs);
  }

  /**
   Clean finish: when a Delete pass reports no error and everything deleted, no object with the
   Delete policy exists at the end of the pass, and only kept or terminating managed secrets are
   left in the namespaces of the cleaners.
  */
  lemma FinishedMeansGone(env: Env, w: World, plan: seq<Managed>, cs: seq<Cleaner>)
    requires Finished(Pass(env, w, Deleting, plan, cs))
    ensures var objs := Pass(env, w, Deleting, plan, cs).world.objs;
            && (forall m :: m in plan && m.policy.DeletePolicy? ==> m.loc !in objs)
            && (forall c :: c in cs ==> Swept(objs, c))
  {
    hide DeleteOne, ApplyOne;
    var report := Pass(env, w, Deleting, plan, cs);
    forall m | m in plan && m.policy.DeletePolicy?
      ensures m.loc !in report.world.objs
    {
      var i :| 0 <= i < |plan| && plan[i] == m;
      FinishedVisitMeansGone(env, w, plan, cs, i);
    }
    var (w1, results) := Visits(env, w, Deleting, plan, |plan|);
    forall c | c in cs
      ensures Swept(report.world.objs, c)
    {
      var k :| 0 <= k < |cs| && cs[k] == c;
      ErrorFreeCleanupsSweep(env, Report(w1, results, false), cs, |cs|, k);
    }
  }
}
