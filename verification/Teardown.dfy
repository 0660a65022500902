/** When repeated Delete passes come to an end: exactly when, and after how many passes. */
module Teardown {
  import opened Basics
  import opened ApiServer
  import opened Passes
  import opened Deletion
  import opened Sparing

  /** Between passes everything that is terminating vanishes. */
  function Settled(w: World): World {
    w.(objs := Vanish(w.objs, w.objs.Keys))
  }

  /** The store after `k` Delete passes. */
  function Rounds(env: Env, w: World, plan: seq<Managed>, cs: seq<Cleaner>, k: nat): (r: World)
    ensures r.calls >= w.calls
    decreases k, 0
  {
    if k == 0 then w else Settled(NthPass(env, w, plan, cs, k - 1).world)
  }

  /** Delete pass number `k`, counted from 0. */
  function NthPass(env: Env, w: World, plan: seq<Managed>, cs: seq<Cleaner>, k: nat): (r: Report)
    ensures r.world.calls >= w.calls
    decreases k, 1
  {
    Pass(env, Rounds(env, w, plan, cs, k), Deleting, plan, cs)
  }

  /** Pass number `k` reports no error and everything deleted. */
  ghost predicate FinishesAt(env: Env, w: World, plan: seq<Managed>, cs: seq<Cleaner>, k: nat) {
    Finished(NthPass(env, w, plan, cs, k))
  }

  // ----- how deep dependencies go -----

  function Depth(m: Managed): nat {
    DepthOf(m.deps)
  }

  function DepthOf(deps: seq<Managed>): nat {
    if deps == [] then 0
    else
      var rest, first := DepthOf(deps[1..]), 1 + Depth(deps[0]);
      if first > rest then first else rest
  }

  function MaxDepth(plan: seq<Managed>): nat {
    if plan == [] then 0
    else
      var rest, first := MaxDepth(plan[1..]), Depth(plan[0]);
      if first > rest then first else rest
  }

  lemma {:induction false} DependencyIsShallower(deps: seq<Managed>, d: Managed)
    requires d in deps
    ensures Depth(d) < DepthOf(deps)
  {
    if d != deps[0] {
      DependencyIsShallower(deps[1..], d);
    }
  }

  lemma {:induction false} DepthIsBounded(plan: seq<Managed>, m: Managed)
    requires m in plan
    ensures Depth(m) <= MaxDepth(plan)
  {
    if m != plan[0] {
      DepthIsBounded(plan[1..], m);
    }
  }

  /** A numbering in which every object comes before what it depends on. */
  ghost predicate Ranked(plan: seq<Managed>, rank: Managed -> nat) {
    forall m, d :: Dependency(plan, m, d) && d in plan ==> rank(m) < rank(d)
  }

  function Rank(plan: seq<Managed>): Managed -> nat {
    m => if Depth(m) <= MaxDepth(plan) then MaxDepth(plan) - Depth(m) else 0
  }

  lemma RankRanks(plan: seq<Managed>)
    ensures Ranked(plan, Rank(plan))
    ensures forall m :: m in plan ==> Rank(plan)(m) <= MaxDepth(plan)
  {
    forall m, d | Dependency(plan, m, d) && d in plan
      ensures Rank(plan)(m) < Rank(plan)(d)
    {
      DependencyIsShallower(m.deps, d);
      DepthIsBounded(plan, m);
    }
  }

  // ----- what holds things up -----

  ghost predicate OrphanHold(plan: seq<Managed>, objs: Objects, m: Managed, d: Managed) {
    Dependency(plan, m, d) && d in plan && m.policy.OrphanPolicy? && m.loc in objs
  }

  /** An existing object that will be orphaned depends on a managed object. */
  ghost predicate OrphanHolds(plan: seq<Managed>, objs: Objects) {
    exists m, d :: OrphanHold(plan, objs, m, d)
  }

  /** Every Delete-policy object of rank below `k` is gone. */
  ghost predicate GoneBelow(plan: seq<Managed>, rank: Managed -> nat, objs: Objects, k: nat) {
    forall m :: m in plan && m.policy.DeletePolicy? && rank(m) < k ==> m.loc !in objs
  }

  lemma SettledFades(w: World)
    ensures Fades(w.objs, Settled(w).objs)
  {
  }

  lemma NoDependentLeft(plan: seq<Managed>, rank: Managed -> nat, objs: Objects, d: Managed)
    requires d in plan && Ranked(plan, rank) && !OrphanHolds(plan, objs) && GoneBelow(plan, rank, objs, rank(d))
    ensures forall x :: x in Dependents(plan, d) ==> x.loc !in objs
  {
    forall x | x in Dependents(plan, d)
      ensures x.loc !in objs
    {
      DependentIff(plan, d, x);
      assert Dependency(plan, x, d);
      assert !OrphanHold(plan, objs, x, d);
    }
  }

  /** A served visit without remaining dependents removes a Delete-policy object, or marks it terminating. */
  lemma UnblockedVisitDeletes(env: Env, w: World, plan: seq<Managed>, d: Managed)
    requires Prompt(env, w.calls)
    requires forall x :: x in Dependents(plan, d) ==> x.loc !in w.objs
    ensures var (w1, result) := DeleteOne(env, w, plan, d);
            && result.error.None?
            && (d.policy.DeletePolicy? ==> d.loc !in w1.objs || w1.objs[d.loc].terminating)
            && (d.policy.DeletePolicy? && d.loc !in w.objs ==> result.op == Deleted)
            && (d.policy.OrphanPolicy? ==> result.op == Deleted)
  {
    CheckPassesWhenGone(env, w, Dependents(plan, d));
    CheckFades(env, w, Dependents(plan, d));
    TickFades(env, CheckForDependents(env, w, Dependents(plan, d)).0);
  }

  /** One pass and the pause after it remove every object whose dependents were already gone. */
  lemma PassRemovesUnblocked(env: Env, w: World, plan: seq<Managed>, cs: seq<Cleaner>, d: Managed)
    requires Prompt(env, w.calls) && d in plan && d.policy.DeletePolicy?
    requires forall x :: x in Dependents(plan, d) ==> x.loc !in w.objs
    ensures d.loc !in Settled(Pass(env, w, Deleting, plan, cs).world).objs
  {
    hide DeleteOne, ApplyOne;
    var i :| 0 <= i < |plan| && plan[i] == d;
    var before := Visits(env, w, Deleting, plan, i).0;
    VisitsFade(env, w, plan, 0, i);
    UnblockedVisitDeletes(env, before, plan, d);
    VisitsFade(env, w, plan, i + 1, |plan|);
    DeletePassFades(env, w, plan, cs);
  }

  lemma FadingKeepsFreedom(plan: seq<Managed>, a: Objects, b: Objects)
    requires Fades(a, b) && !OrphanHolds(plan, a)
    ensures !OrphanHolds(plan, b)
  {
    if OrphanHolds(plan, b) {
      var m, d :| OrphanHold(plan, b, m, d);
      assert OrphanHold(plan, a, m, d);
    }
  }

  lemma RoundFades(env: Env, w: World, plan: seq<Managed>, cs: seq<Cleaner>)
    ensures Fades(w.objs, Settled(Pass(env, w, Deleting, plan, cs).world).objs)
  {
    DeletePassFades(env, w, plan, cs);
    SettledFades(Pass(env, w, Deleting, plan, cs).world);
  }

  /** Pass by pass the objects of one more rank disappear. */
  lemma {:induction false} RoundsRemoveRanks(
    env: Env, w: World, plan: seq<Managed>, cs: seq<Cleaner>, rank: Managed -> nat, k: nat)
    requires Prompt(env, w.calls) && Ranked(plan, rank) && !OrphanHolds(plan, w.objs)
    ensures GoneBelow(plan, rank, Rounds(env, w, plan, cs, k).objs, k)
    ensures !OrphanHolds(plan, Rounds(env, w, plan, cs, k).objs)
  {
    hide Pass;
    if k > 0 {
      RoundsRemoveRanks(env, w, plan, cs, rank, k - 1);
      var before := Rounds(env, w, plan, cs, k - 1);
      var after := Rounds(env, w, plan, cs, k);
      assert NthPass(env, w, plan, cs, k - 1) == Pass(env, before, Deleting, plan, cs);
      RoundFades(env, before, plan, cs);
      FadingKeepsFreedom(plan, before.objs, after.objs);
      forall m | m in plan && m.policy.DeletePolicy? && rank(m) < k
        ensures m.loc !in after.objs
      {
        if rank(m) == k - 1 {
          NoDependentLeft(plan, rank, before.objs, m);
          PassRemovesUnblocked(env, before, plan, cs, m);
        }
      }
    }
  }

  /** While a Delete-policy object exists, every pass removes at least one of them for good. */
  lemma {:induction false} EveryPassShrinks(
    env: Env, w: World, plan: seq<Managed>, cs: seq<Cleaner>, rank: Managed -> nat, m: Managed)
    returns (x: Managed)
    requires Prompt(env, w.calls) && Ranked(plan, rank) && !OrphanHolds(plan, w.objs)
    requires m in plan && m.policy.DeletePolicy? && m.loc in w.objs
    ensures x in plan && x.policy.DeletePolicy? && x.loc in w.objs
    ensures x.loc !in Settled(Pass(env, w, Deleting, plan, cs).world).objs
    ensures Fades(w.objs, Settled(Pass(env, w, Deleting, plan, cs).world).objs)
    decreases rank(m)
  {
    if y :| y in Dependents(plan, m) && y.loc in w.objs {
      DependentIff(plan, m, y);
      assert Dependency(plan, y, m);
      assert !OrphanHold(plan, w.objs, y, m);
      x := EveryPassShrinks(env, w, plan, cs, rank, y);
    } else {
      x := m;
      PassRemovesUnblocked(env, w, plan, cs, m);
      RoundFades(env, w, plan, cs);
    }
  }

  // ----- the last pass -----

  lemma {:induction false} PromptSweepIsSilent(env: Env, w: World, c: Cleaner, items: seq<Loc>, n: nat)
    requires Prompt(env, w.calls) && n <= |items|
    ensures Sweep(env, w, c, items, n).1 == []
  {
    if n > 0 {
      PromptSweepIsSilent(env, w, c, items, n - 1);
    }
  }

  lemma PromptCleanupIsSilent(env: Env, w: World, c: Cleaner)
    requires Prompt(env, w.calls)
    ensures Cleanup(env, w, c).1 == Some([])
  {
    var (w1, items) := List(env, w, c.cluster, c.ns);
    PromptSweepIsSilent(env, w1, c, items.value, |items.value|);
  }

  lemma {:induction false} PromptCleanupsAreSilent(env: Env, start: Report, cs: seq<Cleaner>, n: nat)
    requires Prompt(env, start.world.calls) && n <= |cs| && !start.failed
    ensures !Cleanups(env, start, cs, n).failed && Cleanups(env, start, cs, n).results == start.results
  {
    hide Cleanup;
    if n > 0 {
      PromptCleanupsAreSilent(env, start, cs, n - 1);
      PromptCleanupIsSilent(env, Cleanups(env, start, cs, n - 1).world, cs[n - 1]);
    }
  }

  lemma {:induction false} PromptCleanupsSweep(env: Env, start: Report, cs: seq<Cleaner>, n: nat, k: nat)
    requires Prompt(env, start.world.calls) && k < n <= |cs| && !start.failed
    ensures Swept(Cleanups(env, start, cs, n).world.objs, cs[k])
  {
    hide Cleanup, Swept;
    var before := Cleanups(env, start, cs, n - 1);
    PromptCleanupsAreSilent(env, start, cs, n - 1);
    if k < n - 1 {
      PromptCleanupsSweep(env, start, cs, n - 1, k);
      CleanupsFade(env, start, cs, n - 1, n);
      SweptFades(before.world.objs, Cleanups(env, start, cs, n).world.objs, cs[k]);
    } else {
      PromptCleanupIsSilent(env, before.world, cs[k]);
      ErrorFreeCleanupSweeps(env, before.world, cs[k]);
    }
  }

  /** Once everything is gone the next pass says so. */
  lemma PassOverNothingFinishes(env: Env, w: World, plan: seq<Managed>, cs: seq<Cleaner>)
    requires Prompt(env, w.calls) && !OrphanHolds(plan, w.objs)
    requires forall m :: m in plan && m.policy.DeletePolicy? ==> m.loc !in w.objs
    ensures Finished(Pass(env, w, Deleting, plan, cs))
  {
    hide DeleteOne, ApplyOne;
    var (w1, results) := Visits(env, w, Deleting, plan, |plan|);
    PromptCleanupsAreSilent(env, Report(w1, results, false), cs, |cs|);
    forall i | 0 <= i < |results|
      ensures results[i].error.None? && results[i].op == Deleted
    {
      VisitsReportInOrder(env, w, Deleting, plan, |plan|);
      VisitResult(env, w, Deleting, plan, i);
      var before := Visits(env, w, Deleting, plan, i).0;
      VisitsFade(env, w, plan, 0, i);
      forall x | x in Dependents(plan, plan[i])
        ensures x.loc !in before.objs
      {
        DependentIff(plan, plan[i], x);
        assert Dependency(plan, x, plan[i]);
        assert !OrphanHold(plan, w.objs, x, plan[i]);
      }
      UnblockedVisitDeletes(env, before, plan, plan[i]);
    }
  }

  /** With any ranking below `bound`, pass number `bound` (counted from 0) finishes. */
  lemma TeardownWithinRanks(
    env: Env, w: World, plan: seq<Managed>, cs: seq<Cleaner>, rank: Managed -> nat, bound: nat)
    requires Prompt(env, w.calls) && Ranked(plan, rank) && !OrphanHolds(plan, w.objs)
    requires forall m :: m in plan ==> rank(m) < bound
    ensures FinishesAt(env, w, plan, cs, bound)
  {
    RoundsRemoveRanks(env, w, plan, cs, rank, bound);
    PassOverNothingFinishes(env, Rounds(env, w, plan, cs, bound), plan, cs);
  }

  /**
   Without an existing orphan that depends on a managed object, and with served calls, the pass after
   MaxDepth + 1 passes finishes.
  */
  lemma TeardownEnds(env: Env, w: World, plan: seq<Managed>, cs: seq<Cleaner>)
    requires Prompt(env, w.calls) && !OrphanHolds(plan, w.objs)
    ensures FinishesAt(env, w, plan, cs, MaxDepth(plan) + 1)
  {
    RankRanks(plan);
    TeardownWithinRanks(env, w, plan, cs, Rank(plan), MaxDepth(plan) + 1);
  }

  // ----- how many passes are needed -----

  /** Visits of `m` come before everything that is aimed at `l`. */
  ghost predicate Precedes(plan: seq<Managed>, m: Managed, l: Loc) {
    forall p, q :: 0 <= p < |plan| && 0 <= q < |plan| && plan[p] == m && Aims(plan[q], l) ==> p < q
  }

  /** Nothing takes `m` away but its own visits. */
  ghost predicate OnlyByItself(plan: seq<Managed>, cs: seq<Cleaner>, m: Managed) {
    && (forall x :: x in plan && Aims(x, m.loc) ==> x == m)
    && (forall c :: c in cs ==> !Sweeps(c, m.loc))
  }

  ghost predicate Below(plan: seq<Managed>, cs: seq<Cleaner>, d: Managed, m: Managed) {
    d in m.deps && OnlyByItself(plan, cs, d) && Precedes(plan, d, m.loc)
  }

  /** Each object of the chain depends on the one before it, which is registered, and so visited, first. */
  ghost predicate Staircase(plan: seq<Managed>, cs: seq<Cleaner>, chain: seq<Managed>) {
    && |chain| >= 2 && chain[0].policy.DeletePolicy?
    && (forall i :: 0 <= i < |chain| ==> chain[i] in plan)
    && (forall i :: 0 <= i < |chain| - 1 ==> Below(plan, cs, chain[i], chain[i + 1]))
  }

  ghost predicate AllFirm(objs: Objects, ms: seq<Managed>) {
    forall i :: 0 <= i < |ms| ==> Firm(objs, ms[i].loc)
  }

  ghost predicate AimedAt(plan: seq<Managed>, n: nat, l: Loc) {
    exists q :: 0 <= q < n && q < |plan| && Aims(plan[q], l)
  }

  /** A visit leaves the dependency `d` in place when its dependent `m` is. */
  lemma DependentHoldsDependency(
    env: Env, w: World, plan: seq<Managed>, cs: seq<Cleaner>, x: Managed, d: Managed, m: Managed)
    requires x in plan && m in plan && Below(plan, cs, d, m) && Firm(w.objs, d.loc)
    requires x == d ==> Firm(w.objs, m.loc)
    ensures Firm(DeleteOne(env, w, plan, x).0.objs, d.loc)
  {
    if x == d {
      DependentIff(plan, d, m);
      CheckBlockedByFirm(env, w, Dependents(plan, d), m);
      CheckKeepsFirm(env, w, Dependents(plan, d), d.loc);
    } else {
      DeleteOneSpares(env, w, plan, x, d.loc);
    }
  }

  /** In one pass all but the last object of the chain stay, and the last one until something is aimed at it. */
  lemma {:induction false} ChainHolds(
    env: Env, w: World, plan: seq<Managed>, cs: seq<Cleaner>, chain: seq<Managed>, n: nat)
    requires Staircase(plan, cs, chain) && AllFirm(w.objs, chain) && n <= |plan|
    ensures var objs := Visits(env, w, Deleting, plan, n).0.objs;
            && AllFirm(objs, Front(chain))
            && (!AimedAt(plan, n, Last(chain).loc) ==> Firm(objs, Last(chain).loc))
  {
    hide DeleteOne, ApplyOne, Firm;
    if n > 0 {
      ChainHolds(env, w, plan, cs, chain, n - 1);
      var w1, x, last := Visits(env, w, Deleting, plan, n - 1).0, plan[n - 1], |chain| - 1;
      forall i | 0 <= i < last
        ensures Firm(DeleteOne(env, w1, plan, x).0.objs, chain[i].loc)
      {
        assert Below(plan, cs, chain[i], chain[i + 1]);
        assert Front(chain)[i] == chain[i];
        if i + 1 < last {
          assert Front(chain)[i + 1] == chain[i + 1];
        }
        DependentHoldsDependency(env, w1, plan, cs, x, chain[i], chain[i + 1]);
      }
      if !AimedAt(plan, n, chain[last].loc) {
        assert !Aims(x, chain[last].loc);
        DeleteOneSpares(env, w1, plan, x, chain[last].loc);
      }
    }
  }

  /** A pass and the pause after it shorten the chain by its last object at most. */
  lemma RoundShortensChain(env: Env, w: World, plan: seq<Managed>, cs: seq<Cleaner>, chain: seq<Managed>)
    requires Staircase(plan, cs, chain) && AllFirm(w.objs, chain)
    ensures AllFirm(Settled(Pass(env, w, Deleting, plan, cs).world).objs, Front(chain))
  {
    hide Visit, Cleanup;
    ChainHolds(env, w, plan, cs, chain, |plan|);
    var (w1, results) := Visits(env, w, Deleting, plan, |plan|);
    var after := Pass(env, w, Deleting, plan, cs).world;
    forall i | 0 <= i < |chain| - 1
      ensures Firm(Settled(after).objs, chain[i].loc)
    {
      assert Below(plan, cs, chain[i], chain[i + 1]);
      assert Front(chain)[i] == chain[i];
      CleanupsSpare(env, Report(w1, results, false), cs, |cs|, chain[i].loc);
      VanishKeepsFirm(after.objs, after.objs.Keys, chain[i].loc);
    }
  }

  lemma {:induction false} ChainThroughRounds(
    env: Env, w: World, plan: seq<Managed>, cs: seq<Cleaner>, chain: seq<Managed>, k: nat)
    requires Staircase(plan, cs, chain) && AllFirm(w.objs, chain) && k < |chain|
    ensures AllFirm(Rounds(env, w, plan, cs, k).objs, chain[..|chain| - k])
  {
    hide Pass, Firm, Below;
    if k > 0 {
      ChainThroughRounds(env, w, plan, cs, chain, k - 1);
      var rest, before := chain[..|chain| - (k - 1)], Rounds(env, w, plan, cs, k - 1);
      assert NthPass(env, w, plan, cs, k - 1) == Pass(env, before, Deleting, plan, cs);
      RoundShortensChain(env, before, plan, cs, rest);
      assert Front(rest) == chain[..|chain| - k];
    } else {
      assert chain[..|chain|] == chain;
    }
  }

  /** Before its own first visit nothing happens to an object that only its own visits delete. */
  lemma {:induction false} FirmUntilVisited(
    env: Env, w: World, plan: seq<Managed>, cs: seq<Cleaner>, m: Managed, n: nat)
    requires n <= |plan| && OnlyByItself(plan, cs, m) && Firm(w.objs, m.loc) && m !in plan[..n]
    ensures Firm(Visits(env, w, Deleting, plan, n).0.objs, m.loc)
  {
    hide DeleteOne, ApplyOne;
    if n > 0 {
      assert plan[n - 1] in plan[..n] && forall x :: x in plan[..n - 1] ==> x in plan[..n];
      FirmUntilVisited(env, w, plan, cs, m, n - 1);
      DeleteOneSpares(env, Visits(env, w, Deleting, plan, n - 1).0, plan, plan[n - 1], m.loc);
    }
  }

  lemma {:induction false} FirstIndex(plan: seq<Managed>, m: Managed) returns (i: nat)
    requires m in plan
    ensures i < |plan| && plan[i] == m && m !in plan[..i]
  {
    if plan[0] == m {
      i := 0;
    } else {
      var j := FirstIndex(plan[1..], m);
      i := j + 1;
      assert plan[..i] == [plan[0]] + plan[1..][..i - 1];
    }
  }

  /** The visit of a firm object never reports "deleted" without an error. */
  lemma FirmVisitIsUnfinished(env: Env, w: World, plan: seq<Managed>, m: Managed)
    requires m.policy.DeletePolicy? && Firm(w.objs, m.loc)
    ensures var result := DeleteOne(env, w, plan, m).1; result.error.Some? || result.op != Deleted
  {
    CheckKeepsFirm(env, w, Dependents(plan, m), m.loc);
    var w1 := CheckForDependents(env, w, Dependents(plan, m)).0;
    VanishKeepsFirm(w1.objs, env.event(w1.calls).vanishing, m.loc);
  }

  lemma FirmDelaysFinish(env: Env, w: World, plan: seq<Managed>, cs: seq<Cleaner>, m: Managed)
    requires m in plan && m.policy.DeletePolicy? && OnlyByItself(plan, cs, m) && Firm(w.objs, m.loc)
    ensures !Finished(Pass(env, w, Deleting, plan, cs))
  {
    hide DeleteOne, ApplyOne, Cleanup;
    var i := FirstIndex(plan, m);
    FirmUntilVisited(env, w, plan, cs, m, i);
    FirmVisitIsUnfinished(env, Visits(env, w, Deleting, plan, i).0, plan, m);
    VisitResult(env, w, Deleting, plan, i);
    PassReportsEveryObject(env, w, Deleting, plan, cs);
    assert Pass(env, w, Deleting, plan, cs).results[i] == Visits(env, w, Deleting, plan, |plan|).1[i];
  }

  /**
   The bound is tight: a chain of existing objects whose dependencies are registered first takes as many
   passes as it has objects, and one more to see that they are gone, whatever calls do.
  */
  lemma ChainNeedsPasses(
    env: Env, w: World, plan: seq<Managed>, cs: seq<Cleaner>, chain: seq<Managed>, k: nat)
    requires Staircase(plan, cs, chain) && AllFirm(w.objs, chain) && k < |chain|
    ensures !FinishesAt(env, w, plan, cs, k)
  {
    ChainThroughRounds(env, w, plan, cs, chain, k);
    assert chain[..|chain| - k][0] == chain[0];
    assert Below(plan, cs, chain[0], chain[1]);
    FirmDelaysFinish(env, Rounds(env, w, plan, cs, k), plan, cs, chain[0]);
  }
}
