/** When repeated Delete passes never end: exactly when some objects keep each other in place. */
module Standstill {
  import opened ApiServer
  import opened Passes
  import opened Deletion
  import opened Sparing
  import opened Teardown

  /** Some dependent of `x` is at one of these places. */
  ghost predicate Waits(plan: seq<Managed>, x: Managed, r: set<Loc>) {
    exists y :: y in Dependents(plan, x) && y.loc in r
  }

  /**
   The objects at these places keep each other in place: whatever deletion is aimed at one of them waits
   for a dependent at another, and the cleaners pass them by.
  */
  ghost predicate Interlocked(plan: seq<Managed>, cs: seq<Cleaner>, objs: Objects, r: set<Loc>) {
    forall l :: l in r ==>
      && Firm(objs, l)
      && (forall x :: x in plan && Aims(x, l) && x.loc in objs ==> Waits(plan, x, r))
      && (forall c :: c in cs ==> !Sweeps(c, l) || !ManagedLabel(objs[l]))
  }

  /** Such objects include a dependent of a managed object. */
  ghost predicate Holding(plan: seq<Managed>, cs: seq<Cleaner>, objs: Objects, r: set<Loc>, m: Managed, d: Managed) {
    Interlocked(plan, cs, objs, r) && m.loc in r && Dependency(plan, m, d) && d in plan
  }

  ghost predicate Held(plan: seq<Managed>, cs: seq<Cleaner>, objs: Objects) {
    exists r, m, d :: Holding(plan, cs, objs, r, m, d)
  }

  // ----- interlocked objects stay -----

  ghost predicate Unmoved(a: Objects, b: Objects, r: set<Loc>) {
    forall l :: l in r ==> l in a && Firm(b, l) && b[l] == a[l]
  }

  lemma AbsentDeletionSpares(env: Env, w: World, plan: seq<Managed>, x: Managed, l: Loc)
    requires Firm(w.objs, l) && x.loc !in w.objs
    ensures var b := DeleteOne(env, w, plan, x).0.objs; Firm(b, l) && b[l] == w.objs[l]
  {
    var (w1, causes) := CheckForDependents(env, w, Dependents(plan, x));
    CheckKeepsFirm(env, w, Dependents(plan, x), l);
    CheckFades(env, w, Dependents(plan, x));
    TickFades(env, w1);
    VanishKeepsFirm(w1.objs, env.event(w1.calls).vanishing, l);
  }

  lemma WaitingVisitSpares(env: Env, w: World, plan: seq<Managed>, x: Managed, y: Managed, l: Loc)
    requires y in Dependents(plan, x) && Firm(w.objs, y.loc) && Firm(w.objs, l)
    ensures var b := DeleteOne(env, w, plan, x).0.objs; Firm(b, l) && b[l] == w.objs[l]
  {
    CheckBlockedByFirm(env, w, Dependents(plan, x), y);
    CheckKeepsFirm(env, w, Dependents(plan, x), l);
  }

  lemma InterlockedVisit(
    env: Env, w: World, plan: seq<Managed>, cs: seq<Cleaner>, objs: Objects, r: set<Loc>, x: Managed)
    requires Interlocked(plan, cs, objs, r) && Unmoved(objs, w.objs, r) && Fades(objs, w.objs) && x in plan
    ensures Unmoved(objs, DeleteOne(env, w, plan, x).0.objs, r)
  {
    hide DeleteOne, Dependents;
    forall l | l in r
      ensures var b := DeleteOne(env, w, plan, x).0.objs; Firm(b, l) && b[l] == objs[l]
    {
      if !Aims(x, l) {
        DeleteOneSpares(env, w, plan, x, l);
      } else if x.loc !in w.objs {
        AbsentDeletionSpares(env, w, plan, x, l);
      } else {
        assert Waits(plan, x, r);
        var y :| y in Dependents(plan, x) && y.loc in r;
        WaitingVisitSpares(env, w, plan, x, y, l);
      }
    }
  }

  lemma {:induction false} InterlockedVisits(
    env: Env, w: World, plan: seq<Managed>, cs: seq<Cleaner>, r: set<Loc>, n: nat)
    requires Interlocked(plan, cs, w.objs, r) && n <= |plan|
    ensures Unmoved(w.objs, Visits(env, w, Deleting, plan, n).0.objs, r)
  {
    hide DeleteOne, ApplyOne;
    if n > 0 {
      InterlockedVisits(env, w, plan, cs, r, n - 1);
      VisitsFade(env, w, plan, 0, n - 1);
      InterlockedVisit(env, Visits(env, w, Deleting, plan, n - 1).0, plan, cs, w.objs, r, plan[n - 1]);
    }
  }

  lemma InterlockedRound(env: Env, w: World, plan: seq<Managed>, cs: seq<Cleaner>, r: set<Loc>)
    requires Interlocked(plan, cs, w.objs, r)
    ensures Interlocked(plan, cs, Settled(Pass(env, w, Deleting, plan, cs).world).objs, r)
  {
    hide Visit, Cleanup, Waits;
    var (w1, results) := Visits(env, w, Deleting, plan, |plan|);
    var after := Pass(env, w, Deleting, plan, cs).world;
    InterlockedVisits(env, w, plan, cs, r, |plan|);
    RoundFades(env, w, plan, cs);
    forall l | l in r
      ensures Firm(Settled(after).objs, l) && Settled(after).objs[l] == w.objs[l]
    {
      CleanupsSpare(env, Report(w1, results, false), cs, |cs|, l);
      VanishKeepsFirm(after.objs, after.objs.Keys, l);
    }
  }

  lemma {:induction false} InterlockedRounds(
    env: Env, w: World, plan: seq<Managed>, cs: seq<Cleaner>, r: set<Loc>, k: nat)
    requires Interlocked(plan, cs, w.objs, r)
    ensures Interlocked(plan, cs, Rounds(env, w, plan, cs, k).objs, r)
  {
    hide Pass, Interlocked;
    if k > 0 {
      InterlockedRounds(env, w, plan, cs, r, k - 1);
      var before := Rounds(env, w, plan, cs, k - 1);
      assert NthPass(env, w, plan, cs, k - 1) == Pass(env, before, Deleting, plan, cs);
      InterlockedRound(env, before, plan, cs, r);
    }
  }

  /** A dependent that stays keeps the visit of its dependency in error. */
  lemma HeldPassFails(
    env: Env, w: World, plan: seq<Managed>, cs: seq<Cleaner>, r: set<Loc>, m: Managed, d: Managed)
    requires Holding(plan, cs, w.objs, r, m, d)
    ensures !Finished(Pass(env, w, Deleting, plan, cs))
  {
    hide ApplyOne, Cleanup, Interlocked;
    var i :| 0 <= i < |plan| && plan[i] == d;
    InterlockedVisits(env, w, plan, cs, r, i);
    var before := Visits(env, w, Deleting, plan, i).0;
    DependentIff(plan, d, m);
    CheckBlockedByFirm(env, before, Dependents(plan, d), m);
    VisitResult(env, w, Deleting, plan, i);
    PassReportsEveryObject(env, w, Deleting, plan, cs);
    assert Pass(env, w, Deleting, plan, cs).results[i] == Visits(env, w, Deleting, plan, |plan|).1[i];
  }

  /** While a dependent of a managed object is interlocked no pass ever finishes, whatever happens to its calls. */
  lemma HeldForever(
    env: Env, w: World, plan: seq<Managed>, cs: seq<Cleaner>, r: set<Loc>, m: Managed, d: Managed, k: nat)
    requires Holding(plan, cs, w.objs, r, m, d)
    ensures !FinishesAt(env, w, plan, cs, k)
  {
    hide Interlocked;
    InterlockedRounds(env, w, plan, cs, r, k);
    HeldPassFails(env, Rounds(env, w, plan, cs, k), plan, cs, r, m, d);
  }

  // ----- objects that stay are interlocked -----

  lemma {:induction false} RoundsFade(env: Env, w: World, plan: seq<Managed>, cs: seq<Cleaner>, k: nat)
    ensures Fades(w.objs, Rounds(env, w, plan, cs, k).objs)
  {
    hide Pass;
    if k > 0 {
      RoundsFade(env, w, plan, cs, k - 1);
      var before := Rounds(env, w, plan, cs, k - 1);
      assert NthPass(env, w, plan, cs, k - 1) == Pass(env, before, Deleting, plan, cs);
      RoundFades(env, before, plan, cs);
      FadesTransitive(w.objs, before.objs, Rounds(env, w, plan, cs, k).objs);
    }
  }

  lemma SmallerStore(a: Objects, b: Objects)
    requires a.Keys < b.Keys
    ensures |a.Keys| < |b.Keys|
  {
    assert b.Keys == a.Keys + (b.Keys - a.Keys);
  }

  /** Sooner or later a pass removes nothing. */
  lemma {:induction false} RoundsComeToRest(env: Env, w: World, plan: seq<Managed>, cs: seq<Cleaner>, j: nat)
    returns (k: nat)
    ensures k >= j && Rounds(env, w, plan, cs, k + 1).objs.Keys == Rounds(env, w, plan, cs, k).objs.Keys
    decreases |Rounds(env, w, plan, cs, j).objs.Keys|
  {
    hide Pass, Vanish;
    var a, b := Rounds(env, w, plan, cs, j), Rounds(env, w, plan, cs, j + 1);
    assert NthPass(env, w, plan, cs, j) == Pass(env, a, Deleting, plan, cs);
    RoundFades(env, a, plan, cs);
    if b.objs.Keys == a.objs.Keys {
      k := j;
    } else {
      SmallerStore(b.objs, a.objs);
      k := RoundsComeToRest(env, w, plan, cs, j + 1);
    }
  }

  lemma SettledIsCalm(w: World)
    ensures Calm(Settled(w).objs)
  {
  }

  /** A served pass removes what its cleaners reach. */
  lemma SweptIsRemoved(env: Env, w: World, plan: seq<Managed>, cs: seq<Cleaner>, c: Cleaner, l: Loc)
    requires Prompt(env, w.calls) && c in cs && l in w.objs && Sweeps(c, l) && ManagedLabel(w.objs[l])
    ensures l !in Settled(Pass(env, w, Deleting, plan, cs).world).objs
  {
    hide Visits, Cleanups;
    var (w1, results) := Visits(env, w, Deleting, plan, |plan|);
    var after := Pass(env, w, Deleting, plan, cs).world.objs;
    DeletePassFades(env, w, plan, cs);
    var k :| 0 <= k < |cs| && cs[k] == c;
    PromptCleanupsSweep(env, Report(w1, results, false), cs, |cs|, k);
    if l in after {
      assert l in ManagedSecrets(after, c.cluster, c.ns);
    }
  }

  /** When a served pass removes nothing, all that is left is interlocked. */
  lemma StandstillInterlocks(env: Env, w: World, plan: seq<Managed>, cs: seq<Cleaner>)
    requires Prompt(env, w.calls) && Calm(w.objs)
    requires Settled(Pass(env, w, Deleting, plan, cs).world).objs.Keys == w.objs.Keys
    ensures Interlocked(plan, cs, w.objs, w.objs.Keys)
  {
    hide Visits, Cleanups;
    forall l, x | l in w.objs && x in plan && Aims(x, l) && x.loc in w.objs
      ensures Waits(plan, x, w.objs.Keys)
    {
      if !Waits(plan, x, w.objs.Keys) {
        PassRemovesUnblocked(env, w, plan, cs, x);
      }
    }
    forall l, c | l in w.objs && c in cs
      ensures !Sweeps(c, l) || !ManagedLabel(w.objs[l])
    {
      if Sweeps(c, l) && ManagedLabel(w.objs[l]) {
        SweptIsRemoved(env, w, plan, cs, c, l);
      }
    }
  }

  /** What is interlocked in a calm later store was so from the start. */
  lemma InterlockedBefore(plan: seq<Managed>, cs: seq<Cleaner>, a: Objects, b: Objects, r: set<Loc>)
    requires Fades(a, b) && Calm(b) && Interlocked(plan, cs, b, r)
    ensures Interlocked(plan, cs, a, r)
  {
    hide Waits;
  }

  lemma HeldBefore(plan: seq<Managed>, cs: seq<Cleaner>, a: Objects, b: Objects)
    requires Fades(a, b) && Calm(b) && Held(plan, cs, b)
    ensures Held(plan, cs, a)
  {
    hide Interlocked;
    var r, m, d :| Holding(plan, cs, b, r, m, d);
    InterlockedBefore(plan, cs, a, b, r);
    assert Holding(plan, cs, a, r, m, d);
  }

  /** When everything is interlocked, an object that should be deleted is held. */
  lemma RemainderIsHeld(plan: seq<Managed>, cs: seq<Cleaner>, objs: Objects, m: Managed)
    requires Interlocked(plan, cs, objs, objs.Keys) && m in plan && m.policy.DeletePolicy? && m.loc in objs
    ensures Held(plan, cs, objs)
  {
    assert Aims(m, m.loc) && Waits(plan, m, objs.Keys);
    var y :| y in Dependents(plan, m) && y.loc in objs.Keys;
    DependentIff(plan, m, y);
    assert Holding(plan, cs, objs, objs.Keys, y, m);
  }

  lemma OrphansAreHolding(plan: seq<Managed>, cs: seq<Cleaner>, objs: Objects)
    requires Interlocked(plan, cs, objs, objs.Keys) && OrphanHolds(plan, objs)
    ensures Held(plan, cs, objs)
  {
    var m, d :| OrphanHold(plan, objs, m, d);
    assert Holding(plan, cs, objs, objs.Keys, m, d);
  }

  /** At a standstill without a held dependency the pass finishes. */
  lemma FreeStandstillFinishes(env: Env, w: World, plan: seq<Managed>, cs: seq<Cleaner>)
    requires Prompt(env, w.calls) && Interlocked(plan, cs, w.objs, w.objs.Keys) && !Held(plan, cs, w.objs)
    ensures Finished(Pass(env, w, Deleting, plan, cs))
  {
    hide Pass, Interlocked, Held, OrphanHolds;
    forall m | m in plan && m.policy.DeletePolicy?
      ensures m.loc !in w.objs
    {
      if m.loc in w.objs {
        RemainderIsHeld(plan, cs, w.objs, m);
      }
    }
    if OrphanHolds(plan, w.objs) {
      OrphansAreHolding(plan, cs, w.objs);
    }
    PassOverNothingFinishes(env, w, plan, cs);
  }

  // ----- exactly -----

  lemma FreeTeardownEnds(env: Env, w: World, plan: seq<Managed>, cs: seq<Cleaner>) returns (k: nat)
    requires Prompt(env, w.calls) && !Held(plan, cs, w.objs)
    ensures FinishesAt(env, w, plan, cs, k)
  {
    hide Pass, Held, Interlocked;
    k := RoundsComeToRest(env, w, plan, cs, 1);
    var rest := Rounds(env, w, plan, cs, k);
    SettledIsCalm(NthPass(env, w, plan, cs, k - 1).world);
    assert NthPass(env, w, plan, cs, k) == Pass(env, rest, Deleting, plan, cs);
    StandstillInterlocks(env, rest, plan, cs);
    RoundsFade(env, w, plan, cs, k);
    if Held(plan, cs, rest.objs) {
      HeldBefore(plan, cs, w.objs, rest.objs);
    }
    FreeStandstillFinishes(env, rest, plan, cs);
  }

  /**
   Teardown, exactly: for every plan, every list of cleaners and every store, with served calls, some Delete
   pass finishes if and only if no dependent of a managed object is interlocked at the start.
  */
  lemma TeardownExactly(env: Env, w: World, plan: seq<Managed>, cs: seq<Cleaner>)
    requires Prompt(env, w.calls)
    ensures (exists k: nat :: FinishesAt(env, w, plan, cs, k)) <==> !Held(plan, cs, w.objs)
  {
    hide Interlocked, FinishesAt;
    if Held(plan, cs, w.objs) {
      var r, m, d :| Holding(plan, cs, w.objs, r, m, d);
      forall k: nat {
        HeldForever(env, w, plan, cs, r, m, d, k);
      }
    } else {
      var k := FreeTeardownEnds(env, w, plan, cs);
    }
  }

  /** Where an interlocked dependent is, an interlocked orphan is that depends on a managed object. */
  lemma {:induction false} OrphanBehindHold(
    plan: seq<Managed>, cs: seq<Cleaner>, objs: Objects, rank: Managed -> nat, r: set<Loc>, m: Managed, d: Managed)
    requires Ranked(plan, rank) && Holding(plan, cs, objs, r, m, d)
    ensures OrphanHolds(plan, objs)
    decreases rank(m)
  {
    if m.policy.OrphanPolicy? {
      assert OrphanHold(plan, objs, m, d);
    } else {
      assert Aims(m, m.loc) && Waits(plan, m, r);
      var y :| y in Dependents(plan, m) && y.loc in r;
      DependentIff(plan, m, y);
      assert Dependency(plan, y, m);
      OrphanBehindHold(plan, cs, objs, rank, r, y, m);
    }
  }

  /** When no deletion reaches an orphan, what holds are existing orphans that depend on a managed object. */
  lemma OrphansHoldExactly(plan: seq<Managed>, cs: seq<Cleaner>, objs: Objects)
    requires Calm(objs) && forall m :: m in plan && m.policy.OrphanPolicy? ==> Untouchable(plan, cs, m.loc)
    ensures Held(plan, cs, objs) <==> OrphanHolds(plan, objs)
  {
    if Held(plan, cs, objs) {
      var r, m, d :| Holding(plan, cs, objs, r, m, d);
      RankRanks(plan);
      OrphanBehindHold(plan, cs, objs, Rank(plan), r, m, d);
    }
    if OrphanHolds(plan, objs) {
      var m, d :| OrphanHold(plan, objs, m, d);
      assert Interlocked(plan, cs, objs, {m.loc});
      assert Holding(plan, cs, objs, {m.loc}, m, d);
    }
  }
}
