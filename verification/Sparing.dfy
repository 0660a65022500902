/** Objects that no pass of either kind can take away. */
module Sparing {
  import opened ApiServer
  import opened Passes
  import opened Deletion

  /** No deletion is aimed at this place, at the namespace around it, or at it through a cleaner. */
  ghost predicate Untouchable(plan: seq<Managed>, cs: seq<Cleaner>, x: Loc) {
    && (forall m :: m in plan ==> !Aims(m, x))
    && (forall c :: c in cs ==> !Sweeps(c, x))
  }

  /** Nothing is managed at this place. */
  ghost predicate Elsewhere(plan: seq<Managed>, x: Loc) {
    forall m :: m in plan ==> m.loc != x
  }

  lemma GatherSpares(env: Env, w: World, now: int, recipe: Recipe, obj: Obj, x: Loc)
    requires Firm(w.objs, x)
    ensures var b := Gather(env, w, now, recipe, obj).0.objs; Firm(b, x) && b[x] == w.objs[x]
  {
    VanishKeepsFirm(w.objs, env.event(w.calls).vanishing, x);
    var w1 := Tick(env, w);
    VanishKeepsFirm(w1.objs, env.event(w1.calls).vanishing, x);
  }

  /** Applying an object leaves every firm object firm, and every other one as it was. */
  lemma ApplyOneSpares(env: Env, w: World, instance: string, now: int, m: Managed, x: Loc)
    requires Firm(w.objs, x)
    ensures var b := ApplyOne(env, w, instance, now, m).0.objs; Firm(b, x) && (x != m.loc ==> b[x] == w.objs[x])
  {
    VanishKeepsFirm(w.objs, env.event(w.calls).vanishing, x);
    var (w1, reply) := Get(env, w, m.loc);
    if !reply.Failed? {
      var base := if reply.Found? then reply.obj else BLANK;
      GatherSpares(env, w1, now, m.recipe, base, x);
      var (w2, given) := Gather(env, w1, now, m.recipe, base);
      if given.Some? {
        var shaped := Shape(instance, m.recipe, given.value, base);
        UpdateSpares(env, w2, m.loc, shaped, x);
        CreateSpares(env, w2, m.loc, shaped, x);
      }
    }
  }

  /** Nothing appears or changes outside of `l`; objects may be gone. */
  ghost predicate Confined(a: Objects, b: Objects, l: Loc) {
    forall x :: x in b && x != l ==> x in a && b[x] == a[x]
  }

  lemma GatherConfined(env: Env, w: World, now: int, recipe: Recipe, obj: Obj, l: Loc)
    ensures Confined(w.objs, Gather(env, w, now, recipe, obj).0.objs, l)
    ensures forall x :: x in Gather(env, w, now, recipe, obj).0.objs ==> x in w.objs
  {
  }

  lemma VisitConfined(env: Env, w: World, instance: string, now: int, m: Managed)
    ensures Confined(w.objs, ApplyOne(env, w, instance, now, m).0.objs, m.loc)
  {
    var (w1, reply) := Get(env, w, m.loc);
    if !reply.Failed? {
      var base := if reply.Found? then reply.obj else BLANK;
      GatherConfined(env, w1, now, m.recipe, base, m.loc);
    }
  }

  lemma DeleteOneSpares(env: Env, w: World, plan: seq<Managed>, m: Managed, x: Loc)
    requires Firm(w.objs, x)
    requires !Aims(m, x)
    ensures var b := DeleteOne(env, w, plan, m).0.objs; Firm(b, x) && b[x] == w.objs[x]
  {
    CheckKeepsFirm(env, w, Dependents(plan, m), x);
    if m.policy.DeletePolicy? {
      DeleteSpares(env, CheckForDependents(env, w, Dependents(plan, m)).0, m.loc, x);
    }
  }

  lemma {:induction false} VisitsSpare(
    env: Env, w: World, mode: Mode, plan: seq<Managed>, cs: seq<Cleaner>, n: nat, x: Loc)
    requires n <= |plan|
    requires Firm(w.objs, x)
    requires mode.Deleting? ==> Untouchable(plan, cs, x)
    ensures var b := Visits(env, w, mode, plan, n).0.objs;
            Firm(b, x) && (mode.Deleting? || Elsewhere(plan, x) ==> b[x] == w.objs[x])
  {
    hide DeleteOne, ApplyOne;
    if n > 0 {
      VisitsSpare(env, w, mode, plan, cs, n - 1, x);
      var w1 := Visits(env, w, mode, plan, n - 1).0;
      if mode.Deleting? {
        DeleteOneSpares(env, w1, plan, plan[n - 1], x);
      } else {
        ApplyOneSpares(env, w1, mode.instance, mode.now, plan[n - 1], x);
      }
    }
  }

  lemma {:induction false} SweepSpares(env: Env, w: World, c: Cleaner, items: seq<Loc>, n: nat, x: Loc)
    requires n <= |items| && Listable(c, items)
    requires Firm(w.objs, x) && !Sweeps(c, x)
    ensures var b := Sweep(env, w, c, items, n).0.objs; Firm(b, x) && b[x] == w.objs[x]
  {
    if n > 0 {
      SweepSpares(env, w, c, items, n - 1, x);
      if items[n - 1].name !in c.keep {
        DeleteSpares(env, Sweep(env, w, c, items, n - 1).0, items[n - 1], x);
      }
    }
  }

  lemma {:induction false} SweepSparesUnlisted(env: Env, w: World, c: Cleaner, items: seq<Loc>, n: nat, x: Loc)
    requires n <= |items| && Listable(c, items)
    requires Firm(w.objs, x) && x !in items
    ensures var b := Sweep(env, w, c, items, n).0.objs; Firm(b, x) && b[x] == w.objs[x]
  {
    if n > 0 {
      SweepSparesUnlisted(env, w, c, items, n - 1, x);
      if items[n - 1].name !in c.keep {
        DeleteSpares(env, Sweep(env, w, c, items, n - 1).0, items[n - 1], x);
      }
    }
  }

  /** Kept, unlabelled and foreign objects are out of reach of a cleaner, whatever fails. */
  lemma CleanupSpares(env: Env, w: World, c: Cleaner, x: Loc)
    requires Firm(w.objs, x)
    requires !Sweeps(c, x) || !ManagedLabel(w.objs[x])
    ensures var b := Cleanup(env, w, c).0.objs; Firm(b, x) && b[x] == w.objs[x]
  {
    VanishKeepsFirm(w.objs, env.event(w.calls).vanishing, x);
    ListIsListable(env, w, c);
    var (w1, items) := List(env, w, c.cluster, c.ns);
    if items.Some? {
      if Sweeps(c, x) {
        SweepSparesUnlisted(env, w1, c, items.value, |items.value|, x);
      } else {
        SweepSpares(env, w1, c, items.value, |items.value|, x);
      }
    }
  }

  lemma {:induction false} CleanupsSpare(env: Env, start: Report, cs: seq<Cleaner>, n: nat, x: Loc)
    requires n <= |cs|
    requires Firm(start.world.objs, x)
    requires forall c :: c in cs ==> !Sweeps(c, x) || !ManagedLabel(start.world.objs[x])
    ensures var b := Cleanups(env, start, cs, n).world.objs; Firm(b, x) && b[x] == start.world.objs[x]
  {
    if n > 0 {
      CleanupsSpare(env, start, cs, n - 1, x);
      CleanupSpares(env, Cleanups(env, start, cs, n - 1).world, cs[n - 1], x);
    }
  }

  /**
   No pass, however its calls fare, takes a firm untouchable object away or makes it infirm; only an Apply
   pass that manages something at its place may change it.
  */
  lemma PassSpares(env: Env, w: World, mode: Mode, plan: seq<Managed>, cs: seq<Cleaner>, x: Loc)
    requires Firm(w.objs, x) && Untouchable(plan, cs, x)
    ensures var b := Pass(env, w, mode, plan, cs).world.objs;
            Firm(b, x) && (mode.Deleting? || Elsewhere(plan, x) ==> b[x] == w.objs[x])
  {
    hide DeleteOne, ApplyOne;
    VisitsSpare(env, w, mode, plan, cs, |plan|, x);
    var (w1, results) := Visits(env, w, mode, plan, |plan|);
    CleanupsSpare(env, Report(w1, results, false), cs, |cs|, x);
  }

  /** What is at `x` was there before and is the same, apart from being marked. */
  ghost predicate OnlyMarked(a: Objects, b: Objects, x: Loc) {
    x in b ==> x in a && b[x] == a[x].(terminating := b[x].terminating)
  }

  lemma {:induction false} VisitsAddOnlyPlanned(env: Env, w: World, mode: Mode, plan: seq<Managed>, n: nat, x: Loc)
    requires n <= |plan| && Elsewhere(plan, x)
    ensures OnlyMarked(w.objs, Visits(env, w, mode, plan, n).0.objs, x)
  {
    hide DeleteOne, ApplyOne;
    if n > 0 {
      VisitsAddOnlyPlanned(env, w, mode, plan, n - 1, x);
      var w1 := Visits(env, w, mode, plan, n - 1).0;
      if mode.Deleting? {
        DeleteOneFades(env, w1, plan, plan[n - 1]);
      } else {
        VisitConfined(env, w1, mode.instance, mode.now, plan[n - 1]);
      }
    }
  }

  /** Where nothing is managed no pass of either mode adds an object or changes one, apart from marking it. */
  lemma PassAddsOnlyPlanned(env: Env, w: World, mode: Mode, plan: seq<Managed>, cs: seq<Cleaner>, x: Loc)
    requires Elsewhere(plan, x)
    ensures OnlyMarked(w.objs, Pass(env, w, mode, plan, cs).world.objs, x)
  {
    hide DeleteOne, ApplyOne, Cleanup;
    VisitsAddOnlyPlanned(env, w, mode, plan, |plan|, x);
    var (w1, results) := Visits(env, w, mode, plan, |plan|);
    CleanupsFade(env, Report(w1, results, false), cs, 0, |cs|);
  }
}
