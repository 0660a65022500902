/** What Apply passes achieve: desired form, fixed points, and independence of the past. */
module Convergence {
  import opened ApiServer
  import opened Passes
  import opened Deletion
  import opened Sparing
  import opened Wiring

  // ----- desired form -----

  predicate LabelledFor(instance: string, obj: Obj) {
    ManagedLabel(obj) && INSTANCE_ID in obj.labels && obj.labels[INSTANCE_ID] == instance
  }

  /** The form an object should have, given the other objects. */
  ghost predicate InForm(instance: string, recipe: Recipe, objs: Objects, obj: Obj) {
    && LabelledFor(instance, obj)
    && match recipe
       case TokenFor(_, _, _, _) => obj.expires.Some?
       case CopyOf(source) => source in objs && obj.data == objs[source].data && obj.secretType == DOCKER_CONFIG
       case Definition(schema) => obj.spec == CrdSpec(schema)
       case Grant(subject, ns) => obj.spec == BindingSpec(subject, ns, "cluster-admin")
       case Run(replicas, podLabels, pod) =>
         && obj.spec == DeploymentSpec(replicas, podLabels, pod)
         && forall k :: k in podLabels ==> k in obj.labels && obj.labels[k] == podLabels[k]
       case _ => true
  }

  /** Pod labels do not clash with the labels the manager sets. */
  ghost predicate Tidy(recipe: Recipe) {
    recipe.Run? ==> MANAGED_BY !in recipe.podLabels && INSTANCE_ID !in recipe.podLabels
  }

  /** What a reconcile function obtains from a store at rest. */
  ghost predicate Obtained(recipe: Recipe, objs: Objects, base: Obj, given: Given) {
    match recipe
    case TokenFor(_, _, _, _) => given.Minted? || (given.Nothing? && base.expires.Some?)
    case CopyOf(source) => source in objs && given == Source(objs[source].data)
    case _ => given.Nothing?
  }

  /** The reconcile function has the last word: pod labels replace labels of the same name. */
  lemma PodLabelsWin(instance: string, recipe: Recipe, given: Given, base: Obj, k: string)
    requires recipe.Run? && k in recipe.podLabels
    ensures var labels := Shape(instance, recipe, given, base).labels; k in labels && labels[k] == recipe.podLabels[k]
  {
  }

  lemma ShapeGivesForm(instance: string, recipe: Recipe, objs: Objects, base: Obj, given: Given)
    requires Tidy(recipe) && Obtained(recipe, objs, base, given)
    ensures InForm(instance, recipe, objs, Shape(instance, recipe, given, base))
  {
  }

  /** Reconcile functions are idempotent: an object in form is left exactly as it is. */
  lemma FormIsFixed(instance: string, recipe: Recipe, objs: Objects, obj: Obj, given: Given)
    requires InForm(instance, recipe, objs, obj) && Obtained(recipe, objs, obj, given) && !given.Minted?
    ensures Shape(instance, recipe, given, obj) == obj
  {
    assert obj.labels[MANAGED_BY := MANAGED_BY_VALUE][INSTANCE_ID := instance] == obj.labels;
    if recipe.Run? {
      assert obj.labels + recipe.podLabels == obj.labels;
    }
  }

  // ----- one visit in a store at rest -----

  lemma CalmTick(env: Env, w: World)
    requires Calm(w.objs)
    ensures Tick(env, w).objs == w.objs
  {
    VanishWhenCalm(w.objs, env.event(w.calls).vanishing);
  }

  lemma CalmGather(env: Env, w: World, now: int, recipe: Recipe, base: Obj)
    requires Calm(w.objs)
    ensures var (w1, given) := Gather(env, w, now, recipe, base);
            && w1.objs == w.objs
            && (given.Some? ==> Obtained(recipe, w.objs, base, given.value))
  {
    CalmTick(env, w);
    CalmTick(env, Tick(env, w));
  }

  /** `b` differs from `a` at most at `l`, where an object may have appeared. */
  ghost predicate OnlyAt(a: Objects, b: Objects, l: Loc) {
    && Calm(b)
    && a.Keys <= b.Keys <= a.Keys + {l}
    && forall x :: x in a && x != l ==> b[x] == a[x]
  }

  lemma CalmWrite(env: Env, w: World, l: Loc, obj: Obj)
    requires Calm(w.objs)
    ensures OnlyAt(w.objs, Create(env, w, l, obj).0.objs, l)
    ensures OnlyAt(w.objs, Update(env, w, l, obj).0.objs, l)
  {
    CalmTick(env, w);
  }

  /** Only the object's own place changes, and everything stays calm. */
  lemma CalmVisit(env: Env, w: World, instance: string, now: int, m: Managed)
    requires Calm(w.objs)
    ensures OnlyAt(w.objs, ApplyOne(env, w, instance, now, m).0.objs, m.loc)
  {
    CalmTick(env, w);
    var (w1, reply) := Get(env, w, m.loc);
    if !reply.Failed? {
      var base := if reply.Found? then reply.obj else BLANK;
      CalmGather(env, w1, now, m.recipe, base);
      var (w2, given) := Gather(env, w1, now, m.recipe, base);
      if given.Some? {
        CalmWrite(env, w2, m.loc, Shape(instance, m.recipe, given.value, base));
      }
    }
  }

  ghost predicate FormedAt(instance: string, m: Managed, objs: Objects, obj: Obj) {
    m.loc in objs && objs[m.loc] == obj && InForm(instance, m.recipe, objs, obj)
  }

  /** Being in form does not depend on the fields the server owns, nor on the object itself. */
  lemma StoredFormIsForm(instance: string, recipe: Recipe, objs: Objects, obj: Obj, stored: Obj, l: Loc)
    requires InForm(instance, recipe, objs, obj)
    requires recipe.CopyOf? ==> recipe.source != l
    requires stored == obj.(uid := stored.uid, terminating := stored.terminating, ready := stored.ready)
    ensures InForm(instance, recipe, objs[l := stored], stored)
  {
  }

  /** Without an error the object is stored in its desired form. */
  lemma CalmVisitForms(env: Env, w: World, instance: string, now: int, m: Managed)
    requires Calm(w.objs) && Tidy(m.recipe)
    requires m.recipe.CopyOf? ==> m.recipe.source != m.loc
    requires ApplyOne(env, w, instance, now, m).1.error.None?
    ensures var (w1, result) := ApplyOne(env, w, instance, now, m);
            FormedAt(instance, m, w1.objs, result.observed)
  {
    CalmTick(env, w);
    var (w1, reply) := Get(env, w, m.loc);
    var base := if reply.Found? then reply.obj else BLANK;
    CalmGather(env, w1, now, m.recipe, base);
    var (w2, given) := Gather(env, w1, now, m.recipe, base);
    CalmTick(env, w2);
    var shaped := Shape(instance, m.recipe, given.value, base);
    ShapeGivesForm(instance, m.recipe, w.objs, base, given.value);
    StoredFormIsForm(instance, m.recipe, w.objs, shaped, ApplyOne(env, w, instance, now, m).1.observed, m.loc);
  }

  // ----- the wiring -----

  lemma WiringIsTidy(s: Setup, m: Managed)
    requires m in Plan(s)
    ensures Tidy(m.recipe)
    ensures m.recipe.CopyOf? ==> m.recipe.source.cluster == PLATFORM
    ensures m.loc.cluster != PLATFORM
  {
    PlanIsWired(s, m);
  }

  /** One custom resource definition per name, and no pull secret at the place of the token secret. */
  ghost predicate Unambiguous(s: Setup) {
    && TokenNameIsFree(s)
    && forall i, j :: 0 <= i < |s.crds| && 0 <= j < |s.crds| && s.crds[i].name == s.crds[j].name ==>
                        s.crds[i] == s.crds[j]
  }

  /** Pull secrets may be listed twice; whatever is managed at one place is managed in one way. */
  lemma OnePlaceOneRecipe(s: Setup, m: Managed, x: Managed)
    requires Unambiguous(s) && m in Plan(s) && x in Plan(s) && m.loc == x.loc
    ensures m.recipe == x.recipe
  {
    PlanIsWired(s, m);
    PlanIsWired(s, x);
  }

  ghost predicate Applied(s: Setup, objs: Objects, m: Managed) {
    m.loc in objs && InForm(s.instance, m.recipe, objs, objs[m.loc])
  }

  /** Visiting `m` without an error keeps other applied objects applied. */
  lemma VisitKeepsApplied(env: Env, w: World, s: Setup, now: int, m: Managed, x: Managed)
    requires Unambiguous(s) && m in Plan(s) && x in Plan(s)
    requires Calm(w.objs) && Applied(s, w.objs, x)
    requires ApplyOne(env, w, s.instance, now, m).1.error.None?
    ensures Applied(s, ApplyOne(env, w, s.instance, now, m).0.objs, x)
  {
    hide DeleteOne, ApplyOne;
    WiringIsTidy(s, m);
    WiringIsTidy(s, x);
    CalmVisit(env, w, s.instance, now, m);
    CalmVisitForms(env, w, s.instance, now, m);
    if m.loc == x.loc {
      OnePlaceOneRecipe(s, m, x);
    }
  }

  function Applies(s: Setup, now: int): Mode {
    Applying(s.instance, now)
  }

  /** The result of the visit at position `i` of an Apply pass. */
  function ResultAt(env: Env, w: World, s: Setup, now: int, i: nat): Result
    requires i < |Plan(s)|
  {
    ApplyOne(env, Visits(env, w, Applies(s, now), Plan(s), i).0, s.instance, now, Plan(s)[i]).1
  }

  /** Nothing is lost, and the platform cluster is left alone. */
  ghost predicate Grows(a: Objects, b: Objects) {
    && (forall l :: l in a ==> l in b)
    && (forall l :: l in b && l.cluster == PLATFORM ==> l in a && b[l] == a[l])
  }

  lemma CalmVisitGrows(env: Env, w: World, s: Setup, now: int, m: Managed)
    requires Calm(w.objs) && m in Plan(s)
    ensures var b := ApplyOne(env, w, s.instance, now, m).0.objs; Calm(b) && Grows(w.objs, b)
  {
    hide DeleteOne, ApplyOne;
    WiringIsTidy(s, m);
    CalmVisit(env, w, s.instance, now, m);
  }

  lemma {:induction false} CalmVisits(env: Env, w: World, s: Setup, now: int, n: nat)
    requires Calm(w.objs) && n <= |Plan(s)|
    ensures var b := Visits(env, w, Applies(s, now), Plan(s), n).0.objs; Calm(b) && Grows(w.objs, b)
  {
    hide DeleteOne, ApplyOne;
    if n > 0 {
      CalmVisits(env, w, s, now, n - 1);
      CalmVisitGrows(env, Visits(env, w, Applies(s, now), Plan(s), n - 1).0, s, now, Plan(s)[n - 1]);
    }
  }

  /** Error-free visits leave every object visited so far in form. */
  lemma {:induction false} ErrorFreeVisitsApply(env: Env, w: World, s: Setup, now: int, n: nat, i: nat)
    requires Unambiguous(s) && Calm(w.objs) && i < n <= |Plan(s)|
    requires forall j :: 0 <= j < n ==> ResultAt(env, w, s, now, j).error.None?
    ensures Applied(s, Visits(env, w, Applies(s, now), Plan(s), n).0.objs, Plan(s)[i])
  {
    hide ApplyOne, Plan, InForm, Calm, Grows;
    var before := Visits(env, w, Applies(s, now), Plan(s), n - 1).0;
    CalmVisits(env, w, s, now, n - 1);
    assert ResultAt(env, w, s, now, n - 1).error.None?;
    if i < n - 1 {
      ErrorFreeVisitsApply(env, w, s, now, n - 1, i);
      VisitKeepsApplied(env, before, s, now, Plan(s)[n - 1], Plan(s)[i]);
    } else {
      WiringIsTidy(s, Plan(s)[i]);
      CalmVisitForms(env, before, s.instance, now, Plan(s)[i]);
    }
  }

  function ApplyPass(env: Env, w: World, s: Setup, now: int): Report {
    Pass(env, w, Applies(s, now), Plan(s), CleanersFor(s))
  }

  /** The store after all visits, before the cleaner. */
  function Visited(env: Env, w: World, s: Setup, now: int): World {
    Visits(env, w, Applies(s, now), Plan(s), |Plan(s)|).0
  }

  lemma PassResultAt(env: Env, w: World, s: Setup, now: int, i: nat)
    requires i < |Plan(s)|
    ensures var results := ApplyPass(env, w, s, now).results;
            i < |results| && results[i] == ResultAt(env, w, s, now, i)
  {
    hide DeleteOne, ApplyOne;
    PassReportsEveryObject(env, w, Applies(s, now), Plan(s), CleanersFor(s));
    VisitResult(env, w, Applies(s, now), Plan(s), i);
  }

  lemma ErrorFreeMeansEveryVisit(env: Env, w: World, s: Setup, now: int)
    requires ErrorFree(ApplyPass(env, w, s, now))
    ensures forall i :: 0 <= i < |Plan(s)| ==> ResultAt(env, w, s, now, i).error.None?
  {
    hide DeleteOne, ApplyOne;
    forall i | 0 <= i < |Plan(s)|
      ensures ResultAt(env, w, s, now, i).error.None?
    {
      PassResultAt(env, w, s, now, i);
    }
  }

  // ----- the cleaner after the visits -----

  lemma {:induction false} BriskSweepStaysCalm(env: Env, w: World, c: Cleaner, items: seq<Loc>, n: nat)
    requires Brisk(env, w.calls) && Calm(w.objs) && n <= |items|
    ensures Calm(Sweep(env, w, c, items, n).0.objs)
  {
    if n > 0 {
      BriskSweepStaysCalm(env, w, c, items, n - 1);
    }
  }

  lemma BriskCleanupStaysCalm(env: Env, w: World, s: Setup)
    requires Brisk(env, w.calls) && Calm(w.objs)
    ensures Calm(Cleanup(env, w, TenantCleaner(s)).0.objs)
  {
    var c := TenantCleaner(s);
    CalmTick(env, w);
    var (w1, items) := List(env, w, c.cluster, c.ns);
    if items.Some? {
      BriskSweepStaysCalm(env, w1, c, items.value, |items.value|);
    }
  }

  /** The cleaner spares everything managed by the plan, and what is elsewhere. */
  lemma CleanerSpares(env: Env, w: World, s: Setup)
    requires Calm(w.objs)
    ensures forall l :: l in w.objs && !Sweeps(TenantCleaner(s), l) ==>
                          l in Cleanup(env, w, TenantCleaner(s)).0.objs
                          && Cleanup(env, w, TenantCleaner(s)).0.objs[l] == w.objs[l]
  {
    hide Cleanup;
    var c := TenantCleaner(s);
    forall l | l in w.objs && !Sweeps(c, l)
      ensures l in Cleanup(env, w, c).0.objs && Cleanup(env, w, c).0.objs[l] == w.objs[l]
    {
      CleanupSpares(env, w, c, l);
    }
  }

  lemma PlanIsNotSwept(s: Setup, m: Managed)
    requires m in Plan(s)
    ensures !Sweeps(TenantCleaner(s), m.loc)
  {
    PlanIsWired(s, m);
    if i :| 0 <= i < |s.pullSecrets| && m == PullSecret(s, i) {
      assert (s.pullSecrets + [TOKEN_SECRET])[i] == s.pullSecrets[i];
    }
    assert (s.pullSecrets + [TOKEN_SECRET])[|s.pullSecrets|] == TOKEN_SECRET;
  }

  lemma PassEndsWithCleanup(env: Env, w: World, s: Setup, now: int)
    ensures var report := ApplyPass(env, w, s, now);
            var (w1, results) := Cleanup(env, Visited(env, w, s, now), TenantCleaner(s));
            && report.world == w1
            && report.failed == results.None?
            && report.results == Visits(env, w, Applies(s, now), Plan(s), |Plan(s)|).1 +
                                 (if results.Some? then results.value else [])
  {
    hide DeleteOne, ApplyOne;
    var (w1, results) := Visits(env, w, Applies(s, now), Plan(s), |Plan(s)|);
    OneCleaner(env, Report(w1, results, false), s);
  }

  ghost predicate AllApplied(s: Setup, objs: Objects) {
    forall m :: m in Plan(s) ==> Applied(s, objs, m)
  }

  lemma CleanupKeepsApplied(env: Env, w: World, s: Setup)
    requires Calm(w.objs) && AllApplied(s, w.objs)
    ensures AllApplied(s, Cleanup(env, w, TenantCleaner(s)).0.objs)
  {
    hide Cleanup;
    CleanerSpares(env, w, s);
    forall m | m in Plan(s)
      ensures Applied(s, Cleanup(env, w, TenantCleaner(s)).0.objs, m)
    {
      PlanIsNotSwept(s, m);
      WiringIsTidy(s, m);
    }
  }

  /**
   After an error-free Apply pass from any store at rest, whatever its calls went through, every
   managed object exists in its desired form, and nothing is left to clean.
  */
  lemma ErrorFreePassApplies(env: Env, w: World, s: Setup, now: int)
    requires Unambiguous(s) && Calm(w.objs)
    requires ErrorFree(ApplyPass(env, w, s, now))
    ensures var objs := ApplyPass(env, w, s, now).world.objs;
            AllApplied(s, objs) && Swept(objs, TenantCleaner(s)) && (Brisk(env, w.calls) ==> Calm(objs))
  {
    hide DeleteOne, ApplyOne;
    var visited := Visited(env, w, s, now);
    CalmVisits(env, w, s, now, |Plan(s)|);
    ErrorFreeMeansEveryVisit(env, w, s, now);
    forall m | m in Plan(s)
      ensures Applied(s, visited.objs, m)
    {
      var i :| 0 <= i < |Plan(s)| && Plan(s)[i] == m;
      ErrorFreeVisitsApply(env, w, s, now, |Plan(s)|, i);
    }
    CleanupKeepsApplied(env, visited, s);
    if Brisk(env, w.calls) {
      BriskCleanupStaysCalm(env, visited, s);
    }
    PassEndsWithCleanup(env, w, s, now);
    var start := Report(visited, Visits(env, w, Applies(s, now), Plan(s), |Plan(s)|).1, false);
    ErrorFreeCleanupsSweep(env, start, CleanersFor(s), 1, 0);
  }

  // ----- history independence -----

  ghost predicate PresentAndLabelled(objs: Objects, m: Managed) {
    m.loc in objs && ManagedLabel(objs[m.loc])
  }

  /** A visit labels its own object and leaves the labels of others. */
  lemma LabelledVisit(env: Env, w: World, s: Setup, now: int, m: Managed, x: Managed)
    requires Calm(w.objs) && m in Plan(s)
    requires ApplyOne(env, w, s.instance, now, m).1.error.None?
    requires x == m || PresentAndLabelled(w.objs, x)
    ensures PresentAndLabelled(ApplyOne(env, w, s.instance, now, m).0.objs, x)
  {
    hide DeleteOne, ApplyOne;
    WiringIsTidy(s, m);
    CalmVisit(env, w, s.instance, now, m);
    CalmVisitForms(env, w, s.instance, now, m);
  }

  lemma {:induction false} ErrorFreeVisitsLabel(env: Env, w: World, s: Setup, now: int, n: nat, i: nat)
    requires Calm(w.objs) && i < n <= |Plan(s)|
    requires forall j :: 0 <= j < n ==> ResultAt(env, w, s, now, j).error.None?
    ensures PresentAndLabelled(Visits(env, w, Applies(s, now), Plan(s), n).0.objs, Plan(s)[i])
  {
    hide ApplyOne, DeleteOne, Plan, Calm, Grows, PresentAndLabelled;
    var before := Visits(env, w, Applies(s, now), Plan(s), n - 1).0;
    CalmVisits(env, w, s, now, n - 1);
    assert ResultAt(env, w, s, now, n - 1).error.None?;
    if i < n - 1 {
      ErrorFreeVisitsLabel(env, w, s, now, n - 1, i);
    }
    LabelledVisit(env, before, s, now, Plan(s)[n - 1], Plan(s)[i]);
  }

  /** The secrets a setup asks for: its pull secrets and the token secret. */
  ghost predicate Configured(s: Setup, l: Loc) {
    l == TokenLoc(s) || exists i :: 0 <= i < |s.pullSecrets| && l == PullSecret(s, i).loc
  }

  lemma ConfiguredIsKept(s: Setup, l: Loc)
    requires l.kind == Secret && l.cluster == WORKLOAD && l.ns == s.ns
    ensures l.name in TenantCleaner(s).keep <==> Configured(s, l)
  {
    var keep := s.pullSecrets + [TOKEN_SECRET];
    if l.name in keep {
      var i :| 0 <= i < |keep| && keep[i] == l.name;
      if i < |s.pullSecrets| {
        assert l == PullSecret(s, i).loc;
      }
    }
    if i :| 0 <= i < |s.pullSecrets| && l == PullSecret(s, i).loc {
      assert keep[i] == l.name;
    }
    assert keep[|s.pullSecrets|] == TOKEN_SECRET;
  }

  /**
   History independence: after an error-free Apply pass the managed secrets of the tenant are exactly
   the configured pull secrets and the token secret, whatever earlier configurations left behind.
  */
  lemma SecretsAreThoseConfigured(env: Env, w: World, s: Setup, now: int)
    requires Brisk(env, w.calls) && Calm(w.objs)
    requires ErrorFree(ApplyPass(env, w, s, now))
    ensures forall l :: l in ManagedSecrets(ApplyPass(env, w, s, now).world.objs, WORKLOAD, s.ns) <==> Configured(s, l)
  {
    hide DeleteOne, ApplyOne;
    var visited, objs := Visited(env, w, s, now), ApplyPass(env, w, s, now).world.objs;
    CalmVisits(env, w, s, now, |Plan(s)|);
    ErrorFreeMeansEveryVisit(env, w, s, now);
    PassEndsWithCleanup(env, w, s, now);
    CleanerSpares(env, visited, s);
    BriskCleanupStaysCalm(env, visited, s);
    var start := Report(visited, Visits(env, w, Applies(s, now), Plan(s), |Plan(s)|).1, false);
    ErrorFreeCleanupsSweep(env, start, CleanersFor(s), 1, 0);
    forall l | Configured(s, l)
      ensures l in ManagedSecrets(objs, WORKLOAD, s.ns)
    {
      var m := if l == TokenLoc(s) then TokenObject(s)
               else var i :| 0 <= i < |s.pullSecrets| && l == PullSecret(s, i).loc; PullSecret(s, i);
      PlanIsWired(s, m);
      PlanIsNotSwept(s, m);
      var k :| 0 <= k < |Plan(s)| && Plan(s)[k] == m;
      ErrorFreeVisitsLabel(env, w, s, now, |Plan(s)|, k);
    }
    forall l | l in ManagedSecrets(objs, WORKLOAD, s.ns)
      ensures Configured(s, l)
    {
      ConfiguredIsKept(s, l);
    }
  }
}
