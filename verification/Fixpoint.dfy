/** Apply reaches its goal in two passes, and then stands still. */
module Fixpoint {
  import opened Basics
  import opened ApiServer
  import opened Passes
  import opened Deletion
  import opened Teardown
  import opened Wiring
  import opened Convergence

  // ----- what a pass reports is what it leaves -----

  lemma OnlyTokenMints(s: Setup, m: Managed)
    requires m in Plan(s) && m.recipe.TokenFor?
    ensures m == TokenObject(s)
  {
    PlanIsWired(s, m);
  }

  /** A second visit to a place whose object is in form changes nothing there, unless it mints a token. */
  lemma RevisitChangesNothing(env: Env, w: World, instance: string, now: int, m: Managed)
    requires Calm(w.objs) && !m.recipe.TokenFor?
    requires m.loc in w.objs && InForm(instance, m.recipe, w.objs, w.objs[m.loc])
    ensures var w1 := ApplyOne(env, w, instance, now, m).0; m.loc in w1.objs && w1.objs[m.loc] == w.objs[m.loc]
  {
    CalmTick(env, w);
    var (w1, reply) := Get(env, w, m.loc);
    if reply.Found? {
      CalmGather(env, w1, now, m.recipe, reply.obj);
      var given := Gather(env, w1, now, m.recipe, reply.obj).1;
      if given.Some? {
        FormIsFixed(instance, m.recipe, w.objs, reply.obj, given.value);
      }
    }
  }

  lemma NoSecondToken(s: Setup, i: nat, j: nat)
    requires TokenNameIsFree(s) && i < j < |Plan(s)| && Plan(s)[i].loc == Plan(s)[j].loc
    ensures !Plan(s)[j].recipe.TokenFor?
  {
    if Plan(s)[j].recipe.TokenFor? {
      OnlyTokenMints(s, Plan(s)[j]);
      TokenAtItsIndex(s, i);
      TokenAtItsIndex(s, j);
    }
  }

  /** In an error-free pass what a visit observed is what the store holds after all visits. */
  lemma {:induction false} ObservedStays(env: Env, w: World, s: Setup, now: int, n: nat, i: nat)
    requires Unambiguous(s) && Calm(w.objs) && i < n <= |Plan(s)|
    requires forall j :: 0 <= j < n ==> ResultAt(env, w, s, now, j).error.None?
    ensures var objs := Visits(env, w, Applies(s, now), Plan(s), n).0.objs;
            Plan(s)[i].loc in objs && objs[Plan(s)[i].loc] == ResultAt(env, w, s, now, i).observed
  {
    hide ApplyOne, Plan, InForm, Calm, Grows;
    var before, m, x := Visits(env, w, Applies(s, now), Plan(s), n - 1).0, Plan(s)[n - 1], Plan(s)[i];
    CalmVisits(env, w, s, now, n - 1);
    assert ResultAt(env, w, s, now, n - 1).error.None?;
    WiringIsTidy(s, m);
    if i < n - 1 {
      ObservedStays(env, w, s, now, n - 1, i);
      CalmVisit(env, before, s.instance, now, m);
      if m.loc == x.loc {
        ErrorFreeVisitsApply(env, w, s, now, n - 1, i);
        OnePlaceOneRecipe(s, m, x);
        NoSecondToken(s, i, n - 1);
        RevisitChangesNothing(env, before, s.instance, now, m);
      }
    } else {
      CalmVisitForms(env, before, s.instance, now, m);
    }
  }

  /** The same after the cleaner: an error-free pass reports each object as it is at the end of the pass. */
  lemma ErrorFreePassReportsTheStore(env: Env, w: World, s: Setup, now: int, i: nat)
    requires Unambiguous(s) && Calm(w.objs) && i < |Plan(s)|
    requires ErrorFree(ApplyPass(env, w, s, now))
    ensures var report, m := ApplyPass(env, w, s, now), Plan(s)[i];
            && i < |report.results| && report.results[i].managed == m
            && m.loc in report.world.objs && report.world.objs[m.loc] == report.results[i].observed
  {
    hide Visits, ResultAt, Cleanup, Pass, ErrorFree;
    PassReportsEveryObject(env, w, Applies(s, now), Plan(s), CleanersFor(s));
    var visited := Visited(env, w, s, now);
    CalmVisits(env, w, s, now, |Plan(s)|);
    ErrorFreeMeansEveryVisit(env, w, s, now);
    ObservedStays(env, w, s, now, |Plan(s)|, i);
    PlanIsNotSwept(s, Plan(s)[i]);
    CleanerSpares(env, visited, s);
    PassEndsWithCleanup(env, w, s, now);
    PassResultAt(env, w, s, now, i);
  }

  // ----- standing still -----

  /** Everything managed is in form, nothing else is left to clean, and the token is not due. */
  ghost predicate AtRest(s: Setup, objs: Objects, now: int) {
    && Calm(objs) && AllApplied(s, objs) && Swept(objs, TenantCleaner(s))
    && TokenLoc(s) in objs && !TokenDue(now, s.poll, objs[TokenLoc(s)].expires)
  }

  /** A visit changes nothing, whatever its calls go through; when they are served it reports what is there. */
  lemma VisitAtRest(env: Env, w: World, s: Setup, now: int, m: Managed)
    requires AtRest(s, w.objs, now) && m in Plan(s)
    ensures var (w1, result) := ApplyOne(env, w, s.instance, now, m);
            && w1.objs == w.objs && m.loc in w.objs
            && (Prompt(env, w.calls) ==> result == Result(m, Unchanged, None, w.objs[m.loc]))
  {
    assert Applied(s, w.objs, m);
    CalmTick(env, w);
    var (w1, reply) := Get(env, w, m.loc);
    if !reply.Failed? {
      var base := w.objs[m.loc];
      CalmGather(env, w1, now, m.recipe, base);
      if m.recipe.TokenFor? {
        OnlyTokenMints(s, m);
      }
      var given := Gather(env, w1, now, m.recipe, base).1;
      if given.Some? {
        FormIsFixed(s.instance, m.recipe, w.objs, base, given.value);
      }
    }
  }

  lemma {:induction false} VisitsAtRest(env: Env, w: World, s: Setup, now: int, n: nat)
    requires AtRest(s, w.objs, now) && n <= |Plan(s)|
    ensures Visits(env, w, Applies(s, now), Plan(s), n).0.objs == w.objs
  {
    hide DeleteOne, ApplyOne;
    if n > 0 {
      VisitsAtRest(env, w, s, now, n - 1);
      VisitAtRest(env, Visits(env, w, Applies(s, now), Plan(s), n - 1).0, s, now, Plan(s)[n - 1]);
    }
  }

  lemma {:induction false} SweepOfKeptDoesNothing(env: Env, w: World, c: Cleaner, items: seq<Loc>, n: nat)
    requires n <= |items| && forall i :: 0 <= i < n ==> items[i].name in c.keep
    ensures Sweep(env, w, c, items, n) == (w, [])
  {
    if n > 0 {
      SweepOfKeptDoesNothing(env, w, c, items, n - 1);
    }
  }

  lemma CleanupAtRest(env: Env, w: World, s: Setup)
    requires Calm(w.objs) && Swept(w.objs, TenantCleaner(s))
    ensures var (w1, results) := Cleanup(env, w, TenantCleaner(s));
            w1.objs == w.objs && (results == None || results == Some([])) && (Prompt(env, w.calls) ==> results.Some?)
  {
    var c := TenantCleaner(s);
    CalmTick(env, w);
    ListIsListable(env, w, c);
    var (w1, items) := List(env, w, c.cluster, c.ns);
    if items.Some? {
      forall i | 0 <= i < |items.value|
        ensures items.value[i].name in c.keep
      {
        assert items.value[i] in items.value;
      }
      SweepOfKeptDoesNothing(env, w1, c, items.value, |items.value|);
    }
  }

  /** At rest a pass changes no store, whatever its calls go through. */
  lemma PassAtRest(env: Env, w: World, s: Setup, now: int)
    requires AtRest(s, w.objs, now)
    ensures ApplyPass(env, w, s, now).world.objs == w.objs
  {
    hide DeleteOne, ApplyOne;
    VisitsAtRest(env, w, s, now, |Plan(s)|);
    CleanupAtRest(env, Visited(env, w, s, now), s);
    PassEndsWithCleanup(env, w, s, now);
  }

  lemma PromptPassReportsVisits(env: Env, w: World, s: Setup, now: int)
    requires Prompt(env, w.calls)
    ensures var report := ApplyPass(env, w, s, now);
            && !report.failed && |report.results| == |Plan(s)|
            && forall i :: 0 <= i < |Plan(s)| ==> report.results[i] == ResultAt(env, w, s, now, i)
  {
    hide DeleteOne, ApplyOne;
    var (w1, results) := Visits(env, w, Applies(s, now), Plan(s), |Plan(s)|);
    VisitsReportInOrder(env, w, Applies(s, now), Plan(s), |Plan(s)|);
    PromptCleanupsAreSilent(env, Report(w1, results, false), CleanersFor(s), 1);
    forall i | 0 <= i < |Plan(s)|
      ensures results[i] == ResultAt(env, w, s, now, i)
    {
      VisitResult(env, w, Applies(s, now), Plan(s), i);
    }
  }

  /** When its calls are served it also reports no error, and every object as it stands. */
  lemma PromptPassAtRest(env: Env, w: World, s: Setup, now: int)
    requires Prompt(env, w.calls) && AtRest(s, w.objs, now)
    ensures var report := ApplyPass(env, w, s, now);
            && ErrorFree(report)
            && |report.results| == |Plan(s)|
            && forall i :: 0 <= i < |Plan(s)| ==>
                 Plan(s)[i].loc in w.objs
                 && report.results[i] == Result(Plan(s)[i], Unchanged, None, w.objs[Plan(s)[i].loc])
  {
    hide DeleteOne, ApplyOne;
    var report := ApplyPass(env, w, s, now);
    PromptPassReportsVisits(env, w, s, now);
    forall i | 0 <= i < |Plan(s)|
      ensures Plan(s)[i].loc in w.objs
      ensures report.results[i] == Result(Plan(s)[i], Unchanged, None, w.objs[Plan(s)[i].loc])
    {
      VisitsAtRest(env, w, s, now, i);
      VisitAtRest(env, Visits(env, w, Applies(s, now), Plan(s), i).0, s, now, Plan(s)[i]);
    }
  }

  /** The token record after a pass is not due at a later pass. */
  ghost predicate NotDueAgain(s: Setup, objs: Objects, later: int) {
    TokenLoc(s) in objs ==> !TokenDue(later, s.poll, objs[TokenLoc(s)].expires)
  }

  /**
   Fixed point: after an error-free Apply pass another pass with the same inputs and no token due leaves
   every store as it is, whatever the calls of either pass go through.
  */
  lemma ApplyFixedPoint(env: Env, again: Env, w: World, s: Setup, now: int, later: int)
    requires Unambiguous(s) && Brisk(env, w.calls) && Calm(w.objs) && ErrorFree(ApplyPass(env, w, s, now))
    requires NotDueAgain(s, ApplyPass(env, w, s, now).world.objs, later)
    ensures var first := ApplyPass(env, w, s, now);
            AtRest(s, first.world.objs, later)
            && ApplyPass(again, first.world, s, later).world.objs == first.world.objs
  {
    hide ApplyPass, Plan, Calm;
    ErrorFreePassApplies(env, w, s, now);
    var first := ApplyPass(env, w, s, now);
    PlanIsWired(s, TokenObject(s));
    assert Applied(s, first.world.objs, TokenObject(s));
    PassAtRest(again, first.world, s, later);
  }

  /** When the calls of the second pass are served, it is error-free and observes exactly the same objects. */
  lemma SecondPassObservesTheSame(env: Env, again: Env, w: World, s: Setup, now: int, later: int)
    requires Unambiguous(s) && Brisk(env, w.calls) && Calm(w.objs) && ErrorFree(ApplyPass(env, w, s, now))
    requires NotDueAgain(s, ApplyPass(env, w, s, now).world.objs, later)
    requires Prompt(again, ApplyPass(env, w, s, now).world.calls)
    ensures var first := ApplyPass(env, w, s, now);
            var second := ApplyPass(again, first.world, s, later);
            && ErrorFree(second)
            && |second.results| == |Plan(s)| <= |first.results|
            && forall i :: 0 <= i < |Plan(s)| ==>
                 second.results[i].managed == first.results[i].managed
                 && second.results[i].observed == first.results[i].observed
  {
    hide DeleteOne, ApplyOne;
    ApplyFixedPoint(env, again, w, s, now, later);
    var first := ApplyPass(env, w, s, now);
    PromptPassAtRest(again, first.world, s, later);
    forall i | 0 <= i < |Plan(s)|
      ensures i < |first.results|
      ensures var second := ApplyPass(again, first.world, s, later);
              && second.results[i].managed == first.results[i].managed
              && second.results[i].observed == first.results[i].observed
    {
      ErrorFreePassReportsTheStore(env, w, s, now, i);
    }
  }

  // ----- two passes are enough -----

  /** The objects a reconcile function reads are there. */
  ghost predicate InputsReady(recipe: Recipe, objs: Objects) {
    && (recipe.TokenFor? ==> recipe.account in objs)
    && (recipe.CopyOf? ==> recipe.source in objs)
  }

  predicate HomeReady(l: Loc, objs: Objects) {
    l.Namespaced() ==> l.House() in objs
  }

  /** Served visits succeed when inputs and namespace are there, and fail to create without the namespace. */
  lemma ServedVisit(env: Env, w: World, instance: string, now: int, m: Managed)
    requires Prompt(env, w.calls) && Calm(w.objs) && InputsReady(m.recipe, w.objs)
    ensures HomeReady(m.loc, w.objs) ==> ApplyOne(env, w, instance, now, m).1.error.None?
    ensures !HomeReady(m.loc, w.objs) && m.loc !in w.objs ==> ApplyOne(env, w, instance, now, m).1.error.Some?
  {
    CalmTick(env, w);
    var (w1, reply) := Get(env, w, m.loc);
    var base := if reply.Found? then reply.obj else BLANK;
    CalmGather(env, w1, now, m.recipe, base);
    var (w2, given) := Gather(env, w1, now, m.recipe, base);
    CalmTick(env, w1);
    assert given.Some?;
    CalmTick(env, w2);
  }

  /** Everything the plan reads or lives in, apart from the tenant's namespace. */
  ghost predicate SourcesExist(s: Setup, objs: Objects) {
    forall i :: 0 <= i < |s.pullSecrets| ==> SourceLoc(s, s.pullSecrets[i]) in objs
  }

  lemma InputsAreReady(s: Setup, objs: Objects, m: Managed)
    requires m in Plan(s) && SourcesExist(s, objs)
    requires m == TokenObject(s) ==> ACCOUNT in objs
    ensures InputsReady(m.recipe, objs)
  {
    PlanIsWired(s, m);
  }

  /** Homes, account and sources exist: an Apply pass with served calls meets no obstacle. */
  ghost predicate Prepared(s: Setup, objs: Objects) {
    MCP_HOME in objs && ACCOUNT in objs && NamespaceLoc(WORKLOAD, s.ns) in objs && SourcesExist(s, objs)
  }

  lemma HomesAreReady(s: Setup, objs: Objects, m: Managed)
    requires m in Plan(s) && MCP_HOME in objs && NamespaceLoc(WORKLOAD, s.ns) in objs
    ensures HomeReady(m.loc, objs)
  {
    PlanIsWired(s, m);
  }

  lemma PreparedPassIsErrorFree(env: Env, w: World, s: Setup, now: int)
    requires Prompt(env, w.calls) && Calm(w.objs) && Prepared(s, w.objs)
    ensures ErrorFree(ApplyPass(env, w, s, now))
  {
    hide DeleteOne, ApplyOne;
    forall i | 0 <= i < |Plan(s)|
      ensures ResultAt(env, w, s, now, i).error.None?
    {
      var before := Visits(env, w, Applies(s, now), Plan(s), i).0;
      CalmVisits(env, w, s, now, i);
      InputsAreReady(s, before.objs, Plan(s)[i]);
      HomesAreReady(s, before.objs, Plan(s)[i]);
      ServedVisit(env, before, s.instance, now, Plan(s)[i]);
    }
    PromptPassReportsVisits(env, w, s, now);
  }

  // ----- the first pass -----

  ghost predicate NothingNewOnWorkload(a: Objects, b: Objects) {
    forall l: Loc :: l.cluster == WORKLOAD && l in b ==> l in a
  }

  lemma NewOnlyAt(a: Objects, b: Objects, c: Objects, l: Loc)
    requires NothingNewOnWorkload(a, b) && OnlyAt(b, c, l) && l.cluster == MCP
    ensures NothingNewOnWorkload(a, c)
  {
  }

  /** Before the token's visit nothing happens on the workload cluster. */
  lemma {:induction false} WorkloadWaits(env: Env, w: World, s: Setup, now: int, n: nat)
    requires Calm(w.objs) && n <= TokenIndex(s) < |Plan(s)|
    ensures NothingNewOnWorkload(w.objs, Visits(env, w, Applies(s, now), Plan(s), n).0.objs)
  {
    hide DeleteOne, ApplyOne;
    if n > 0 {
      WorkloadWaits(env, w, s, now, n - 1);
      var before, m := Visits(env, w, Applies(s, now), Plan(s), n - 1).0, Plan(s)[n - 1];
      CalmVisits(env, w, s, now, n - 1);
      ClusterAt(s, n - 1);
      CalmVisit(env, before, s.instance, now, m);
      NewOnlyAt(w.objs, before.objs, ApplyOne(env, before, s.instance, now, m).0.objs, m.loc);
    }
  }

  /** The token's visit cannot create its secret: its namespace is registered after it. */
  predicate Early(s: Setup, objs: Objects, i: nat) {
    i == TokenIndex(s) && NamespaceLoc(WORKLOAD, s.ns) !in objs
  }

  /** An object visited without an error is there from then on. */
  lemma {:induction false} StaysPresent(env: Env, w: World, s: Setup, now: int, k: nat, i: nat)
    requires Calm(w.objs) && k < i <= |Plan(s)| && ResultAt(env, w, s, now, k).error.None?
    ensures Plan(s)[k].loc in Visits(env, w, Applies(s, now), Plan(s), i).0.objs
  {
    hide DeleteOne, ApplyOne;
    var before := Visits(env, w, Applies(s, now), Plan(s), i - 1).0;
    CalmVisits(env, w, s, now, i - 1);
    WiringIsTidy(s, Plan(s)[i - 1]);
    if k < i - 1 {
      StaysPresent(env, w, s, now, k, i - 1);
      CalmVisit(env, before, s.instance, now, Plan(s)[i - 1]);
    } else {
      CalmVisitForms(env, before, s.instance, now, Plan(s)[k]);
    }
  }

  lemma PreparedVisitSucceeds(env: Env, w: World, s: Setup, now: int, k: nat)
    requires Prompt(env, w.calls) && Calm(w.objs) && k < |Plan(s)|
    requires var objs := Visits(env, w, Applies(s, now), Plan(s), k).0.objs;
             HomeReady(Plan(s)[k].loc, objs) && InputsReady(Plan(s)[k].recipe, objs)
    ensures ResultAt(env, w, s, now, k).error.None?
  {
    hide DeleteOne, ApplyOne;
    CalmVisits(env, w, s, now, k);
    ServedVisit(env, Visits(env, w, Applies(s, now), Plan(s), k).0, s.instance, now, Plan(s)[k]);
  }

  lemma HomesComeFirst(env: Env, w: World, s: Setup, now: int, i: nat)
    requires Prompt(env, w.calls) && Calm(w.objs) && i <= |Plan(s)|
    ensures var objs := Visits(env, w, Applies(s, now), Plan(s), i).0.objs;
            (i > 0 ==> MCP_HOME in objs) && (i > TokenIndex(s) + 1 ==> NamespaceLoc(WORKLOAD, s.ns) in objs)
  {
    hide DeleteOne, ApplyOne;
    PlanStart(s);
    if i > 0 {
      PreparedVisitSucceeds(env, w, s, now, 0);
      StaysPresent(env, w, s, now, 0, i);
    }
    if i > TokenIndex(s) + 1 {
      PreparedVisitSucceeds(env, w, s, now, TokenIndex(s) + 1);
      StaysPresent(env, w, s, now, TokenIndex(s) + 1, i);
    }
  }

  /** Before visit `i` what that visit needs is there, unless the visit is early. */
  lemma VisitIsPrepared(env: Env, w: World, s: Setup, now: int, i: nat)
    requires Prompt(env, w.calls) && Calm(w.objs) && SourcesExist(s, w.objs) && i <= |Plan(s)|
    ensures var objs := Visits(env, w, Applies(s, now), Plan(s), i).0.objs;
            && (i > 0 ==> MCP_HOME in objs)
            && (i > 1 ==> ACCOUNT in objs)
            && (i > TokenIndex(s) + 1 ==> NamespaceLoc(WORKLOAD, s.ns) in objs)
            && SourcesExist(s, objs)
  {
    hide DeleteOne, ApplyOne;
    HomesComeFirst(env, w, s, now, i);
    CalmVisits(env, w, s, now, i);
    if i > 1 {
      PlanStart(s);
      HomesComeFirst(env, w, s, now, 1);
      PreparedVisitSucceeds(env, w, s, now, 1);
      StaysPresent(env, w, s, now, 1, i);
    }
  }

  /** Whether the namespace of the object visited next is there: not only for the early visit. */
  lemma HomeReadyUnlessEarly(s: Setup, a: Objects, b: Objects, i: nat)
    requires Housed(a) && Grows(a, b) && s.ns != "" && i < |Plan(s)|
    requires i > 0 ==> MCP_HOME in b
    requires i > TokenIndex(s) + 1 ==> NamespaceLoc(WORKLOAD, s.ns) in b
    requires i == TokenIndex(s) ==> NothingNewOnWorkload(a, b)
    ensures var l := Plan(s)[i].loc;
            if Early(s, a, i) then !HomeReady(l, b) && l !in b else HomeReady(l, b)
  {
    PlanStart(s);
    ClusterAt(s, i);
    PlanIsWired(s, Plan(s)[i]);
  }

  /** In the first pass exactly the early visit fails: that of the token secret when the namespace is missing. */
  lemma FirstPassFailsExactly(env: Env, w: World, s: Setup, now: int, i: nat)
    requires Prompt(env, w.calls) && Calm(w.objs) && Housed(w.objs) && SourcesExist(s, w.objs) && s.ns != ""
    requires i < |Plan(s)|
    ensures ResultAt(env, w, s, now, i).error.Some? <==> Early(s, w.objs, i)
  {
    hide Visits, ApplyOne, Plan;
    var before, m := Visits(env, w, Applies(s, now), Plan(s), i).0, Plan(s)[i];
    VisitIsPrepared(env, w, s, now, i);
    CalmVisits(env, w, s, now, i);
    PlanStart(s);
    if i == TokenIndex(s) {
      WorkloadWaits(env, w, s, now, i);
    }
    HomeReadyUnlessEarly(s, w.objs, before.objs, i);
    InputsAreReady(s, before.objs, m);
    ServedVisit(env, before, s.instance, now, m);
  }

  lemma SourcesAreElsewhere(s: Setup)
    ensures forall l: Loc :: l.cluster == PLATFORM || l.kind != Secret ==> !Sweeps(TenantCleaner(s), l)
  {
  }

  lemma FirstPassPrepares(env: Env, w: World, s: Setup, now: int)
    requires Prompt(env, w.calls) && Brisk(env, w.calls) && Calm(w.objs) && SourcesExist(s, w.objs)
    ensures var objs := ApplyPass(env, w, s, now).world.objs; Calm(objs) && Prepared(s, objs)
  {
    hide DeleteOne, ApplyOne;
    PlanStart(s);
    VisitIsPrepared(env, w, s, now, |Plan(s)|);
    CalmVisits(env, w, s, now, |Plan(s)|);
    CleanerSpares(env, Visited(env, w, s, now), s);
    BriskCleanupStaysCalm(env, Visited(env, w, s, now), s);
    PassEndsWithCleanup(env, w, s, now);
    SourcesAreElsewhere(s);
  }

  /**
   Two passes: from every store at rest, with served calls and the source secrets in place, the
   first pass fails at most for the token secret - exactly when the tenant's namespace did not exist -
   and the second one leaves every managed object in its desired form.
  */
  lemma ApplyConvergesInTwoPasses(env: Env, w: World, s: Setup, now: int, later: int)
    requires Prompt(env, w.calls) && Brisk(env, w.calls) && Calm(w.objs) && Housed(w.objs)
    requires Unambiguous(s) && SourcesExist(s, w.objs) && s.ns != ""
    ensures var first := ApplyPass(env, w, s, now);
            var second := ApplyPass(env, first.world, s, later);
            && !first.failed && |first.results| == |Plan(s)|
            && (forall i :: 0 <= i < |Plan(s)| ==>
                  (first.results[i].error.Some? <==>
                   i == TokenIndex(s) && NamespaceLoc(WORKLOAD, s.ns) !in w.objs))
            && ErrorFree(second)
            && AllApplied(s, second.world.objs)
  {
    hide DeleteOne, ApplyOne;
    var first := ApplyPass(env, w, s, now);
    PromptPassReportsVisits(env, w, s, now);
    forall i | 0 <= i < |Plan(s)|
      ensures first.results[i].error.Some? <==> Early(s, w.objs, i)
    {
      FirstPassFailsExactly(env, w, s, now, i);
    }
    FirstPassPrepares(env, w, s, now);
    PreparedPassIsErrorFree(env, first.world, s, later);
    ErrorFreePassApplies(env, first.world, s, later);
  }
}
