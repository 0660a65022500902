/** Safety over whole runs: Apply and Delete passes in any order, with any fate of every call. */
module Runs {
  import opened Basics
  import opened ApiServer
  import opened Passes
  import opened Deletion
  import opened Sparing
  import opened Wiring

  /** One pass of a run; before it the clusters report new ready counts. */
  datatype Step = Step(setup: Setup, deleting: bool, now: int, ready: map<Loc, int>)

  function ModeOf(st: Step): Mode {
    if st.deleting then Deleting else Applying(st.setup.instance, st.now)
  }

  function Reported(w: World, ready: map<Loc, int>): World {
    w.(objs := map l | l in w.objs :: if l in ready then w.objs[l].(ready := ready[l]) else w.objs[l])
  }

  function Advance(env: Env, w: World, st: Step): World {
    Pass(env, Reported(w, st.ready), ModeOf(st), Plan(st.setup), CleanersFor(st.setup)).world
  }

  function Execute(env: Env, w: World, steps: seq<Step>): World {
    if steps == [] then w else Advance(env, Execute(env, w, Front(steps)), Last(steps))
  }

  /** The store at the start of step `i` of a run. */
  function StartOf(env: Env, w: World, steps: seq<Step>, i: nat): World
    requires i < |steps|
  {
    Reported(Execute(env, w, steps[..i]), steps[i].ready)
  }

  /** The report of step `i` of a run. */
  function ReportOf(env: Env, w: World, steps: seq<Step>, i: nat): Report
    requires i < |steps|
  {
    var st := steps[i];
    Pass(env, StartOf(env, w, steps, i), ModeOf(st), Plan(st.setup), CleanersFor(st.setup))
  }

  lemma ExecuteNext(env: Env, w: World, steps: seq<Step>, i: nat)
    requires i < |steps|
    ensures Execute(env, w, steps[..i + 1]) == ReportOf(env, w, steps, i).world
  {
    hide Pass;
    assert Front(steps[..i + 1]) == steps[..i];
  }

  // ----- orphans -----

  /** No run removes the MCP namespace or a custom resource definition, nor a secret of the platform cluster. */
  lemma {:induction false} OrphansSurviveRuns(env: Env, w: World, steps: seq<Step>, x: Loc)
    requires Firm(w.objs, x)
    requires Spared(x)
    ensures Firm(Execute(env, w, steps).objs, x)
  {
    if steps != [] {
      OrphansSurviveRuns(env, w, Front(steps), x);
      var w1, st := Execute(env, w, Front(steps)), Last(steps);
      SparedIsUntouchable(st.setup, x);
      PassSpares(env, Reported(w1, st.ready), ModeOf(st), Plan(st.setup), CleanersFor(st.setup), x);
    }
  }

  // ----- tenant isolation -----

  /** An object on the workload cluster outside of the tenant's namespace. */
  predicate Foreign(s: Setup, x: Loc) {
    x.cluster == WORKLOAD && x.ns != s.ns && x != NamespaceLoc(WORKLOAD, s.ns)
  }

  lemma ForeignIsElsewhere(s: Setup, x: Loc)
    requires Foreign(s, x)
    ensures Untouchable(Plan(s), CleanersFor(s), x) && Elsewhere(Plan(s), x)
  {
    forall m | m in Plan(s)
      ensures !Aims(m, x) && m.loc != x
    {
      PlanIsWired(s, m);
    }
  }

  /** Apart from ready counts, which the clusters report, no run for other tenants changes an object. */
  lemma {:induction false} OtherTenantsAreUntouched(env: Env, w: World, steps: seq<Step>, x: Loc)
    requires Firm(w.objs, x)
    requires forall i :: 0 <= i < |steps| ==> Foreign(steps[i].setup, x)
    ensures var b := Execute(env, w, steps).objs;
            Firm(b, x) && b[x] == w.objs[x].(ready := b[x].ready)
  {
    hide Pass, Foreign;
    if steps != [] {
      OtherTenantsAreUntouched(env, w, Front(steps), x);
      var w1, st := Execute(env, w, Front(steps)), Last(steps);
      assert Foreign(st.setup, x);
      ForeignIsElsewhere(st.setup, x);
      PassSpares(env, Reported(w1, st.ready), ModeOf(st), Plan(st.setup), CleanersFor(st.setup), x);
    }
  }

  /** Nor does such a run add anything, or change more than marking what is terminating. */
  lemma {:induction false} OthersAddNothing(env: Env, w: World, steps: seq<Step>, x: Loc)
    requires forall i :: 0 <= i < |steps| ==> Foreign(steps[i].setup, x)
    ensures var a, b := w.objs, Execute(env, w, steps).objs;
            x in b ==> x in a && b[x] == a[x].(terminating := b[x].terminating, ready := b[x].ready)
  {
    hide Pass, Foreign;
    if steps != [] {
      OthersAddNothing(env, w, Front(steps), x);
      var w1, st := Execute(env, w, Front(steps)), Last(steps);
      assert Foreign(st.setup, x);
      ForeignIsElsewhere(st.setup, x);
      PassAddsOnlyPlanned(env, Reported(w1, st.ready), ModeOf(st), Plan(st.setup), CleanersFor(st.setup), x);
    }
  }

  // ----- namespaces -----

  lemma ApplyOneKeepsHoused(env: Env, w: World, instance: string, now: int, m: Managed)
    requires Housed(w.objs)
    ensures Housed(ApplyOne(env, w, instance, now, m).0.objs)
  {
    TickKeepsHoused(env, w);
    var (w1, reply) := Get(env, w, m.loc);
    if !reply.Failed? {
      var base := if reply.Found? then reply.obj else BLANK;
      var (w2, given) := Gather(env, w1, now, m.recipe, base);
      TickKeepsHoused(env, w1);
      TickKeepsHoused(env, Tick(env, w1));
      if given.Some? {
        WriteKeepsHoused(env, w2, m.loc, Shape(instance, m.recipe, given.value, base));
      }
    }
  }

  lemma VisitKeepsHoused(env: Env, w: World, mode: Mode, plan: seq<Managed>, m: Managed)
    requires Housed(w.objs)
    ensures Housed(Visit(env, w, mode, plan, m).0.objs)
  {
    if mode.Deleting? {
      CheckKeepsHoused(env, w, Dependents(plan, m));
      DeleteKeepsHoused(env, CheckForDependents(env, w, Dependents(plan, m)).0, m.loc);
    } else {
      ApplyOneKeepsHoused(env, w, mode.instance, mode.now, m);
    }
  }

  lemma {:induction false} VisitsKeepHoused(env: Env, w: World, mode: Mode, plan: seq<Managed>, n: nat)
    requires n <= |plan| && Housed(w.objs)
    ensures Housed(Visits(env, w, mode, plan, n).0.objs)
  {
    hide DeleteOne, ApplyOne;
    if n > 0 {
      VisitsKeepHoused(env, w, mode, plan, n - 1);
      VisitKeepsHoused(env, Visits(env, w, mode, plan, n - 1).0, mode, plan, plan[n - 1]);
    }
  }

  lemma {:induction false} SweepKeepsHoused(env: Env, w: World, c: Cleaner, items: seq<Loc>, n: nat)
    requires n <= |items| && Housed(w.objs)
    ensures Housed(Sweep(env, w, c, items, n).0.objs)
  {
    if n > 0 {
      SweepKeepsHoused(env, w, c, items, n - 1);
      DeleteKeepsHoused(env, Sweep(env, w, c, items, n - 1).0, items[n - 1]);
    }
  }

  lemma PassKeepsHoused(env: Env, w: World, mode: Mode, s: Setup)
    requires Housed(w.objs)
    ensures Housed(Pass(env, w, mode, Plan(s), CleanersFor(s)).world.objs)
  {
    hide DeleteOne, ApplyOne;
    var (w1, results) := Visits(env, w, mode, Plan(s), |Plan(s)|);
    VisitsKeepHoused(env, w, mode, Plan(s), |Plan(s)|);
    var start := Report(w1, results, false);
    assert Cleanups(env, start, CleanersFor(s), 0) == start;
    var c := TenantCleaner(s);
    var (w2, items) := List(env, w1, c.cluster, c.ns);
    if items.Some? {
      SweepKeepsHoused(env, w2, c, items.value, |items.value|);
    }
  }

  /** Nothing lives on the workload cluster in the tenant's namespace, nor the namespace itself. */
  ghost predicate TenantEmpty(objs: Objects, ns: string) {
    && NamespaceLoc(WORKLOAD, ns) !in objs
    && forall l :: l in objs && l.Namespaced() ==> !(l.cluster == WORKLOAD && l.ns == ns)
  }

  lemma NoHomeNoContents(objs: Objects, ns: string)
    requires Housed(objs) && NamespaceLoc(WORKLOAD, ns) !in objs
    ensures TenantEmpty(objs, ns)
  {
    forall l | l in objs && l.Namespaced()
      ensures !(l.cluster == WORKLOAD && l.ns == ns)
    {
      assert l.House() in objs;
    }
  }

  /** A finished Delete pass leaves nothing at all in the tenant's namespace, and no account or binding. */
  lemma FinishedLeavesTenantEmpty(env: Env, w: World, s: Setup)
    requires Housed(w.objs)
    requires Finished(Pass(env, w, Deleting, Plan(s), CleanersFor(s)))
    ensures TenantEmpty(Pass(env, w, Deleting, Plan(s), CleanersFor(s)).world.objs, s.ns)
    ensures forall m :: m in [ACCOUNT_OBJECT, BINDING_OBJECT, McpDeployment(s)] ==>
                          m.loc !in Pass(env, w, Deleting, Plan(s), CleanersFor(s)).world.objs
  {
    hide DeleteOne, ApplyOne, Cleanups;
    FinishedMeansGone(env, w, Plan(s), CleanersFor(s));
    PassKeepsHoused(env, w, Deleting, s);
    PlanIsWired(s, Home(s));
    var objs := Pass(env, w, Deleting, Plan(s), CleanersFor(s)).world.objs;
    NoHomeNoContents(objs, s.ns);
    forall m | m in [ACCOUNT_OBJECT, BINDING_OBJECT, McpDeployment(s)]
      ensures m.loc !in objs
    {
      PlanIsWired(s, m);
    }
  }
}
