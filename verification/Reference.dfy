/** The token secret on the workload cluster and its service account on the control plane. */
module Reference {
  import opened Basics
  import opened ApiServer
  import opened Passes
  import opened Deletion
  import opened Sparing
  import opened Scripts
  import opened Wiring
  import opened Runs
  import opened Convergence

  /** If the token secret exists, so does its account, and nothing is about to take the account away. */
  ghost predicate Refers(objs: Objects, token: Loc) {
    token in objs ==> Firm(objs, ACCOUNT)
  }

  /** The token secret exists and its account does not. */
  ghost predicate Deserted(objs: Objects, token: Loc) {
    token in objs && ACCOUNT !in objs
  }

  /** A pull secret carries the token secret's name, and there is something to copy. */
  ghost predicate Clashes(s: Setup, objs: Objects) {
    !TokenNameIsFree(s) && SourceLoc(s, TOKEN_SECRET) in objs
  }

  /**
   Whether an Apply pass may start: with the account firmly in place always, otherwise only if no pull
   secret clashes and no token secret can be created while the account is on its way out.
  */
  ghost predicate SafeStart(s: Setup, objs: Objects) {
    Firm(objs, ACCOUNT) || (!Clashes(s, objs) && !(ACCOUNT in objs && Open(objs, TokenLoc(s))))
  }

  // ----- Delete passes -----

  lemma RefersIsAnchored(s: Setup, objs: Objects)
    ensures Refers(objs, TokenLoc(s)) <==> Anchored(Plan(s), objs)
  {
    OnlyDependency(s, TokenObject(s), ACCOUNT_OBJECT);
    if Refers(objs, TokenLoc(s)) {
      forall m, d | Dependency(Plan(s), m, d) && m.loc in objs
        ensures Firm(objs, d.loc)
      {
        OnlyDependency(s, m, d);
      }
    }
  }

  /** Delete passes keep the reference, whatever happens to their calls. */
  lemma DeletePassKeepsReference(env: Env, w: World, s: Setup)
    requires Refers(w.objs, TokenLoc(s))
    ensures Refers(Pass(env, w, Deleting, Plan(s), CleanersFor(s)).world.objs, TokenLoc(s))
  {
    RefersIsAnchored(s, w.objs);
    WiringIsWellWired(s);
    DeletePassKeepsAnchored(env, w, Plan(s), CleanersFor(s), false);
    RefersIsAnchored(s, Pass(env, w, Deleting, Plan(s), CleanersFor(s)).world.objs);
  }

  // ----- safe starts -----

  lemma CleanupKeepsReference(env: Env, w: World, s: Setup)
    requires Refers(w.objs, TokenLoc(s))
    ensures Refers(Cleanup(env, w, TenantCleaner(s)).0.objs, TokenLoc(s))
  {
    CleanupFades(env, w, TenantCleaner(s));
    if Firm(w.objs, ACCOUNT) {
      CleanupSpares(env, w, TenantCleaner(s), ACCOUNT);
    }
  }

  /** The account is absent or firm, and with a clashing name there is nothing to copy. */
  ghost predicate Settling(s: Setup, objs: Objects) {
    && Refers(objs, TokenLoc(s))
    && (ACCOUNT in objs ==> Firm(objs, ACCOUNT))
    && (Clashes(s, objs) ==> Firm(objs, ACCOUNT))
  }

  /** The account is on its way out, but no token secret can be created up to the token's visit. */
  ghost predicate Barred(s: Setup, objs: Objects, n: nat) {
    && TokenLoc(s) !in objs
    && !Clashes(s, objs)
    && (n <= TokenIndex(s) ==> !Open(objs, TokenLoc(s)))
  }

  lemma SafeStartIsSettlingOrBarred(s: Setup, objs: Objects)
    requires Refers(objs, TokenLoc(s)) && SafeStart(s, objs)
    ensures Settling(s, objs) || Barred(s, objs, 0)
  {
  }

  lemma WriteKeepsSettling(env: Env, w: World, s: Setup, m: Managed, obj: Obj)
    requires Settling(s, w.objs) && m in Plan(s)
    requires m.loc == TokenLoc(s) ==> Firm(w.objs, ACCOUNT)
    ensures Settling(s, Create(env, w, m.loc, obj).0.objs)
    ensures Settling(s, Update(env, w, m.loc, obj).0.objs)
  {
    WiringIsTidy(s, m);
    if Firm(w.objs, ACCOUNT) {
      CreateSpares(env, w, m.loc, obj, ACCOUNT);
      UpdateSpares(env, w, m.loc, obj, ACCOUNT);
    }
  }

  lemma VisitKeepsSettling(env: Env, w: World, s: Setup, now: int, m: Managed)
    requires Settling(s, w.objs) && m in Plan(s)
    ensures Settling(s, ApplyOne(env, w, s.instance, now, m).0.objs)
  {
    PlanIsWired(s, m);
    if Firm(w.objs, ACCOUNT) {
      ApplyOneSpares(env, w, s.instance, now, m, ACCOUNT);
    } else {
      var (w1, reply) := Get(env, w, m.loc);
      if !reply.Failed? {
        var base := if reply.Found? then reply.obj else BLANK;
        GatherConfined(env, w1, now, m.recipe, base, m.loc);
        var (w2, given) := Gather(env, w1, now, m.recipe, base);
        if given.Some? {
          assert m.loc != TokenLoc(s);
          WriteKeepsSettling(env, w2, s, m, Shape(s.instance, m.recipe, given.value, base));
        }
      }
    }
  }

  lemma {:induction false} VisitsKeepSettling(env: Env, w: World, s: Setup, now: int, n: nat)
    requires Settling(s, w.objs) && n <= |Plan(s)|
    ensures Settling(s, Visits(env, w, Applies(s, now), Plan(s), n).0.objs)
  {
    hide DeleteOne, ApplyOne;
    if n > 0 {
      VisitsKeepSettling(env, w, s, now, n - 1);
      VisitKeepsSettling(env, Visits(env, w, Applies(s, now), Plan(s), n - 1).0, s, now, Plan(s)[n - 1]);
    }
  }

  lemma NothingAppears(env: Env, w: World, s: Setup, now: int, n: nat)
    requires n < |Plan(s)| && Barred(s, w.objs, n) && Plan(s)[n].loc == TokenLoc(s)
    ensures TokenLoc(s) !in ApplyOne(env, w, s.instance, now, Plan(s)[n]).0.objs
  {
    hide Plan, Shape;
    var m := Plan(s)[n];
    PlanIsWired(s, m);
    if m.recipe.TokenFor? {
      TokenComesFirst(s, n);
    }
    var (w1, reply) := Get(env, w, m.loc);
    GatherConfined(env, w1, now, m.recipe, BLANK, m.loc);
  }

  /** While its namespace is not open, or without anything to copy, no object appears at the token's place. */
  lemma BarredVisit(env: Env, w: World, s: Setup, now: int, n: nat)
    requires n < |Plan(s)| && Barred(s, w.objs, n)
    ensures Barred(s, ApplyOne(env, w, s.instance, now, Plan(s)[n]).0.objs, n + 1)
  {
    var m := Plan(s)[n];
    PlanIsWired(s, m);
    PlanStart(s);
    ClusterAt(s, n);
    VisitConfined(env, w, s.instance, now, m);
    if m.loc == TokenLoc(s) {
      NothingAppears(env, w, s, now, n);
    }
  }

  lemma {:induction false} VisitsStayBarred(env: Env, w: World, s: Setup, now: int, n: nat)
    requires Barred(s, w.objs, 0) && n <= |Plan(s)|
    ensures Barred(s, Visits(env, w, Applies(s, now), Plan(s), n).0.objs, n)
  {
    hide DeleteOne, ApplyOne;
    if n > 0 {
      VisitsStayBarred(env, w, s, now, n - 1);
      BarredVisit(env, Visits(env, w, Applies(s, now), Plan(s), n - 1).0, s, now, n - 1);
    }
  }

  /** An Apply pass with a safe start keeps the reference, whatever its calls go through. */
  lemma SafeStartKeepsReference(env: Env, w: World, s: Setup, now: int)
    requires Refers(w.objs, TokenLoc(s)) && SafeStart(s, w.objs)
    ensures Refers(ApplyPass(env, w, s, now).world.objs, TokenLoc(s))
  {
    hide Visits, Cleanup;
    SafeStartIsSettlingOrBarred(s, w.objs);
    if Settling(s, w.objs) {
      VisitsKeepSettling(env, w, s, now, |Plan(s)|);
    } else {
      VisitsStayBarred(env, w, s, now, |Plan(s)|);
    }
    CleanupKeepsReference(env, Visited(env, w, s, now), s);
    PassEndsWithCleanup(env, w, s, now);
  }

  // ----- unsafe starts: the account on its way out -----

  /**
   From call `c` on: rejected up to the token's visit, served during it, then the account vanishes
   and everything is rejected again.
  */
  ghost predicate AccountLeaves(env: Env, c: nat, s: Setup) {
    var k := c + TokenIndex(s);
    && Rejects(env, c, k) && Serves(env, k, k + 4) && Rejects(env, k + 5, k + 5 + |Plan(s)|)
    && env.event(k + 4).fate.Rejected? && env.event(k + 4).vanishing == {ACCOUNT}
  }

  lemma TokenSecretIsCreated(env: Env, w: World, s: Setup, now: int)
    requires Serves(env, w.calls, w.calls + 4)
    requires ACCOUNT in w.objs && Admitted(w.objs, TokenLoc(s))
    ensures var w1 := ApplyOne(env, w, s.instance, now, TokenObject(s)).0;
            && w1.calls == w.calls + 4
            && w1.objs.Keys == w.objs.Keys + {TokenLoc(s)} && Confined(w.objs, w1.objs, TokenLoc(s))
  {
    StillTick(env, w);
    StillTick(env, World(w.objs, w.calls + 1));
    StillTick(env, World(w.objs, w.calls + 2));
    StillTick(env, World(w.objs, w.calls + 3));
  }

  lemma AccountVanishes(env: Env, w: World, instance: string, now: int, m: Managed, token: Loc)
    requires ACCOUNT in w.objs && !Firm(w.objs, ACCOUNT) && token in w.objs && token != ACCOUNT
    requires env.event(w.calls).fate.Rejected? && env.event(w.calls).vanishing == {ACCOUNT}
    ensures var w1 := ApplyOne(env, w, instance, now, m).0;
            w1.calls == w.calls + 1 && ACCOUNT !in w1.objs && token in w1.objs
  {
  }

  lemma RejectedCleanup(env: Env, w: World, c: Cleaner)
    requires Rejects(env, w.calls, w.calls + 1)
    ensures Cleanup(env, w, c) == (World(w.objs, w.calls + 1), None)
  {
    StillTick(env, w);
  }

  lemma StillLeaving(a: Objects, b: Objects, s: Setup)
    requires ACCOUNT in a && !Firm(a, ACCOUNT)
    requires b.Keys == a.Keys + {TokenLoc(s)} && Confined(a, b, TokenLoc(s))
    ensures ACCOUNT in b && !Firm(b, ACCOUNT)
  {
  }

  lemma LeavingAccountLosesReference(env: Env, w: World, s: Setup, now: int)
    requires AccountLeaves(env, w.calls, s)
    requires ACCOUNT in w.objs && !Firm(w.objs, ACCOUNT) && Admitted(w.objs, TokenLoc(s))
    ensures Deserted(ApplyPass(env, w, s, now).world.objs, TokenLoc(s))
  {
    hide ApplyOne, DeleteOne, Plan, Firm, Cleanup;
    var mode, plan, k := Applies(s, now), Plan(s), TokenIndex(s);
    PlanStart(s);
    assert Visits(env, w, mode, plan, 0).0 == w;
    RejectedVisits(env, w, mode, plan, 0, k);
    var w1 := Visits(env, w, mode, plan, k).0;
    TokenSecretIsCreated(env, w1, s, now);
    var w2 := Visits(env, w, mode, plan, k + 1).0;
    StillLeaving(w1.objs, w2.objs, s);
    AccountVanishes(env, w2, s.instance, now, plan[k + 1], TokenLoc(s));
    RejectedVisits(env, w, mode, plan, k + 2, |plan|);
    RejectedCleanup(env, Visited(env, w, s, now), TenantCleaner(s));
    PassEndsWithCleanup(env, w, s, now);
  }

  // ----- unsafe starts: a clashing pull secret -----

  /** From call `from` on everything is served and nothing vanishes. */
  ghost predicate ServesOn(env: Env, from: nat) {
    forall c: nat :: c >= from ==> env.event(c).fate.Served? && env.event(c).vanishing == {}
  }

  /** Objects stay, nothing but `l` appears, and nothing starts to terminate. */
  ghost predicate GrowsAt(a: Objects, b: Objects, l: Loc) {
    && a.Keys <= b.Keys && Confined(a, b, l)
    && (l in b && b[l].terminating ==> l in a && a[l].terminating)
  }

  lemma StillGather(env: Env, w: World, now: int, recipe: Recipe, obj: Obj)
    requires ServesOn(env, w.calls)
    ensures var w1 := Gather(env, w, now, recipe, obj).0; w1.objs == w.objs && w1.calls >= w.calls
  {
    StillTick(env, w);
    StillTick(env, World(w.objs, w.calls + 1));
  }

  /** A served visit in a still environment: its object is there afterwards, if its namespace and inputs are. */
  lemma StillVisit(env: Env, w: World, instance: string, now: int, m: Managed)
    requires ServesOn(env, w.calls)
    ensures var w1 := ApplyOne(env, w, instance, now, m).0;
            && w1.calls >= w.calls && GrowsAt(w.objs, w1.objs, m.loc)
            && (Open(w.objs, m.loc) && (m.recipe.NoOp? || (m.recipe.CopyOf? && m.recipe.source in w.objs)) ==>
                  m.loc in w1.objs)
  {
    hide Vanish;
    StillTick(env, w);
    var (w1, reply) := Get(env, w, m.loc);
    var base := if reply.Found? then reply.obj else BLANK;
    StillGather(env, w1, now, m.recipe, base);
    var (w2, given) := Gather(env, w1, now, m.recipe, base);
    StillTick(env, w2);
  }

  /** How far a clashing copy has come before visit `n`, when it is made by visit `k`. */
  ghost predicate Copying(s: Setup, objs: Objects, k: nat, n: nat) {
    var home := NamespaceLoc(WORKLOAD, s.ns);
    && ACCOUNT !in objs && SourceLoc(s, TOKEN_SECRET) in objs
    && (home in objs ==> !objs[home].terminating)
    && (TokenLoc(s) in objs ==> !objs[TokenLoc(s)].terminating)
    && (n > TokenIndex(s) + 1 ==> home in objs)
    && (n > k ==> TokenLoc(s) in objs)
  }

  lemma CopyingVisit(env: Env, w: World, s: Setup, now: int, k: nat, n: nat)
    requires ServesOn(env, w.calls) && TokenIndex(s) + 1 < k < |Plan(s)| && TokenIndex(s) < n < |Plan(s)|
    requires Plan(s)[k].loc == TokenLoc(s) && Plan(s)[k].recipe == CopyOf(SourceLoc(s, TOKEN_SECRET))
    requires Copying(s, w.objs, k, n)
    ensures var w1 := ApplyOne(env, w, s.instance, now, Plan(s)[n]).0;
            w1.calls >= w.calls && Copying(s, w1.objs, k, n + 1)
  {
    hide ApplyOne, Plan;
    PlanStart(s);
    ClusterAt(s, n);
    StillVisit(env, w, s.instance, now, Plan(s)[n]);
  }

  lemma {:induction false} CopyingVisits(env: Env, w: World, s: Setup, now: int, k: nat, n: nat)
    requires TokenIndex(s) + 1 < k < |Plan(s)| && TokenIndex(s) < n <= |Plan(s)|
    requires Plan(s)[k].loc == TokenLoc(s) && Plan(s)[k].recipe == CopyOf(SourceLoc(s, TOKEN_SECRET))
    requires var w1 := Visits(env, w, Applies(s, now), Plan(s), TokenIndex(s) + 1).0;
             ServesOn(env, w1.calls) && Copying(s, w1.objs, k, TokenIndex(s) + 1)
    ensures var w1 := Visits(env, w, Applies(s, now), Plan(s), n).0;
            ServesOn(env, w1.calls) && Copying(s, w1.objs, k, n)
  {
    hide ApplyOne, DeleteOne, Plan, Copying;
    if n > TokenIndex(s) + 1 {
      CopyingVisits(env, w, s, now, k, n - 1);
      CopyingVisit(env, Visits(env, w, Applies(s, now), Plan(s), n - 1).0, s, now, k, n - 1);
    }
  }

  /**
   From call `c` on: the account and the tenant's namespace vanish if they are on their way out, calls are
   rejected up to the visit of the tenant's namespace, and served from then on.
  */
  ghost predicate CopyIsServed(env: Env, c: nat, s: Setup) {
    && env.event(c).fate.Rejected? && env.event(c).vanishing == {ACCOUNT, NamespaceLoc(WORKLOAD, s.ns)}
    && Rejects(env, c + 1, c + TokenIndex(s) + 1) && ServesOn(env, c + TokenIndex(s) + 1)
  }

  lemma ClashBegins(env: Env, w: World, s: Setup, now: int, k: nat)
    requires CopyIsServed(env, w.calls, s) && k > TokenIndex(s)
    requires !Firm(w.objs, ACCOUNT) && TokenLoc(s) !in w.objs && SourceLoc(s, TOKEN_SECRET) in w.objs
    ensures var w1 := ApplyOne(env, w, s.instance, now, MCP_HOME_OBJECT).0;
            w1.calls == w.calls + 1 && Copying(s, w1.objs, k, 0)
  {
  }

  lemma ClashLosesReference(env: Env, w: World, s: Setup, now: int)
    requires CopyIsServed(env, w.calls, s)
    requires !Firm(w.objs, ACCOUNT) && TokenLoc(s) !in w.objs && Clashes(s, w.objs)
    ensures Deserted(ApplyPass(env, w, s, now).world.objs, TokenLoc(s))
  {
    hide ApplyOne, DeleteOne, Plan, Cleanup;
    var mode, plan, c := Applies(s, now), Plan(s), TenantCleaner(s);
    var k := ClashIndex(s);
    PlanStart(s);
    assert Visits(env, w, mode, plan, 0).0 == w;
    ClashBegins(env, w, s, now, k);
    RejectedVisits(env, w, mode, plan, 1, TokenIndex(s) + 1);
    CopyingVisits(env, w, s, now, k, |plan|);
    var last := Visited(env, w, s, now);
    CleanupFades(env, last, c);
    assert c.keep[|s.pullSecrets|] == TOKEN_SECRET;
    CleanupSpares(env, last, c, TokenLoc(s));
    PassEndsWithCleanup(env, w, s, now);
  }

  // ----- exactly -----

  /** No Apply pass from this store, whatever its calls go through, ends with the account absent or on its way out. */
  ghost predicate ApplyKeepsReference(s: Setup, objs: Objects) {
    forall env: Env, w: World, now: int :: w.objs == objs ==>
      Refers(ApplyPass(env, w, s, now).world.objs, TokenLoc(s))
  }

  /** No Apply pass from this store, whatever its calls go through, ends with a token secret without its account. */
  ghost predicate ApplyNeverDeserts(s: Setup, objs: Objects) {
    forall env: Env, w: World, now: int :: w.objs == objs ==>
      !Deserted(ApplyPass(env, w, s, now).world.objs, TokenLoc(s))
  }

  lemma UnsafeStartDeserts(s: Setup, objs: Objects) returns (env: Env)
    requires Refers(objs, TokenLoc(s)) && !SafeStart(s, objs)
    ensures Deserted(ApplyPass(env, World(objs, 0), s, 0).world.objs, TokenLoc(s))
  {
    var k := TokenIndex(s);
    if Clashes(s, objs) {
      var vanishing := {ACCOUNT, NamespaceLoc(WORKLOAD, s.ns)};
      env := Scripted(c => Event(if c <= k then Rejected else Fate.Served, if c == 0 then vanishing else {}, {},
                                 Token("", 0)));
      ClashLosesReference(env, World(objs, 0), s, 0);
    } else {
      env := Scripted(c => Event(if k <= c < k + 4 then Fate.Served else Rejected,
                                 if c == k + 4 then {ACCOUNT} else {}, {}, Token("", 0)));
      LeavingAccountLosesReference(env, World(objs, 0), s, 0);
    }
  }

  /**
   From a store in which the token secret has its account, Apply passes leave it with its account in every
   environment exactly when the start is safe; and then the account is not even on its way out.
  */
  lemma ReferenceKeptExactly(s: Setup, objs: Objects)
    requires Refers(objs, TokenLoc(s))
    ensures ApplyNeverDeserts(s, objs) <==> SafeStart(s, objs)
    ensures ApplyKeepsReference(s, objs) <==> SafeStart(s, objs)
  {
    hide ApplyPass, SafeStart;
    if SafeStart(s, objs) {
      forall env: Env, w: World, now: int | w.objs == objs
        ensures Refers(ApplyPass(env, w, s, now).world.objs, TokenLoc(s))
        ensures !Deserted(ApplyPass(env, w, s, now).world.objs, TokenLoc(s))
      {
        SafeStartKeepsReference(env, w, s, now);
      }
    } else {
      var env := UnsafeStartDeserts(s, objs);
      var after := ApplyPass(env, World(objs, 0), s, 0).world.objs;
      assert !Refers(after, TokenLoc(s));
    }
  }

  // ----- runs -----

  lemma ReportsKeepReference(w: World, ready: map<Loc, int>, token: Loc)
    requires Refers(w.objs, token)
    ensures Refers(Reported(w, ready).objs, token)
  {
  }

  /**
   Referential integrity in every reachable state: in any run of Apply and Delete passes for one tenant,
   with changing specs and configurations and any fate of every call, the token secret has its account, if
   only Apply passes have a safe start.
  */
  lemma {:induction false} TokenSecretHasAccount(env: Env, w: World, steps: seq<Step>, ns: string)
    requires forall i :: 0 <= i < |steps| ==> steps[i].setup.ns == ns
    requires forall i :: 0 <= i < |steps| && !steps[i].deleting ==>
                           SafeStart(steps[i].setup, StartOf(env, w, steps, i).objs)
    requires Refers(w.objs, TenantLoc(ns, Secret, TOKEN_SECRET))
    ensures Refers(Execute(env, w, steps).objs, TenantLoc(ns, Secret, TOKEN_SECRET))
  {
    hide Pass, SafeStart, Refers;
    if steps != [] {
      var front, st := Front(steps), Last(steps);
      forall i | 0 <= i < |front| && !front[i].deleting
        ensures SafeStart(front[i].setup, StartOf(env, w, front, i).objs)
      {
        assert front[..i] == steps[..i];
        assert SafeStart(steps[i].setup, StartOf(env, w, steps, i).objs);
      }
      TokenSecretHasAccount(env, w, front, ns);
      assert steps[..|steps| - 1] == front;
      var start := StartOf(env, w, steps, |steps| - 1);
      ReportsKeepReference(Execute(env, w, front), st.ready, TokenLoc(st.setup));
      if st.deleting {
        DeletePassKeepsReference(env, start, st.setup);
      } else {
        SafeStartKeepsReference(env, start, st.setup, st.now);
      }
    }
  }

  // ----- runs without lingering deletions -----

  /** The account is absent or firm. */
  ghost predicate AbsentOrFirm(objs: Objects) {
    ACCOUNT in objs ==> Firm(objs, ACCOUNT)
  }

  lemma BriskDelete(env: Env, w: World, l: Loc)
    requires Brisk(env, w.calls) && AbsentOrFirm(w.objs)
    ensures AbsentOrFirm(Delete(env, w, l).0.objs)
  {
    DeleteFades(env, w, l);
    if Firm(w.objs, ACCOUNT) {
      VanishKeepsFirm(w.objs, env.event(w.calls).vanishing, ACCOUNT);
    }
  }

  lemma BriskDeletion(env: Env, w: World, plan: seq<Managed>, m: Managed)
    requires Brisk(env, w.calls) && AbsentOrFirm(w.objs)
    ensures AbsentOrFirm(DeleteOne(env, w, plan, m).0.objs)
  {
    CheckFades(env, w, Dependents(plan, m));
    if Firm(w.objs, ACCOUNT) {
      CheckKeepsFirm(env, w, Dependents(plan, m), ACCOUNT);
    }
    BriskDelete(env, CheckForDependents(env, w, Dependents(plan, m)).0, m.loc);
  }

  lemma {:induction false} BriskDeletions(env: Env, w: World, plan: seq<Managed>, n: nat)
    requires n <= |plan| && Brisk(env, w.calls) && AbsentOrFirm(w.objs)
    ensures AbsentOrFirm(Visits(env, w, Deleting, plan, n).0.objs)
  {
    hide DeleteOne, ApplyOne;
    if n > 0 {
      BriskDeletions(env, w, plan, n - 1);
      BriskDeletion(env, Visits(env, w, Deleting, plan, n - 1).0, plan, plan[n - 1]);
    }
  }

  lemma CleanupKeepsSettled(env: Env, w: World, s: Setup)
    requires AbsentOrFirm(w.objs)
    ensures AbsentOrFirm(Cleanup(env, w, TenantCleaner(s)).0.objs)
  {
    hide Cleanup;
    CleanupFades(env, w, TenantCleaner(s));
    if ACCOUNT in w.objs {
      CleanupSpares(env, w, TenantCleaner(s), ACCOUNT);
    }
  }

  lemma BriskPassKeepsSettled(env: Env, w: World, st: Step)
    requires Brisk(env, w.calls) && TokenNameIsFree(st.setup)
    requires AbsentOrFirm(w.objs) && Refers(w.objs, TokenLoc(st.setup))
    ensures AbsentOrFirm(Pass(env, w, ModeOf(st), Plan(st.setup), CleanersFor(st.setup)).world.objs)
  {
    hide DeleteOne, ApplyOne, Cleanup, Plan;
    var s, mode := st.setup, ModeOf(st);
    var (last, results) := Visits(env, w, mode, Plan(s), |Plan(s)|);
    if st.deleting {
      BriskDeletions(env, w, Plan(s), |Plan(s)|);
    } else {
      VisitsKeepSettling(env, w, s, st.now, |Plan(s)|);
    }
    CleanupKeepsSettled(env, last, s);
    OneCleaner(env, Report(last, results, false), s);
  }

  lemma ReportsKeepSettled(w: World, ready: map<Loc, int>)
    requires AbsentOrFirm(w.objs)
    ensures AbsentOrFirm(Reported(w, ready).objs)
  {
  }

  /**
   The same from hypotheses on the start alone: when no deletion lingers, no pull secret has the token secret's
   name and the account is absent or firm, every run of Apply and Delete passes keeps the reference.
  */
  lemma {:induction false} BriskRunKeepsReference(env: Env, w: World, steps: seq<Step>, ns: string)
    requires forall i :: 0 <= i < |steps| ==> steps[i].setup.ns == ns && TokenNameIsFree(steps[i].setup)
    requires Brisk(env, w.calls) && AbsentOrFirm(w.objs) && Refers(w.objs, TenantLoc(ns, Secret, TOKEN_SECRET))
    ensures var after := Execute(env, w, steps);
            && after.calls >= w.calls && AbsentOrFirm(after.objs)
            && Refers(after.objs, TenantLoc(ns, Secret, TOKEN_SECRET))
  {
    hide Pass, Firm;
    if steps != [] {
      var front, st := Front(steps), Last(steps);
      BriskRunKeepsReference(env, w, front, ns);
      var start := Reported(Execute(env, w, front), st.ready);
      ReportsKeepReference(Execute(env, w, front), st.ready, TokenLoc(st.setup));
      ReportsKeepSettled(Execute(env, w, front), st.ready);
      BriskPassKeepsSettled(env, start, st);
      if st.deleting {
        DeletePassKeepsReference(env, start, st.setup);
      } else {
        SafeStartKeepsReference(env, start, st.setup, st.now);
      }
    }
  }

  // ----- a run that loses the reference -----

  /** The calls of a Delete pass that manages to delete the account only, and its deletion lingers. */
  function AccountCalls(s: Setup): nat {
    |Dependents(Plan(s), ACCOUNT_OBJECT)| + 1
  }

  function DeletionCalls(s: Setup): nat {
    PlanStart(s);
    AccountCalls(s) + Efforts(Plan(s), 2, |Plan(s)|) + 1
  }

  ghost predicate AccountLingers(env: Env, s: Setup) {
    && Serves(env, 0, AccountCalls(s)) && Rejects(env, AccountCalls(s), DeletionCalls(s))
    && ACCOUNT in env.event(AccountCalls(s) - 1).lingering
  }

  lemma AccountIsMarked(env: Env, w: World, s: Setup)
    requires AccountLingers(env, s) && w.calls == 0 && ACCOUNT in w.objs && TokenLoc(s) !in w.objs
    ensures DeleteOne(env, w, Plan(s), ACCOUNT_OBJECT).0 == World(Marked(w.objs, ACCOUNT), AccountCalls(s))
  {
    hide Plan;
    var deps := Dependents(Plan(s), ACCOUNT_OBJECT);
    forall y | y in deps
      ensures y.loc !in w.objs
    {
      DependentIff(Plan(s), ACCOUNT_OBJECT, y);
      OnlyDependency(s, y, ACCOUNT_OBJECT);
    }
    ServedCheck(env, w, deps);
    StillTick(env, World(w.objs, |deps|));
  }

  lemma McpHomeIsEffortless(s: Setup)
    ensures |Plan(s)| > 0 && Efforts(Plan(s), 0, 1) == 0
  {
    hide Plan;
    PlanStart(s);
    DependentsAt(s, 0);
  }

  lemma LingeringDeletePass(env: Env, w: World, s: Setup)
    requires AccountLingers(env, s) && w.calls == 0 && ACCOUNT in w.objs && TokenLoc(s) !in w.objs
    ensures Pass(env, w, Deleting, Plan(s), CleanersFor(s)).world == World(Marked(w.objs, ACCOUNT), DeletionCalls(s))
  {
    hide DeleteOne, ApplyOne, Plan, Cleanup, Effort, Dependents;
    var plan := Plan(s);
    PlanStart(s);
    assert Visits(env, w, Deleting, plan, 0).0 == w;
    McpHomeIsEffortless(s);
    RejectedDeletions(env, w, plan, 0, 1);
    AccountIsMarked(env, w, s);
    RejectedDeletions(env, w, plan, 2, |plan|);
    var (last, results) := Visits(env, w, Deleting, plan, |plan|);
    RejectedCleanup(env, last, TenantCleaner(s));
    OneCleaner(env, Report(last, results, false), s);
  }

  /**
   Why a safe start is needed in a run: when the account's deletion lingers after a Delete pass, the
   next Apply pass can create a token secret whose account then goes away - for every setup.
  */
  lemma LingeringAccountLosesReference(s: Setup, now: int) returns (env: Env, w: World, steps: seq<Step>)
    ensures Calm(w.objs) && Housed(w.objs) && Refers(w.objs, TokenLoc(s))
    ensures steps == [Step(s, true, now, map[]), Step(s, false, now, map[])]
    ensures Deserted(Execute(env, w, steps).objs, TokenLoc(s))
  {
    hide Pass, Efforts, Dependents, Plan;
    var g, c := AccountCalls(s), DeletionCalls(s);
    var k := c + TokenIndex(s);
    env := Scripted(n => Event(if n < g || k <= n < k + 4 then Fate.Served else Rejected,
                               if n == k + 4 then {ACCOUNT} else {}, {ACCOUNT}, Token("", 0)));
    w := World(map[MCP_HOME := STORED, ACCOUNT := STORED, NamespaceLoc(WORKLOAD, s.ns) := STORED], 0);
    steps := [Step(s, true, now, map[]), Step(s, false, now, map[])];
    LingeringDeletePass(env, w, s);
    var w1 := World(Marked(w.objs, ACCOUNT), c);
    assert Reported(w, map[]) == w && Reported(w1, map[]) == w1;
    assert Front(steps) == [steps[0]] && Front([steps[0]]) == [];
    assert Execute(env, w, [steps[0]]) == w1;
    LeavingAccountLosesReference(env, w1, s, now);
  }
}
