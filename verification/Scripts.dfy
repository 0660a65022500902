/** Passes in scripted environments: which calls a pass makes, and what it does when they are rejected. */
module Scripts {
  import opened Basics
  import opened ApiServer
  import opened Passes

  /** The calls `from` up to `to` are rejected, and nothing vanishes meanwhile. */
  ghost predicate Rejects(env: Env, from: nat, to: nat) {
    forall c: nat :: from <= c < to ==> env.event(c).fate.Rejected? && env.event(c).vanishing == {}
  }

  /** The calls `from` up to `to` are served, and nothing vanishes meanwhile. */
  ghost predicate Serves(env: Env, from: nat, to: nat) {
    forall c: nat :: from <= c < to ==> env.event(c).fate.Served? && env.event(c).vanishing == {}
  }

  /** An environment with the given events. */
  ghost function Scripted(event: nat -> Event): Env {
    var order: Listing := locs => SomeOrder(locs);
    Env(event, order)
  }

  lemma StillTick(env: Env, w: World)
    requires env.event(w.calls).vanishing == {}
    ensures Tick(env, w) == World(w.objs, w.calls + 1)
  {
    assert Vanish(w.objs, {}) == w.objs;
  }

  // ----- Apply passes -----

  /** A rejected visit of an Apply pass makes one call and changes nothing. */
  lemma {:induction false} RejectedVisits(env: Env, w: World, mode: Mode, plan: seq<Managed>, i: nat, n: nat)
    requires mode.Applying? && i <= n <= |plan|
    requires var c := Visits(env, w, mode, plan, i).0.calls; Rejects(env, c, c + (n - i))
    ensures var a, b := Visits(env, w, mode, plan, i).0, Visits(env, w, mode, plan, n).0;
            b == World(a.objs, a.calls + (n - i))
  {
    hide Gather, Shape, DeleteOne;
    if i < n {
      RejectedVisits(env, w, mode, plan, i, n - 1);
      StillTick(env, Visits(env, w, mode, plan, n - 1).0);
    }
  }

  // ----- Delete passes -----

  /** The number of calls of a rejected visit of a Delete pass. */
  function Effort(plan: seq<Managed>, m: Managed): nat {
    if Dependents(plan, m) != [] then |Dependents(plan, m)| else if m.policy.DeletePolicy? then 1 else 0
  }

  function Efforts(plan: seq<Managed>, i: nat, n: nat): nat
    requires i <= n <= |plan|
  {
    if i == n then 0 else Efforts(plan, i, n - 1) + Effort(plan, plan[n - 1])
  }

  lemma {:induction false} RejectedCheck(env: Env, w: World, deps: seq<Managed>)
    requires Rejects(env, w.calls, w.calls + |deps|)
    ensures var (w1, causes) := CheckForDependents(env, w, deps);
            w1 == World(w.objs, w.calls + |deps|) && |causes| == |deps|
  {
    if deps != [] {
      RejectedCheck(env, w, Front(deps));
      StillTick(env, CheckForDependents(env, w, Front(deps)).0);
    }
  }

  /** A served check of dependents that do not exist finds nothing to complain about. */
  lemma {:induction false} ServedCheck(env: Env, w: World, deps: seq<Managed>)
    requires Serves(env, w.calls, w.calls + |deps|)
    requires forall x :: x in deps ==> x.loc !in w.objs
    ensures CheckForDependents(env, w, deps) == (World(w.objs, w.calls + |deps|), [])
  {
    if deps != [] {
      ServedCheck(env, w, Front(deps));
      StillTick(env, CheckForDependents(env, w, Front(deps)).0);
    }
  }

  lemma RejectedDeletion(env: Env, w: World, plan: seq<Managed>, m: Managed)
    requires Rejects(env, w.calls, w.calls + Effort(plan, m))
    ensures DeleteOne(env, w, plan, m).0 == World(w.objs, w.calls + Effort(plan, m))
  {
    RejectedCheck(env, w, Dependents(plan, m));
    if Dependents(plan, m) == [] && m.policy.DeletePolicy? {
      StillTick(env, w);
    }
  }

  lemma {:induction false} RejectedDeletions(env: Env, w: World, plan: seq<Managed>, i: nat, n: nat)
    requires i <= n <= |plan|
    requires var c := Visits(env, w, Deleting, plan, i).0.calls; Rejects(env, c, c + Efforts(plan, i, n))
    ensures var a, b := Visits(env, w, Deleting, plan, i).0, Visits(env, w, Deleting, plan, n).0;
            b == World(a.objs, a.calls + Efforts(plan, i, n))
  {
    hide DeleteOne, ApplyOne, Effort;
    if i < n {
      RejectedDeletions(env, w, plan, i, n - 1);
      RejectedDeletion(env, Visits(env, w, Deleting, plan, n - 1).0, plan, plan[n - 1]);
    }
  }
}
