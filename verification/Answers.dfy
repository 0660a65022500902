/** What the results of checks, visits and passes tell, reply by reply and call by call. */
module Answers {
  import opened Basics
  import opened ApiServer
  import opened Passes
  import opened Deletion

  // ----- the dependents check -----

  lemma {:induction false} CheckTakesCalls(env: Env, w: World, deps: seq<Managed>)
    ensures CheckForDependents(env, w, deps).0.calls == w.calls + |deps|
  {
    if deps != [] {
      CheckTakesCalls(env, w, Front(deps));
    }
  }

  /** Reply `i` answers a lookup of dependent `i`, the call number `i` of the check. */
  lemma {:induction false} RepliesAnswerInOrder(env: Env, w: World, deps: seq<Managed>, i: nat) returns (u: World)
    requires i < |deps|
    ensures CheckForDependents(env, w, deps).0.calls == w.calls + |deps|
    ensures |Replies(env, w, deps)| == |deps|
    ensures u.calls == w.calls + i && Replies(env, w, deps)[i] == Get(env, u, deps[i].loc).1
  {
    hide Get;
    CheckTakesCalls(env, w, deps);
    CheckTakesCalls(env, w, Front(deps));
    CheckPassesExactly(env, w, deps);
    CheckPassesExactly(env, w, Front(deps));
    if i < |deps| - 1 {
      u := RepliesAnswerInOrder(env, w, Front(deps), i);
    } else {
      u := CheckForDependents(env, w, Front(deps)).0;
    }
  }

  /** The causes come from the dependents at these positions: all whose reply was not "not found", in order. */
  ghost predicate CausesAt(deps: seq<Managed>, replies: seq<Reply>, causes: seq<Cause>, at: seq<nat>) {
    && |replies| == |deps| && |at| == |causes|
    && (forall a, b :: 0 <= a < b < |at| ==> at[a] < at[b])
    && (forall i :: 0 <= i < |deps| ==> (i in at <==> replies[i] != Missing))
    && forall a :: 0 <= a < |at| ==>
         && at[a] < |deps|
         && (replies[at[a]].Found? ==> causes[a] == StillExists(deps[at[a]].loc))
         && (replies[at[a]].Failed? ==> causes[a] == LookupFailed(deps[at[a]].loc))
  }

  lemma CausesNext(
    deps: seq<Managed>, replies: seq<Reply>, causes: seq<Cause>, at: seq<nat>, m: Managed, reply: Reply,
    next: seq<Cause>)
    requires CausesAt(deps, replies, causes, at)
    requires reply == Missing ==> next == causes
    requires reply.Found? ==> next == causes + [StillExists(m.loc)]
    requires reply.Failed? ==> next == causes + [LookupFailed(m.loc)]
    ensures CausesAt(deps + [m], replies + [reply], next, if reply == Missing then at else at + [|deps|])
  {
    var n, all, later := |deps|, replies + [reply], deps + [m];
    assert all[n] == reply && later[n] == m;
    assert forall i :: 0 <= i < n ==> all[i] == replies[i] && later[i] == deps[i];
    assert n !in at;
    if reply != Missing {
      var at' := at + [n];
      assert forall i :: i in at' <==> i in at || i == n;
      assert forall a :: 0 <= a < |at| ==> at'[a] == at[a] && next[a] == causes[a];
      assert at'[|at|] == n;
    }
  }

  /** The reply to the last lookup of a check. */
  function LastReply(env: Env, w: World, deps: seq<Managed>): Reply
    requires deps != []
  {
    Get(env, CheckForDependents(env, w, Front(deps)).0, Last(deps).loc).1
  }

  lemma CheckStep(env: Env, w: World, deps: seq<Managed>)
    requires deps != []
    ensures Replies(env, w, deps) == Replies(env, w, Front(deps)) + [LastReply(env, w, deps)]
    ensures CheckForDependents(env, w, deps).1 ==
            CheckForDependents(env, w, Front(deps)).1 +
            match LastReply(env, w, deps)
            case Missing => []
            case Failed => [LookupFailed(Last(deps).loc)]
            case Found(_) => [StillExists(Last(deps).loc)]
  {
    hide Get;
  }

  lemma FrontLast(s: seq<Managed>)
    requires s != []
    ensures Front(s) + [Last(s)] == s
  {
  }

  /** One cause for every dependent that was found or could not be looked up, in order, and it says which. */
  lemma {:induction false} CausesTell(env: Env, w: World, deps: seq<Managed>) returns (at: seq<nat>)
    ensures CausesAt(deps, Replies(env, w, deps), CheckForDependents(env, w, deps).1, at)
  {
    at := [];
    if deps != [] {
      hide *;
      at := CausesTell(env, w, Front(deps));
      var reply := LastReply(env, w, deps);
      CheckStep(env, w, deps);
      assert Front(deps) + [Last(deps)] == deps by { FrontLast(deps); }
      CausesNext(Front(deps), Replies(env, w, Front(deps)), CheckForDependents(env, w, Front(deps)).1, at, Last(deps),
                 reply, CheckForDependents(env, w, deps).1);
      at := if reply == Missing then at else at + [|Front(deps)|];
    }
  }

  /** Reply `i` is the last one in which `x` was found. */
  ghost predicate FoundLast(deps: seq<Managed>, replies: seq<Reply>, x: Managed, i: int) {
    && 0 <= i < |deps| == |replies| && deps[i] == x && replies[i].Found?
    && forall j :: i < j < |deps| && deps[j] == x ==> !replies[j].Found?
  }

  ghost predicate NeverFound(deps: seq<Managed>, replies: seq<Reply>, x: Managed) {
    |replies| == |deps| && forall i :: 0 <= i < |deps| && deps[i] == x ==> !replies[i].Found?
  }

  /** In memory is what was found last; what was not found stays as it was. */
  ghost predicate LoadedBy(
    deps: seq<Managed>, replies: seq<Reply>, memory: map<Managed, Obj>, loaded: map<Managed, Obj>, x: Managed)
  {
    && (forall i :: FoundLast(deps, replies, x, i) ==> x in loaded && loaded[x] == replies[i].obj)
    && (NeverFound(deps, replies, x) ==> (x in loaded <==> x in memory) && (x in memory ==> loaded[x] == memory[x]))
  }

  lemma FoundBefore(deps: seq<Managed>, replies: seq<Reply>, m: Managed, reply: Reply, x: Managed, i: int)
    requires |replies| == |deps| && FoundLast(deps + [m], replies + [reply], x, i)
    ensures i == |deps| ==> m == x && reply.Found?
    ensures i != |deps| ==> 0 <= i < |deps| && FoundLast(deps, replies, x, i) && (m == x ==> !reply.Found?)
  {
    var n, later, next := |deps|, deps + [m], replies + [reply];
    assert later[n] == m && next[n] == reply && i <= n;
    assert forall j :: 0 <= j < n ==> later[j] == deps[j] && next[j] == replies[j];
  }

  lemma NeverFoundBefore(deps: seq<Managed>, replies: seq<Reply>, m: Managed, reply: Reply, x: Managed)
    requires |replies| == |deps| && NeverFound(deps + [m], replies + [reply], x)
    ensures NeverFound(deps, replies, x) && (m == x ==> !reply.Found?)
  {
    var n, later, next := |deps|, deps + [m], replies + [reply];
    assert later[n] == m && next[n] == reply;
    assert forall j :: 0 <= j < n ==> later[j] == deps[j] && next[j] == replies[j];
  }

  lemma FoundIsReply(deps: seq<Managed>, replies: seq<Reply>, x: Managed, i: int)
    requires FoundLast(deps, replies, x, i)
    ensures 0 <= i < |replies| && replies[i].Found?
  {
  }

  lemma LoadedNext(
    deps: seq<Managed>, replies: seq<Reply>, memory: map<Managed, Obj>, loaded: map<Managed, Obj>, m: Managed,
    reply: Reply, x: Managed)
    requires |replies| == |deps| && LoadedBy(deps, replies, memory, loaded, x)
    ensures LoadedBy(deps + [m], replies + [reply], memory,
                     if reply.Found? then loaded[m := reply.obj] else loaded, x)
  {
    hide FoundLast, NeverFound;
    var next, after := replies + [reply], if reply.Found? then loaded[m := reply.obj] else loaded;
    forall i | FoundLast(deps + [m], next, x, i)
      ensures 0 <= i < |next| && next[i].Found? && x in after && after[x] == next[i].obj
    {
      FoundBefore(deps, replies, m, reply, x, i);
      FoundIsReply(deps + [m], next, x, i);
    }
    if NeverFound(deps + [m], next, x) {
      NeverFoundBefore(deps, replies, m, reply, x);
    }
  }

  /** What a check leaves in memory. */
  lemma {:induction false} LoadsTell(env: Env, w: World, deps: seq<Managed>, memory: map<Managed, Obj>, x: Managed)
    ensures LoadedBy(deps, Replies(env, w, deps), memory, Loads(env, w, deps, memory), x)
  {
    if deps != [] {
      hide Get, LoadedBy, CheckForDependents;
      LoadsTell(env, w, Front(deps), memory, x);
      CheckPassesExactly(env, w, Front(deps));
      var replies, loaded := Replies(env, w, Front(deps)), Loads(env, w, Front(deps), memory);
      LoadedNext(Front(deps), replies, memory, loaded, Last(deps), LastReply(env, w, deps), x);
      FrontLast(deps);
    }
  }

  // ----- one visit -----

  /** What the visit of a Delete pass answers, and when: blocked, orphaned, gone, requested or failed. */
  lemma DeletionTells(env: Env, w: World, plan: seq<Managed>, m: Managed)
    ensures var (after, result) := DeleteOne(env, w, plan, m);
            var (checked, causes) := CheckForDependents(env, w, Dependents(plan, m));
            var calls, served := m.policy == DeletePolicy && causes == [], env.event(checked.calls).fate.Served?;
            && result.managed == m && result.observed == BLANK
            && after.calls == checked.calls + (if calls then 1 else 0)
            && (!calls ==> after == checked)
            && (result.op == Unchanged <==> causes != [])
            && (result.op == Deleted <==>
                  causes == [] && (m.policy == OrphanPolicy || (served && m.loc !in Tick(env, checked).objs)))
            && (result.op == DeletionRequested <==> result.op != Unchanged && result.op != Deleted)
            && (causes != [] ==> result.error == Some(Blocked(causes)))
            && (causes == [] ==> (result.error == Some(CallFailed) <==> calls && !served))
            && (causes == [] ==> (result.error == None <==> !calls || served))
  {
    hide CheckForDependents, Dependents;
  }

  /** What a reconcile function obtains, and when: by the calls it makes and what exists when it makes them. */
  lemma InputsTell(env: Env, w: World, now: int, recipe: Recipe, obj: Obj)
    ensures var (after, given) := Gather(env, w, now, recipe, obj);
            var u := Tick(env, w);
            var v := Tick(env, u);
            match recipe
            case TokenFor(account, _, _, poll) =>
              var found := env.event(w.calls).fate.Served? && account in u.objs;
              if !TokenDue(now, poll, obj.expires) then after == w && given == Some(Nothing)
              else
                && after.calls == w.calls + (if found then 2 else 1)
                && (given.Some? <==> found && env.event(u.calls).fate.Served? && account in v.objs)
                && (given.Some? ==> given.value == Minted(env.event(w.calls + 1).token))
            case CopyOf(source) =>
              && after.calls == w.calls + 1
              && (given.Some? <==> env.event(w.calls).fate.Served? && source in u.objs)
              && (given.Some? ==> given.value == Source(u.objs[source].data))
            case _ => after == w && given == Some(Nothing)
  {
  }

  /** The fields that only the server writes. */
  ghost predicate SameServerFields(a: Obj, b: Obj) {
    a.uid == b.uid && a.terminating == b.terminating && a.ready == b.ready
  }

  lemma ShapeKeepsServerFields(instance: string, recipe: Recipe, given: Given, obj: Obj)
    ensures SameServerFields(Shape(instance, recipe, given, obj), obj)
  {
  }

  lemma VanishKeepsObjects(objs: Objects, request: set<Loc>, l: Loc)
    ensures l in Vanish(objs, request) ==> l in objs && Vanish(objs, request)[l] == objs[l]
  {
  }

  lemma GatherKeepsObjects(env: Env, w: World, now: int, recipe: Recipe, obj: Obj, l: Loc)
    ensures var objs := Gather(env, w, now, recipe, obj).0.objs; l in objs ==> l in w.objs && objs[l] == w.objs[l]
  {
    hide Vanish;
    VanishKeepsObjects(w.objs, env.event(w.calls).vanishing, l);
    VanishKeepsObjects(Tick(env, w).objs, env.event(w.calls + 1).vanishing, l);
  }

  /**
   What the visit of an Apply pass answers, and when: an object that was not found is created, one that
   was found is updated unless it is as desired; the error tells a failed call from failed inputs.
  */
  lemma ApplicationTells(env: Env, w: World, instance: string, now: int, m: Managed)
    ensures var (after, result) := ApplyOne(env, w, instance, now, m);
            var (w1, reply) := Get(env, w, m.loc);
            var inputs := Gather(env, w1, now, m.recipe, if reply.Found? then reply.obj else BLANK).1;
            && result.managed == m
            && (result.error == Some(ReconcileFailed) <==> !reply.Failed? && inputs.None?)
            && (result.error.Some? ==> result.op == Unchanged && result.error.value in {ReconcileFailed, CallFailed})
            && (result.error.None? ==>
                  && !reply.Failed?
                  && (result.op == Created <==> reply.Missing?)
                  && (result.op == Unchanged <==> reply.Found? && result.observed == reply.obj)
                  && (result.op == Updated <==> reply.Found? && result.observed != reply.obj)
                  && (result.op == Created ==>
                        result.observed.uid != 0 && !result.observed.terminating && result.observed.ready == 0)
                  && (result.op == Updated ==> SameServerFields(result.observed, reply.obj))
                  && (result.op != Unchanged ==> m.loc in after.objs && after.objs[m.loc] == result.observed))
  {
    hide Shape, Gather, Vanish;
    var (w1, reply) := Get(env, w, m.loc);
    var base := if reply.Found? then reply.obj else BLANK;
    var (w2, given) := Gather(env, w1, now, m.recipe, base);
    if !reply.Failed? && given.Some? {
      ShapeKeepsServerFields(instance, m.recipe, given.value, base);
      GatherKeepsObjects(env, w1, now, m.recipe, base, m.loc);
      VanishKeepsObjects(w2.objs, env.event(w2.calls).vanishing, m.loc);
    }
  }

  // ----- a whole pass -----

  /** Every visit works on the store that its predecessor left. */
  ghost predicate VisitChain(env: Env, mode: Mode, plan: seq<Managed>, worlds: seq<World>, results: seq<Result>) {
    && |worlds| == |results| + 1 && |results| <= |plan|
    && forall i :: 0 <= i < |results| ==> Visit(env, worlds[i], mode, plan, plan[i]) == (worlds[i + 1], results[i])
  }

  lemma {:induction false} VisitsAreAChain(env: Env, w: World, mode: Mode, plan: seq<Managed>, n: nat)
    returns (worlds: seq<World>)
    requires n <= |plan|
    ensures var (after, results) := Visits(env, w, mode, plan, n);
            VisitChain(env, mode, plan, worlds, results) && |results| == n && worlds[0] == w && worlds[n] == after
  {
    hide Visit;
    worlds := [w];
    if n > 0 {
      var before := VisitsAreAChain(env, w, mode, plan, n - 1);
      worlds := before + [Visits(env, w, mode, plan, n).0];
    }
  }

  function Joined(parts: seq<seq<Result>>): seq<Result> {
    if parts == [] then [] else Joined(Front(parts)) + Last(parts)
  }

  /** Every cleaner succeeds, and works on the store that its predecessor left. */
  ghost predicate CleanerChain(env: Env, cs: seq<Cleaner>, worlds: seq<World>, parts: seq<seq<Result>>) {
    && |worlds| == |parts| + 1 && |parts| <= |cs|
    && forall i :: 0 <= i < |parts| ==> Cleanup(env, worlds[i], cs[i]) == (worlds[i + 1], Some(parts[i]))
  }

  /** Cleaners run in order; the first one that fails is the last to be run, and adds nothing to the results. */
  lemma {:induction false} CleanersRunUntilOneFails(env: Env, start: Report, cs: seq<Cleaner>, n: nat)
    returns (worlds: seq<World>, parts: seq<seq<Result>>)
    requires n <= |cs| && !start.failed
    ensures var end, k := Cleanups(env, start, cs, n), |parts|;
            && CleanerChain(env, cs, worlds, parts) && worlds[0] == start.world && k <= n
            && end.results == start.results + Joined(parts)
            && (end.failed <==> k < n)
            && (if end.failed then Cleanup(env, worlds[k], cs[k]) == (end.world, None) else end.world == worlds[k])
  {
    hide Cleanup;
    worlds, parts := [start.world], [];
    if n > 0 {
      worlds, parts := CleanersRunUntilOneFails(env, start, cs, n - 1);
      var before, end := Cleanups(env, start, cs, n - 1), Cleanups(env, start, cs, n);
      if !end.failed {
        var part := Cleanup(env, before.world, cs[n - 1]).1.value;
        assert Front(parts + [part]) == parts;
        worlds, parts := worlds + [end.world], parts + [part];
      }
    }
  }

  /**
   A pass step by step: one visit per registered object, in registration order, and then the cleaners until
   one of them fails - each on the store that the step before it left.
  */
  lemma PassStepByStep(env: Env, w: World, mode: Mode, plan: seq<Managed>, cs: seq<Cleaner>)
    returns (visits: seq<World>, results: seq<Result>, cleanups: seq<World>, parts: seq<seq<Result>>)
    ensures var end, n, k := Pass(env, w, mode, plan, cs), |plan|, |parts|;
            && VisitChain(env, mode, plan, visits, results) && |results| == n && visits[0] == w
            && CleanerChain(env, cs, cleanups, parts) && cleanups[0] == visits[n]
            && end.results == results + Joined(parts)
            && (end.failed <==> k < |cs|)
            && (if end.failed then Cleanup(env, cleanups[k], cs[k]) == (end.world, None) else end.world == cleanups[k])
  {
    hide Visit, Cleanup;
    visits := VisitsAreAChain(env, w, mode, plan, |plan|);
    results := Visits(env, w, mode, plan, |plan|).1;
    cleanups, parts := CleanersRunUntilOneFails(env, Report(visits[|plan|], results, false), cs, |cs|);
  }
}
