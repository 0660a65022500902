/**
 What one Apply or Delete pass does, as functions of the store and the environment:
 pkg/resources/manager.go together with the reconcile functions it calls.
*/
module Passes {
  import opened Basics
  import opened Pods
  import opened ApiServer

  // ----- managed objects -----

  datatype Policy = OrphanPolicy | DeletePolicy

  /** The reconcile functions handed to managed objects, with the values they capture. */
  datatype Recipe =
    | NoOp
    | TokenFor(account: Loc, ns: string, ca: string, poll: int)
    | CopyOf(source: Loc)
    | Definition(schema: string)
    | Grant(subject: string, ns: string)
    | Run(replicas: int, podLabels: map<string, string>, pod: Pod)
    | Leftover

  /**
   `id` stands for the identity of the object in memory. Dependencies are fixed when an object is
   made, so they form a finite tree.
  */
  datatype Managed = Managed(id: nat, loc: Loc, policy: Policy, deps: seq<Managed>, recipe: Recipe)

  /** An unset deletion policy means Delete. */
  function NewManaged(id: nat, loc: Loc, policy: Option<Policy>, deps: seq<Managed>, recipe: Recipe): Managed {
    Managed(id, loc, if policy.None? then DeletePolicy else policy.value, deps, recipe)
  }

  // ----- results -----

  datatype Cause = StillExists(loc: Loc) | LookupFailed(loc: Loc)

  datatype Error = Blocked(causes: seq<Cause>) | CallFailed | ReconcileFailed

  datatype Operation = Unchanged | Created | Updated | Deleted | DeletionRequested | DeletionFailed

  const ORPHANED := Deleted

  /** `observed` is the in-memory object an Apply pass reports on. */
  datatype Result = Result(managed: Managed, op: Operation, error: Option<Error>, observed: Obj)

  // ----- dependents -----

  function CountOf(deps: seq<Managed>, d: Managed): nat {
    if deps == [] then 0 else CountOf(Front(deps), d) + (if Last(deps) == d then 1 else 0)
  }

  function Copies(m: Managed, n: nat): seq<Managed> {
    seq(n, _ => m)
  }

  /** The objects that depend on `d`, in visit order, once for every mention. */
  function Dependents(plan: seq<Managed>, d: Managed): seq<Managed> {
    if plan == [] then [] else Dependents(Front(plan), d) + Copies(Last(plan), CountOf(Last(plan).deps, d))
  }

  // ----- deletion -----

  /** Looks every dependent up; anything but "not found" is a cause that blocks. */
  function CheckForDependents(env: Env, w: World, deps: seq<Managed>): (r: (World, seq<Cause>))
    ensures r.0.calls >= w.calls
  {
    if deps == [] then (w, [])
    else
      var (w1, causes) := CheckForDependents(env, w, Front(deps));
      var l := Last(deps).loc;
      var (w2, reply) := Get(env, w1, l);
      (w2, match reply
           case Missing => causes
           case Failed => causes + [LookupFailed(l)]
           case Found(_) => causes + [StillExists(l)])
  }

  /** What the lookups leave in memory: for every dependent the object that was found last. */
  function Loads(env: Env, w: World, deps: seq<Managed>, memory: map<Managed, Obj>): map<Managed, Obj> {
    if deps == [] then memory
    else
      var before := Loads(env, w, Front(deps), memory);
      match Get(env, CheckForDependents(env, w, Front(deps)).0, Last(deps).loc).1
      case Found(obj) => before[Last(deps) := obj]
      case _ => before
  }

  function DeleteOne(env: Env, w: World, plan: seq<Managed>, m: Managed): (r: (World, Result))
    ensures r.0.calls >= w.calls
  {
    var (w1, causes) := CheckForDependents(env, w, Dependents(plan, m));
    if causes != [] then (w1, Result(m, Unchanged, Some(Blocked(causes)), BLANK))
    else if m.policy.OrphanPolicy? then (w1, Result(m, ORPHANED, None, BLANK))
    else
      var (w2, reply) := Delete(env, w1, m.loc);
      (w2, match reply
           case Missing => Result(m, Deleted, None, BLANK)
           case Found(_) => Result(m, DeletionRequested, None, BLANK)
           case Failed => Result(m, DeletionRequested, Some(CallFailed), BLANK))
  }

  // ----- application -----

  const SECOND := 1_000_000_000
  const MINUTE := 60 * SECOND
  const HOUR := 60 * MINUTE

  /** Whether the stored expiration (whole seconds) is too close at time `now` (nanoseconds). */
  predicate TokenDue(now: int, poll: int, expires: Option<int>) {
    expires.None? || expires.value * SECOND < now + poll + MINUTE
  }

  /** The annotation keeps whole seconds only. */
  function Stamp(expiry: int): int {
    expiry / SECOND
  }

  /** What a reconcile function obtained from outside before it shapes the object. */
  datatype Given = Nothing | Minted(token: Token) | Source(data: map<string, string>)

  /** The calls a reconcile function makes; None when one of them fails. */
  function Gather(env: Env, w: World, now: int, recipe: Recipe, obj: Obj): (r: (World, Option<Given>))
    ensures r.0.calls >= w.calls
  {
    match recipe
    case TokenFor(account, _, _, poll) =>
      if !TokenDue(now, poll, obj.expires) then (w, Some(Nothing))
      else
        var (w1, reply) := Get(env, w, account);
        if !reply.Found? then (w1, None)
        else
          var (w2, token) := IssueToken(env, w1, account);
          (w2, if token.None? then None else Some(Minted(token.value)))
    case CopyOf(source) =>
      var (w1, reply) := Get(env, w, source);
      (w1, if reply.Found? then Some(Source(reply.obj.data)) else None)
    case _ => (w, Some(Nothing))
  }

  const INSTANCE_ID := "velero.services.openmcp.cloud/instance-id"
  const DOCKER_CONFIG := "kubernetes.io/dockerconfigjson"

  function Labelled(obj: Obj, instance: string): Obj {
    obj.(labels := obj.labels[MANAGED_BY := MANAGED_BY_VALUE][INSTANCE_ID := instance])
  }

  function TokenData(text: string, ns: string, ca: string): map<string, string> {
    map["token" := text, "namespace" := ns, "ca.crt" := ca]
  }

  /** The in-memory change a reconcile function makes. */
  function Fill(recipe: Recipe, given: Given, obj: Obj): Obj {
    match recipe
    case TokenFor(_, ns, ca, _) =>
      if given.Minted? then
        obj.(data := TokenData(given.token.text, ns, ca), expires := Some(Stamp(given.token.expiry)))
      else obj
    case CopyOf(_) => if given.Source? then obj.(data := given.data, secretType := DOCKER_CONFIG) else obj
    case Definition(schema) => obj.(spec := CrdSpec(schema))
    case Grant(subject, ns) => obj.(spec := BindingSpec(subject, ns, "cluster-admin"))
    case Run(replicas, podLabels, pod) =>
      obj.(labels := obj.labels + podLabels, spec := DeploymentSpec(replicas, podLabels, pod))
    case _ => obj
  }

  /** Labels first, then the reconcile function. */
  function Shape(instance: string, recipe: Recipe, given: Given, obj: Obj): Obj {
    Fill(recipe, given, Labelled(obj, instance))
  }

  /** Get, mutate, then create, update or do nothing. */
  function ApplyOne(env: Env, w: World, instance: string, now: int, m: Managed): (r: (World, Result))
    ensures r.0.calls > w.calls
  {
    var (w1, reply) := Get(env, w, m.loc);
    if reply.Failed? then (w1, Result(m, Unchanged, Some(CallFailed), BLANK))
    else
      var base := if reply.Found? then reply.obj else BLANK;
      var (w2, given) := Gather(env, w1, now, m.recipe, base);
      if given.None? then (w2, Result(m, Unchanged, Some(ReconcileFailed), Labelled(base, instance)))
      else
        var shaped := Shape(instance, m.recipe, given.value, base);
        if reply.Found? && shaped == base then (w2, Result(m, Unchanged, None, base))
        else
          var (w3, written) :=
            if reply.Found? then Update(env, w2, m.loc, shaped) else Create(env, w2, m.loc, shaped);
          (w3, if written.Found? then
                 Result(m, if reply.Found? then Updated else Created, None, written.obj)
               else Result(m, Unchanged, Some(CallFailed), shaped))
  }

  // ----- a whole pass -----

  datatype Mode = Applying(instance: string, now: int) | Deleting

  function Visit(env: Env, w: World, mode: Mode, plan: seq<Managed>, m: Managed): (r: (World, Result))
    ensures r.0.calls >= w.calls
  {
    if mode.Deleting? then DeleteOne(env, w, plan, m) else ApplyOne(env, w, mode.instance, mode.now, m)
  }

  /** The first `n` visits of a pass. */
  function Visits(env: Env, w: World, mode: Mode, plan: seq<Managed>, n: nat): (r: (World, seq<Result>))
    requires n <= |plan|
    ensures r.0.calls >= w.calls
  {
    if n == 0 then (w, [])
    else
      var (w1, results) := Visits(env, w, mode, plan, n - 1);
      var (w2, result) := Visit(env, w1, mode, plan, plan[n - 1]);
      (w2, results + [result])
  }

  /** What the first `n` visits of a Delete pass leave in memory. */
  function Memory(env: Env, w: World, plan: seq<Managed>, n: nat): map<Managed, Obj>
    requires n <= |plan|
  {
    if n == 0 then map[]
    else
      Loads(env, Visits(env, w, Deleting, plan, n - 1).0, Dependents(plan, plan[n - 1]), Memory(env, w, plan, n - 1))
  }

  /** Results with the objects that are in memory when they are read. */
  function Recalled(memory: map<Managed, Obj>, results: seq<Result>): (r: seq<Result>)
    ensures |r| == |results|
    ensures forall i :: 0 <= i < |r| ==>
              var m := results[i].managed;
              && r[i] == results[i].(observed := r[i].observed)
              && (m in memory ==> r[i].observed == memory[m])
              && (m !in memory ==> r[i].observed == results[i].observed)
  {
    seq(|results|, i requires 0 <= i < |results| =>
      if results[i].managed in memory then results[i].(observed := memory[results[i].managed]) else results[i])
  }

  /** Removes managed secrets of a namespace whose names are not kept. */
  datatype Cleaner = Cleaner(cluster: nat, ns: string, keep: seq<string>)

  function CleanupError(l: Loc): Result {
    Result(NewManaged(0, l, Some(DeletePolicy), [], Leftover), DeletionFailed, Some(CallFailed), BLANK)
  }

  /** Handles the first `n` listed secrets. */
  function Sweep(env: Env, w: World, c: Cleaner, items: seq<Loc>, n: nat): (r: (World, seq<Result>))
    requires n <= |items|
    ensures r.0.calls >= w.calls
  {
    if n == 0 then (w, [])
    else
      var (w1, results) := Sweep(env, w, c, items, n - 1);
      var l := items[n - 1];
      if l.name in c.keep then (w1, results)
      else
        var (w2, reply) := Delete(env, w1, l);
        (w2, if reply.Failed? then results + [CleanupError(l)] else results)
  }

  function Cleanup(env: Env, w: World, c: Cleaner): (r: (World, Option<seq<Result>>))
    ensures r.0.calls >= w.calls
  {
    var (w1, items) := List(env, w, c.cluster, c.ns);
    if items.None? then (w1, None)
    else
      var (w2, results) := Sweep(env, w1, c, items.value, |items.value|);
      (w2, Some(results))
  }

  datatype Report = Report(world: World, results: seq<Result>, failed: bool)

  /** The first `n` cleaners; the first one that fails ends the pass. */
  function Cleanups(env: Env, start: Report, cleaners: seq<Cleaner>, n: nat): (r: Report)
    requires n <= |cleaners|
    ensures r.world.calls >= start.world.calls
  {
    if n == 0 then start
    else
      var before := Cleanups(env, start, cleaners, n - 1);
      if before.failed then before
      else
        var (w, results) := Cleanup(env, before.world, cleaners[n - 1]);
        if results.None? then Report(w, before.results, true)
        else Report(w, before.results + results.value, false)
  }

  function Pass(env: Env, w: World, mode: Mode, plan: seq<Managed>, cleaners: seq<Cleaner>): (r: Report)
    ensures r.world.calls >= w.calls
  {
    var (w1, results) := Visits(env, w, mode, plan, |plan|);
    Cleanups(env, Report(w1, results, false), cleaners, |cleaners|)
  }

  predicate AllDeleted(results: seq<Result>) {
    forall i :: 0 <= i < |results| ==> results[i].op == Deleted
  }

  predicate ErrorFree(report: Report) {
    !report.failed && forall i :: 0 <= i < |report.results| ==> report.results[i].error.None?
  }

  // ----- the dependents map and the shape of results -----

  lemma {:induction false} CountOfMember(deps: seq<Managed>, d: Managed)
    ensures CountOf(deps, d) == multiset(deps)[d]
  {
    if deps != [] {
      CountOfMember(Front(deps), d);
      assert deps == Front(deps) + [Last(deps)];
    }
  }

  lemma CountAppended(s: seq<Managed>, t: seq<Managed>, m: Managed)
    ensures multiset(s + t)[m] == multiset(s)[m] + multiset(t)[m]
  {
  }

  lemma {:induction false} CountCopies(m: Managed, n: nat, x: Managed)
    ensures multiset(Copies(m, n))[x] == if x == m then n else 0
  {
    if n > 0 {
      CountCopies(m, n - 1, x);
      assert Copies(m, n) == Copies(m, n - 1) + [m];
    }
  }

  lemma OneMoreRegistration(plan: seq<Managed>, l: Managed, d: Managed, m: Managed)
    ensures var extra := if l == m then 1 else 0;
            && multiset(plan + [l])[m] == multiset(plan)[m] + extra
            && multiset(Dependents(plan + [l], d))[m] ==
               multiset(Dependents(plan, d))[m] + (if l == m then multiset(m.deps)[d] else 0)
  {
    var n := CountOf(l.deps, d);
    CountOfMember(l.deps, d);
    CountCopies(l, n, m);
    CountAppended(plan, [l], m);
    assert Front(plan + [l]) == plan;
    CountAppended(Dependents(plan, d), Copies(l, n), m);
  }

  lemma NextMultiple(k: nat, n: nat)
    ensures k * n + n == (k + 1) * n
  {
  }

  /**
   The dependents are the exact inverse of the dependency lists: object `m` is a dependent of `d`
   once for every registration of `m` and every mention of `d` in it.
  */
  lemma {:induction false} DependentsAreTheInverse(plan: seq<Managed>, d: Managed, m: Managed)
    ensures multiset(Dependents(plan, d))[m] == multiset(plan)[m] * multiset(m.deps)[d]
  {
    if plan != [] {
      DependentsAreTheInverse(Front(plan), d, m);
      OneMoreRegistration(Front(plan), Last(plan), d, m);
      assert plan == Front(plan) + [Last(plan)];
      var k, n := multiset(Front(plan))[m], multiset(m.deps)[d];
      NextMultiple(k, n);
    }
  }

  lemma {:induction false} DependentIff(plan: seq<Managed>, d: Managed, m: Managed)
    ensures m in Dependents(plan, d) <==> m in plan && d in m.deps
  {
    if plan != [] {
      DependentIff(Front(plan), d, m);
      CountOfMember(Last(plan).deps, d);
      var n := CountOf(Last(plan).deps, d);
      assert plan == Front(plan) + [Last(plan)];
      assert d in Last(plan).deps <==> n > 0;
      assert m in Copies(Last(plan), n) <==> n > 0 && m == Last(plan) by {
        if n > 0 {
          assert Copies(Last(plan), n)[0] == Last(plan);
        }
      }
    }
  }

  /** Dependents come in the order in which their objects are visited. */
  lemma {:induction false} DependentsInVisitOrder(p: seq<Managed>, q: seq<Managed>, d: Managed)
    ensures Dependents(p + q, d) == Dependents(p, d) + Dependents(q, d)
  {
    if q == [] {
      assert p + q == p;
    } else {
      DependentsInVisitOrder(p, Front(q), d);
      assert Front(p + q) == p + Front(q);
    }
  }

  lemma VisitNamesItsObject(env: Env, w: World, mode: Mode, plan: seq<Managed>, m: Managed)
    ensures Visit(env, w, mode, plan, m).1.managed == m
  {
  }

  /** One result per managed object, in registration order, whatever failed before. */
  lemma {:induction false} VisitsReportInOrder(env: Env, w: World, mode: Mode, plan: seq<Managed>, n: nat)
    requires n <= |plan|
    ensures var results := Visits(env, w, mode, plan, n).1;
            |results| == n && forall i :: 0 <= i < n ==> results[i].managed == plan[i]
  {
    hide Visit;
    if n > 0 {
      VisitsReportInOrder(env, w, mode, plan, n - 1);
      VisitNamesItsObject(env, Visits(env, w, mode, plan, n - 1).0, mode, plan, plan[n - 1]);
    }
  }

  /** Later visits do not touch earlier results. */
  lemma {:induction false} VisitsExtend(env: Env, w: World, mode: Mode, plan: seq<Managed>, m: nat, n: nat)
    requires m <= n <= |plan|
    ensures |Visits(env, w, mode, plan, n).1| == n
    ensures Visits(env, w, mode, plan, m).1 == Visits(env, w, mode, plan, n).1[..m]
  {
    hide DeleteOne, ApplyOne;
    VisitsReportInOrder(env, w, mode, plan, m);
    VisitsReportInOrder(env, w, mode, plan, n);
    if m < n {
      VisitsExtend(env, w, mode, plan, m, n - 1);
    }
  }

  lemma {:induction false} CleanupsExtend(env: Env, start: Report, cleaners: seq<Cleaner>, n: nat)
    requires n <= |cleaners|
    ensures start.results <= Cleanups(env, start, cleaners, n).results
    ensures start.failed ==> Cleanups(env, start, cleaners, n) == start
  {
    hide Cleanup;
    if n > 0 {
      CleanupsExtend(env, start, cleaners, n - 1);
    }
  }

  /** A pass reports on every managed object first; cleaner results follow. */
  lemma PassReportsEveryObject(env: Env, w: World, mode: Mode, plan: seq<Managed>, cleaners: seq<Cleaner>)
    ensures var results := Pass(env, w, mode, plan, cleaners).results;
            && |plan| <= |results|
            && results[..|plan|] == Visits(env, w, mode, plan, |plan|).1
            && forall i :: 0 <= i < |plan| ==> results[i].managed == plan[i]
  {
    hide DeleteOne, ApplyOne;
    var (w1, results) := Visits(env, w, mode, plan, |plan|);
    VisitsReportInOrder(env, w, mode, plan, |plan|);
    CleanupsExtend(env, Report(w1, results, false), cleaners, |cleaners|);
  }

  /** A check that lets a deletion through has loaded nothing. */
  lemma {:induction false} PassedCheckLoadsNothing(
    env: Env, w: World, deps: seq<Managed>, memory: map<Managed, Obj>)
    requires CheckForDependents(env, w, deps).1 == []
    ensures Loads(env, w, deps, memory) == memory
  {
    if deps != [] {
      PassedCheckLoadsNothing(env, w, Front(deps), memory);
    }
  }
}
