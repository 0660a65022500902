/** The manager, its clusters and the secret cleaner as objects (pkg/resources, pkg/secret). */
module Managers {
  import opened Basics
  import opened ApiServer
  import opened ApiClient
  import opened Passes

  class ManagedCluster {
    const id: nat
    const defaultNamespace: string
    var objects: seq<Managed>

    constructor (id: nat, defaultNamespace: string)
      ensures this.id == id && this.defaultNamespace == defaultNamespace
      ensures objects == []
    {
      this.id, this.defaultNamespace, objects := id, defaultNamespace, [];
    }

    method AddObject(m: Managed)
      modifies this
      ensures objects == old(objects) + [m]
    {
      objects := objects + [m];
    }
  }

  /** All registered objects, cluster by cluster. */
  function Registered(clusters: seq<ManagedCluster>): seq<Managed>
    reads clusters
  {
    if clusters == [] then [] else Registered(clusters[..|clusters| - 1]) + clusters[|clusters| - 1].objects
  }

  ghost predicate IsBlock(plan: seq<Managed>, from: nat, to: nat, objects: seq<Managed>) {
    from <= to <= |plan| && plan[from..to] == objects
  }

  /** The block of positions that each cluster's objects take in the registration order. */
  ghost predicate IsLayout(clusters: seq<ManagedCluster>, plan: seq<Managed>, offsets: seq<nat>)
    reads clusters
  {
    && |offsets| == |clusters| + 1 && offsets[0] == 0 && offsets[|clusters|] == |plan|
    && forall i :: 0 <= i < |clusters| ==> IsBlock(plan, offsets[i], offsets[i + 1], clusters[i].objects)
  }

  lemma {:induction false} Layout(clusters: seq<ManagedCluster>) returns (offsets: seq<nat>)
    ensures IsLayout(clusters, Registered(clusters), offsets)
  {
    if clusters == [] {
      offsets := [0];
    } else {
      var front := clusters[..|clusters| - 1];
      var before := Layout(front);
      offsets := before + [|Registered(clusters)|];
      forall i | 0 <= i < |clusters|
        ensures IsBlock(Registered(clusters), offsets[i], offsets[i + 1], clusters[i].objects)
      {
        if i < |front| {
          assert IsBlock(Registered(front), before[i], before[i + 1], front[i].objects);
        }
      }
    }
  }

  class SecretCleaner {
    const cleaner: Cleaner

    constructor (cluster: nat, ns: string, keep: seq<string>)
      ensures cleaner == Cleaner(cluster, ns, keep)
    {
      cleaner := Cleaner(cluster, ns, keep);
    }

    /** None stands for the error of a failed list call. */
    method Cleanup(api: Servers) returns (outcome: Option<seq<Result>>)
      modifies api
      ensures (api.world, outcome) == Passes.Cleanup(api.env, old(api.world), cleaner)
    {
      var items := api.List(cleaner.cluster, cleaner.ns);
      if items.None? {
        return None;
      }
      ghost var listed := api.world;
      var results: seq<Result> := [];
      for i := 0 to |items.value|
        invariant (api.world, results) == Sweep(api.env, listed, cleaner, items.value, i)
      {
        var l := items.value[i];
        if l.name !in cleaner.keep {
          var reply := api.Delete(l);
          if reply.Failed? {
            results := results + [CleanupError(l)];
          }
        }
      }
      return Some(results);
    }
  }

  function CleanersOf(cs: seq<SecretCleaner>): (r: seq<Cleaner>)
    ensures |r| == |cs| && forall i :: 0 <= i < |cs| ==> r[i] == cs[i].cleaner
  {
    if cs == [] then [] else CleanersOf(cs[..|cs| - 1]) + [cs[|cs| - 1].cleaner]
  }

  /** The entry of `d` in a dependents table; a missing entry reads as empty. */
  function Entry(table: map<Managed, seq<Managed>>, d: Managed): seq<Managed> {
    if d in table then table[d] else []
  }

  lemma CountOfNext(deps: seq<Managed>, k: nat, d: Managed)
    requires k < |deps|
    ensures CountOf(deps[..k + 1], d) == CountOf(deps[..k], d) + (if deps[k] == d then 1 else 0)
  {
    assert Front(deps[..k + 1]) == deps[..k];
  }

  /** The entry of every object has grown by `m`, once for every mention of that object in `deps`. */
  ghost predicate Mentions(before: map<Managed, seq<Managed>>, table: map<Managed, seq<Managed>>,
                           m: Managed, deps: seq<Managed>)
  {
    forall d: Managed :: Entry(table, d) == Entry(before, d) + Copies(m, CountOf(deps, d))
  }

  lemma CopiesNext(m: Managed, n: nat)
    ensures Copies(m, n + 1) == Copies(m, n) + [m]
  {
  }

  lemma NoMentions(before: map<Managed, seq<Managed>>, m: Managed)
    ensures Mentions(before, before, m, [])
  {
    forall d: Managed
      ensures Entry(before, d) == Entry(before, d) + Copies(m, CountOf([], d))
    {
    }
  }

  lemma MentionsNext(before: map<Managed, seq<Managed>>, table: map<Managed, seq<Managed>>, m: Managed,
                     deps: seq<Managed>, k: nat)
    requires k < |deps| && Mentions(before, table, m, deps[..k])
    ensures Mentions(before, table[deps[k] := Entry(table, deps[k]) + [m]], m, deps[..k + 1])
  {
    hide CountOf, Copies;
    var table' := table[deps[k] := Entry(table, deps[k]) + [m]];
    forall d: Managed
      ensures Entry(table', d) == Entry(before, d) + Copies(m, CountOf(deps[..k + 1], d))
    {
      CountOfNext(deps, k, d);
      var n := CountOf(deps[..k], d);
      CopiesNext(m, n);
      assert Entry(table, d) == Entry(before, d) + Copies(m, n);
    }
  }

  class Manager {
    const instance: string
    var clusters: seq<ManagedCluster>
    var cleaners: seq<SecretCleaner>
    /** The objects that lookups of dependents have filled in memory. */
    var memory: map<Managed, Obj>

    constructor (instance: string)
      ensures this.instance == instance && clusters == [] && cleaners == [] && memory == map[]
    {
      this.instance, clusters, cleaners, memory := instance, [], [], map[];
    }

    function Plan(): seq<Managed>
      reads this`clusters, clusters
    {
      Registered(clusters)
    }

    function Cleaners(): seq<Cleaner>
      reads this`cleaners
    {
      CleanersOf(cleaners)
    }

    method AddCluster(c: ManagedCluster)
      modifies this`clusters
      ensures clusters == old(clusters) + [c]
    {
      clusters := clusters + [c];
    }

    method AddCleaner(c: SecretCleaner)
      modifies this`cleaners
      ensures cleaners == old(cleaners) + [c]
    {
      cleaners := cleaners + [c];
    }

    method GetDependents() returns (table: map<Managed, seq<Managed>>)
      ensures forall d: Managed :: Entry(table, d) == Dependents(Plan(), d)
    {
      table := map[];
      for i := 0 to |clusters|
        invariant forall d: Managed :: Entry(table, d) == Dependents(Registered(clusters[..i]), d)
      {
        table := AddObjects(table, clusters[i].objects, Registered(clusters[..i]));
        assert clusters[..i + 1][..i] == clusters[..i];
      }
      assert clusters[..|clusters|] == clusters;
    }

    method AddObjects(before: map<Managed, seq<Managed>>, objects: seq<Managed>, ghost plan: seq<Managed>)
      returns (table: map<Managed, seq<Managed>>)
      requires forall d: Managed :: Entry(before, d) == Dependents(plan, d)
      ensures forall d: Managed :: Entry(table, d) == Dependents(plan + objects, d)
    {
      table := before;
      assert plan + objects[..0] == plan;
      for j := 0 to |objects|
        invariant forall d: Managed :: Entry(table, d) == Dependents(plan + objects[..j], d)
      {
        assert plan + objects[..j + 1] == plan + objects[..j] + [objects[j]];
        assert Front(plan + objects[..j] + [objects[j]]) == plan + objects[..j];
        table := AddDependencies(table, objects[j]);
      }
      assert objects[..|objects|] == objects;
    }

    method AddDependencies(before: map<Managed, seq<Managed>>, m: Managed) returns (table: map<Managed, seq<Managed>>)
      ensures forall d: Managed :: Entry(table, d) == Entry(before, d) + Copies(m, CountOf(m.deps, d))
    {
      hide CountOf, Copies;
      table := before;
      NoMentions(before, m);
      assert m.deps[..0] == [];
      for k := 0 to |m.deps|
        invariant Mentions(before, table, m, m.deps[..k])
      {
        hide Mentions;
        var dep := m.deps[k];
        MentionsNext(before, table, m, m.deps, k);
        ghost var next := table[dep := Entry(table, dep) + [m]];
        if dep !in table {
          table := table[dep := []];
        }
        table := table[dep := table[dep] + [m]];
        assert table == next;
      }
      assert m.deps[..|m.deps|] == m.deps;
    }

    /** The blocking causes; none exactly when every dependent was reported as not found. */
    method CheckForDependents(api: Servers, deps: seq<Managed>) returns (causes: seq<Cause>)
      modifies api, this`memory
      ensures (api.world, causes) == Passes.CheckForDependents(api.env, old(api.world), deps)
      ensures memory == Loads(api.env, old(api.world), deps, old(memory))
    {
      causes := [];
      for i := 0 to |deps|
        invariant (api.world, causes) == Passes.CheckForDependents(api.env, old(api.world), deps[..i])
        invariant memory == Loads(api.env, old(api.world), deps[..i], old(memory))
      {
        assert Front(deps[..i + 1]) == deps[..i];
        var l := deps[i].loc;
        var reply := api.Get(l);
        match reply {
          case Missing =>
          case Failed => causes := causes + [LookupFailed(l)];
          case Found(obj) =>
            memory := memory[deps[i] := obj];
            causes := causes + [StillExists(l)];
        }
      }
      assert deps[..|deps|] == deps;
    }

    /** The calls of a reconcile function. */
    method Reconcile(api: Servers, now: int, recipe: Recipe, obj: Obj) returns (given: Option<Given>)
      modifies api
      ensures (api.world, given) == Gather(api.env, old(api.world), now, recipe, obj)
    {
      match recipe {
        case TokenFor(account, _, _, poll) =>
          if !TokenDue(now, poll, obj.expires) {
            return Some(Nothing);
          }
          var reply := api.Get(account);
          if !reply.Found? {
            return None;
          }
          var token := api.IssueToken(account);
          return if token.None? then None else Some(Minted(token.value));
        case CopyOf(source) =>
          var reply := api.Get(source);
          return if reply.Found? then Some(Source(reply.obj.data)) else None;
        case _ =>
          return Some(Nothing);
      }
    }

    method CreateOrUpdate(api: Servers, now: int, m: Managed) returns (result: Result)
      modifies api
      ensures (api.world, result) == ApplyOne(api.env, old(api.world), instance, now, m)
    {
      var reply := api.Get(m.loc);
      if reply.Failed? {
        return Result(m, Unchanged, Some(CallFailed), BLANK);
      }
      var base := if reply.Found? then reply.obj else BLANK;
      var given := Reconcile(api, now, m.recipe, base);
      if given.None? {
        return Result(m, Unchanged, Some(ReconcileFailed), Labelled(base, instance));
      }
      var shaped := Shape(instance, m.recipe, given.value, base);
      if reply.Found? && shaped == base {
        return Result(m, Unchanged, None, base);
      }
      var written: Reply;
      if reply.Found? {
        written := api.Update(m.loc, shaped);
      } else {
        written := api.Create(m.loc, shaped);
      }
      if written.Found? {
        return Result(m, if reply.Found? then Updated else Created, None, written.obj);
      }
      return Result(m, Unchanged, Some(CallFailed), shaped);
    }

    method ReconcileObject(
      api: Servers, mode: Mode, table: map<Managed, seq<Managed>>, m: Managed, ghost plan: seq<Managed>)
      returns (result: Result)
      requires forall d: Managed :: Entry(table, d) == Dependents(plan, d)
      requires mode.Applying? ==> mode.instance == instance
      modifies api, this`memory
      ensures (api.world, result) == Visit(api.env, old(api.world), mode, plan, m)
      ensures mode.Deleting? ==> memory == Loads(api.env, old(api.world), Dependents(plan, m), old(memory))
    {
      if mode.Applying? {
        result := CreateOrUpdate(api, mode.now, m);
        return;
      }
      var causes := CheckForDependents(api, Entry(table, m));
      if causes != [] {
        return Result(m, Unchanged, Some(Blocked(causes)), BLANK);
      }
      if m.policy.OrphanPolicy? {
        return Result(m, ORPHANED, None, BLANK);
      }
      var reply := api.Delete(m.loc);
      match reply {
        case Missing => return Result(m, Deleted, None, BLANK);
        case Found(_) => return Result(m, DeletionRequested, None, BLANK);
        case Failed => return Result(m, DeletionRequested, Some(CallFailed), BLANK);
      }
    }

    /** The flag stands for the error that a failing cleaner raises. */
    method ReconcileObjects(api: Servers, mode: Mode) returns (results: seq<Result>, failed: bool)
      requires if mode.Applying? then mode.instance == instance else memory == map[]
      modifies api, this`memory
      ensures Report(api.world, results, failed) == Pass(api.env, old(api.world), mode, Plan(), Cleaners())
      ensures mode.Deleting? ==> memory == Memory(api.env, old(api.world), Plan(), |Plan()|)
    {
      hide DeleteOne, ApplyOne, Dependents, Loads, Registered, CleanersOf;
      var table := GetDependents();
      ghost var plan, before := Plan(), api.world;
      ghost var offsets := Layout(clusters);
      results := [];
      for i := 0 to |clusters|
        invariant IsLayout(clusters, plan, offsets)
        invariant offsets[i] <= |plan| && (api.world, results) == Visits(api.env, before, mode, plan, offsets[i])
        invariant mode.Deleting? ==> memory == Memory(api.env, before, plan, offsets[i])
      {
        assert IsBlock(plan, offsets[i], offsets[i + 1], clusters[i].objects);
        results := ReconcileCluster(api, mode, table, clusters[i].objects, results, plan, before, offsets[i]);
      }
      ghost var visited := Visits(api.env, before, mode, plan, |plan|);
      assert (api.world, results) == visited;
      results, failed := RunCleaners(api, results);
    }

    /** The inner loop: all objects of one cluster, in order. */
    method ReconcileCluster(
      api: Servers, mode: Mode, table: map<Managed, seq<Managed>>, objects: seq<Managed>, earlier: seq<Result>,
      ghost plan: seq<Managed>, ghost before: World, ghost done: nat)
      returns (results: seq<Result>)
      requires forall d: Managed :: Entry(table, d) == Dependents(plan, d)
      requires mode.Applying? ==> mode.instance == instance
      requires IsBlock(plan, done, done + |objects|, objects)
      requires (api.world, earlier) == Visits(api.env, before, mode, plan, done)
      requires mode.Deleting? ==> memory == Memory(api.env, before, plan, done)
      modifies api, this`memory
      ensures (api.world, results) == Visits(api.env, before, mode, plan, done + |objects|)
      ensures mode.Deleting? ==> memory == Memory(api.env, before, plan, done + |objects|)
    {
      hide DeleteOne, ApplyOne, Dependents, Loads;
      results := earlier;
      for j := 0 to |objects|
        invariant (api.world, results) == Visits(api.env, before, mode, plan, done + j)
        invariant mode.Deleting? ==> memory == Memory(api.env, before, plan, done + j)
      {
        assert plan[done + j] == objects[j];
        var result := ReconcileObject(api, mode, table, objects[j], plan);
        results := results + [result];
      }
    }

    /** Cleaners run one after the other until one of them fails. */
    method RunCleaners(api: Servers, visited: seq<Result>) returns (results: seq<Result>, failed: bool)
      modifies api
      ensures Report(api.world, results, failed) ==
              Cleanups(api.env, Report(old(api.world), visited, false), Cleaners(), |Cleaners()|)
    {
      hide Cleanup;
      results := visited;
      ghost var start := Report(api.world, visited, false);
      for i := 0 to |cleaners|
        invariant Report(api.world, results, false) == Cleanups(api.env, start, Cleaners(), i)
      {
        var outcome := cleaners[i].Cleanup(api);
        if outcome.None? {
          CleanupsExtendFailed(api.env, start, Cleaners(), i + 1, |cleaners|);
          return results, true;
        }
        results := results + outcome.value;
      }
      return results, false;
    }

    lemma {:induction false} CleanupsExtendFailed(env: Env, start: Report, cs: seq<Cleaner>, m: nat, n: nat)
      requires m <= n <= |cs|
      requires Cleanups(env, start, cs, m).failed
      ensures Cleanups(env, start, cs, n) == Cleanups(env, start, cs, m)
    {
      if m < n {
        CleanupsExtendFailed(env, start, cs, m, n - 1);
      }
    }

    method Apply(api: Servers, now: int) returns (results: seq<Result>, failed: bool)
      modifies api, this`memory
      ensures Report(api.world, results, failed) ==
              Pass(api.env, old(api.world), Applying(instance, now), Plan(), Cleaners())
    {
      results, failed := ReconcileObjects(api, Applying(instance, now));
    }

    /** Needs a manager that has not looked anything up yet. */
    method Delete(api: Servers) returns (results: seq<Result>, failed: bool)
      requires memory == map[]
      modifies api, this`memory
      ensures Report(api.world, results, failed) == Pass(api.env, old(api.world), Deleting, Plan(), Cleaners())
      ensures memory == Memory(api.env, old(api.world), Plan(), |Plan()|)
    {
      results, failed := ReconcileObjects(api, Deleting);
    }
  }

  method AllItemsDeleted(results: seq<Result>) returns (all: bool)
    ensures all <==> AllDeleted(results)
  {
    for i := 0 to |results|
      invariant forall j :: 0 <= j < i ==> results[j].op == Deleted
    {
      if results[i].op != Deleted {
        return false;
      }
    }
    return true;
  }
}
