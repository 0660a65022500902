/** The Velero reconciler (internal/controller/velero_controller.go, pkg/instance/identity.go). */
module Controller {
  import opened Basics
  import opened Pods
  import opened ApiServer
  import opened ApiClient
  import opened Passes
  import opened Managers
  import opened Deletion
  import opened Wiring
  import opened Runs
  import opened Teardown
  import opened Convergence
  import Deployments
  import Fixpoint
  import Images

  // ----- phases and resources -----

  datatype Phase = Pending | Progressing | Ready | Terminating

  function SimplePhase(o: Obj): Phase {
    if o.terminating then Terminating else if o.uid == 0 then Pending else Ready
  }

  /** An unset replica count means 1. */
  function DeploymentPhase(o: Obj): Phase {
    var desired := if o.spec.DeploymentSpec? then o.spec.replicas else 1;
    if o.terminating then Terminating else if desired != o.ready then Progressing else Ready
  }

  function PhaseOf(r: Result): Phase {
    match r.managed.recipe
    case Leftover => Terminating
    case Run(_, _, _) => DeploymentPhase(r.observed)
    case _ => SimplePhase(r.observed)
  }

  /** What each phase tells of the object it is read from. */
  lemma PhasesTell(r: Result)
    ensures var o, phase, deployment := r.observed, PhaseOf(r), r.managed.recipe.Run?;
            && (phase == Terminating <==> o.terminating || r.managed.recipe.Leftover?)
            && (phase == Pending <==> phase != Terminating && !deployment && o.uid == 0)
            && (phase == Progressing <==>
                  phase != Terminating && deployment
                  && !(o.spec.DeploymentSpec? && o.ready == o.spec.replicas)
                  && (o.spec.DeploymentSpec? || o.ready != 1))
  {
  }

  /** An entry of status.resources; cluster-scoped objects have no namespace. */
  datatype Resource = Resource(kind: Kind, name: string, ns: Option<string>, phase: Phase, cluster: nat)

  function ResourceOf(r: Result): Resource {
    var l := r.managed.loc;
    Resource(l.kind, l.name, if l.ns == "" then None else Some(l.ns), PhaseOf(r), l.cluster)
  }

  /** One entry per result, in order, which says what the result is about and in which phase. */
  function ResourcesOf(results: seq<Result>): (r: seq<Resource>)
    ensures |r| == |results|
    ensures forall i :: 0 <= i < |r| ==>
      var l := results[i].managed.loc;
      && r[i].kind == l.kind && r[i].name == l.name && r[i].cluster == l.cluster
      && (r[i].ns.None? <==> !l.Namespaced()) && (r[i].ns.Some? ==> r[i].ns.value == l.ns)
      && r[i].phase == PhaseOf(results[i])
  {
    seq(|results|, i requires 0 <= i < |results| => ResourceOf(results[i]))
  }

  method ResultsToResources(results: seq<Result>) returns (resources: seq<Resource>, containsError: bool)
    ensures resources == ResourcesOf(results)
    ensures containsError <==> exists i :: 0 <= i < |results| && results[i].error.Some?
  {
    resources, containsError := [], false;
    for i := 0 to |results|
      invariant |resources| == i && forall j :: 0 <= j < i ==> resources[j] == ResourceOf(results[j])
      invariant containsError <==> exists j :: 0 <= j < i && results[j].error.Some?
    {
      resources := resources + [ResourceOf(results[i])];
      if results[i].error.Some? {
        containsError := true;
      }
    }
  }

  predicate AllReady(resources: seq<Resource>) {
    forall i :: 0 <= i < |resources| ==> resources[i].phase == Ready
  }

  method AllResourcesReady(resources: seq<Resource>) returns (all: bool)
    ensures all <==> AllReady(resources)
  {
    for i := 0 to |resources|
      invariant forall j :: 0 <= j < i ==> resources[j].phase == Ready
    {
      if resources[i].phase != Ready {
        return false;
      }
    }
    return true;
  }

  // ----- the custom resources -----

  datatype ProviderConfig = ProviderConfig(poll: int, pullSecrets: seq<string>, available: seq<Images.Available>)

  class Velero {
    const ns: string
    const name: string
    const spec: Images.VeleroSpec
    var labels: map<string, string>
    var phase: Phase
    var resources: seq<Resource>

    constructor (ns: string, name: string, spec: Images.VeleroSpec, labels: map<string, string>)
      ensures this.ns == ns && this.name == name && this.spec == spec && this.labels == labels
    {
      this.ns, this.name, this.spec, this.labels := ns, name, spec, labels;
      phase, resources := Pending, [];
    }

    function GetID(): string
      reads this
    {
      if INSTANCE_ID in labels then labels[INSTANCE_ID] else ""
    }
  }

  function TenantNamespace(id: string): string {
    "velero-" + id
  }

  /** Why no manager could be built. */
  datatype Refusal = InvalidUserInput | UpdateFailed

  /** What a reconcile call returns: a requeue request, or an error. */
  datatype Outcome = Outcome(requeue: bool, failed: bool)

  /** Invalid user input is reported in the status only; retrying would not help. */
  function OutcomeOf(refusal: Refusal): (o: Outcome)
    ensures !o.requeue && (o.failed <==> refusal == UpdateFailed)
  {
    Outcome(false, refusal.UpdateFailed?)
  }

  /** What the reconciler knows besides the two custom resources. */
  datatype Context = Context(
    podNs: string, ca: string, host: string, port: string, crds: seq<Crd>,
    parse: string -> Option<Images.Version>, generate: (string, string) -> string)

  function SetupFor(
    ctx: Context, id: string, spec: Images.VeleroSpec, pc: ProviderConfig, images: map<string, string>): Setup
  {
    Setup(
      id, TenantNamespace(id), ctx.podNs, ctx.ca, pc.poll, ctx.crds, pc.pullSecrets,
      Deployments.McpPod(images),
      Deployments.ServerPod(images, spec.plugins, pc.pullSecrets, MCP_NAMESPACE, TOKEN_SECRET, ctx.host, ctx.port))
  }

  /** The id in use: the one on the object, or a generated one. */
  function IdFor(ctx: Context, ns: string, name: string, id: string): string {
    if id == "" then ctx.generate(ns, name) else id
  }

  /** What building a manager amounts to: validation, identity, images, in this order. */
  function Build(
    ctx: Context, ns: string, name: string, spec: Images.VeleroSpec, id: string, pc: ProviderConfig, saved: bool)
    : (Option<Setup>, Refusal)
  {
    if !Images.Supported(spec.version, ctx.parse) then (None, InvalidUserInput)
    else if id == "" && !saved then (None, UpdateFailed)
    else
      var images := Images.ImageMap(spec, pc.available);
      if images.None? then (None, InvalidUserInput)
      else (Some(SetupFor(ctx, IdFor(ctx, ns, name, id), spec, pc, images.value)), InvalidUserInput)
  }

  /** What a deletion amounts to: a Delete pass if a manager could be built, nothing otherwise. */
  ghost function DeletionOf(env: Env, w: World, build: (Option<Setup>, Refusal)): (r: (World, Outcome))
    ensures build.0.None? ==> r.0 == w && !r.1.requeue && (r.1.failed <==> build.1 == UpdateFailed)
    ensures build.0.Some? ==>
              var report := Pass(env, w, Deleting, Plan(build.0.value), CleanersFor(build.0.value));
              && r.0 == report.world
              && (r.1.failed <==> !ErrorFree(report))
              && (r.1.requeue <==> ErrorFree(report) && !AllDeleted(report.results))
              && (r.1 == Outcome(false, false) <==> Finished(report))
  {
    if build.0.None? then (w, OutcomeOf(build.1))
    else
      var report := Pass(env, w, Deleting, Plan(build.0.value), CleanersFor(build.0.value));
      (report.world, Outcome(ErrorFree(report) && !AllDeleted(report.results), !ErrorFree(report)))
  }

  /** The store after `k` deletions, when everything terminating vanishes in the pauses between them. */
  ghost function AfterDeletions(env: Env, w: World, build: (Option<Setup>, Refusal), k: nat): World {
    if k == 0 then w else Settled(DeletionOf(env, AfterDeletions(env, w, build, k - 1), build).0)
  }

  lemma {:induction false} DeletionsAreRounds(env: Env, w: World, build: (Option<Setup>, Refusal), k: nat)
    requires build.0.Some?
    ensures AfterDeletions(env, w, build, k) ==
            Rounds(env, w, Plan(build.0.value), CleanersFor(build.0.value), k)
  {
    hide Pass;
    if k > 0 {
      DeletionsAreRounds(env, w, build, k - 1);
    }
  }

  /** With a manager and served calls, from every store, the third deletion returns cleanly. */
  lemma ThirdDeletionReturnsCleanly(env: Env, w: World, build: (Option<Setup>, Refusal))
    requires build.0.Some? && Prompt(env, w.calls)
    ensures var answer := DeletionOf(env, AfterDeletions(env, w, build, 2), build).1; !answer.requeue && !answer.failed
  {
    hide Pass;
    DeletionsAreRounds(env, w, build, 2);
    ThirdPassFinishes(env, w, build.0.value);
  }

  /** While account and token secret are firm, neither of the first two deletions returns cleanly, whatever calls do. */
  lemma EarlierDeletionsDoNot(env: Env, w: World, build: (Option<Setup>, Refusal), k: nat)
    requires build.0.Some? && k < 2
    requires Firm(w.objs, ACCOUNT) && Firm(w.objs, TokenLoc(build.0.value))
    ensures var answer := DeletionOf(env, AfterDeletions(env, w, build, k), build).1; answer.requeue || answer.failed
  {
    hide Pass, Firm;
    DeletionsAreRounds(env, w, build, k);
    ThreePassesAreNeeded(env, w, build.0.value);
  }

  /** The resources that a Delete pass reports: phases are read from memory. */
  ghost function DeletionResources(env: Env, w: World, s: Setup): seq<Resource> {
    ResourcesOf(Recalled(Memory(env, w, Plan(s), |Plan(s)|),
                         Pass(env, w, Deleting, Plan(s), CleanersFor(s)).results))
  }

  lemma DeletionLeavesBlank(env: Env, w: World, s: Setup, i: nat)
    requires i < |Plan(s)|
    ensures var results := Pass(env, w, Deleting, Plan(s), CleanersFor(s)).results;
            i < |results| && results[i].managed == Plan(s)[i] && results[i].observed == BLANK
  {
    hide ApplyOne, Cleanup, Plan;
    PassReportsEveryObject(env, w, Deleting, Plan(s), CleanersFor(s));
    VisitResult(env, w, Deleting, Plan(s), i);
    assert Pass(env, w, Deleting, Plan(s), CleanersFor(s)).results[i] ==
           Visits(env, w, Deleting, Plan(s), |Plan(s)|).1[i];
  }

  /** The lookup of the token secret, made by the account's visit, the second one of a Delete pass. */
  ghost function TokenLookup(env: Env, w: World, s: Setup): Reply {
    PlanStart(s);
    Get(env, Visits(env, w, Deleting, Plan(s), 1).0, Loc(WORKLOAD, Secret, s.ns, "kube-api-access-velero-server")).1
  }

  lemma LoadsOfOne(env: Env, w: World, m: Managed, memory: map<Managed, Obj>)
    ensures Loads(env, w, [m], memory) ==
            var reply := Get(env, w, m.loc).1; if reply.Found? then memory[m := reply.obj] else memory
  {
    hide Get;
    assert Front([m]) == [];
  }

  /** All that a Delete pass leaves in memory is the token secret, if that lookup found it. */
  lemma {:induction false} MemoryHoldsToken(env: Env, w: World, s: Setup, n: nat)
    requires n <= |Plan(s)|
    ensures Memory(env, w, Plan(s), n) ==
            if n >= 2 && TokenLookup(env, w, s).Found? then map[TokenObject(s) := TokenLookup(env, w, s).obj] else map[]
  {
    hide Visits, Get, Plan, Dependents;
    if n > 0 {
      MemoryHoldsToken(env, w, s, n - 1);
      DependentsAt(s, n - 1);
      if n == 2 {
        assert "kube-api-access-" + "velero-server" == "kube-api-access-velero-server";
        LoadsOfOne(env, Visits(env, w, Deleting, Plan(s), 1).0, TokenObject(s), map[]);
      }
    }
  }

  /**
   What a Delete pass reports: of the token secret what the account's visit found, if it found anything, and
   otherwise that an object is Pending - or Progressing, for a deployment.
  */
  lemma DeletionReportsExactly(env: Env, w: World, s: Setup, i: nat)
    requires i < |Plan(s)|
    ensures var reply, resources := TokenLookup(env, w, s), DeletionResources(env, w, s);
            var m := Plan(s)[i];
            && i < |resources|
            && resources[i].kind == m.loc.kind && resources[i].name == m.loc.name
            && (i == TokenIndex(s) && reply.Found? ==>
                  && (resources[i].phase == Terminating <==> reply.obj.terminating)
                  && (resources[i].phase == Pending <==> !reply.obj.terminating && reply.obj.uid == 0)
                  && (resources[i].phase == Ready <==> !reply.obj.terminating && reply.obj.uid != 0))
            && (i != TokenIndex(s) || !reply.Found? ==>
                  resources[i].phase == if m.loc.kind == Deployment then Progressing else Pending)
  {
    hide Pass, Memory, Plan, Get, Visits;
    var memory, m := Memory(env, w, Plan(s), |Plan(s)|), Plan(s)[i];
    DeletionLeavesBlank(env, w, s, i);
    PlanStart(s);
    MemoryHoldsToken(env, w, s, |Plan(s)|);
    PlanIsWired(s, m);
    if m == TokenObject(s) {
      TokenComesFirst(s, i);
    }
  }

  lemma ErrorFreeVisitPasses(env: Env, w: World, s: Setup, i: nat)
    requires i < |Plan(s)| && ErrorFree(Pass(env, w, Deleting, Plan(s), CleanersFor(s)))
    ensures var before := Visits(env, w, Deleting, Plan(s), i).0;
            CheckForDependents(env, before, Dependents(Plan(s), Plan(s)[i])).1 == []
  {
    hide ApplyOne, Cleanups, Plan, Visits;
    PassReportsEveryObject(env, w, Deleting, Plan(s), CleanersFor(s));
    VisitResult(env, w, Deleting, Plan(s), i);
    assert Pass(env, w, Deleting, Plan(s), CleanersFor(s)).results[i] ==
           Visits(env, w, Deleting, Plan(s), |Plan(s)|).1[i];
  }

  lemma {:induction false} ErrorFreeDeletionLoadsNothing(env: Env, w: World, s: Setup, n: nat)
    requires n <= |Plan(s)| && ErrorFree(Pass(env, w, Deleting, Plan(s), CleanersFor(s)))
    ensures Memory(env, w, Plan(s), n) == map[]
  {
    hide Pass, Plan, Loads, Visits, ErrorFree, CheckForDependents, Dependents;
    if n > 0 {
      ErrorFreeDeletionLoadsNothing(env, w, s, n - 1);
      ErrorFreeVisitPasses(env, w, s, n - 1);
      PassedCheckLoadsNothing(env, Visits(env, w, Deleting, Plan(s), n - 1).0, Dependents(Plan(s), Plan(s)[n - 1]),
                              map[]);
    }
  }

  /** So without errors, and in particular at the end, no object is reported Ready or Terminating. */
  lemma ErrorFreeDeletionReports(env: Env, w: World, s: Setup, i: nat)
    requires i < |Plan(s)| && ErrorFree(Pass(env, w, Deleting, Plan(s), CleanersFor(s)))
    ensures i < |DeletionResources(env, w, s)|
            && DeletionResources(env, w, s)[i].phase ==
               if Plan(s)[i].loc.kind == Deployment then Progressing else Pending
  {
    hide Pass, Memory, Plan, ErrorFree, Get, Visits;
    PlanStart(s);
    ErrorFreeDeletionLoadsNothing(env, w, s, |Plan(s)|);
    MemoryHoldsToken(env, w, s, |Plan(s)|);
    assert TokenObject(s) !in Memory(env, w, Plan(s), |Plan(s)|);
    DeletionReportsExactly(env, w, s, i);
  }

  /**
   What a clean return of Delete means, exactly: the tenant's namespace is empty if a manager was built,
   and otherwise only if it was empty before, because refused user input leaves every store as it was.
  */
  lemma CleanDeleteExactly(
    env: Env, w: World, ctx: Context, ns: string, name: string, spec: Images.VeleroSpec, id: string,
    pc: ProviderConfig, saved: bool)
    requires Housed(w.objs)
    ensures var build := Build(ctx, ns, name, spec, id, pc, saved);
            var (after, outcome) := DeletionOf(env, w, build);
            var tenant := TenantNamespace(IdFor(ctx, ns, name, id));
            outcome == Outcome(false, false) ==>
              && (TenantEmpty(after.objs, tenant) <==> build.0.Some? || TenantEmpty(w.objs, tenant))
              && (build.0.None? ==> build.1.InvalidUserInput?)
              && (build.0.Some? ==> forall m :: m in Plan(build.0.value) && m.policy.DeletePolicy? ==>
                                      m.loc !in after.objs)
  {
    hide Visits, Cleanups, TenantEmpty;
    var setup := Build(ctx, ns, name, spec, id, pc, saved).0;
    if setup.Some? && DeletionOf(env, w, Build(ctx, ns, name, spec, id, pc, saved)).1 == Outcome(false, false) {
      FinishedLeavesTenantEmpty(env, w, setup.value);
      FinishedMeansGone(env, w, Plan(setup.value), CleanersFor(setup.value));
    }
  }

  /** What an application amounts to: an Apply pass if a manager could be built, nothing otherwise. */
  ghost function ApplicationOf(env: Env, w: World, build: (Option<Setup>, Refusal), now: int): (r: (World, Outcome))
    ensures build.0.None? ==> r.0 == w && !r.1.requeue && (r.1.failed <==> build.1 == UpdateFailed)
    ensures build.0.Some? ==>
              var report := ApplyPass(env, w, build.0.value, now);
              && r.0 == report.world
              && (r.1.failed <==> !ErrorFree(report))
              && (r.1.requeue <==> ErrorFree(report) && exists i :: 0 <= i < |report.results|
                                                              && PhaseOf(report.results[i]) != Ready)
  {
    if build.0.None? then (w, OutcomeOf(build.1))
    else
      var report := ApplyPass(env, w, build.0.value, now);
      (report.world,
       Outcome(ErrorFree(report) && !AllReady(ResourcesOf(report.results)), !ErrorFree(report)))
  }

  method ConfigureAccount(mcp: ManagedCluster, workload: ManagedCluster, s: Setup)
    requires mcp != workload
    modifies mcp, workload
    ensures mcp.objects == old(mcp.objects) + [ACCOUNT_OBJECT]
    ensures workload.objects == old(workload.objects) + [TokenObject(s)]
  {
    mcp.AddObject(ACCOUNT_OBJECT);
    workload.AddObject(TokenObject(s));
  }

  method ConfigureCrds(mcp: ManagedCluster, s: Setup)
    modifies mcp
    ensures mcp.objects == old(mcp.objects) + CrdObjects(s, |s.crds|)
  {
    for i := 0 to |s.crds|
      invariant mcp.objects == old(mcp.objects) + CrdObjects(s, i)
    {
      mcp.AddObject(CrdObject(s, i));
    }
  }

  method ConfigurePullSecrets(workload: ManagedCluster, s: Setup)
    modifies workload
    ensures workload.objects == old(workload.objects) + PullSecrets(s, |s.pullSecrets|)
  {
    for i := 0 to |s.pullSecrets|
      invariant workload.objects == old(workload.objects) + PullSecrets(s, i)
    {
      workload.AddObject(PullSecret(s, i));
    }
  }

  method RegisterObjects(mcp: ManagedCluster, workload: ManagedCluster, s: Setup)
    requires mcp != workload && mcp.objects == [] && workload.objects == []
    modifies mcp, workload
    ensures mcp.objects == McpPlan(s) && workload.objects == WorkloadPlan(s)
  {
    mcp.AddObject(MCP_HOME_OBJECT);
    ConfigureAccount(mcp, workload, s);
    ConfigureCrds(mcp, s);
    mcp.AddObject(BINDING_OBJECT);
    mcp.AddObject(McpDeployment(s));
    workload.AddObject(Home(s));
    ConfigurePullSecrets(workload, s);
    workload.AddObject(Server(s));
  }

  lemma OneCleanerOf(c: SecretCleaner)
    ensures CleanersOf([c]) == [c.cleaner]
  {
    assert [c][..0] == [];
  }

  lemma TwoClusters(a: ManagedCluster, b: ManagedCluster)
    ensures Registered([a, b]) == a.objects + b.objects
  {
    assert [a, b][..1] == [a] && [a][..0] == [];
    assert Registered([a]) == a.objects;
  }

  /** Registers all objects of a setup with two clusters and the clusters with a new manager. */
  method Assemble(s: Setup) returns (mgr: Manager)
    ensures fresh(mgr) && fresh(mgr.clusters) && mgr.instance == s.instance && mgr.memory == map[]
    ensures mgr.Plan() == Plan(s) && mgr.Cleaners() == CleanersFor(s)
  {
    hide Registered, CleanersOf;
    var workload := new ManagedCluster(WORKLOAD, s.ns);
    var mcp := new ManagedCluster(MCP, MCP_NAMESPACE);
    RegisterObjects(mcp, workload, s);
    mgr := new Manager(s.instance);
    mgr.AddCluster(mcp);
    mgr.AddCluster(workload);
    TwoClusters(mcp, workload);
    var cleaner := new SecretCleaner(WORKLOAD, s.ns, s.pullSecrets + [TOKEN_SECRET]);
    mgr.AddCleaner(cleaner);
    OneCleanerOf(cleaner);
    assert mgr.clusters == [mcp, workload];
  }

  class Reconciler {
    const ctx: Context
    const api: Servers

    constructor (ctx: Context, api: Servers)
      ensures this.ctx == ctx && this.api == api
    {
      this.ctx, this.api := ctx, api;
    }

    /** `saved` is the fate of the update call that stores a generated id. */
    method EnsureInstanceID(obj: Velero, saved: bool) returns (ok: bool)
      modifies obj`labels
      ensures ok <==> old(obj.GetID()) != "" || saved
      ensures obj.GetID() == IdFor(ctx, obj.ns, obj.name, old(obj.GetID()))
      ensures old(obj.GetID()) != "" ==> obj.GetID() == old(obj.GetID()) && obj.labels == old(obj.labels)
      ensures old(obj.GetID()) == "" ==>
                && obj.GetID() == ctx.generate(obj.ns, obj.name)
                && obj.labels == old(obj.labels)["velero.services.openmcp.cloud/instance-id" := obj.GetID()]
    {
      if obj.GetID() == "" {
        obj.labels := obj.labels[INSTANCE_ID := ctx.generate(obj.ns, obj.name)];
        return saved;
      }
      return true;
    }

    /** Builds the manager, registering object after object, or says why it cannot. */
    method CreateObjectManager(obj: Velero, pc: ProviderConfig, saved: bool)
      returns (mgr: Manager?, refusal: Refusal)
      modifies obj`labels
      ensures var (setup, why) := Build(ctx, obj.ns, obj.name, obj.spec, old(obj.GetID()), pc, saved);
              && (mgr == null <==> setup.None?)
              && (mgr == null ==> refusal == why)
              && (mgr != null ==> fresh(mgr) && fresh(mgr.clusters) && mgr.instance == setup.value.instance
                                  && mgr.memory == map[]
                                  && mgr.Plan() == Plan(setup.value) && mgr.Cleaners() == CleanersFor(setup.value))
      ensures obj.labels == if Images.Supported(obj.spec.version, ctx.parse) && old(obj.GetID()) == ""
                            then old(obj.labels)[INSTANCE_ID := ctx.generate(obj.ns, obj.name)] else old(obj.labels)
    {
      hide Registered;
      if !Images.Supported(obj.spec.version, ctx.parse) {
        return null, InvalidUserInput;
      }
      var ok := EnsureInstanceID(obj, saved);
      if !ok {
        return null, UpdateFailed;
      }
      var images := Images.ResolveImages(obj.spec, pc.available);
      if images.None? {
        return null, InvalidUserInput;
      }
      var pod := Deployments.BuildServerPod(
        images.value, obj.spec.plugins, pc.pullSecrets, MCP_NAMESPACE, TOKEN_SECRET, ctx.host, ctx.port);
      var s := Setup(
        obj.GetID(), TenantNamespace(obj.GetID()), ctx.podNs, ctx.ca, pc.poll, ctx.crds, pc.pullSecrets,
        Deployments.McpPod(images.value), pod.Snapshot());
      mgr := Assemble(s);
      refusal := InvalidUserInput;
    }

    /** Reconciles an existing Velero object. */
    method CreateOrUpdate(obj: Velero, pc: ProviderConfig, saved: bool, now: int) returns (outcome: Outcome)
      modifies obj, api
      ensures var build := Build(ctx, obj.ns, obj.name, obj.spec, old(obj.GetID()), pc, saved);
              && (api.world, outcome) == ApplicationOf(api.env, old(api.world), build, now)
              && (build.0.None? ==> obj.phase == Progressing && obj.resources == old(obj.resources))
      ensures var setup := Build(ctx, obj.ns, obj.name, obj.spec, old(obj.GetID()), pc, saved).0;
              setup.Some? ==>
                var report := ApplyPass(api.env, old(api.world), setup.value, now);
                var ready := forall i :: 0 <= i < |obj.resources| ==> obj.resources[i].phase == Ready;
                && obj.resources == ResourcesOf(report.results)
                && (obj.phase == Ready <==> ErrorFree(report) && ready)
                && (obj.phase == Progressing <==> obj.phase != Ready)
                && (outcome == Outcome(false, false) <==> obj.phase == Ready)
                && (outcome.failed <==> !ErrorFree(report))
                && (outcome.requeue <==> ErrorFree(report) && !ready)
      ensures obj.labels == if Images.Supported(obj.spec.version, ctx.parse) && old(obj.GetID()) == ""
                            then old(obj.labels)[INSTANCE_ID := ctx.generate(obj.ns, obj.name)] else old(obj.labels)
    {
      hide Build, Pass, Registered, Plan, CleanersFor, CleanersOf, Images.Supported, PhaseOf;
      var mgr, refusal := CreateObjectManager(obj, pc, saved);
      if mgr == null {
        obj.phase := Progressing;
        return OutcomeOf(refusal);
      }
      var results, failed := mgr.Apply(api, now);
      var resources, containsError := ResultsToResources(results);
      obj.resources := resources;
      obj.phase := Progressing;
      if containsError || failed {
        return Outcome(false, true);
      }
      var ready := AllResourcesReady(resources);
      if ready {
        obj.phase := Ready;
        return Outcome(false, false);
      }
      return Outcome(true, false);
    }

    /**
     Reconciles a Velero object that is being deleted. A clean return says that the tenant's namespace is
     empty if a manager could be built, and nothing otherwise.
    */
    method Delete(obj: Velero, pc: ProviderConfig, saved: bool) returns (outcome: Outcome)
      modifies obj, api
      ensures var build := Build(ctx, obj.ns, obj.name, obj.spec, old(obj.GetID()), pc, saved);
              && (api.world, outcome) == DeletionOf(api.env, old(api.world), build)
              && obj.phase == (if outcome == Outcome(false, false) && build.0.Some? then old(obj.phase)
                               else Terminating)
              && obj.resources == (if build.0.None? then old(obj.resources)
                                   else DeletionResources(api.env, old(api.world), build.0.value))
      ensures var setup := Build(ctx, obj.ns, obj.name, obj.spec, old(obj.GetID()), pc, saved).0;
              setup.Some? ==>
                var report := Pass(api.env, old(api.world), Deleting, Plan(setup.value), CleanersFor(setup.value));
                && (outcome == Outcome(false, false) <==> Finished(report))
                && (outcome.failed <==> !ErrorFree(report))
                && (outcome.requeue <==> ErrorFree(report) && !AllDeleted(report.results))
      ensures var setup := Build(ctx, obj.ns, obj.name, obj.spec, old(obj.GetID()), pc, saved).0;
              var ns := TenantNamespace(IdFor(ctx, obj.ns, obj.name, old(obj.GetID())));
              outcome == Outcome(false, false) && Housed(old(api.world).objs) ==>
                (TenantEmpty(api.world.objs, ns) <==> setup.Some? || TenantEmpty(old(api.world).objs, ns))
      ensures obj.labels == if Images.Supported(obj.spec.version, ctx.parse) && old(obj.GetID()) == ""
                            then old(obj.labels)[INSTANCE_ID := ctx.generate(obj.ns, obj.name)] else old(obj.labels)
    {
      hide Build, Pass, Registered, CleanersOf, Plan, CleanersFor, Memory, Recalled, ResourcesOf;
      hide TenantEmpty, TenantNamespace, IdFor, Housed;
      ghost var id := obj.GetID();
      if Housed(api.world.objs) {
        CleanDeleteExactly(api.env, api.world, ctx, obj.ns, obj.name, obj.spec, id, pc, saved);
      }
      var mgr, refusal := CreateObjectManager(obj, pc, saved);
      if mgr == null {
        obj.phase := Terminating;
        return OutcomeOf(refusal);
      }
      var results, failed := mgr.Delete(api);
      var resources, containsError := ResultsToResources(Recalled(mgr.memory, results));
      obj.resources := resources;
      if containsError || failed {
        obj.phase := Terminating;
        return Outcome(false, true);
      }
      var all := AllItemsDeleted(results);
      if all {
        return Outcome(false, false);
      }
      obj.phase := Terminating;
      return Outcome(true, false);
    }
  }

  // ----- what the controller's answers mean -----

  /** No manager is built exactly for an unsupported version, an unsaved id or an unlisted component. */
  lemma BuildRefusesExactly(
    ctx: Context, ns: string, name: string, spec: Images.VeleroSpec, id: string, pc: ProviderConfig, saved: bool)
    ensures var (setup, why) := Build(ctx, ns, name, spec, id, pc, saved);
            && (setup.None? <==>
                  || !Images.Supported(spec.version, ctx.parse)
                  || (id == "" && !saved)
                  || exists r :: r in Images.Requests(spec) && !Images.Listed(r, pc.available))
            && (setup.None? && why == UpdateFailed <==>
                  Images.Supported(spec.version, ctx.parse) && id == "" && !saved)
  {
    Images.ResolutionFailsExactly(spec, pc.available);
  }

  /** Every container of every managed deployment runs an image and version listed as available. */
  ghost predicate RunsListedImages(plan: seq<Managed>, available: seq<Images.Available>) {
    forall m, c :: m in plan && m.recipe.Run? && c in AllContainers(m.recipe.pod) ==>
      Deployments.FromAvailable(c.image, available)
  }

  /** Image soundness end to end: a built manager runs a supported version, and only listed images. */
  lemma BuiltManagerIsSound(
    ctx: Context, ns: string, name: string, spec: Images.VeleroSpec, id: string, pc: ProviderConfig, saved: bool)
    requires Build(ctx, ns, name, spec, id, pc, saved).0.Some?
    ensures var s := Build(ctx, ns, name, spec, id, pc, saved).0.value;
            && Images.Supported(spec.version, ctx.parse)
            && s.ns != ""
            && RunsListedImages(Plan(s), pc.available)
  {
    var s := Build(ctx, ns, name, spec, id, pc, saved).0.value;
    var images := Images.ImageMap(spec, pc.available).value;
    Deployments.EveryImageIsListed(spec, pc.available, pc.pullSecrets, MCP_NAMESPACE, TOKEN_SECRET, ctx.host, ctx.port);
    forall m, c | m in Plan(s) && m.recipe.Run? && c in AllContainers(m.recipe.pod)
      ensures Deployments.FromAvailable(c.image, pc.available)
    {
      PlanIsWired(s, m);
      if m == McpDeployment(s) {
        assert c == s.mcpPod.containers[0];
      }
    }
  }

  /** What "Ready" promises of one managed object. */
  ghost predicate Serving(s: Setup, objs: Objects, m: Managed) {
    && Applied(s, objs, m)
    && !objs[m.loc].terminating
    && (m.recipe.Run? ==> objs[m.loc].ready == m.recipe.replicas)
    && (!m.recipe.Run? ==> objs[m.loc].uid != 0)
  }

  /** The object a visit found, or the one it left. */
  ghost predicate Saw(env: Env, w: World, instance: string, now: int, m: Managed, obj: Obj) {
    var found, left := Get(env, w, m.loc).0.objs, ApplyOne(env, w, instance, now, m).0.objs;
    (m.loc in found && found[m.loc] == obj) || (m.loc in left && left[m.loc] == obj)
  }

  /** A visit without an error reports on an object the store held during the visit. */
  lemma VisitReportsWhatItSaw(env: Env, w: World, instance: string, now: int, m: Managed)
    requires ApplyOne(env, w, instance, now, m).1.error.None?
    ensures var result := ApplyOne(env, w, instance, now, m).1;
            && result.managed == m
            && Saw(env, w, instance, now, m, result.observed)
            && (m.recipe.Run? ==> result.observed.spec.DeploymentSpec?
                                  && result.observed.spec.replicas == m.recipe.replicas)
  {
  }

  /** What "Ready" promises of an object at the moment it was seen. */
  ghost predicate SeenReady(m: Managed, obj: Obj) {
    !obj.terminating && if m.recipe.Run? then obj.ready == m.recipe.replicas else obj.uid != 0
  }

  /** Visit `i` of an Apply pass saw its object, in the condition that "Ready" promises. */
  ghost predicate SawReady(env: Env, w: World, s: Setup, now: int, i: nat)
    requires i < |Plan(s)|
  {
    var before, m := Visits(env, w, Applies(s, now), Plan(s), i).0, Plan(s)[i];
    var obj := ResultAt(env, w, s, now, i).observed;
    Saw(env, before, s.instance, now, m, obj) && SeenReady(m, obj)
  }

  lemma ReadyVisitWasSeen(env: Env, w: World, s: Setup, now: int, i: nat)
    requires i < |Plan(s)| && ErrorFree(ApplyPass(env, w, s, now))
    ensures var results := ApplyPass(env, w, s, now).results;
            i < |results| && (PhaseOf(results[i]) == Ready <==> SawReady(env, w, s, now, i))
  {
    hide ApplyOne, DeleteOne, Saw;
    ErrorFreeMeansEveryVisit(env, w, s, now);
    PassResultAt(env, w, s, now, i);
    VisitReportsWhatItSaw(env, Visits(env, w, Applies(s, now), Plan(s), i).0, s.instance, now, Plan(s)[i]);
    PlanIsWired(s, Plan(s)[i]);
  }

  /** Without errors a pass reports on managed objects only. */
  lemma ErrorFreePassHasNoLeftovers(env: Env, w: World, s: Setup, now: int)
    requires ErrorFree(ApplyPass(env, w, s, now))
    ensures |ApplyPass(env, w, s, now).results| == |Plan(s)|
  {
    hide DeleteOne, ApplyOne;
    var report, visited := ApplyPass(env, w, s, now), Visited(env, w, s, now);
    PassEndsWithCleanup(env, w, s, now);
    VisitsReportInOrder(env, w, Applies(s, now), Plan(s), |Plan(s)|);
    var extra := Cleanup(env, visited, TenantCleaner(s)).1.value;
    forall i | 0 <= i < |extra|
      ensures extra[i].error.None?
    {
      assert report.results[|Plan(s)| + i] == extra[i];
    }
    var (w1, items) := List(env, visited, WORKLOAD, s.ns);
    SweepResultsAreErrors(env, w1, TenantCleaner(s), items.value, |items.value|);
  }

  /**
   Ready is honest in every environment: an error-free pass reports all resources ready exactly when
   every visit saw its object stored, not terminating and, for a deployment, with the desired replicas ready.
  */
  lemma ReadyWasSeen(env: Env, w: World, s: Setup, now: int)
    requires ErrorFree(ApplyPass(env, w, s, now))
    ensures AllReady(ResourcesOf(ApplyPass(env, w, s, now).results)) <==>
            forall i :: 0 <= i < |Plan(s)| ==> SawReady(env, w, s, now, i)
  {
    hide SawReady, ApplyPass, PhaseOf, Plan, ErrorFree;
    ErrorFreePassHasNoLeftovers(env, w, s, now);
    var results := ApplyPass(env, w, s, now).results;
    forall i | 0 <= i < |Plan(s)|
      ensures ResourcesOf(results)[i].phase == Ready <==> SawReady(env, w, s, now, i)
    {
      ReadyVisitWasSeen(env, w, s, now, i);
    }
  }

  lemma ReadyObjectServes(env: Env, w: World, s: Setup, now: int, i: nat)
    requires Unambiguous(s) && Calm(w.objs) && i < |Plan(s)|
    requires ErrorFree(ApplyPass(env, w, s, now))
    ensures var report := ApplyPass(env, w, s, now);
            && i < |report.results|
            && (PhaseOf(report.results[i]) == Ready <==> Serving(s, report.world.objs, Plan(s)[i]))
  {
    hide ApplyPass, ErrorFree, Plan;
    var report := ApplyPass(env, w, s, now);
    ErrorFreePassApplies(env, w, s, now);
    Fixpoint.ErrorFreePassReportsTheStore(env, w, s, now, i);
    assert Applied(s, report.world.objs, Plan(s)[i]);
    PlanIsWired(s, Plan(s)[i]);
  }

  /**
   Ready is honest and complete: after an error-free pass all resources are reported ready exactly
   when every managed object exists in its desired form, is not terminating and, for a deployment,
   has as many ready replicas as desired.
  */
  lemma ReadyMeansServing(env: Env, w: World, s: Setup, now: int)
    requires Unambiguous(s) && Calm(w.objs)
    requires ErrorFree(ApplyPass(env, w, s, now))
    ensures var report := ApplyPass(env, w, s, now);
            AllReady(ResourcesOf(report.results)) <==> forall m :: m in Plan(s) ==> Serving(s, report.world.objs, m)
  {
    hide ApplyPass, ErrorFree, Plan, PhaseOf, Serving;
    var report := ApplyPass(env, w, s, now);
    ErrorFreePassHasNoLeftovers(env, w, s, now);
    forall i | 0 <= i < |Plan(s)|
      ensures PhaseOf(report.results[i]) == Ready <==> Serving(s, report.world.objs, Plan(s)[i])
    {
      ReadyObjectServes(env, w, s, now, i);
    }
    if AllReady(ResourcesOf(report.results)) {
      forall m | m in Plan(s)
        ensures Serving(s, report.world.objs, m)
      {
        var i :| 0 <= i < |Plan(s)| && Plan(s)[i] == m;
        assert ResourcesOf(report.results)[i].phase == Ready;
      }
    }
    if forall m :: m in Plan(s) ==> Serving(s, report.world.objs, m) {
      forall i | 0 <= i < |ResourcesOf(report.results)|
        ensures ResourcesOf(report.results)[i].phase == Ready
      {
        assert Plan(s)[i] in Plan(s);
      }
    }
  }

  /**
   When an application asks to be repeated, exactly: from calm stores, after an error-free pass, just when
   some managed object is not serving yet - and it is done when all are.
  */
  lemma ApplicationRequeuesExactly(env: Env, w: World, build: (Option<Setup>, Refusal), now: int)
    requires build.0.Some? && Unambiguous(build.0.value) && Calm(w.objs)
    requires !ApplicationOf(env, w, build, now).1.failed
    ensures var (after, answer) := ApplicationOf(env, w, build, now);
            answer.requeue <==> exists m :: m in Plan(build.0.value) && !Serving(build.0.value, after.objs, m)
  {
    hide ApplyPass, ErrorFree, Plan, Serving, PhaseOf;
    var report := ApplyPass(env, w, build.0.value, now);
    ReadyMeansServing(env, w, build.0.value, now);
    assert AllReady(ResourcesOf(report.results)) <==>
           forall i :: 0 <= i < |report.results| ==> PhaseOf(report.results[i]) == Ready by {
      forall i | 0 <= i < |report.results|
        ensures ResourcesOf(report.results)[i].phase == PhaseOf(report.results[i])
      {
      }
    }
  }
}
