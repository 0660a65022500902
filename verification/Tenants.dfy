/** What a built manager works on, and how tenants with different ids are kept apart. */
module Tenants {
  import opened Basics
  import opened Pods
  import opened ApiServer
  import opened Passes
  import opened Wiring
  import opened Runs
  import opened Controller
  import Deployments
  import Images
  import TokenRuns

  // ----- what is captured -----

  /** The id in use: the one on the object, or else the generated one. */
  ghost predicate InUse(ctx: Context, ns: string, name: string, given: string, id: string) {
    (given != "" && id == given) || (given == "" && id == ctx.generate(ns, name))
  }

  /** A setup is made of the id in use, the ProviderConfig and the context, each in its place. */
  lemma BuiltSetup(
    ctx: Context, ns: string, name: string, spec: Images.VeleroSpec, given: string, pc: ProviderConfig, saved: bool,
    id: string)
    requires Build(ctx, ns, name, spec, given, pc, saved).0.Some? && InUse(ctx, ns, name, given, id)
    ensures var s := Build(ctx, ns, name, spec, given, pc, saved).0.value;
            && s.instance == id && s.ns == "velero-" + id
            && s.sourceNs == ctx.podNs && s.ca == ctx.ca && s.crds == ctx.crds
            && s.poll == pc.poll && s.pullSecrets == pc.pullSecrets
  {
  }

  /** The pods of both deployments run the resolved images; the server pod gets the access it needs. */
  lemma BuiltPods(
    ctx: Context, ns: string, name: string, spec: Images.VeleroSpec, given: string, pc: ProviderConfig, saved: bool)
    requires Build(ctx, ns, name, spec, given, pc, saved).0.Some?
    ensures Images.ImageMap(spec, pc.available).Some?
    ensures var s, images := Build(ctx, ns, name, spec, given, pc, saved).0.value,
                             Images.ImageMap(spec, pc.available).value;
            && s.mcpPod == Deployments.McpPod(images)
            && s.serverPod == Deployments.ServerPod(images, spec.plugins, pc.pullSecrets, "velero",
                                                    "kube-api-access-velero-server", ctx.host, ctx.port)
  {
    hide Deployments.ServerPod, Deployments.McpPod;
    assert "kube-api-access-" + "velero-server" == "kube-api-access-velero-server";
  }

  /** Entry `k` is the first to list the last version that is asked for under a name, and gives the image. */
  ghost predicate ImageOfLast(
    reqs: seq<Images.Request>, available: seq<Images.Available>, name: string, image: string, j: nat, k: nat)
  {
    && j < |reqs| && reqs[j].name == name && (forall i :: j < i < |reqs| ==> reqs[i].name != name)
    && Images.FirstListing(reqs[j], available, k)
    && image == available[k].image + ":" + reqs[j].version
  }

  lemma ImageIsThatOfLast(spec: Images.VeleroSpec, available: seq<Images.Available>, i: nat) returns (j: nat, k: nat)
    requires Images.ImageMap(spec, available).Some? && i <= |spec.plugins|
    ensures var reqs := [Images.Request("velero", spec.version)] + spec.plugins;
            var images := Images.ImageMap(spec, available).value;
            && reqs[i].name in images
            && ImageOfLast(reqs, available, reqs[i].name, images[reqs[i].name], j, k)
  {
    var reqs := Images.Requests(spec);
    j := Images.FindLast(reqs, i);
    Images.LastRequestDecides(reqs, available, |reqs|, j);
    Images.ImageOfIsListed(reqs[j], available);
    var n :| 0 <= n < |available| && available[n].name == reqs[j].name && reqs[j].version in available[n].versions;
    k := Images.SomeListingIsFirst(reqs[j], available, n);
    Images.ImageOfFirstListing(reqs[j], available, k);
  }

  /** What is registered for the tenant's secrets, in terms of the inputs. */
  lemma BuiltSecrets(
    ctx: Context, ns: string, name: string, spec: Images.VeleroSpec, given: string, pc: ProviderConfig, saved: bool,
    id: string)
    requires Build(ctx, ns, name, spec, given, pc, saved).0.Some? && InUse(ctx, ns, name, given, id)
    ensures var plan, n := Plan(Build(ctx, ns, name, spec, given, pc, saved).0.value), |ctx.crds|;
            && |plan| == 7 + n + |pc.pullSecrets|
            && plan[4 + n].loc == Loc(WORKLOAD, Secret, "velero-" + id, "kube-api-access-velero-server")
            && plan[4 + n].recipe ==
               TokenFor(Loc(MCP, ServiceAccount, "velero", "velero-server"), "velero", ctx.ca, pc.poll)
            && forall i :: 0 <= i < |pc.pullSecrets| ==>
                 && plan[6 + n + i].loc == Loc(WORKLOAD, Secret, "velero-" + id, pc.pullSecrets[i])
                 && plan[6 + n + i].recipe == CopyOf(Loc(PLATFORM, Secret, ctx.podNs, pc.pullSecrets[i]))
  {
    hide Build, Plan;
    BuiltSetup(ctx, ns, name, spec, given, pc, saved, id);
    WorkloadPlanSpelledOut(Build(ctx, ns, name, spec, given, pc, saved).0.value);
  }

  /**
   The workload on the tenant's side, in terms of the inputs: one replica of the server, which may pull its images,
   mounts the token secret, talks to the given host and port, and runs the image of the last request under its name.
  */
  lemma BuiltServer(
    ctx: Context, ns: string, name: string, spec: Images.VeleroSpec, given: string, pc: ProviderConfig, saved: bool,
    id: string) returns (j: nat, k: nat)
    requires Build(ctx, ns, name, spec, given, pc, saved).0.Some? && InUse(ctx, ns, name, given, id)
    ensures var plan := Plan(Build(ctx, ns, name, spec, given, pc, saved).0.value);
            var m := Last(plan);
            && m.loc == Loc(WORKLOAD, Deployment, "velero-" + id, "velero")
            && m.recipe.Run? && m.recipe.replicas == 1 && LabelsPods(m.recipe.podLabels, id)
            && var pod := m.recipe.pod;
               && pod.pullSecrets == pc.pullSecrets
               && "kube-api-access" in View(pod.volumes, VOLUME_KEY)
               && View(pod.volumes, VOLUME_KEY)["kube-api-access"].source ==
                  SecretVolume("kube-api-access-velero-server", false)
               && |pod.containers| == 1 && |pod.initContainers| == |spec.plugins|
               && pod.containers[0].command == ["/velero"] && pod.containers[0].args == ["server"]
               && View(pod.containers[0].env, ENV_KEY) ==
                  map["VELERO_SCRATCH_DIR" := EnvVar("VELERO_SCRATCH_DIR", "/scratch"),
                      "VELERO_NAMESPACE" := EnvVar("VELERO_NAMESPACE", "velero"),
                      "LD_LIBRARY_PATH" := EnvVar("LD_LIBRARY_PATH", "/plugins"),
                      "KUBERNETES_SERVICE_HOST" := EnvVar("KUBERNETES_SERVICE_HOST", ctx.host),
                      "KUBERNETES_SERVICE_PORT" := EnvVar("KUBERNETES_SERVICE_PORT", ctx.port)]
               && ImageOfLast([Images.Request("velero", spec.version)] + spec.plugins, pc.available, "velero",
                              pod.containers[0].image, j, k)
  {
    hide Build, Plan, View, Images.ImageMap, ImageOfLast, LabelsPods, Deployments.ServerPod;
    BuiltSetup(ctx, ns, name, spec, given, pc, saved, id);
    BuiltPods(ctx, ns, name, spec, given, pc, saved);
    var images := Images.ImageMap(spec, pc.available).value;
    WorkloadPlanSpelledOut(Build(ctx, ns, name, spec, given, pc, saved).0.value);
    Deployments.ServerPodSpelledOut(
      images, spec.plugins, pc.pullSecrets, "velero", "kube-api-access-velero-server", ctx.host, ctx.port);
    j, k := ImageIsThatOfLast(spec, pc.available, 0);
  }

  /** The init containers of that workload, in terms of the inputs. */
  lemma BuiltPlugin(
    ctx: Context, ns: string, name: string, spec: Images.VeleroSpec, given: string, pc: ProviderConfig, saved: bool,
    i: nat) returns (j: nat, k: nat)
    requires Build(ctx, ns, name, spec, given, pc, saved).0.Some? && i < |spec.plugins|
    ensures var m := Last(Plan(Build(ctx, ns, name, spec, given, pc, saved).0.value));
            && m.recipe.Run? && |m.recipe.pod.initContainers| == |spec.plugins|
            && var c := m.recipe.pod.initContainers[i];
               && View(c.mounts, MOUNT_KEY) ==
                  map["plugins" := Mount("plugins", "/target", false),
                      "kube-api-access" :=
                        Mount("kube-api-access", "/var/run/secrets/kubernetes.io/serviceaccount", true)]
               && View(c.env, ENV_KEY) ==
                  map["KUBERNETES_SERVICE_HOST" := EnvVar("KUBERNETES_SERVICE_HOST", ctx.host),
                      "KUBERNETES_SERVICE_PORT" := EnvVar("KUBERNETES_SERVICE_PORT", ctx.port)]
               && ImageOfLast([Images.Request("velero", spec.version)] + spec.plugins, pc.available,
                              spec.plugins[i].name, c.image, j, k)
  {
    hide Build, Plan, View, Images.ImageMap, ImageOfLast, LabelsPods, Deployments.ServerPod;
    BuiltPods(ctx, ns, name, spec, given, pc, saved);
    var images := Images.ImageMap(spec, pc.available).value;
    WorkloadPlanSpelledOut(Build(ctx, ns, name, spec, given, pc, saved).0.value);
    Deployments.PluginContainerSpelledOut(
      images, spec.plugins, pc.pullSecrets, "velero", "kube-api-access-velero-server", ctx.host, ctx.port, i);
    j, k := ImageIsThatOfLast(spec, pc.available, i + 1);
  }

  /** What the poll interval of the ProviderConfig means for pods, when tokens live one hour. */
  lemma OneHourIsEnoughForPoll(
    ctx: Context, ns: string, name: string, spec: Images.VeleroSpec, given: string, pc: ProviderConfig, saved: bool)
    requires Build(ctx, ns, name, spec, given, pc, saved).0.Some?
    requires "kube-api-access-velero-server" !in pc.pullSecrets && 0 < pc.poll
    ensures TokenRuns.SafeLife(Build(ctx, ns, name, spec, given, pc, saved).0.value, 3_600_000_000_000) <==>
            pc.poll <= 3_540_000_000_000
  {
    hide TokenRuns.SafeLife;
    assert "kube-api-access-" + "velero-server" == "kube-api-access-velero-server";
    TokenRuns.OneHourIsEnoughExactly(Build(ctx, ns, name, spec, given, pc, saved).0.value);
  }

  // ----- tenants are kept apart -----

  /** A manager with this setup can be built for an object whose id in use is `id`. */
  ghost predicate BuiltFor(s: Setup, id: string) {
    exists ctx, ns, name, spec, given, pc, saved ::
      Build(ctx, ns, name, spec, given, pc, saved).0 == Some(s) && InUse(ctx, ns, name, given, id)
  }

  lemma BuiltForNamespace(s: Setup, id: string)
    requires BuiltFor(s, id)
    ensures s.instance == id && s.ns == "velero-" + id
  {
    hide Build;
    var ctx, ns, name, spec, given, pc, saved :|
      Build(ctx, ns, name, spec, given, pc, saved).0 == Some(s) && InUse(ctx, ns, name, given, id);
    BuiltSetup(ctx, ns, name, spec, given, pc, saved, id);
  }

  /** Two setups share a namespace exactly when they are built for the same id. */
  lemma NamespacesAreThoseOfIds(s: Setup, id: string, t: Setup, other: string)
    requires BuiltFor(s, id) && BuiltFor(t, other)
    ensures s.ns == t.ns <==> id == other
  {
    hide BuiltFor;
    BuiltForNamespace(s, id);
    BuiltForNamespace(t, other);
    assert s.ns[7..] == id && t.ns[7..] == other;
  }

  /** The namespace of the tenant with this id on the workload cluster, and what is in it. */
  ghost predicate InTenant(x: Loc, id: string) {
    x.cluster == WORKLOAD && (x.ns == "velero-" + id || x == Loc(WORKLOAD, Namespace, "", "velero-" + id))
  }

  /** Whatever a manager works on outside of the control plane is in its tenant, and foreign to other tenants. */
  lemma OwnObjectsAreForeign(s: Setup, id: string, t: Setup, other: string, m: Managed)
    requires BuiltFor(s, id) && BuiltFor(t, other) && id != other
    requires m in Plan(s) && m.loc.cluster != MCP
    ensures InTenant(m.loc, id) && Foreign(t, m.loc)
  {
    hide BuiltFor;
    BuiltForNamespace(s, id);
    BuiltForNamespace(t, other);
    NamespacesAreThoseOfIds(s, id, t, other);
    PlanIsWired(s, m);
  }

  /** A manager with this setup can be built for some other id. */
  ghost predicate OfAnother(t: Setup, id: string) {
    exists other :: other != id && BuiltFor(t, other)
  }

  lemma TenantIsForeign(t: Setup, id: string, x: Loc)
    requires OfAnother(t, id) && InTenant(x, id)
    ensures Foreign(t, x)
  {
    hide BuiltFor;
    var other :| other != id && BuiltFor(t, other);
    BuiltForNamespace(t, other);
    assert ("velero-" + id)[7..] == id && t.ns[7..] == other;
  }

  /**
   Isolation end to end: no run of Apply and Delete passes of other tenants, with any fate of every call, adds or
   changes anything in a tenant's namespace or takes anything firm away from it; ready counts are the cluster's.
  */
  lemma TenantsAreIsolated(env: Env, w: World, steps: seq<Step>, id: string, x: Loc)
    requires InTenant(x, id) && forall i :: 0 <= i < |steps| ==> OfAnother(steps[i].setup, id)
    ensures var a, b := w.objs, Execute(env, w, steps).objs;
            && (x in b ==> x in a && b[x] == a[x].(terminating := b[x].terminating, ready := b[x].ready))
            && (Firm(a, x) ==> Firm(b, x) && b[x] == a[x].(ready := b[x].ready))
  {
    hide Execute, OfAnother, Foreign;
    forall i | 0 <= i < |steps|
      ensures Foreign(steps[i].setup, x)
    {
      TenantIsForeign(steps[i].setup, id, x);
    }
    OthersAddNothing(env, w, steps, x);
    if Firm(w.objs, x) {
      OtherTenantsAreUntouched(env, w, steps, x);
    }
  }
}
