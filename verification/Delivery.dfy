/** What the store holds after an Apply pass, place by place. */
module Delivery {
  import opened Basics
  import opened ApiServer
  import opened Passes
  import opened Deletion
  import opened Wiring
  import opened TokenRefresh
  import opened Convergence
  import opened Controller
  import Images
  import Tenants
  import TokenRuns

  /** The store at the end of an error-free Apply pass from a store at rest. */
  ghost predicate Delivered(env: Env, w: World, s: Setup, now: int) {
    Unambiguous(s) && Calm(w.objs) && ErrorFree(ApplyPass(env, w, s, now))
  }

  /** Every managed object is there and carries the two labels of its manager. */
  lemma LabelsAreDelivered(env: Env, w: World, s: Setup, now: int, m: Managed)
    requires Delivered(env, w, s, now) && m in Plan(s)
    ensures var objs := ApplyPass(env, w, s, now).world.objs;
            && m.loc in objs
            && var labels := objs[m.loc].labels;
               && "app.kubernetes.io/managed-by" in labels
               && labels["app.kubernetes.io/managed-by"] == "service-provider-velero"
               && "velero.services.openmcp.cloud/instance-id" in labels
               && labels["velero.services.openmcp.cloud/instance-id"] == s.instance
  {
    hide ApplyPass, ErrorFree, Plan;
    ErrorFreePassApplies(env, w, s, now);
    assert Applied(s, ApplyPass(env, w, s, now).world.objs, m);
  }

  /** The server pods of a deployment with these replicas, under these labels. */
  ghost predicate Deploys(obj: Obj, replicas: int, instance: string, pod: Pods.Pod) {
    && obj.spec.DeploymentSpec? && obj.spec.replicas == replicas && obj.spec.pod == pod
    && LabelsPods(obj.spec.podLabels, instance)
    && obj.spec.podLabels.Keys <= obj.labels.Keys
    && forall k :: k in obj.spec.podLabels ==> k in obj.labels && obj.labels[k] == obj.spec.podLabels[k]
  }

  lemma DefinitionsAreApplied(s: Setup, objs: Objects)
    requires AllApplied(s, objs)
    ensures forall c :: c in s.crds ==>
              var l := Loc(MCP, CustomResourceDefinition, "", c.name); l in objs && objs[l].spec == CrdSpec(c.schema)
  {
    hide Plan, LabelsPods;
    McpPlanSpelledOut(s);
    forall c | c in s.crds
      ensures var l := Loc(MCP, CustomResourceDefinition, "", c.name); l in objs && objs[l].spec == CrdSpec(c.schema)
    {
      var i :| 0 <= i < |s.crds| && s.crds[i] == c;
      assert Applied(s, objs, Plan(s)[2 + i]);
    }
  }

  /** On the control plane: namespace, account, definitions, binding, and a deployment that runs no server. */
  lemma ControlPlaneIsDelivered(env: Env, w: World, s: Setup, now: int)
    requires Delivered(env, w, s, now)
    ensures var objs := ApplyPass(env, w, s, now).world.objs;
            var binding, deployment := Loc(MCP, ClusterRoleBinding, "", "velero-server"),
                                       Loc(MCP, Deployment, "velero", "velero");
            && Loc(MCP, Namespace, "", "velero") in objs
            && Loc(MCP, ServiceAccount, "velero", "velero-server") in objs
            && binding in objs && objs[binding].spec == BindingSpec("velero-server", "velero", "cluster-admin")
            && deployment in objs && Deploys(objs[deployment], 0, s.instance, s.mcpPod)
            && forall c :: c in s.crds ==>
                 var l := Loc(MCP, CustomResourceDefinition, "", c.name); l in objs && objs[l].spec == CrdSpec(c.schema)
  {
    hide ApplyPass, ErrorFree, Plan, LabelsPods, Swept, Calm;
    var objs, plan, n := ApplyPass(env, w, s, now).world.objs, Plan(s), |s.crds|;
    ErrorFreePassApplies(env, w, s, now);
    McpPlanSpelledOut(s);
    DefinitionsAreApplied(s, objs);
    assert Applied(s, objs, plan[0]) && Applied(s, objs, plan[1]);
    assert Applied(s, objs, plan[2 + n]) && Applied(s, objs, plan[3 + n]);
  }

  /** No Apply pass from a store at rest changes the platform cluster. */
  lemma PlatformIsLeftAlone(env: Env, w: World, s: Setup, now: int, l: Loc)
    requires Calm(w.objs) && l.cluster == PLATFORM
    ensures var objs := ApplyPass(env, w, s, now).world.objs;
            (l in objs <==> l in w.objs) && (l in objs ==> objs[l] == w.objs[l])
  {
    hide DeleteOne, ApplyOne, Cleanup;
    var visited := Visited(env, w, s, now);
    CalmVisits(env, w, s, now, |Plan(s)|);
    PassEndsWithCleanup(env, w, s, now);
    CleanerSpares(env, visited, s);
    CleanupFades(env, visited, TenantCleaner(s));
  }

  lemma ManagedSecretsAreThose(env: Env, w: World, s: Setup, now: int)
    requires Brisk(env, w.calls) && Delivered(env, w, s, now)
    ensures var objs := ApplyPass(env, w, s, now).world.objs;
            forall l: Loc :: l in ManagedSecrets(objs, WORKLOAD, s.ns) <==>
              && l.cluster == WORKLOAD && l.kind == Secret && l.ns == s.ns
              && (l.name in s.pullSecrets || l.name == "kube-api-access-velero-server")
  {
    hide ApplyPass, ErrorFree, Plan;
    var objs := ApplyPass(env, w, s, now).world.objs;
    SecretsAreThoseConfigured(env, w, s, now);
    assert "kube-api-access-" + "velero-server" == "kube-api-access-velero-server";
    forall l: Loc | l.cluster == WORKLOAD && l.kind == Secret && l.ns == s.ns
      ensures Configured(s, l) <==> l.name in s.pullSecrets || l.name == "kube-api-access-velero-server"
    {
      ConfiguredIsKept(s, l);
    }
    assert forall l :: Configured(s, l) ==> l.cluster == WORKLOAD && l.kind == Secret && l.ns == s.ns;
  }

  /**
   On the workload cluster: the tenant's namespace, copies of the pull secrets, and a deployment that runs one
   server; without lingering deletions the managed secrets are exactly the copies and the token secret.
  */
  lemma WorkloadIsDelivered(env: Env, w: World, s: Setup, now: int)
    requires Delivered(env, w, s, now)
    ensures var objs, deployment := ApplyPass(env, w, s, now).world.objs, Loc(WORKLOAD, Deployment, s.ns, "velero");
            && Loc(WORKLOAD, Namespace, "", s.ns) in objs
            && deployment in objs && Deploys(objs[deployment], 1, s.instance, s.serverPod)
            && (forall name :: name in s.pullSecrets ==>
                  var source, copy := Loc(PLATFORM, Secret, s.sourceNs, name), Loc(WORKLOAD, Secret, s.ns, name);
                  && source in w.objs && copy in objs && objs[copy].data == w.objs[source].data
                  && objs[copy].secretType == "kubernetes.io/dockerconfigjson")
            && (Brisk(env, w.calls) ==> forall l: Loc :: l in ManagedSecrets(objs, WORKLOAD, s.ns) <==>
                  && l.cluster == WORKLOAD && l.kind == Secret && l.ns == s.ns
                  && (l.name in s.pullSecrets || l.name == "kube-api-access-velero-server"))
  {
    hide ApplyPass, ErrorFree, Plan, LabelsPods;
    var objs, plan, n, p := ApplyPass(env, w, s, now).world.objs, Plan(s), |s.crds|, |s.pullSecrets|;
    ErrorFreePassApplies(env, w, s, now);
    WorkloadPlanSpelledOut(s);
    assert Applied(s, objs, plan[5 + n]) && Applied(s, objs, plan[6 + n + p]);
    forall name | name in s.pullSecrets
      ensures var source, copy := Loc(PLATFORM, Secret, s.sourceNs, name), Loc(WORKLOAD, Secret, s.ns, name);
              && source in w.objs && copy in objs && objs[copy].data == w.objs[source].data
              && objs[copy].secretType == "kubernetes.io/dockerconfigjson"
    {
      var i :| 0 <= i < p && s.pullSecrets[i] == name;
      assert Applied(s, objs, plan[6 + n + i]);
      PlatformIsLeftAlone(env, w, s, now, Loc(PLATFORM, Secret, s.sourceNs, name));
    }
    if Brisk(env, w.calls) {
      ManagedSecretsAreThose(env, w, s, now);
    }
  }

  /** The expiration annotation is missing, or is less than the poll interval and a minute away. */
  ghost predicate NeedsToken(objs: Objects, l: Loc, now: int, poll: int) {
    l in objs && objs[l].expires.Some? ==> objs[l].expires.value * 1_000_000_000 < now + poll + 60_000_000_000
  }

  /** A pass over a token that is due puts in the answer to one of its own calls, where pods look for it. */
  lemma TokenIsDelivered(env: Env, w: World, s: Setup, now: int) returns (call: nat)
    requires TokenNameIsFree(s) && ErrorFree(ApplyPass(env, w, s, now))
    requires var l := Loc(WORKLOAD, Secret, s.ns, "kube-api-access-velero-server");
             (l in w.objs ==> Firm(w.objs, l)) && NeedsToken(w.objs, l, now, s.poll)
    ensures var after, token := ApplyPass(env, w, s, now).world, env.event(call).token;
            var l := Loc(WORKLOAD, Secret, s.ns, "kube-api-access-velero-server");
            && w.calls <= call < after.calls && env.event(call).fate.Served?
            && l in after.objs
            && after.objs[l].data == map["token" := token.text, "namespace" := "velero", "ca.crt" := s.ca]
            && after.objs[l].expires == Some(token.expiry / 1_000_000_000)
  {
    hide Pass, ErrorFree, IssuedIn;
    assert "kube-api-access-" + "velero-server" == "kube-api-access-velero-server";
    TokenRuns.DuePassMints(env, w, s, now);
    var u := TokenOfPassWasRequested(env, w, s, now);
    call := u.calls;
    assert |"token"| == 5 && |"namespace"| == 9 && |"ca.crt"| == 6;
  }

  /** And a pass over a token that is not due keeps the secret's content, whatever its calls go through. */
  lemma TokenIsKept(env: Env, w: World, s: Setup, now: int)
    requires TokenNameIsFree(s)
    requires var l := Loc(WORKLOAD, Secret, s.ns, "kube-api-access-velero-server");
             Firm(w.objs, l) && !NeedsToken(w.objs, l, now, s.poll)
    ensures var objs := ApplyPass(env, w, s, now).world.objs;
            var l := Loc(WORKLOAD, Secret, s.ns, "kube-api-access-velero-server");
            && l in objs && objs[l].data == w.objs[l].data && objs[l].expires == w.objs[l].expires
  {
    hide Pass, ErrorFree, IssuedIn;
    assert "kube-api-access-" + "velero-server" == "kube-api-access-velero-server";
    NoTokenBeforeTime(env, w, s, now);
    ApplyPassKeepsOrMints(env, w, s, now);
  }

  /**
   From the request to the store: after an error-free Apply pass of a built manager the tenant's namespace holds one
   replica of the server, with the image that the ProviderConfig lists first for the last version asked for, and
   copies of the configured pull secrets.
  */
  lemma RequestIsDelivered(
    env: Env, w: World, now: int, ctx: Context, ns: string, name: string, spec: Images.VeleroSpec, given: string,
    pc: ProviderConfig, saved: bool, id: string) returns (j: nat, k: nat)
    requires Build(ctx, ns, name, spec, given, pc, saved).0.Some? && Tenants.InUse(ctx, ns, name, given, id)
    requires Delivered(env, w, Build(ctx, ns, name, spec, given, pc, saved).0.value, now)
    ensures var objs := ApplyPass(env, w, Build(ctx, ns, name, spec, given, pc, saved).0.value, now).world.objs;
            var server := Loc(WORKLOAD, Deployment, "velero-" + id, "velero");
            && Loc(WORKLOAD, Namespace, "", "velero-" + id) in objs
            && server in objs && objs[server].spec.DeploymentSpec? && objs[server].spec.replicas == 1
            && (var pod := objs[server].spec.pod;
                && |pod.containers| == 1 && |pod.initContainers| == |spec.plugins| && pod.pullSecrets == pc.pullSecrets
                && Tenants.ImageOfLast([Images.Request("velero", spec.version)] + spec.plugins, pc.available, "velero",
                                       pod.containers[0].image, j, k))
            && forall secret :: secret in pc.pullSecrets ==>
                 var source := Loc(PLATFORM, Secret, ctx.podNs, secret);
                 var copy := Loc(WORKLOAD, Secret, "velero-" + id, secret);
                 source in w.objs && copy in objs && objs[copy].data == w.objs[source].data
  {
    hide Build, ApplyPass, ErrorFree, Plan, View, LabelsPods, Tenants.ImageOfLast;
    var s := Build(ctx, ns, name, spec, given, pc, saved).0.value;
    WorkloadIsDelivered(env, w, s, now);
    Tenants.BuiltSetup(ctx, ns, name, spec, given, pc, saved, id);
    j, k := Tenants.BuiltServer(ctx, ns, name, spec, given, pc, saved, id);
    WorkloadPlanSpelledOut(s);
  }
}
