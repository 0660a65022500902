/** The objects the controller manages, in the order in which it registers them. */
module Wiring {
  import opened Basics
  import opened Pods
  import opened ApiServer
  import opened Passes
  import opened Deletion
  import opened Sparing
  import opened Teardown

  const PLATFORM: nat := 0
  const MCP: nat := 1
  const WORKLOAD: nat := 2

  const MCP_NAMESPACE := "velero"
  const ACCOUNT_NAME := "velero-server"
  const BINDING_NAME := "velero-server"
  const DEPLOYMENT_NAME := "velero"

  /** The name of the secret that carries an account's token. */
  function TokenSecretName(account: string): string {
    "kube-api-access-" + account
  }

  const TOKEN_SECRET := TokenSecretName(ACCOUNT_NAME)

  datatype Crd = Crd(name: string, schema: string)

  /** Everything the registered objects capture from the Velero object and the ProviderConfig. */
  datatype Setup = Setup(
    instance: string, ns: string, sourceNs: string, ca: string, poll: int, crds: seq<Crd>,
    pullSecrets: seq<string>, mcpPod: Pod, serverPod: Pod)

  function McpLoc(kind: Kind, name: string): Loc {
    Loc(MCP, kind, MCP_NAMESPACE, name)
  }

  const MCP_HOME := NamespaceLoc(MCP, MCP_NAMESPACE)
  const ACCOUNT := McpLoc(ServiceAccount, ACCOUNT_NAME)

  function CrdLoc(name: string): Loc {
    Loc(MCP, CustomResourceDefinition, "", name)
  }

  function TenantLoc(ns: string, kind: Kind, name: string): Loc {
    Loc(WORKLOAD, kind, ns, name)
  }

  function SourceLoc(s: Setup, name: string): Loc {
    Loc(PLATFORM, Secret, s.sourceNs, name)
  }

  function PodLabels(instance: string): map<string, string> {
    map["app.kubernetes.io/name" := DEPLOYMENT_NAME, "app.kubernetes.io/instance" := instance]
  }

  /** The place of the token secret in a tenant's namespace. */
  function TokenLoc(s: Setup): Loc {
    TenantLoc(s.ns, Secret, TOKEN_SECRET)
  }

  /** Only the token object is managed at the place of the token secret. */
  predicate TokenNameIsFree(s: Setup) {
    TOKEN_SECRET !in s.pullSecrets
  }

  // ----- the managed objects; ids are the order of construction -----

  const MCP_HOME_OBJECT := NewManaged(0, MCP_HOME, Some(OrphanPolicy), [], NoOp)
  const ACCOUNT_OBJECT := NewManaged(1, ACCOUNT, None, [], NoOp)

  function TokenObject(s: Setup): Managed {
    NewManaged(2, TokenLoc(s), None, [ACCOUNT_OBJECT],
               TokenFor(ACCOUNT, MCP_NAMESPACE, s.ca, s.poll))
  }

  const BINDING_OBJECT := NewManaged(3, Loc(MCP, ClusterRoleBinding, "", BINDING_NAME), None, [],
                              Grant(ACCOUNT_NAME, MCP_NAMESPACE))

  function McpDeployment(s: Setup): Managed {
    NewManaged(4, McpLoc(Deployment, DEPLOYMENT_NAME), None, [], Run(0, PodLabels(s.instance), s.mcpPod))
  }

  function Home(s: Setup): Managed {
    NewManaged(5, NamespaceLoc(WORKLOAD, s.ns), Some(DeletePolicy), [], NoOp)
  }

  function Server(s: Setup): Managed {
    NewManaged(6, TenantLoc(s.ns, Deployment, DEPLOYMENT_NAME), None, [],
               Run(1, PodLabels(s.instance), s.serverPod))
  }

  function CrdObject(s: Setup, i: nat): Managed
    requires i < |s.crds|
  {
    NewManaged(7 + i, CrdLoc(s.crds[i].name), Some(OrphanPolicy), [], Definition(s.crds[i].schema))
  }

  function PullSecret(s: Setup, i: nat): Managed
    requires i < |s.pullSecrets|
  {
    NewManaged(7 + |s.crds| + i, TenantLoc(s.ns, Secret, s.pullSecrets[i]), None, [],
               CopyOf(SourceLoc(s, s.pullSecrets[i])))
  }

  function CrdObjects(s: Setup, n: nat): seq<Managed>
    requires n <= |s.crds|
  {
    seq(n, i requires 0 <= i < n => CrdObject(s, i))
  }

  function PullSecrets(s: Setup, n: nat): seq<Managed>
    requires n <= |s.pullSecrets|
  {
    seq(n, i requires 0 <= i < n => PullSecret(s, i))
  }

  function McpPlan(s: Setup): seq<Managed> {
    [MCP_HOME_OBJECT, ACCOUNT_OBJECT] + CrdObjects(s, |s.crds|) + [BINDING_OBJECT, McpDeployment(s)]
  }

  function WorkloadPlan(s: Setup): seq<Managed> {
    [TokenObject(s), Home(s)] + PullSecrets(s, |s.pullSecrets|) + [Server(s)]
  }

  function Plan(s: Setup): seq<Managed> {
    McpPlan(s) + WorkloadPlan(s)
  }

  /** The pull secrets and the token secret are kept; every other managed secret of the tenant goes. */
  function TenantCleaner(s: Setup): Cleaner {
    Cleaner(WORKLOAD, s.ns, s.pullSecrets + [TOKEN_SECRET])
  }

  function CleanersFor(s: Setup): seq<Cleaner> {
    [TenantCleaner(s)]
  }

  /** The managed objects by kind, without their positions. */
  ghost predicate Wired(s: Setup, m: Managed) {
    || m == MCP_HOME_OBJECT || m == ACCOUNT_OBJECT || m == BINDING_OBJECT || m == McpDeployment(s)
    || m == TokenObject(s) || m == Home(s) || m == Server(s)
    || (exists i :: 0 <= i < |s.crds| && m == CrdObject(s, i))
    || (exists i :: 0 <= i < |s.pullSecrets| && m == PullSecret(s, i))
  }

  lemma PlanIsWired(s: Setup, m: Managed)
    ensures m in Plan(s) <==> Wired(s, m)
  {
    var crds, pulls := CrdObjects(s, |s.crds|), PullSecrets(s, |s.pullSecrets|);
    assert m in Plan(s) <==>
           || m in [MCP_HOME_OBJECT, ACCOUNT_OBJECT] || m in crds || m in [BINDING_OBJECT, McpDeployment(s)]
           || m in [TokenObject(s), Home(s)] || m in pulls || m in [Server(s)];
    if i :| 0 <= i < |s.crds| && m == CrdObject(s, i) {
      assert crds[i] == m;
    }
    if i :| 0 <= i < |s.pullSecrets| && m == PullSecret(s, i) {
      assert pulls[i] == m;
    }
  }

  /** The position of the token secret in the plan: it is the first object of the workload cluster. */
  function TokenIndex(s: Setup): nat {
    4 + |s.crds|
  }

  lemma TokenAtItsIndex(s: Setup, i: nat)
    requires TokenNameIsFree(s) && i < |Plan(s)|
    ensures TokenIndex(s) < |Plan(s)| && Plan(s)[TokenIndex(s)] == TokenObject(s)
    ensures i != TokenIndex(s) ==> Plan(s)[i].loc != TokenLoc(s)
  {
    var later := [Home(s)] + PullSecrets(s, |s.pullSecrets|) + [Server(s)];
    assert WorkloadPlan(s) == [TokenObject(s)] + later;
    assert Plan(s)[TokenIndex(s)] == WorkloadPlan(s)[0];
    if i > TokenIndex(s) {
      var m := later[i - TokenIndex(s) - 1];
      assert m in later;
      assert Plan(s)[i] == m;
    } else if i < TokenIndex(s) {
      assert Plan(s)[i] in McpPlan(s);
      assert forall m :: m in McpPlan(s) ==> m.loc.cluster == MCP;
    }
  }

  lemma PlanStart(s: Setup)
    ensures |Plan(s)| > TokenIndex(s) + 2
    ensures Plan(s)[0] == MCP_HOME_OBJECT && Plan(s)[1] == ACCOUNT_OBJECT
    ensures Plan(s)[TokenIndex(s)] == TokenObject(s) && Plan(s)[TokenIndex(s) + 1] == Home(s)
  {
    assert WorkloadPlan(s)[0] == TokenObject(s) && WorkloadPlan(s)[1] == Home(s);
  }

  lemma ClusterAt(s: Setup, i: nat)
    requires i < |Plan(s)|
    ensures Plan(s)[i].loc.cluster == if i < TokenIndex(s) then MCP else WORKLOAD
  {
    if i < TokenIndex(s) {
      assert Plan(s)[i] in McpPlan(s);
    } else {
      assert Plan(s)[i] in WorkloadPlan(s);
    }
  }

  lemma TokenComesFirst(s: Setup, n: nat)
    requires n < |Plan(s)| && Plan(s)[n].recipe.TokenFor?
    ensures n == TokenIndex(s)
  {
    ClusterAt(s, n);
    PlanIsWired(s, Plan(s)[n]);
  }

  /** The position of a pull secret with the token secret's name. */
  lemma ClashIndex(s: Setup) returns (k: nat)
    requires !TokenNameIsFree(s)
    ensures TokenIndex(s) + 1 < k < |Plan(s)|
    ensures Plan(s)[k].loc == TokenLoc(s) && Plan(s)[k].recipe == CopyOf(SourceLoc(s, TOKEN_SECRET))
  {
    var i :| 0 <= i < |s.pullSecrets| && s.pullSecrets[i] == TOKEN_SECRET;
    k := TokenIndex(s) + 2 + i;
    assert WorkloadPlan(s)[2 + i] == PullSecrets(s, |s.pullSecrets|)[i];
  }

  lemma OneCleaner(env: Env, start: Report, s: Setup)
    requires !start.failed
    ensures var after := Cleanups(env, start, CleanersFor(s), 1);
            var (w, results) := Cleanup(env, start.world, TenantCleaner(s));
            && after.world == w
            && after.failed == results.None?
            && after.results == start.results + (if results.Some? then results.value else [])
  {
    assert Cleanups(env, start, CleanersFor(s), 0) == start;
  }

  /** The labels of server pods: the name, and the instance they belong to. */
  ghost predicate LabelsPods(labels: map<string, string>, instance: string) {
    && labels.Keys == {"app.kubernetes.io/name", "app.kubernetes.io/instance"}
    && labels["app.kubernetes.io/name"] == "velero" && labels["app.kubernetes.io/instance"] == instance
  }

  lemma PodLabelsAreThose(instance: string)
    ensures LabelsPods(PodLabels(instance), instance)
  {
    assert |"app.kubernetes.io/name"| != |"app.kubernetes.io/instance"|;
  }

  lemma McpPart(s: Setup)
    ensures var n, part := |s.crds|, McpPlan(s);
            && |part| == 4 + n
            && part[0] == MCP_HOME_OBJECT && part[1] == ACCOUNT_OBJECT
            && (forall i :: 2 <= i < 2 + n ==> part[i] == CrdObject(s, i - 2))
            && part[2 + n] == BINDING_OBJECT && part[3 + n] == McpDeployment(s)
  {
    hide McpDeployment, CrdObject;
    Sandwich([MCP_HOME_OBJECT, ACCOUNT_OBJECT], CrdObjects(s, |s.crds|), [BINDING_OBJECT, McpDeployment(s)]);
    forall i | 2 <= i < 2 + |s.crds|
      ensures McpPlan(s)[i] == CrdObject(s, i - 2)
    {
      assert CrdObjects(s, |s.crds|)[i - 2] == CrdObject(s, i - 2);
    }
  }

  lemma McpPlanAt(s: Setup)
    ensures var n, plan := |s.crds|, Plan(s);
            && |plan| >= 4 + n
            && plan[0] == MCP_HOME_OBJECT && plan[1] == ACCOUNT_OBJECT
            && (forall i :: 2 <= i < 2 + n ==> plan[i] == CrdObject(s, i - 2))
            && plan[2 + n] == BINDING_OBJECT && plan[3 + n] == McpDeployment(s)
  {
    hide McpPlan, WorkloadPlan, McpDeployment, CrdObject;
    McpPart(s);
    assert forall j :: 0 <= j < |McpPlan(s)| ==> Plan(s)[j] == McpPlan(s)[j];
  }

  /** What is registered for the control plane, spelled out, in the order of the visits. */
  lemma McpPlanSpelledOut(s: Setup)
    ensures var n, plan := |s.crds|, Plan(s);
            && |plan| >= 4 + n
            && plan[0].loc == Loc(MCP, Namespace, "", "velero") && plan[0].policy == OrphanPolicy
            && plan[0].recipe == NoOp
            && plan[1].loc == Loc(MCP, ServiceAccount, "velero", "velero-server") && plan[1].policy == DeletePolicy
            && plan[1].recipe == NoOp
            && (forall i :: 2 <= i < 2 + n ==>
                  && plan[i].loc == Loc(MCP, CustomResourceDefinition, "", s.crds[i - 2].name)
                  && plan[i].policy == OrphanPolicy && plan[i].recipe == Definition(s.crds[i - 2].schema))
            && plan[2 + n].loc == Loc(MCP, ClusterRoleBinding, "", "velero-server")
            && plan[2 + n].policy == DeletePolicy && plan[2 + n].recipe == Grant("velero-server", "velero")
            && plan[3 + n].loc == Loc(MCP, Deployment, "velero", "velero") && plan[3 + n].policy == DeletePolicy
            && plan[3 + n].recipe.Run? && plan[3 + n].recipe.replicas == 0 && plan[3 + n].recipe.pod == s.mcpPod
            && LabelsPods(plan[3 + n].recipe.podLabels, s.instance)
  {
    hide Plan, PodLabels, LabelsPods;
    PodLabelsAreThose(s.instance);
    McpPlanAt(s);
  }

  lemma WorkloadPart(s: Setup)
    ensures var p, part := |s.pullSecrets|, WorkloadPlan(s);
            && |part| == 3 + p
            && part[0] == TokenObject(s) && part[1] == Home(s) && part[2 + p] == Server(s)
            && (forall i :: 2 <= i < 2 + p ==> part[i] == PullSecret(s, i - 2))
  {
    hide TokenObject, Home, PullSecret, Server;
    Sandwich([TokenObject(s), Home(s)], PullSecrets(s, |s.pullSecrets|), [Server(s)]);
    forall i | 2 <= i < 2 + |s.pullSecrets|
      ensures WorkloadPlan(s)[i] == PullSecret(s, i - 2)
    {
      assert PullSecrets(s, |s.pullSecrets|)[i - 2] == PullSecret(s, i - 2);
    }
  }

  lemma WorkloadPlanAt(s: Setup)
    ensures var n, p, plan := |s.crds|, |s.pullSecrets|, Plan(s);
            && |plan| == 7 + n + p
            && plan[1] == ACCOUNT_OBJECT && plan[4 + n] == TokenObject(s) && plan[5 + n] == Home(s)
            && (forall i :: 6 + n <= i < 6 + n + p ==> plan[i] == PullSecret(s, i - 6 - n))
            && plan[6 + n + p] == Server(s)
  {
    hide McpPlan, WorkloadPlan, TokenObject, Home, PullSecret, Server;
    McpPlanAt(s);
    McpPart(s);
    WorkloadPart(s);
    var n := 4 + |s.crds|;
    assert forall i :: n <= i < |Plan(s)| ==> Plan(s)[i] == WorkloadPlan(s)[i - n];
  }

  /** What is registered for the tenant on the workload cluster, spelled out, in the order of the visits. */
  lemma WorkloadPlanSpelledOut(s: Setup)
    ensures var n, p, plan := |s.crds|, |s.pullSecrets|, Plan(s);
            && |plan| == 7 + n + p
            && plan[4 + n].loc == Loc(WORKLOAD, Secret, s.ns, "kube-api-access-velero-server")
            && plan[4 + n].policy == DeletePolicy && plan[4 + n].deps == [plan[1]]
            && plan[4 + n].recipe ==
               TokenFor(Loc(MCP, ServiceAccount, "velero", "velero-server"), "velero", s.ca, s.poll)
            && plan[5 + n].loc == Loc(WORKLOAD, Namespace, "", s.ns) && plan[5 + n].policy == DeletePolicy
            && plan[5 + n].recipe == NoOp
            && (forall i :: 6 + n <= i < 6 + n + p ==>
                  var name := s.pullSecrets[i - 6 - n];
                  && plan[i].loc == Loc(WORKLOAD, Secret, s.ns, name) && plan[i].policy == DeletePolicy
                  && plan[i].recipe == CopyOf(Loc(PLATFORM, Secret, s.sourceNs, name)))
            && plan[6 + n + p].loc == Loc(WORKLOAD, Deployment, s.ns, "velero")
            && plan[6 + n + p].policy == DeletePolicy && plan[6 + n + p].recipe.Run?
            && plan[6 + n + p].recipe.replicas == 1 && plan[6 + n + p].recipe.pod == s.serverPod
            && LabelsPods(plan[6 + n + p].recipe.podLabels, s.instance)
  {
    hide Plan, PodLabels, LabelsPods;
    PodLabelsAreThose(s.instance);
    WorkloadPlanAt(s);
    assert "kube-api-access-" + "velero-server" == "kube-api-access-velero-server";
  }

  /** The only dependency is that of the token secret on the service account. */
  lemma OnlyDependency(s: Setup, m: Managed, d: Managed)
    ensures Dependency(Plan(s), m, d) <==> m == TokenObject(s) && d == ACCOUNT_OBJECT
  {
    PlanIsWired(s, m);
  }

  lemma NoDependents(plan: seq<Managed>, d: Managed)
    requires forall m :: m in plan ==> d !in m.deps
    ensures Dependents(plan, d) == []
  {
    if Dependents(plan, d) != [] {
      DependentIff(plan, d, Dependents(plan, d)[0]);
    }
  }

  /** The account is registered once, at the second place. */
  lemma AccountIndex(s: Setup, k: nat)
    requires k < |Plan(s)|
    ensures Plan(s)[k] == ACCOUNT_OBJECT <==> k == 1
  {
    McpPlanSpelledOut(s);
    PlanStart(s);
    ClusterAt(s, k);
    if 2 <= k < 2 + |s.crds| {
      assert Plan(s)[k].loc.kind == CustomResourceDefinition;
    }
  }

  lemma OneDependent(m: Managed, d: Managed)
    requires m.deps == [d]
    ensures Dependents([m], d) == [m]
  {
    assert Front([m]) == [] && Front([d]) == [];
    assert CountOf([d], d) == 1 && Copies(m, 1) == [m];
  }

  /** What depends on the object at place `k`: on the account the token secret, on everything else nothing. */
  lemma DependentsAt(s: Setup, k: nat)
    requires k < |Plan(s)|
    ensures Dependents(Plan(s), Plan(s)[k]) == if k == 1 then [TokenObject(s)] else []
  {
    hide Plan;
    var plan, d, t := Plan(s), Plan(s)[k], TokenIndex(s);
    AccountIndex(s, k);
    if k != 1 {
      forall m | m in plan
        ensures d !in m.deps
      {
        OnlyDependency(s, m, d);
      }
      NoDependents(plan, d);
    } else {
      PlanStart(s);
      var before, after := plan[..t], plan[t + 1..];
      assert plan == (before + [TokenObject(s)]) + after;
      forall j | 0 <= j < |plan| && j != t
        ensures d !in plan[j].deps
      {
        OnlyDependency(s, plan[j], d);
        if plan[j] == TokenObject(s) {
          TokenComesFirst(s, j);
        }
      }
      NoDependents(before, d);
      NoDependents(after, d);
      DependentsInVisitOrder(before + [TokenObject(s)], after, d);
      DependentsInVisitOrder(before, [TokenObject(s)], d);
      OneDependent(TokenObject(s), d);
    }
  }

  lemma WiringIsWellWired(s: Setup)
    ensures WellWired(Plan(s), CleanersFor(s), false)
  {
    var token := TokenObject(s);
    forall m, d | Dependency(Plan(s), m, d)
      ensures forall x :: x in Plan(s) && Aims(x, d.loc) ==> Blocks(Plan(s), false, x, m)
      ensures forall c :: c in CleanersFor(s) ==> !Sweeps(c, d.loc)
    {
      OnlyDependency(s, m, d);
      forall x | x in Plan(s) && Aims(x, d.loc)
        ensures Blocks(Plan(s), false, x, m)
      {
        PlanIsWired(s, x);
        assert x == ACCOUNT_OBJECT;
        DependentIff(Plan(s), x, token);
        assert Chain(Plan(s), false, [token.loc]);
      }
    }
  }

  /** Places the controller never deletes at or around: the MCP namespace, definitions, the platform cluster. */
  ghost predicate Spared(x: Loc) {
    || x == MCP_HOME
    || x.cluster == PLATFORM
    || (x.cluster == MCP && x.kind == CustomResourceDefinition)
  }

  lemma SparedIsUntouchable(s: Setup, x: Loc)
    requires Spared(x)
    ensures Untouchable(Plan(s), CleanersFor(s), x)
  {
    forall m | m in Plan(s) && m.policy.DeletePolicy?
      ensures m.loc != x && !x.LivesIn(m.loc)
    {
      PlanIsWired(s, m);
    }
  }

  lemma OrphansAreSpared(s: Setup)
    ensures forall m :: m in Plan(s) && m.policy.OrphanPolicy? ==> Untouchable(Plan(s), CleanersFor(s), m.loc)
  {
    forall m | m in Plan(s) && m.policy.OrphanPolicy?
      ensures Untouchable(Plan(s), CleanersFor(s), m.loc)
    {
      PlanIsWired(s, m);
      SparedIsUntouchable(s, m.loc);
    }
  }

  // ----- teardown of the concrete wiring -----

  lemma {:induction false} DepthBoundHolds(plan: seq<Managed>, bound: nat)
    requires forall m :: m in plan ==> Depth(m) <= bound
    ensures MaxDepth(plan) <= bound
  {
    if plan != [] {
      DepthBoundHolds(plan[1..], bound);
    }
  }

  lemma PlanDepth(s: Setup)
    ensures MaxDepth(Plan(s)) == 1
  {
    assert Depth(ACCOUNT_OBJECT) == 0;
    assert TokenObject(s).deps[1..] == [];
    assert Depth(TokenObject(s)) == 1;
    PlanIsWired(s, TokenObject(s));
    DepthIsBounded(Plan(s), TokenObject(s));
    forall m | m in Plan(s)
      ensures Depth(m) <= 1
    {
      PlanIsWired(s, m);
    }
    DepthBoundHolds(Plan(s), 1);
  }

  /** From every store the third Delete pass finishes. */
  lemma ThirdPassFinishes(env: Env, w: World, s: Setup)
    requires Prompt(env, w.calls)
    ensures FinishesAt(env, w, Plan(s), CleanersFor(s), 2)
  {
    hide Plan, FinishesAt;
    if OrphanHolds(Plan(s), w.objs) {
      var m, d :| OrphanHold(Plan(s), w.objs, m, d);
      OnlyDependency(s, m, d);
    }
    PlanDepth(s);
    TeardownEnds(env, w, Plan(s), CleanersFor(s));
  }

  /** Account and token secret are a chain, and the account comes first. */
  lemma TokenChain(s: Setup)
    ensures Staircase(Plan(s), CleanersFor(s), [ACCOUNT_OBJECT, TokenObject(s)])
  {
    var plan, token := Plan(s), TokenObject(s);
    PlanIsWired(s, ACCOUNT_OBJECT);
    PlanIsWired(s, token);
    assert ACCOUNT_OBJECT in token.deps;
    forall x | x in plan && Aims(x, ACCOUNT)
      ensures x == ACCOUNT_OBJECT
    {
      PlanIsWired(s, x);
    }
    forall p, q | 0 <= p < |plan| && 0 <= q < |plan| && plan[p] == ACCOUNT_OBJECT && Aims(plan[q], token.loc)
      ensures p < q
    {
      ClusterAt(s, p);
      ClusterAt(s, q);
    }
    assert Below(plan, CleanersFor(s), ACCOUNT_OBJECT, token);
  }

  /** Three passes are needed as soon as account and token secret exist, whatever the calls do. */
  lemma ThreePassesAreNeeded(env: Env, w: World, s: Setup)
    requires Firm(w.objs, ACCOUNT) && Firm(w.objs, TokenLoc(s))
    ensures !FinishesAt(env, w, Plan(s), CleanersFor(s), 0)
    ensures !FinishesAt(env, w, Plan(s), CleanersFor(s), 1)
  {
    TokenChain(s);
    ChainNeedsPasses(env, w, Plan(s), CleanersFor(s), [ACCOUNT_OBJECT, TokenObject(s)], 0);
    ChainNeedsPasses(env, w, Plan(s), CleanersFor(s), [ACCOUNT_OBJECT, TokenObject(s)], 1);
  }
}
