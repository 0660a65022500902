# Verified model of service-provider-velero

`service-provider-velero` runs Velero for tenants across clusters. Velero's API and its service
account live on a managed control plane (MCP), the Velero server runs in a tenant namespace of a
workload cluster, and pull secrets are copied from the platform cluster. Every reconciliation is one
pass over all managed objects, Apply or Delete; any API call of a pass can fail, lose its reply, or
meet objects that are terminating.

The project models that protocol and proves what it keeps and what it reaches:

- **The store and its environment** (`ApiServer`, `ApiClient`). One store holds the objects of all
  clusters. An environment oracle decides the fate of every call (served, rejected, or effective with the
  reply lost), which terminating objects vanish before it, and whose deletion lingers. Namespaced objects
  need an existing, non-terminating namespace, and a removed namespace takes its contents along.
- **The pass engine** (`Passes`, `Managers`). What a pass does is a function of store and environment;
  the manager's classes and loops are proved to compute exactly that function. `Answers` says what passes, visits
  and checks are, step by step and reply by reply.
- **Deletion** (`Deletion`, `Losses`, `Sparing`, `Teardown`, `Standstill`): dependency order and exactly which wirings keep
  it, the cleaner, clean finish, and after how many passes repeated passes end, from above and below.
- **The concrete wiring and its runs** (`Wiring`, `Runs`, `Reference`, `Scripts`): the registered objects, orphan
  safety, tenant isolation, and referential integrity between token secret and service account.
- **Token refresh** (`TokenRefresh`, `TokenRuns`): what passes do to the token secret, which tokens pods see over
  whole runs, and how often tokens are issued.
- **Apply** (`Convergence`, `Fixpoint`, `Delivery`): convergence in two passes, fixed point, history independence,
  and what the store then holds, place by place.
- **Images, pods and the controller** (`Images`, `Pods`, `PodBuilding`, `Deployments`, `Labels`, `Controller`),
  and what that means for tenants: which inputs end up where, and how tenants are kept apart (`Tenants`).

`Basics` holds optional values and keyed sequences. `dafny verify dfyconfig.toml` checks everything.

## Findings

- Pods see nothing but unexpired tokens exactly when no pull secret has the token secret's name
  (`kube-api-access-velero-server`) and tokens live at least the poll interval plus one minute
  (`TokenRuns.SafeLifeExactly`). With the one-hour tokens the controller asks for, that means a poll
  interval of at most 59 minutes; the poll interval is a free ProviderConfig value. With a pull secret of that name
  pods see its data instead of a token (`TokenRuns.ClashHidesToken`).
- A token secret can be left without its service account. Delete passes never do it; an Apply pass can, exactly
  when the account is not firmly in place at its start and either a pull secret with the token secret's name is there
  to be copied, or the account is on its way out while the tenant's namespace is open
  (`Reference.ReferenceKeptExactly`). One Delete and one Apply pass are enough when the account's deletion lingers
  (`Reference.LingeringAccountLosesReference`).
- A container runs the image of the last request under its name, which is the requested one exactly when both ask
  for the same version; a plugin named `velero` is such a request (`Deployments.RequestedImageExactly`).
- Teardown never ends exactly when a dependent of a managed object is interlocked with others: every deletion aimed
  at one of them waits for another (`Standstill.TeardownExactly`). An existing orphan that depends on a managed object
  is the simple case (`Standstill.OrphansHoldExactly`); the concrete wiring has none (`Wiring.ThirdPassFinishes`).
- `Delete` returns as cleanly when user input is refused as when everything is gone: a clean return means an empty
  tenant namespace exactly when a manager was built or it was empty before (`Controller.CleanDeleteExactly`).
- A Delete pass without errors reports its objects as Pending or Progressing, even when they are gone
  (`Controller.ErrorFreeDeletionReports`): in-memory objects are filled only by lookups of dependents.
- The version window admits the pre-releases of 1.19.0 and refuses those of 1.16.0 (`Images.WindowExactly`).
- `SetInstanceID` loses its label on an object without a label map (`Labels.SetInstanceID`); the manager is
  safe because it calls `SetManagedBy` first (`Labels.LabelObject`).

## Vocabulary of the conditions

The theorems name their hypotheses:

- `Prompt`: from the start on every call is served. `Brisk`: from the start on no deletion lingers. `Calm`: nothing
  in the store is terminating. `Housed`: every namespaced object has its namespace, as in every store a server holds.
- `Firm(objs, l)`: the object exists, and neither it nor its namespace is terminating. `Fades(a, b)`: `b` is
  `a` with objects gone or marked terminating.
- `WellWired(plan, cs)`: whatever is aimed at a dependency waits for the dependent, and no cleaner reaches it.
  `SafeStart(s, objs)`: the condition on the store at the start of an Apply pass that the second finding describes.
- `Delivered`: an error-free Apply pass of an unambiguous setup from a calm store. `InTenant(x, id)`: `x` is the
  namespace "velero-" with the id on the workload cluster, or in it.
- `Steady(objs, l)`: if the object exists, it is `Firm`. `Truthful`: the token secret's record, if there is one, is
  that of an issued token.
- `IsTag`: a version without a colon, as image tags are.
- `Unambiguous(s)`: no two definitions share a name and differ, and no pull secret has the token secret's name
  (`TokenNameIsFree`).

## Model

| member | source | states |
|---|---|---|
| Passes.DependentsAreTheInverse | pkg/resources/manager.go:179-195 | the dependents of an object are the exact inverse of the dependency lists, with multiplicity: once per registration of the dependent and per mention |
| Passes.DependentsInVisitOrder | pkg/resources/manager.go:181-192 | dependents come in visit order: those of a longer plan are those of its parts, in sequence |
| Managers.Manager.GetDependents | pkg/resources/manager.go:179-195 | the map filled in place by the three nested loops has for every object exactly its dependents |
| Managers.Manager.CheckForDependents | pkg/resources/manager.go:158-177 | the loop issues one lookup per dependent and collects exactly the specified causes |
| Deletion.CheckPassesExactly | pkg/resources/manager.go:158-177 | the blocking error is nil if and only if every dependent was reported "not found"; every other reply blocks |
| Deletion.CheckPassedMeansGone | pkg/resources/manager.go:158-177 | when the check passes, no dependent exists any more, whatever happened between the lookups |
| Deletion.CheckBlockedByFirm | pkg/resources/manager.go:163-174 | a dependent that exists and is not about to vanish blocks, whether its lookup succeeds or fails |
| Managers.Manager.CreateOrUpdate | pkg/resources/manager.go:145-156 | the calls, the store and the result are those of get, label, mutate, then create, update or nothing, as Answers.ApplicationTells spells out; what a token secret gets is in Delivery.TokenIsDelivered |
| Managers.Manager.Reconcile | pkg/authn/serviceaccount.go:126-151 | makes exactly the calls of the reconcile functions: account lookup and token request only when the token is due, source lookup for a copy |
| Managers.Manager.ReconcileObject | pkg/resources/manager.go:105-156 | one visit, in both modes, with the dependents check before the Orphan check |
| Managers.Manager.ReconcileObjects | pkg/resources/manager.go:81-103 | the nested loops and the cleaner loop compute the specified pass: store, results and the error of the first failing cleaner |
| Managers.Manager.AddCluster | pkg/resources/manager.go:61-64 | appends the cluster and changes nothing else |
| Managers.Manager.AddCleaner | pkg/resources/manager.go:71-74 | appends the cleaner and changes nothing else |
| Managers.ManagedCluster.AddObject | pkg/resources/managedcluster.go:79-82 | appends the object to those of the cluster |
| Managers.Manager.Apply | pkg/resources/manager.go:66-69 | is a pass in Apply mode |
| Managers.Manager.Delete | pkg/resources/manager.go:76-79 | is a pass in Delete mode |
| Managers.AllItemsDeleted | pkg/resources/manager.go:210-218 | true if and only if every result says "deleted" |
| Passes.VisitsReportInOrder | pkg/resources/manager.go:84-91 | one result per managed object, in registration order, whatever failed before |
| Passes.PassReportsEveryObject | pkg/resources/manager.go:81-103 | a pass reports on every managed object first, in order; cleaner results follow and change none of them |
| Answers.PassStepByStep | pkg/resources/manager.go:81-103 | a pass visits the registered objects in order and then runs the cleaners in order until one fails, each on the store that the step before it left; its results are those of the visits and of the successful cleaners |
| Answers.CausesTell | pkg/resources/manager.go:158-177 | the blocking error lists, in order, one cause for every dependent whose lookup did not answer "not found", and says whether it was found or could not be looked up |
| Answers.RepliesAnswerInOrder | pkg/resources/manager.go:160-163 | the check makes one lookup per dependent, in order, whatever earlier ones answered |
| Answers.LoadsTell | pkg/resources/manager.go:161-162 | the lookups leave in memory what was found last of each dependent, and nothing else |
| Answers.DeletionTells | pkg/resources/manager.go:109-142 | a Delete visit is unchanged if and only if it is blocked, deleted if and only if it is an orphan or a served delete call found nothing, and requested otherwise; it fails if and only if it is blocked or its call fails; at most one delete call |
| Answers.InputsTell | pkg/authn/serviceaccount.go:135-148 | a reconcile function asks for a token if and only if it is due and the account was found, gets it if and only if both calls are served, and copies just the data of the source |
| Answers.ApplicationTells | pkg/resources/manager.go:145-155 | an Apply visit without an error created what was missing, updated what was not as desired and left the rest, and reports the stored object; it never touches what the server owns; an error leaves "unchanged" and tells failed inputs from failed calls |
| Deletion.DeletePassFades | pkg/resources/manager.go:109-143 | whatever fails, a Delete pass only makes objects disappear or terminate |
| Deletion.DeletePassKeepsAnchored | pkg/resources/manager.go:105-177 | for every dependency graph that meets this condition: a Delete pass with arbitrary failures never takes a dependency away from an existing dependent |
| Losses.KeepsAnchoredExactly | pkg/resources/manager.go:105-177 | for every plan and every list of cleaners: Delete passes keep dependency order in every environment if and only if every deletion aimed at a dependency, directly or through its namespace, is blocked while the dependent exists, and no cleaner reaches a dependency; both over all stores and over those in which every object has its namespace, where more is blocked |
| Deletion.FinishedMeansGone | pkg/resources/manager.go:210-218 | after an error-free pass that reports everything deleted, no Delete-policy object exists and every cleaner's namespace is swept |
| Managers.SecretCleaner.Cleanup | pkg/secret/secret.go:71-90 | the cleaner's loop computes the specified sweep of the listed secrets |
| Deletion.SweepReportsFailures | pkg/secret/secret.go:82-103 | the cleaner's results are exactly one error per failed deletion of an unkept secret, in list order, each with the secret it is about and the operation "deletion failed" |
| Deletion.SweepHandlesTheRest | pkg/secret/secret.go:82-88 | every listed secret without an error of its own is kept, gone or terminating |
| Deletion.ErrorFreeCleanupSweeps | pkg/secret/secret.go:71-90 | after a cleanup without errors every managed secret left is kept or terminating |
| Sparing.CleanupSpares | pkg/secret/secret.go:71-90 | whatever is no secret, in another cluster or namespace, or kept by name is left exactly as it was |
| Sparing.SweepSparesUnlisted | pkg/secret/secret.go:75-88 | so is every secret the list call did not return, in particular an unmanaged one |
| Sparing.PassSpares | pkg/resources/manager.go:81-143 | no pass of either mode removes an object that no deletion is aimed at; only an Apply pass that manages its place can change it |
| Sparing.PassAddsOnlyPlanned | pkg/resources/manager.go:81-156 | where nothing is managed no pass of either mode adds an object or changes one, apart from marking it as terminating |
| Standstill.TeardownExactly | pkg/resources/manager.go:105-177 | for every plan, every list of cleaners and every store, with served calls: some Delete pass finishes if and only if no dependent of a managed object is interlocked, that is, among firm objects of which every deletion waits for another one |
| Standstill.OrphansHoldExactly | pkg/resources/manager.go:110-126 | in a calm store whose orphans no deletion reaches, that is so if and only if no existing orphan depends on a managed object |
| Teardown.TeardownEnds | pkg/resources/manager.go:105-177 | without an existing orphan that depends on a managed object, pass number (longest dependency chain + 2) finishes, for every dependency graph |
| Teardown.EveryPassShrinks | pkg/resources/manager.go:109-142 | every pass that starts with an existing Delete-policy object removes one of them for good and adds none |
| Teardown.ChainNeedsPasses | pkg/resources/manager.go:109-142 | the bound is tight: with a chain of existing objects whose dependencies are registered first, no pass before as many passes as the chain is long finishes, whatever calls do |
| Teardown.RoundsRemoveRanks | pkg/resources/manager.go:109-142 | after k passes every Delete-policy object of rank below k is gone, for every ranking of the dependency graph |
| Standstill.HeldForever | pkg/resources/manager.go:110-126 | an interlocked dependent of a managed object, such as an orphan, keeps every later pass from finishing, even when calls fail |
| Wiring.PlanIsWired | internal/controller/velero_controller.go:134-157 | the plan consists of exactly the registered objects, with their places, policies and reconcile functions |
| Wiring.McpPlanSpelledOut | internal/controller/velero_controller.go:134-151 | place, policy and content of every object registered for the control plane, in order: namespace, account, definitions, binding, and a deployment of the MCP pod without replicas |
| Wiring.WorkloadPlanSpelledOut | internal/controller/velero_controller.go:145-157 | the same for the workload cluster: token secret on the account, namespace, copies of the pull secrets, and a deployment of one server pod |
| Wiring.OnlyDependency | pkg/authn/serviceaccount.go:117-153 | the only dependency is that of the token secret on the service account |
| Wiring.DependentsAt | pkg/authn/serviceaccount.go:123-125 | so the dependents of the account are the token secret, once, and those of every other object are none |
| Wiring.WiringIsWellWired | internal/controller/velero_controller.go:134-168 | the registered objects meet the condition under which Delete passes keep dependency order from every store |
| Wiring.OrphansAreSpared | internal/controller/velero_controller.go:137-168 | no deletion of any pass is aimed at an Orphan-policy object |
| Wiring.ThirdPassFinishes | internal/controller/velero_controller.go:134-168 | with served calls the third Delete pass finishes, from every store |
| Wiring.ThreePassesAreNeeded | internal/controller/velero_controller.go:146-157 | account and token secret are such a chain: neither the first nor the second pass can finish while both exist, whatever calls do |
| Runs.OrphansSurviveRuns | internal/controller/velero_controller.go:137-168 | no run of Apply and Delete passes, with changing inputs and arbitrary call fates, removes the MCP namespace, a definition or a platform object |
| Runs.OtherTenantsAreUntouched | internal/controller/velero_controller.go:134-168 | tenant isolation: no run of passes for other tenants changes an object on the workload cluster outside of their namespaces, apart from the ready counts the cluster reports |
| Runs.OthersAddNothing | internal/controller/velero_controller.go:134-168 | nor does such a run add an object there, or change one that is on its way out |
| Runs.FinishedLeavesTenantEmpty | internal/controller/velero_controller.go:154-168 | a finished Delete pass leaves nothing at all in the tenant's namespace, and neither account, binding nor MCP deployment |
| Reference.DeletePassKeepsReference | pkg/resources/manager.go:105-177 | a Delete pass never leaves a token secret without its service account, whatever happens to its calls, and keeps the account from being on its way out |
| Reference.ReferenceKeptExactly | internal/controller/velero_controller.go:146-157 | Apply passes from a given store never end with a token secret without its account if and only if the account is firmly in place, or no clashing pull secret can be copied and no token secret can be created for an account on its way out; and then the account is not on its way out either |
| Reference.TokenSecretHasAccount | pkg/authn/serviceaccount.go:110-153 | in every state of every run of Apply and Delete passes, with any fate of every call, an existing token secret has its account, if Apply passes have such a safe start |
| Reference.BriskRunKeepsReference | pkg/authn/serviceaccount.go:110-153 | the same from the start alone: without lingering deletions, with a free token name and the account absent or firm, every run keeps the reference |
| Reference.LingeringAccountLosesReference | pkg/authn/serviceaccount.go:56-68 | for every setup there is a run of one Delete and one Apply pass, from a calm store, that ends with a token secret and without its account, because the account's deletion lingers |
| TokenRefresh.TokenVisit | pkg/authn/serviceaccount.go:126-151 | a visit of the token secret, with any fate of its calls, keeps the secret's content or puts in that of the token the visit was issued - the token under "token", the certificate under "ca.crt", the namespace "velero" and no other key; without an error it does the latter whenever the token was due |
| TokenRefresh.ApplyPassKeepsOrMints | pkg/resources/manager.go:81-156 | so does a whole Apply pass, with the token it was issued |
| TokenRefresh.TokenOfPassWasRequested | pkg/authn/serviceaccount.go:56-74 | the token a pass is issued is the reply to a served token request of that pass, made while the account exists |
| TokenRuns.PodNeverSeesExpiredToken | pkg/authn/serviceaccount.go:129-148 | in every run of Apply and Delete passes for a tenant, with changing poll intervals and certificates, whatever a pod sees of the token secret is a token issued before the run or to one of its passes, and has not expired, if issued tokens live at least the poll interval and a minute |
| TokenRuns.ShortTokensExpireInPods | pkg/authn/serviceaccount.go:135-148 | with shorter tokens every error-free pass of every run replaces the token, and a pod that sees the new one at the end of the poll interval sees it expire within its minute |
| TokenRuns.ClashHidesToken | pkg/secret/secret.go:32-46 | with a pull secret of the token secret's name, an error-free Apply pass ends with the data of that pull secret in the token's place |
| TokenRuns.SafeLifeExactly | pkg/authn/serviceaccount.go:129-148 | over runs of Apply passes pods see nothing but issued tokens that have not expired if and only if no pull secret has the token secret's name and tokens live at least the poll interval and a minute, despite the cut to whole seconds |
| TokenRuns.OneHourIsEnoughExactly | pkg/authn/serviceaccount.go:135-138 | with tokens of exactly one hour, and a free name, that means poll intervals of at most 59 minutes |
| Tenants.OneHourIsEnoughForPoll | internal/controller/velero_controller.go:146 | the same of the poll interval in the ProviderConfig, in nanoseconds, for every manager that is built with it |
| TokenRuns.ConvergedTokenIsLive | pkg/authn/serviceaccount.go:129-148 | after the two passes of convergence the token secret holds an issued token that is not due, if tokens live at least the poll interval and 61 seconds |
| TokenRuns.RenewalsAreApart | pkg/authn/serviceaccount.go:135-148 | two passes that renew the token are more than (token life - poll interval - 61 s) apart |
| TokenRuns.RenewalRate | pkg/authn/serviceaccount.go:129-148 | n renewals within a span T satisfy (n - 1) (life - poll - 61 s) < T |
| TokenRuns.ErrorFreePassRenews | pkg/authn/serviceaccount.go:135-148 | an error-free pass over a due token is such a renewal |
| Convergence.FormIsFixed | pkg/deployment/deployment.go:37-128 | reconcile functions are idempotent: an object in its desired form is left exactly as it is |
| Convergence.CalmVisitForms | pkg/resources/manager.go:145-156 | a visit without an error leaves the object stored in its desired form, labels included |
| Convergence.ErrorFreePassApplies | pkg/resources/manager.go:81-103 | after an error-free Apply pass every managed object exists in its desired form and nothing is left to clean; without lingering deletions nothing is terminating either |
| Convergence.SecretsAreThoseConfigured | internal/controller/velero_controller.go:165-168 | history independence: the tenant's managed secrets are then exactly the configured pull secrets and the token secret |
| Fixpoint.ErrorFreePassReportsTheStore | pkg/resources/manager.go:145-155 | what an error-free pass reports of an object is what the store holds at the end of the pass |
| Fixpoint.PassAtRest | pkg/resources/manager.go:81-156 | on a store in desired form, with no token due, a pass changes nothing, whatever its calls go through |
| Fixpoint.PromptPassAtRest | pkg/resources/manager.go:81-156 | when its calls are served it reports no error, and every object as it stands |
| Fixpoint.ApplyFixedPoint | pkg/resources/manager.go:81-156 | a second pass after an error-free one, with no token due, leaves every store unchanged in every environment |
| Fixpoint.SecondPassObservesTheSame | pkg/resources/manager.go:81-156 | when its calls are served, the second pass is error-free and observes the same objects |
| Fixpoint.FirstPassFailsExactly | internal/controller/velero_controller.go:146-155 | in the first pass the token secret's visit fails if and only if the tenant namespace did not exist, and no other visit fails |
| Fixpoint.ApplyConvergesInTwoPasses | internal/controller/velero_controller.go:134-168 | the second Apply pass is error-free and leaves every managed object in its desired form |
| Delivery.LabelsAreDelivered | pkg/meta/labels.go:14-38 | after an error-free Apply pass from a calm store every managed object exists with the managed-by label and the instance id of its manager |
| Delivery.ControlPlaneIsDelivered | pkg/authz/clusterrolebinding.go:16-43 | then the control plane holds the namespace, the account, every definition with its schema, the binding of the account to cluster-admin, and the deployment without replicas |
| Delivery.WorkloadIsDelivered | pkg/secret/secret.go:24-51 | and the workload cluster holds the tenant's namespace, one server, and copies of the pull secrets with the data the platform cluster had before the pass; no other managed secret is left |
| Delivery.TokenIsDelivered | pkg/authn/serviceaccount.go:135-148 | an error-free pass over a token that needs renewal puts in the reply to a served call of the pass, under the keys pods read, with its expiry in whole seconds |
| Delivery.TokenIsKept | pkg/authn/serviceaccount.go:135-137 | and a pass over a firm token that does not need renewal keeps its data and its expiry, whatever its calls go through |
| Delivery.RequestIsDelivered | internal/controller/velero_controller.go:121-171 | from the request to the store: the tenant's namespace then holds one replica of the server, with the image that the ProviderConfig lists first for the last version asked for, and copies of the configured pull secrets |
| Basics.UpsertIsMapUpdate | pkg/authn/serviceaccount.go:177-208 | with unique names add-or-replace is a dictionary update |
| Basics.UpsertKeepsOrder | pkg/authn/serviceaccount.go:177-208 | names keep their order; a new one comes last |
| PodBuilding.PodSpec.AddOrReplaceVolume | pkg/authn/serviceaccount.go:177-186 | the in-place loop replaces the first volume of that name or appends |
| PodBuilding.Container.AddOrReplaceEnv | pkg/authn/serviceaccount.go:188-197 | the in-place loop replaces the first variable of that name or appends |
| PodBuilding.Container.AddOrReplaceVolumeMount | pkg/authn/serviceaccount.go:199-208 | the in-place loop replaces the first mount of that name or appends |
| PodBuilding.PodSpec.ApplyToken | pkg/authn/serviceaccount.go:157-175 | the in-place injection turns the pod into the specified one, container by container |
| Pods.InjectIsMapUpdate | pkg/authn/serviceaccount.go:157-226 | with unique names the injection changes exactly the token volume, and in every container the token mount and the host and port variables; uniqueness is kept |
| Pods.InjectTwice | pkg/authn/serviceaccount.go:157-226 | injecting twice is injecting once, for every pod, names repeated or not |
| Images.WindowExactly | internal/controller/velero_controller.go:173-183 | the accepted versions spelled out: 1.16.0 and later up to all of 1.18, and the pre-releases of 1.19.0 |
| Images.PrecedenceRules | internal/controller/velero_controller.go:173-183 | the rules of section 11 of Semantic Versioning 2.0.0, one by one: numeric parts numerically, a pre-release before its release, numeric identifiers below alphanumeric ones, text by its first different character, and the longer of two lists higher |
| Images.PrecedenceIsTotalOrder | internal/controller/velero_controller.go:173-183 | the precedence of section 11 of Semantic Versioning 2.0.0 is a total order on parsed versions, pre-releases included |
| Images.WindowHasNoGaps | internal/controller/velero_controller.go:178-181 | a version between two supported versions is supported |
| Images.ResolveImage | internal/controller/velero_controller.go:245-259 | the nested search loops return image, colon and version of the first entry that lists name and version, and the empty string if and only if none does |
| Images.ImageOfFirstListing | internal/controller/velero_controller.go:248-256 | the same of the specification |
| Images.ImageOfIsListed | internal/controller/velero_controller.go:245-259 | the empty result means exactly "not listed"; any other result is a listed image and version |
| Images.ResolveImages | internal/controller/velero_controller.go:226-243 | the loop builds the specified image map, or none as soon as a component is not available |
| Images.ResolutionFailsExactly | internal/controller/velero_controller.go:226-243 | resolution fails if and only if some requested name and version is not listed |
| Images.LastRequestWins | internal/controller/velero_controller.go:233-241 | each name gets the listed image of the last request made under it |
| Deployments.BuildServerPod | pkg/deployment/deployment.go:45-126 | the pod built step by step, with one init container per plugin, is the specified one |
| Deployments.ServerPodSpelledOut | pkg/deployment/deployment.go:57-126 | the server pod has the configured pull secrets, the two volumes and the token volume, and one container that runs the server with exactly these mounts and variables |
| Deployments.PluginContainerSpelledOut | pkg/deployment/deployment.go:112-124 | init container i is named after i, runs the image of plugin i, and mounts the plugin volume at /target and the token |
| Deployments.McpPodSpelledOut | pkg/deployment/deployment.go:177-196 | the pod on the control plane is one container with the server's image and nothing else |
| Deployments.ContainerNamesAreDistinct | pkg/deployment/deployment.go:61-124 | container names of the server pod do not repeat, for any number of plugins |
| Deployments.DecimalReadsBack | pkg/deployment/deployment.go:114 | the digits in a container name denote the plugin's position |
| Deployments.EveryContainerHasAccess | pkg/deployment/deployment.go:57-126 | every container of the server pod mounts the token and talks to the MCP's host and port, and keeps its own mounts and variables |
| Deployments.PluginImages | pkg/deployment/deployment.go:112-124 | init container i runs the image of the last request under the name of plugin i |
| Deployments.RequestedImageExactly | internal/controller/velero_controller.go:228-243 | every container, the server's on both clusters included, runs the image of the last request under its name; that is the requested one just when both ask for the same version |
| Deployments.ImagesAreExact | pkg/deployment/deployment.go:61-124 | every container runs the image its own request asks for if and only if no name is requested in two versions |
| Deployments.EveryImageIsListed | pkg/deployment/deployment.go:61-124 | whatever names repeat, every container runs a listed image and version |
| Labels.SetManagedBy | pkg/meta/labels.go:14-22 | sets the managed-by label, with or without a label map before |
| Labels.SetInstanceID | pkg/meta/labels.go:31-38 | writes through the shared label map; without one the label is lost |
| Labels.LabelObject | pkg/resources/manager.go:146-147 | in the manager's order both labels arrive on every object, under their keys and beside the labels it had |
| Controller.ResultsToResources | internal/controller/velero_controller.go:185-215 | one resource entry per result, in order, with kind, name, cluster and phase and a namespace just for namespaced objects; the error flag if and only if some result carries an error |
| Controller.AllResourcesReady | internal/controller/velero_controller.go:217-224 | true if and only if every phase is Ready |
| Controller.PhasesTell | pkg/resources/managedobject.go:33-53 | what each phase says of the object: terminating first, then a missing uid, and for deployments replicas against ready replicas, one when unset |
| Controller.Reconciler.EnsureInstanceID | internal/controller/velero_controller.go:261-270 | an existing id is kept, a missing one generated and set as the label, and no other label changes; it fails if and only if the generated id could not be saved |
| Controller.Reconciler.CreateObjectManager | internal/controller/velero_controller.go:121-171 | registers exactly the planned objects and the cleaner, or refuses for the specified reason; what the plan holds is in Tenants.BuiltSecrets, BuiltServer and BuiltPlugin |
| Controller.Reconciler.CreateOrUpdate | internal/controller/velero_controller.go:66-92 | with a manager the call fails if and only if the pass had an error, asks to be repeated if and only if it had none and some phase is not Ready, and is done if and only if phase Ready is set; store, resources and labels |
| Controller.Reconciler.Delete | internal/controller/velero_controller.go:94-119 | with a manager the call fails if and only if the pass had an error, asks to be repeated if and only if it had none and something is not deleted, and returns cleanly if and only if the pass finished; a clean return says that the tenant's namespace is empty if and only if a manager was built or it was empty before; phase Terminating otherwise |
| Controller.ThirdDeletionReturnsCleanly | internal/controller/velero_controller.go:104-118 | with a manager and served calls the third deletion returns cleanly, from every store |
| Controller.EarlierDeletionsDoNot | internal/controller/velero_controller.go:104-118 | while account and token secret are firm, neither of the first two does, whatever calls do |
| Controller.ApplicationRequeuesExactly | internal/controller/velero_controller.go:84-91 | from calm stores an application without an error asks to be repeated if and only if some managed object is not serving |
| Controller.BuildRefusesExactly | internal/controller/velero_controller.go:121-133 | no manager is built if and only if the version is unsupported, the id could not be saved or a component is not listed |
| Controller.BuiltManagerIsSound | internal/controller/velero_controller.go:121-157 | a built manager runs a version of the window, and only listed images in every container of every deployment |
| Tenants.BuiltSetup | internal/controller/velero_controller.go:134-168 | a manager works in the namespace "velero-" and the id in use, copies from the pod namespace, and has the poll interval, pull secrets, certificate and definitions it was given |
| Tenants.BuiltSecrets | pkg/secret/secret.go:24-51 | of a built manager: the recipe of the token secret has the given certificate and poll interval, and every configured pull secret is copied from the pod namespace to the tenant's |
| Tenants.BuiltServer | pkg/deployment/deployment.go:30-128 | of a built manager: one replica of the server, with the configured pull secrets, the token volume, the given host and port, and the first listed image of the last request under "velero" |
| Tenants.BuiltPlugin | pkg/deployment/deployment.go:112-124 | of a built manager: init container i has its mounts, host and port, and the first listed image of the last request under the name of plugin i |
| Tenants.NamespacesAreThoseOfIds | pkg/instance/identity.go:42-45 | two built managers share a tenant namespace if and only if they are built for the same id |
| Tenants.OwnObjectsAreForeign | pkg/instance/identity.go:42-45 | whatever one of them works on outside of the control plane, its namespace included, is foreign to managers of other ids |
| Tenants.TenantsAreIsolated | internal/controller/velero_controller.go:121-171 | isolation end to end: no run of Apply and Delete passes of managers built for other ids, with any fate of every call, adds or changes anything in a tenant's namespace, or takes anything firm away; ready counts are the cluster's |
| Controller.ReadyWasSeen | pkg/resources/managedobject.go:33-53 | in every environment, all resources are Ready if and only if each visit saw its object stored, not terminating and with the desired replicas ready |
| Controller.ReadyMeansServing | pkg/deployment/deployment.go:129-154 | from calm stores Ready means that at the end of the pass every object is in its desired form and serving, and the other way round |
| Controller.CleanDeleteExactly | internal/controller/velero_controller.go:95-119 | the same of the specification, and: with a manager a clean return means that every Delete-policy object is gone, without one that user input was refused |
| Controller.DeletionReportsExactly | internal/controller/velero_controller.go:185-201 | a Delete pass reports every object as Pending, or Progressing for a deployment, except for the token secret, which it reports as the account's visit found it, if it did |
| Controller.ErrorFreeDeletionReports | pkg/resources/managedobject.go:33-53 | without errors, and so when everything is gone, no object is reported Ready or Terminating |

## Left out

- The command line, schemes, permissions and start-up code of the controller.
- The real Kubernetes client: conflict retries, API defaulting, immutable fields, the work of finalizers
  (a deletion either removes at once or lingers until the environment removes the object).
- The opencontrolplane-runtime loop: how far apart passes are is a hypothesis of the token theorems.
- Library internals: RFC 3339 text (times are cut to whole seconds), semantic version parsing, SHA-1 and
  base32 (the id generator is a parameter), the YAML of the definitions (a finite list of names and schemas),
  the secret mutator (assumed to set data and type and keep labels).
- Argument checks of `generateToken` that its one caller always passes, and reading a CA file.
- Log calls, status message texts, and `GetHostAndPort` (host and port are parameters).
- Fields of the deployments that are constants without influence on the properties: strategy, restart
  policy, grace period, pull policy.
- The namespace, definition and binding reconcilers appear only as desired forms of their objects.
- Managed objects are values; their identity in memory is an id. The in-memory copy of a cluster object that a
  status reads is the `observed` part of a result after an Apply visit, and the manager's `memory` after a Delete
  pass; a failed call leaves it as it is.
- TokenRuns.RenewalRate: covers runs of Apply passes only; a Delete pass ends the use of the token.
- Convergence.ErrorFreePassApplies: a token secret whose data was changed from outside while its annotation is not
  due is not repaired by the code, so the desired form of the token secret does not include its data; what it
  holds is the subject of TokenRuns.ConvergedTokenIsLive, for truthful records.
- Between Delete passes that are counted everything terminating vanishes (the rounds of `Teardown` and `Standstill`).
- Every tenant has a control plane of its own; a run of several tenants has one for all of them, so what such runs
  keep is stated for the workload cluster only.
- All times of one pass are equal; ready counts of deployments change only between passes.
