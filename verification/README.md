# WebApp operator: model and proofs

The operator turns each `WebApp` into a Deployment, a Service, an optional Ingress and an optional
HorizontalPodAutoscaler, admits and defaults WebApps through webhooks, and holds them to `WebAppPolicy`
objects. This project models that logic in Dafny and proves what it guarantees. `dafny verify
dfyconfig.toml` checks all of it.

## How it is built

- **Specs and builders.** `Api`, `Text`, `Ports`, `Builders`, `MountPath`: the custom resources, ports and
  their names, the four objects as pure functions of a spec, and the schema's path rules. Loops of the
  source are methods proved to compute these functions. `ObjectsExact` says, field by field and without
  those functions, what each object is.
- **Admission.** `Admission` walks a spec with the webhook's maps, `AdmissionExact` states what the walk
  decides without maps or order, `Defaulting` and `Gate` cover the mutating webhook and the update path.
- **Policies.** `Policies`, `PolicyExact`, `PolicyValidation`: evaluation, its meaning, and the policy
  self-check with its purpose, satisfiability. `Counted` says how often an error or a finding is reported.
- **The reconciler.** `Conditions` and `Cluster` hold the WebApp's status and a store with server-side apply
  of `spec.replicas`. `Reconciler` is the controller call by call on classes with mutable state; its
  `Reconcile` is proved equal to the function `Reconciled` of `Pass`, in new state, in write calls and
  their order, and in the requeue. The theorems are about that function.
- **Runs.** A run (`Runs`) interleaves passes, each with its own failing calls and clock, with moves of
  everybody else. A failing call is refused or takes effect without acknowledgement. `Deletion`,
  `Frames`, `History`, `Convergence`, `Outcomes`, `Quiescence` and `Independence` hold the main theorems;
  `Steps` holds what they share.

## What the model assumes

- Others move between passes, not between a pass's read and its write, and reads are current.
- Nobody forges a controller reference to a WebApp, strips the managed-by label or the operator's
  finalizer, or writes a WebApp's status; UIDs are never reused; the API server numbers spec edits.
  `Runs.OthersMove` is the whole list, and everything else is allowed there.
- Deleting an owned object removes it at once; a WebApp goes when its last finalizer does.
- Server-side apply with force: applied fields take the applied values; `spec.replicas` left out is removed
  only if nobody else owns it, and a removed count is defaulted to 1. For every other modelled field the
  model assumes that nobody else owns it: an apply replaces the whole body, so what the operator no longer
  sends (an unset `ingressClassName`, a dropped label or port) is gone afterwards. Under real server-side
  apply a field that another manager owns as well would stay; `Convergence.SyncConverges` and
  `HistoryIrrelevant` speak about unsent fields under this assumption only.
- The finalizer update does not rewrite the stored spec. That holds for every spec that went through the
  mutating webhook (`Defaulting.DefaultIdempotent`); for others `Defaulting.DefaultKeepsObjects` and
  `DefaultKeepsDeployment` say what could change.
- SHA-256 and label selectors are functions the model knows nothing about (`Api.Platform`).
- An empty enforcement mode means Enforce, as in the code's default branch.
- A policy's `maxReplicas`, where given, is at least 1, as its schema demands (`PolicyValidation.CeilingRule`).

## What the proofs found

- A sync does not check everything before it applies anything, although docs/internals.md:260 says so: an
  Ingress or HPA that is foreign or cannot be built is found after the Deployment and Service were applied.
  `Convergence.FailsCleanExactly` gives the exact condition, `ForeignIngressFoundLate` an instance.
- The finalizer update is a spec change when the stored spec was never defaulted, and may then be refused
  by a policy. `Gate.FinalizerUpdatesAdmitted` is the exact condition, over all policy sets.
- The policy self-check serves its purpose: every accepted policy is satisfied by a WebApp that passes
  validation and has no request above its limit (`PolicyValidation.AcceptedIsSatisfiable`). It does not
  decide satisfaction by something that can be deployed, with non-negative quantities and a legal account
  name: it accepts negative ceilings and account lists without a legal name
  (`AcceptedYetUndeployable`); `AcceptedDeployablyExact` says when it does.
- Defaulting changes the Deployment for exactly one shape of spec, an untyped strategy with rolling-update
  parameters, which the schema's own default prevents (`Defaulting.DefaultKeepsDeployment`).
- README.md:887 says an unset `spec.replicas` is not managed and has no schema default. The schema defaults
  it (api/v1alpha1/webapp_types.go:146), and without autoscaling the operator sends 1 for an unset value
  (`Convergence.SyncConverges`). The model follows the code.
- A Deployment created while autoscaling is on has no owner for its count; the next pass claims it. This is
  the one change a second pass can make (`Quiescence.Quiesces`).

## Model

| member | source | states |
|---|---|---|
| Runs.RunsAreSound | internal/controller/webapp_controller.go:92-197 | every state a run reaches, whichever calls failed and whatever others did between passes, keeps: each object controlled by a WebApp bears its name and that WebApp is stored with the finalizer; UIDs are distinct; every status is well formed and never ahead of its generation |
| Runs.NothingOrphaned | internal/controller/webapp_controller.go:342-362 | in any run, once no WebApp with a UID is stored, no object is controlled by that UID |
| Runs.PassKeepsSound | internal/controller/webapp_controller.go:92-150 | one pass over any WebApp, with any failures, keeps the invariant |
| Runs.OthersKeepSound | internal/controller/webapp_controller.go:104-116 | whatever users, the HPA, other controllers or foreign tools may do between passes keeps the invariant |
| Runs.OthersMayCreate | internal/controller/webapp_controller.go:92-103 | the rules for others let a WebApp with an unused UID appear in any sound state |
| Runs.OthersMayEditAndDelete | internal/controller/webapp_controller.go:104-108 | the rules for others let any stored WebApp be edited or marked for deletion |
| Runs.OthersMayChangeObjects | internal/controller/webapp_controller.go:228-246 | the rules for others let any object be rewritten, removed or created uncontrolled, field ownership included |
| Runs.LivePass | internal/controller/webapp_controller.go:110-149 | a pass over a live WebApp leaves other WebApps alone, touches only objects it may, has the finalizer stored before any object changes, and moves the status only to the outcome of its sync |
| Runs.DeletingPass | internal/controller/webapp_controller.go:106-108 | a pass over a WebApp being deleted only removes objects, and keeps the finalizer unless nothing controlled remains |
| Frames.ForeignUntouched | internal/controller/webapp_controller.go:313-340 | every write call of every pass is about an object of the acting WebApp's name that was missing or under its control; no other object, WebApp, policy or namespace changes |
| Frames.TakenNameStopsAll | internal/controller/webapp_controller.go:179-191 | if the Deployment or Service name is held by someone else, the pass asks for no write at all and its sync fails |
| Frames.ForeignSurvivesRun | internal/controller/webapp_controller.go:329-340 | over a whole run an object no WebApp controls stays exactly as it was unless others change it |
| Frames.CountOnlyMovedWhenOurs | internal/controller/webapp_controller.go:167-173 | no pass moves the count of an existing Deployment while autoscaling is on, and every other owner of the field stays one; with autoscaling off the count moves only to the desired one; no live pass removes a Deployment |
| Frames.HandoverExact | internal/controller/webapp_controller.go:228-246 | after a pass with autoscaling on whose apply lands, the count of an existing Deployment is owned by everyone else who held it, or by the operator if nobody did; it is never left unowned |
| Frames.HandoverOverRuns | internal/controller/webapp_controller.go:228-246 | over any run in which others take, share or drop ownership but leave the count, the operator leaves the count too while autoscaling is on |
| Cluster.OmissionResets | internal/controller/webapp_controller.go:238-245 | the hold is needed: sending no count moves it exactly when the operator is its only owner and it is not 1, and then to 1 |
| Cluster.ApplyReplicasOwners | internal/controller/apply.go:27-29 | who owns spec.replicas after a forced apply that sends a value, the same value, or none |
| Cluster.OwnedByOtherExact | internal/controller/webapp_controller.go:248-266 | the scan of managedFields answers whether any manager but the operator owns spec.replicas |
| History.CeilingRespected | internal/controller/webapp_controller.go:199-226 | no pass sends a Deployment count, with autoscaling off, or an HPA maximum above the ceiling of any blocking policy that matches in that pass, however the spec was changed |
| History.CheckedWithin | internal/controller/webapp_controller.go:199-226 | a scale check that passes implies every binding ceiling |
| History.ObservedOnlyAfterSync | internal/controller/webapp_controller.go:133-149 | in a pass observedGeneration never falls, and moves only for the acting WebApp, to its generation, in a pass that ran its sync without error, left every object as desired and reported it |
| History.StatusOverRuns | internal/controller/webapp_controller.go:139-149 | over a run a WebApp keeps its UID and name, its generation and observedGeneration never fall, and an equal generation means an equal spec |
| History.ObservedWasApplied | internal/controller/webapp_controller.go:110-149 | a non-zero observedGeneration in a reachable state names a generation that some pass of the run applied: it ran the sync without error, left every object as that spec asks, and reported it |
| History.CurrentSpecWasApplied | internal/controller/webapp_controller.go:139-149 | observedGeneration equal to generation means that some pass of the run left every object as the spec now stored asks |
| History.ReadyIsTrue | internal/controller/webapp_controller.go:114-149 | a written status says Ready exactly when the sync succeeded and the Deployment it left is unstalled, observed its generation and has updated = ready = desired, not zero; a failed sync is reported Degraded |
| History.ReportedCounts | internal/controller/webapp_controller.go:364-389 | a written status carries the counts of the Deployment the sync left, or keeps the former ones after a failure, with the three labels the pods are selected by and http:// before the domain, if there is one, as URL |
| History.ConditionsReported | internal/controller/webapp_controller.go:114-149 | a written status claims nothing new of the Deployment after a failure: Available and Progressing stand, or are Unknown if they were absent; after a success they repeat what the Deployment left says |
| History.ReportExact | internal/controller/webapp_controller.go:114-149 | exactly which passes write a status, and which |
| Convergence.SyncConverges | internal/controller/webapp_controller.go:152-197 | from any store a successful sync leaves exactly the objects the spec asks for, controlled, as built and field by field as the spec says, none of an unwanted kind, and with autoscaling off the count spec.replicas gives, or 1, owned by the operator |
| Convergence.HistoryIrrelevant | internal/controller/webapp_controller.go:152-197 | after a successful sync each, two arbitrary clusters agree on every applied field, the count included when autoscaling is off |
| Convergence.SyncSucceedsExactly | internal/controller/webapp_controller.go:152-197 | without failures a sync succeeds if and only if every binding ceiling is kept in a namespace that exists, the spec can be built and every wanted name is free or its own |
| Convergence.ScaleCheckExact | internal/controller/webapp_controller.go:199-226 | whatever fails, the scale check passes if and only if it could read what it needs and, where there are policies, the namespace exists and every ceiling of a policy that enforces and selects it is kept |
| Convergence.BuildableExact | internal/resources/meta.go:86-105 | a spec can be built if and only if some container has a port, the Ingress names no port or one of its own, and autoscaling has an upper bound |
| Outcomes.FirstObstacle | internal/controller/webapp_controller.go:152-340 | whatever calls fail and whatever else is wrong, a sync reports the first thing in its way in the order policies, ports, hold, adoption, applies, Ingress, HPA, and succeeds if and only if nothing is |
| Outcomes.SyncAsks | internal/controller/webapp_controller.go:179-197 | a sync asks in the order Deployment, Service, Ingress, HPA, each at most once, for applies of wanted and deletions of unwanted controlled objects only, for all of them if it succeeds, and for nothing before its checks have passed |
| Outcomes.LiveResult | internal/controller/webapp_controller.go:92-150 | exactly when a pass over a live WebApp is not requeued, retried slowly, or tried again with backoff, whatever fails |
| Outcomes.EndResult | internal/controller/webapp_controller.go:92-108 | a pass over a WebApp that is gone or being deleted is not requeued exactly if nothing fails in what it needs, and never retried slowly |
| Convergence.TerminalIsExact | internal/controller/webapp_controller.go:120-128 | a terminal error is returned in some cluster if and only if the spec syncs in no cluster under no policies and failures, if and only if it fails on the empty cluster, if and only if it cannot be built |
| Convergence.AdmittedNeverTerminal | internal/controller/webapp_controller.go:157-160 | a spec the webhook admits never ends in a terminal error, in any cluster |
| Convergence.AdmittedSettles | internal/controller/webapp_controller.go:110-197 | a spec admitted under a cluster's policies settles there in one undisturbed pass, all objects as desired and its generation reported, provided every wanted name is free |
| Convergence.DoneMeansDone | internal/controller/webapp_controller.go:120-149 | a live pass that is not requeued left everything as desired and reported the generation, or the spec can be built nowhere |
| Convergence.RetryMeansBlocked | internal/controller/webapp_controller.go:124-128 | a pass is retried slowly only if a policy found something or a wanted name is held by someone else; without failures exactly then, and it is not requeued exactly after a success or a terminal error |
| Convergence.FailsCleanExactly | internal/controller/webapp_controller.go:179-197 | a failure-free sync that fails has written nothing if and only if the scale check failed, no port is declared, or the Deployment or Service name is taken |
| Convergence.ForeignIngressFoundLate | internal/controller/webapp_controller.go:186-196 | with a foreign Ingress in an otherwise empty cluster the pass fails after writing, against docs/internals.md:260 |
| Quiescence.Quiesces | internal/controller/webapp_controller.go:92-197 | with no failure and no other move, a second pass changes at most who owns spec.replicas and a third nothing at all, on success, failure and deletion paths |
| Quiescence.SyncTwice | internal/controller/webapp_controller.go:152-197 | a sync repeated on its own result ends the same way and changes at most the owners of a Deployment it created |
| Quiescence.StatusTwice | internal/controller/webapp_controller.go:364-389 | reporting the same outcome later leaves the status, clocks included, as it is |
| Independence.PassDetermined | internal/controller/webapp_controller.go:92-197 | what a pass leaves at its key depends only on that WebApp, the objects of its name, the policies and the namespaces |
| Independence.PassesCommute | internal/controller/webapp_controller.go:92-197 | passes over different WebApps commute, whatever fails in either |
| Independence.OperatorQuiesces | internal/controller/webapp_controller.go:92-197 | once undisturbed passes have visited every stored WebApp twice, in any order, no undisturbed pass over any key changes anything |
| Deletion.TeardownOrdered | internal/controller/webapp_controller.go:342-362 | a kind is deleted only while controlled and only once no kind before it in Ingress, HPA, Service, Deployment is controlled |
| Deletion.TeardownExact | internal/controller/webapp_controller.go:313-327 | a teardown loses exactly what it deleted, never gains, and succeeds exactly when every call it needs does |
| Deletion.FinalizeExact | internal/controller/webapp_controller.go:342-362 | the finalizer goes exactly when every deletion and the update land, and then nothing controlled remains; the pass is answered without requeue exactly when none of these calls fails |
| Deletion.RepeatedFinalize | internal/controller/webapp_controller.go:342-362 | over repeated passes with any failures the controlled objects only become fewer, the finalizer outlives them, and one pass without failures ends it |
| Runs.DeletionOnlyProgresses | internal/controller/webapp_controller.go:342-362 | once a WebApp is being deleted, what it controls only becomes less in any run, under any failures and moves of others, even if its name is taken anew |
| Runs.DeletionEnds | internal/controller/webapp_controller.go:342-362 | from any point of any run one undisturbed pass ends a deletion, even if the name was taken by a new WebApp |
| Reconciler.WebAppReconciler.Reconcile | internal/controller/webapp_controller.go:92-150 | the pass, call by call, changes the API server, asks for writes and answers exactly as the function all theorems are about |
| Reconciler.WebAppReconciler.SyncAll | internal/controller/webapp_controller.go:152-197 | scale check, port guard, hold, two adoption checks and the writes, in that order, stopping at the first error |
| Reconciler.WebAppReconciler.WriteAll | internal/controller/webapp_controller.go:186-197 | applies Deployment and Service, then syncs Ingress and HPA |
| Reconciler.WebAppReconciler.EnforceScalePolicy | internal/controller/webapp_controller.go:199-226 | lists policies, skips the namespace when there are none, reports blocking findings only |
| Reconciler.WebAppReconciler.ReplicaHold | internal/controller/webapp_controller.go:228-246 | the current count while nobody else owns the field, else none |
| Reconciler.WebAppReconciler.ReplicasOwnedByOther | internal/controller/webapp_controller.go:248-266 | the loop over managedFields, skipping absent, unreadable and spec-less entries |
| Reconciler.WebAppReconciler.AssertAdoptable | internal/controller/webapp_controller.go:329-340 | an existing object under other control is an external error |
| Reconciler.WebAppReconciler.DeleteOwned | internal/controller/webapp_controller.go:313-327 | deletes only an object under this WebApp's control |
| Reconciler.WebAppReconciler.SyncTheIngress | internal/controller/webapp_controller.go:268-289 | deletes an unwanted Ingress, else builds, checks adoption and applies |
| Reconciler.WebAppReconciler.SyncTheHpa | internal/controller/webapp_controller.go:291-311 | deletes an unwanted HPA, else builds, checks adoption and applies |
| Reconciler.WebAppReconciler.DeleteAll | internal/controller/webapp_controller.go:346-355 | the loop over the four kinds, stopping at the first error |
| Reconciler.WebAppReconciler.FinalizeApp | internal/controller/webapp_controller.go:342-362 | teardown, then the finalizer is dropped |
| Reconciler.WebAppReconciler.UpdateStatus | internal/controller/webapp_controller.go:364-389 | counts, URL and selector are set and the status patched |
| Reconciler.WebAppReconciler.SettleApp | internal/controller/webapp_controller.go:118-149 | sync, then the status and the requeue its outcome calls for |
| Conditions.LiveApp.ApplyDeploymentConditions | internal/controller/conditions.go:44-72 | the status set in place is the one DeploymentConditionsSound and ConditionsMirror describe |
| Conditions.LiveApp.SetReady | internal/controller/conditions.go:74-96 | the five-way decision in place; DeploymentConditionsSound says when it is True, ConditionsMirror which reason it gives |
| Conditions.LiveApp.ApplyNoDeploymentConditions | internal/controller/conditions.go:98-105 | the status set in place is the one NoDeploymentConditionsSound and NoDeploymentExact describe |
| Conditions.LiveApp.ApplyReconcileFailure | internal/controller/conditions.go:107-116 | the status set in place is the one FailureConditionsSound and FailureExact describe |
| Conditions.LiveApp.SetCondition | internal/controller/conditions.go:25-33 | replaces or appends one condition; its transition time moves only with its status |
| Conditions.FindDeploymentCondition | internal/controller/conditions.go:35-42 | the first condition of a type |
| Conditions.DeploymentConditionsSound | internal/controller/conditions.go:44-96 | the list keeps one condition per type, all four with reasons, Degraded=True excluding Ready=True; Ready=True exactly for a healthy Deployment |
| Conditions.LookupDeploymentExact | internal/controller/conditions.go:35-42 | the lookup finds the first condition of a type, and nothing exactly if there is none |
| Conditions.StalledExact | internal/controller/conditions.go:54-55 | stalled means that the first Progressing condition is False for ProgressDeadlineExceeded |
| Conditions.ConditionsMirror | internal/controller/conditions.go:44-96 | status, reason, message, generation and transition time of all four: Available and Progressing repeat the Deployment's first condition of the type, Unknown if it has none; Degraded is True exactly for a stalled rollout; Ready gives one of five reasons |
| Conditions.NoDeploymentExact | internal/controller/conditions.go:98-105 | the same without a Deployment: Available and Progressing Unknown, not Degraded, not Ready |
| Conditions.FailureExact | internal/controller/conditions.go:107-116 | after a failure Degraded is True and Ready False with the error; Available and Progressing stand as they were, clock included, and are Unknown if they were absent |
| Conditions.NoDeploymentConditionsSound | internal/controller/conditions.go:98-105 | the same invariant without a Deployment, never Ready |
| Conditions.FailureConditionsSound | internal/controller/conditions.go:107-116 | the same invariant after a failure: Degraded with the error, not Ready |
| Conditions.DeploymentConditionsRepeat | internal/controller/conditions.go:44-72 | setting the same conditions later changes nothing |
| Conditions.FailureConditionsRepeat | internal/controller/conditions.go:107-116 | reporting the same failure later changes nothing |
| Admission.ValidateSpec | internal/webhook/v1alpha1/webapp_webhook.go:155-278 | the nested loops over three maps return, in order, the errors that ErrorsExact characterizes one by one |
| Admission.CheckContainers | internal/webhook/v1alpha1/webapp_webhook.go:166-225 | the loop over containers: its maps of names, port owners and number owners decide duplicates as the declared ports before each position do |
| Admission.CheckPorts | internal/webhook/v1alpha1/webapp_webhook.go:185-210 | the loop over ports; afterwards the maps hold exactly the keys and names walked so far |
| Admission.CheckScratchVolumes | internal/webhook/v1alpha1/webapp_webhook.go:212-224 | the loop over scratch volumes with its map of paths |
| Admission.CheckCollisions | internal/webhook/v1alpha1/webapp_webhook.go:251-258 | the loop reports each later occurrence of a repeated name among generated and explicit ones |
| Admission.FindMissingRequests | internal/webhook/v1alpha1/webapp_webhook.go:280-293 | one error per targeted resource and container without a request |
| Admission.TotalPorts | internal/webhook/v1alpha1/webapp_webhook.go:302-308 | the count is that of the ports flattened over all containers |
| Admission.StringKeyExact | internal/webhook/v1alpha1/webapp_webhook.go:191-197 | the printed key number/protocol equates two ports exactly as the struct key of the builders does |
| AdmissionExact.ErrorsExact | internal/webhook/v1alpha1/webapp_webhook.go:155-278 | an error is reported if and only if the fact about the spec it stands for holds, error by error |
| Counted.ErrorsCounted | internal/webhook/v1alpha1/webapp_webhook.go:155-278 | each error is reported exactly once if the fact it stands for holds and not at all otherwise; a repeated port name once for each port after the first |
| AdmissionExact.AdmissionIsExact | internal/webhook/v1alpha1/webapp_webhook.go:155-278 | nothing is reported if and only if the spec is admissible, a predicate over positions with no maps and no order |
| AdmissionExact.DistinctPortsFlat | internal/resources/meta.go:61-75 | ports are pairwise distinct over all containers if and only if deduplication drops nothing |
| AdmissionExact.AdmittedService | internal/resources/service.go:31-42 | an admitted spec gives the Service every declared port under pairwise distinct names legal under section 5.1 of RFC 6335, generated ones included |
| AdmissionExact.AdmittedIngress | internal/resources/meta.go:86-105 | an admitted spec builds an Ingress whose backend names exactly one Service port |
| AdmissionExact.AdmittedHpa | internal/resources/hpa.go:21-49 | an admitted autoscaling spec builds an HPA with ordered bounds whose every metric, each once, is requested by every container |
| Text.PortNameProblemsMean | internal/webhook/v1alpha1/webapp_webhook.go:202-204 | each of the five tests of a port name, by code points |
| Text.LabelShapeExact | internal/webhook/v1alpha1/webapp_webhook.go:176-180 | a label is a non-empty text of lower-case letters, digits and inner hyphens, by code points |
| Text.SubdomainExact | internal/webhook/v1alpha1/webapp_webhook.go:265-269 | a domain has the shape of a subdomain if and only if every part between dots is a label |
| Text.PortNameProblemsExact | internal/webhook/v1alpha1/webapp_webhook.go:202-204 | the five tests of a port name find nothing exactly for a service name in the sense of section 5.1 of RFC 6335 |
| Ports.CollectPorts | internal/resources/meta.go:61-75 | the loop with its map of seen keys computes the first occurrences |
| Ports.CollectPortNames | internal/resources/meta.go:77-84 | the names of the deduplicated ports in order |
| Ports.FindBackendPort | internal/resources/meta.go:86-105 | the three-step choice of the backend port and its two errors |
| Ports.DeduplicationExact | internal/resources/meta.go:61-75 | the result is the order-preserving selection of exactly the first occurrences; keys are distinct and none is lost |
| Ports.KeyMeans | internal/resources/meta.go:49-59 | two ports share a key if and only if they bind the same number over a common protocol, TCP where none is given |
| Ports.PortsExist | internal/resources/meta.go:61-75 | deduplication leaves a port if and only if some container declares one |
| Ports.PortNameExact | internal/resources/meta.go:39-47 | a port goes by its own name, else by port- and its number in decimal without leading zeros, with -udp after it for UDP |
| Ports.NothingDropped | internal/resources/meta.go:61-75 | nothing is dropped if and only if no key repeats |
| Ports.GeneratedNameLegal | internal/resources/meta.go:39-47 | a generated name is legal and has at most 14 characters |
| Ports.GeneratedNamesInjective | internal/resources/meta.go:39-47 | unnamed ports share a generated name only if they agree on number and UDP |
| Ports.BackendNamesOnePort | internal/resources/meta.go:86-105 | the backend is the wanted name, else http if some port has it, else the first; it names a Service port, one only if names are distinct; it fails exactly without ports or with an unknown wanted name |
| Builders.MakeDeployment | internal/resources/deployment.go:26-57 | the Deployment its loops build is the value of BuildDeployment, which DeploymentExact describes field by field |
| Builders.MakeService | internal/resources/service.go:11-29 | the Service its loop builds is the value of BuildService, which ServiceExact describes field by field |
| Builders.MakeIngress | internal/resources/ingress.go:19-52 | the Ingress or error is the value of BuildIngress, which IngressExact describes field by field |
| Builders.MakeHpa | internal/resources/hpa.go:21-49 | the HPA or error is the value of BuildHpa, which HpaExact describes field by field |
| Builders.CollectHpaMetrics | internal/resources/hpa.go:65-87 | the loop over targeted resources yields the metrics HpaMetricsExact characterizes |
| Builders.CollectScratchVolumes | internal/resources/deployment.go:126-141 | the nested loop yields the pod volumes that MountsMatchVolumes pairs with the mounts |
| Builders.CopyLabels | internal/resources/deployment.go:70-75 | maps.Copy: later entries displace earlier ones |
| Builders.VolumeNameIsLabel | internal/resources/deployment.go:112-124 | a schema-valid volume name always yields a label of at most 63 characters (section 2.1 of RFC 1123) |
| Builders.VolumeNameCollision | internal/resources/deployment.go:112-117 | two distinct container and volume pairs have distinct hash keys, and share a name if and only if the four hash bytes and the cut names coincide |
| Builders.VolumeNamesDistinct | internal/resources/deployment.go:112-141 | for schema-valid names the pod volumes have pairwise distinct names if and only if no two declarations agree in hash bytes and cut names |
| Builders.MountsMatchVolumes | internal/resources/deployment.go:126-155 | pod volumes and mounts correspond one to one, in order, by name |
| Builders.MountHasVolume | internal/resources/deployment.go:126-155 | each mount names the pod volume its own container declared |
| Builders.PodsMatchSelector | internal/resources/deployment.go:70-75 | user labels never displace the selector's; Service and Deployment select the same pods |
| Builders.ServiceReachesPods | internal/resources/service.go:31-42 | every Service port targets a port some container of the pods exposes, with its name, number and protocol |
| Builders.ObjectsReferToEachOther | internal/resources/ingress.go:19-52 | the Ingress routes to the WebApp's own Service and one of its ports, the HPA scales its own Deployment |
| Builders.DeploymentIsCautious | internal/resources/deployment.go:59-82 | rolling-update parameters go only with the rolling-update type, and a token is mounted only on request |
| Builders.HpaMetricsExact | internal/resources/hpa.go:51-87 | a metric is present if and only if its target is set, or it is CPU at 70 and no target is |
| ObjectsExact.DeploymentExact | internal/resources/deployment.go:26-192 | the Deployment carries the spec: each container its own name, image, requests, limits, ports and mounts, a volume for each declaration with its medium and limit and no other, labels, annotations, account, token and strategy as asked |
| ObjectsExact.ServiceExact | internal/resources/service.go:11-42 | type, selector and ports of the Service: one port for each number and protocol some container declares, and no other |
| ObjectsExact.IngressExact | internal/resources/ingress.go:19-52 | class, host, service and backend port of the Ingress, and exactly when it cannot be built and why |
| ObjectsExact.URLExact | internal/resources/ingress.go:12-17 | the URL is http:// and the domain, empty without one |
| ObjectsExact.HpaExact | internal/resources/hpa.go:21-49 | bounds, target, metrics and behaviour of the HPA, and exactly when it cannot be built |
| ObjectsExact.TargetedResourcesExact | internal/resources/hpa.go:51-63 | CPU is targeted if it has a target or memory has none, memory if it has one |
| ObjectsExact.ScratchNameExact | internal/resources/deployment.go:112-124 | the name of a scratch volume: at most 54 characters of its own without trailing hyphens, a hyphen and eight hexadecimal digits of the hash of container, NUL and volume |
| ObjectsExact.SelectorsApart | internal/resources/meta.go:27-33 | the selector of a WebApp never selects the pods of one with another name |
| MountPath.AcceptedExact | api/v1alpha1/webapp_types.go:64-67 | the substring tests accept an absolute path other than / if and only if every component is non-empty and neither dot nor dot-dot and no reserved tree is a component-wise prefix |
| MountPath.CleanExact | api/v1alpha1/webapp_types.go:66-67 | the second rule rejects exactly empty, dot and dot-dot components |
| MountPath.ReservedExact | api/v1alpha1/webapp_types.go:66-67 | the first rule rejects exactly the reserved trees |
| MountPath.EqualityIsLocation | internal/webhook/v1alpha1/webapp_webhook.go:212-218 | between accepted paths string equality is equality of the location named |
| Defaulting.Resource.Default | internal/webhook/v1alpha1/webapp_webhook.go:122-153 | the in-place rewrite, loops included, yields the form that leaves objects, errors and verdicts unchanged |
| Defaulting.DefaultFills | internal/webhook/v1alpha1/webapp_webhook.go:122-153 | every field left open gets its default — service type, strategy type, each port's protocol and, with autoscaling on, the lower bound and a CPU target if there is none — and every field given stands |
| Defaulting.DefaultIdempotent | internal/webhook/v1alpha1/webapp_webhook.go:122-153 | defaulting twice is defaulting once |
| Defaulting.DefaultKeepsObjects | internal/webhook/v1alpha1/webapp_webhook.go:122-153 | Service, Ingress, HPA and desired count are the same for a spec and its defaulted form |
| Defaulting.DefaultKeepsDeployment | internal/resources/deployment.go:59-68 | the Deployment is the same if and only if the strategy is not an untyped one with rolling-update parameters |
| Defaulting.DefaultKeepsValidation | internal/webhook/v1alpha1/webapp_webhook.go:155-278 | validation reports the same errors for a spec and its defaulted form |
| Gate.Validate | internal/webhook/v1alpha1/webapp_webhook.go:62-79 | admitted exactly if the errors and the blocking findings are both empty; without a reader policies do not count, an unreadable policy list, or policies without a readable namespace, is an error |
| Gate.AdmittedExact | internal/webhook/v1alpha1/webapp_webhook.go:62-97 | a spec is admitted if and only if it is admissible and satisfies every parsable, matching, blocking policy, and policies and namespace could be read where needed |
| Gate.RefusalExact | internal/webhook/v1alpha1/webapp_webhook.go:62-97 | a refusal lists exactly the faults of the spec and, each once, the findings of the blocking policies; exactly when policies or namespace are reported unreadable |
| Gate.UpdateExact | internal/webhook/v1alpha1/webapp_webhook.go:55-60 | an update is admitted if and only if the WebApp is being deleted, its spec stands, or the new spec is admissible and satisfies every blocking policy |
| Gate.ValidateUpdate | internal/webhook/v1alpha1/webapp_webhook.go:55-60 | a deletion or an unchanged spec is admitted under every policy set, anything else is validated in full |
| Gate.DefaultKeepsVerdict | internal/webhook/v1alpha1/webapp_webhook.go:62-97 | admission, policies included, decides the same for a spec and its defaulted form |
| Gate.DefaultKeepsFindings | internal/policy/policy.go:106-195 | each policy finding holds of a spec if and only if it holds of its defaulted form |
| Gate.FinalizerUpdatesAdmitted | internal/webhook/v1alpha1/webapp_webhook.go:55-60 | with the policies and the namespace read, a metadata-only update is admitted under every policy set if and only if the WebApp is being deleted or its stored spec is already defaulted; in that case also when they cannot be read |
| Gate.StoredThroughWebhook | internal/webhook/v1alpha1/webapp_webhook.go:55-60 | so it always is once the spec went through the mutating webhook |
| Policies.Evaluate | internal/policy/policy.go:34-68 | the loop over policies, for admission and for scale, yields the result FindingsConserved and the verdict lemmas characterize |
| Policies.Collector.Record | internal/policy/policy.go:70-86 | the list of the policy's mode grows by all findings, tagged with the policy, the other two stay |
| Policies.FindViolations | internal/policy/policy.go:106-195 | the findings the loops collect, in order, are those ViolationsExact characterizes |
| Policies.FindAnnotationViolations | internal/policy/policy.go:121-128 | one finding for each prefix and each key it begins, keys in ascending order |
| Policies.FindScratchViolations | internal/policy/policy.go:130-145 | one finding for each scratch volume without a limit or above the cap |
| Policies.FindResourceViolations | internal/policy/policy.go:147-193 | the findings of every container against floors and ceilings, in ascending resource order |
| Policies.FindReplicaViolations | internal/policy/policy.go:88-104 | a finding exactly if the count, or the HPA maximum when autoscaling, exceeds the ceiling |
| Text.SortKeys | internal/policy/policy.go:242-244 | sorting the keys of a map gives the one ascending listing |
| PolicyExact.MatchesExact | internal/policy/policy.go:23-32 | a policy matches if and only if it has no selector or one that parses and selects the namespace's labels; its selector is reported if and only if it does not parse |
| PolicyExact.ScaleFindingsExact | internal/policy/policy.go:52-68 | the scale check reports exactly the findings about the count and the HPA maximum |
| PolicyExact.ViolationsExact | internal/policy/policy.go:106-195 | a finding is reported if and only if the spec breaks that bound of the policy |
| Counted.ViolationsCounted | internal/policy/policy.go:106-195 | each finding is reported exactly once if the spec breaks that bound and not at all otherwise; a forbidden annotation once for each listing of its prefix |
| PolicyExact.AdmissionVerdictExact | internal/policy/policy.go:34-50 | violations are empty if and only if every parsable, matching, blocking policy is satisfied |
| PolicyExact.ScaleVerdictExact | internal/policy/policy.go:52-68 | the scale verdict is empty if and only if every such policy's ceiling holds |
| PolicyExact.AdmittedPassesScale | internal/policy/policy.go:34-68 | whatever admission lets through passes the scale check |
| PolicyExact.FindingsConserved | internal/policy/policy.go:34-86 | the three lists hold exactly the matching policies' findings, each in its list, plus one warning per unparsable selector |
| PolicyExact.OrderIrrelevant | internal/policy/policy.go:34-86 | permuting the policies only permutes the entries |
| PolicyValidation.Validate | internal/policy/policy.go:197-240 | the errors its loops collect are empty exactly as ValidateExact says |
| PolicyValidation.PolicyErrorsExact | internal/policy/policy.go:197-240 | an error is reported if and only if the selector does not parse, that entry is all white space, or that floor exceeds its ceiling |
| PolicyValidation.ValidateExact | internal/policy/policy.go:197-240 | a policy is accepted if and only if its selector parses, no entry is blank and no floor exceeds its ceiling |
| PolicyValidation.SatisfiableExact | internal/policy/policy.go:223-239 | a WebApp that passes validation, has no request above its limit and violates nothing exists if and only if the bounds agree and the account allowlist, if any, has a non-empty entry |
| PolicyValidation.AcceptedIsSatisfiable | internal/policy/policy.go:197-240 | every policy the self-check accepts is satisfied by such a WebApp |
| PolicyValidation.DeployablySatisfiableExact | internal/policy/policy.go:223-239 | with non-negative quantities and a legal account name as well, one exists if and only if the bounds agree, no ceiling is negative and some allowed account is a legal name |
| PolicyValidation.AcceptedDeployablyExact | internal/policy/policy.go:197-240 | an accepted policy is satisfied by such a deployable WebApp if and only if no ceiling is negative and some allowed account is a legal name |
| PolicyValidation.AcceptedYetUndeployable | internal/policy/policy.go:197-240 | two accepted policies that no deployable WebApp satisfies |
| PolicyValidation.UnmetBoundsRejectAll | internal/policy/policy.go:226-239 | a floor above its ceiling makes every WebApp with a container and no request above its limit violate the policy |

## Left out

- Stale caches, mid-pass interference, watches, leader election and requeue timing: the code promises nothing there; passes happen in any order and number.
- The NotFound answer of a delete whose object vanished after the read: without interference it cannot occur.
- SHA-256 itself and the parsing and matching of label selectors: uninterpreted functions.
- Quantities are integers, 32-bit fields are integers that are only compared, and texts of errors and conditions are tags.
- Field ownership other than that of `spec.replicas`: an apply replaces the modelled fields whole, and labels, annotations and defaulted fields outside them do not appear.
- The conversion to apply configurations (internal/controller/apply.go:14-25): the identity on the modelled fields, and its error path.
- Environment, probes, commands, affinity, tolerations, node selectors, pull secrets, HPA behaviour and the user's security contexts: copied as opaque values; the fixed security settings the builders add are not shown.
- Image-tag warnings, events, metrics, logs, and the warning and audit texts' delivery.
- Most schema rules: only those a theorem needs appear, as predicates. The listing order of managedFields entries is kept, their timestamps are not.
- Multi-byte characters: strings are sequences of characters, which schema-valid names and paths use one byte each for.
- Specs in a run are arbitrary: admission is not part of the moves of others, so the run theorems hold with and without the webhooks.
- cmd, config, hack and the build files.
