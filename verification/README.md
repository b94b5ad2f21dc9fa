# Verification of the Cluster API add-on provider for Helm

The provider turns a HelmChartProxy (HCP: "this chart, on every cluster with these labels") into one
HelmReleaseProxy (HRP) per selected cluster, and each HRP into a Helm release on that cluster. Two
controllers share one object store, with admission webhooks in front of it and a Helm release store
behind every cluster. What the provider guarantees is about whole runs in which both controllers,
users, clusters and hand-used Helm interleave.

## How the project is laid out

| module | what it holds |
|---|---|
| `Types`, `Admission`, `Helm`, `Phases`, `ReleaseFlow` | the API objects as values, and the decisions of the webhooks, the Helm client and the two controllers, as functions |
| `Machine` | the whole system as a state machine: stored objects, release stores, and every reconcile in flight with a program counter, so that any actor can step in between any two API calls |
| `StoreInvariant`, `ReleaseInvariant`, `ContentInvariant`, `ClaimInvariant`, `Invariant` | the inductive invariant of the machine |
| `Theorems`, `Runs`, `LastCalls`, `ChartReady`, `InstallOnce` | safety: what holds in every reachable state and over every run |
| `Rounds`, `Drain`, `Refinement`, `Convergence`, `Teardown`, `Liveness` | progress: rounds of whole reconciles, draining, teardown, becoming Ready, and that the machine can do them |
| `ChartRun`, `Schedules`, `EveryRound`, `EndToEnd`, `TeardownRuns` | progress under every schedule: a chart reconcile in an environment fixed beforehand, rounds in any order, from there to a Ready HCP, teardown interleaved with anything |
| `Witness` | concrete runs into states that the code does not exclude |
| `Objects`, `Api`, `Client`, `Listings`, `ReleaseController`, `ChartController` | the programs themselves: objects updated in place, the loops with their early returns, both `Reconcile` methods |
| `Bridge` | what the two `Reconcile` methods do is a run of the machine, so the theorems are about them |

The machine has these actions: users create, edit (through admission) and delete HCPs and delete HRPs
by hand; clusters appear, change and go; Helm is used by hand; each controller takes one step of one
reconcile, in which any API call, Helm call, secret or kubeconfig lookup may fail; a controller crashes
and forgets its reconcile. History that no controller reads (`History`) records the Helm calls, which
HRPs hold a stake in which release, what each HRP was created for, and each HRP's last Helm call whose
outcome reached the store.

## Assumptions

- A read is fresh when it is made, and the reconciles of one key are serialised. An HCP key is not
  created anew while a reconcile of its previous owner is in flight.
- An `Update` is compare-and-swap on the resource version and leaves the status alone. A patch atomically
  writes the fields that differ from what was read, the status being the controller's own, and
  records the generation that was read as the observed one. A spec or deletion change makes a new
  generation. Deleting an object with a finalizer marks it; without one it goes.
- The provider's finalizers are the only ones. Generated HRP names are never reused.
- Users do not edit HRPs by hand (they may delete them).
- The summary condition is true exactly if both listed conditions are; an aggregate is ready exactly if
  all its sources are.
- A Helm install or upgrade either aborts before storing anything; or stores one more revision with the
  located chart's version, exactly the supplied values, and any status, and may fail as well, with or
  without returning the release; or, being atomic, fails and takes back what it did. The library refuses to install over an existing
  release and to upgrade while the last revision is pending. Releases vanish with their cluster.
- One call of the Helm client (reading the release, overwriting a pending status, installing or
  upgrading) is one step of the machine, and so is reading a release and uninstalling it: hand-used Helm,
  or anything else, steps in before or after, never in between.
- Namespaces contain no slash (a rule of Kubernetes), where the program joins them with names.
- URL validity, chart location, the normal form in which values are compared, and what a values template
  renders to are parameters.

## Where the code differs from what one might expect

- The `Reinstalling` condition that `reconcileForCluster` sets is overwritten by `UpToDate=True` at the end
  of the same reconcile; the model follows the code.
- The comments on `InstallOrUpgradeHelmRelease` and `UpgradeHelmReleaseIfChanged` speak of a boolean that
  neither returns.
- "Ready means deployed" is false of the code: for a stored release that is as requested but that Helm is
  uninstalling, or that is superseded or unknown, no condition is set and an old Ready stays. `Witness`
  gives a run into such a state; `Liveness.ReadyAfterReconcileExactlyWhen` says exactly when. A call that
  failed is also seen late if its reconcile is lost (`LastCalls.FailureIsSeenLate`); over runs that lose
  none, `LastCalls.ReadyMeansDeployed`.
- A release installed under a generated name is tracked exactly if the call returned it and the final
  patch of the same reconcile reached the store (`Theorems.GeneratedNameIsTrackedExactlyWhen`). A failing
  call that stored a release without returning it, a failing patch and a crash each strand it.
- Ready of a HelmChartProxy can be stored without an aggregation: if listing the HelmReleaseProxies, adding
  the finalizer, looking up the proxy of a cluster or listing for the aggregation fails, old conditions
  stay and the new generation is claimed as observed (`ChartReady.EarlyExitKeepsReady`; exactly when:
  `ChartReady.StoredReadyExactlyWhen`).
- Recovery from a pending status takes one call if the version or the values differ, and two otherwise,
  because the upgrade is decided on the release as it was read before its status was overwritten
  (`Helm.PendingRecovery`).
- A HelmChartProxy that is being deleted with a selector that does not parse is never let go
  (`Teardown.UnparsableSelectorBlocksTeardown`). An admitted edit after the finalizer was set leads there
  (`Witness.StuckIsReachable`); unless the selector was made unparsable by an edit, it cannot arise
  (`TeardownRuns.OnlyABadEditSticks`), because a HelmChartProxy created with a bad selector never gets
  the finalizer. One bad selector in a namespace also hides its clusters
  from every other HelmChartProxy (`Listings.MapCluster`).

## Model

| member | source | states |
|---|---|---|
| Theorems.NoStrandedRelease | controllers/helmreleaseproxy/helmreleaseproxy_controller.go:162-229 | In every reachable state, an HRP that holds a stake in a live release is stored, carries the finalizer and names that release, and the cluster still exists. |
| Theorems.StakesAreTaken | controllers/helmreleaseproxy/helmreleaseproxy_controller.go:328-379 | A stake is taken by every Helm call of a named Continuous or unset HRP that finds or makes the release, and by recording a generated name. |
| Theorems.StakesEndOnlyWithTheRelease | controllers/helmreleaseproxy/helmreleaseproxy_controller.go:403-467 | A stake lasts until Helm uninstalls the release, through an HRP that names it or by hand, or its cluster goes; nothing else ends it. |
| Theorems.GeneratedNameIsTrackedExactlyWhen | controllers/helmreleaseproxy/helmreleaseproxy_controller.go:347-368 | A release that a reconcile made under a generated name has a stake at its end if and only if the call returned the release and the final patch reached the stored HRP; otherwise no one has. |
| Theorems.UnrecordedNameStrands | controllers/helmreleaseproxy/helmreleaseproxy_controller.go:403-437 | The same if the reconcile crashes after the call; and deleting a nameless HRP touches no release. |
| Theorems.ReadyIsNeverStale | controllers/helmreleaseproxy/helmreleaseproxy_controller.go:486-509 | In every reachable state, an undeleted Continuous or unset HRP that is Ready at its generation had its last recorded Helm call made with exactly its current spec, and that call returned a deployed release or one in an ignored status. |
| LastCalls.MostRecentCallIsCurrent | controllers/helmreleaseproxy/helmreleaseproxy_controller.go:328-400 | The most recent call, recorded or not, was made with the current spec, in every reachable state. |
| LastCalls.RunKeepsRecords | controllers/helmreleaseproxy/helmreleaseproxy_controller.go:145-154 | Over every run in which no reconcile of the HRP crashes, or fails its final patch, after its Helm call, the recorded call is the most recent one unless a reconcile in flight carries it. |
| LastCalls.ReadyMeansDeployed | controllers/helmreleaseproxy/helmreleaseproxy_controller.go:328-400 | Over every such run from a fresh system, an HRP that is Ready at its generation with no call in flight had its most recent Helm call made with its current spec, and that call returned a deployed release or one in an ignored status. |
| LastCalls.FailureIsSeenLate | controllers/helmreleaseproxy/helmreleaseproxy_controller.go:354-363 | A failing call on a Ready HRP leaves it Ready if the reconcile is lost before its patch. |
| LastCalls.RunKeepsLast | controllers/helmreleaseproxy/helmreleaseproxy_controller.go:121-324 | The invariant behind it is kept by every run. |
| Theorems.ReadyAfterHelmExactlyWhen | controllers/helmreleaseproxy/helmreleaseproxy_controller.go:354-397 | HelmReleaseReady is true after a call exactly if the release is deployed, or was ready before and came back without error in an ignored status. |
| Liveness.ReadyAfterReconcileExactlyWhen | controllers/helmreleaseproxy/helmreleaseproxy_controller.go:328-400 | A reconcile without a failure leaves a named HRP Ready at its generation if and only if what is stored before it is not a pending release otherwise as requested and, unless it was ready before, not a release as requested in an ignored status. |
| Witness.ReadyMayOutliveTheRelease | controllers/helmreleaseproxy/helmreleaseproxy_controller.go:372-396 | In some state reached from a fresh system a Continuous HRP is Ready at its generation while its release is being uninstalled, and a reconcile without a failure leaves it so. |
| Theorems.OneProxyPerPair | controllers/helmchartproxy/helmchartproxy_controller_phases.go:147-200 | At most one HRP per HCP and cluster in every reachable state. |
| Theorems.HelmIsCalledAlone | controllers/helmreleaseproxy/helmreleaseproxy_controller.go:231-324 | An HRP about to call Helm is stored with its finalizer and is the only one of its pair, so a replacement waits until its predecessor is gone. |
| Theorems.ReplacedReleasesAreGone | controllers/helmchartproxy/helmchartproxy_controller_phases.go:86-110 | When an HRP is about to call Helm, no release is left in which an earlier HRP of the same HCP and cluster held a stake. |
| Theorems.OwnersOutliveProxies | controllers/helmchartproxy/helmchartproxy_controller.go:144-175 | Every HRP's HCP is stored with its finalizer; an HCP that is gone or has no finalizer has no HRPs, even if it was deleted in the middle of a reconcile creating them. |
| Theorems.InstallOnceProxiesAreKept | controllers/helmchartproxy/helmchartproxy_controller.go:205-211 | Under InstallOnce the chart controller deletes an HRP only to take its HCP away, never as an orphan or for reinstall. |
| Theorems.ReinstallExactlyWhenIdentityChanged | controllers/helmchartproxy/helmchartproxy_controller_phases.go:294-322 | In every reachable state, also after a generated name was recorded, an HRP is due for reinstall if and only if the identity it was created for differs from the HCP's. |
| Theorems.ChartWritesAreAdmitted | controllers/helmchartproxy/helmchartproxy_controller_phases.go:181-200 | Every create, and every update of an object not written since it was read, passes the HRP validators. |
| Theorems.ReleasePatchesAreAdmitted | controllers/helmreleaseproxy/helmreleaseproxy_controller.go:486-509 | Every patch of the release controller passes the HRP validators, whenever it is sent. |
| Theorems.ChartPatchesAreAdmitted | controllers/helmchartproxy/helmchartproxy_controller.go:367-391 | Every patch of the chart controller passes the HCP validators, even with legacy foreign Secret references. |
| Theorems.AggregationIsExact | controllers/helmchartproxy/helmchartproxy_controller.go:306-364 | The aggregation leaves the summary true exactly if the specs were up to date and every labelled HRP is Ready at its generation. |
| Theorems.AggregationSets | controllers/helmchartproxy/helmchartproxy_controller.go:320-361 | Which condition it sets: an HRP whose generation is not observed takes SpecsUpToDate back and leaves HelmReleaseProxiesReady alone; otherwise the latter says whether all HRPs are Ready, and is true without any. |
| Theorems.ChartReadyIsSound | controllers/helmchartproxy/helmchartproxy_controller.go:306-364 | If the aggregation of a reconcile comes out Ready in its working copy, every labelled HRP is Ready at its generation. |
| ChartReady.StoredReadyExactlyWhen | controllers/helmchartproxy/helmchartproxy_controller.go:178-196 | From any reachable state in which a reconcile of an undeleted HCP is one step from its end, whoever does what until its final patch lands, the stored HCP has Ready true if and only if: listing the HRPs or adding the finalizer failed and both conditions were true before; or a lookup failed, both were true and nothing was deleted for reinstall; or the list for the aggregation failed and HelmReleaseProxiesReady was true before; or the aggregation found every HRP Ready. |
| ChartReady.StoredReadyIsSound | controllers/helmchartproxy/helmchartproxy_controller.go:306-391 | If the reconcile aggregated and the HCP is then stored with Ready true, every labelled HRP was Ready at its generation when listed, hence each undeleted Continuous or unset one had been applied with its spec. |
| ChartReady.EarlyExitKeepsReady | controllers/helmchartproxy/helmchartproxy_controller.go:138-141 | From any undeleted HCP that is Ready, a reconcile that cannot list the HRPs stores Ready true for the current generation without touching an HRP. |
| ChartReady.RunKeepsConditions | controllers/helmchartproxy/helmchartproxy_controller.go:81-197 | Until its end a reconcile leaves HelmReleaseProxiesReady as it was and only ever takes SpecsUpToDate back, in every run. |
| Runs.NoLostUpdates | controllers/helmchartproxy/helmchartproxy_controller_phases.go:181-200 | No action but an HRP's own release reconcile changes its recorded name, annotations, finalizer or status, and that reconcile changes nothing in the spec but an empty name. |
| Runs.InstallOnceFreezes | controllers/helmreleaseproxy/helmreleaseproxy_controller.go:333-339 | Once an InstallOnce HRP carries the installed annotation, no run calls install or upgrade for it again or changes its spec. |
| Runs.UpdateSparesFrozen | controllers/helmchartproxy/helmchartproxy_controller_phases.go:79-84 | A chart reconcile that read the HRP before the annotation was stored cannot update it afterwards. |
| Runs.InstallOnceNeverUninstalls | controllers/helmreleaseproxy/helmreleaseproxy_controller.go:403-410 | No run uninstalls a release through an InstallOnce HRP. |
| Invariant.ApplyKeepsInv | controllers/helmchartproxy/helmchartproxy_controller.go:81-197 | Every action of every actor keeps the invariant of the whole system. |
| Invariant.RunKeepsInv | controllers/helmchartproxy/helmchartproxy_controller.go:81-197 | So does every run. |
| Invariant.ReachableHasInv | controllers/helmreleaseproxy/helmreleaseproxy_controller.go:121-324 | Every state reachable from a fresh system satisfies it. |
| Invariant.UpdateIsForeign | controllers/helmchartproxy/helmchartproxy_controller_phases.go:188-197 | An accepted update overwrites the very object that was read, and changes nothing of it but the refreshed spec fields. |
| ReleaseInvariant.FullPatch | controllers/helmreleaseproxy/helmreleaseproxy_controller.go:341-379 | The patch after a Helm call writes annotations, an empty name and the status, and keeps the version and values the chart controller may have written meanwhile. |
| StoreInvariant.PatchChartKeepsStoreInv | controllers/helmchartproxy/helmchartproxy_controller.go:155-175 | The patch of a chart reconcile takes the finalizer off only when no HRP is left. |
| Rounds.Converges | controllers/helmchartproxy/helmchartproxy_controller.go:200-226 | From any store with at most one HRP per pair, whose HRPs name the cluster of their label and have the HCP's strategy (as in every reachable state), two rounds of chart reconcile and drain leave exactly one HRP per selected, unpaused, undeleted cluster, matching the HCP on identity, version and values (under InstallOnce: on version and values, or installed), and no orphan; a third reconcile writes nothing. |
| Rounds.OtherStrategyIsRefused | api/v1alpha1/helmreleaseproxy_webhook.go:103-108 | An HRP with another strategy is refused every update and stays as it is, so the strategies have to agree. |
| Rounds.ForClusterStep | controllers/helmchartproxy/helmchartproxy_controller_phases.go:64-144 | One cluster's turn touches no other pair, serves a pair with no wrong HRP, leaves a served pair as it is, and makes a wrong HRP match or leave. |
| Rounds.TurnOnNone | controllers/helmchartproxy/helmchartproxy_controller_phases.go:64-144 | The turn of a cluster without an HRP leaves exactly one of that pair, under every strategy: a new one with the HCP's identity, version, values and strategy. |
| Rounds.TurnOnExisting | controllers/helmchartproxy/helmchartproxy_controller_phases.go:82-144 | The turn of a live HRP not due for reinstall leaves it as it was if it is installed under InstallOnce, and otherwise with the version and values asked for and its name, annotations and status untouched. |
| Rounds.LeavesExactlyMatching | controllers/helmchartproxy/helmchartproxy_controller_phases.go:82-144 | The controller leaves alone exactly the live HRPs that match, where matching is said of identity, version, values and Secrets. |
| Schedules.EveryReconcile | controllers/helmchartproxy/helmchartproxy_controller.go:178-226 | Every uninterrupted chart reconcile in which no call fails, from any state the invariant allows, leaves the HRPs that the round's reconcile leaves, for the order in which it was told of orphans and clusters, and the verdict of the aggregation stored. |
| EveryRound.CleanReconcileDoes | controllers/helmchartproxy/helmchartproxy_controller.go:200-226 | Every such reconcile leaves orphans leaving and pairs handled, serves all pairs if none was wrong, and writes no HRP once converged; it stores the HCP at its generation with Ready true if and only if every HRP of it is Ready at its own, and with the selected clusters as the matching ones. |
| EveryRound.EachClusterIsServed | controllers/helmchartproxy/helmchartproxy_controller.go:200-226 | Cluster by cluster and under every strategy: an eligible cluster none of whose HRPs was wrong, in particular one without any, has its one matching HRP afterwards; an HRP of no eligible cluster that is not an orphan is untouched. |
| EveryRound.PausedClusterIsLeftAlone | controllers/helmchartproxy/helmchartproxy_controller_phases.go:67-71 | An HRP on a selected cluster that is paused or being deleted is untouched by every such reconcile. |
| ChartReady.PausedIsLeftAlone | controllers/helmchartproxy/helmchartproxy_controller_phases.go:67-71 | In every reachable state, a reconcile that read its HCP as paused writes no HRP but to delete an orphan or to tear down. |
| EveryRound.ReleaseActionsKeep | controllers/helmreleaseproxy/helmreleaseproxy_controller.go:121-324 | No steps of the release controller, failing or not, add an HRP, lose one that is not terminating, or make one stop matching its HCP. |
| EveryRound.TwoRoundsConverge | controllers/helmchartproxy/helmchartproxy_controller.go:200-226 | Convergence under every schedule of rounds: any two rounds (such a reconcile, then the release controller doing anything until no HRP of the HCP is terminating) lead to the converged state; after that no such reconcile writes an HRP, whatever the release controller does in between. |
| EveryRound.ConvergedMeans | controllers/helmchartproxy/helmchartproxy_controller_phases.go:235-256 | In the converged state each cluster that is in the namespace, has matching labels and is neither paused nor being deleted has exactly one HRP; it is live, with the version and rendered values of the HCP and created for its identity; under InstallOnce it may instead be one that was installed. |
| EveryRound.ConvergedSelects | controllers/helmchartproxy/helmchartproxy_controller_phases.go:39-61 | Unless the strategy is InstallOnce, no HRP of the HCP is then on a cluster whose labels do not match. |
| EndToEnd.SettlesAsReady | controllers/helmchartproxy/helmchartproxy_controller.go:178-226 | The whole way: from any state, after any two rounds, any sequence of release reconciles without a failure in which each HRP has at least one turn, its release being absent, deployed or failed before, and then one chart reconcile without a failed call, every eligible cluster has exactly one matching HRP, each Ready with its release deployed at the version and values of its last turn, and the HCP is stored with Ready true at its generation. |
| EndToEnd.TurnMakesReady | controllers/helmreleaseproxy/helmreleaseproxy_controller.go:231-324 | One such turn makes its HRP Ready and leaves it fit for more turns. |
| EndToEnd.OthersUntouched | controllers/helmreleaseproxy/helmreleaseproxy_controller.go:231-324 | It touches no other HRP of the HCP and not its release. |
| Convergence.ReconcileRefines | controllers/helmchartproxy/helmchartproxy_controller.go:178-226 | Such a reconcile exists: steps of that chart reconcile alone, none of whose calls fails, add up to the round's reconcile, the finalizer included. |
| Refinement.ClusterRefines | controllers/helmchartproxy/helmchartproxy_controller_phases.go:64-144 | Steps of the chart reconcile alone make up one cluster's turn. |
| Convergence.MachineConverges | controllers/helmchartproxy/helmchartproxy_controller.go:200-226 | A converged state can be reached by the two controllers alone, from any state the invariant allows with no chart reconcile of the HCP in flight. |
| Drain.StageFalls | controllers/helmreleaseproxy/helmreleaseproxy_controller.go:174-229 | Every step of its reconcile in which nothing fails brings a terminating HRP strictly closer to its end, whatever was in flight. |
| Drain.TerminatingProxyDrains | controllers/helmreleaseproxy/helmreleaseproxy_controller.go:174-229 | At most twelve such steps remove it and touch no other object. |
| Convergence.DrainRefines | controllers/helmreleaseproxy/helmreleaseproxy_controller.go:174-229 | Steps of release reconciles alone can finish with all terminating HRPs and leave all others as they are. |
| TeardownRuns.MeasureNeverRises | controllers/helmchartproxy/helmchartproxy_controller.go:155-175 | Once an HCP is being deleted and its reconcile, if any, has read it so, no run raises the measure (live HRPs, terminating HRPs, HCP present), whoever does what. |
| TeardownRuns.EveryCleanPass | controllers/helmchartproxy/helmchartproxy_controller.go:229-275 | Every chart reconcile of it without a failed call, however interleaved, leaves no HRP undeleted and removes an HCP that had none, so it lowers the measure whenever there is something for it to do. |
| TeardownRuns.DrainsUnderEverySchedule | controllers/helmreleaseproxy/helmreleaseproxy_controller.go:174-229 | A terminating HRP is gone for good after twelve steps of its own reconcile without a failure, and five more for each time its cluster goes away meanwhile, whatever was in flight and whatever anyone else does in between. |
| TeardownRuns.EveryFairTeardownCompletes | controllers/helmchartproxy/helmchartproxy_controller.go:155-175 | Every schedule with such a chart reconcile, then those steps for each HRP, then another such chart reconcile, interleaved with anything else, leaves neither the HCP nor an HRP of it. |
| Teardown.TeardownAdvances | controllers/helmchartproxy/helmchartproxy_controller.go:229-275 | As long as a deleted HCP with a selector that parses is stored, the two controllers can lower the measure. |
| Teardown.TeardownCompletes | controllers/helmchartproxy/helmchartproxy_controller.go:155-175 | So they can reach a state without the HCP and its HRPs, with all other HRPs untouched. |
| Teardown.UnparsableSelectorBlocksTeardown | controllers/helmchartproxy/helmchartproxy_controller.go:119-134 | With a selector that does not parse, no run lets the HCP go until the selector is edited. |
| Teardown.BadEditSticks | api/v1alpha1/helmchartproxy_webhook.go:94-119 | From any state with a finalized HCP that is at rest, an admitted edit to such a selector followed by a deletion leads there; admission does not look at the selector. |
| Witness.StuckIsReachable | controllers/helmchartproxy/helmchartproxy_controller.go:119-134 | So some run from a fresh system, in which the HCP served a cluster before, gets there. |
| TeardownRuns.OnlyABadEditSticks | controllers/helmchartproxy/helmchartproxy_controller.go:119-154 | No run without an edit to a selector that does not parse gets there, from any fresh system in which the HCP does not have the finalizer under such a selector; and an HCP with such a selector then goes at once when it is deleted. |
| Liveness.HealthyReconcileMakesReady | controllers/helmreleaseproxy/helmreleaseproxy_controller.go:231-324 | Every uninterrupted reconcile in which nothing fails makes a live, named HRP, whose release is absent, deployed or failed, Ready at its generation, with its release deployed at the located version and with its values. |
| Liveness.PendingProxyRecovers | controllers/helmreleaseproxy/helmreleaseproxy_controller.go:328-400 | With a release stuck in a pending status, every two such reconciles do. |
| Liveness.NamelessProxyBecomesReady | controllers/helmreleaseproxy/helmreleaseproxy_controller.go:347-368 | Without a release name, the first such reconcile installs under the generated name and records it, the second makes the HRP Ready. |
| Liveness.HealthyReconcile | controllers/helmreleaseproxy/helmreleaseproxy_controller.go:231-324 | Such a reconcile exists from every state the invariant allows with none in flight. |
| Liveness.EverySmoothReconcile | controllers/helmreleaseproxy/helmreleaseproxy_controller.go:231-324 | Every uninterrupted reconcile of an HRP that is not installed under InstallOnce, in which nothing around the Helm call fails, logs exactly one call, with the spec as read, and stores what it returned: name, status, revision, conditions and annotation. |
| Liveness.CallsHelmExactlyWhen | controllers/helmreleaseproxy/helmreleaseproxy_controller.go:231-324 | If its patches land, a reconcile calls Helm if and only if the cluster is there, its control plane is not known to be uninitialised, and kubeconfig and Secrets are found; otherwise the HRP is stored with ClusterAvailable false and not Ready. |
| InstallOnce.MarkedExactlyWhen | controllers/helmreleaseproxy/helmreleaseproxy_controller.go:372-380 | Such a reconcile of a live InstallOnce HRP marks it as installed if and only if its call came back with a deployed release; from then on no run calls Helm for it again, and its spec and mark stay. |
| InstallOnce.MarkIsHonest | controllers/helmreleaseproxy/helmreleaseproxy_controller.go:332-382 | In every reachable state, an HRP with the mark had a call that came back with a deployed release. |
| Helm.UpgradeNeverIssuedWhilePending | internal/helm_client.go:115-124 | An upgrade is never asked for while the stored revision is pending. |
| Helm.PendingRecovery | internal/helm_client.go:99-125 | From any pending status, two error-free calls raise the revision by one and leave the release deployed as requested; one call suffices exactly if the version or the values differ. |
| Helm.RevisionMovesExactlyWhen | internal/helm_client.go:460-490 | From a release that is not pending, a call moves the revision exactly if the chart version differs, the status is failed or the normal forms of the values differ, and leaves nothing more to do. |
| Helm.SettledForever | internal/helm_client.go:354-441 | Any number of further calls with the same spec change nothing. |
| Helm.QuiescentFromTheSecondCall | internal/helm_client.go:99-125 | Whatever was stored, from the second error-free call on nothing changes. |
| Helm.CallFrame | internal/helm_client.go:187-268 | A call touches no release but the one it names or generates. |
| Helm.InstallsUnderTheName | internal/helm_client.go:212-225 | With nothing stored under the given or generated name, an error-free call stores the first revision there and returns the name. |
| Helm.FailedReadInstallsNothing | internal/helm_client.go:107-114 | A read that fails for another reason than "not found" ends the call of a named spec with an error; nothing is installed. |
| Helm.FailedOverwriteUpgradesNothing | internal/helm_client.go:116-122 | So does a pending status that cannot be overwritten. |
| Helm.NoChartInstallsNothing | internal/helm_client.go:187-268 | Without the chart nothing is installed or upgraded, the call fails, and a pending status has been overwritten. |
| Helm.TakenNameInstallsNothing | internal/helm_client.go:212-225 | A generated name that is taken, or empty, installs nothing. |
| Helm.GoesAheadAsAsked | internal/helm_client.go:99-125 | If the release is absent, or differs in version or values or has failed, and the calls before succeed, exactly the revision that the library stores is stored under the name, and returned unless the library fails without returning it. |
| Helm.OtherwiseStandsStill | internal/helm_client.go:354-441 | In all other cases nothing but the overwritten status is stored, and the call fails unless the release is as requested, which is then returned. |
| Helm.UninstallTakesAway | internal/helm_client.go:548-562 | Uninstalling takes away the one release, or leaves its last revision as history. |
| Helm.UnreadableVersionFails | internal/helm_client.go:463-465 | A stored release without chart metadata is an error and is not upgraded; a pending status has been overwritten all the same. |
| Helm.AtomicFailureTakesBack | internal/helm_client.go:128-184 | A failing atomic install leaves nothing, a failing atomic upgrade the contents from before, two revisions later; the failed release comes back with the error. |
| Phases.ConstructIsAFixpoint | controllers/helmchartproxy/helmchartproxy_controller_phases.go:235-256 | Applied to its own result with the same HCP and values, constructHelmReleaseProxy finds nothing to do. |
| Phases.ConstructsExactlyWhen | controllers/helmchartproxy/helmchartproxy_controller_phases.go:220-260 | constructHelmReleaseProxy has nothing to do if and only if there is an HRP with the version and the values asked for and with its Secrets in the HCP's namespace. |
| Phases.DecisionOnNone | controllers/helmchartproxy/helmchartproxy_controller_phases.go:82-144 | Without an HRP, and under every strategy, one is created as soon as the values render: for this HCP and cluster, with the HCP's identity, version, values, strategy and options, and without annotations. |
| Phases.DecisionOnExisting | controllers/helmchartproxy/helmchartproxy_controller_phases.go:82-144 | Exactly when an HRP is left alone, reinstalled, updated, or fails for want of values: an installed InstallOnce one is left alone whatever changes; one with another identity is reinstalled unless the strategy is InstallOnce; any other is brought to the version and values asked for. |
| Phases.ConstructFrame | controllers/helmchartproxy/helmchartproxy_controller_phases.go:220-291 | Its result refers only to Secrets in the HCP's namespace and leaves every identity field of an existing HRP alone. |
| Phases.ConstructCarriesOver | controllers/helmchartproxy/helmchartproxy_controller_phases.go:222-291 | Options, version, values, strategy, credentials and TLS settings come from the HCP, Secrets moved to its namespace and the key defaulted; a new HRP has the HCP's identity and labels. |
| Phases.NoticesOnlyTheVersion | controllers/helmchartproxy/helmchartproxy_controller_phases.go:242-256 | Changes to the options, the name or key of the credentials or the TLS flags alone go unnoticed. |
| Admission.UpdateAdmittedExactlyWhen | api/v1alpha1/helmchartproxy_webhook.go:94-119 | An HCP update is admitted exactly if the URL is valid, the strategy is unchanged and each Secret reference is absent, local or the one that was there. |
| Admission.CreateAdmittedExactlyWhen | api/v1alpha1/helmchartproxy_webhook.go:80-91 | An HCP may be created exactly if its URL is valid and each Secret reference it has is local. |
| Admission.ReleaseCreateAdmittedExactlyWhen | api/v1alpha1/helmreleaseproxy_webhook.go:66-74 | An HRP may be created exactly if its URL is valid. |
| Theorems.CreateIsStoredExactlyWhen | api/v1alpha1/helmchartproxy_webhook.go:58-91 | In the machine an HCP that a user creates is stored, defaulted, exactly then, and nothing else changes. |
| Theorems.EditIsStoredExactlyWhen | api/v1alpha1/helmchartproxy_webhook.go:94-119 | An edit is stored, as a new generation, exactly if it is admitted, and nothing else changes. |
| Admission.ReleaseUpdateAdmittedExactlyWhen | api/v1alpha1/helmreleaseproxy_webhook.go:77-117 | An HRP update is admitted exactly if URL, chart, release namespace and strategy are unchanged. |
| Admission.DefaultingSettles | api/v1alpha1/helmchartproxy_webhook.go:58-75 | Defaulting fills in what is missing, adds wait under atomic, changes nothing else and is idempotent. |
| Admission.ReleaseDefaultingSettles | api/v1alpha1/helmreleaseproxy_webhook.go:52-60 | An HRP gets the namespace "default" if it names none, and nothing else changes. |
| Admission.ForeignReferencesOnlySurvive | api/v1alpha1/helmchartproxy_webhook.go:155-189 | Along any chain of admitted updates a foreign Secret reference equals the one in every earlier object. |
| Admission.LocalStaysLocal | api/v1alpha1/helmchartproxy_webhook.go:155-189 | A reference once local or removed never becomes foreign again. |
| Admission.CreatedProxiesStayLocal | api/v1alpha1/helmchartproxy_webhook.go:80-91 | An HCP created under admission never has a foreign reference. |
| Admission.StrategyIsFixed | api/v1alpha1/helmchartproxy_webhook.go:107-112 | The strategy is fixed along every chain of admitted updates, and every later URL is valid. |
| Listings.GetOrphaned | controllers/helmchartproxy/helmchartproxy_controller_phases.go:325-352 | With its map of "namespace/name" strings, the loop returns exactly the HRPs whose cluster is not selected. |
| Listings.OrphansAreExactly | controllers/helmchartproxy/helmchartproxy_controller_phases.go:325-352 | All and only those are in the list. |
| Listings.OrphansKeepOrder | controllers/helmchartproxy/helmchartproxy_controller_phases.go:336-343 | They keep the order in which they were listed. |
| Listings.ClusterStringIsInjective | controllers/helmchartproxy/helmchartproxy_controller_phases.go:329-341 | Keys with slash-free namespaces have the same string only if they are equal. |
| Listings.SlashesCollide | controllers/helmchartproxy/helmchartproxy_controller_phases.go:329-341 | Without that, different clusters may have the same string. |
| Listings.Verdict | controllers/helmchartproxy/helmchartproxy_controller.go:331-345 | The loop finds an HRP whose generation is not observed exactly if there is one, and otherwise whether all are Ready. |
| Listings.MapCluster | controllers/helmchartproxy/helmchartproxy_controller.go:394-429 | The mapper returns the selecting HCPs in order if every selector in the namespace parses, and nothing if one does not. |
| Listings.MapperFindsExactly | controllers/helmchartproxy/helmchartproxy_controller.go:418-425 | In the first case exactly the HCPs whose selector matches the cluster's labels. |
| Listings.SelectorsSelect | controllers/helmchartproxy/helmchartproxy_controller.go:278-292 | Opposite operators split the label sets, more requirements narrow the selection, no requirement selects everything; and exactly which requirements parse. |
| Client.HelmClient.InstallOrUpgradeHelmRelease | internal/helm_client.go:99-125 | The client's sequence of effects does what the decision function of the theorems says, including when and from which revision an upgrade is issued, which is never a pending one. |
| Client.HelmClient.UpgradeHelmReleaseIfChanged | internal/helm_client.go:354-441 | The same for an upgrade decided on the release read before. |
| Client.HelmClient.InstallHelmRelease | internal/helm_client.go:187-268 | The same for an install, under a given or a generated name. |
| Client.HelmClient.UpdateLastReleaseStatus | internal/helm_client.go:576-589 | Rewrites the status of the last revision and nothing else; fails on a missing release. |
| Client.HelmClient.GetHelmRelease | internal/helm_client.go:493-509 | A nameless spec has no release; a read may fail otherwise. |
| Client.HelmClient.UninstallHelmRelease | internal/helm_client.go:548-562 | Removes the release, or keeps it as history, exactly if it exists and the call succeeds. |
| Objects.Construct | controllers/helmchartproxy/helmchartproxy_controller_phases.go:220-291 | An existing HRP object is updated in place to the constructed value or left as it was; the HCP object is not changed and shares no credentials or TLS objects with the result. |
| Objects.NeedsUpdate | controllers/helmchartproxy/helmchartproxy_controller_phases.go:242-260 | The chain of checks finds exactly the changes that count as changes. |
| Objects.CopyCredentials | api/v1alpha1/zz_generated.deepcopy.go:36-43 | The copy has the same value and shares nothing with the original. |
| Objects.CopyTLS | api/v1alpha1/zz_generated.deepcopy.go:339-356 | The same, the nested Secret reference included. |
| Objects.ChartObject.Default | api/v1alpha1/helmchartproxy_webhook.go:58-75 | Defaulting in place: namespace, wait under atomic, timeout, and nothing else. |
| Objects.ReleaseObject.Default | api/v1alpha1/helmreleaseproxy_webhook.go:52-60 | Defaulting in place: the release namespace and nothing else. |
| Objects.ReleaseObject.SetReleaseName | api/v1alpha1/helmreleaseproxy_types.go:162-166 | Fills in an empty name and changes nothing else. |
| Objects.ChartObject.SetMatchingClusters | api/v1alpha1/helmchartproxy_types.go:296-308 | The loop records exactly the listed clusters. |
| ReleaseController.ReconcileNormal | controllers/helmreleaseproxy/helmreleaseproxy_controller.go:328-400 | Skips an installed InstallOnce HRP; otherwise calls Helm with the spec as it was read and records the outcome in the object as the theorems assume. |
| ReleaseController.ReconcileDelete | controllers/helmreleaseproxy/helmreleaseproxy_controller.go:403-467 | Fails exactly if the release cannot be read or uninstalled; otherwise it is uninstalled, absent or left to InstallOnce. |
| ReleaseController.InitializeConditions | controllers/helmreleaseproxy/helmreleaseproxy_controller.go:469-483 | Sets and patches the first condition exactly if there was none, and goes on whether or not the patch worked. |
| ReleaseController.PatchRelease | controllers/helmreleaseproxy/helmreleaseproxy_controller.go:486-509 | Sets the summary and writes the merge of what changed, or nothing on failure. |
| ReleaseController.Reconcile | controllers/helmreleaseproxy/helmreleaseproxy_controller.go:121-324 | Whatever fails, the stores end up where an uninterrupted run of this reconcile's machine steps leaves them, deferred patch included. |
| Bridge.ReleaseReconcileIsRun | controllers/helmreleaseproxy/helmreleaseproxy_controller.go:121-324 | Such a sequence is a run of the machine and keeps the invariant. |
| ChartController.DeleteOrphaned | controllers/helmchartproxy/helmchartproxy_controller_phases.go:39-61 | Deletes the orphans in their order up to the first one whose deletion fails; fails exactly if there is such a one. |
| ChartController.GetExisting | controllers/helmchartproxy/helmchartproxy_controller_phases.go:147-178 | None, the only one, or an error exactly if there are several. |
| ChartController.CreateOrUpdate | controllers/helmchartproxy/helmchartproxy_controller_phases.go:181-200 | Stores the constructed object, or nothing if none is needed; fails exactly if the call fails, validation refuses it or the object was written meanwhile. |
| ChartController.ReconcileForCluster | controllers/helmchartproxy/helmchartproxy_controller_phases.go:64-144 | The store after one cluster's turn, and exactly when it fails: by the lookup, by several HRPs, by rendering, or by the delete, create or update that the decision calls for. |
| ChartController.ReconcileClusters | controllers/helmchartproxy/helmchartproxy_controller.go:213-225 | The store after the loop over the clusters in their order, left early exactly at the first turn that fails. |
| ChartController.AggregateReadiness | controllers/helmchartproxy/helmchartproxy_controller.go:306-364 | Fails exactly if the list does; otherwise listing, looping and setting conditions comes to the verdict of the machine. |
| ChartController.DeleteReleases | controllers/helmchartproxy/helmchartproxy_controller.go:229-275 | Deletes and looks up the listed HRPs in their order up to the first failure; fails exactly if there is one, and otherwise waits for exactly those that are still stored. |
| ChartController.Reconcile | controllers/helmchartproxy/helmchartproxy_controller.go:81-197 | For every choice of which calls fail and what values render to, made beforehand, the stores end up where an uninterrupted run of this reconcile's machine steps leaves them under that very choice, deferred patch included. With Schedules.EveryReconcile: if none fails, where the round's reconcile leaves them. |
| Bridge.ChartReconcileIsRun | controllers/helmchartproxy/helmchartproxy_controller.go:81-197 | Such a sequence is a run of the machine and keeps the invariant. |
| Api.ApiServer.Update | controllers/helmchartproxy/helmchartproxy_controller_phases.go:188-197 | Refused exactly if the object is gone, was written since it was read, or fails validation; leaves the status alone. |
| Api.ApiServer.Delete | controllers/helmchartproxy/helmchartproxy_controller_phases.go:203-216 | A missing object is no error; one with a finalizer is only marked. |

## Left out

- Theorems.ReadyIsNeverStale: is about the last call whose outcome was recorded, and admits the statuses the controller ignores, because the stronger claim is false of the code; LastCalls.ReadyMeansDeployed says over which runs that call is the latest.
- Theorems.NoStrandedRelease: says nothing of a generated name that was not recorded yet, because the code does not.
- Theorems.ReplacedReleasesAreGone: a stake ends when the release is uninstalled, removed by hand or lost with its cluster; with keep-history, uninstalled counts as gone.
- EveryRound.TwoRoundsConverge: fixes the HCP, the clusters and what the template renders to; the chart reconciles of the rounds are not interleaved with anything, because a concurrent patch may make an update fail, and then the reconcile is not one of these.
- EndToEnd.SettlesAsReady: is about HRPs that are not InstallOnce, and every HRP has its release name before its turns; a nameless one gets it in one reconcile more (Liveness.NamelessProxyBecomesReady).
- TeardownRuns.EveryFairTeardownCompletes: starts with no chart reconcile of that HCP in flight.
- Liveness.HealthyReconcileMakesReady: covers HRPs with a release name, and stored releases that are absent, deployed or failed; pending ones and nameless HRPs are the two lemmas after it, ignored statuses Liveness.ReadyAfterReconcileExactlyWhen.
- Template rendering of values, YAML marshalling and numeric formatting: unseen libraries; a parameter and an abstract normal form.
- URL parsing and the path joining for OCI charts: abstract predicate and parameter.
- Registry clients, TLS pools, kubeconfig, credential and CA files, chart download: each is a success or a failure.
- The field-by-field copies into Helm's install, upgrade and uninstall options, and Helm modes that store other values than those supplied.
- Condition reasons and messages; finalizers, labels and annotations of other programs; owner references.
- Informer staleness, leader election, watch predicates and watch-filter labels.
- A read that fails before a reconcile has begun: nothing happens, so no action models it.
- Returned errors and requeue intervals: the machine lets a reconcile start again at any time.
