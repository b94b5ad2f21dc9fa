/** What the two controllers guarantee in every reachable state and over every run, however
    users, clusters, hand-used Helm, API failures and crashes interleave with them. */
module Theorems {
  import opened Types
  import opened Admission
  import opened Helm
  import opened Phases
  import opened ReleaseFlow
  import opened Machine
  import opened StoreInvariant
  import opened ReleaseInvariant
  import opened ContentInvariant
  import opened ClaimInvariant
  import opened Invariant

  /** No stranded release: a proxy that holds a stake in a live release on an existing cluster
      is stored, carries the finalizer, and names that release. */
  lemma NoStrandedRelease(w: World, urlOk: string -> bool, key: ReleaseKey, id: ProxyId)
    requires Reachable(w, urlOk)
    requires key in w.releases && key in w.history.claims && id in w.history.claims[key]
    ensures id in w.proxies && w.proxies[id].finalizer && Identifies(w.proxies[id].spec, key)
    ensures key.cluster in w.clusters
  {
    ReachableHasInv(w, urlOk);
    assert Staked(w.proxies, id, key);
  }

  /** A stake is taken by every Helm call of a named Continuous or unset proxy that finds or
      makes the release, and by recording a generated name. */
  lemma StakesAreTaken(w: World, id: ProxyId, j: ReleaseJob, e: ReleaseEnv)
    requires j.local.spec.strategy != InstallOnce
    ensures var w' := StepCallHelm(w, id, j, e);
      j.local.spec.releaseName != "" && KeyOf(j.local.spec) in w'.releases ==>
        KeyOf(j.local.spec) in w'.history.claims && id in w'.history.claims[KeyOf(j.local.spec)]
    ensures var w' := StepFinishRelease(w, id, j, e);
      e.apiOk && id in w.proxies && j.base.spec.releaseName == "" && j.local.spec.releaseName != "" &&
      KeyOf(j.local.spec) in w'.releases ==>
        KeyOf(j.local.spec) in w'.history.claims && id in w'.history.claims[KeyOf(j.local.spec)]
  {
  }

  ghost predicate HasStake(w: World, id: ProxyId, key: ReleaseKey) {
    key in w.history.claims && id in w.history.claims[key]
  }

  /** The actions that end stakes in a release: Helm uninstalls it, on behalf of a proxy that names
      it or by hand, or its cluster goes. In each case it is gone, or kept as history alone. */
  ghost predicate EndsStakes(w: World, a: Action, w': World, key: ReleaseKey) {
    (key in w'.releases ==> w'.releases[key].status == HelmStatus.Uninstalled) &&
    match a
    case ClusterChanges(c, state) => state.None? && c == key.cluster
    case ReleaseChanges(r, revision) => revision.None? && r == key
    case ReleaseReconcile(id, _) =>
      id in w.releaseJobs && w.releaseJobs[id].pc == Uninstall && Identifies(w.releaseJobs[id].base.spec, key) &&
      w'.history.log == w.history.log + [Event.Uninstalled(id, w.releaseJobs[id].base.spec)]
    case _ => false
  }

  lemma CallsKeepStakes(w: World, i: ProxyId, j: ReleaseJob, e: ReleaseEnv, id: ProxyId, key: ReleaseKey)
    requires HasStake(w, id, key)
    ensures HasStake(StepCallHelm(w, i, j, e), id, key) && HasStake(StepFinishRelease(w, i, j, e), id, key)
  {
    hide HelmResult, AfterHelm, MarkNameGenerated, MergePatch, Stamp, Put;
    if j.local.spec.strategy == InstallOnce && HasBeenInstalled(Some(j.local)) {
    } else {
    }
  }

  lemma QuietStepsKeepStakes(w: World, i: ProxyId, j: ReleaseJob, e: ReleaseEnv)
    ensures StepPatchConditions(w, i, j, e).history == w.history && StepPatchFinalizer(w, i, j, e).history == w.history
    ensures StepUnpatchFinalizer(w, i, j, e).history == w.history
    ensures StepGetCluster(w, i, j, e).history == w.history && StepGetClusterForDelete(w, i, j, e).history == w.history
  {
    hide MergePatch, Stamp, Put, Branch;
  }

  lemma UninstallEndsStakes(w: World, i: ProxyId, j: ReleaseJob, e: ReleaseEnv, id: ProxyId, key: ReleaseKey)
    requires HasStake(w, id, key)
    ensures var w' := StepUninstall(w, i, j, e);
      HasStake(w', id, key) ||
      ((key in w'.releases ==> w'.releases[key].status == HelmStatus.Uninstalled) && Identifies(j.base.spec, key) &&
       w'.history.log == w.history.log + [Event.Uninstalled(i, j.base.spec)])
  {
    var spec := j.base.spec;
    if spec.strategy == InstallOnce {
    } else if spec.releaseName == "" {
    } else if spec.cluster !in w.clusters || e.helm.getFails {
    } else if KeyOf(spec) !in w.releases {
    } else if !e.uninstallOk {
    } else {
    }
  }

  lemma ReleaseStepKeepsStakes(w: World, i: ProxyId, e: ReleaseEnv, id: ProxyId, key: ReleaseKey)
    requires HasStake(w, id, key) && i in w.releaseJobs
    ensures var w' := StepRelease(w, i, w.releaseJobs[i], e);
      HasStake(w', id, key) || EndsStakes(w, ReleaseReconcile(i, e), w', key)
  {
    hide StepPatchConditions, StepPatchFinalizer, StepUnpatchFinalizer, StepFinishRelease, StepCallHelm,
      StepUninstall, StepGetCluster, StepGetClusterForDelete;
    var j := w.releaseJobs[i];
    CallsKeepStakes(w, i, j, e, id, key);
    QuietStepsKeepStakes(w, i, j, e);
    UninstallEndsStakes(w, i, j, e, id, key);
  }

  /** A stake never ends silently: whatever happens, it lasts until Helm uninstalls the release
      or the cluster goes. */
  lemma StakesEndOnlyWithTheRelease(w: World, urlOk: string -> bool, a: Action, id: ProxyId, key: ReleaseKey)
    requires HasStake(w, id, key)
    ensures HasStake(Apply(w, urlOk, a), id, key) || EndsStakes(w, a, Apply(w, urlOk, a), key)
  {
    hide StepChart, StepRelease, StartRelease, WriteProxy, ValidateChartCreate, ValidateChartUpdate, DefaultChart,
      PutChart, StepClusterChanges, StepReleaseChanges;
    match a
    case CreateChart(_, _, _) =>
    case UpdateChart(_, _, _) =>
    case DeleteChart(_) =>
    case DeleteProxyByHand(i) => DeleteKeepsHistory(w, i);
    case ClusterChanges(_, _) => OutsideEndsStakes(w, urlOk, a, id, key);
    case ReleaseChanges(_, _) => OutsideEndsStakes(w, urlOk, a, id, key);
    case ChartReconcile(k, e) =>
      if k in w.chartJobs {
        ChartStepKeepsStakes(w, urlOk, k, e);
      }
    case ReleaseReconcile(i, e) =>
      if i in w.releaseJobs {
        ReleaseStepKeepsStakes(w, i, e, id, key);
      }
    case ChartCrash(_) =>
    case ReleaseCrash(_) =>
  }

  lemma OutsideEndsStakes(w: World, urlOk: string -> bool, a: Action, id: ProxyId, key: ReleaseKey)
    requires HasStake(w, id, key) && (a.ClusterChanges? || a.ReleaseChanges?)
    ensures HasStake(Apply(w, urlOk, a), id, key) || EndsStakes(w, a, Apply(w, urlOk, a), key)
  {
  }

  lemma DeleteKeepsHistory(w: World, i: ProxyId)
    ensures DeleteProxy(w, i).history == w.history
  {
  }

  lemma ChartStepKeepsStakes(w: World, urlOk: string -> bool, key: ObjectKey, e: ChartEnv)
    requires key in w.chartJobs
    ensures StepChart(w, urlOk, key, w.chartJobs[key], e).history.claims == w.history.claims
  {
    hide StepChart, NewProxy, Overwrite, UpdateAccepted, Stamp, Put;
    var j := w.chartJobs[key];
    ChartStepEffect(w, urlOk, key, j, e);
    DeleteKeepsHistory(w, Victim(j, e));
  }

  /** A release that a call has just made under a generated name. */
  ghost predicate NewlyNamed(w: World, j: ReleaseJob, e: ReleaseEnv, key: ReleaseKey) {
    && j.call.None? && j.local.spec == j.base.spec
    && j.base.spec.releaseName == "" && j.base.spec.strategy != InstallOnce
    && e.helm.generatedName != "" && key == KeyOf(j.base.spec).(name := e.helm.generatedName)
    && key !in w.releases && key in HelmResult(w, j.local.spec, e.helm).releases
  }

  lemma NewlyNamedCall(w: World, id: ProxyId, j: ReleaseJob, e: ReleaseEnv, key: ReleaseKey)
    requires ClaimInv(w) && NewlyNamed(w, j, e, key)
    ensures var w1 := StepCallHelm(w, id, j, e);
      var r := HelmResult(w, j.local.spec, e.helm);
      && w1 == AfterCall(w, id, j, r) && key in w1.releases && key !in w1.history.claims
      && w1.proxies == w.proxies && id in w1.releaseJobs && w1.releaseJobs[id].base == j.base
      && w1.releaseJobs[id].call == Some(Call(j.base.spec, r.outcome))
      && w1.releaseJobs[id].local.spec == (if r.outcome.release.Some? then j.base.spec.(releaseName := key.name)
                                           else j.base.spec)
  {
    hide AfterHelm;
    var r := HelmResult(w, j.local.spec, e.helm);
    assert r.outcome.release.Some? ==> r.outcome.name == key.name;
    NamedAfterHelm(MarkNameGenerated(j.local), r.outcome);
    hide HelmResult;
  }

  lemma NamedAfterHelm(p: ReleaseProxy, o: Outcome)
    ensures AfterHelm(p, o).spec == if o.release.Some? then NameRelease(p.spec, o.name) else p.spec
  {
  }

  /** Exactly when a release under a generated name is tracked once the reconcile that made it has
      ended: the call returned it, and the final patch reached the stored object. Otherwise it is
      no one's, whether the reconcile went wrong or ended in good order. */
  lemma GeneratedNameIsTrackedExactlyWhen(w: World, id: ProxyId, j: ReleaseJob, e: ReleaseEnv, f: ReleaseEnv,
                                          key: ReleaseKey)
    requires ClaimInv(w) && NewlyNamed(w, j, e, key)
    ensures var w1 := StepCallHelm(w, id, j, e);
      id in w1.releaseJobs &&
      var w2 := StepFinishRelease(w1, id, w1.releaseJobs[id], f);
      && key in w2.releases
      && (HasStake(w2, id, key) <==>
            HelmResult(w, j.local.spec, e.helm).outcome.release.Some? && f.apiOk && id in w.proxies)
      && (!HasStake(w2, id, key) ==> key !in w2.history.claims)
  {
    NewlyNamedCall(w, id, j, e, key);
    hide HelmResult, AfterHelm, MarkNameGenerated, StepCallHelm, AfterCall, NewlyNamed, PatchProxy, ClaimInv;
    var w1 := StepCallHelm(w, id, j, e);
    PatchLeavesReleases(w1, id, w1.releaseJobs[id]);
  }

  lemma PatchLeavesReleases(w: World, id: ProxyId, j: ReleaseJob)
    ensures id in w.proxies ==> PatchProxy(w, id, j).releases == w.releases && PatchProxy(w, id, j).history == w.history
  {
  }

  /** The reconcile may be lost in between as well. In every case the proxy that made the release
      still has no name, and a later delete of it drops the finalizer without touching a release. */
  lemma UnrecordedNameStrands(w: World, id: ProxyId, j: ReleaseJob, e: ReleaseEnv, key: ReleaseKey)
    requires ClaimInv(w) && j.local.spec.releaseName == ""
    requires !(j.local.spec.strategy == InstallOnce && HasBeenInstalled(Some(j.local)))
    requires key !in w.releases && key in HelmResult(w, j.local.spec, e.helm).releases
    ensures var w' := EndRelease(StepCallHelm(w, id, j, e), id);
      key in w'.releases && key !in w'.history.claims && w'.proxies == w.proxies
    ensures forall d: ReleaseJob, f: ReleaseEnv | d.base.spec.releaseName == "" ::
      var w' := StepUninstall(w, id, d, f);
      w'.releases == w.releases && w'.releaseJobs[id].pc == UnpatchFinalizer && !w'.releaseJobs[id].local.finalizer
  {
    forall d: ReleaseJob, f: ReleaseEnv | d.base.spec.releaseName == ""
      ensures var w' := StepUninstall(w, id, d, f);
        w'.releases == w.releases && w'.releaseJobs[id].pc == UnpatchFinalizer && !w'.releaseJobs[id].local.finalizer
    {
      if d.base.spec.strategy == InstallOnce {
      } else {
      }
    }
  }

  /** Ready is never stale: an undeleted Continuous or unset proxy that is Ready at its
      current generation had its last recorded Helm call made with exactly its current spec,
      and that call returned a deployed release, or one in a status the controller ignores. */
  lemma ReadyIsNeverStale(w: World, urlOk: string -> bool, id: ProxyId)
    requires Reachable(w, urlOk) && id in w.proxies
    requires w.proxies[id].spec.strategy != InstallOnce && !w.proxies[id].deleting
    requires w.proxies[id].status.ready == IsTrue
    requires w.proxies[id].status.observedGeneration == w.proxies[id].generation
    ensures id in w.history.recorded && w.history.recorded[id].spec == w.proxies[id].spec
    ensures Applied(id, w.history.recorded[id]) in w.history.log
    ensures var o := w.history.recorded[id].outcome;
      o.release.Some? && (!o.release.value.status.IsUnhandled() ==> o.release.value.status == Deployed)
  {
    ReachableHasInv(w, urlOk);
    assert ContentOk(w.history, id, w.proxies[id]);
  }

  /** Exactly which Helm outcomes leave HelmReleaseReady true: a deployed release, or, on an
      object that was ready before, one in an ignored status returned without error. */
  lemma ReadyAfterHelmExactlyWhen(p: ReleaseProxy, o: Outcome)
    requires o.release.None? ==> o.failed
    ensures AfterHelm(p, o).status.releaseReady == IsTrue <==>
      o.release.Some? &&
      (o.release.value.status == Deployed ||
       (o.release.value.status in {Unknown, HelmStatus.Uninstalled, Superseded, Uninstalling} && !o.failed &&
        p.status.releaseReady == IsTrue))
  {
  }

  /** At most one proxy per HelmChartProxy and cluster, in every reachable state. */
  lemma OneProxyPerPair(w: World, urlOk: string -> bool, i: ProxyId, k: ProxyId)
    requires Reachable(w, urlOk)
    requires i in w.proxies && k in w.proxies && SamePair(w.proxies[i], w.proxies[k])
    ensures i == k
  {
    ReachableHasInv(w, urlOk);
  }

  /** Replacement order: when a proxy calls Helm, no release that an earlier proxy of the same
      HelmChartProxy and cluster held a stake in is still there. */
  lemma ReplacedReleasesAreGone(w: World, urlOk: string -> bool, id: ProxyId, key: ReleaseKey, earlier: ProxyId)
    requires Reachable(w, urlOk)
    requires id in w.releaseJobs && w.releaseJobs[id].pc == CallHelm
    requires key in w.releases && key in w.history.claims && earlier in w.history.claims[key]
    requires earlier in w.history.origin && id in w.history.origin
    requires w.history.origin[earlier].chart == w.history.origin[id].chart
    requires w.history.origin[earlier].cluster == w.history.origin[id].cluster
    ensures earlier == id
  {
    ReachableHasInv(w, urlOk);
    assert ReleaseJobOk(w.proxies, w.clock, id, w.releaseJobs[id]);
    assert Staked(w.proxies, earlier, key);
    assert ContentOk(w.history, id, w.proxies[id]) && ContentOk(w.history, earlier, w.proxies[earlier]);
    assert ProxyOk(w.charts, w.clock, id, w.proxies[id]) && ProxyOk(w.charts, w.clock, earlier, w.proxies[earlier]);
    assert SamePair(w.proxies[earlier], w.proxies[id]);
  }

  /** Replacement waits: whoever is about to call Helm is stored, carries the finalizer, and is
      the only proxy of its HelmChartProxy and cluster, so no proxy calls Helm for a pair before
      its predecessor is gone. */
  lemma HelmIsCalledAlone(w: World, urlOk: string -> bool, id: ProxyId)
    requires Reachable(w, urlOk) && id in w.releaseJobs && w.releaseJobs[id].pc == CallHelm
    ensures id in w.proxies && w.proxies[id].finalizer
    ensures forall k <- w.proxies :: SamePair(w.proxies[k], w.proxies[id]) ==> k == id
  {
    ReachableHasInv(w, urlOk);
    assert ReleaseJobOk(w.proxies, w.clock, id, w.releaseJobs[id]);
  }

  /** Teardown safety: every proxy's HelmChartProxy is stored with its finalizer, so a
      HelmChartProxy that is gone, or could go at once, has no proxies left. */
  lemma OwnersOutliveProxies(w: World, urlOk: string -> bool)
    requires Reachable(w, urlOk)
    ensures forall id <- w.proxies :: OwnerOf(w.proxies[id]) in w.charts && w.charts[OwnerOf(w.proxies[id])].finalizer
    ensures forall key | key !in w.charts || !w.charts[key].finalizer :: NoneLabelled(w.proxies, key)
  {
    ReachableHasInv(w, urlOk);
    forall id <- w.proxies
      ensures OwnerOf(w.proxies[id]) in w.charts && w.charts[OwnerOf(w.proxies[id])].finalizer
    {
      assert ProxyOk(w.charts, w.clock, id, w.proxies[id]);
    }
  }

  /** Under InstallOnce the chart controller deletes a proxy only to take its HelmChartProxy
      away: neither an unselected cluster nor a changed identity makes it do so. */
  lemma InstallOnceProxiesAreKept(w: World, urlOk: string -> bool, key: ObjectKey, e: ChartEnv, id: ProxyId)
    requires Reachable(w, urlOk) && key in w.chartJobs && id in w.proxies
    requires w.chartJobs[key].base.spec.strategy == InstallOnce && !w.chartJobs[key].pc.Teardown?
    ensures var w' := StepChart(w, urlOk, key, w.chartJobs[key], e);
      id in w'.proxies && w'.proxies[id].deleting == w.proxies[id].deleting
  {
    ReachableHasInv(w, urlOk);
    hide Reachable, Inv, StepChart;
    var j := w.chartJobs[key];
    NoDeletePc(w, urlOk, key, id);
    ChartStepEffect(w, urlOk, key, j, e);
    hide At, Created, WriteProxy, Overwrite, UpdateAccepted;
    if j.pc.CreateProxy? {
      CreateKeepsOthers(w, key, j.pc.cluster, j.base.spec, j.pc.proxy, id);
    } else if j.pc.UpdateProxy? {
      OwnUpdateKeepsAlive(w, urlOk, key, j, id);
    }
  }

  lemma NoDeletePc(w: World, urlOk: string -> bool, key: ObjectKey, id: ProxyId)
    requires Inv(w, urlOk) && key in w.chartJobs && id in w.proxies
    ensures At(w, urlOk, key, w.chartJobs[key]) && id < w.clock
    ensures w.chartJobs[key].base.spec.strategy == InstallOnce ==>
      !w.chartJobs[key].pc.DeleteOrphans? && !w.chartJobs[key].pc.DeleteForReinstall?
  {
    hide ReleaseSide;
    JobIsOk(w, urlOk, key, w.chartJobs[key]);
    assert ProxyOk(w.charts, w.clock, id, w.proxies[id]);
  }

  lemma CreateKeepsOthers(w: World, key: ObjectKey, c: ObjectKey, chart: ChartSpec, p: ReleaseProxy, id: ProxyId)
    requires id in w.proxies && id < w.clock
    ensures id in Created(w, key, c, chart, p).proxies && Created(w, key, c, chart, p).proxies[id] == w.proxies[id]
  {
  }

  lemma OwnUpdateKeepsAlive(w: World, urlOk: string -> bool, key: ObjectKey, j: ChartJob, id: ProxyId)
    requires At(w, urlOk, key, j) && j.pc.UpdateProxy? && id in w.proxies
    ensures UpdateAccepted(w, j.pc.id, j.pc.proxy) ==>
      var w' := WriteProxy(w, j.pc.id, Overwrite(w.proxies[j.pc.id], j.pc.proxy));
      id in w'.proxies && w'.proxies[id].deleting == w.proxies[id].deleting
  {
    if UpdateAccepted(w, j.pc.id, j.pc.proxy) {
      UpdateIsForeign(w, urlOk, key, j);
      assert ProxyOk(w.charts, w.clock, j.pc.id, w.proxies[j.pc.id]);
      hide StoreInv;
      WriteKeepsAlive(w, j.pc.id, Overwrite(w.proxies[j.pc.id], j.pc.proxy), id);
    }
  }

  lemma WriteKeepsAlive(w: World, i: ProxyId, q: ReleaseProxy, id: ProxyId)
    requires i in w.proxies && id in w.proxies && ForeignWrite(w.proxies[i], q)
    requires q.deleting == w.proxies[i].deleting && (q.deleting ==> q.finalizer)
    ensures var w' := WriteProxy(w, i, q); id in w'.proxies && w'.proxies[id].deleting == w.proxies[id].deleting
  {
  }

  /** Reinstall exactly when an identity field changed: in every reachable state, including
      after a release name was generated and recorded, a proxy is due for reinstall if and only
      if the HelmChartProxy's identity differs from the one the proxy was created for. */
  lemma ReinstallExactlyWhenIdentityChanged(w: World, urlOk: string -> bool, id: ProxyId, chart: ChartSpec)
    requires Reachable(w, urlOk) && id in w.proxies
    ensures id in w.history.origin
    ensures ShouldReinstall(w.proxies[id], chart) <==> IdentityOf(chart) != w.history.origin[id].identity
  {
    ReachableHasInv(w, urlOk);
    assert ContentOk(w.history, id, w.proxies[id]);
  }

  /** Every create and update of the chart controller that reaches the API server for an
      object it has just read passes the validators. */
  lemma ChartWritesAreAdmitted(w: World, urlOk: string -> bool, key: ObjectKey)
    requires Reachable(w, urlOk) && key in w.chartJobs
    ensures var pc := w.chartJobs[key].pc;
      pc.CreateProxy? ==> ValidateReleaseCreate(urlOk, DefaultRelease(pc.proxy.spec)) == []
    ensures var pc := w.chartJobs[key].pc;
      pc.UpdateProxy? && pc.id in w.proxies && w.proxies[pc.id].resourceVersion == pc.proxy.resourceVersion ==>
        ValidateReleaseUpdate(w.proxies[pc.id].spec, DefaultRelease(pc.proxy.spec)) == []
  {
    ReachableHasInv(w, urlOk);
    hide Reachable, ReleaseSide;
    JobIsOk(w, urlOk, key, w.chartJobs[key]);
    hide StoreInv;
  }

  /** Every patch of the release controller passes the validators, whenever it is sent. */
  lemma ReleasePatchesAreAdmitted(w: World, urlOk: string -> bool, id: ProxyId)
    requires Reachable(w, urlOk) && id in w.releaseJobs && id in w.proxies
    ensures var p := w.proxies[id];
      var patched := MergePatch(p, w.releaseJobs[id].base, w.releaseJobs[id].local);
      ValidateReleaseUpdate(p.spec, DefaultRelease(patched.spec)) == []
  {
    ReachableHasInv(w, urlOk);
    PatchKeepsRole(w, id, w.releaseJobs[id]);
    assert ProxyOk(w.charts, w.clock, id, w.proxies[id]);
  }

  /** Every patch of the chart controller, which touches no part of the spec, passes the
      validators, even for a HelmChartProxy with foreign Secret references that predate them. */
  lemma ChartPatchesAreAdmitted(w: World, urlOk: string -> bool, key: ObjectKey)
    requires Reachable(w, urlOk) && key in w.charts && key in w.chartJobs
    ensures var c := w.charts[key];
      var patched := PatchedChart(c, w.chartJobs[key].base, w.chartJobs[key].local);
      ValidateChartUpdate(urlOk, key.namespace, c.spec, DefaultChart(patched.spec)) == []
  {
    ReachableHasInv(w, urlOk);
    assert ChartOk(urlOk, w.charts[key]);
  }

  /** Which of its two conditions the aggregation sets, by the proxies with the label: one whose
      generation is not observed takes SpecsUpToDate back and leaves HelmReleaseProxiesReady alone;
      otherwise the latter says whether all are Ready, and with none it is true. */
  lemma AggregationSets(w: World, key: ObjectKey, j: ChartJob, e: ChartEnv)
    requires e.apiOk
    ensures var before, after := j.local.status, StepAggregate(w, key, j, e).chartJobs[key].local.status;
      var stale := exists id <- w.proxies ::
        Labelled(w.proxies[id], key) && w.proxies[id].status.observedGeneration != w.proxies[id].generation;
      var ready := forall id <- w.proxies :: Labelled(w.proxies[id], key) ==> w.proxies[id].status.ready == IsTrue;
      && after.upToDate == (if stale then IsFalse else before.upToDate)
      && after.proxiesReady == (if stale then before.proxiesReady else if ready then IsTrue else IsFalse)
  {
    var listed := set id | id in LabelledIds(w.proxies, key) :: w.proxies[id];
    ListedAre(w.proxies, key, listed);
    assert StepAggregate(w, key, j, e) == Goto(w, key, Aggregate(j, listed), FinishChart);
    hide LabelledIds, StepAggregate;
  }

  lemma ListedAre(proxies: Proxies, key: ObjectKey, listed: set<ReleaseProxy>)
    requires listed == set id | id in LabelledIds(proxies, key) :: proxies[id]
    ensures (exists p <- listed :: p.generation != p.status.observedGeneration) <==>
      exists id <- proxies ::
        Labelled(proxies[id], key) && proxies[id].status.observedGeneration != proxies[id].generation
    ensures (forall p <- listed :: p.status.ready == IsTrue) <==>
      forall id <- proxies :: Labelled(proxies[id], key) ==> proxies[id].status.ready == IsTrue
  {
    hide Labelled;
    assert forall id <- LabelledIds(proxies, key) :: proxies[id] in listed;
    assert forall id <- proxies | Labelled(proxies[id], key) :: id in LabelledIds(proxies, key);
  }

  /** The aggregation leaves Ready exactly when the specs were up to date and every labelled
      proxy is Ready at its current generation. */
  lemma AggregationIsExact(w: World, key: ObjectKey, j: ChartJob, e: ChartEnv)
    requires e.apiOk
    ensures var after := StepAggregate(w, key, j, e).chartJobs[key].local.status;
      Summary(after.upToDate, after.proxiesReady) == IsTrue <==>
        && j.local.status.upToDate == IsTrue
        && forall id <- w.proxies :: Labelled(w.proxies[id], key) ==>
             w.proxies[id].status.ready == IsTrue && w.proxies[id].status.observedGeneration == w.proxies[id].generation
  {
    AggregationSets(w, key, j, e);
    hide StepAggregate, Labelled;
  }

  /** HelmChartProxy Ready soundness: if the aggregation of an error-free reconcile comes out
      Ready, every proxy labelled with it is Ready at its current generation, so each
      undeleted Continuous or unset one had its last recorded Helm call made with its spec. */
  lemma ChartReadyIsSound(w: World, urlOk: string -> bool, key: ObjectKey, e: ChartEnv, id: ProxyId)
    requires Reachable(w, urlOk) && key in w.chartJobs && w.chartJobs[key].pc == AggregateReady && e.apiOk
    requires var j := StepAggregate(w, key, w.chartJobs[key], e).chartJobs[key];
      Summary(j.local.status.upToDate, j.local.status.proxiesReady) == IsTrue
    requires id in w.proxies && Labelled(w.proxies[id], key)
    ensures w.proxies[id].status.ready == IsTrue
    ensures w.proxies[id].status.observedGeneration == w.proxies[id].generation
    ensures w.proxies[id].spec.strategy != InstallOnce && !w.proxies[id].deleting ==>
      && id in w.history.recorded && w.history.recorded[id].spec == w.proxies[id].spec
      && LeavesReady(w.history.recorded[id].outcome)
  {
    ReachableHasInv(w, urlOk);
    AggregationIsExact(w, key, w.chartJobs[key], e);
    hide Reachable, StoreInv, JobsOk, ClaimInv, LogInv, StepAggregate, LeavesReady;
    assert ContentOk(w.history, id, w.proxies[id]);
  }

  /* ---- users ---- */

  /** Creating a HelmChartProxy under a free key stores it, with its defaults, if and only if the URL
      is valid and no Secret reference leads out of its namespace. */
  lemma CreateIsStoredExactlyWhen(w: World, urlOk: string -> bool, key: ObjectKey, spec: ChartSpec, paused: bool)
    requires key !in w.charts && key !in w.chartJobs
    ensures var v := Apply(w, urlOk, CreateChart(key, spec, paused));
      && (key in v.charts <==>
            && urlOk(spec.repoURL)
            && (spec.credentials.Some? ==> spec.credentials.value.secret.namespace in {"", key.namespace})
            && (spec.tls.Some? && spec.tls.value.caSecret.Some? ==>
                  spec.tls.value.caSecret.value.namespace in {"", key.namespace}))
      && (key in v.charts ==>
            v.charts[key] == ChartProxy(DefaultChart(spec), paused, false, false, 1, NEW_CHART_STATUS))
      && v == w.(charts := v.charts) && v.charts - {key} == w.charts
  {
    CreateAdmittedExactlyWhen(urlOk, key.namespace, DefaultChart(spec));
    hide ValidateChartCreate, DefaultOptions, DefaultNamespace;
  }

  /** An edit is stored, as a new generation, if and only if it is admitted, and touches nothing else. */
  lemma EditIsStoredExactlyWhen(w: World, urlOk: string -> bool, key: ObjectKey, spec: ChartSpec, paused: bool)
    requires key in w.charts
    ensures var v := Apply(w, urlOk, UpdateChart(key, spec, paused));
      var before := w.charts[key];
      var admitted := urlOk(spec.repoURL) && spec.strategy == before.spec.strategy &&
                      RefAllowed(CredentialsRef(before.spec), CredentialsRef(spec), key.namespace) &&
                      RefAllowed(CARef(before.spec), CARef(spec), key.namespace);
      v == if admitted
           then w.(charts := w.charts[key := before.(spec := DefaultChart(spec), paused := paused,
                                                     generation := before.generation + 1)])
           else w
  {
    UpdateAdmittedExactlyWhen(urlOk, key.namespace, w.charts[key].spec, DefaultChart(spec));
    hide ValidateChartUpdate, DefaultOptions, DefaultNamespace;
  }
}
