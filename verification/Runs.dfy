/** What single actions cannot undo, and what follows over whole runs: no controller reverts
    the other's writes, and InstallOnce means once. */
module Runs {
  import opened Types
  import opened Admission
  import opened Phases
  import opened ReleaseFlow
  import opened Machine
  import opened StoreInvariant
  import opened ReleaseInvariant
  import opened ContentInvariant
  import opened ClaimInvariant
  import opened Invariant

  /** What anyone but the proxy's own release reconcile leaves alone: the recorded name, the
      annotations, the finalizer and the status. */
  ghost predicate KeepsRecords(p: ReleaseProxy, q: ReleaseProxy) {
    && q.spec.releaseName == p.spec.releaseName && q.annotations == p.annotations
    && q.finalizer == p.finalizer && q.status == p.status
    && (p.deleting ==> q.deleting) && SameRole(p, q)
  }

  /** What a release reconcile leaves alone: the whole spec but for an empty release name,
      and an annotation once it is set. */
  ghost predicate KeepsSpec(p: ReleaseProxy, q: ReleaseProxy) {
    && q.spec == NameRelease(p.spec, q.spec.releaseName)
    && (p.annotations.nameGenerated.Some? ==> q.annotations.nameGenerated.Some?)
    && (p.annotations.installed.Some? ==> q.annotations.installed.Some?)
    && q.deleting == p.deleting && SameRole(p, q)
  }

  predicate IsOwn(a: Action, id: ProxyId) {
    a.ReleaseReconcile? && a.id == id
  }

  lemma ProxyIsOk(w: World, urlOk: string -> bool, id: ProxyId)
    requires StoreInv(w, urlOk) && id in w.proxies
    ensures ProxyOk(w.charts, w.clock, id, w.proxies[id])
  {
  }

  lemma ReleaseJobIsOk(w: World, id: ProxyId)
    requires JobsOk(w) && id in w.releaseJobs
    ensures ReleaseJobOk(w.proxies, w.clock, id, w.releaseJobs[id])
  {
  }

  lemma WriteKeepsRecords(w: World, i: ProxyId, next: ReleaseProxy, id: ProxyId)
    requires id in w.proxies && i in w.proxies && ForeignWrite(w.proxies[i], next)
    ensures var w' := WriteProxy(w, i, next); id in w'.proxies ==> KeepsRecords(w.proxies[id], w'.proxies[id])
  {
  }

  lemma ChartStepKeepsRecords(w: World, urlOk: string -> bool, key: ObjectKey, e: ChartEnv, id: ProxyId)
    requires Inv(w, urlOk) && key in w.chartJobs && id in w.proxies
    ensures var w' := StepChart(w, urlOk, key, w.chartJobs[key], e);
      id in w'.proxies ==> KeepsRecords(w.proxies[id], w'.proxies[id])
  {
    hide StoreInv, ReleaseSide, StepChart, KeepsRecords;
    var j := w.chartJobs[key];
    ChartStepEffect(w, urlOk, key, j, e);
    WriteKeepsRecords(w, id, w.proxies[id], id);
    ProxyIsOk(w, urlOk, id);
    if j.pc.DeleteOrphans? || j.pc.DeleteForReinstall? || j.pc.Teardown? {
      if Victim(j, e) in w.proxies {
        WriteKeepsRecords(w, Victim(j, e), w.proxies[Victim(j, e)].(deleting := true), id);
      }
    } else if j.pc.UpdateProxy? && UpdateAccepted(w, j.pc.id, j.pc.proxy) {
      UpdateIsForeign(w, urlOk, key, j);
      WriteKeepsRecords(w, j.pc.id, Overwrite(w.proxies[j.pc.id], j.pc.proxy), id);
    }
  }

  lemma PatchKeepsSpec(w: World, id: ProxyId, j: ReleaseJob)
    requires id in w.proxies && ReleaseJobOk(w.proxies, w.clock, id, j)
    ensures KeepsSpec(w.proxies[id], Stamp(w.proxies[id], MergePatch(w.proxies[id], j.base, j.local), w.clock))
  {
    if j.call.Some? {
      FullPatch(w.proxies[id], j);
    } else {
      QuietPatch(w.proxies[id], j);
    }
  }

  lemma OwnStepKeepsSpec(w: World, urlOk: string -> bool, id: ProxyId, e: ReleaseEnv)
    requires Inv(w, urlOk) && id in w.releaseJobs && id in w.proxies
    ensures var w' := StepRelease(w, id, w.releaseJobs[id], e);
      id in w'.proxies ==> KeepsSpec(w.proxies[id], w'.proxies[id])
  {
    var j := w.releaseJobs[id];
    ReleaseJobIsOk(w, id);
    hide Inv, StepRelease;
    if Patches(j.pc) && e.apiOk {
      PatchStepsWrite(w, id, j, e);
      PatchKeepsSpec(w, id, j);
    } else {
      OtherStepsWriteNothing(w, id, j, e);
    }
  }

  lemma OthersStepKeeps(w: World, urlOk: string -> bool, i: ProxyId, e: ReleaseEnv, id: ProxyId)
    requires Inv(w, urlOk) && i in w.releaseJobs && id in w.proxies && i != id
    ensures var w' := StepRelease(w, i, w.releaseJobs[i], e); id in w'.proxies && w'.proxies[id] == w.proxies[id]
  {
    hide StoreInv, ContentInv, ClaimInv, LogInv, StepRelease, MergePatch;
    var j := w.releaseJobs[i];
    ReleaseJobIsOk(w, i);
    if Patches(j.pc) && e.apiOk && i in w.proxies {
      PatchStepsWrite(w, i, j, e);
    } else {
      OtherStepsWriteNothing(w, i, j, e);
    }
  }

  /** The actions that are neither a reconcile nor a delete touch no proxy and call no Helm. */
  predicate Elsewhere(a: Action) {
    a.CreateChart? || a.UpdateChart? || a.DeleteChart? || a.ClusterChanges? || a.ReleaseChanges? || a.ChartCrash? ||
    a.ReleaseCrash?
  }

  lemma ElsewhereTouchesNoProxy(w: World, urlOk: string -> bool, a: Action)
    requires Elsewhere(a)
    ensures var w' := Apply(w, urlOk, a);
      w'.proxies == w.proxies && w'.clock == w.clock && w'.history.log == w.history.log
  {
    hide ValidateChartCreate, ValidateChartUpdate, DefaultChart, KeysOn, PutChart;
    match a
    case CreateChart(_, _, _) =>
    case UpdateChart(_, _, _) =>
    case DeleteChart(_) =>
    case ClusterChanges(_, state) =>
      if state.Some? {
      } else {
      }
    case ReleaseChanges(_, revision) =>
      if revision.Some? {
      } else {
      }
    case ChartCrash(_) =>
    case ReleaseCrash(_) =>
  }

  /** No lost updates: whatever happens to a stored proxy, a recorded release name, annotation,
      finalizer or status is never reverted by anyone but the proxy's own release reconcile,
      and that reconcile never reverts a version, values or any other part of the spec. */
  lemma NoLostUpdates(w: World, urlOk: string -> bool, a: Action, id: ProxyId)
    requires Inv(w, urlOk)
    requires id in w.proxies && id in Apply(w, urlOk, a).proxies
    ensures var p, q := w.proxies[id], Apply(w, urlOk, a).proxies[id];
      if IsOwn(a, id) then KeepsSpec(p, q) else KeepsRecords(p, q)
  {
    hide Inv, StepChart, StepRelease, KeepsRecords, KeepsSpec, WriteProxy, StartRelease;
    SameKeepsSpec(w.proxies[id]);
    if Elsewhere(a) {
      ElsewhereTouchesNoProxy(w, urlOk, a);
    } else if a.DeleteProxyByHand? {
      if a.id in w.proxies {
        WriteKeepsRecords(w, a.id, w.proxies[a.id].(deleting := true), id);
      }
    } else if a.ChartReconcile? {
      if a.key in w.chartJobs {
        ChartStepKeepsRecords(w, urlOk, a.key, a.chartEnv, id);
      }
    } else if a.id in w.releaseJobs {
      if a.id == id {
        OwnStepKeepsSpec(w, urlOk, id, a.releaseEnv);
      } else {
        OthersStepKeeps(w, urlOk, a.id, a.releaseEnv, id);
      }
    }
  }

  lemma SameKeepsSpec(p: ReleaseProxy)
    ensures KeepsSpec(p, p) && KeepsRecords(p, p)
  {
  }

  /* ---- InstallOnce ---- */

  /** How many Helm install/upgrade calls were made for a proxy. */
  function CallsOf(log: seq<Event>, id: ProxyId): nat {
    if log == [] then 0
    else
      CallsOf(log[..|log| - 1], id) +
      (if log[|log| - 1].Applied? && log[|log| - 1].id == id then 1 else 0)
  }

  lemma CallsOfAppend(log: seq<Event>, e: Event, id: ProxyId)
    requires !(e.Applied? && e.id == id)
    ensures CallsOf(log + [e], id) == CallsOf(log, id)
  {
    assert (log + [e])[..|log|] == log;
  }

  /** A proxy with the successfully-installed annotation under InstallOnce, or what is left of
      it after it was deleted. */
  ghost predicate Frozen(w: World, id: ProxyId, spec: ReleaseSpec) {
    && id < w.clock && spec.strategy == InstallOnce
    && (id in w.proxies ==> w.proxies[id].spec == spec && w.proxies[id].annotations.installed.Some?)
  }

  lemma FrozenChartStep(w: World, urlOk: string -> bool, key: ObjectKey, e: ChartEnv, id: ProxyId, spec: ReleaseSpec)
    requires Inv(w, urlOk) && key in w.chartJobs && Frozen(w, id, spec)
    ensures var w' := StepChart(w, urlOk, key, w.chartJobs[key], e);
      Frozen(w', id, spec) && w'.history.log == w.history.log
  {
    hide StoreInv, ReleaseSide, StepChart;
    var j := w.chartJobs[key];
    var w' := StepChart(w, urlOk, key, j, e);
    ChartStepEffect(w, urlOk, key, j, e);
    hide NewProxy, Overwrite, UpdateAccepted;
    if Alike(w, w') {
    } else if j.pc.DeleteOrphans? || j.pc.DeleteForReinstall? || j.pc.Teardown? {
      FrozenDelete(w, Victim(j, e), id, spec);
      hide DeleteProxy;
    } else if j.pc.CreateProxy? {
    } else {
      UpdateSparesFrozen(w, urlOk, key, j, id, spec);
    }
  }

  lemma FrozenDelete(w: World, i: ProxyId, id: ProxyId, spec: ReleaseSpec)
    requires Frozen(w, id, spec)
    ensures Frozen(DeleteProxy(w, i), id, spec) && DeleteProxy(w, i).history == w.history
  {
  }

  /** The chart controller never updates a frozen proxy: it would have to have read it before
      the annotation was stored, and then its resource version is out of date. */
  lemma UpdateSparesFrozen(w: World, urlOk: string -> bool, key: ObjectKey, j: ChartJob, id: ProxyId, spec: ReleaseSpec)
    requires At(w, urlOk, key, j) && Frozen(w, id, spec)
    requires j.pc.UpdateProxy? && UpdateAccepted(w, j.pc.id, j.pc.proxy)
    ensures j.pc.id != id
  {
    JobIsOk(w, urlOk, key, j);
    UpdateIsForeign(w, urlOk, key, j);
  }

  lemma FrozenPatch(w: World, id: ProxyId, j: ReleaseJob, spec: ReleaseSpec)
    requires Frozen(w, id, spec) && id in w.proxies && ReleaseJobOk(w.proxies, w.clock, id, j)
    ensures Frozen(PatchProxy(w, id, j), id, spec)
  {
    assert j.call.None?;
    QuietPatch(w.proxies[id], j);
  }

  lemma OthersPatchSparesFrozen(w: World, i: ProxyId, j: ReleaseJob, id: ProxyId, spec: ReleaseSpec)
    requires Frozen(w, id, spec) && i in w.proxies && i != id
    ensures Frozen(PatchProxy(w, i, j), id, spec)
  {
    hide MergePatch, Stamp;
  }

  lemma SameProxiesFrozen(w: World, v: World, id: ProxyId, spec: ReleaseSpec)
    requires Frozen(w, id, spec) && v.proxies == w.proxies && w.clock <= v.clock
    ensures Frozen(v, id, spec)
  {
  }

  lemma FrozenReleaseStep(w: World, urlOk: string -> bool, i: ProxyId, e: ReleaseEnv, id: ProxyId, spec: ReleaseSpec)
    requires Inv(w, urlOk) && i in w.releaseJobs && Frozen(w, id, spec)
    ensures Frozen(StepRelease(w, i, w.releaseJobs[i], e), id, spec)
  {
    var j := w.releaseJobs[i];
    ReleaseJobIsOk(w, i);
    JobCalls(w, i, j);
    hide Inv, StepRelease, Frozen, ReleaseJobOk;
    var w' := StepRelease(w, i, j, e);
    if Patches(j.pc) && e.apiOk && i in w.proxies {
      PatchStepsWrite(w, i, j, e);
      if i == id {
        FrozenPatch(w, id, j, spec);
      } else {
        OthersPatchSparesFrozen(w, i, j, id, spec);
      }
      PatchClock(w, i, j);
      hide PatchProxy;
      SameProxiesFrozen(PatchProxy(w, i, j), w', id, spec);
    } else {
      OtherStepsWriteNothing(w, i, j, e);
      SameProxiesFrozen(w, w', id, spec);
    }
  }

  lemma PatchClock(w: World, i: ProxyId, j: ReleaseJob)
    requires i in w.proxies
    ensures PatchProxy(w, i, j).clock == w.clock + 1
  {
  }

  lemma JobCalls(w: World, i: ProxyId, j: ReleaseJob)
    requires ReleaseJobOk(w.proxies, w.clock, i, j)
    ensures j.call.Some? ==> j.pc.FinishRelease?
  {
  }

  lemma FrozenMakesNoCall(w: World, urlOk: string -> bool, i: ProxyId, e: ReleaseEnv, id: ProxyId, spec: ReleaseSpec)
    requires Inv(w, urlOk) && i in w.releaseJobs && Frozen(w, id, spec)
    ensures CallsOf(StepRelease(w, i, w.releaseJobs[i], e).history.log, id) == CallsOf(w.history.log, id)
  {
    ReleaseJobIsOk(w, i);
    hide Inv, StepRelease, StepCallHelm, StepUninstall;
    var j := w.releaseJobs[i];
    StepOf(w, i, j, e);
    if j.pc.CallHelm? {
      OthersCall(w, i, j, e, id, spec);
    } else if j.pc.Uninstall? {
      UninstallIsNoCall(w, i, j, e, id);
    }
  }

  /** Only the Helm steps are logged. */
  lemma StepOf(w: World, i: ProxyId, j: ReleaseJob, e: ReleaseEnv)
    ensures j.pc.CallHelm? ==> StepRelease(w, i, j, e) == StepCallHelm(w, i, j, e)
    ensures j.pc.Uninstall? ==> StepRelease(w, i, j, e) == StepUninstall(w, i, j, e)
    ensures !j.pc.CallHelm? && !j.pc.Uninstall? ==> StepRelease(w, i, j, e).history.log == w.history.log
  {
    hide StepPatchConditions, StepPatchFinalizer, StepUnpatchFinalizer, StepFinishRelease, StepCallHelm,
      StepUninstall, StepGetCluster, StepGetClusterForDelete;
    PatchStepsLogNothing(w, i, j, e);
    ClusterStepsLogNothing(w, i, j, e);
  }

  /** A Helm call is some other proxy's. */
  lemma OthersCall(w: World, i: ProxyId, j: ReleaseJob, e: ReleaseEnv, id: ProxyId, spec: ReleaseSpec)
    requires Frozen(w, id, spec) && ReleaseJobOk(w.proxies, w.clock, i, j) && j.pc.CallHelm?
    ensures CallsOf(StepCallHelm(w, i, j, e).history.log, id) == CallsOf(w.history.log, id)
  {
    hide HelmResult, AfterHelm, MarkNameGenerated, Stakes;
    if j.local.spec.strategy == InstallOnce && HasBeenInstalled(Some(j.local)) {
    } else {
      assert i != id;
      var r := HelmResult(w, j.local.spec, e.helm);
      CallsOfAppend(w.history.log, Applied(i, Call(j.local.spec, r.outcome)), id);
    }
  }

  lemma PatchStepsLogNothing(w: World, i: ProxyId, j: ReleaseJob, e: ReleaseEnv)
    ensures StepPatchConditions(w, i, j, e).history.log == w.history.log
    ensures StepPatchFinalizer(w, i, j, e).history.log == w.history.log
    ensures StepUnpatchFinalizer(w, i, j, e).history.log == w.history.log
    ensures StepFinishRelease(w, i, j, e).history.log == w.history.log
  {
    hide MergePatch, Stamp, Put, Branch;
  }

  lemma ClusterStepsLogNothing(w: World, i: ProxyId, j: ReleaseJob, e: ReleaseEnv)
    ensures StepGetCluster(w, i, j, e).history.log == w.history.log
    ensures StepGetClusterForDelete(w, i, j, e).history.log == w.history.log
  {
  }

  lemma UninstallIsNoCall(w: World, i: ProxyId, j: ReleaseJob, e: ReleaseEnv, id: ProxyId)
    ensures CallsOf(StepUninstall(w, i, j, e).history.log, id) == CallsOf(w.history.log, id)
  {
    var spec := j.base.spec;
    CallsOfAppend(w.history.log, Event.Uninstalled(i, spec), id);
    if spec.strategy == InstallOnce {
    } else if spec.releaseName == "" {
    } else if spec.cluster !in w.clusters || e.helm.getFails {
    } else if KeyOf(spec) !in w.releases {
    } else if !e.uninstallOk {
    } else {
    }
  }

  lemma FrozenStep(w: World, urlOk: string -> bool, a: Action, id: ProxyId, spec: ReleaseSpec)
    requires Inv(w, urlOk) && Frozen(w, id, spec)
    ensures var w' := Apply(w, urlOk, a);
      Frozen(w', id, spec) && CallsOf(w'.history.log, id) == CallsOf(w.history.log, id)
  {
    hide Inv, StepChart, StepRelease, StartRelease, CallsOf;
    if Elsewhere(a) {
      ElsewhereTouchesNoProxy(w, urlOk, a);
    } else if a.DeleteProxyByHand? {
    } else if a.ChartReconcile? {
      if a.key in w.chartJobs {
        FrozenChartStep(w, urlOk, a.key, a.chartEnv, id, spec);
      }
    } else if a.id in w.releaseJobs {
      FrozenReleaseStep(w, urlOk, a.id, a.releaseEnv, id, spec);
      FrozenMakesNoCall(w, urlOk, a.id, a.releaseEnv, id, spec);
    }
  }

  /** InstallOnce means once: from a reachable state in which an InstallOnce proxy carries the
      annotation, no run whatever calls Helm install or upgrade for it again, and while it is
      stored its spec never changes and the annotation stays. */
  lemma {:induction false} InstallOnceFreezes(
    w: World, urlOk: string -> bool, id: ProxyId, spec: ReleaseSpec, actions: seq<Action>)
    requires Inv(w, urlOk) && Frozen(w, id, spec)
    ensures var w' := Run(w, urlOk, actions);
      Frozen(w', id, spec) && CallsOf(w'.history.log, id) == CallsOf(w.history.log, id)
    decreases |actions|
  {
    if actions != [] {
      var butLast := actions[..|actions| - 1];
      InstallOnceFreezes(w, urlOk, id, spec, butLast);
      RunKeepsInv(w, urlOk, butLast);
      FrozenStep(Run(w, urlOk, butLast), urlOk, actions[|actions| - 1], id, spec);
    }
  }

  /** No run ever uninstalls a release through a proxy whose strategy is InstallOnce. */
  lemma InstallOnceNeverUninstalls(w: World, urlOk: string -> bool, e: Event)
    requires Reachable(w, urlOk) && e in w.history.log && e.Uninstalled?
    ensures e.spec.strategy != InstallOnce
  {
    ReachableHasInv(w, urlOk);
    assert EventOk(e);
  }
}
