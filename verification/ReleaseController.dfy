/** The release controller as the program runs it: one reconcile of a HelmReleaseProxy, with
    its patches, its Helm calls and the deferred patch at the end. Run without interruption it
    is exactly a sequence of steps of the machine, whatever fails on the way. */
module ReleaseController {
  import opened Types
  import opened Helm
  import opened ReleaseFlow
  import opened Machine
  import opened Objects
  import opened Client
  import opened Api

  /** patchHelmReleaseProxy: the summary is set on the object, then what changed since `base`
      was read is written. */
  method PatchRelease(api: ApiServer, id: ProxyId, base: ReleaseProxy, p: ReleaseObject, ok: bool)
    returns (failed: bool)
    modifies api`proxies, api`clock, p`status
    ensures p.status == old(p.status).(ready := Summary(old(p.status).clusterAvailable, old(p.status).releaseReady))
    ensures failed <==> !ok || id !in old(api.proxies)
    ensures failed ==> api.proxies == old(api.proxies) && api.clock == old(api.clock)
    ensures !failed ==>
      && api.clock == old(api.clock) + 1
      && api.proxies == Put(old(api.proxies), id,
           Stamp(old(api.proxies)[id], MergePatch(old(api.proxies)[id], base, old(p.Value())), old(api.clock)))
  {
    var before := p.Value();
    p.status := p.status.(ready := Summary(p.status.clusterAvailable, p.status.releaseReady));
    if !ok || id !in api.proxies {
      return true;
    }
    assert MergePatch(api.proxies[id], base, p.Value()) == MergePatch(api.proxies[id], base, before);
    api.Write(id, MergePatch(api.proxies[id], base, p.Value()));
    return false;
  }

  /** The Helm call of a spec, failing without effect on a cluster that is gone. */
  function ResultOn(reachable: bool, releases: map<ReleaseKey, Release>, spec: ReleaseSpec, env: HelmEnv): CallResult {
    if reachable then InstallOrUpgrade(releases, spec, env) else Fail(releases, spec)
  }

  /** reconcileNormal. */
  method ReconcileNormal(p: ReleaseObject, client: HelmClient, reachable: bool, env: HelmEnv) returns (failed: bool)
    modifies p`annotations, p`plain, p`status, client
    ensures var was := old(p.Value());
      if was.spec.strategy == InstallOnce && HasBeenInstalled(Some(was))
      then !failed && p.Value() == was && client.releases == old(client.releases)
      else
        var r := ResultOn(reachable, old(client.releases), was.spec, env);
        && client.releases == r.releases && failed == r.outcome.failed
        && p.Value() == AfterHelm(MarkNameGenerated(was), r.outcome)
  {
    if p.plain.strategy == InstallOnce && p.annotations.installed.Some? {
      return false;
    }
    var spec := p.Spec();
    if p.plain.releaseName == "" {
      p.annotations := p.annotations.(nameGenerated := Some(TRUE_VALUE));
    }
    var o: Outcome;
    if reachable {
      ghost var from;
      o, from := client.InstallOrUpgradeHelmRelease(spec, env);
    } else {
      o := Outcome(spec.releaseName, None, true);
    }
    RecordOutcome(p, o);
    return o.failed;
  }

  /** What reconcileNormal writes into the object once the call has returned. */
  method RecordOutcome(p: ReleaseObject, o: Outcome)
    modifies p`annotations, p`plain, p`status
    ensures p.Value() == AfterHelm(old(p.Value()), o)
  {
    if o.failed {
      p.SetReleaseReady(IsFalse);
    }
    if o.release.Some? {
      var status := o.release.value.status;
      NoteRelease(p, o.name, o.release.value);
      if status == Deployed {
        p.SetReleaseReady(IsTrue);
        MarkInstalled(p);
      } else if status.IsPending() {
        p.SetReleaseReady(IsFalse);
      } else if status == Failed && !o.failed {
        p.SetReleaseReady(IsFalse);
      }
    }
  }

  method NoteRelease(p: ReleaseObject, name: string, r: Release)
    modifies p`plain, p`status
    ensures p.Value() == old(p.Value()).(
      spec := NameRelease(old(p.Spec()), name),
      status := old(p.status).(helmStatus := Some(r.status), revision := r.revision))
  {
    p.SetReleaseStatus(r.status);
    p.SetReleaseRevision(r.revision);
    p.SetReleaseName(name);
  }

  method MarkInstalled(p: ReleaseObject)
    modifies p`annotations
    ensures p.Value() == old(p.Value()).(annotations := old(p.annotations).(installed := Some(TRUE_VALUE)))
  {
    p.annotations := p.annotations.(installed := Some(TRUE_VALUE));
  }

  /** reconcileDelete. */
  method ReconcileDelete(p: ReleaseObject, client: HelmClient, reachable: bool, e: ReleaseEnv) returns (failed: bool)
    modifies p`status, client
    ensures var spec := old(p.Spec());
      && failed == (spec.strategy != InstallOnce && spec.releaseName != "" &&
                    (!reachable || e.helm.getFails || (KeyOf(spec) in old(client.releases) && !e.uninstallOk)))
      && p.Value() == (if spec.strategy == InstallOnce then old(p.Value())
                       else ReleaseFlow.SetReleaseReady(old(p.Value()), IsFalse))
      && client.releases ==
           (if !failed && spec.strategy != InstallOnce && spec.releaseName != "" && KeyOf(spec) in old(client.releases)
            then AfterUninstall(old(client.releases), KeyOf(spec), e.keepHistory) else old(client.releases))
  {
    if p.plain.strategy == InstallOnce {
      return false;
    }
    var existing, getFailed := client.GetHelmRelease(p.Spec(), !reachable || e.helm.getFails);
    if getFailed {
      p.SetReleaseReady(IsFalse);
      return true;
    }
    if existing.None? {
      p.SetReleaseReady(IsFalse);
      return false;
    }
    failed := client.UninstallHelmRelease(p.Spec(), e.uninstallOk, e.keepHistory);
    p.SetReleaseReady(IsFalse);
  }

  /* ---- the whole reconcile, step by step with the machine ---- */

  /** The machine's stores are what the program sees. */
  ghost predicate Mirrors(v: World, api: ApiServer, client: HelmClient)
    reads api, client
  {
    v.proxies == api.proxies && v.clock == api.clock && v.clusters == api.clusters && v.releases == client.releases
  }

  /** Equal but for the summary, which every patch computes anew. */
  ghost predicate SameButReady(a: ReleaseProxy, b: ReleaseProxy) {
    a.(status := a.status.(ready := b.status.ready)) == b
  }

  /** The machine's reconcile of `id` stands at `pc`, with this working copy. */
  ghost predicate Standing(v: World, id: ProxyId, base: ReleaseProxy, local: ReleaseProxy, pc: ReleasePc) {
    && id in v.releaseJobs && v.releaseJobs[id].base == base && v.releaseJobs[id].pc == pc
    && SameButReady(v.releaseJobs[id].local, local)
  }

  lemma PatchesAlike(stored: ReleaseProxy, base: ReleaseProxy, a: ReleaseProxy, b: ReleaseProxy)
    requires SameButReady(a, b)
    ensures MergePatch(stored, base, a) == MergePatch(stored, base, b)
  {
  }

  /** `n` steps of one release reconcile, uninterrupted, until it ends. */
  ghost function Through(w: World, id: ProxyId, env: ReleasePc -> ReleaseEnv, n: nat): World {
    if n == 0 then w
    else
      var v := Through(w, id, env, n - 1);
      if id in v.releaseJobs then StepRelease(v, id, v.releaseJobs[id], env(v.releaseJobs[id].pc)) else v
  }

  ghost predicate OnTheWay(w: World, id: ProxyId, env: ReleasePc -> ReleaseEnv, v: World) {
    exists n: nat :: v == Through(w, id, env, n)
  }

  lemma OneStepOn(w: World, id: ProxyId, env: ReleasePc -> ReleaseEnv, v: World)
    requires OnTheWay(w, id, env, v) && id in v.releaseJobs
    ensures OnTheWay(w, id, env, StepRelease(v, id, v.releaseJobs[id], env(v.releaseJobs[id].pc)))
  {
    hide StepRelease;
    var n: nat :| v == Through(w, id, env, n);
    assert StepRelease(v, id, v.releaseJobs[id], env(v.releaseJobs[id].pc)) == Through(w, id, env, n + 1);
  }

  /** The reconcile in flight from its first read. */
  ghost function Begun(w: World, id: ProxyId): World {
    if id in w.proxies then w.(releaseJobs := w.releaseJobs[id := StartRelease(w.proxies[id])]) else w
  }

  /** A patch of the program and the patch of the machine's reconcile. */
  method PatchAlong(api: ApiServer, client: HelmClient, id: ProxyId, base: ReleaseProxy, p: ReleaseObject, ok: bool,
                    ghost v: World) returns (failed: bool)
    requires Mirrors(v, api, client) && id in v.releaseJobs && v.releaseJobs[id].base == base
    requires SameButReady(v.releaseJobs[id].local, p.Value())
    modifies api`proxies, api`clock, p`status
    ensures failed <==> !ok || id !in v.proxies
    ensures failed ==> Mirrors(v, api, client)
    ensures !failed ==> Mirrors(PatchProxy(v, id, v.releaseJobs[id]), api, client)
    ensures SameButReady(v.releaseJobs[id].local, p.Value()) && p.Spec() == old(p.Spec())
  {
    if id in v.proxies {
      PatchesAlike(v.proxies[id], base, v.releaseJobs[id].local, p.Value());
    }
    failed := PatchRelease(api, id, base, p, ok);
  }

  /** The same stores, whatever the reconciles in flight. */
  ghost predicate SameStores(v: World, v': World) {
    v'.proxies == v.proxies && v'.clock == v.clock && v'.clusters == v.clusters && v'.releases == v.releases
  }

  lemma ConditionsPatched(v: World, id: ProxyId, e: ReleaseEnv)
    requires id in v.releaseJobs && v.releaseJobs[id].pc.PatchConditions?
    ensures var j := v.releaseJobs[id];
      var v' := StepRelease(v, id, j, e);
      && SameStores(if e.apiOk && id in v.proxies then PatchProxy(v, id, j) else v, v')
      && id in v'.releaseJobs && v'.releaseJobs[id] == Branch(j.base, j.local)
  {
    hide MergePatch, Stamp, Put, Branch;
  }

  /** initializeConditions. */
  method InitializeConditions(api: ApiServer, client: HelmClient, id: ProxyId, base: ReleaseProxy, p: ReleaseObject,
                              e: ReleaseEnv, ghost v: World) returns (ghost v': World)
    requires Mirrors(v, api, client) && id in v.releaseJobs && v.releaseJobs[id] == StartRelease(base)
    requires p.Value() == base
    modifies api`proxies, api`clock, p`status
    ensures Mirrors(v', api, client) && SameButReady(InitConditions(base), p.Value())
    ensures id in v'.releaseJobs && v'.releaseJobs[id] == Branch(base, InitConditions(base))
    ensures v' == v || (v.releaseJobs[id].pc.PatchConditions? && v' == StepRelease(v, id, v.releaseJobs[id], e))
  {
    v' := v;
    if HasNoConditions(p.status) {
      p.SetReleaseReady(IsFalse);
      v' := StepRelease(v, id, v.releaseJobs[id], e);
      ConditionsPatched(v, id, e);
      var failed := PatchAlong(api, client, id, base, p, e.apiOk, v);
    }
  }

  lemma FinalizerPatched(v: World, id: ProxyId, e: ReleaseEnv)
    requires id in v.releaseJobs && v.releaseJobs[id].pc.PatchFinalizer?
    ensures var j := v.releaseJobs[id];
      var v' := StepRelease(v, id, j, e);
      && SameStores(if e.apiOk && id in v.proxies then PatchProxy(v, id, j) else v, v')
      && id in v'.releaseJobs
      && v'.releaseJobs[id] == j.(pc := if e.apiOk && id in v.proxies then GetCluster else FinishRelease)
  {
    hide MergePatch, Stamp, Put;
  }

  /** The finalizer of a reconcile that is not a deletion. */
  method AddFinalizer(api: ApiServer, client: HelmClient, id: ProxyId, base: ReleaseProxy, p: ReleaseObject,
                      e: ReleaseEnv, ghost v: World) returns (go: bool, ghost v': World)
    requires Mirrors(v, api, client) && p.finalizer == base.finalizer
    requires Standing(v, id, base, p.Value().(finalizer := true), if base.finalizer then GetCluster else PatchFinalizer)
    modifies api`proxies, api`clock, p`status, p`finalizer
    ensures Mirrors(v', api, client)
    ensures v' == v || (v.releaseJobs[id].pc.PatchFinalizer? && v' == StepRelease(v, id, v.releaseJobs[id], e))
    ensures Standing(v', id, base, p.Value(), if go then GetCluster else FinishRelease)
    ensures p.Spec() == old(p.Spec())
  {
    v', go := v, true;
    assert p.finalizer ==> p.Value().(finalizer := true) == p.Value();
    if !p.finalizer {
      p.finalizer := true;
      v' := StepRelease(v, id, v.releaseJobs[id], e);
      FinalizerPatched(v, id, e);
      var failed := PatchAlong(api, client, id, base, p, e.apiOk, v);
      go := !failed;
    }
  }

  predicate CanReach(e: ReleaseEnv, clusters: map<ObjectKey, Cluster>, c: ObjectKey) {
    && e.apiOk && c in clusters && clusters[c].controlPlaneInitialized != Some(false)
    && e.kubeconfigOk && e.secretsOk
  }

  lemma ClusterLookedUp(v: World, id: ProxyId, base: ReleaseProxy, local: ReleaseProxy, e: ReleaseEnv)
    requires Standing(v, id, base, local, GetCluster)
    ensures var v' := StepRelease(v, id, v.releaseJobs[id], e);
      var go := CanReach(e, v.clusters, base.spec.cluster);
      && SameStores(v, v')
      && Standing(v', id, base, ReleaseFlow.SetClusterAvailable(local, if go then IsTrue else IsFalse),
                  if go then CallHelm else FinishRelease)
  {
    var j := v.releaseJobs[id];
    assert StepRelease(v, id, j, e) == StepGetCluster(v, id, j, e);
    if CanReach(e, v.clusters, base.spec.cluster) {
      assert StepGetCluster(v, id, j, e) == Reached(v, id, j);
    } else {
      assert StepGetCluster(v, id, j, e) == Unreachable(v, id, j);
    }
  }

  /** The cluster phase of a reconcile that is not a deletion. */
  method ReachCluster(api: ApiServer, cluster: ObjectKey, p: ReleaseObject, e: ReleaseEnv) returns (go: bool)
    modifies p`status
    ensures go == CanReach(e, api.clusters, cluster)
    ensures p.Value() == ReleaseFlow.SetClusterAvailable(old(p.Value()), if go then IsTrue else IsFalse)
  {
    if !e.apiOk || cluster !in api.clusters {
      p.SetClusterAvailable(IsFalse);
      return false;
    }
    if api.clusters[cluster].controlPlaneInitialized == Some(false) {
      p.SetClusterAvailable(IsFalse);
      return false;
    }
    if !e.kubeconfigOk {
      p.SetClusterAvailable(IsFalse);
      return false;
    }
    p.SetClusterAvailable(IsTrue);
    if !e.secretsOk {
      p.SetClusterAvailable(IsFalse);
      return false;
    }
    return true;
  }

  lemma MarkAlike(a: ReleaseProxy, b: ReleaseProxy)
    requires SameButReady(a, b)
    ensures SameButReady(MarkNameGenerated(a), MarkNameGenerated(b))
  {
  }

  lemma ReadyAlike(a: ReleaseProxy, b: ReleaseProxy, c: Condition)
    requires SameButReady(a, b)
    ensures SameButReady(ReleaseFlow.SetReleaseReady(a, c), ReleaseFlow.SetReleaseReady(b, c))
  {
  }

  function Noted(p: ReleaseProxy, name: string, r: Release): ReleaseProxy {
    p.(spec := NameRelease(p.spec, name), status := p.status.(helmStatus := Some(r.status), revision := r.revision))
  }

  lemma NotedAlike(a: ReleaseProxy, b: ReleaseProxy, name: string, r: Release)
    requires SameButReady(a, b)
    ensures SameButReady(Noted(a, name, r), Noted(b, name, r))
  {
  }

  lemma OutcomeAlike(a: ReleaseProxy, b: ReleaseProxy, o: Outcome)
    requires SameButReady(a, b)
    ensures SameButReady(AfterHelm(a, o), AfterHelm(b, o))
  {
    ReadyAlike(a, b, IsFalse);
    var a1 := if o.failed then ReleaseFlow.SetReleaseReady(a, IsFalse) else a;
    var b1 := if o.failed then ReleaseFlow.SetReleaseReady(b, IsFalse) else b;
    if o.release.Some? {
      var r := o.release.value;
      NotedAlike(a1, b1, o.name, r);
      var a2, b2 := Noted(a1, o.name, r), Noted(b1, o.name, r);
      ReadyAlike(a2, b2, IsTrue);
      ReadyAlike(a2, b2, IsFalse);
    }
  }

  lemma AfterHelmAlike(a: ReleaseProxy, b: ReleaseProxy, o: Outcome)
    requires SameButReady(a, b)
    ensures SameButReady(AfterHelm(MarkNameGenerated(a), o), AfterHelm(MarkNameGenerated(b), o))
  {
    MarkAlike(a, b);
    OutcomeAlike(MarkNameGenerated(a), MarkNameGenerated(b), o);
  }

  /** What the machine's Helm step leaves behind, in the terms of reconcileNormal. */
  lemma HelmCalled(v: World, id: ProxyId, base: ReleaseProxy, was: ReleaseProxy, e: ReleaseEnv)
    requires Standing(v, id, base, was, CallHelm)
    ensures var v' := StepRelease(v, id, v.releaseJobs[id], e);
      var skip := was.spec.strategy == InstallOnce && HasBeenInstalled(Some(was));
      var r := ResultOn(was.spec.cluster in v.clusters, v.releases, was.spec, e.helm);
      && v'.proxies == v.proxies && v'.clock == v.clock && v'.clusters == v.clusters
      && v'.releases == (if skip then v.releases else r.releases)
      && Standing(v', id, base, if skip then was else AfterHelm(MarkNameGenerated(was), r.outcome), FinishRelease)
  {
    var j := v.releaseJobs[id];
    assert StepRelease(v, id, j, e) == StepCallHelm(v, id, j, e);
    var r := HelmResult(v, j.local.spec, e.helm);
    AfterHelmAlike(j.local, was, r.outcome);
    hide InstallOrUpgrade, AfterHelm, MarkNameGenerated, Stakes, StepRelease;
    if j.local.spec.strategy == InstallOnce && HasBeenInstalled(Some(j.local)) {
    } else {
      assert StepCallHelm(v, id, j, e) == AfterCall(v, id, j, r);
    }
  }

  /** The machine's cluster lookup on deletion. */
  lemma ClusterLookedUpForDelete(v: World, id: ProxyId, base: ReleaseProxy, local: ReleaseProxy, e: ReleaseEnv)
    requires Standing(v, id, base, local, GetClusterForDelete)
    ensures var v' := StepRelease(v, id, v.releaseJobs[id], e);
      var c := base.spec.cluster;
      && SameStores(v, v')
      && (if e.apiOk && c !in v.clusters then Standing(v', id, base, local.(finalizer := false), UnpatchFinalizer)
          else if e.apiOk && e.kubeconfigOk
          then Standing(v', id, base, ReleaseFlow.SetClusterAvailable(local, IsTrue), Uninstall)
          else Standing(v', id, base, ReleaseFlow.SetClusterAvailable(local, IsFalse), FinishRelease))
  {
    var j := v.releaseJobs[id];
    assert StepRelease(v, id, j, e) == StepGetClusterForDelete(v, id, j, e);
    JumpStands(v, id, j.(local := ReleaseFlow.SetClusterAvailable(j.local, IsFalse)), FinishRelease,
               ReleaseFlow.SetClusterAvailable(local, IsFalse));
    JumpStands(v, id, j.(local := ReleaseFlow.SetClusterAvailable(j.local, IsTrue)), Uninstall,
               ReleaseFlow.SetClusterAvailable(local, IsTrue));
    JumpStands(v, id, ReleaseFinalizer(j), UnpatchFinalizer, local.(finalizer := false));
    hide StepRelease, Jump, Standing, ReleaseFinalizer, ReleaseFlow.SetClusterAvailable;
  }

  predicate DeleteFails(v: World, spec: ReleaseSpec, e: ReleaseEnv) {
    && spec.strategy != InstallOnce && spec.releaseName != ""
    && (spec.cluster !in v.clusters || e.helm.getFails || (KeyOf(spec) in v.releases && !e.uninstallOk))
  }

  /** The machine's uninstall, in the terms of reconcileDelete. */
  lemma HelmUninstalled(v: World, id: ProxyId, base: ReleaseProxy, local: ReleaseProxy, e: ReleaseEnv)
    requires Standing(v, id, base, local, Uninstall)
    ensures var v' := StepRelease(v, id, v.releaseJobs[id], e);
      var spec := base.spec;
      var failed := DeleteFails(v, spec, e);
      var after := if spec.strategy == InstallOnce then local else ReleaseFlow.SetReleaseReady(local, IsFalse);
      && v'.proxies == v.proxies && v'.clock == v.clock && v'.clusters == v.clusters
      && v'.releases == (if !failed && spec.strategy != InstallOnce && spec.releaseName != "" &&
                            KeyOf(spec) in v.releases
                         then AfterUninstall(v.releases, KeyOf(spec), e.keepHistory) else v.releases)
      && (if failed then Standing(v', id, base, after, FinishRelease)
          else Standing(v', id, base, after.(finalizer := false), UnpatchFinalizer))
  {
    var j := v.releaseJobs[id];
    var spec := base.spec;
    var gone := ReleaseFlow.SetReleaseReady(local, IsFalse);
    assert StepRelease(v, id, j, e) == StepUninstall(v, id, j, e);
    JumpStands(v, id, ReleaseFinalizer(j), UnpatchFinalizer, local.(finalizer := false));
    JumpStands(v, id, ReleaseGone(j), UnpatchFinalizer, gone.(finalizer := false));
    JumpStands(v, id, j.(local := ReleaseFlow.SetReleaseReady(j.local, IsFalse)), FinishRelease, gone);
    if KeyOf(spec) in v.releases {
      var w1 := HelmWrites(v, AfterUninstall(v.releases, KeyOf(spec), e.keepHistory), Event.Uninstalled(id, spec),
                           v.history.claims - {KeyOf(spec)});
      JumpStands(w1, id, ReleaseGone(j), UnpatchFinalizer, gone.(finalizer := false));
    }
    hide StepRelease, Jump, ReleaseGone, ReleaseFinalizer, AfterUninstall, Standing;
  }

  lemma JumpStands(v: World, id: ProxyId, j: ReleaseJob, pc: ReleasePc, local: ReleaseProxy)
    requires SameButReady(j.local, local)
    ensures var v' := Jump(v, id, j, pc); SameStores(v, v') && Standing(v', id, j.base, local, pc)
  {
  }

  lemma FinalizerUnpatched(v: World, id: ProxyId, e: ReleaseEnv)
    requires id in v.releaseJobs && v.releaseJobs[id].pc.UnpatchFinalizer?
    ensures var j := v.releaseJobs[id];
      var v' := StepRelease(v, id, j, e);
      && SameStores(if e.apiOk && id in v.proxies then PatchProxy(v, id, j) else v, v')
      && id in v'.releaseJobs && v'.releaseJobs[id] == j.(pc := FinishRelease)
  {
    hide MergePatch, Stamp, Put;
  }

  lemma Ended(v: World, id: ProxyId, e: ReleaseEnv)
    requires id in v.releaseJobs && v.releaseJobs[id].pc.FinishRelease?
    ensures var j := v.releaseJobs[id];
      var v' := StepRelease(v, id, j, e);
      && SameStores(if e.apiOk && id in v.proxies then PatchProxy(v, id, j) else v, v') && id !in v'.releaseJobs
  {
    hide MergePatch, Stamp, Put, Record;
  }

  /** The branch of Reconcile for an object that is not being deleted. */
  method KeepInstalled(api: ApiServer, client: HelmClient, id: ProxyId, base: ReleaseProxy, p: ReleaseObject,
                       env: ReleasePc -> ReleaseEnv, ghost start: World, ghost v: World) returns (ghost v': World)
    requires Mirrors(v, api, client) && OnTheWay(start, id, env, v) && p.finalizer == base.finalizer
    requires Standing(v, id, base, p.Value().(finalizer := true), if base.finalizer then GetCluster else PatchFinalizer)
    modifies api`proxies, api`clock, client, p`status, p`finalizer, p`annotations, p`plain
    ensures Mirrors(v', api, client) && OnTheWay(start, id, env, v')
    ensures Standing(v', id, base, p.Value(), FinishRelease)
  {
    hide StepRelease, OnTheWay;
    OneStepOn(start, id, env, v);
    var go, v1 := AddFinalizer(api, client, id, base, p, env(PatchFinalizer), v);
    v' := v1;
    if !go {
      return v';
    }
    ClusterLookedUp(v', id, base, p.Value(), env(GetCluster));
    OneStepOn(start, id, env, v');
    v' := StepRelease(v', id, v'.releaseJobs[id], env(GetCluster));
    go := ReachCluster(api, base.spec.cluster, p, env(GetCluster));
    if !go {
      return v';
    }
    HelmCalled(v', id, base, p.Value(), env(CallHelm));
    OneStepOn(start, id, env, v');
    v' := StepRelease(v', id, v'.releaseJobs[id], env(CallHelm));
    var failed := ReconcileNormal(p, client, p.plain.cluster in api.clusters, env(CallHelm).helm);
  }

  /** Deletion up to the point where the finalizer may go. */
  method UninstallFirst(api: ApiServer, client: HelmClient, id: ProxyId, base: ReleaseProxy, p: ReleaseObject,
                        env: ReleasePc -> ReleaseEnv, ghost start: World, ghost v: World)
    returns (go: bool, ghost v': World)
    requires Mirrors(v, api, client) && OnTheWay(start, id, env, v) && p.Spec() == base.spec
    requires Standing(v, id, base, p.Value(), GetClusterForDelete)
    modifies client, p`status
    ensures Mirrors(v', api, client) && OnTheWay(start, id, env, v')
    ensures if go then Standing(v', id, base, p.Value().(finalizer := false), UnpatchFinalizer)
            else Standing(v', id, base, p.Value(), FinishRelease)
  {
    hide StepRelease, OnTheWay;
    var e := env(GetClusterForDelete);
    ClusterLookedUpForDelete(v, id, base, p.Value(), e);
    OneStepOn(start, id, env, v);
    v' := StepRelease(v, id, v.releaseJobs[id], e);
    if e.apiOk && base.spec.cluster in api.clusters {
      if !e.kubeconfigOk {
        p.SetClusterAvailable(IsFalse);
        return false, v';
      }
      p.SetClusterAvailable(IsTrue);
      HelmUninstalled(v', id, base, p.Value(), env(Uninstall));
      OneStepOn(start, id, env, v');
      v' := StepRelease(v', id, v'.releaseJobs[id], env(Uninstall));
      hide Standing;
      var failed := ReconcileDelete(p, client, base.spec.cluster in api.clusters, env(Uninstall));
      return !failed, v';
    }
    if !e.apiOk {
      p.SetClusterAvailable(IsFalse);
      return false, v';
    }
    return true, v';
  }

  /** The branch of Reconcile for an object that is being deleted and has the finalizer. */
  method TakeAway(api: ApiServer, client: HelmClient, id: ProxyId, base: ReleaseProxy, p: ReleaseObject,
                  env: ReleasePc -> ReleaseEnv, ghost start: World, ghost v: World) returns (ghost v': World)
    requires Mirrors(v, api, client) && OnTheWay(start, id, env, v) && p.Spec() == base.spec
    requires Standing(v, id, base, p.Value(), GetClusterForDelete)
    modifies api`proxies, api`clock, client, p`status, p`finalizer
    ensures Mirrors(v', api, client) && OnTheWay(start, id, env, v')
    ensures Standing(v', id, base, p.Value(), FinishRelease)
  {
    hide StepRelease, OnTheWay;
    var go, v1 := UninstallFirst(api, client, id, base, p, env, start, v);
    v' := v1;
    if go {
      p.finalizer := false;
      FinalizerUnpatched(v', id, env(UnpatchFinalizer));
      OneStepOn(start, id, env, v');
      var failed := PatchAlong(api, client, id, base, p, env(UnpatchFinalizer).apiOk, v');
      v' := StepRelease(v', id, v'.releaseJobs[id], env(UnpatchFinalizer));
    }
  }

  /** Where a reconcile goes once the conditions are initialised. */
  lemma BranchTaken(v: World, id: ProxyId, base: ReleaseProxy, local: ReleaseProxy)
    requires id in v.releaseJobs && v.releaseJobs[id] == Branch(base, InitConditions(base))
    requires SameButReady(InitConditions(base), local)
    ensures local.finalizer == base.finalizer && local.deleting == base.deleting && local.spec == base.spec
    ensures if !base.deleting
      then Standing(v, id, base, local.(finalizer := true), if base.finalizer then GetCluster else PatchFinalizer)
      else Standing(v, id, base, local, if base.finalizer then GetClusterForDelete else FinishRelease)
  {
  }

  /** Everything between the first read and the deferred patch. */
  method Work(api: ApiServer, client: HelmClient, id: ProxyId, base: ReleaseProxy, p: ReleaseObject,
              env: ReleasePc -> ReleaseEnv, ghost start: World) returns (ghost v: World)
    requires Mirrors(start, api, client) && p.Value() == base
    requires id in start.releaseJobs && start.releaseJobs[id] == StartRelease(base)
    modifies api`proxies, api`clock, client, p
    ensures Mirrors(v, api, client) && OnTheWay(start, id, env, v) && Standing(v, id, base, p.Value(), FinishRelease)
  {
    assert Through(start, id, env, 0) == start;
    assert OnTheWay(start, id, env, start);
    OneStepOn(start, id, env, start);
    v := InitializeConditions(api, client, id, base, p, env(PatchConditions), start);
    BranchTaken(v, id, base, p.Value());
    hide StepRelease, OnTheWay, Standing, Branch, InitConditions;
    if !p.deleting {
      v := KeepInstalled(api, client, id, base, p, env, start, v);
    } else if p.finalizer {
      v := TakeAway(api, client, id, base, p, env, start, v);
    }
  }

  /** Reconcile. Whatever fails, the stores end up where an uninterrupted run of the machine's
      own steps of this reconcile leaves them. */
  method Reconcile(api: ApiServer, client: HelmClient, id: ProxyId, env: ReleasePc -> ReleaseEnv, ghost w: World)
    returns (ghost v: World)
    requires Mirrors(w, api, client) && id !in w.releaseJobs
    modifies api`proxies, api`clock, client
    ensures Mirrors(v, api, client)
    ensures OnTheWay(Begun(w, id), id, env, v) && id !in v.releaseJobs
  {
    v := Begun(w, id);
    if id !in api.proxies {
      assert Through(v, id, env, 0) == v;
      return v;
    }
    hide StepRelease, OnTheWay, StartRelease;
    ghost var start := v;
    var base := api.proxies[id];
    var p := new ReleaseObject.Read(base);
    v := Work(api, client, id, base, p, env, start);
    Ended(v, id, env(FinishRelease));
    OneStepOn(start, id, env, v);
    var failed := PatchAlong(api, client, id, base, p, env(FinishRelease).apiOk, v);
    v := StepRelease(v, id, v.releaseJobs[id], env(FinishRelease));
  }
}
