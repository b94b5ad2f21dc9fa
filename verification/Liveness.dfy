/** What a release reconcile achieves when nothing fails: the release is deployed with the
    proxy's chart version and values, and the proxy is Ready at its current generation. */
module Liveness {
  import opened Types
  import opened Helm
  import opened ReleaseFlow
  import opened Machine
  import opened ReleaseInvariant
  import opened Invariant
  import opened LastCalls
  import opened Runs
  import opened ReleaseController
  import B = Bridge

  /** No call fails, and what Helm stores ends up deployed. */
  predicate Works(e: ReleaseEnv) {
    e.apiOk && e.kubeconfigOk && e.secretsOk && Healthy(e.helm)
  }

  /** Nothing fails at any point of a reconcile. */
  ghost predicate WorksThroughout(env: ReleasePc -> ReleaseEnv) {
    forall pc :: Works(env(pc))
  }

  /** What the controller writes reaches the store. */
  predicate PatchesLand(env: ReleasePc -> ReleaseEnv) {
    env(PatchConditions).apiOk && env(PatchFinalizer).apiOk && env(FinishRelease).apiOk
  }

  /** The cluster, its kubeconfig and the Secrets are found. */
  predicate Finds(e: ReleaseEnv) {
    e.apiOk && e.kubeconfigOk && e.secretsOk
  }

  /** Everything around the Helm call works; the call itself may do anything. */
  predicate Smooth(env: ReleasePc -> ReleaseEnv) {
    PatchesLand(env) && Finds(env(GetCluster))
  }

  /** A live, named proxy under a strategy that keeps its release up to date, on a cluster that
      can be reached. */
  ghost predicate Serviceable(w: World, id: ProxyId) {
    Installable(w, id) && w.proxies[id].spec.releaseName != ""
  }

  /** The same, named or not. */
  ghost predicate Installable(w: World, id: ProxyId) {
    Answers(w, id) && w.proxies[id].spec.strategy != InstallOnce
  }

  /** A live proxy on a cluster whose control plane answers. */
  ghost predicate Answers(w: World, id: ProxyId) {
    && Alive(w, id) && w.proxies[id].spec.cluster in w.clusters
    && w.clusters[w.proxies[id].spec.cluster].controlPlaneInitialized != Some(false)
  }

  ghost predicate Alive(w: World, id: ProxyId) {
    id in w.proxies && !w.proxies[id].deleting
  }

  /** The release, if there is one, is deployed or failed: not pending, and in no status that the
      controller ignores. */
  predicate Workable(releases: map<ReleaseKey, Release>, spec: ReleaseSpec) {
    KeyOf(spec) in releases ==>
      releases[KeyOf(spec)].version.Some? &&
      (releases[KeyOf(spec)].status == Deployed || releases[KeyOf(spec)].status == Failed)
  }

  /** Helm holds exactly what the spec asks for. */
  predicate Installed(releases: map<ReleaseKey, Release>, spec: ReleaseSpec, env: HelmEnv) {
    && KeyOf(spec) in releases
    && releases[KeyOf(spec)].status == Deployed && releases[KeyOf(spec)].version == env.located
    && env.norm(releases[KeyOf(spec)].config) == env.norm(spec.values)
  }

  lemma HealthyCallInstalls(releases: map<ReleaseKey, Release>, spec: ReleaseSpec, env: HelmEnv)
    requires spec.releaseName != "" && Healthy(env) && Workable(releases, spec)
    ensures var r := InstallOrUpgrade(releases, spec, env);
      && Installed(r.releases, spec, env)
      && r.outcome == Outcome(spec.releaseName, Some(r.releases[KeyOf(spec)]), false)
  {
  }

  /** The stored object is still what the reconcile read, but for its status and finalizer. */
  ghost predicate Steady(w: World, v: World, urlOk: string -> bool, id: ProxyId, base: ReleaseProxy) {
    && Inv(v, urlOk) && v.clusters == w.clusters && v.releases == w.releases
    && id in v.proxies && v.proxies[id].spec == base.spec && v.proxies[id].generation == base.generation
    && !v.proxies[id].deleting && v.proxies[id].annotations == base.annotations
    && v.history.log == w.history.log
  }

  lemma StepKeepsInv(v: World, urlOk: string -> bool, id: ProxyId, e: ReleaseEnv)
    requires Inv(v, urlOk) && id in v.releaseJobs
    ensures Inv(StepRelease(v, id, v.releaseJobs[id], e), urlOk)
  {
    hide Inv, StepRelease;
    ReleaseStepKeepsInv(v, urlOk, id, e);
  }

  /** A patch before the Helm call leaves the spec and the generation alone. */
  lemma PatchIsSteady(w: World, v: World, v1: World, urlOk: string -> bool, id: ProxyId, base: ReleaseProxy)
    requires Steady(w, v, urlOk, id, base) && id in v.releaseJobs && v.releaseJobs[id].base == base
    requires v.releaseJobs[id].call.None? && Inv(v1, urlOk) && v1.history.log == v.history.log
    requires SameStores(PatchProxy(v, id, v.releaseJobs[id]), v1)
    ensures Steady(w, v1, urlOk, id, base)
  {
    ReleaseJobIsOk(v, id);
    QuietPatch(v.proxies[id], v.releaseJobs[id]);
    hide Inv;
  }

  lemma JobHasNoCall(v: World, urlOk: string -> bool, id: ProxyId)
    requires Inv(v, urlOk) && id in v.releaseJobs && v.releaseJobs[id].pc != FinishRelease
    ensures v.releaseJobs[id].call.None?
  {
    ReleaseJobIsOk(v, id);
  }

  /** From the first read to the point where the cluster is looked up. */
  lemma ReachesCluster(w: World, urlOk: string -> bool, id: ProxyId, env: ReleasePc -> ReleaseEnv)
    returns (v: World, local: ReleaseProxy)
    requires Inv(w, urlOk) && Alive(w, id) && id !in w.releaseJobs && PatchesLand(env)
    ensures OnTheWay(Begun(w, id), id, env, v) && Steady(w, v, urlOk, id, w.proxies[id])
    ensures Standing(v, id, w.proxies[id], local, GetCluster) && local.spec == w.proxies[id].spec
    ensures local.status == InitConditions(w.proxies[id]).status
    ensures local.annotations == w.proxies[id].annotations
  {
    var base := w.proxies[id];
    var start := BeginsSteady(w, urlOk, id, env);
    hide Inv, OnTheWay, StepRelease, StartRelease, Through, Begun;
    v := ConditionsDone(w, urlOk, id, base, env, start);
    local := InitConditions(base);
    BranchTaken(v, id, base, local);
    local := local.(finalizer := true);
    if !base.finalizer {
      v := FinalizerDone(w, v, urlOk, id, base, env, start);
    }
  }

  lemma BeginsSteady(w: World, urlOk: string -> bool, id: ProxyId, env: ReleasePc -> ReleaseEnv)
    returns (start: World)
    requires Inv(w, urlOk) && Alive(w, id) && id !in w.releaseJobs
    ensures start == Begun(w, id) && Steady(w, start, urlOk, id, w.proxies[id])
    ensures id in start.releaseJobs && start.releaseJobs[id] == StartRelease(w.proxies[id])
    ensures OnTheWay(start, id, env, start)
  {
    hide Inv, StartRelease, Apply;
    start := Begun(w, id);
    var e := env(PatchConditions);
    BegunIsApplied(w, urlOk, id, e);
    ApplyKeepsInv(w, urlOk, ReleaseReconcile(id, e));
    assert Through(start, id, env, 0) == start;
  }

  lemma BegunIsApplied(w: World, urlOk: string -> bool, id: ProxyId, e: ReleaseEnv)
    requires id in w.proxies && id !in w.releaseJobs
    ensures Begun(w, id) == Apply(w, urlOk, ReleaseReconcile(id, e))
  {
    hide StartRelease;
  }

  lemma FinalizerDone(w: World, v: World, urlOk: string -> bool, id: ProxyId, base: ReleaseProxy,
                      env: ReleasePc -> ReleaseEnv, start: World) returns (v1: World)
    requires env(PatchFinalizer).apiOk && Steady(w, v, urlOk, id, base) && OnTheWay(start, id, env, v)
    requires id in v.releaseJobs && v.releaseJobs[id].base == base && v.releaseJobs[id].pc == PatchFinalizer
    ensures OnTheWay(start, id, env, v1) && Steady(w, v1, urlOk, id, base)
    ensures id in v1.releaseJobs && v1.releaseJobs[id] == v.releaseJobs[id].(pc := GetCluster)
  {
    hide Inv, OnTheWay, StepRelease;
    var e := env(PatchFinalizer);
    FinalizerPatched(v, id, e);
    OneStepOn(start, id, env, v);
    JobHasNoCall(v, urlOk, id);
    StepKeepsInv(v, urlOk, id, e);
    v1 := StepRelease(v, id, v.releaseJobs[id], e);
    StepOf(v, id, v.releaseJobs[id], e);
    PatchIsSteady(w, v, v1, urlOk, id, base);
  }

  lemma ConditionsDone(w: World, urlOk: string -> bool, id: ProxyId, base: ReleaseProxy, env: ReleasePc -> ReleaseEnv,
                       start: World) returns (v: World)
    requires env(PatchConditions).apiOk && Steady(w, start, urlOk, id, base) && id in start.releaseJobs
    requires start.releaseJobs[id] == StartRelease(base) && OnTheWay(start, id, env, start)
    ensures OnTheWay(start, id, env, v) && Steady(w, v, urlOk, id, base)
    ensures id in v.releaseJobs && v.releaseJobs[id] == Branch(base, InitConditions(base))
  {
    hide Inv, OnTheWay, StepRelease;
    v := start;
    if HasNoConditions(base.status) {
      var e := env(PatchConditions);
      ConditionsPatched(start, id, e);
      OneStepOn(start, id, env, start);
      StepKeepsInv(start, urlOk, id, e);
      v := StepRelease(start, id, start.releaseJobs[id], e);
      StepOf(start, id, start.releaseJobs[id], e);
      PatchIsSteady(w, start, v, urlOk, id, base);
    }
  }

  /** The patch that records what Helm returned, the release name included. */
  lemma OutcomeIsRecorded(v: World, id: ProxyId, base: ReleaseProxy, local: ReleaseProxy, e: ReleaseEnv)
    requires e.apiOk && Standing(v, id, base, local, FinishRelease) && id in v.proxies
    requires v.proxies[id].spec == base.spec && v.proxies[id].generation == base.generation && !v.proxies[id].deleting
    requires v.proxies[id].annotations == base.annotations
    requires local.spec == base.spec.(releaseName := local.spec.releaseName)
    ensures var v' := StepRelease(v, id, v.releaseJobs[id], e);
      && id in v'.proxies && v'.proxies[id].spec == local.spec && !v'.proxies[id].deleting
      && v'.proxies[id].status.helmStatus == local.status.helmStatus
      && v'.proxies[id].status.revision == local.status.revision
      && v'.proxies[id].status.clusterAvailable == local.status.clusterAvailable
      && v'.proxies[id].status.releaseReady == local.status.releaseReady
      && v'.proxies[id].annotations == local.annotations
      && v'.proxies[id].status.observedGeneration == base.generation
      && v'.proxies[id].status.ready == Summary(local.status.clusterAvailable, local.status.releaseReady)
      && (local.spec == base.spec ==> v'.proxies[id].generation == base.generation)
      && v'.releases == v.releases && v'.clusters == v.clusters && id !in v'.releaseJobs
      && v'.history.log == v.history.log
  {
    var j := v.releaseJobs[id];
    var p := v.proxies[id];
    assert j.local.spec == local.spec;
    assert MergeSpec(p.spec, base.spec, j.local.spec) == local.spec;
    var q := Stamp(p, MergePatch(p, base, j.local), v.clock);
    assert q.spec == local.spec && (local.spec == base.spec ==> q.generation == p.generation) && !q.deleting;
    assert q.status == PatchedStatus(base, j.local) && q.annotations == j.local.annotations;
    Ended(v, id, e);
    StepOf(v, id, j, e);
  }

  /** What a Helm outcome makes of HelmReleaseReady. */
  function ReadyAfter(before: Condition, o: Outcome): Condition {
    if o.release.None? then if o.failed then IsFalse else before
    else if o.release.value.status == Deployed then IsTrue
    else if o.failed || !o.release.value.status.IsUnhandled() then IsFalse
    else before
  }

  lemma OutcomeOnProxy(local: ReleaseProxy, o: Outcome)
    ensures var after := AfterHelm(MarkNameGenerated(local), o);
      && after.spec == local.spec.(releaseName := after.spec.releaseName)
      && after.spec.releaseName == (if local.spec.releaseName == "" && o.release.Some? then o.name
                                    else local.spec.releaseName)
      && after.status.clusterAvailable == local.status.clusterAvailable
      && after.status.releaseReady == ReadyAfter(local.status.releaseReady, o)
      && (o.release.Some? ==> after.status.helmStatus == Some(o.release.value.status))
      && (o.release.Some? ==> after.status.revision == o.release.value.revision)
      && after.annotations.installed ==
           (if CameBackDeployed(o) then Some(TRUE_VALUE) else local.annotations.installed)
  {
  }

  /** HelmReleaseReady as a reconcile finds it: false where no condition was ever set. */
  function FirstReady(s: ReleaseStatus): Condition {
    if s.clusterAvailable == Missing && s.releaseReady == Missing && s.ready == Missing then IsFalse else s.releaseReady
  }

  /** What a reconcile with nothing failing around its Helm call comes to, the call itself being
      whatever `r` says. */
  ghost predicate CameTo(w: World, id: ProxyId, r: CallResult, v: World)
    requires id in w.proxies
  {
    var p := w.proxies[id];
    && Answers(v, id) && id !in v.releaseJobs
    && v.releases == r.releases && v.history.log == w.history.log + [Applied(id, Call(p.spec, r.outcome))]
    && var q := v.proxies[id];
    && q.spec == (if r.outcome.release.Some? then NameRelease(p.spec, r.outcome.name) else p.spec)
    && (r.outcome.release.Some? ==> q.status.helmStatus == Some(r.outcome.release.value.status))
    && (r.outcome.release.Some? ==> q.status.revision == r.outcome.release.value.revision)
    && q.status.clusterAvailable == IsTrue
    && q.status.releaseReady == ReadyAfter(FirstReady(p.status), r.outcome)
    && q.annotations.installed ==
         (if CameBackDeployed(r.outcome) then Some(TRUE_VALUE) else p.annotations.installed)
    && (p.spec.releaseName != "" && p.spec.strategy != InstallOnce ==>
          (ReadyNow(q) <==> q.status.releaseReady == IsTrue))
  }

  /** From the first read to the Helm call. */
  lemma ReachesCall(w: World, urlOk: string -> bool, id: ProxyId, env: ReleasePc -> ReleaseEnv)
    returns (v: World, local: ReleaseProxy)
    requires Inv(w, urlOk) && Answers(w, id) && id !in w.releaseJobs && Smooth(env)
    ensures OnTheWay(Begun(w, id), id, env, v) && Steady(w, v, urlOk, id, w.proxies[id])
    ensures Standing(v, id, w.proxies[id], local, CallHelm) && local.spec == w.proxies[id].spec
    ensures local.annotations == w.proxies[id].annotations
    ensures local.status == InitConditions(w.proxies[id]).status.(clusterAvailable := IsTrue)
  {
    var base := w.proxies[id];
    hide Inv, OnTheWay, StepRelease, StartRelease, Begun;
    var v1;
    v1, local := ReachesCluster(w, urlOk, id, env);
    ClusterLookedUp(v1, id, base, local, env(GetCluster));
    StepOf(v1, id, v1.releaseJobs[id], env(GetCluster));
    StepKeepsInv(v1, urlOk, id, env(GetCluster));
    OneStepOn(Begun(w, id), id, env, v1);
    v := StepRelease(v1, id, v1.releaseJobs[id], env(GetCluster));
    local := ReleaseFlow.SetClusterAvailable(local, IsTrue);
  }

  /** Helm is called exactly once, with the spec as it was read, and what it returns is stored. */
  lemma SmoothReconcile(w: World, urlOk: string -> bool, id: ProxyId, env: ReleasePc -> ReleaseEnv)
    returns (v: World)
    requires Inv(w, urlOk) && Answers(w, id) && id !in w.releaseJobs && Smooth(env)
    requires w.proxies[id].spec.strategy == InstallOnce ==> w.proxies[id].annotations.installed.None?
    ensures OnTheWay(Begun(w, id), id, env, v) && Inv(v, urlOk)
    ensures CameTo(w, id, InstallOrUpgrade(w.releases, w.proxies[id].spec, env(CallHelm).helm), v)
  {
    var start := Begun(w, id);
    hide Inv, OnTheWay, StepRelease, StartRelease, Begun, InstallOrUpgrade, AfterHelm, MarkNameGenerated,
      B.IsRun, CameTo, InitConditions;
    var v2, local := ReachesCall(w, urlOk, id, env);
    var v3 := OneCall(v2, id, w.proxies[id], local, env(CallHelm));
    OneStepOn(start, id, env, v2);
    v := Records(w, id, v3, local, InstallOrUpgrade(w.releases, w.proxies[id].spec, env(CallHelm).helm),
                 env(FinishRelease));
    OneStepOn(start, id, env, v3);
    B.ReleaseReconcileIsRun(w, urlOk, id, env, v);
  }

  lemma Records(w: World, id: ProxyId, v3: World, local: ReleaseProxy, r: CallResult, e: ReleaseEnv)
    returns (v: World)
    requires Answers(w, id) && e.apiOk && id in v3.proxies
    requires local.spec == w.proxies[id].spec && local.annotations == w.proxies[id].annotations
    requires local.status == InitConditions(w.proxies[id]).status.(clusterAvailable := IsTrue)
    requires v3.proxies[id].spec == local.spec && v3.proxies[id].generation == w.proxies[id].generation
    requires !v3.proxies[id].deleting && v3.proxies[id].annotations == w.proxies[id].annotations
    requires v3.clusters == w.clusters && v3.releases == r.releases
    requires Standing(v3, id, w.proxies[id], AfterHelm(MarkNameGenerated(local), r.outcome), FinishRelease)
    requires v3.history.log == w.history.log + [Applied(id, Call(local.spec, r.outcome))]
    ensures id in v3.releaseJobs && v == StepRelease(v3, id, v3.releaseJobs[id], e)
    ensures CameTo(w, id, r, v)
  {
    hide StepRelease, AfterHelm, MarkNameGenerated;
    OutcomeOnProxy(local, r.outcome);
    var after := AfterHelm(MarkNameGenerated(local), r.outcome);
    OutcomeIsRecorded(v3, id, w.proxies[id], after, e);
    v := StepRelease(v3, id, v3.releaseJobs[id], e);
  }

  lemma OneCall(v: World, id: ProxyId, base: ReleaseProxy, local: ReleaseProxy, e: ReleaseEnv) returns (v': World)
    requires Standing(v, id, base, local, CallHelm) && local.spec == base.spec && base.spec.cluster in v.clusters
    requires base.spec.strategy == InstallOnce ==> local.annotations.installed.None?
    ensures v' == StepRelease(v, id, v.releaseJobs[id], e)
    ensures var r := InstallOrUpgrade(v.releases, base.spec, e.helm);
      && v'.proxies == v.proxies && v'.clusters == v.clusters && v'.releases == r.releases
      && Standing(v', id, base, AfterHelm(MarkNameGenerated(local), r.outcome), FinishRelease)
      && v'.history.log == v.history.log + [Applied(id, Call(base.spec, r.outcome))]
  {
    var j := v.releaseJobs[id];
    HelmCalled(v, id, base, local, e);
    v' := StepRelease(v, id, j, e);
    StepOf(v, id, j, e);
    hide StepRelease, InstallOrUpgrade, AfterHelm, MarkNameGenerated, Stakes;
    assert StepCallHelm(v, id, j, e) == AfterCall(v, id, j, HelmResult(v, j.local.spec, e.helm));
  }

  lemma WorkIsSmooth(env: ReleasePc -> ReleaseEnv)
    requires WorksThroughout(env)
    ensures Smooth(env)
  {
    assert Works(env(PatchConditions)) && Works(env(PatchFinalizer)) && Works(env(GetCluster)) &&
           Works(env(FinishRelease));
  }

  /** Such a reconcile exists from every state the invariant allows. */
  lemma HealthyReconcile(w: World, urlOk: string -> bool, id: ProxyId, env: ReleasePc -> ReleaseEnv)
    returns (v: World)
    requires Inv(w, urlOk) && Installable(w, id) && id !in w.releaseJobs && WorksThroughout(env)
    ensures OnTheWay(Begun(w, id), id, env, v) && Inv(v, urlOk)
    ensures CameTo(w, id, InstallOrUpgrade(w.releases, w.proxies[id].spec, env(CallHelm).helm), v)
  {
    hide Inv, OnTheWay, InstallOrUpgrade, Begun, CameTo;
    WorkIsSmooth(env);
    v := SmoothReconcile(w, urlOk, id, env);
  }

  /* ---- every such reconcile ---- */

  lemma {:induction false} StaysEnded(w: World, id: ProxyId, env: ReleasePc -> ReleaseEnv, m: nat, n: nat)
    requires m <= n && id !in Through(w, id, env, m).releaseJobs
    ensures Through(w, id, env, n) == Through(w, id, env, m)
  {
    hide StepRelease;
    if m < n {
      StaysEnded(w, id, env, m, n - 1);
    }
  }

  /** A reconcile in a fixed environment has one end. */
  lemma EndIsUnique(w: World, id: ProxyId, env: ReleasePc -> ReleaseEnv, v: World, u: World)
    requires OnTheWay(w, id, env, v) && id !in v.releaseJobs
    requires OnTheWay(w, id, env, u) && id !in u.releaseJobs
    ensures v == u
  {
    hide StepRelease;
    var m: nat :| v == Through(w, id, env, m);
    var n: nat :| u == Through(w, id, env, n);
    if m <= n {
      StaysEnded(w, id, env, m, n);
    } else {
      StaysEnded(w, id, env, n, m);
    }
  }

  /** An uninterrupted reconcile from `w` to `v`, in which nothing fails. */
  ghost predicate Reconciled(w: World, id: ProxyId, env: ReleasePc -> ReleaseEnv, v: World) {
    id !in w.releaseJobs && WorksThroughout(env) && OnTheWay(Begun(w, id), id, env, v) && id !in v.releaseJobs
  }

  /** What every reconcile comes to whose calls to the API server, the cluster and the Secrets do
      not fail, under any strategy. */
  lemma EverySmoothReconcile(w: World, urlOk: string -> bool, id: ProxyId, env: ReleasePc -> ReleaseEnv, v: World)
    requires Inv(w, urlOk) && Answers(w, id) && id !in w.releaseJobs && Smooth(env)
    requires w.proxies[id].spec.strategy == InstallOnce ==> w.proxies[id].annotations.installed.None?
    requires OnTheWay(Begun(w, id), id, env, v) && id !in v.releaseJobs
    ensures Inv(v, urlOk)
    ensures CameTo(w, id, InstallOrUpgrade(w.releases, w.proxies[id].spec, env(CallHelm).helm), v)
  {
    hide Inv, Answers, OnTheWay, InstallOrUpgrade, ReadyNow, Begun;
    var u := SmoothReconcile(w, urlOk, id, env);
    EndIsUnique(Begun(w, id), id, env, v, u);
  }

  /** The proxy's cluster can be worked on: it is there, its control plane is not known to be
      uninitialised, and kubeconfig and Secrets are found. */
  ghost predicate Reaches(w: World, c: ObjectKey, e: ReleaseEnv) {
    && e.apiOk && c in w.clusters && w.clusters[c].controlPlaneInitialized != Some(false)
    && e.kubeconfigOk && e.secretsOk
  }

  lemma UnreachableReconcile(w: World, urlOk: string -> bool, id: ProxyId, env: ReleasePc -> ReleaseEnv)
    returns (v: World)
    requires Inv(w, urlOk) && Alive(w, id) && id !in w.releaseJobs && PatchesLand(env)
    requires !Reaches(w, w.proxies[id].spec.cluster, env(GetCluster))
    ensures OnTheWay(Begun(w, id), id, env, v) && id !in v.releaseJobs
    ensures v.history.log == w.history.log && v.releases == w.releases && Alive(v, id)
    ensures var p, q := w.proxies[id], v.proxies[id];
      && q.spec == p.spec && q.annotations == p.annotations
      && q.status.clusterAvailable == IsFalse && q.status.ready == IsFalse
  {
    var base := w.proxies[id];
    hide Inv, OnTheWay, StepRelease, StartRelease, Begun, InitConditions;
    var v1, local := ReachesCluster(w, urlOk, id, env);
    ClusterLookedUp(v1, id, base, local, env(GetCluster));
    StepOf(v1, id, v1.releaseJobs[id], env(GetCluster));
    OneStepOn(Begun(w, id), id, env, v1);
    var v2 := StepRelease(v1, id, v1.releaseJobs[id], env(GetCluster));
    OutcomeIsRecorded(v2, id, base, ReleaseFlow.SetClusterAvailable(local, IsFalse), env(FinishRelease));
    OneStepOn(Begun(w, id), id, env, v2);
    v := StepRelease(v2, id, v2.releaseJobs[id], env(FinishRelease));
  }

  /** No cluster, no call: Helm is called by a reconcile if and only if the cluster can be worked
      on; otherwise the proxy is stored as not Ready for want of its cluster. */
  lemma CallsHelmExactlyWhen(w: World, urlOk: string -> bool, id: ProxyId, env: ReleasePc -> ReleaseEnv, v: World)
    requires Inv(w, urlOk) && Alive(w, id) && id !in w.releaseJobs && PatchesLand(env)
    requires w.proxies[id].spec.strategy == InstallOnce ==> w.proxies[id].annotations.installed.None?
    requires OnTheWay(Begun(w, id), id, env, v) && id !in v.releaseJobs
    ensures v.history.log != w.history.log <==> Reaches(w, w.proxies[id].spec.cluster, env(GetCluster))
    ensures |v.history.log| <= |w.history.log| + 1 && Alive(v, id)
    ensures v.history.log == w.history.log ==> v.releases == w.releases
    ensures v.proxies[id].status.clusterAvailable == (if v.history.log == w.history.log then IsFalse else IsTrue)
    ensures v.history.log == w.history.log ==> v.proxies[id].status.ready == IsFalse
  {
    hide Inv, OnTheWay, InstallOrUpgrade, ReadyNow, Begun;
    if Reaches(w, w.proxies[id].spec.cluster, env(GetCluster)) {
      EverySmoothReconcile(w, urlOk, id, env, v);
    } else {
      var u := UnreachableReconcile(w, urlOk, id, env);
      EndIsUnique(Begun(w, id), id, env, v, u);
    }
  }

  /** What every reconcile without a failure comes to. */
  lemma EveryHealthyReconcile(w: World, urlOk: string -> bool, id: ProxyId, env: ReleasePc -> ReleaseEnv, v: World)
    requires Inv(w, urlOk) && Installable(w, id) && Reconciled(w, id, env, v)
    ensures Inv(v, urlOk) && Installable(v, id)
    ensures CameTo(w, id, InstallOrUpgrade(w.releases, w.proxies[id].spec, env(CallHelm).helm), v)
  {
    hide Inv, OnTheWay, InstallOrUpgrade, ReadyNow, Begun;
    WorkIsSmooth(env);
    EverySmoothReconcile(w, urlOk, id, env, v);
  }

  /** One reconcile in which nothing fails makes a serviceable proxy Ready at its generation,
      with its release deployed at the located version and with its values. */
  lemma HealthyReconcileMakesReady(w: World, urlOk: string -> bool, id: ProxyId, env: ReleasePc -> ReleaseEnv, v: World)
    requires Inv(w, urlOk) && Serviceable(w, id) && Workable(w.releases, w.proxies[id].spec)
    requires Reconciled(w, id, env, v)
    ensures Inv(v, urlOk) && Serviceable(v, id)
    ensures v.proxies[id].spec == w.proxies[id].spec && ReadyNow(v.proxies[id])
    ensures v.proxies[id].status.helmStatus == Some(Deployed)
    ensures Installed(v.releases, w.proxies[id].spec, env(CallHelm).helm)
  {
    hide Inv, ReadyNow, InstallOrUpgrade, OnTheWay, Begun;
    assert Works(env(CallHelm));
    HealthyCallInstalls(w.releases, w.proxies[id].spec, env(CallHelm).helm);
    EveryHealthyReconcile(w, urlOk, id, env, v);
  }

  /** What is stored before a call and makes HelmReleaseReady true after it: anything but a
      pending release that is otherwise as requested, and, unless the condition was true before,
      a release as requested in a status that the controller ignores. */
  predicate BecomesReady(releases: map<ReleaseKey, Release>, spec: ReleaseSpec, env: HelmEnv, before: Condition)
    requires env.located.Some?
  {
    KeyOf(spec) in releases ==>
      var r := releases[KeyOf(spec)];
      var settled := ShouldUpgrade(env.norm, r, env.located.value, spec.values) == UpToDate;
      settled ==> !r.status.IsPending() && (r.status.IsUnhandled() ==> before == IsTrue)
  }

  lemma ReadyAfterHealthyCall(releases: map<ReleaseKey, Release>, spec: ReleaseSpec, env: HelmEnv, before: Condition)
    requires spec.releaseName != "" && Healthy(env)
    requires KeyOf(spec) in releases ==> releases[KeyOf(spec)].version.Some?
    ensures ReadyAfter(before, InstallOrUpgrade(releases, spec, env).outcome) == IsTrue <==>
      BecomesReady(releases, spec, env, before)
  {
  }

  /** Exactly when a reconcile without a failure leaves a proxy Ready at its generation, by what
      was stored when it began. */
  lemma ReadyAfterReconcileExactlyWhen(w: World, urlOk: string -> bool, id: ProxyId, env: ReleasePc -> ReleaseEnv,
                                       v: World)
    requires Inv(w, urlOk) && Serviceable(w, id) && Reconciled(w, id, env, v)
    requires KeyOf(w.proxies[id].spec) in w.releases ==> w.releases[KeyOf(w.proxies[id].spec)].version.Some?
    ensures id in v.proxies && Works(env(CallHelm))
    ensures ReadyNow(v.proxies[id]) <==>
      BecomesReady(w.releases, w.proxies[id].spec, env(CallHelm).helm, w.proxies[id].status.releaseReady)
  {
    hide Inv, ReadyNow, InstallOrUpgrade, OnTheWay, Begun, BecomesReady;
    assert Works(env(CallHelm));
    var before := FirstReady(w.proxies[id].status);
    ReadyAfterHealthyCall(w.releases, w.proxies[id].spec, env(CallHelm).helm, before);
    EveryHealthyReconcile(w, urlOk, id, env, v);
    FirstConditionIsNoNews(w.releases, w.proxies[id], env(CallHelm).helm);
  }

  lemma FirstConditionIsNoNews(releases: map<ReleaseKey, Release>, p: ReleaseProxy, env: HelmEnv)
    requires env.located.Some?
    ensures BecomesReady(releases, p.spec, env, FirstReady(p.status)) ==
            BecomesReady(releases, p.spec, env, p.status.releaseReady)
  {
  }

  lemma HealthyCallUnblocks(releases: map<ReleaseKey, Release>, spec: ReleaseSpec, env: HelmEnv)
    requires spec.releaseName != "" && Healthy(env)
    requires KeyOf(spec) in releases && releases[KeyOf(spec)].status.IsPending() && releases[KeyOf(spec)].version.Some?
    ensures Workable(InstallOrUpgrade(releases, spec, env).releases, spec)
  {
  }

  /** On a release stuck in a pending status, two such reconciles do. */
  lemma PendingProxyRecovers(w: World, urlOk: string -> bool, id: ProxyId, env1: ReleasePc -> ReleaseEnv, v1: World,
                             env2: ReleasePc -> ReleaseEnv, v2: World)
    requires Inv(w, urlOk) && Serviceable(w, id)
    requires var key := KeyOf(w.proxies[id].spec);
      key in w.releases && w.releases[key].status.IsPending() && w.releases[key].version.Some?
    requires Reconciled(w, id, env1, v1) && Reconciled(v1, id, env2, v2)
    ensures id in v2.proxies && v2.proxies[id].spec == w.proxies[id].spec && ReadyNow(v2.proxies[id])
    ensures v2.proxies[id].status.helmStatus == Some(Deployed)
    ensures Installed(v2.releases, w.proxies[id].spec, env2(CallHelm).helm)
  {
    hide Inv, ReadyNow, InstallOrUpgrade, OnTheWay, Begun;
    assert Works(env1(CallHelm));
    HealthyCallUnblocks(w.releases, w.proxies[id].spec, env1(CallHelm).helm);
    EveryHealthyReconcile(w, urlOk, id, env1, v1);
    HealthyReconcileMakesReady(v1, urlOk, id, env2, v2);
  }

  /** A proxy without a release name: the first such reconcile installs the release under the
      generated name and records it, the second makes the proxy Ready. */
  lemma NamelessProxyBecomesReady(w: World, urlOk: string -> bool, id: ProxyId, env1: ReleasePc -> ReleaseEnv,
                                  v1: World, env2: ReleasePc -> ReleaseEnv, v2: World)
    requires Inv(w, urlOk) && Installable(w, id) && w.proxies[id].spec.releaseName == ""
    requires var name := env1(CallHelm).helm.generatedName;
      name != "" && KeyOf(w.proxies[id].spec).(name := name) !in w.releases
    requires Reconciled(w, id, env1, v1) && Reconciled(v1, id, env2, v2)
    ensures var spec := w.proxies[id].spec.(releaseName := env1(CallHelm).helm.generatedName);
      && id in v1.proxies && v1.proxies[id].spec == spec && Installed(v1.releases, spec, env1(CallHelm).helm)
      && id in v2.proxies && v2.proxies[id].spec == spec && Installed(v2.releases, spec, env2(CallHelm).helm)
      && ReadyNow(v2.proxies[id]) && v2.proxies[id].status.helmStatus == Some(Deployed)
  {
    hide Inv, ReadyNow, InstallOrUpgrade, OnTheWay, Begun;
    assert Works(env1(CallHelm));
    InstallsUnderTheName(w.releases, w.proxies[id].spec, env1(CallHelm).helm);
    EveryHealthyReconcile(w, urlOk, id, env1, v1);
    HealthyReconcileMakesReady(v1, urlOk, id, env2, v2);
  }
}
