/** The invariant of the whole machine, and its preservation by every action. */
module Invariant {
  import opened Types
  import opened Admission
  import opened Helm
  import opened Phases
  import opened ReleaseFlow
  import opened Machine
  import opened StoreInvariant
  import opened ReleaseInvariant
  import opened ContentInvariant
  import opened ClaimInvariant

  ghost predicate EventOk(e: Event) {
    e.Uninstalled? ==> e.spec.strategy != InstallOnce
  }

  ghost predicate LogOk(log: seq<Event>) {
    forall e <- log :: EventOk(e)
  }

  /** Every recorded call, and every call about to be recorded, was really made. */
  ghost predicate CallsLogged(h: History, jobs: map<ProxyId, ReleaseJob>) {
    && (forall id <- h.recorded :: Applied(id, h.recorded[id]) in h.log)
    && (forall id <- jobs :: jobs[id].call.Some? ==> Applied(id, jobs[id].call.value) in h.log)
  }

  ghost predicate LogInv(w: World) {
    LogOk(w.history.log) && CallsLogged(w.history, w.releaseJobs)
  }

  ghost predicate ReleaseSide(w: World) {
    JobsOk(w) && ContentInv(w) && ClaimInv(w) && LogInv(w)
  }

  ghost predicate Inv(w: World, urlOk: string -> bool) {
    StoreInv(w, urlOk) && ReleaseSide(w)
  }

  /** Two states that differ at most in the HelmChartProxies and their reconciles. */
  ghost predicate Alike(w: World, w': World) {
    && w'.proxies == w.proxies && w'.clock == w.clock && w'.history == w.history
    && w'.clusters == w.clusters && w'.releases == w.releases && w'.releaseJobs == w.releaseJobs
  }

  lemma AlikeKeepsReleaseSide(w: World, w': World)
    requires ReleaseSide(w) && Alike(w, w')
    ensures ReleaseSide(w')
  {
  }

  /* ---- chart reconciles ---- */

  /** The object an Update overwrites differs from the one written only in the spec: no
      recorded name, annotation, finalizer or status is lost to the chart controller. */
  lemma UpdateIsForeign(w: World, urlOk: string -> bool, key: ObjectKey, j: ChartJob)
    requires At(w, urlOk, key, j) && j.pc.UpdateProxy? && UpdateAccepted(w, j.pc.id, j.pc.proxy)
    ensures var p := w.proxies[j.pc.id];
      && p == j.pc.seen
      && ForeignWrite(p, Overwrite(p, j.pc.proxy))
      && Overwrite(p, j.pc.proxy) == p.(spec := Refresh(p.spec, key.namespace, j.base.spec, j.pc.proxy.spec.values))
  {
    JobIsOk(w, urlOk, key, j);
  }

  lemma DeleteKeepsReleaseSide(w: World, id: ProxyId)
    requires ReleaseSide(w)
    ensures ReleaseSide(DeleteProxy(w, id))
  {
    if id in w.proxies {
      ForeignKeepsReleaseSide(w, id, w.proxies[id].(deleting := true));
    }
  }

  lemma ForeignKeepsReleaseSide(w: World, id: ProxyId, q: ReleaseProxy)
    requires ReleaseSide(w)
    requires id in w.proxies && ForeignWrite(w.proxies[id], q)
    ensures ReleaseSide(WriteProxy(w, id, q))
  {
    ForeignWriteKeepsJobs(w, id, q);
    ForeignWriteKeepsContents(w, id, q);
    ForeignWriteKeepsClaims(w, id, q);
  }

  lemma CreateKeepsReleaseSide(w: World, urlOk: string -> bool, key: ObjectKey, j: ChartJob)
    requires Inv(w, urlOk) && At(w, urlOk, key, j) && j.pc.CreateProxy?
    ensures ReleaseSide(Created(w, key, j.pc.cluster, j.base.spec, j.pc.proxy))
  {
    CreateKeepsContents(w, urlOk, key, j);
    CreateKeepsClaims(w, urlOk, key, j);
    var w' := Created(w, key, j.pc.cluster, j.base.spec, j.pc.proxy);
    forall i <- w'.releaseJobs ensures ReleaseJobOk(w'.proxies, w'.clock, i, w'.releaseJobs[i]) {
      assert ReleaseJobOk(w.proxies, w.clock, i, w.releaseJobs[i]);
    }
  }

  /** The proxy a step of a chart reconcile deletes, at the points where it deletes one. */
  function Victim(j: ChartJob, e: ChartEnv): ProxyId {
    if j.pc.DeleteForReinstall? then j.pc.id else e.id
  }

  /** What a step of a chart reconcile does outside its own bookkeeping: nothing, or one
      delete, one create or one update of a proxy. */
  ghost predicate ChartEffect(w: World, j: ChartJob, key: ObjectKey, e: ChartEnv, w': World) {
    || Alike(w, w')
    || ((j.pc.DeleteOrphans? || j.pc.DeleteForReinstall? || j.pc.Teardown?) && Alike(DeleteProxy(w, Victim(j, e)), w'))
    || (j.pc.CreateProxy? && Alike(Created(w, key, j.pc.cluster, j.base.spec, j.pc.proxy), w'))
    || (j.pc.UpdateProxy? && UpdateAccepted(w, j.pc.id, j.pc.proxy) &&
        Alike(WriteProxy(w, j.pc.id, Overwrite(w.proxies[j.pc.id], j.pc.proxy)), w'))
  }

  lemma GotoAlike(w: World, key: ObjectKey, j: ChartJob, pc: ChartPc)
    ensures Alike(w, Goto(w, key, j, pc))
  {
  }

  lemma LookupAlike(w: World, key: ObjectKey, j: ChartJob, todo: map<ObjectKey, Cluster>, e: ChartEnv,
                     found: set<ProxyId>)
    requires found <= w.proxies.Keys
    ensures Alike(w, Lookup(w, key, j, todo, e, found))
  {
    if found == {} {
      ActAlike(w, key, j, todo, e, None);
    } else if found == {e.id} {
      ActAlike(w, key, j, todo, e, Some(e.id));
    }
  }

  lemma ActAlike(w: World, key: ObjectKey, j: ChartJob, todo: map<ObjectKey, Cluster>, e: ChartEnv,
                 found: Option<ProxyId>)
    requires found.Some? ==> found.value in w.proxies
    ensures Alike(w, Act(w, key, j, todo, e, found))
  {
    assert Alike(w, w);
    hide Alike, Goto, Decide;
    var existing := if found.Some? then Some(w.proxies[found.value]) else None;
    match Decide(key, j.base.spec, e.cluster, existing, e.rendered)
    case Leave => GotoAlike(w, key, j, NextCluster(todo));
    case Reinstall =>
      if found.Some? {
        GotoAlike(w, key, j, DeleteForReinstall(todo, found.value));
      }
    case RenderFailed => GotoAlike(w, key, SetUpToDate(j, IsFalse), FinishChart);
    case Create(p) => GotoAlike(w, key, j, CreateProxy(todo, e.cluster, p));
    case Update(p) =>
      if found.Some? {
        GotoAlike(w, key, j, UpdateProxy(todo, found.value, existing.value, p));
      }
  }

  lemma DeletingStepEffect(w: World, key: ObjectKey, j: ChartJob, e: ChartEnv)
    ensures j.pc.DeleteOrphans? ==> ChartEffect(w, j, key, e, StepDeleteOrphans(w, key, j, e))
    ensures j.pc.DeleteForReinstall? ==> ChartEffect(w, j, key, e, StepDeleteForReinstall(w, key, j, e))
    ensures j.pc.Teardown? ==> ChartEffect(w, j, key, e, StepTeardown(w, key, j, e))
  {
    if j.pc.DeleteOrphans? {
      if j.pc.orphans != {} && e.id in j.pc.orphans && e.apiOk {
        GotoAlike(DeleteProxy(w, e.id), key, j, j.pc.(orphans := j.pc.orphans - {e.id}));
      }
    } else if j.pc.DeleteForReinstall? {
      if e.apiOk {
        GotoAlike(DeleteProxy(w, j.pc.id), key, SetUpToDate(j, IsFalse), NextCluster(j.pc.todo));
      }
    } else if j.pc.Teardown? {
      if j.pc.todelete != {} && e.id in j.pc.todelete && e.apiOk {
        GotoAlike(DeleteProxy(w, e.id), key, j, TeardownCheck(j.pc.todelete - {e.id}, j.pc.waiting, j.pc.ready, e.id));
      }
    }
  }

  lemma NextClusterEffect(w: World, key: ObjectKey, j: ChartJob, e: ChartEnv)
    requires j.pc.NextCluster?
    ensures Alike(w, StepNextCluster(w, key, j, e))
  {
    if j.pc.todo.Keys != {} && e.cluster in j.pc.todo {
      LookupAlike(w, key, j, j.pc.todo - {e.cluster}, e, PairIds(w.proxies, key, e.cluster));
    }
  }

  lemma ListClustersEffect(w: World, key: ObjectKey, j: ChartJob, e: ChartEnv)
    ensures Alike(w, StepListClusters(w, key, j, e))
  {
    if !e.apiOk || !SelectorParses(j.base.spec.selector) {
    } else {
    }
  }

  lemma ListReleasesEffect(w: World, key: ObjectKey, j: ChartJob, e: ChartEnv)
    requires j.pc.ListReleases?
    ensures Alike(w, StepListReleases(w, key, j, e))
  {
    if !e.apiOk {
    } else if !j.base.deleting && !j.base.finalizer {
    } else if !j.base.deleting {
    } else if j.base.finalizer {
    } else {
    }
  }

  lemma CheckingEffect(w: World, key: ObjectKey, j: ChartJob, e: ChartEnv)
    ensures j.pc.TeardownCheck? ==> Alike(w, StepTeardownCheck(w, key, j, e))
    ensures Alike(w, StepAggregate(w, key, j, e))
  {
    if !e.apiOk {
    } else {
    }
  }

  lemma ChartPatchEffect(w: World, key: ObjectKey, j: ChartJob, e: ChartEnv)
    ensures j.pc.AddFinalizer? ==> Alike(w, StepAddFinalizer(w, key, j, e))
    ensures Alike(w, StepDropFinalizer(w, key, j, e))
    ensures Alike(w, StepFinishChart(w, key, j, e))
  {
    if e.apiOk && key in w.charts {
      assert Alike(w, PatchChart(w, key, j));
    }
  }

  lemma WritingStepEffect(w: World, urlOk: string -> bool, key: ObjectKey, j: ChartJob, e: ChartEnv)
    ensures j.pc.CreateProxy? ==> ChartEffect(w, j, key, e, StepCreateProxy(w, urlOk, key, j, e))
    ensures j.pc.UpdateProxy? ==> ChartEffect(w, j, key, e, StepUpdateProxy(w, key, j, e))
  {
    if j.pc.CreateProxy? {
      GotoAlike(Created(w, key, j.pc.cluster, j.base.spec, j.pc.proxy), key, j, NextCluster(j.pc.todo));
      GotoAlike(w, key, SetUpToDate(j, IsFalse), FinishChart);
    } else if j.pc.UpdateProxy? {
      GotoAlike(w, key, SetUpToDate(j, IsFalse), FinishChart);
      if UpdateAccepted(w, j.pc.id, j.pc.proxy) {
        GotoAlike(WriteProxy(w, j.pc.id, Overwrite(w.proxies[j.pc.id], j.pc.proxy)), key, j, NextCluster(j.pc.todo));
      }
    }
  }

  lemma ChartStepEffect(w: World, urlOk: string -> bool, key: ObjectKey, j: ChartJob, e: ChartEnv)
    ensures ChartEffect(w, j, key, e, StepChart(w, urlOk, key, j, e))
  {
    match j.pc
    case ListClusters => ListClustersEffect(w, key, j, e);
    case ListReleases(_) => ListReleasesEffect(w, key, j, e);
    case AddFinalizer(_, _) => ChartPatchEffect(w, key, j, e);
    case DeleteOrphans(_, _) => DeletingStepEffect(w, key, j, e);
    case NextCluster(_) => NextClusterEffect(w, key, j, e);
    case DeleteForReinstall(_, _) => DeletingStepEffect(w, key, j, e);
    case CreateProxy(_, _, _) => WritingStepEffect(w, urlOk, key, j, e);
    case UpdateProxy(_, _, _, _) => WritingStepEffect(w, urlOk, key, j, e);
    case AggregateReady => CheckingEffect(w, key, j, e);
    case Teardown(_, _, _) => DeletingStepEffect(w, key, j, e);
    case TeardownCheck(_, _, _, _) => CheckingEffect(w, key, j, e);
    case DropFinalizer => ChartPatchEffect(w, key, j, e);
    case FinishChart => ChartPatchEffect(w, key, j, e);
  }

  lemma ChartStepKeepsInv(w: World, urlOk: string -> bool, key: ObjectKey, e: ChartEnv)
    requires Inv(w, urlOk) && key in w.chartJobs
    ensures Inv(StepChart(w, urlOk, key, w.chartJobs[key], e), urlOk)
  {
    hide StoreInv, ReleaseSide, StepChart;
    var j := w.chartJobs[key];
    var w' := StepChart(w, urlOk, key, j, e);
    ChartStepKeepsStoreInv(w, urlOk, key, e);
    ChartStepEffect(w, urlOk, key, j, e);
    if Alike(w, w') {
      AlikeKeepsReleaseSide(w, w');
    } else if j.pc.DeleteOrphans? || j.pc.DeleteForReinstall? || j.pc.Teardown? {
      DeleteKeepsReleaseSide(w, Victim(j, e));
      AlikeKeepsReleaseSide(DeleteProxy(w, Victim(j, e)), w');
    } else if j.pc.CreateProxy? {
      CreateKeepsReleaseSide(w, urlOk, key, j);
      AlikeKeepsReleaseSide(Created(w, key, j.pc.cluster, j.base.spec, j.pc.proxy), w');
    } else {
      UpdateIsForeign(w, urlOk, key, j);
      var q := Overwrite(w.proxies[j.pc.id], j.pc.proxy);
      ForeignKeepsReleaseSide(w, j.pc.id, q);
      AlikeKeepsReleaseSide(WriteProxy(w, j.pc.id, q), w');
    }
  }

  /* ---- release reconciles ---- */

  /** A patch of a release reconcile keeps the object's role. */
  lemma PatchKeepsRole(w: World, id: ProxyId, j: ReleaseJob)
    requires InFlight(w, id, j) && id in w.proxies
    ensures SameRole(w.proxies[id], MergePatch(w.proxies[id], j.base, j.local))
  {
    assert ReleaseJobOk(w.proxies, w.clock, id, j);
    if j.call.None? {
      QuietPatch(w.proxies[id], j);
    } else {
      FullPatch(w.proxies[id], j);
    }
  }

  lemma StoreInvDependsOn(w: World, w': World, urlOk: string -> bool)
    requires StoreInv(w, urlOk)
    requires w'.charts == w.charts && w'.proxies == w.proxies && w'.clock == w.clock && w'.chartJobs == w.chartJobs
    ensures StoreInv(w', urlOk)
  {
  }

  lemma ReleaseStepKeepsStoreInv(w: World, urlOk: string -> bool, id: ProxyId, j: ReleaseJob, e: ReleaseEnv)
    requires StoreInv(w, urlOk) && InFlight(w, id, j)
    ensures StoreInv(StepRelease(w, id, j, e), urlOk)
  {
    assert ReleaseJobOk(w.proxies, w.clock, id, j);
    var w' := StepRelease(w, id, j, e);
    if Patches(j.pc) && e.apiOk && id in w.proxies {
      PatchStepsWrite(w, id, j, e);
      PatchKeepsRole(w, id, j);
      WriteKeepsStoreInv(w, urlOk, id, MergePatch(w.proxies[id], j.base, j.local));
      StoreInvDependsOn(PatchProxy(w, id, j), w', urlOk);
    } else {
      OtherStepsWriteNothing(w, id, j, e);
      StoreInvDependsOn(w, w', urlOk);
    }
  }

  lemma JumpKeepsLog(w: World, id: ProxyId, j: ReleaseJob, pc: ReleasePc)
    requires LogInv(w) && (j.call.Some? ==> Applied(id, j.call.value) in w.history.log)
    ensures LogInv(Jump(w, id, j, pc))
  {
  }

  lemma HelmWritesKeepLog(w: World, releases: map<ReleaseKey, Release>, event: Event, claims: Claims)
    requires LogInv(w) && EventOk(event)
    ensures LogInv(HelmWrites(w, releases, event, claims))
    ensures event in HelmWrites(w, releases, event, claims).history.log
  {
    var w' := HelmWrites(w, releases, event, claims);
    assert w'.history.log[|w.history.log|] == event;
    forall e <- w.history.log ensures e in w'.history.log {
      var i :| 0 <= i < |w.history.log| && w.history.log[i] == e;
      assert w'.history.log[i] == e;
    }
  }

  lemma UninstallKeepsLog(w: World, id: ProxyId, j: ReleaseJob, e: ReleaseEnv)
    requires LogInv(w) && InFlight(w, id, j) && j.pc.Uninstall?
    ensures LogInv(StepUninstall(w, id, j, e))
  {
    assert ReleaseJobOk(w.proxies, w.clock, id, j);
    var spec := j.base.spec;
    var failed := j.(local := SetReleaseReady(j.local, IsFalse));
    if spec.strategy == InstallOnce {
      JumpKeepsLog(w, id, ReleaseFinalizer(j), UnpatchFinalizer);
    } else if spec.releaseName == "" {
      JumpKeepsLog(w, id, ReleaseGone(j), UnpatchFinalizer);
    } else if spec.cluster !in w.clusters || e.helm.getFails {
      JumpKeepsLog(w, id, failed, FinishRelease);
    } else if KeyOf(spec) !in w.releases {
      JumpKeepsLog(w, id, ReleaseGone(j), UnpatchFinalizer);
    } else if !e.uninstallOk {
      JumpKeepsLog(w, id, failed, FinishRelease);
    } else {
      var releases, claims := AfterUninstall(w.releases, KeyOf(spec), e.keepHistory), w.history.claims - {KeyOf(spec)};
      HelmWritesKeepLog(w, releases, Event.Uninstalled(id, spec), claims);
      JumpKeepsLog(HelmWrites(w, releases, Event.Uninstalled(id, spec), claims), id, ReleaseGone(j), UnpatchFinalizer);
    }
  }

  lemma AfterCallKeepsLog(w: World, id: ProxyId, j: ReleaseJob, r: CallResult)
    requires LogInv(w)
    ensures LogInv(AfterCall(w, id, j, r))
  {
    var call := Call(j.local.spec, r.outcome);
    var claims := Stakes(w, id, j.local.spec, r.releases);
    HelmWritesKeepLog(w, r.releases, Applied(id, call), claims);
    JumpKeepsLog(HelmWrites(w, r.releases, Applied(id, call), claims), id,
                 j.(local := AfterHelm(MarkNameGenerated(j.local), r.outcome), call := Some(call)), FinishRelease);
  }

  lemma PatchStepsKeepLog(w: World, id: ProxyId, j: ReleaseJob, e: ReleaseEnv)
    requires LogInv(w) && InFlight(w, id, j)
    ensures LogInv(StepPatchConditions(w, id, j, e))
    ensures LogInv(StepPatchFinalizer(w, id, j, e))
    ensures LogInv(StepUnpatchFinalizer(w, id, j, e))
  {
    var w1 := if e.apiOk && id in w.proxies then PatchProxy(w, id, j) else w;
    assert LogInv(w1);
    var b := Branch(j.base, j.local);
    assert b.(pc := b.pc) == b;
    JumpKeepsLog(w1, id, b, b.pc);
    JumpKeepsLog(w1, id, j, GetCluster);
    JumpKeepsLog(w1, id, j, FinishRelease);
  }

  lemma ClusterStepsKeepLog(w: World, id: ProxyId, j: ReleaseJob, e: ReleaseEnv)
    requires LogInv(w) && InFlight(w, id, j)
    ensures LogInv(StepGetCluster(w, id, j, e))
    ensures LogInv(StepGetClusterForDelete(w, id, j, e))
  {
    var up, down := SetClusterAvailable(j.local, IsTrue), SetClusterAvailable(j.local, IsFalse);
    JumpKeepsLog(w, id, j.(local := down), FinishRelease);
    JumpKeepsLog(w, id, j.(local := up), CallHelm);
    JumpKeepsLog(w, id, j.(local := up), Uninstall);
    JumpKeepsLog(w, id, ReleaseFinalizer(j), UnpatchFinalizer);
  }

  lemma FinishKeepsLog(w: World, id: ProxyId, j: ReleaseJob, e: ReleaseEnv)
    requires LogInv(w) && InFlight(w, id, j)
    ensures LogInv(StepFinishRelease(w, id, j, e))
  {
    hide MergePatch, Stamp, Put;
    var w' := StepFinishRelease(w, id, j, e);
    assert w'.history.log == w.history.log;
    forall i <- w'.history.recorded ensures Applied(i, w'.history.recorded[i]) in w'.history.log {
      if e.apiOk && id in w.proxies && i == id && j.call.Some? {
        assert w'.history.recorded[i] == j.call.value;
      } else {
        assert w'.history.recorded[i] == w.history.recorded[i];
      }
    }
  }

  lemma ReleaseStepKeepsLog(w: World, id: ProxyId, j: ReleaseJob, e: ReleaseEnv)
    requires LogInv(w) && InFlight(w, id, j)
    ensures LogInv(StepRelease(w, id, j, e))
  {
    match j.pc
    case PatchConditions => PatchStepsKeepLog(w, id, j, e);
    case PatchFinalizer => PatchStepsKeepLog(w, id, j, e);
    case GetCluster => ClusterStepsKeepLog(w, id, j, e);
    case CallHelm =>
      if j.local.spec.strategy == InstallOnce && HasBeenInstalled(Some(j.local)) {
        JumpKeepsLog(w, id, j, FinishRelease);
      } else {
        AfterCallKeepsLog(w, id, j, HelmResult(w, j.local.spec, e.helm));
      }
    case GetClusterForDelete => ClusterStepsKeepLog(w, id, j, e);
    case Uninstall => UninstallKeepsLog(w, id, j, e);
    case UnpatchFinalizer => PatchStepsKeepLog(w, id, j, e);
    case FinishRelease => FinishKeepsLog(w, id, j, e);
  }

  lemma ReleaseStepKeepsInv(w: World, urlOk: string -> bool, id: ProxyId, e: ReleaseEnv)
    requires Inv(w, urlOk) && id in w.releaseJobs
    ensures Inv(StepRelease(w, id, w.releaseJobs[id], e), urlOk)
  {
    hide StoreInv, ReleaseJobsOk, ContentInv, ClaimInv, LogInv, StepRelease;
    var j := w.releaseJobs[id];
    ReleaseStepKeepsStoreInv(w, urlOk, id, j, e);
    ReleaseStepKeepsJobs(w, id, j, e);
    ReleaseStepKeepsContents(w, id, j, e);
    ReleaseStepKeepsClaims(w, id, j, e);
    ReleaseStepKeepsLog(w, id, j, e);
  }

  lemma StartedJobOk(w: World, urlOk: string -> bool, id: ProxyId)
    requires Inv(w, urlOk) && id in w.proxies
    ensures ReleaseJobOk(w.proxies, w.clock, id, StartRelease(w.proxies[id]))
    ensures var j := StartRelease(w.proxies[id]); !Freeing(j) && j.call.None?
  {
    var p := w.proxies[id];
    assert ProxyOk(w.charts, w.clock, id, p) && ContentOk(w.history, id, p);
    StartShape(p);
  }

  lemma StartReleaseKeepsInv(w: World, urlOk: string -> bool, id: ProxyId)
    requires Inv(w, urlOk) && id in w.proxies && id !in w.releaseJobs
    ensures Inv(w.(releaseJobs := w.releaseJobs[id := StartRelease(w.proxies[id])]), urlOk)
  {
    StartedJobOk(w, urlOk, id);
    var j := StartRelease(w.proxies[id]);
    assert j.(pc := j.pc) == j;
    JumpKeepsJobs(w, id, j, j.pc);
    JumpKeepsClaims(w, id, j, j.pc);
    JumpKeepsLog(w, id, j, j.pc);
    StoreInvDependsOn(w, Jump(w, id, j, j.pc), urlOk);
    SameContents(Jump(w, id, j, j.pc), w.history);
  }

  lemma StartChartKeepsInv(w: World, urlOk: string -> bool, key: ObjectKey)
    requires Inv(w, urlOk) && key in w.charts && key !in w.chartJobs
    ensures Inv(w.(chartJobs := w.chartJobs[key := ChartJob(w.charts[key], w.charts[key], ListClusters)]), urlOk)
  {
    assert ChartOk(urlOk, w.charts[key]);
    var w' := w.(chartJobs := w.chartJobs[key := ChartJob(w.charts[key], w.charts[key], ListClusters)]);
    assert ChartJobOk(urlOk, w'.charts, w'.proxies, w'.clock, key, w'.chartJobs[key]);
    AlikeKeepsReleaseSide(w, w');
  }

  /* ---- all actions ---- */

  lemma CreateChartKeepsInv(w: World, urlOk: string -> bool, key: ObjectKey, spec: ChartSpec, paused: bool)
    requires Inv(w, urlOk)
    ensures Inv(StepCreateChart(w, urlOk, key, spec, paused), urlOk)
  {
    hide StoreInv, ReleaseSide, ValidateChartCreate;
    CreateChartKeepsStoreInv(w, urlOk, key, spec, paused);
    AlikeKeepsReleaseSide(w, StepCreateChart(w, urlOk, key, spec, paused));
  }

  lemma UpdateChartKeepsInv(w: World, urlOk: string -> bool, key: ObjectKey, spec: ChartSpec, paused: bool)
    requires Inv(w, urlOk)
    ensures Inv(StepUpdateChart(w, urlOk, key, spec, paused), urlOk)
  {
    hide StoreInv, ReleaseSide, ValidateChartUpdate;
    UpdateChartKeepsStoreInv(w, urlOk, key, spec, paused);
    AlikeKeepsReleaseSide(w, StepUpdateChart(w, urlOk, key, spec, paused));
  }

  lemma DeleteChartKeepsInv(w: World, urlOk: string -> bool, key: ObjectKey)
    requires Inv(w, urlOk)
    ensures Inv(StepDeleteChart(w, key), urlOk)
  {
    hide StoreInv, ReleaseSide;
    DeleteChartKeepsStoreInv(w, urlOk, key);
    AlikeKeepsReleaseSide(w, StepDeleteChart(w, key));
  }

  lemma ClusterChangeKeepsInv(w: World, urlOk: string -> bool, cluster: ObjectKey, state: Option<Cluster>)
    requires Inv(w, urlOk)
    ensures Inv(StepClusterChanges(w, cluster, state), urlOk)
  {
    var w' := StepClusterChanges(w, cluster, state);
    OutsideKeepsClaims(w, cluster, state, ReleaseKey(cluster, "", ""), None);
    if state.Some? {
      StoreInvDependsOn(w, w', urlOk);
      SameContents(w', w.history);
    } else {
      StoreInvDependsOn(w, w', urlOk);
      SameContents(w', w.history);
    }
  }

  lemma ReleaseChangeKeepsInv(w: World, urlOk: string -> bool, release: ReleaseKey, revision: Option<Release>)
    requires Inv(w, urlOk)
    ensures Inv(StepReleaseChanges(w, release, revision), urlOk)
  {
    var w' := StepReleaseChanges(w, release, revision);
    OutsideKeepsClaims(w, release.cluster, None, release, revision);
    if revision.Some? {
      StoreInvDependsOn(w, w', urlOk);
      SameContents(w', w.history);
    } else {
      StoreInvDependsOn(w, w', urlOk);
      SameContents(w', w.history);
    }
  }

  lemma CrashKeepsInv(w: World, urlOk: string -> bool, a: Action)
    requires Inv(w, urlOk) && (a.ChartCrash? || a.ReleaseCrash?)
    ensures Inv(Apply(w, urlOk, a), urlOk)
  {
    if a.ChartCrash? {
      AlikeKeepsReleaseSide(w, EndChart(w, a.key));
    } else {
      StoreInvDependsOn(w, EndRelease(w, a.id), urlOk);
      SameContents(EndRelease(w, a.id), w.history);
    }
  }

  /** Every action of every actor keeps the invariant. */
  lemma ApplyKeepsInv(w: World, urlOk: string -> bool, a: Action)
    requires Inv(w, urlOk)
    ensures Inv(Apply(w, urlOk, a), urlOk)
  {
    hide StoreInv, ReleaseSide;
    match a
    case CreateChart(key, spec, paused) => CreateChartKeepsInv(w, urlOk, key, spec, paused);
    case UpdateChart(key, spec, paused) => UpdateChartKeepsInv(w, urlOk, key, spec, paused);
    case DeleteChart(key) => DeleteChartKeepsInv(w, urlOk, key);
    case DeleteProxyByHand(id) =>
      DeleteKeepsStoreInv(w, urlOk, id);
      DeleteKeepsReleaseSide(w, id);
    case ClusterChanges(cluster, state) => ClusterChangeKeepsInv(w, urlOk, cluster, state);
    case ReleaseChanges(release, revision) => ReleaseChangeKeepsInv(w, urlOk, release, revision);
    case ChartReconcile(key, e) =>
      if key in w.chartJobs {
        ChartStepKeepsInv(w, urlOk, key, e);
      } else if key in w.charts {
        StartChartKeepsInv(w, urlOk, key);
      }
    case ReleaseReconcile(id, e) =>
      if id in w.releaseJobs {
        ReleaseStepKeepsInv(w, urlOk, id, e);
      } else if id in w.proxies {
        StartReleaseKeepsInv(w, urlOk, id);
      }
    case ChartCrash(_) => CrashKeepsInv(w, urlOk, a);
    case ReleaseCrash(_) => CrashKeepsInv(w, urlOk, a);
  }

  lemma {:induction false} RunKeepsInv(w: World, urlOk: string -> bool, actions: seq<Action>)
    requires Inv(w, urlOk)
    ensures Inv(Run(w, urlOk, actions), urlOk)
    decreases |actions|
  {
    if actions != [] {
      RunKeepsInv(w, urlOk, actions[..|actions| - 1]);
      ApplyKeepsInv(Run(w, urlOk, actions[..|actions| - 1]), urlOk, actions[|actions| - 1]);
    }
  }

  lemma InitHasInv(w: World, urlOk: string -> bool)
    requires Init(w, urlOk)
    ensures Inv(w, urlOk)
  {
  }

  /** Every reachable state satisfies the invariant. */
  lemma ReachableHasInv(w: World, urlOk: string -> bool)
    requires Reachable(w, urlOk)
    ensures Inv(w, urlOk)
  {
    var start, actions :| Init(start, urlOk) && w == Run(start, urlOk, actions);
    InitHasInv(start, urlOk);
    RunKeepsInv(start, urlOk, actions);
  }
}
