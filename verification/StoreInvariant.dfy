/** What every step keeps about the two kinds of proxies and the chart reconciles in flight:
    ownership, uniqueness, admission and the meaning of a resource version. */
module StoreInvariant {
  import opened Types
  import opened Phases
  import opened Machine

  function OwnerOf(p: ReleaseProxy): ObjectKey {
    ObjectKey(p.namespace, p.chartLabel)
  }

  /** The parts of a HelmReleaseProxy that nothing ever changes. */
  ghost predicate SameRole(p: ReleaseProxy, q: ReleaseProxy) {
    && q.namespace == p.namespace && q.chartLabel == p.chartLabel && q.clusterLabel == p.clusterLabel
    && q.spec.cluster == p.spec.cluster && q.spec.chart == p.spec.chart && q.spec.repoURL == p.spec.repoURL
    && q.spec.releaseNamespace == p.spec.releaseNamespace && q.spec.strategy == p.spec.strategy
  }

  ghost predicate ChartOk(urlOk: string -> bool, c: ChartProxy) {
    && urlOk(c.spec.repoURL) && c.spec.releaseNamespace != ""
    && (c.deleting ==> c.finalizer)
  }

  ghost predicate ChartsOk(urlOk: string -> bool, charts: map<ObjectKey, ChartProxy>) {
    forall k <- charts :: ChartOk(urlOk, charts[k])
  }

  ghost predicate ProxyOk(charts: map<ObjectKey, ChartProxy>, clock: nat, id: ProxyId, p: ReleaseProxy) {
    && id < clock && p.resourceVersion < clock
    && OwnerOf(p) in charts && charts[OwnerOf(p)].finalizer
    && p.spec.strategy == charts[OwnerOf(p)].spec.strategy
    && p.spec.cluster == ObjectKey(p.namespace, p.clusterLabel)
    && p.spec.releaseNamespace != ""
    && (p.deleting ==> p.finalizer)
  }

  ghost predicate ProxiesOk(charts: map<ObjectKey, ChartProxy>, proxies: Proxies, clock: nat) {
    forall id <- proxies :: ProxyOk(charts, clock, id, proxies[id])
  }

  ghost predicate SamePair(p: ReleaseProxy, q: ReleaseProxy) {
    p.namespace == q.namespace && p.chartLabel == q.chartLabel && p.clusterLabel == q.clusterLabel
  }

  ghost predicate OnePerPair(proxies: Proxies) {
    forall i, j | i in proxies && j in proxies && SamePair(proxies[i], proxies[j]) :: i == j
  }

  ghost predicate NoneLabelled(proxies: Proxies, key: ObjectKey) {
    forall id <- proxies :: !Labelled(proxies[id], key)
  }

  ghost predicate LabelledWithin(proxies: Proxies, key: ObjectKey, ids: set<ProxyId>) {
    forall id <- proxies :: Labelled(proxies[id], key) ==> id in ids
  }

  ghost predicate NoneForPair(proxies: Proxies, key: ObjectKey, cluster: ObjectKey) {
    forall id <- proxies :: !PairOf(proxies[id], key, cluster)
  }

  ghost predicate InNamespace(clusters: map<ObjectKey, Cluster>, key: ObjectKey) {
    forall c <- clusters :: c.namespace == key.namespace
  }

  /** A resource version names one content of an object. */
  ghost predicate VersionNames(proxies: Proxies, clock: nat, id: ProxyId, seen: ReleaseProxy) {
    && seen.resourceVersion < clock
    && (id in proxies && proxies[id].resourceVersion == seen.resourceVersion ==> proxies[id] == seen)
  }

  /** The points at which a chart reconcile works on clusters, its finalizer in place. */
  predicate Working(pc: ChartPc) {
    pc.DeleteOrphans? || pc.NextCluster? || pc.DeleteForReinstall? || pc.CreateProxy? || pc.UpdateProxy? ||
    pc.AggregateReady?
  }

  ghost predicate PcOk(proxies: Proxies, clock: nat, key: ObjectKey, j: ChartJob) {
    match j.pc
    case ListClusters => j.local.finalizer == j.base.finalizer
    case ListReleases(selected) => j.local.finalizer == j.base.finalizer && InNamespace(selected, key)
    case AddFinalizer(selected, _) => InNamespace(selected, key) && j.local.finalizer && !j.base.finalizer
    case DeleteOrphans(selected, _) => InNamespace(selected, key) && j.base.spec.strategy != InstallOnce
    case NextCluster(todo) => InNamespace(todo, key)
    case DeleteForReinstall(todo, _) => InNamespace(todo, key) && j.base.spec.strategy != InstallOnce
    case CreateProxy(todo, cluster, p) =>
      && InNamespace(todo, key) && cluster.namespace == key.namespace
      && NoneForPair(proxies, key, cluster)
      && p == NewProxy(key, j.base.spec, cluster, p.spec.values)
    case UpdateProxy(todo, id, seen, p) =>
      && InNamespace(todo, key)
      && VersionNames(proxies, clock, id, seen)
      && p == seen.(spec := Refresh(seen.spec, key.namespace, j.base.spec, p.spec.values))
      && seen.spec.strategy == j.base.spec.strategy && seen.spec.releaseNamespace != ""
      && (j.base.spec.strategy == InstallOnce ==> seen.annotations.installed.None?)
    case AggregateReady => true
    case Teardown(todelete, waiting, _) => j.base.finalizer && LabelledWithin(proxies, key, todelete + waiting)
    case TeardownCheck(todelete, waiting, _, id) =>
      j.base.finalizer && LabelledWithin(proxies, key, todelete + waiting + {id})
    case DropFinalizer => j.base.finalizer && !j.local.finalizer
    case FinishChart => true
  }

  ghost predicate ChartJobOk(
    urlOk: string -> bool, charts: map<ObjectKey, ChartProxy>, proxies: Proxies, clock: nat, key: ObjectKey,
    j: ChartJob)
  {
    && urlOk(j.base.spec.repoURL) && j.base.spec.releaseNamespace != ""
    && (key in charts ==> charts[key].spec.strategy == j.base.spec.strategy)
    && ((j.base.finalizer && j.local.finalizer) || Working(j.pc) ==> key in charts && charts[key].finalizer)
    && (j.base.finalizer && !j.local.finalizer ==> NoneLabelled(proxies, key))
    && (Working(j.pc) ==> j.local.finalizer)
    && PcOk(proxies, clock, key, j)
  }

  ghost predicate ChartJobsOk(
    urlOk: string -> bool, charts: map<ObjectKey, ChartProxy>, proxies: Proxies, clock: nat,
    jobs: map<ObjectKey, ChartJob>)
  {
    forall k <- jobs :: ChartJobOk(urlOk, charts, proxies, clock, k, jobs[k])
  }

  ghost predicate StoreInv(w: World, urlOk: string -> bool) {
    && ChartsOk(urlOk, w.charts)
    && ProxiesOk(w.charts, w.proxies, w.clock)
    && OnePerPair(w.proxies)
    && ChartJobsOk(urlOk, w.charts, w.proxies, w.clock, w.chartJobs)
  }

  /* ---- rewriting or removing one stored proxy ---- */

  lemma StampKeeps(p: ReleaseProxy, q: ReleaseProxy, clock: nat)
    requires SameRole(p, q)
    ensures var s := Stamp(p, q, clock);
      SameRole(p, s) && (s == p || s.resourceVersion == clock) && s.finalizer == q.finalizer && s.deleting == q.deleting
  {
  }

  lemma JobSurvivesWrite(
    urlOk: string -> bool, w: World, id: ProxyId, next: ReleaseProxy, key: ObjectKey, j: ChartJob)
    requires id in w.proxies && SameRole(w.proxies[id], next)
    requires ChartJobOk(urlOk, w.charts, w.proxies, w.clock, key, j)
    ensures var w' := WriteProxy(w, id, next); ChartJobOk(urlOk, w'.charts, w'.proxies, w'.clock, key, j)
  {
    StampKeeps(w.proxies[id], next, w.clock);
    var w' := WriteProxy(w, id, next);
    assert forall i <- w'.proxies :: i in w.proxies && SameRole(w.proxies[i], w'.proxies[i]);
  }

  /** Any rewrite of a stored proxy that keeps its role keeps the whole invariant. */
  lemma WriteKeepsStoreInv(w: World, urlOk: string -> bool, id: ProxyId, next: ReleaseProxy)
    requires StoreInv(w, urlOk)
    requires id in w.proxies && SameRole(w.proxies[id], next)
    ensures StoreInv(WriteProxy(w, id, next), urlOk)
  {
    StampKeeps(w.proxies[id], next, w.clock);
    var w' := WriteProxy(w, id, next);
    forall i <- w'.proxies ensures ProxyOk(w'.charts, w'.clock, i, w'.proxies[i]) {
      assert ProxyOk(w.charts, w.clock, i, w.proxies[i]);
    }
    forall k <- w'.chartJobs ensures ChartJobOk(urlOk, w'.charts, w'.proxies, w'.clock, k, w'.chartJobs[k]) {
      JobSurvivesWrite(urlOk, w, id, next, k, w.chartJobs[k]);
    }
  }

  lemma DeleteKeepsStoreInv(w: World, urlOk: string -> bool, id: ProxyId)
    requires StoreInv(w, urlOk)
    ensures StoreInv(DeleteProxy(w, id), urlOk)
  {
    if id in w.proxies {
      WriteKeepsStoreInv(w, urlOk, id, w.proxies[id].(deleting := true));
    }
  }

  /* ---- moving one chart reconcile on ---- */

  lemma GotoKeepsStoreInv(w: World, urlOk: string -> bool, key: ObjectKey, j: ChartJob, pc: ChartPc)
    requires StoreInv(w, urlOk)
    requires ChartJobOk(urlOk, w.charts, w.proxies, w.clock, key, j.(pc := pc))
    ensures StoreInv(Goto(w, key, j, pc), urlOk)
  {
  }

  /** A chart reconcile in flight, and the invariant it was left with. */
  ghost predicate At(w: World, urlOk: string -> bool, key: ObjectKey, j: ChartJob) {
    StoreInv(w, urlOk) && key in w.chartJobs && w.chartJobs[key] == j
  }

  lemma JobIsOk(w: World, urlOk: string -> bool, key: ObjectKey, j: ChartJob)
    requires At(w, urlOk, key, j)
    ensures ChartJobOk(urlOk, w.charts, w.proxies, w.clock, key, j)
  {
  }

  lemma GiveUpKeepsStoreInv(w: World, urlOk: string -> bool, key: ObjectKey, j: ChartJob)
    requires At(w, urlOk, key, j) && j.pc != DropFinalizer
    ensures StoreInv(Goto(w, key, j, FinishChart), urlOk)
    ensures StoreInv(Goto(w, key, SetUpToDate(j, IsFalse), FinishChart), urlOk)
  {
    JobIsOk(w, urlOk, key, j);
    GotoKeepsStoreInv(w, urlOk, key, j, FinishChart);
    GotoKeepsStoreInv(w, urlOk, key, SetUpToDate(j, IsFalse), FinishChart);
  }

  lemma ListClustersKeepsStoreInv(w: World, urlOk: string -> bool, key: ObjectKey, j: ChartJob, e: ChartEnv)
    requires At(w, urlOk, key, j) && j.pc.ListClusters?
    ensures StoreInv(StepListClusters(w, key, j, e), urlOk)
  {
    GiveUpKeepsStoreInv(w, urlOk, key, j);
    JobIsOk(w, urlOk, key, j);
    var selected := Selected(w.clusters, key, j.base.spec.selector);
    var j' := j.(local := j.local.(status := j.local.status.(matching := selected.Keys)));
    GotoKeepsStoreInv(w, urlOk, key, j', ListReleases(selected));
  }

  lemma AfterFinalizerKeepsStoreInv(
    w: World, urlOk: string -> bool, key: ObjectKey, j: ChartJob, selected: map<ObjectKey, Cluster>, listed: Proxies)
    requires StoreInv(w, urlOk)
    requires ChartJobOk(urlOk, w.charts, w.proxies, w.clock, key, j.(pc := FinishChart))
    requires InNamespace(selected, key) && key in w.charts && w.charts[key].finalizer && j.local.finalizer
    ensures StoreInv(Goto(w, key, j, WorkPc(j.base, selected, listed)), urlOk)
  {
    GotoKeepsStoreInv(w, urlOk, key, j, WorkPc(j.base, selected, listed));
  }

  lemma ListReleasesKeepsStoreInv(w: World, urlOk: string -> bool, key: ObjectKey, j: ChartJob, e: ChartEnv)
    requires At(w, urlOk, key, j) && j.pc.ListReleases?
    ensures StoreInv(StepListReleases(w, key, j, e), urlOk)
  {
    GiveUpKeepsStoreInv(w, urlOk, key, j);
    JobIsOk(w, urlOk, key, j);
    if e.apiOk {
      var listed := Listed(w.proxies, key);
      if !j.base.deleting {
        if j.base.finalizer {
          AfterFinalizerKeepsStoreInv(w, urlOk, key, j, j.pc.selected, listed);
        } else {
          GotoKeepsStoreInv(w, urlOk, key, SetChartFinalizer(j, true), AddFinalizer(j.pc.selected, listed));
        }
      } else if j.base.finalizer {
        GotoKeepsStoreInv(w, urlOk, key, j, Teardown(listed.Keys, {}, true));
      }
    }
  }

  lemma AddFinalizerKeepsStoreInv(w: World, urlOk: string -> bool, key: ObjectKey, j: ChartJob, e: ChartEnv)
    requires At(w, urlOk, key, j) && j.pc.AddFinalizer?
    ensures StoreInv(StepAddFinalizer(w, key, j, e), urlOk)
  {
    GiveUpKeepsStoreInv(w, urlOk, key, j);
    JobIsOk(w, urlOk, key, j);
    if e.apiOk && key in w.charts {
      PatchChartKeepsStoreInv(w, urlOk, key, j);
      var w1 := PatchChart(w, key, j);
      JobIsOk(w1, urlOk, key, j);
      AfterFinalizerKeepsStoreInv(w1, urlOk, key, j, j.pc.selected, j.pc.listed);
    }
  }

  lemma DeleteOneOrphan(w: World, urlOk: string -> bool, key: ObjectKey, j: ChartJob, id: ProxyId)
    requires At(w, urlOk, key, j) && j.pc.DeleteOrphans?
    ensures StoreInv(Goto(DeleteProxy(w, id), key, j, j.pc.(orphans := j.pc.orphans - {id})), urlOk)
  {
    DeleteKeepsStoreInv(w, urlOk, id);
    JobIsOk(DeleteProxy(w, id), urlOk, key, j);
    GotoKeepsStoreInv(DeleteProxy(w, id), urlOk, key, j, j.pc.(orphans := j.pc.orphans - {id}));
  }

  lemma DeleteOrphansKeepsStoreInv(w: World, urlOk: string -> bool, key: ObjectKey, j: ChartJob, e: ChartEnv)
    requires At(w, urlOk, key, j) && j.pc.DeleteOrphans?
    ensures StoreInv(StepDeleteOrphans(w, key, j, e), urlOk)
  {
    GiveUpKeepsStoreInv(w, urlOk, key, j);
    JobIsOk(w, urlOk, key, j);
    GotoKeepsStoreInv(w, urlOk, key, j, NextCluster(j.pc.selected));
    DeleteOneOrphan(w, urlOk, key, j, e.id);
  }

  lemma DeleteForReinstallKeepsStoreInv(w: World, urlOk: string -> bool, key: ObjectKey, j: ChartJob, e: ChartEnv)
    requires At(w, urlOk, key, j) && j.pc.DeleteForReinstall?
    ensures StoreInv(StepDeleteForReinstall(w, key, j, e), urlOk)
  {
    GiveUpKeepsStoreInv(w, urlOk, key, j);
    DeleteKeepsStoreInv(w, urlOk, j.pc.id);
    JobIsOk(DeleteProxy(w, j.pc.id), urlOk, key, j);
    GotoKeepsStoreInv(DeleteProxy(w, j.pc.id), urlOk, key, SetUpToDate(j, IsFalse), NextCluster(j.pc.todo));
  }

  lemma DeleteOneTorn(w: World, urlOk: string -> bool, key: ObjectKey, j: ChartJob, id: ProxyId)
    requires At(w, urlOk, key, j) && j.pc.Teardown? && id in j.pc.todelete
    ensures StoreInv(Goto(DeleteProxy(w, id), key, j,
                          TeardownCheck(j.pc.todelete - {id}, j.pc.waiting, j.pc.ready, id)), urlOk)
  {
    DeleteKeepsStoreInv(w, urlOk, id);
    assert At(DeleteProxy(w, id), urlOk, key, j);
    hide StoreInv, DeleteProxy;
    JobIsOk(DeleteProxy(w, id), urlOk, key, j);
    assert j.pc.todelete - {id} + j.pc.waiting + {id} == j.pc.todelete + j.pc.waiting;
    GotoKeepsStoreInv(DeleteProxy(w, id), urlOk, key, j,
                      TeardownCheck(j.pc.todelete - {id}, j.pc.waiting, j.pc.ready, id));
  }

  lemma TeardownKeepsStoreInv(w: World, urlOk: string -> bool, key: ObjectKey, j: ChartJob, e: ChartEnv)
    requires At(w, urlOk, key, j) && j.pc.Teardown?
    ensures StoreInv(StepTeardown(w, key, j, e), urlOk)
  {
    hide StoreInv, DeleteProxy;
    GiveUpKeepsStoreInv(w, urlOk, key, j);
    JobIsOk(w, urlOk, key, j);
    if j.pc.todelete == {} {
      if j.pc.waiting == {} {
        assert NoneLabelled(w.proxies, key);
        GotoKeepsStoreInv(w, urlOk, key, SetChartFinalizer(j, false), DropFinalizer);
      } else {
        GotoKeepsStoreInv(w, urlOk, key, SetProxiesReady(j, if j.pc.ready then IsTrue else IsFalse), FinishChart);
      }
    } else if e.id in j.pc.todelete {
      DeleteOneTorn(w, urlOk, key, j, e.id);
    }
  }

  lemma TeardownCheckKeepsStoreInv(w: World, urlOk: string -> bool, key: ObjectKey, j: ChartJob, e: ChartEnv)
    requires At(w, urlOk, key, j) && j.pc.TeardownCheck?
    ensures StoreInv(StepTeardownCheck(w, key, j, e), urlOk)
  {
    hide StoreInv;
    GiveUpKeepsStoreInv(w, urlOk, key, j);
    JobIsOk(w, urlOk, key, j);
    if j.pc.id in w.proxies {
      GotoKeepsStoreInv(w, urlOk, key, j, Teardown(j.pc.todelete, j.pc.waiting + {j.pc.id},
                                                   j.pc.ready && w.proxies[j.pc.id].status.ready == IsTrue));
    } else {
      GotoKeepsStoreInv(w, urlOk, key, j, Teardown(j.pc.todelete, j.pc.waiting, j.pc.ready));
    }
  }

  lemma ActKeepsStoreInv(w: World, urlOk: string -> bool, key: ObjectKey, j: ChartJob, e: ChartEnv,
                         todo: map<ObjectKey, Cluster>, found: Option<ProxyId>)
    requires At(w, urlOk, key, j) && Working(j.pc)
    requires InNamespace(todo, key) && e.cluster.namespace == key.namespace
    requires found.None? ==> NoneForPair(w.proxies, key, e.cluster)
    requires found.Some? ==> found.value in w.proxies && Labelled(w.proxies[found.value], key)
    ensures StoreInv(Act(w, key, j, todo, e, found), urlOk)
  {
    JobIsOk(w, urlOk, key, j);
    GiveUpKeepsStoreInv(w, urlOk, key, j);
    var existing := if found.Some? then Some(w.proxies[found.value]) else None;
    assert found.Some? ==> ProxyOk(w.charts, w.clock, found.value, w.proxies[found.value]);
    hide StoreInv;
    match Decide(key, j.base.spec, e.cluster, existing, e.rendered)
    case Leave => GotoKeepsStoreInv(w, urlOk, key, j, NextCluster(todo));
    case Reinstall => GotoKeepsStoreInv(w, urlOk, key, j, DeleteForReinstall(todo, found.value));
    case RenderFailed =>
    case Create(p) => GotoKeepsStoreInv(w, urlOk, key, j, CreateProxy(todo, e.cluster, p));
    case Update(p) => GotoKeepsStoreInv(w, urlOk, key, j, UpdateProxy(todo, found.value, existing.value, p));
  }

  lemma LookupKeepsStoreInv(w: World, urlOk: string -> bool, key: ObjectKey, j: ChartJob, e: ChartEnv,
                            todo: map<ObjectKey, Cluster>)
    requires At(w, urlOk, key, j) && Working(j.pc)
    requires InNamespace(todo, key) && e.cluster.namespace == key.namespace
    ensures StoreInv(Lookup(w, key, j, todo, e, PairIds(w.proxies, key, e.cluster)), urlOk)
  {
    GiveUpKeepsStoreInv(w, urlOk, key, j);
    var found := PairIds(w.proxies, key, e.cluster);
    if found == {} {
      forall id <- w.proxies ensures !PairOf(w.proxies[id], key, e.cluster) {
        assert id !in found;
      }
      ActKeepsStoreInv(w, urlOk, key, j, e, todo, None);
    } else if found == {e.id} {
      assert e.id in found;
      ActKeepsStoreInv(w, urlOk, key, j, e, todo, Some(e.id));
    }
  }

  lemma NextClusterKeepsStoreInv(w: World, urlOk: string -> bool, key: ObjectKey, j: ChartJob, e: ChartEnv)
    requires At(w, urlOk, key, j) && j.pc.NextCluster?
    ensures StoreInv(StepNextCluster(w, key, j, e), urlOk)
  {
    JobIsOk(w, urlOk, key, j);
    if j.pc.todo.Keys == {} {
      GotoKeepsStoreInv(w, urlOk, key, SetUpToDate(j, IsTrue), AggregateReady);
    } else if e.cluster in j.pc.todo {
      var todo := j.pc.todo - {e.cluster};
      GotoKeepsStoreInv(w, urlOk, key, j, NextCluster(todo));
      GiveUpKeepsStoreInv(w, urlOk, key, j);
      LookupKeepsStoreInv(w, urlOk, key, j, e, todo);
    }
  }

  lemma OthersSurviveCreate(w: World, urlOk: string -> bool, key: ObjectKey, j: ChartJob, k: ObjectKey)
    requires At(w, urlOk, key, j) && j.pc.CreateProxy?
    requires k in w.chartJobs && k != key
    ensures var w1 := Created(w, key, j.pc.cluster, j.base.spec, j.pc.proxy);
      ChartJobOk(urlOk, w1.charts, w1.proxies, w1.clock, k, w.chartJobs[k])
  {
    JobIsOk(w, urlOk, key, j);
    JobIsOk(w, urlOk, k, w.chartJobs[k]);
    var w1 := Created(w, key, j.pc.cluster, j.base.spec, j.pc.proxy);
    assert w.clock in w.proxies ==> ProxyOk(w.charts, w.clock, w.clock, w.proxies[w.clock]);
    assert w.clock !in w.proxies;
    hide StoreInv, ProxiesOk;
    assert !Labelled(w1.proxies[w.clock], k);
  }

  lemma CreatedProxiesOk(w: World, urlOk: string -> bool, key: ObjectKey, j: ChartJob)
    requires At(w, urlOk, key, j) && j.pc.CreateProxy?
    ensures var w1 := Created(w, key, j.pc.cluster, j.base.spec, j.pc.proxy);
      ProxiesOk(w1.charts, w1.proxies, w1.clock) && OnePerPair(w1.proxies)
  {
    JobIsOk(w, urlOk, key, j);
    var w1 := Created(w, key, j.pc.cluster, j.base.spec, j.pc.proxy);
    forall i <- w1.proxies ensures ProxyOk(w1.charts, w1.clock, i, w1.proxies[i]) {
      if i != w.clock {
        assert ProxyOk(w.charts, w.clock, i, w.proxies[i]);
      }
    }
    assert PairOf(w1.proxies[w.clock], key, j.pc.cluster);
    forall i, k | i in w1.proxies && k in w1.proxies && SamePair(w1.proxies[i], w1.proxies[k]) ensures i == k {
      if i != w.clock && k != w.clock {
        assert SamePair(w.proxies[i], w.proxies[k]);
      } else if i != w.clock {
        assert PairOf(w.proxies[i], key, j.pc.cluster);
      } else if k != w.clock {
        assert PairOf(w.proxies[k], key, j.pc.cluster);
      }
    }
  }

  lemma CreateProxyKeepsStoreInv(w: World, urlOk: string -> bool, key: ObjectKey, j: ChartJob, e: ChartEnv)
    requires At(w, urlOk, key, j) && j.pc.CreateProxy?
    ensures StoreInv(StepCreateProxy(w, urlOk, key, j, e), urlOk)
  {
    GiveUpKeepsStoreInv(w, urlOk, key, j);
    JobIsOk(w, urlOk, key, j);
    var w1 := Created(w, key, j.pc.cluster, j.base.spec, j.pc.proxy);
    CreatedProxiesOk(w, urlOk, key, j);
    var w2 := Goto(w1, key, j, NextCluster(j.pc.todo));
    forall k <- w2.chartJobs ensures ChartJobOk(urlOk, w2.charts, w2.proxies, w2.clock, k, w2.chartJobs[k]) {
      if k != key {
        OthersSurviveCreate(w, urlOk, key, j, k);
      }
    }
  }

  lemma UpdateProxyKeepsStoreInv(w: World, urlOk: string -> bool, key: ObjectKey, j: ChartJob, e: ChartEnv)
    requires At(w, urlOk, key, j) && j.pc.UpdateProxy?
    ensures StoreInv(StepUpdateProxy(w, key, j, e), urlOk)
  {
    hide StoreInv;
    GiveUpKeepsStoreInv(w, urlOk, key, j);
    JobIsOk(w, urlOk, key, j);
    if e.apiOk && UpdateAccepted(w, j.pc.id, j.pc.proxy) {
      var next := Overwrite(w.proxies[j.pc.id], j.pc.proxy);
      assert SameRole(w.proxies[j.pc.id], next);
      hide Stamp, SameRole, UpdateAccepted, Overwrite;
      WriteKeepsStoreInv(w, urlOk, j.pc.id, next);
      var w1 := WriteProxy(w, j.pc.id, next);
      JobIsOk(w1, urlOk, key, j);
      GotoKeepsStoreInv(w1, urlOk, key, j, NextCluster(j.pc.todo));
    }
  }

  /* ---- patching a HelmChartProxy ---- */

  ghost predicate SameOthers(charts: map<ObjectKey, ChartProxy>, edited: map<ObjectKey, ChartProxy>, key: ObjectKey) {
    forall k | k != key :: (k in edited <==> k in charts) && (k in edited ==> edited[k] == charts[k])
  }

  lemma SameOthersFrom(charts: map<ObjectKey, ChartProxy>, edited: map<ObjectKey, ChartProxy>, key: ObjectKey)
    requires charts - {key} == edited - {key}
    ensures SameOthers(charts, edited, key)
  {
    assert forall k | k != key ::
        (k in edited <==> k in edited - {key}) && (k in edited ==> edited[k] == (edited - {key})[k]);
    assert forall k | k != key ::
        (k in charts <==> k in edited - {key}) && (k in charts ==> charts[k] == (edited - {key})[k]);
  }

  lemma JobSeesSameChart(urlOk: string -> bool, w: World, charts: map<ObjectKey, ChartProxy>, k: ObjectKey, j: ChartJob)
    requires ChartJobOk(urlOk, w.charts, w.proxies, w.clock, k, j)
    requires (k in charts <==> k in w.charts) && (k in charts ==> charts[k] == w.charts[k])
    ensures ChartJobOk(urlOk, charts, w.proxies, w.clock, k, j)
  {
    hide PcOk, NoneLabelled;
  }

  lemma EditKeepsProxies(w: World, key: ObjectKey, charts: map<ObjectKey, ChartProxy>)
    requires ProxiesOk(w.charts, w.proxies, w.clock) && SameOthers(w.charts, charts, key)
    requires NoneLabelled(w.proxies, key) ||
             (key in charts && key in w.charts && charts[key].finalizer &&
              charts[key].spec.strategy == w.charts[key].spec.strategy)
    ensures ProxiesOk(charts, w.proxies, w.clock)
  {
    forall i <- w.proxies ensures ProxyOk(charts, w.clock, i, w.proxies[i]) {
      assert ProxyOk(w.charts, w.clock, i, w.proxies[i]);
      assert OwnerOf(w.proxies[i]) == key ==> Labelled(w.proxies[i], key);
    }
  }

  lemma EditKeepsJobs(w: World, urlOk: string -> bool, key: ObjectKey, charts: map<ObjectKey, ChartProxy>)
    requires ChartJobsOk(urlOk, w.charts, w.proxies, w.clock, w.chartJobs) && SameOthers(w.charts, charts, key)
    requires key in w.chartJobs ==> ChartJobOk(urlOk, charts, w.proxies, w.clock, key, w.chartJobs[key])
    ensures ChartJobsOk(urlOk, charts, w.proxies, w.clock, w.chartJobs)
  {
    hide ChartJobOk;
    forall k <- w.chartJobs ensures ChartJobOk(urlOk, charts, w.proxies, w.clock, k, w.chartJobs[k]) {
      if k != key {
        JobSeesSameChart(urlOk, w, charts, k, w.chartJobs[k]);
      }
    }
  }

  /** Editing one HelmChartProxy: harmless if no proxy is labelled with it, or if it keeps
      its finalizer and its strategy. */
  lemma ChartEditKeepsStoreInv(w: World, urlOk: string -> bool, key: ObjectKey, charts: map<ObjectKey, ChartProxy>)
    requires StoreInv(w, urlOk)
    requires w.charts - {key} == charts - {key}
    requires key in charts ==> ChartOk(urlOk, charts[key])
    requires NoneLabelled(w.proxies, key) ||
             (key in charts && key in w.charts && charts[key].finalizer &&
              charts[key].spec.strategy == w.charts[key].spec.strategy)
    requires key in w.chartJobs ==> ChartJobOk(urlOk, charts, w.proxies, w.clock, key, w.chartJobs[key])
    ensures StoreInv(w.(charts := charts), urlOk)
  {
    hide ProxiesOk, ChartJobsOk, ChartOk, ChartJobOk, NoneLabelled, OnePerPair;
    SameOthersFrom(w.charts, charts, key);
    EditKeepsProxies(w, key, charts);
    EditKeepsJobs(w, urlOk, key, charts);
  }

  /** The patch of a chart reconcile takes the finalizer off only when no proxy is left. */
  lemma PatchChartKeepsStoreInv(w: World, urlOk: string -> bool, key: ObjectKey, j: ChartJob)
    requires At(w, urlOk, key, j) && key in w.charts
    ensures StoreInv(PatchChart(w, key, j), urlOk)
    ensures j.local.finalizer && (w.charts[key].finalizer || !j.base.finalizer) ==>
      key in PatchChart(w, key, j).charts && PatchChart(w, key, j).charts[key].finalizer
  {
    JobIsOk(w, urlOk, key, j);
    assert ChartOk(urlOk, w.charts[key]);
    var charts := PatchChart(w, key, j).charts;
    assert w.charts - {key} == charts - {key};
    if w.charts[key].finalizer && (key !in charts || !charts[key].finalizer) {
      assert j.base.finalizer && !j.local.finalizer;
    } else if !w.charts[key].finalizer {
      forall i <- w.proxies ensures !Labelled(w.proxies[i], key) {
        assert ProxyOk(w.charts, w.clock, i, w.proxies[i]);
      }
    }
    ChartEditKeepsStoreInv(w, urlOk, key, charts);
  }

  lemma DropFinalizerKeepsStoreInv(w: World, urlOk: string -> bool, key: ObjectKey, j: ChartJob, e: ChartEnv)
    requires At(w, urlOk, key, j) && j.pc.DropFinalizer?
    ensures StoreInv(StepDropFinalizer(w, key, j, e), urlOk)
  {
    var w1 := w;
    if e.apiOk && key in w.charts {
      PatchChartKeepsStoreInv(w, urlOk, key, j);
      w1 := PatchChart(w, key, j);
    }
    JobIsOk(w1, urlOk, key, j);
    GotoKeepsStoreInv(w1, urlOk, key, j, FinishChart);
  }

  lemma FinishChartKeepsStoreInv(w: World, urlOk: string -> bool, key: ObjectKey, j: ChartJob, e: ChartEnv)
    requires At(w, urlOk, key, j) && j.pc.FinishChart?
    ensures StoreInv(StepFinishChart(w, key, j, e), urlOk)
  {
    if e.apiOk && key in w.charts {
      PatchChartKeepsStoreInv(w, urlOk, key, j);
    }
  }

  lemma AggregateKeepsStoreInv(w: World, urlOk: string -> bool, key: ObjectKey, j: ChartJob, e: ChartEnv)
    requires At(w, urlOk, key, j) && j.pc.AggregateReady?
    ensures StoreInv(StepAggregate(w, key, j, e), urlOk)
  {
    GiveUpKeepsStoreInv(w, urlOk, key, j);
    JobIsOk(w, urlOk, key, j);
    var listed := set id | id in LabelledIds(w.proxies, key) :: w.proxies[id];
    GotoKeepsStoreInv(w, urlOk, key, Aggregate(j, listed), FinishChart);
  }

  /** Every step of a chart reconcile keeps the store invariant. */
  lemma ChartStepKeepsStoreInv(w: World, urlOk: string -> bool, key: ObjectKey, e: ChartEnv)
    requires StoreInv(w, urlOk) && key in w.chartJobs
    ensures StoreInv(StepChart(w, urlOk, key, w.chartJobs[key], e), urlOk)
  {
    var j := w.chartJobs[key];
    match j.pc
    case ListClusters => ListClustersKeepsStoreInv(w, urlOk, key, j, e);
    case ListReleases(_) => ListReleasesKeepsStoreInv(w, urlOk, key, j, e);
    case AddFinalizer(_, _) => AddFinalizerKeepsStoreInv(w, urlOk, key, j, e);
    case DeleteOrphans(_, _) => DeleteOrphansKeepsStoreInv(w, urlOk, key, j, e);
    case NextCluster(_) => NextClusterKeepsStoreInv(w, urlOk, key, j, e);
    case DeleteForReinstall(_, _) => DeleteForReinstallKeepsStoreInv(w, urlOk, key, j, e);
    case CreateProxy(_, _, _) => CreateProxyKeepsStoreInv(w, urlOk, key, j, e);
    case UpdateProxy(_, _, _, _) => UpdateProxyKeepsStoreInv(w, urlOk, key, j, e);
    case AggregateReady => AggregateKeepsStoreInv(w, urlOk, key, j, e);
    case Teardown(_, _, _) => TeardownKeepsStoreInv(w, urlOk, key, j, e);
    case TeardownCheck(_, _, _, _) => TeardownCheckKeepsStoreInv(w, urlOk, key, j, e);
    case DropFinalizer => DropFinalizerKeepsStoreInv(w, urlOk, key, j, e);
    case FinishChart => FinishChartKeepsStoreInv(w, urlOk, key, j, e);
  }

  /* ---- users ---- */

  lemma NoOwnerNoProxies(w: World, urlOk: string -> bool, key: ObjectKey)
    requires StoreInv(w, urlOk) && (key in w.charts ==> !w.charts[key].finalizer)
    ensures NoneLabelled(w.proxies, key)
  {
    forall i <- w.proxies ensures !Labelled(w.proxies[i], key) {
      assert ProxyOk(w.charts, w.clock, i, w.proxies[i]);
    }
  }

  lemma CreateChartKeepsStoreInv(w: World, urlOk: string -> bool, key: ObjectKey, spec: ChartSpec, paused: bool)
    requires StoreInv(w, urlOk)
    ensures StoreInv(StepCreateChart(w, urlOk, key, spec, paused), urlOk)
  {
    var w' := StepCreateChart(w, urlOk, key, spec, paused);
    if w' != w {
      NoOwnerNoProxies(w, urlOk, key);
      ChartEditKeepsStoreInv(w, urlOk, key, w'.charts);
    }
  }

  lemma UpdateChartKeepsStoreInv(w: World, urlOk: string -> bool, key: ObjectKey, spec: ChartSpec, paused: bool)
    requires StoreInv(w, urlOk)
    ensures StoreInv(StepUpdateChart(w, urlOk, key, spec, paused), urlOk)
  {
    var w' := StepUpdateChart(w, urlOk, key, spec, paused);
    if w' != w {
      assert ChartOk(urlOk, w.charts[key]);
      if !w.charts[key].finalizer {
        NoOwnerNoProxies(w, urlOk, key);
      }
      if key in w.chartJobs {
        JobIsOk(w, urlOk, key, w.chartJobs[key]);
      }
      ChartEditKeepsStoreInv(w, urlOk, key, w'.charts);
    }
  }

  lemma DeleteChartKeepsStoreInv(w: World, urlOk: string -> bool, key: ObjectKey)
    requires StoreInv(w, urlOk)
    ensures StoreInv(StepDeleteChart(w, key), urlOk)
  {
    if key in w.charts {
      var w' := StepDeleteChart(w, key);
      assert ChartOk(urlOk, w.charts[key]);
      if !w.charts[key].finalizer {
        NoOwnerNoProxies(w, urlOk, key);
      }
      if key in w.chartJobs {
        JobIsOk(w, urlOk, key, w.chartJobs[key]);
      }
      ChartEditKeepsStoreInv(w, urlOk, key, w'.charts);
    }
  }
}
