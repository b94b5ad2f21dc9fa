/** The chart controller as the program runs it: one reconcile of a HelmChartProxy, with its
    loops over orphans and clusters and the deferred patch at the end. Run without interruption
    it is exactly a sequence of steps of the machine, whatever fails on the way. */
module ChartController {
  import opened Types
  import opened Admission
  import opened Phases
  import opened Machine
  import opened ChartRun
  import opened Objects
  import opened Listings
  import opened Api

  ghost predicate Mirrors(v: World, api: ApiServer)
    reads api
  {
    v.charts == api.charts && v.proxies == api.proxies && v.clock == api.clock && v.clusters == api.clusters
  }

  /** The working copy: what was read, with the status and finalizer as they are now. */
  function Local(base: ChartProxy, hcp: ChartObject): ChartProxy
    reads hcp`status, hcp`finalizer
  {
    base.(status := hcp.status, finalizer := hcp.finalizer)
  }

  ghost predicate SameButReady(a: ChartProxy, b: ChartProxy) {
    a.(status := a.status.(ready := b.status.ready)) == b
  }

  /** The machine's reconcile of `key` stands at `pc`, with this working copy. */
  ghost predicate Standing(v: World, key: ObjectKey, base: ChartProxy, local: ChartProxy, pc: ChartPc) {
    && key in v.chartJobs && v.chartJobs[key].base == base && v.chartJobs[key].pc == pc
    && SameButReady(v.chartJobs[key].local, local)
  }

  lemma GotoStands(v: World, key: ObjectKey, j: ChartJob, pc: ChartPc, local: ChartProxy)
    requires SameButReady(j.local, local)
    ensures var v' := Goto(v, key, j, pc); SameStores(v, v') && Standing(v', key, j.base, local, pc)
  {
  }

  function WithUpToDate(c: ChartProxy, x: Condition): ChartProxy {
    c.(status := c.status.(upToDate := x))
  }

  function WithProxiesReady(c: ChartProxy, x: Condition): ChartProxy {
    c.(status := c.status.(proxiesReady := x))
  }

  /* ---- orphans ---- */

  ghost function Ids(items: seq<Item>): set<ProxyId> {
    set i <- items :: i.id
  }

  /** The ids of listed objects, in their order. */
  ghost function IdSeq(items: seq<Item>): seq<ProxyId> {
    seq(|items|, i requires 0 <= i < |items| => items[i].id)
  }

  ghost predicate DistinctIds(items: seq<Item>) {
    forall i, k :: 0 <= i < k < |items| ==> items[i].id != items[k].id
  }

  lemma OrphanStep(v: World, urlOk: string -> bool, key: ObjectKey, base: ChartProxy, local: ChartProxy,
                   selected: map<ObjectKey, Cluster>, orphans: set<ProxyId>, e: ChartEnv)
    requires Standing(v, key, base, local, DeleteOrphans(selected, orphans)) && e.id in orphans
    ensures var v' := StepChart(v, urlOk, key, v.chartJobs[key], e);
      if e.apiOk
      then SameStores(DeleteProxy(v, e.id), v') &&
           Standing(v', key, base, local, DeleteOrphans(selected, orphans - {e.id}))
      else SameStores(v, v') && Standing(v', key, base, WithUpToDate(local, IsFalse), FinishChart)
  {
    var j := v.chartJobs[key];
    assert orphans != {};
    assert StepChart(v, urlOk, key, j, e) == StepDeleteOrphans(v, key, j, e);
    GotoStands(v, key, SetUpToDate(j, IsFalse), FinishChart, WithUpToDate(local, IsFalse));
    GotoStands(DeleteProxy(v, e.id), key, j, DeleteOrphans(selected, orphans - {e.id}), local);
  }

  lemma OrphansDone(v: World, urlOk: string -> bool, key: ObjectKey, base: ChartProxy, local: ChartProxy,
                    selected: map<ObjectKey, Cluster>, e: ChartEnv)
    requires Standing(v, key, base, local, DeleteOrphans(selected, {}))
    ensures var v' := StepChart(v, urlOk, key, v.chartJobs[key], e);
      SameStores(v, v') && Standing(v', key, base, local, NextCluster(selected))
  {
  }

  /** A delete of the program is a delete of the machine. */
  method DeleteAlong(api: ApiServer, id: ProxyId, ok: bool, ghost v: World) returns (failed: bool)
    requires Mirrors(v, api)
    modifies api`proxies, api`clock
    ensures failed == !ok && Mirrors(if ok then DeleteProxy(v, id) else v, api)
  {
    failed := api.Delete(id, ok);
  }

  lemma OneMoreDelete(o: Oracle, v: World, ids: seq<ProxyId>, i: nat)
    requires i < |ids| && !DeletesFail(o, ids[..i])
    ensures DeletesFail(o, ids[..i + 1]) == !o.delete(ids[i])
    ensures var before := AfterDeletes(o, v, ids[..i]);
      AfterDeletes(o, v, ids[..i + 1]) == if o.delete(ids[i]) then DeleteProxy(before, ids[i]) else before
  {
    assert ids[..i + 1] == ids[..i] + [ids[i]];
    assert ids[..i + 1][..i] == ids[..i];
  }

  /** deleteOrphanedHelmReleaseProxies. */
  method DeleteOrphaned(api: ApiServer, hcp: ChartObject, urlOk: string -> bool, base: ChartProxy, o: Oracle,
                        clusters: seq<ObjectKey>, items: seq<Item>, ghost selected: map<ObjectKey, Cluster>,
                        ghost start: World, ghost v: World) returns (failed: bool, ghost v': World)
    requires Mirrors(v, api) && OnTheWay(start, urlOk, hcp.key, o, v) && DistinctIds(items)
    requires forall c <- clusters :: SlashFree(c.namespace)
    requires forall i <- items :: SlashFree(i.proxy.spec.cluster.namespace)
    requires Standing(v, hcp.key, base, Local(base, hcp),
                      DeleteOrphans(selected, Ids(OrphansOf(items, Members(clusters)))))
    modifies api`proxies, api`clock, hcp`status
    ensures Mirrors(v', api) && OnTheWay(start, urlOk, hcp.key, o, v')
    ensures Standing(v', hcp.key, base, Local(base, hcp), if failed then FinishChart else NextCluster(selected))
    ensures failed == DeletesFail(o, IdSeq(OrphansOf(items, Members(clusters))))
    ensures SameStores(AfterDeletes(o, v, IdSeq(OrphansOf(items, Members(clusters)))), v')
  {
    hide StepChart, OnTheWay, Standing, DeletesFail, AfterDeletes, DeleteProxy;
    var orphans := GetOrphaned(clusters, items);
    OrphansDistinct(items, Members(clusters));
    v' := v;
    ghost var ids := IdSeq(orphans);
    assert ids[..0] == [];
    NothingDeleted(o, v);
    for i := 0 to |orphans|
      invariant Mirrors(v', api) && OnTheWay(start, urlOk, hcp.key, o, v')
      invariant Standing(v', hcp.key, base, Local(base, hcp), DeleteOrphans(selected, Ids(orphans[i..])))
      invariant !DeletesFail(o, ids[..i]) && SameStores(AfterDeletes(o, v, ids[..i]), v')
    {
      var id := orphans[i].id;
      ghost var before := AfterDeletes(o, v, ids[..i]);
      OneMoreDelete(o, v, ids, i);
      DeletesAlike(before, v', id);
      RestOfIds(orphans, i);
      ghost var v1 := OrphanTaken(urlOk, hcp.key, base, Local(base, hcp), selected, Ids(orphans[i..]), id, o, start,
                                  v');
      failed := DeleteAlong(api, id, o.delete(id), v');
      v' := v1;
      if failed {
        EarlyExitsStay(o, v, ids, i + 1);
        hcp.SetUpToDate(IsFalse);
        return true, v';
      }
    }
    assert ids[..|orphans|] == ids;
    assert Ids(orphans[|orphans|..]) == {};
    v' := OrphansDoneTaken(urlOk, hcp.key, base, Local(base, hcp), selected, o, start, v');
    return false, v';
  }

  lemma OrphanTaken(urlOk: string -> bool, key: ObjectKey, base: ChartProxy, local: ChartProxy,
                    selected: map<ObjectKey, Cluster>, orphans: set<ProxyId>, id: ProxyId, o: Oracle, start: World,
                    v: World) returns (v': World)
    requires OnTheWay(start, urlOk, key, o, v) && Standing(v, key, base, local, DeleteOrphans(selected, orphans))
    requires id in orphans
    ensures OnTheWay(start, urlOk, key, o, v') && SameStores(if o.delete(id) then DeleteProxy(v, id) else v, v')
    ensures if o.delete(id) then Standing(v', key, base, local, DeleteOrphans(selected, orphans - {id}))
            else Standing(v', key, base, WithUpToDate(local, IsFalse), FinishChart)
  {
    hide StepChart, OnTheWay, DeleteProxy;
    var e := ChartEnv(o.delete(id), id, key, None);
    OneStepOn(start, urlOk, key, o, v, e);
    OrphanStep(v, urlOk, key, base, local, selected, orphans, e);
    v' := StepChart(v, urlOk, key, v.chartJobs[key], e);
  }

  lemma OrphansDoneTaken(urlOk: string -> bool, key: ObjectKey, base: ChartProxy, local: ChartProxy,
                         selected: map<ObjectKey, Cluster>, o: Oracle, start: World, v: World) returns (v': World)
    requires OnTheWay(start, urlOk, key, o, v) && Standing(v, key, base, local, DeleteOrphans(selected, {}))
    ensures OnTheWay(start, urlOk, key, o, v') && SameStores(v, v')
    ensures Standing(v', key, base, local, NextCluster(selected))
  {
    hide StepChart, OnTheWay;
    var e := ChartEnv(o.delete(0), 0, key, None);
    OneStepOn(start, urlOk, key, o, v, e);
    OrphansDone(v, urlOk, key, base, local, selected, e);
    v' := StepChart(v, urlOk, key, v.chartJobs[key], e);
  }

  lemma {:induction false} OrphansDistinct(items: seq<Item>, selected: set<ObjectKey>)
    requires DistinctIds(items)
    ensures DistinctIds(OrphansOf(items, selected))
  {
    var at := OrphansKeepOrder(items, selected);
  }

  lemma RestOfIds(items: seq<Item>, i: nat)
    requires DistinctIds(items) && i < |items|
    ensures items[i].id in Ids(items[i..]) && Ids(items[i..]) - {items[i].id} == Ids(items[i + 1..])
  {
    assert items[i..] == [items[i]] + items[i + 1..];
    assert items[i] in items[i..];
    forall k <- items[i + 1..] ensures k.id != items[i].id && k in items[i..] {
      var n :| 0 <= n < |items[i + 1..]| && items[i + 1..][n] == k;
      assert items[i + 1 + n] == k;
    }
  }

  /* ---- one cluster ---- */

  /** A cluster that is passed over, and a lookup that fails or finds too many. */
  lemma SkipStep(v: World, urlOk: string -> bool, key: ObjectKey, base: ChartProxy, local: ChartProxy,
                 todo: map<ObjectKey, Cluster>, e: ChartEnv)
    requires Standing(v, key, base, local, NextCluster(todo)) && e.cluster in todo
    ensures var v' := StepChart(v, urlOk, key, v.chartJobs[key], e);
      var skipped := todo[e.cluster].deleting || todo[e.cluster].paused || base.paused;
      var found := PairIds(v.proxies, key, e.cluster);
      && (skipped ==> SameStores(v, v') && Standing(v', key, base, local, NextCluster(todo - {e.cluster})))
      && (!skipped && (!e.apiOk || (e.id in found && found != {e.id})) ==>
            SameStores(v, v') && Standing(v', key, base, local, FinishChart))
  {
    var j := v.chartJobs[key];
    assert todo.Keys != {};
    assert StepChart(v, urlOk, key, j, e) == StepNextCluster(v, key, j, e);
    GotoStands(v, key, j, NextCluster(todo - {e.cluster}), local);
    GotoStands(v, key, j, FinishChart, local);
    hide StepChart, Goto, Standing, Act;
  }

  lemma LookupStep(v: World, urlOk: string -> bool, key: ObjectKey, base: ChartProxy, local: ChartProxy,
                   todo: map<ObjectKey, Cluster>, e: ChartEnv, found: Option<ProxyId>)
    requires Standing(v, key, base, local, NextCluster(todo)) && e.cluster in todo && e.apiOk
    requires !todo[e.cluster].deleting && !todo[e.cluster].paused && !base.paused
    requires PairIds(v.proxies, key, e.cluster) == if found.None? then {} else {found.value}
    requires found.Some? ==> e.id == found.value && e.id in v.proxies
    ensures StepChart(v, urlOk, key, v.chartJobs[key], e) == Act(v, key, v.chartJobs[key], todo - {e.cluster}, e, found)
  {
    var j := v.chartJobs[key];
    assert todo.Keys != {};
    assert StepChart(v, urlOk, key, j, e) == StepNextCluster(v, key, j, e);
    hide StepChart, Act;
  }

  /** The decision taken on what the lookup found. */
  lemma ActStands(v: World, key: ObjectKey, base: ChartProxy, local: ChartProxy, pc: ChartPc,
                  todo: map<ObjectKey, Cluster>, e: ChartEnv, found: Option<ProxyId>)
    requires Standing(v, key, base, local, pc) && (found.Some? ==> found.value in v.proxies)
    ensures var existing := if found.Some? then Some(v.proxies[found.value]) else None;
      var v' := Act(v, key, v.chartJobs[key], todo, e, found);
      match Decide(key, base.spec, e.cluster, existing, e.rendered)
      case Leave => SameStores(v, v') && Standing(v', key, base, local, NextCluster(todo))
      case Reinstall =>
        && found.Some? && SameStores(v, v')
        && Standing(v', key, base, local, DeleteForReinstall(todo, found.value))
      case RenderFailed => SameStores(v, v') && Standing(v', key, base, WithUpToDate(local, IsFalse), FinishChart)
      case Create(p) => SameStores(v, v') && Standing(v', key, base, local, CreateProxy(todo, e.cluster, p))
      case Update(p) =>
        && found.Some? && SameStores(v, v')
        && Standing(v', key, base, local, UpdateProxy(todo, found.value, existing.value, p))
  {
    var j := v.chartJobs[key];
    var existing := if found.Some? then Some(v.proxies[found.value]) else None;
    hide Goto, Standing;
    assert j.base == base && SameButReady(j.local, local) by {
      StandingJob(v, key, base, local, pc);
    }
    match Decide(key, base.spec, e.cluster, existing, e.rendered)
    case Leave => GotoStands(v, key, j, NextCluster(todo), local);
    case Reinstall => GotoStands(v, key, j, DeleteForReinstall(todo, found.value), local);
    case RenderFailed => GotoStands(v, key, SetUpToDate(j, IsFalse), FinishChart, WithUpToDate(local, IsFalse));
    case Create(p) => GotoStands(v, key, j, CreateProxy(todo, e.cluster, p), local);
    case Update(p) => GotoStands(v, key, j, UpdateProxy(todo, found.value, existing.value, p), local);
  }

  lemma StandingJob(v: World, key: ObjectKey, base: ChartProxy, local: ChartProxy, pc: ChartPc)
    requires Standing(v, key, base, local, pc)
    ensures key in v.chartJobs && v.chartJobs[key].base == base && v.chartJobs[key].pc == pc
    ensures SameButReady(v.chartJobs[key].local, local)
  {
  }

  lemma ReinstallStep(v: World, urlOk: string -> bool, key: ObjectKey, base: ChartProxy, local: ChartProxy,
                      todo: map<ObjectKey, Cluster>, id: ProxyId, e: ChartEnv)
    requires Standing(v, key, base, local, DeleteForReinstall(todo, id))
    ensures var v' := StepChart(v, urlOk, key, v.chartJobs[key], e);
      && SameStores(if e.apiOk then DeleteProxy(v, id) else v, v')
      && Standing(v', key, base, WithUpToDate(local, IsFalse), if e.apiOk then NextCluster(todo) else FinishChart)
  {
    var j := v.chartJobs[key];
    assert StepChart(v, urlOk, key, j, e) == StepDeleteForReinstall(v, key, j, e);
    GotoStands(v, key, SetUpToDate(j, IsFalse), FinishChart, WithUpToDate(local, IsFalse));
    GotoStands(DeleteProxy(v, id), key, SetUpToDate(j, IsFalse), NextCluster(todo), WithUpToDate(local, IsFalse));
  }

  lemma CreateStep(v: World, urlOk: string -> bool, key: ObjectKey, base: ChartProxy, local: ChartProxy,
                   todo: map<ObjectKey, Cluster>, c: ObjectKey, p: ReleaseProxy, e: ChartEnv)
    requires Standing(v, key, base, local, CreateProxy(todo, c, p))
    ensures var v' := StepChart(v, urlOk, key, v.chartJobs[key], e);
      if e.apiOk && ValidateReleaseCreate(urlOk, DefaultRelease(p.spec)) == []
      then SameStores(Created(v, key, c, base.spec, p), v') && Standing(v', key, base, local, NextCluster(todo))
      else SameStores(v, v') && Standing(v', key, base, WithUpToDate(local, IsFalse), FinishChart)
  {
    var j := v.chartJobs[key];
    assert StepChart(v, urlOk, key, j, e) == StepCreateProxy(v, urlOk, key, j, e);
    GotoStands(v, key, SetUpToDate(j, IsFalse), FinishChart, WithUpToDate(local, IsFalse));
    GotoStands(Created(v, key, c, base.spec, p), key, j, NextCluster(todo), local);
  }

  lemma UpdateStep(v: World, urlOk: string -> bool, key: ObjectKey, base: ChartProxy, local: ChartProxy,
                   todo: map<ObjectKey, Cluster>, id: ProxyId, seen: ReleaseProxy, p: ReleaseProxy, e: ChartEnv)
    requires Standing(v, key, base, local, UpdateProxy(todo, id, seen, p))
    ensures var v' := StepChart(v, urlOk, key, v.chartJobs[key], e);
      if e.apiOk && UpdateAccepted(v, id, p)
      then SameStores(Rewritten(v, id, p), v') && Standing(v', key, base, local, NextCluster(todo))
      else SameStores(v, v') && Standing(v', key, base, WithUpToDate(local, IsFalse), FinishChart)
  {
    var j := v.chartJobs[key];
    assert StepChart(v, urlOk, key, j, e) == StepUpdateProxy(v, key, j, e);
    GotoStands(v, key, SetUpToDate(j, IsFalse), FinishChart, WithUpToDate(local, IsFalse));
    if UpdateAccepted(v, id, p) {
      GotoStands(WriteProxy(v, id, Overwrite(v.proxies[id], p)), key, j, NextCluster(todo), local);
    }
  }

  /** The loop over the clusters is back at its head, or has given up. */
  ghost predicate Settled(v: World, hcp: ChartObject, base: ChartProxy, failed: bool, todo: map<ObjectKey, Cluster>)
    reads hcp`status, hcp`finalizer
  {
    Standing(v, hcp.key, base, Local(base, hcp), if failed then FinishChart else NextCluster(todo))
  }

  /** Deleting a proxy whose identity changed. */
  method DeleteForReinstallNow(api: ApiServer, hcp: ChartObject, urlOk: string -> bool, base: ChartProxy, id: ProxyId,
                               o: Oracle, ghost todo: map<ObjectKey, Cluster>, ghost start: World, ghost v: World)
    returns (failed: bool, ghost v': World)
    requires Mirrors(v, api) && OnTheWay(start, urlOk, hcp.key, o, v)
    requires Standing(v, hcp.key, base, Local(base, hcp), DeleteForReinstall(todo, id))
    modifies api`proxies, api`clock, hcp`status
    ensures Mirrors(v', api) && OnTheWay(start, urlOk, hcp.key, o, v') && Settled(v', hcp, base, failed, todo)
    ensures failed == !o.delete(id) && SameStores(if failed then v else DeleteProxy(v, id), v')
  {
    hide StepChart, OnTheWay;
    ghost var e := ChartEnv(o.delete(id), id, hcp.key, None);
    ReinstallStep(v, urlOk, hcp.key, base, Local(base, hcp), todo, id, e);
    OneStepOn(start, urlOk, hcp.key, o, v, e);
    v' := StepChart(v, urlOk, hcp.key, v.chartJobs[hcp.key], e);
    hide Standing, DeleteProxy;
    failed := DeleteAlong(api, id, o.delete(id), v);
    hcp.SetUpToDate(IsFalse);
  }

  /** A create and an update of the program are those of the machine. */
  method CreateAlong(api: ApiServer, urlOk: string -> bool, p: ReleaseProxy, ok: bool, ghost v: World,
                     ghost key: ObjectKey, ghost c: ObjectKey, ghost chart: ChartSpec) returns (failed: bool)
    requires Mirrors(v, api)
    modifies api`proxies, api`clock
    ensures failed == !(ok && ValidateReleaseCreate(urlOk, DefaultRelease(p.spec)) == [])
    ensures Mirrors(if failed then v else Created(v, key, c, chart, p), api)
  {
    failed := api.Create(urlOk, p, ok);
  }

  method UpdateAlong(api: ApiServer, id: ProxyId, p: ReleaseProxy, ok: bool, ghost v: World) returns (failed: bool)
    requires Mirrors(v, api)
    modifies api`proxies, api`clock
    ensures failed == !(ok && UpdateAccepted(v, id, p))
    ensures Mirrors(if failed then v else Rewritten(v, id, p), api)
  {
    failed := api.Update(id, p, ok);
  }

  /** The create that constructHelmReleaseProxy asks for. */
  method StoreNew(api: ApiServer, hcp: ChartObject, urlOk: string -> bool, base: ChartProxy, c: ObjectKey,
                  p: ReleaseProxy, o: Oracle, ghost todo: map<ObjectKey, Cluster>, ghost start: World, ghost v: World)
    returns (failed: bool, ghost v': World)
    requires Mirrors(v, api) && OnTheWay(start, urlOk, hcp.key, o, v)
    requires Standing(v, hcp.key, base, Local(base, hcp), CreateProxy(todo, c, p))
    modifies api`proxies, api`clock, hcp`status
    ensures Mirrors(v', api) && OnTheWay(start, urlOk, hcp.key, o, v') && Settled(v', hcp, base, failed, todo)
    ensures failed == !CreatePasses(o, urlOk, c, p)
    ensures SameStores(if failed then v else Created(v, hcp.key, c, base.spec, p), v')
  {
    hide StepChart, OnTheWay, Created, ValidateReleaseCreate, DefaultRelease, Standing;
    v' := CreateTaken(urlOk, hcp.key, base, Local(base, hcp), todo, c, p, o, start, v);
    failed := CreateAlong(api, urlOk, p, o.create(c), v, hcp.key, c, base.spec);
    if failed {
      hcp.SetUpToDate(IsFalse);
    }
  }

  lemma CreateTaken(urlOk: string -> bool, key: ObjectKey, base: ChartProxy, local: ChartProxy,
                    todo: map<ObjectKey, Cluster>, c: ObjectKey, p: ReleaseProxy, o: Oracle, start: World, v: World)
    returns (v': World)
    requires OnTheWay(start, urlOk, key, o, v) && Standing(v, key, base, local, CreateProxy(todo, c, p))
    ensures OnTheWay(start, urlOk, key, o, v')
    ensures CreatePasses(o, urlOk, c, p) ==>
      SameStores(Created(v, key, c, base.spec, p), v') && Standing(v', key, base, local, NextCluster(todo))
    ensures !CreatePasses(o, urlOk, c, p) ==>
      SameStores(v, v') && Standing(v', key, base, WithUpToDate(local, IsFalse), FinishChart)
  {
    hide StepChart, OnTheWay, Created, ValidateReleaseCreate;
    var e := ChartEnv(o.create(c), 0, c, None);
    OneStepOn(start, urlOk, key, o, v, e);
    CreateStep(v, urlOk, key, base, local, todo, c, p, e);
    v' := StepChart(v, urlOk, key, v.chartJobs[key], e);
  }

  /** The update that constructHelmReleaseProxy asks for. */
  method StoreChanged(api: ApiServer, hcp: ChartObject, urlOk: string -> bool, base: ChartProxy, id: ProxyId,
                      p: ReleaseProxy, o: Oracle, ghost todo: map<ObjectKey, Cluster>, ghost seen: ReleaseProxy,
                      ghost start: World, ghost v: World) returns (failed: bool, ghost v': World)
    requires Mirrors(v, api) && OnTheWay(start, urlOk, hcp.key, o, v)
    requires Standing(v, hcp.key, base, Local(base, hcp), UpdateProxy(todo, id, seen, p))
    modifies api`proxies, api`clock, hcp`status
    ensures Mirrors(v', api) && OnTheWay(start, urlOk, hcp.key, o, v') && Settled(v', hcp, base, failed, todo)
    ensures failed == !UpdatePasses(o, v, id, p) && SameStores(if failed then v else Rewritten(v, id, p), v')
  {
    hide StepChart, OnTheWay, Rewritten, UpdateAccepted, Standing;
    v' := UpdateTaken(urlOk, hcp.key, base, Local(base, hcp), todo, id, seen, p, o, start, v);
    failed := UpdateAlong(api, id, p, o.update(id), v);
    if failed {
      hcp.SetUpToDate(IsFalse);
    }
  }

  lemma UpdateTaken(urlOk: string -> bool, key: ObjectKey, base: ChartProxy, local: ChartProxy,
                    todo: map<ObjectKey, Cluster>, id: ProxyId, seen: ReleaseProxy, p: ReleaseProxy, o: Oracle,
                    start: World, v: World) returns (v': World)
    requires OnTheWay(start, urlOk, key, o, v) && Standing(v, key, base, local, UpdateProxy(todo, id, seen, p))
    ensures OnTheWay(start, urlOk, key, o, v')
    ensures UpdatePasses(o, v, id, p) ==>
      SameStores(Rewritten(v, id, p), v') && Standing(v', key, base, local, NextCluster(todo))
    ensures !UpdatePasses(o, v, id, p) ==>
      SameStores(v, v') && Standing(v', key, base, WithUpToDate(local, IsFalse), FinishChart)
  {
    hide StepChart, OnTheWay, Rewritten, UpdateAccepted;
    var e := ChartEnv(o.update(id), id, key, None);
    OneStepOn(start, urlOk, key, o, v, e);
    UpdateStep(v, urlOk, key, base, local, todo, id, seen, p, e);
    v' := StepChart(v, urlOk, key, v.chartJobs[key], e);
  }

  /** Where the machine stands when the program has got to createOrUpdateHelmReleaseProxy. */
  ghost predicate AwaitsWrite(v: World, key: ObjectKey, base: ChartProxy, local: ChartProxy,
                              todo: map<ObjectKey, Cluster>, c: ObjectKey, id: Option<ProxyId>,
                              existing: Option<ReleaseProxy>, values: string)
  {
    match Phases.Construct(existing, key, base.spec, values, c)
    case None => Standing(v, key, base, local, NextCluster(todo))
    case Some(p) =>
      if id.None? || existing.None? then Standing(v, key, base, local, CreateProxy(todo, c, p))
      else Standing(v, key, base, local, UpdateProxy(todo, id.value, existing.value, p))
  }

  /** Whether createOrUpdateHelmReleaseProxy fails, and what it does to the store. */
  ghost predicate WriteFails(o: Oracle, urlOk: string -> bool, key: ObjectKey, base: ChartProxy, v: World, c: ObjectKey,
                             id: Option<ProxyId>, existing: Option<ReleaseProxy>, values: string)
  {
    match Phases.Construct(existing, key, base.spec, values, c)
    case None => false
    case Some(p) => if id.None? then !CreatePasses(o, urlOk, c, p) else !UpdatePasses(o, v, id.value, p)
  }

  ghost function AfterWrite(o: Oracle, urlOk: string -> bool, key: ObjectKey, base: ChartProxy, v: World, c: ObjectKey,
                            id: Option<ProxyId>, existing: Option<ReleaseProxy>, values: string): World
  {
    if WriteFails(o, urlOk, key, base, v, c, id, existing, values) then v
    else
      match Phases.Construct(existing, key, base.spec, values, c)
      case None => v
      case Some(p) => if id.None? then Created(v, key, c, base.spec, p) else Rewritten(v, id.value, p)
  }

  /** createOrUpdateHelmReleaseProxy. */
  method CreateOrUpdate(api: ApiServer, hcp: ChartObject, urlOk: string -> bool, base: ChartProxy, o: Oracle,
                        c: ObjectKey, id: Option<ProxyId>, existing: ReleaseObject?, values: string,
                        ghost todo: map<ObjectKey, Cluster>, ghost start: World, ghost v: World)
    returns (failed: bool, ghost v': World)
    requires Mirrors(v, api) && OnTheWay(start, urlOk, hcp.key, o, v) && hcp.Spec() == base.spec
    requires existing == null <==> id.None?
    requires AwaitsWrite(v, hcp.key, base, Local(base, hcp), todo, c, id, ValueOf(existing), values)
    modifies api`proxies, api`clock, hcp`status, if existing == null then {} else {existing}
    ensures Mirrors(v', api) && OnTheWay(start, urlOk, hcp.key, o, v') && Settled(v', hcp, base, failed, todo)
    ensures failed == WriteFails(o, urlOk, hcp.key, base, v, c, id, old(ValueOf(existing)), values)
    ensures SameStores(AfterWrite(o, urlOk, hcp.key, base, v, c, id, old(ValueOf(existing)), values), v')
    ensures hcp.Spec() == base.spec
  {
    hide StepChart, OnTheWay, Standing, Phases.Construct;
    ghost var seen := ValueOf(existing);
    var p := Objects.Construct(existing, hcp, values, c);
    if p == null {
      return false, v;
    }
    if existing == null {
      failed, v' := StoreNew(api, hcp, urlOk, base, c, p.Value(), o, todo, start, v);
    } else {
      failed, v' := StoreChanged(api, hcp, urlOk, base, id.value, p.Value(), o, todo, seen.value, start, v);
    }
  }

  /** The machine takes the decision of reconcileForCluster. */
  lemma DecisionTaken(urlOk: string -> bool, key: ObjectKey, base: ChartProxy, local: ChartProxy,
                      todo: map<ObjectKey, Cluster>, c: ObjectKey, id: Option<ProxyId>, o: Oracle, start: World,
                      v: World) returns (v': World)
    requires OnTheWay(start, urlOk, key, o, v) && Standing(v, key, base, local, NextCluster(todo)) && c in todo
    requires !todo[c].deleting && !todo[c].paused && !base.paused
    requires PairIds(v.proxies, key, c) == if id.None? then {} else {id.value}
    requires (id.Some? ==> id.value in v.proxies) && o.lookup(c)
    ensures OnTheWay(start, urlOk, key, o, v') && SameStores(v, v')
    ensures var existing := if id.Some? then Some(v.proxies[id.value]) else None;
      var left := todo - {c};
      match Decide(key, base.spec, c, existing, o.render(c))
      case Leave => Standing(v', key, base, local, NextCluster(left))
      case Reinstall => id.Some? && Standing(v', key, base, local, DeleteForReinstall(left, id.value))
      case RenderFailed => Standing(v', key, base, WithUpToDate(local, IsFalse), FinishChart)
      case Create(p) => Standing(v', key, base, local, CreateProxy(left, c, p))
      case Update(p) => id.Some? && Standing(v', key, base, local, UpdateProxy(left, id.value, v.proxies[id.value], p))
  {
    hide StepChart, OnTheWay, Act, Decide;
    var e := ChartEnv(true, if id.Some? then id.value else 0, c, o.render(c));
    OneStepOn(start, urlOk, key, o, v, e);
    LookupStep(v, urlOk, key, base, local, todo, e, id);
    ActStands(v, key, base, local, NextCluster(todo), todo - {c}, e, id);
    v' := StepChart(v, urlOk, key, v.chartJobs[key], e);
  }

  lemma WriteAwaited(v: World, key: ObjectKey, base: ChartProxy, local: ChartProxy, todo: map<ObjectKey, Cluster>,
                     c: ObjectKey, id: Option<ProxyId>, existing: Option<ReleaseProxy>, values: string)
    requires id.Some? <==> existing.Some?
    requires !(base.spec.strategy == InstallOnce && HasBeenInstalled(existing))
    requires base.spec.strategy != InstallOnce && existing.Some? ==> !ShouldReinstall(existing.value, base.spec)
    requires match Decide(key, base.spec, c, existing, Some(values))
      case Leave => Standing(v, key, base, local, NextCluster(todo))
      case Create(p) => Standing(v, key, base, local, CreateProxy(todo, c, p))
      case Update(p) =>
        && id.Some? && existing.Some?
        && Standing(v, key, base, local, UpdateProxy(todo, id.value, existing.value, p))
      case _ => false
    ensures AwaitsWrite(v, key, base, local, todo, c, id, existing, values)
  {
    hide Standing, ShouldReinstall;
  }

  /** The spec of one turn, by the branches of the program. */
  lemma TurnByBranch(o: Oracle, urlOk: string -> bool, key: ObjectKey, base: ChartProxy, v: World, c: ObjectKey,
                     id: Option<ProxyId>)
    requires id.Some? ==> id.value in v.proxies
    ensures var existing := Stored(v, id);
      var after := StoreAfter(o, urlOk, key, base, v, c, id);
      var fails := FailsOn(o, urlOk, key, base, v, c, id);
      if base.spec.strategy == InstallOnce && HasBeenInstalled(existing) then !fails && after == v
      else if base.spec.strategy != InstallOnce && existing.Some? && ShouldReinstall(existing.value, base.spec)
      then fails == !o.delete(id.value) && after == if fails then v else DeleteProxy(v, id.value)
      else if o.render(c).None? then fails && after == v
      else
        && fails == WriteFails(o, urlOk, key, base, v, c, id, existing, o.render(c).value)
        && after == AfterWrite(o, urlOk, key, base, v, c, id, existing, o.render(c).value)
  {
    hide ShouldReinstall, Created, Rewritten, UpdateAccepted, DeleteProxy, CreatePasses, UpdatePasses, SpecChanged;
  }

  /** reconcileForCluster, once the object of the pair is known. */
  method ActOn(api: ApiServer, hcp: ChartObject, urlOk: string -> bool, base: ChartProxy, o: Oracle, c: ObjectKey,
               id: Option<ProxyId>, existing: ReleaseObject?, ghost todo: map<ObjectKey, Cluster>, ghost start: World,
               ghost v: World) returns (failed: bool, ghost v': World)
    requires Mirrors(v, api) && OnTheWay(start, urlOk, hcp.key, o, v) && hcp.Spec() == base.spec
    requires Standing(v, hcp.key, base, Local(base, hcp), NextCluster(todo)) && c in todo
    requires !todo[c].deleting && !todo[c].paused && !base.paused && o.lookup(c)
    requires PairIds(v.proxies, hcp.key, c) == if id.None? then {} else {id.value}
    requires (existing == null <==> id.None?) && (id.Some? ==> id.value in v.proxies)
    requires ValueOf(existing) == if id.Some? then Some(v.proxies[id.value]) else None
    modifies api`proxies, api`clock, hcp`status, if existing == null then {} else {existing}
    ensures Mirrors(v', api) && OnTheWay(start, urlOk, hcp.key, o, v') && Settled(v', hcp, base, failed, todo - {c})
    ensures failed == FailsOn(o, urlOk, hcp.key, base, v, c, id)
    ensures SameStores(StoreAfter(o, urlOk, hcp.key, base, v, c, id), v')
    ensures hcp.Spec() == base.spec
  {
    hide OnTheWay, Standing, FailsOn, StoreAfter, WriteFails, AfterWrite, DeleteProxy;
    ghost var left := todo - {c};
    ghost var was := ValueOf(existing);
    TurnByBranch(o, urlOk, hcp.key, base, v, c, id);
    ghost var v1 := DecisionTaken(urlOk, hcp.key, base, Local(base, hcp), todo, c, id, o, start, v);
    assert Mirrors(v1, api);
    v' := v1;
    if hcp.plain.strategy == InstallOnce {
      if existing != null && existing.annotations.installed.Some? {
        return false, v';
      }
    } else if existing != null && ShouldReinstall(existing.Value(), hcp.Spec()) {
      DeletesAlike(v, v1, id.value);
      failed, v' := DeleteForReinstallNow(api, hcp, urlOk, base, id.value, o, left, start, v1);
      return;
    }
    if o.render(c).None? {
      hcp.SetUpToDate(IsFalse);
      return true, v';
    }
    failed, v' := WriteOn(api, hcp, urlOk, base, o, c, id, existing, left, start, v, v1);
  }

  /** The rest of reconcileForCluster: createOrUpdateHelmReleaseProxy with the rendered values. */
  method WriteOn(api: ApiServer, hcp: ChartObject, urlOk: string -> bool, base: ChartProxy, o: Oracle, c: ObjectKey,
                 id: Option<ProxyId>, existing: ReleaseObject?, ghost left: map<ObjectKey, Cluster>, ghost start: World,
                 ghost v: World, ghost v1: World) returns (failed: bool, ghost v': World)
    requires Mirrors(v1, api) && SameStores(v, v1) && OnTheWay(start, urlOk, hcp.key, o, v1) && hcp.Spec() == base.spec
    requires (existing == null <==> id.None?) && o.render(c).Some?
    requires !(base.spec.strategy == InstallOnce && HasBeenInstalled(ValueOf(existing)))
    requires base.spec.strategy != InstallOnce && existing != null ==> !ShouldReinstall(existing.Value(), base.spec)
    requires match Decide(hcp.key, base.spec, c, ValueOf(existing), o.render(c))
      case Leave => Standing(v1, hcp.key, base, Local(base, hcp), NextCluster(left))
      case Create(p) => Standing(v1, hcp.key, base, Local(base, hcp), CreateProxy(left, c, p))
      case Update(p) =>
        && id.Some? && existing != null
        && Standing(v1, hcp.key, base, Local(base, hcp), UpdateProxy(left, id.value, existing.Value(), p))
      case _ => false
    modifies api`proxies, api`clock, hcp`status, if existing == null then {} else {existing}
    ensures Mirrors(v', api) && OnTheWay(start, urlOk, hcp.key, o, v') && Settled(v', hcp, base, failed, left)
    ensures hcp.Spec() == base.spec
    ensures failed == WriteFails(o, urlOk, hcp.key, base, v, c, id, old(ValueOf(existing)), o.render(c).value)
    ensures SameStores(AfterWrite(o, urlOk, hcp.key, base, v, c, id, old(ValueOf(existing)), o.render(c).value), v')
  {
    hide OnTheWay, Standing, WriteFails, AfterWrite;
    ghost var was := ValueOf(existing);
    var values := o.render(c).value;
    WriteAwaited(v1, hcp.key, base, Local(base, hcp), left, c, id, was, values);
    WriteAlike(o, urlOk, hcp.key, base, v, v1, c, id, was, values);
    hide AwaitsWrite, Decide, ShouldReinstall;
    failed, v' := CreateOrUpdate(api, hcp, urlOk, base, o, c, id, existing, values, left, start, v1);
  }

  lemma WriteAlike(o: Oracle, urlOk: string -> bool, key: ObjectKey, base: ChartProxy, v: World, u: World, c: ObjectKey,
                   id: Option<ProxyId>, existing: Option<ReleaseProxy>, values: string)
    requires SameStores(v, u)
    ensures WriteFails(o, urlOk, key, base, u, c, id, existing, values) ==
            WriteFails(o, urlOk, key, base, v, c, id, existing, values)
    ensures SameStores(AfterWrite(o, urlOk, key, base, v, c, id, existing, values),
                       AfterWrite(o, urlOk, key, base, u, c, id, existing, values))
  {
    var r := Phases.Construct(existing, key, base.spec, values, c);
    if r.Some? {
      CreatesAlike(v, u, key, c, base.spec, r.value);
      if id.Some? {
        RewritesAlike(v, u, id.value, r.value);
      }
    }
    hide Phases.Construct, Created, Rewritten, UpdateAccepted;
  }

  /** The machine passes over a cluster, or gives up on its lookup. */
  lemma SkipTaken(urlOk: string -> bool, key: ObjectKey, base: ChartProxy, local: ChartProxy,
                  todo: map<ObjectKey, Cluster>, c: ObjectKey, o: Oracle, id: ProxyId, start: World, v: World)
    returns (v': World)
    requires OnTheWay(start, urlOk, key, o, v) && Standing(v, key, base, local, NextCluster(todo)) && c in todo
    requires todo[c].deleting || todo[c].paused || base.paused || !o.lookup(c) ||
             (id in PairIds(v.proxies, key, c) && PairIds(v.proxies, key, c) != {id})
    ensures OnTheWay(start, urlOk, key, o, v') && SameStores(v, v')
    ensures Standing(v', key, base, local,
      if todo[c].deleting || todo[c].paused || base.paused then NextCluster(todo - {c}) else FinishChart)
  {
    hide StepChart, OnTheWay;
    var e := ChartEnv(o.lookup(c), id, c, o.render(c));
    OneStepOn(start, urlOk, key, o, v, e);
    SkipStep(v, urlOk, key, base, local, todo, e);
    v' := StepChart(v, urlOk, key, v.chartJobs[key], e);
  }

  /** getExistingHelmReleaseProxy: none, exactly one, or an error. */
  method GetExisting(api: ApiServer, key: ObjectKey, c: ObjectKey) returns (many: bool, id: Option<ProxyId>)
    ensures many <==> PairIds(api.proxies, key, c) != {} && forall i :: PairIds(api.proxies, key, c) != {i}
    ensures many ==> id.Some? && id.value in PairIds(api.proxies, key, c)
    ensures !many ==> PairIds(api.proxies, key, c) == if id.None? then {} else {id.value}
  {
    var found := PairIds(api.proxies, key, c);
    if found == {} {
      return false, None;
    }
    var first :| first in found;
    assert forall i :: found == {i} ==> first in {i};
    return found != {first}, Some(first);
  }

  lemma OnlyOneIs(v: World, key: ObjectKey, c: ObjectKey, id: Option<ProxyId>)
    requires PairIds(v.proxies, key, c) == if id.None? then {} else {id.value}
    ensures OnlyOne(v, key, c) == id && !Several(v, key, c)
  {
    hide PairIds;
    if id.Some? {
      var found := PairIds(v.proxies, key, c);
      forall i | found == {i} ensures i == id.value {
        assert i in found;
      }
    } else {
      forall i ensures PairIds(v.proxies, key, c) != {i} {
        assert i in {i};
      }
    }
  }

  /** reconcileForCluster. */
  method ReconcileForCluster(api: ApiServer, hcp: ChartObject, urlOk: string -> bool, base: ChartProxy, o: Oracle,
                             c: ObjectKey, cluster: Cluster, ghost todo: map<ObjectKey, Cluster>, ghost start: World,
                             ghost v: World) returns (failed: bool, ghost v': World)
    requires Mirrors(v, api) && OnTheWay(start, urlOk, hcp.key, o, v) && hcp.Spec() == base.spec
    requires Standing(v, hcp.key, base, Local(base, hcp), NextCluster(todo)) && c in todo && todo[c] == cluster
    requires !cluster.deleting
    modifies api`proxies, api`clock, hcp`status
    ensures Mirrors(v', api) && OnTheWay(start, urlOk, hcp.key, o, v') && Settled(v', hcp, base, failed, todo - {c})
    ensures failed == TurnFails(o, urlOk, hcp.key, base, v, c, cluster)
    ensures SameStores(AfterTurn(o, urlOk, hcp.key, base, v, c, cluster), v')
    ensures hcp.Spec() == base.spec
  {
    hide OnTheWay, Standing;
    if cluster.paused || base.paused {
      v' := SkipTaken(urlOk, hcp.key, base, Local(base, hcp), todo, c, o, 0, start, v);
      return false, v';
    }
    if !o.lookup(c) {
      v' := SkipTaken(urlOk, hcp.key, base, Local(base, hcp), todo, c, o, 0, start, v);
      return true, v';
    }
    var many, id := GetExisting(api, hcp.key, c);
    if many {
      v' := SkipTaken(urlOk, hcp.key, base, Local(base, hcp), todo, c, o, id.value, start, v);
      return true, v';
    }
    assert id.Some? ==> id.value in PairIds(api.proxies, hcp.key, c);
    assert OnlyOne(v, hcp.key, c) == id by {
      OnlyOneIs(v, hcp.key, c, id);
    }
    hide PairIds;
    var existing: ReleaseObject? := null;
    if id.Some? {
      existing := new ReleaseObject.Read(api.proxies[id.value]);
    }
    failed, v' := ActOn(api, hcp, urlOk, base, o, c, id, existing, todo, start, v);
  }

  /* ---- all clusters ---- */

  ghost function Left(selected: map<ObjectKey, Cluster>, clusters: seq<ObjectKey>, n: nat): map<ObjectKey, Cluster>
    requires n <= |clusters|
  {
    selected - (set c <- clusters[..n])
  }

  ghost predicate DistinctKeys(clusters: seq<ObjectKey>) {
    forall i, k :: 0 <= i < k < |clusters| ==> clusters[i] != clusters[k]
  }

  lemma OneLeftLess(selected: map<ObjectKey, Cluster>, clusters: seq<ObjectKey>, n: nat)
    requires n < |clusters| && DistinctKeys(clusters) && clusters[n] in selected
    ensures clusters[n] in Left(selected, clusters, n)
    ensures Left(selected, clusters, n)[clusters[n]] == selected[clusters[n]]
    ensures Left(selected, clusters, n + 1) == Left(selected, clusters, n) - {clusters[n]}
  {
    assert clusters[..n + 1] == clusters[..n] + [clusters[n]];
  }

  /** Once left early, the loop is left for good. */
  lemma {:induction false} FailureStays(o: Oracle, urlOk: string -> bool, key: ObjectKey, base: ChartProxy, v: World,
                                        clusters: seq<ObjectKey>, selected: map<ObjectKey, Cluster>, i: nat, n: nat)
    requires i <= n <= |clusters| && forall c <- clusters :: c in selected
    requires LoopFails(o, urlOk, key, base, v, clusters, selected, i)
    ensures LoopFails(o, urlOk, key, base, v, clusters, selected, n)
    ensures AfterLoop(o, urlOk, key, base, v, clusters, selected, n) ==
            AfterLoop(o, urlOk, key, base, v, clusters, selected, i)
  {
    hide TurnFails, AfterTurn;
    if i < n {
      FailureStays(o, urlOk, key, base, v, clusters, selected, i, n - 1);
    }
  }

  lemma PassedTurn(o: Oracle, urlOk: string -> bool, key: ObjectKey, base: ChartProxy, v: World, c: ObjectKey,
                   cluster: Cluster)
    requires Passed(base, cluster)
    ensures !TurnFails(o, urlOk, key, base, v, c, cluster) && AfterTurn(o, urlOk, key, base, v, c, cluster) == v
  {
  }

  /** One turn of the loop of reconcileNormal, which passes over a cluster that is being deleted. */
  method Turn(api: ApiServer, hcp: ChartObject, urlOk: string -> bool, base: ChartProxy, o: Oracle, c: ObjectKey,
              cluster: Cluster, ghost todo: map<ObjectKey, Cluster>, ghost start: World, ghost v: World)
    returns (failed: bool, ghost v': World)
    requires Mirrors(v, api) && OnTheWay(start, urlOk, hcp.key, o, v) && hcp.Spec() == base.spec
    requires Standing(v, hcp.key, base, Local(base, hcp), NextCluster(todo)) && c in todo && todo[c] == cluster
    modifies api`proxies, api`clock, hcp`status
    ensures Mirrors(v', api) && OnTheWay(start, urlOk, hcp.key, o, v') && Settled(v', hcp, base, failed, todo - {c})
    ensures hcp.Spec() == base.spec
    ensures failed == TurnFails(o, urlOk, hcp.key, base, v, c, cluster)
    ensures SameStores(AfterTurn(o, urlOk, hcp.key, base, v, c, cluster), v')
  {
    hide OnTheWay, Standing, TurnFails, AfterTurn;
    if cluster.deleting {
      PassedTurn(o, urlOk, hcp.key, base, v, c, cluster);
      v' := SkipTaken(urlOk, hcp.key, base, Local(base, hcp), todo, c, o, 0, start, v);
      return false, v';
    }
    failed, v' := ReconcileForCluster(api, hcp, urlOk, base, o, c, cluster, todo, start, v);
  }

  lemma LoopBegins(o: Oracle, urlOk: string -> bool, key: ObjectKey, base: ChartProxy, v: World,
                   clusters: seq<ObjectKey>, selected: map<ObjectKey, Cluster>)
    requires forall c <- clusters :: c in selected
    ensures Left(selected, clusters, 0) == selected
    ensures !LoopFails(o, urlOk, key, base, v, clusters, selected, 0)
    ensures AfterLoop(o, urlOk, key, base, v, clusters, selected, 0) == v
  {
  }

  lemma LoopGoesOn(o: Oracle, urlOk: string -> bool, key: ObjectKey, base: ChartProxy, v: World,
                   clusters: seq<ObjectKey>, selected: map<ObjectKey, Cluster>, i: nat)
    requires i < |clusters| && forall c <- clusters :: c in selected
    requires !LoopFails(o, urlOk, key, base, v, clusters, selected, i)
    ensures var before := AfterLoop(o, urlOk, key, base, v, clusters, selected, i);
      var c := clusters[i];
      && LoopFails(o, urlOk, key, base, v, clusters, selected, i + 1) ==
           TurnFails(o, urlOk, key, base, before, c, selected[c])
      && AfterLoop(o, urlOk, key, base, v, clusters, selected, i + 1) ==
           AfterTurn(o, urlOk, key, base, before, c, selected[c])
  {
    hide TurnFails, AfterTurn;
  }

  lemma NoneLeft(selected: map<ObjectKey, Cluster>, clusters: seq<ObjectKey>)
    requires selected.Keys == Members(clusters)
    ensures Left(selected, clusters, |clusters|) == map[]
  {
    assert clusters[..|clusters|] == clusters;
  }

  /** The loop of reconcileNormal over the selected clusters, with its early return. */
  method ReconcileClusters(api: ApiServer, hcp: ChartObject, urlOk: string -> bool, base: ChartProxy, o: Oracle,
                           clusters: seq<ObjectKey>, selected: map<ObjectKey, Cluster>, ghost start: World,
                           ghost v: World) returns (failed: bool, ghost v': World)
    requires Mirrors(v, api) && OnTheWay(start, urlOk, hcp.key, o, v) && hcp.Spec() == base.spec
    requires Standing(v, hcp.key, base, Local(base, hcp), NextCluster(selected))
    requires DistinctKeys(clusters) && selected.Keys == Members(clusters)
    modifies api`proxies, api`clock, hcp`status
    ensures Mirrors(v', api) && OnTheWay(start, urlOk, hcp.key, o, v') && Settled(v', hcp, base, failed, map[])
    ensures hcp.Spec() == base.spec
    ensures failed == LoopFails(o, urlOk, hcp.key, base, v, clusters, selected, |clusters|)
    ensures SameStores(AfterLoop(o, urlOk, hcp.key, base, v, clusters, selected, |clusters|), v')
  {
    hide OnTheWay, Standing, TurnFails, AfterTurn, LoopFails, AfterLoop, Left;
    LoopBegins(o, urlOk, hcp.key, base, v, clusters, selected);
    v', failed := v, false;
    for i := 0 to |clusters|
      invariant Mirrors(v', api) && OnTheWay(start, urlOk, hcp.key, o, v') && hcp.Spec() == base.spec && !failed
      invariant Settled(v', hcp, base, false, Left(selected, clusters, i))
      invariant !LoopFails(o, urlOk, hcp.key, base, v, clusters, selected, i)
      invariant SameStores(AfterLoop(o, urlOk, hcp.key, base, v, clusters, selected, i), v')
    {
      var c := clusters[i];
      assert c in selected.Keys;
      OneLeftLess(selected, clusters, i);
      ghost var before := AfterLoop(o, urlOk, hcp.key, base, v, clusters, selected, i);
      TurnAlike(o, urlOk, hcp.key, base, before, v', c, selected[c]);
      LoopGoesOn(o, urlOk, hcp.key, base, v, clusters, selected, i);
      failed, v' := Turn(api, hcp, urlOk, base, o, c, selected[c], Left(selected, clusters, i), start, v');
      if failed {
        FailureStays(o, urlOk, hcp.key, base, v, clusters, selected, i + 1, |clusters|);
        return true, v';
      }
    }
    NoneLeft(selected, clusters);
  }

  /* ---- patches and lists ---- */

  lemma PatchesAlike(stored: ChartProxy, base: ChartProxy, a: ChartProxy, b: ChartProxy)
    requires SameButReady(a, b)
    ensures PatchedChart(stored, base, a) == PatchedChart(stored, base, b)
  {
  }

  /** patchHelmChartProxy: the summary is set on the object, then what changed is written. */
  method PatchAlong(api: ApiServer, hcp: ChartObject, base: ChartProxy, ok: bool, ghost v: World) returns (failed: bool)
    requires Mirrors(v, api) && hcp.key in v.chartJobs && v.chartJobs[hcp.key].base == base
    requires SameButReady(v.chartJobs[hcp.key].local, Local(base, hcp))
    modifies api`charts, hcp`status
    ensures failed == !(ok && hcp.key in v.charts)
    ensures Mirrors(if failed then v else PatchChart(v, hcp.key, v.chartJobs[hcp.key]), api)
    ensures SameButReady(v.chartJobs[hcp.key].local, Local(base, hcp))
  {
    hcp.status := hcp.status.(ready := Summary(hcp.status.upToDate, hcp.status.proxiesReady));
    if hcp.key in v.charts {
      PatchesAlike(v.charts[hcp.key], base, v.chartJobs[hcp.key].local, Local(base, hcp));
    }
    failed := api.PatchChart(hcp.key, base, Local(base, hcp), ok);
  }

  /** The items are the HelmReleaseProxies labelled with `key`, in some order. */
  ghost predicate Lists(items: seq<Item>, proxies: Proxies, key: ObjectKey) {
    && DistinctIds(items)
    && (forall i <- items :: i.id in LabelledIds(proxies, key) && i.proxy == proxies[i.id])
    && (forall id <- LabelledIds(proxies, key) :: Item(id, proxies[id]) in items)
  }

  /** listInstalledReleases. */
  method ListInstalledReleases(api: ApiServer, key: ObjectKey) returns (items: seq<Item>)
    ensures Lists(items, api.proxies, key)
  {
    var left := LabelledIds(api.proxies, key);
    items := [];
    while left != {}
      invariant left <= LabelledIds(api.proxies, key) && DistinctIds(items)
      invariant forall i <- items :: i.id in LabelledIds(api.proxies, key) - left && i.proxy == api.proxies[i.id]
      invariant forall id <- LabelledIds(api.proxies, key) - left :: Item(id, api.proxies[id]) in items
      decreases |left|
    {
      var id :| id in left;
      items := items + [Item(id, api.proxies[id])];
      left := left - {id};
    }
  }

  /** listClustersWithLabels, for a selector that parses. */
  method ListClustersWithLabels(api: ApiServer, key: ObjectKey, selector: Selector) returns (clusters: seq<ObjectKey>)
    ensures DistinctKeys(clusters) && Members(clusters) == Selected(api.clusters, key, selector).Keys
  {
    var left := Selected(api.clusters, key, selector).Keys;
    clusters := [];
    while left != {}
      invariant DistinctKeys(clusters) && forall c <- clusters :: c !in left
      invariant left + Members(clusters) == Selected(api.clusters, key, selector).Keys
      decreases |left|
    {
      var c :| c in left;
      clusters := clusters + [c];
      left := left - {c};
    }
  }

  /* ---- readiness ---- */

  /** What the aggregation makes of the listed objects, on a working copy. */
  ghost function Aggregated(local: ChartProxy, listed: set<ReleaseProxy>): ChartProxy {
    if listed == {} then WithProxiesReady(local, IsTrue)
    else if exists p <- listed :: p.generation != p.status.observedGeneration then WithUpToDate(local, IsFalse)
    else WithProxiesReady(local, if forall p <- listed :: p.status.ready == IsTrue then IsTrue else IsFalse)
  }

  ghost function ListedProxies(proxies: Proxies, key: ObjectKey): set<ReleaseProxy> {
    set id | id in LabelledIds(proxies, key) :: proxies[id]
  }

  lemma LoopEndStep(v: World, urlOk: string -> bool, key: ObjectKey, base: ChartProxy, local: ChartProxy, e: ChartEnv)
    requires Standing(v, key, base, local, NextCluster(map[]))
    ensures var v' := StepChart(v, urlOk, key, v.chartJobs[key], e);
      SameStores(v, v') && Standing(v', key, base, WithUpToDate(local, IsTrue), AggregateReady)
  {
    var j := v.chartJobs[key];
    assert StepChart(v, urlOk, key, j, e) == Goto(v, key, SetUpToDate(j, IsTrue), AggregateReady);
    GotoStands(v, key, SetUpToDate(j, IsTrue), AggregateReady, WithUpToDate(local, IsTrue));
  }

  lemma AggregatedAlike(j: ChartJob, local: ChartProxy, listed: set<ReleaseProxy>)
    requires SameButReady(j.local, local)
    ensures SameButReady(Aggregate(j, listed).local, Aggregated(local, listed)) && Aggregate(j, listed).base == j.base
  {
  }

  lemma AggregateStep(v: World, urlOk: string -> bool, key: ObjectKey, base: ChartProxy, local: ChartProxy, e: ChartEnv)
    requires Standing(v, key, base, local, AggregateReady)
    ensures var v' := StepChart(v, urlOk, key, v.chartJobs[key], e);
      && SameStores(v, v')
      && Standing(v', key, base, if e.apiOk then Aggregated(local, ListedProxies(v.proxies, key)) else local,
                  FinishChart)
  {
    var j := v.chartJobs[key];
    var listed := ListedProxies(v.proxies, key);
    assert StepChart(v, urlOk, key, j, e) == StepAggregate(v, key, j, e);
    AggregatedAlike(j, local, listed);
    hide StepChart, Aggregated, Aggregate;
    GotoStands(v, key, j, FinishChart, local);
    GotoStands(v, key, Aggregate(j, listed), FinishChart, Aggregated(local, listed));
  }

  /** The end of the loop and the aggregation, on the machine. */
  lemma AggregationTaken(urlOk: string -> bool, key: ObjectKey, base: ChartProxy, local: ChartProxy, o: Oracle,
                         start: World, v: World) returns (v': World)
    requires OnTheWay(start, urlOk, key, o, v) && Standing(v, key, base, local, NextCluster(map[]))
    ensures OnTheWay(start, urlOk, key, o, v') && SameStores(v, v')
    ensures var upToDate := WithUpToDate(local, IsTrue);
      Standing(v', key, base,
               if o.aggregate then Aggregated(upToDate, ListedProxies(v.proxies, key)) else upToDate, FinishChart)
  {
    hide OnTheWay, StepChart, Aggregated;
    var d, e := ChartEnv(o.lookup(key), 0, key, o.render(key)), ChartEnv(o.aggregate, 0, key, None);
    OneStepOn(start, urlOk, key, o, v, d);
    LoopEndStep(v, urlOk, key, base, local, d);
    var v1 := StepChart(v, urlOk, key, v.chartJobs[key], d);
    OneStepOn(start, urlOk, key, o, v1, e);
    AggregateStep(v1, urlOk, key, base, WithUpToDate(local, IsTrue), e);
    v' := StepChart(v1, urlOk, key, v1.chartJobs[key], e);
  }

  lemma ListedInItems(items: seq<Item>, proxies: Proxies, key: ObjectKey)
    requires Lists(items, proxies, key)
    ensures ListedProxies(proxies, key) == set i <- items :: i.proxy
    ensures (items == []) == (ListedProxies(proxies, key) == {})
  {
    forall p <- ListedProxies(proxies, key) ensures p in (set i <- items :: i.proxy) {
      var id :| id in LabelledIds(proxies, key) && proxies[id] == p;
      assert Item(id, proxies[id]) in items;
    }
    assert items != [] ==> items[0].proxy in ListedProxies(proxies, key);
  }

  /** aggregateHelmReleaseProxyReadyCondition. */
  method AggregateReadiness(api: ApiServer, hcp: ChartObject, base: ChartProxy, ok: bool) returns (failed: bool)
    modifies hcp`status
    ensures failed == !ok
    ensures Local(base, hcp) == old(if ok then Aggregated(Local(base, hcp), ListedProxies(api.proxies, hcp.key))
                                    else Local(base, hcp))
  {
    if !ok {
      return true;
    }
    var items := ListInstalledReleases(api, hcp.key);
    ListedInItems(items, api.proxies, hcp.key);
    ghost var listed := ListedProxies(api.proxies, hcp.key);
    if items == [] {
      hcp.SetProxiesReady(IsTrue);
      return false;
    }
    var outdated, ready := Verdict(items);
    assert outdated <==> exists p <- listed :: p.generation != p.status.observedGeneration;
    if outdated {
      hcp.SetUpToDate(IsFalse);
      return false;
    }
    assert ready <==> forall p <- listed :: p.status.ready == IsTrue;
    hcp.SetProxiesReady(if ready then IsTrue else IsFalse);
    return false;
  }

  /* ---- deletion ---- */

  lemma TeardownStep(v: World, urlOk: string -> bool, key: ObjectKey, base: ChartProxy, local: ChartProxy,
                     todelete: set<ProxyId>, waiting: set<ProxyId>, ready: bool, e: ChartEnv)
    requires Standing(v, key, base, local, Teardown(todelete, waiting, ready)) && e.id in todelete
    ensures var v' := StepChart(v, urlOk, key, v.chartJobs[key], e);
      if e.apiOk
      then SameStores(DeleteProxy(v, e.id), v') &&
           Standing(v', key, base, local, TeardownCheck(todelete - {e.id}, waiting, ready, e.id))
      else SameStores(v, v') && Standing(v', key, base, local, FinishChart)
  {
    var j := v.chartJobs[key];
    assert todelete != {};
    assert StepChart(v, urlOk, key, j, e) == StepTeardown(v, key, j, e);
    GotoStands(v, key, j, FinishChart, local);
    GotoStands(DeleteProxy(v, e.id), key, j, TeardownCheck(todelete - {e.id}, waiting, ready, e.id), local);
  }

  lemma CheckStep(v: World, urlOk: string -> bool, key: ObjectKey, base: ChartProxy, local: ChartProxy,
                  todelete: set<ProxyId>, waiting: set<ProxyId>, ready: bool, id: ProxyId, e: ChartEnv)
    requires Standing(v, key, base, local, TeardownCheck(todelete, waiting, ready, id))
    ensures var v' := StepChart(v, urlOk, key, v.chartJobs[key], e);
      && SameStores(v, v')
      && (!e.apiOk ==> Standing(v', key, base, local, FinishChart))
      && (e.apiOk && id !in v.proxies ==> Standing(v', key, base, local, Teardown(todelete, waiting, ready)))
      && (e.apiOk && id in v.proxies ==>
            Standing(v', key, base, local,
                     Teardown(todelete, waiting + {id}, ready && v.proxies[id].status.ready == IsTrue)))
  {
    var j := v.chartJobs[key];
    assert StepChart(v, urlOk, key, j, e) == StepTeardownCheck(v, key, j, e);
    GotoStands(v, key, j, FinishChart, local);
    GotoStands(v, key, j, Teardown(todelete, waiting, ready), local);
    if id in v.proxies {
      GotoStands(v, key, j, Teardown(todelete, waiting + {id}, ready && v.proxies[id].status.ready == IsTrue), local);
    }
  }

  /** One turn of the loop of reconcileDelete, on the machine: deleted, then looked up. */
  lemma TurnTaken(urlOk: string -> bool, key: ObjectKey, base: ChartProxy, local: ChartProxy, todelete: set<ProxyId>,
                  waiting: set<ProxyId>, ready: bool, id: ProxyId, o: Oracle, start: World, v: World)
    returns (v': World)
    requires OnTheWay(start, urlOk, key, o, v) && Standing(v, key, base, local, Teardown(todelete, waiting, ready))
    requires id in todelete
    ensures OnTheWay(start, urlOk, key, o, v') && SameStores(if o.delete(id) then DeleteProxy(v, id) else v, v')
    ensures !o.delete(id) || !o.get(id) ==> Standing(v', key, base, local, FinishChart)
    ensures o.delete(id) && o.get(id) && id !in v'.proxies ==>
      Standing(v', key, base, local, Teardown(todelete - {id}, waiting, ready))
    ensures o.delete(id) && o.get(id) && id in v'.proxies ==>
      Standing(v', key, base, local,
               Teardown(todelete - {id}, waiting + {id}, ready && v'.proxies[id].status.ready == IsTrue))
  {
    hide OnTheWay, StepChart, DeleteProxy;
    var e, f := ChartEnv(o.delete(id), id, key, None), ChartEnv(o.get(id), id, key, None);
    OneStepOn(start, urlOk, key, o, v, e);
    TeardownStep(v, urlOk, key, base, local, todelete, waiting, ready, e);
    v' := StepChart(v, urlOk, key, v.chartJobs[key], e);
    if o.delete(id) {
      OneStepOn(start, urlOk, key, o, v', f);
      CheckStep(v', urlOk, key, base, local, todelete - {id}, waiting, ready, id, f);
      v' := StepChart(v', urlOk, key, v'.chartJobs[key], f);
    }
  }

  /** What is waited for after some turns: those of their objects that are still stored. */
  ghost predicate StillThere(items: seq<Item>, v: World, waiting: set<ProxyId>, ready: bool) {
    && waiting == (set i <- items | i.id in v.proxies :: i.id)
    && (ready <==> forall id <- waiting :: v.proxies[id].status.ready == IsTrue)
  }

  lemma StillThereMeans(items: seq<Item>, v: World, waiting: set<ProxyId>, ready: bool)
    requires StillThere(items, v, waiting, ready)
    ensures waiting == set i <- items | i.id in v.proxies :: i.id
    ensures ready <==> forall id <- waiting :: v.proxies[id].status.ready == IsTrue
    ensures forall u: World | u.proxies == v.proxies :: StillThere(items, u, waiting, ready)
  {
  }

  lemma NoneThere(v: World)
    ensures StillThere([], v, {}, true)
  {
  }

  lemma StillThereAfter(items: seq<Item>, i: nat, v: World, waiting: set<ProxyId>, ready: bool)
    requires i < |items| && DistinctIds(items) && StillThere(items[..i], v, waiting, ready)
    ensures var id := items[i].id;
      var u := DeleteProxy(v, id);
      if id in u.proxies
      then StillThere(items[..i + 1], u, waiting + {id}, ready && u.proxies[id].status.ready == IsTrue)
      else StillThere(items[..i + 1], u, waiting, ready)
  {
    var id := items[i].id;
    var u := DeleteProxy(v, id);
    DeleteLeavesOthers(v, id);
    hide DeleteProxy;
    assert items[..i + 1] == items[..i] + [items[i]];
    forall k | 0 <= k < i ensures items[k].id != id {
    }
    assert forall k <- items[..i] :: (k.id in u.proxies <==> k.id in v.proxies) && k.id != id;
    assert forall k <- waiting :: k in u.proxies && u.proxies[k] == v.proxies[k];
  }

  lemma DeleteLeavesOthers(v: World, id: ProxyId)
    ensures forall k | k != id :: k in DeleteProxy(v, id).proxies <==> k in v.proxies
    ensures forall k <- v.proxies | k != id :: DeleteProxy(v, id).proxies[k] == v.proxies[k]
  {
  }

  lemma OneMoreTurn(o: Oracle, v: World, ids: seq<ProxyId>, i: nat)
    requires i < |ids| && !TeardownFails(o, ids[..i])
    ensures TeardownFails(o, ids[..i + 1]) == !(o.delete(ids[i]) && o.get(ids[i]))
    ensures var before := AfterTeardown(o, v, ids[..i]);
      AfterTeardown(o, v, ids[..i + 1]) == if o.delete(ids[i]) then DeleteProxy(before, ids[i]) else before
  {
    assert ids[..i + 1] == ids[..i] + [ids[i]];
    assert ids[..i + 1][..i] == ids[..i];
  }

  /** reconcileDelete: every listed proxy is deleted and looked up again; `done` says that none
      of them is left. */
  method DeleteReleases(api: ApiServer, hcp: ChartObject, urlOk: string -> bool, base: ChartProxy, o: Oracle,
                        items: seq<Item>, ghost start: World, ghost v: World)
    returns (failed: bool, done: bool, ghost v': World, ghost waiting: set<ProxyId>, ready: bool)
    requires Mirrors(v, api) && OnTheWay(start, urlOk, hcp.key, o, v) && DistinctIds(items)
    requires Standing(v, hcp.key, base, Local(base, hcp), Teardown(Ids(items), {}, true))
    modifies api`proxies, api`clock
    ensures Mirrors(v', api) && OnTheWay(start, urlOk, hcp.key, o, v') && (done <==> waiting == {})
    ensures Standing(v', hcp.key, base, Local(base, hcp), if failed then FinishChart else Teardown({}, waiting, ready))
    ensures failed == TeardownFails(o, IdSeq(items)) && SameStores(AfterTeardown(o, v, IdSeq(items)), v')
    ensures !failed ==> waiting == (set i <- items | i.id in v'.proxies :: i.id)
    ensures !failed ==> (ready <==> forall id <- waiting :: v'.proxies[id].status.ready == IsTrue)
  {
    hide OnTheWay, Standing, TeardownFails, AfterTeardown, DeleteProxy, StillThere;
    assert StillThere([], v, {}, true) by {
      NoneThere(v);
    }
    v', waiting, ready, done, failed := v, {}, true, true, false;
    assert items[0..] == items;
    ghost var ids := IdSeq(items);
    assert ids[..0] == [] && items[..0] == [];
    NothingDeleted(o, v);
    for i := 0 to |items|
      invariant Mirrors(v', api) && OnTheWay(start, urlOk, hcp.key, o, v') && !failed && (done <==> waiting == {})
      invariant Standing(v', hcp.key, base, Local(base, hcp), Teardown(Ids(items[i..]), waiting, ready))
      invariant !TeardownFails(o, ids[..i]) && SameStores(AfterTeardown(o, v, ids[..i]), v')
      invariant StillThere(items[..i], v', waiting, ready)
    {
      var id := items[i].id;
      OneMoreTurn(o, v, ids, i);
      DeletesAlike(AfterTeardown(o, v, ids[..i]), v', id);
      StillThereAfter(items, i, v', waiting, ready);
      ghost var u := DeleteProxy(v', id);
      RestOfIds(items, i);
      ghost var v1 := TurnTaken(urlOk, hcp.key, base, Local(base, hcp), Ids(items[i..]), waiting, ready, id, o, start,
                                v');
      failed := DeleteAlong(api, id, o.delete(id), v');
      v' := v1;
      if failed || !o.get(id) {
        EarlyExitsStay(o, v, ids, i + 1);
        return true, done, v', waiting, ready;
      }
      if id in api.proxies {
        waiting, done := waiting + {id}, false;
        ready := ready && api.proxies[id].status.ready == IsTrue;
      }
      StillThereMeans(items[..i + 1], u, waiting, ready);
    }
    assert Ids(items[|items|..]) == {} && items[..|items|] == items && ids[..|items|] == ids;
    StillThereMeans(items, v', waiting, ready);
  }

  /** What follows the loop of reconcileDelete, on the machine. */
  lemma TeardownEndTaken(urlOk: string -> bool, key: ObjectKey, base: ChartProxy, local: ChartProxy,
                         waiting: set<ProxyId>, ready: bool, o: Oracle, start: World, v: World) returns (v': World)
    requires OnTheWay(start, urlOk, key, o, v) && Standing(v, key, base, local, Teardown({}, waiting, ready))
    ensures OnTheWay(start, urlOk, key, o, v') && SameStores(v, v')
    ensures if waiting == {} then Standing(v', key, base, local.(finalizer := false), DropFinalizer)
      else Standing(v', key, base, WithProxiesReady(local, if ready then IsTrue else IsFalse), FinishChart)
  {
    hide OnTheWay;
    var e := ChartEnv(o.delete(0), 0, key, None);
    var j := v.chartJobs[key];
    var x := if ready then IsTrue else IsFalse;
    OneStepOn(start, urlOk, key, o, v, e);
    v' := StepTeardown(v, key, j, e);
    assert StepChart(v, urlOk, key, j, e) == v';
    GotoStands(v, key, SetChartFinalizer(j, false), DropFinalizer, local.(finalizer := false));
    GotoStands(v, key, SetProxiesReady(j, x), FinishChart, WithProxiesReady(local, x));
    hide Goto, StepChart;
  }

  /** A patch of the machine that leaves the reconcile at its end. */
  lemma DropTaken(urlOk: string -> bool, key: ObjectKey, base: ChartProxy, local: ChartProxy, o: Oracle, start: World,
                  v: World) returns (v': World)
    requires OnTheWay(start, urlOk, key, o, v) && Standing(v, key, base, local, DropFinalizer)
    ensures OnTheWay(start, urlOk, key, o, v') && Standing(v', key, base, local, FinishChart)
    ensures SameStores(if o.dropFinalizer && key in v.charts then PatchChart(v, key, v.chartJobs[key]) else v, v')
    ensures v'.chartJobs[key].local == v.chartJobs[key].local
  {
    hide OnTheWay, PatchedChart, PutChart;
    var e := ChartEnv(o.dropFinalizer, 0, key, None);
    var j := v.chartJobs[key];
    OneStepOn(start, urlOk, key, o, v, e);
    v' := StepDropFinalizer(v, key, j, e);
    assert StepChart(v, urlOk, key, j, e) == v';
  }

  /** The branch of Reconcile for a HelmChartProxy that is being deleted and has the finalizer. */
  method TearDown(api: ApiServer, hcp: ChartObject, urlOk: string -> bool, base: ChartProxy, o: Oracle,
                  items: seq<Item>, ghost start: World, ghost v: World) returns (ghost v': World)
    requires Mirrors(v, api) && OnTheWay(start, urlOk, hcp.key, o, v) && DistinctIds(items)
    requires Standing(v, hcp.key, base, Local(base, hcp), Teardown(Ids(items), {}, true))
    modifies api`charts, api`proxies, api`clock, hcp`status, hcp`finalizer
    ensures Mirrors(v', api) && OnTheWay(start, urlOk, hcp.key, o, v')
    ensures Standing(v', hcp.key, base, Local(base, hcp), FinishChart)
  {
    hide OnTheWay;
    var failed, done, v1, waiting, ready := DeleteReleases(api, hcp, urlOk, base, o, items, start, v);
    v' := v1;
    if failed {
      return v';
    }
    v' := TeardownEndTaken(urlOk, hcp.key, base, Local(base, hcp), waiting, ready, o, start, v1);
    if !done {
      hcp.SetProxiesReady(if ready then IsTrue else IsFalse);
      return v';
    }
    hcp.finalizer := false;
    ghost var v2 := v';
    v' := DropTaken(urlOk, hcp.key, base, Local(base, hcp), o, start, v2);
    failed := PatchAlong(api, hcp, base, o.dropFinalizer, v2);
  }

  /* ---- the whole reconcile ---- */

  function WithMatching(c: ChartProxy, matching: set<ObjectKey>): ChartProxy {
    c.(status := c.status.(matching := matching))
  }

  lemma ListClustersTaken(urlOk: string -> bool, key: ObjectKey, base: ChartProxy, local: ChartProxy, o: Oracle,
                          start: World, v: World) returns (v': World)
    requires OnTheWay(start, urlOk, key, o, v) && Standing(v, key, base, local, ListClusters)
    ensures OnTheWay(start, urlOk, key, o, v') && SameStores(v, v')
    ensures var selected := Selected(v.clusters, key, base.spec.selector);
      if !o.listClusters || !SelectorParses(base.spec.selector)
      then Standing(v', key, base, WithUpToDate(local, IsFalse), FinishChart)
      else Standing(v', key, base, WithMatching(local, selected.Keys), ListReleases(selected))
  {
    hide OnTheWay, Selected, SelectorParses;
    var e := ChartEnv(o.listClusters, 0, key, None);
    var j := v.chartJobs[key];
    var selected := Selected(v.clusters, key, base.spec.selector);
    OneStepOn(start, urlOk, key, o, v, e);
    v' := StepListClusters(v, key, j, e);
    assert StepChart(v, urlOk, key, j, e) == v';
    var j1 := j.(local := j.local.(status := j.local.status.(matching := selected.Keys)));
    GotoStands(v, key, SetUpToDate(j, IsFalse), FinishChart, WithUpToDate(local, IsFalse));
    GotoStands(v, key, j1, ListReleases(selected), WithMatching(local, selected.Keys));
    hide StepChart, Goto, Standing;
  }

  lemma ListReleasesTaken(urlOk: string -> bool, key: ObjectKey, base: ChartProxy, local: ChartProxy,
                          selected: map<ObjectKey, Cluster>, o: Oracle, start: World, v: World) returns (v': World)
    requires OnTheWay(start, urlOk, key, o, v) && Standing(v, key, base, local, ListReleases(selected))
    ensures OnTheWay(start, urlOk, key, o, v') && SameStores(v, v')
    ensures var listed := Listed(v.proxies, key);
      if !o.listReleases || (base.deleting && !base.finalizer) then Standing(v', key, base, local, FinishChart)
      else if base.deleting then Standing(v', key, base, local, Teardown(LabelledIds(v.proxies, key), {}, true))
      else if base.finalizer then Standing(v', key, base, local, WorkPc(base, selected, listed))
      else Standing(v', key, base, local.(finalizer := true), AddFinalizer(selected, listed))
  {
    hide OnTheWay;
    var e := ChartEnv(o.listReleases, 0, key, None);
    var j := v.chartJobs[key];
    var listed := Listed(v.proxies, key);
    assert listed.Keys == LabelledIds(v.proxies, key);
    OneStepOn(start, urlOk, key, o, v, e);
    v' := StepListReleases(v, key, j, e);
    assert StepChart(v, urlOk, key, j, e) == v';
    hide StepChart, LabelledIds;
    if !o.listReleases {
    } else if base.deleting {
    } else if base.finalizer {
    } else {
    }
  }

  lemma AddFinalizerTaken(urlOk: string -> bool, key: ObjectKey, base: ChartProxy, local: ChartProxy,
                          selected: map<ObjectKey, Cluster>, listed: Proxies, o: Oracle, start: World, v: World)
    returns (v': World)
    requires OnTheWay(start, urlOk, key, o, v) && Standing(v, key, base, local, AddFinalizer(selected, listed))
    ensures OnTheWay(start, urlOk, key, o, v')
    ensures Standing(v', key, base, local,
                     if o.addFinalizer && key in v.charts then WorkPc(base, selected, listed) else FinishChart)
    ensures SameStores(if o.addFinalizer && key in v.charts then PatchChart(v, key, v.chartJobs[key]) else v, v')
    ensures v'.chartJobs[key].local == v.chartJobs[key].local
  {
    hide OnTheWay, PatchChart, WorkPc;
    var e := ChartEnv(o.addFinalizer, 0, key, None);
    var j := v.chartJobs[key];
    OneStepOn(start, urlOk, key, o, v, e);
    v' := StepAddFinalizer(v, key, j, e);
    assert StepChart(v, urlOk, key, j, e) == v';
    var v1 := if o.addFinalizer && key in v.charts then PatchChart(v, key, j) else v;
    GotoStands(v, key, j, FinishChart, local);
    GotoStands(v1, key, j, WorkPc(base, selected, listed), local);
    assert v' == Goto(v1, key, j,
                      if o.addFinalizer && key in v.charts then WorkPc(base, selected, listed) else FinishChart);
    hide StepChart;
  }

  lemma FinishTaken(urlOk: string -> bool, key: ObjectKey, base: ChartProxy, local: ChartProxy, o: Oracle, start: World,
                    v: World) returns (v': World)
    requires OnTheWay(start, urlOk, key, o, v) && Standing(v, key, base, local, FinishChart)
    ensures OnTheWay(start, urlOk, key, o, v') && key !in v'.chartJobs
    ensures SameStores(if o.finish && key in v.charts then PatchChart(v, key, v.chartJobs[key]) else v, v')
  {
    hide OnTheWay, PatchedChart, PutChart;
    var e := ChartEnv(o.finish, 0, key, None);
    var j := v.chartJobs[key];
    OneStepOn(start, urlOk, key, o, v, e);
    v' := StepFinishChart(v, key, j, e);
    assert StepChart(v, urlOk, key, j, e) == v';
  }

  lemma OrphanIdsMatch(items: seq<Item>, proxies: Proxies, key: ObjectKey, selected: map<ObjectKey, Cluster>,
                       clusters: seq<ObjectKey>)
    requires Lists(items, proxies, key) && Members(clusters) == selected.Keys
    ensures Ids(OrphansOf(items, Members(clusters))) == OrphanIds(Listed(proxies, key), selected)
    ensures Ids(items) == LabelledIds(proxies, key)
  {
    OrphansAreExactly(items, Members(clusters));
    forall id <- LabelledIds(proxies, key)
      ensures id in Ids(items)
      ensures proxies[id].spec.cluster !in selected ==> id in Ids(OrphansOf(items, Members(clusters)))
    {
      assert Item(id, proxies[id]) in items;
    }
  }

  /** The namespaces of everything that is listed are slash-free, as Kubernetes demands. */
  ghost predicate NamesOk(clusters: map<ObjectKey, Cluster>, proxies: Proxies) {
    && (forall c <- clusters :: SlashFree(c.namespace))
    && (forall id <- proxies :: SlashFree(proxies[id].spec.cluster.namespace))
  }

  /** reconcileNormal, the aggregation that follows it, and the finalizer before it. */
  method KeepInstalled(api: ApiServer, hcp: ChartObject, urlOk: string -> bool, base: ChartProxy, o: Oracle,
                       clusters: seq<ObjectKey>, selected: map<ObjectKey, Cluster>, items: seq<Item>,
                       ghost start: World, ghost v: World) returns (ghost v': World)
    requires Mirrors(v, api) && OnTheWay(start, urlOk, hcp.key, o, v) && hcp.Spec() == base.spec
    requires DistinctKeys(clusters) && selected.Keys == Members(clusters) && DistinctIds(items)
    requires forall c <- clusters :: SlashFree(c.namespace)
    requires forall i <- items :: SlashFree(i.proxy.spec.cluster.namespace)
    requires Standing(v, hcp.key, base, Local(base, hcp),
      if base.spec.strategy == InstallOnce then NextCluster(selected)
      else DeleteOrphans(selected, Ids(OrphansOf(items, Members(clusters)))))
    modifies api`proxies, api`clock, hcp`status
    ensures Mirrors(v', api) && OnTheWay(start, urlOk, hcp.key, o, v')
    ensures Standing(v', hcp.key, base, Local(base, hcp), FinishChart)
  {
    hide OnTheWay, Standing;
    v' := v;
    var failed := false;
    if hcp.plain.strategy != InstallOnce {
      failed, v' := DeleteOrphaned(api, hcp, urlOk, base, o, clusters, items, selected, start, v');
      if failed {
        return v';
      }
    }
    failed, v' := ReconcileClusters(api, hcp, urlOk, base, o, clusters, selected, start, v');
    if failed {
      return v';
    }
    hide Aggregated;
    ghost var v1 := v';
    v' := AggregationTaken(urlOk, hcp.key, base, Local(base, hcp), o, start, v1);
    hcp.SetUpToDate(IsTrue);
    failed := AggregateReadiness(api, hcp, base, o.aggregate);
  }

  /** The finalizer of a HelmChartProxy that is not being deleted. */
  method EnsureFinalizer(api: ApiServer, hcp: ChartObject, urlOk: string -> bool, base: ChartProxy, o: Oracle,
                         ghost selected: map<ObjectKey, Cluster>, ghost listed: Proxies, ghost start: World,
                         ghost v: World) returns (go: bool, ghost v': World)
    requires Mirrors(v, api) && OnTheWay(start, urlOk, hcp.key, o, v) && hcp.finalizer == base.finalizer
    requires Standing(v, hcp.key, base, Local(base, hcp).(finalizer := true),
                      if base.finalizer then WorkPc(base, selected, listed) else AddFinalizer(selected, listed))
    modifies api`charts, hcp`status, hcp`finalizer
    ensures Mirrors(v', api) && OnTheWay(start, urlOk, hcp.key, o, v')
    ensures Standing(v', hcp.key, base, Local(base, hcp), if go then WorkPc(base, selected, listed) else FinishChart)
  {
    hide OnTheWay, WorkPc;
    v', go := v, true;
    assert hcp.finalizer ==> Local(base, hcp).(finalizer := true) == Local(base, hcp);
    if !hcp.finalizer {
      hcp.finalizer := true;
      v' := AddFinalizerTaken(urlOk, hcp.key, base, Local(base, hcp), selected, listed, o, start, v);
      var failed := PatchAlong(api, hcp, base, o.addFinalizer, v);
      go := !failed;
    }
  }

  /** Everything after both lists have been read. */
  method WorkOnLists(api: ApiServer, hcp: ChartObject, urlOk: string -> bool, base: ChartProxy, o: Oracle,
                     clusters: seq<ObjectKey>, selected: map<ObjectKey, Cluster>, items: seq<Item>, ghost start: World,
                     ghost v: World) returns (ghost v': World)
    requires Mirrors(v, api) && OnTheWay(start, urlOk, hcp.key, o, v) && hcp.Spec() == base.spec
    requires hcp.finalizer == base.finalizer && NamesOk(api.clusters, api.proxies)
    requires DistinctKeys(clusters) && selected.Keys == Members(clusters) && selected.Keys <= api.clusters.Keys
    requires Lists(items, api.proxies, hcp.key)
    requires var listed := Listed(api.proxies, hcp.key);
      var local := Local(base, hcp);
      if base.deleting && !base.finalizer then Standing(v, hcp.key, base, local, FinishChart)
      else if base.deleting
      then Standing(v, hcp.key, base, local, Teardown(LabelledIds(api.proxies, hcp.key), {}, true))
      else if base.finalizer then Standing(v, hcp.key, base, local, WorkPc(base, selected, listed))
      else Standing(v, hcp.key, base, local.(finalizer := true), AddFinalizer(selected, listed))
    modifies api`charts, api`proxies, api`clock, hcp`status, hcp`finalizer
    ensures Mirrors(v', api) && OnTheWay(start, urlOk, hcp.key, o, v')
    ensures Standing(v', hcp.key, base, Local(base, hcp), FinishChart)
  {
    hide OnTheWay, Standing;
    v' := v;
    ghost var listed := Listed(api.proxies, hcp.key);
    OrphanIdsMatch(items, api.proxies, hcp.key, selected, clusters);
    if !base.deleting {
      assert hcp.finalizer ==> Local(base, hcp).(finalizer := true) == Local(base, hcp);
      assert forall i <- items :: SlashFree(i.proxy.spec.cluster.namespace);
      assert forall c <- clusters :: SlashFree(c.namespace) by {
        assert forall c <- clusters :: c in selected.Keys;
      }
      var go;
      go, v' := EnsureFinalizer(api, hcp, urlOk, base, o, selected, listed, start, v');
      if go {
        v' := KeepInstalled(api, hcp, urlOk, base, o, clusters, selected, items, start, v');
      }
    } else if hcp.finalizer {
      v' := TearDown(api, hcp, urlOk, base, o, items, start, v');
    }
  }

  /** Everything after the clusters have been listed. */
  method WorkOnClusters(api: ApiServer, hcp: ChartObject, urlOk: string -> bool, base: ChartProxy, o: Oracle,
                        clusters: seq<ObjectKey>, selected: map<ObjectKey, Cluster>, ghost start: World, ghost v: World)
    returns (ghost v': World)
    requires Mirrors(v, api) && OnTheWay(start, urlOk, hcp.key, o, v) && hcp.Spec() == base.spec
    requires hcp.finalizer == base.finalizer && NamesOk(api.clusters, api.proxies)
    requires DistinctKeys(clusters) && selected.Keys == Members(clusters) && selected.Keys <= api.clusters.Keys
    requires Standing(v, hcp.key, base, Local(base, hcp), ListReleases(selected))
    modifies api`charts, api`proxies, api`clock, hcp`status, hcp`finalizer
    ensures Mirrors(v', api) && OnTheWay(start, urlOk, hcp.key, o, v')
    ensures Standing(v', hcp.key, base, Local(base, hcp), FinishChart)
  {
    hide OnTheWay, Standing, LabelledIds, NamesOk;
    v' := ListReleasesTaken(urlOk, hcp.key, base, Local(base, hcp), selected, o, start, v);
    if !o.listReleases {
      return v';
    }
    var items := ListInstalledReleases(api, hcp.key);
    v' := WorkOnLists(api, hcp, urlOk, base, o, clusters, selected, items, start, v');
  }

  /** The selection of clusters. */
  method SelectClusters(api: ApiServer, hcp: ChartObject, urlOk: string -> bool, base: ChartProxy, o: Oracle,
                        ghost start: World)
    returns (failed: bool, clusters: seq<ObjectKey>, selected: map<ObjectKey, Cluster>, ghost v: World)
    requires Mirrors(start, api) && hcp.Spec() == base.spec && Local(base, hcp) == base
    requires Standing(start, hcp.key, base, base, ListClusters)
    modifies hcp`status
    ensures Mirrors(v, api) && OnTheWay(start, urlOk, hcp.key, o, v)
    ensures failed == (!o.listClusters || !SelectorParses(base.spec.selector))
    ensures Standing(v, hcp.key, base, Local(base, hcp), if failed then FinishChart else ListReleases(selected))
    ensures !failed ==>
      DistinctKeys(clusters) && selected.Keys == Members(clusters) && selected.Keys <= api.clusters.Keys
  {
    SetsOut(start, urlOk, hcp.key, o);
    hide OnTheWay, Standing, SelectorParses;
    v := ListClustersTaken(urlOk, hcp.key, base, base, o, start, start);
    if !o.listClusters || !SelectorParses(hcp.plain.selector) {
      hcp.SetUpToDate(IsFalse);
      return true, [], map[], v;
    }
    clusters := ListClustersWithLabels(api, hcp.key, hcp.plain.selector);
    selected := Selected(api.clusters, hcp.key, hcp.plain.selector);
    hcp.SetMatchingClusters(clusters);
    assert Local(base, hcp) == WithMatching(base, selected.Keys);
    failed := false;
  }

  /** Everything between the first read and the deferred patch. */
  method Work(api: ApiServer, hcp: ChartObject, urlOk: string -> bool, base: ChartProxy, o: Oracle, ghost start: World)
    returns (ghost v: World)
    requires Mirrors(start, api) && hcp.Spec() == base.spec && Local(base, hcp) == base
    requires NamesOk(api.clusters, api.proxies)
    requires Standing(start, hcp.key, base, base, ListClusters)
    modifies api`charts, api`proxies, api`clock, hcp`status, hcp`finalizer
    ensures Mirrors(v, api) && OnTheWay(start, urlOk, hcp.key, o, v)
    ensures Standing(v, hcp.key, base, Local(base, hcp), FinishChart)
  {
    hide OnTheWay, Standing, NamesOk, SelectorParses;
    var failed, clusters, selected, v1 := SelectClusters(api, hcp, urlOk, base, o, start);
    v := v1;
    if !failed {
      v := WorkOnClusters(api, hcp, urlOk, base, o, clusters, selected, start, v1);
    }
  }

  /** Reconcile. Whatever the oracle lets fail, the stores end up where an uninterrupted run of
      the machine's own steps of this reconcile leaves them under that oracle. */
  method Reconcile(api: ApiServer, key: ObjectKey, urlOk: string -> bool, o: Oracle, ghost w: World)
    returns (ghost v: World)
    requires Mirrors(w, api) && key !in w.chartJobs && NamesOk(api.clusters, api.proxies)
    modifies api`charts, api`proxies, api`clock
    ensures Mirrors(v, api)
    ensures OnTheWay(Begun(w, key), urlOk, key, o, v) && key !in v.chartJobs
  {
    v := Begun(w, key);
    if key !in api.charts {
      SetsOut(v, urlOk, key, o);
      return v;
    }
    ghost var start := v;
    var base := api.charts[key];
    var hcp := new ChartObject(key, base);
    v := Work(api, hcp, urlOk, base, o, start);
    hide OnTheWay;
    ghost var v1 := v;
    v := FinishTaken(urlOk, key, base, Local(base, hcp), o, start, v1);
    var failed := PatchAlong(api, hcp, base, o.finish, v1);
  }
}
