/** One chart reconcile without interruption, in an environment fixed beforehand: an oracle
    says which call succeeds and what the values render to, so that nothing but the order in
    which the API server lists objects is left open. */
module ChartRun {
  import opened Types
  import opened Admission
  import opened Phases
  import opened Machine

  /** Which calls succeed, and what the values template renders to. */
  datatype Oracle = Oracle(
    listClusters: bool,
    listReleases: bool,
    addFinalizer: bool,
    delete: ProxyId -> bool,
    get: ProxyId -> bool,
    lookup: ObjectKey -> bool,
    create: ObjectKey -> bool,
    update: ProxyId -> bool,
    render: ObjectKey -> Option<string>,
    aggregate: bool,
    dropFinalizer: bool,
    finish: bool)

  /** The oracle's answer to the call that is made at `pc`, about the object that `e` picks. */
  function Answer(o: Oracle, pc: ChartPc, e: ChartEnv): bool {
    match pc
    case ListClusters => o.listClusters
    case ListReleases(_) => o.listReleases
    case AddFinalizer(_, _) => o.addFinalizer
    case DeleteOrphans(_, _) => o.delete(e.id)
    case NextCluster(_) => o.lookup(e.cluster)
    case DeleteForReinstall(_, id) => o.delete(id)
    case CreateProxy(_, c, _) => o.create(c)
    case UpdateProxy(_, id, _, _) => o.update(id)
    case AggregateReady => o.aggregate
    case Teardown(_, _, _) => o.delete(e.id)
    case TeardownCheck(_, _, _, id) => o.get(id)
    case DropFinalizer => o.dropFinalizer
    case FinishChart => o.finish
  }

  /** The environments of a step that agree with the oracle. */
  predicate Allows(o: Oracle, pc: ChartPc, e: ChartEnv) {
    e.apiOk == Answer(o, pc, e) && (pc.NextCluster? ==> e.rendered == o.render(e.cluster))
  }

  ghost function Steps(w: World, urlOk: string -> bool, key: ObjectKey, es: seq<ChartEnv>): World {
    if es == [] then w
    else
      var v := Steps(w, urlOk, key, es[..|es| - 1]);
      if key in v.chartJobs then StepChart(v, urlOk, key, v.chartJobs[key], es[|es| - 1]) else v
  }

  /** Every step is taken in an environment that the oracle allows there. */
  ghost predicate Obeys(w: World, urlOk: string -> bool, key: ObjectKey, o: Oracle, es: seq<ChartEnv>) {
    es == [] ||
    (Obeys(w, urlOk, key, o, es[..|es| - 1]) &&
     var v := Steps(w, urlOk, key, es[..|es| - 1]);
     key in v.chartJobs ==> Allows(o, v.chartJobs[key].pc, es[|es| - 1]))
  }

  /** Uninterrupted steps of the reconcile of `key` lead from `w` to `v`, as the oracle has it. */
  ghost predicate OnTheWay(w: World, urlOk: string -> bool, key: ObjectKey, o: Oracle, v: World) {
    exists es :: Obeys(w, urlOk, key, o, es) && v == Steps(w, urlOk, key, es)
  }

  lemma SetsOut(w: World, urlOk: string -> bool, key: ObjectKey, o: Oracle)
    ensures OnTheWay(w, urlOk, key, o, w)
  {
    assert Obeys(w, urlOk, key, o, []) && Steps(w, urlOk, key, []) == w;
  }

  lemma OneStepOn(w: World, urlOk: string -> bool, key: ObjectKey, o: Oracle, v: World, e: ChartEnv)
    requires OnTheWay(w, urlOk, key, o, v) && key in v.chartJobs && Allows(o, v.chartJobs[key].pc, e)
    ensures OnTheWay(w, urlOk, key, o, StepChart(v, urlOk, key, v.chartJobs[key], e))
  {
    hide StepChart, Allows;
    var es :| Obeys(w, urlOk, key, o, es) && v == Steps(w, urlOk, key, es);
    assert (es + [e])[..|es|] == es;
    assert StepChart(v, urlOk, key, v.chartJobs[key], e) == Steps(w, urlOk, key, es + [e]);
    assert Obeys(w, urlOk, key, o, es + [e]);
  }

  /** The reconcile in flight from its first read. */
  ghost function Begun(w: World, key: ObjectKey): World {
    if key in w.charts
    then w.(chartJobs := w.chartJobs[key := ChartJob(w.charts[key], w.charts[key], ListClusters)])
    else w
  }

  /* ---- the loops that delete ---- */

  /** Whether the loop over the orphans is left early, and the store after it. */
  predicate DeletesFail(o: Oracle, ids: seq<ProxyId>) {
    exists id <- ids :: !o.delete(id)
  }

  function AfterDeletes(o: Oracle, v: World, ids: seq<ProxyId>): World {
    if ids == [] then v
    else
      var front, last := ids[..|ids| - 1], ids[|ids| - 1];
      if DeletesFail(o, front) || !o.delete(last) then AfterDeletes(o, v, front)
      else DeleteProxy(AfterDeletes(o, v, front), last)
  }

  /** The same for the loop of reconcileDelete, which looks every object up again. */
  predicate TeardownFails(o: Oracle, ids: seq<ProxyId>) {
    exists id <- ids :: !o.delete(id) || !o.get(id)
  }

  function AfterTeardown(o: Oracle, v: World, ids: seq<ProxyId>): World {
    if ids == [] then v
    else
      var front, last := ids[..|ids| - 1], ids[|ids| - 1];
      if TeardownFails(o, front) || !o.delete(last) then AfterTeardown(o, v, front)
      else DeleteProxy(AfterTeardown(o, v, front), last)
  }

  lemma NothingDeleted(o: Oracle, v: World)
    ensures !DeletesFail(o, []) && AfterDeletes(o, v, []) == v && !TeardownFails(o, []) && AfterTeardown(o, v, []) == v
  {
  }

  /** Once left early, a loop is left for good. */
  lemma {:induction false} EarlyExitsStay(o: Oracle, v: World, ids: seq<ProxyId>, i: nat)
    requires i <= |ids|
    ensures DeletesFail(o, ids[..i]) ==> DeletesFail(o, ids) && AfterDeletes(o, v, ids) == AfterDeletes(o, v, ids[..i])
    ensures TeardownFails(o, ids[..i]) ==>
      TeardownFails(o, ids) && AfterTeardown(o, v, ids) == AfterTeardown(o, v, ids[..i])
    decreases |ids|
  {
    hide DeleteProxy;
    if i < |ids| {
      var front := ids[..|ids| - 1];
      EarlyExitsStay(o, v, front, i);
      assert front[..i] == ids[..i];
    } else {
      assert ids[..i] == ids;
    }
  }

  /* ---- one cluster's turn ---- */

  /** The store after an update, if it is accepted. */
  function Rewritten(v: World, id: ProxyId, p: ReleaseProxy): World {
    if UpdateAccepted(v, id, p) then WriteProxy(v, id, Overwrite(v.proxies[id], p)) else v
  }

  function Stored(v: World, id: Option<ProxyId>): Option<ReleaseProxy> {
    if id.Some? && id.value in v.proxies then Some(v.proxies[id.value]) else None
  }

  predicate CreatePasses(o: Oracle, urlOk: string -> bool, c: ObjectKey, p: ReleaseProxy) {
    o.create(c) && ValidateReleaseCreate(urlOk, DefaultRelease(p.spec)) == []
  }

  predicate UpdatePasses(o: Oracle, v: World, id: ProxyId, p: ReleaseProxy) {
    o.update(id) && UpdateAccepted(v, id, p)
  }

  /** Whether reconcileForCluster fails once it has found the object of the pair, or none. */
  predicate FailsOn(o: Oracle, urlOk: string -> bool, key: ObjectKey, base: ChartProxy, v: World, c: ObjectKey,
                    id: Option<ProxyId>)
  {
    match Decide(key, base.spec, c, Stored(v, id), o.render(c))
    case Leave => false
    case Reinstall => id.Some? && !o.delete(id.value)
    case RenderFailed => true
    case Create(p) => !CreatePasses(o, urlOk, c, p)
    case Update(p) => id.Some? && !UpdatePasses(o, v, id.value, p)
  }

  /** What it does to the store. */
  function StoreAfter(o: Oracle, urlOk: string -> bool, key: ObjectKey, base: ChartProxy, v: World, c: ObjectKey,
                      id: Option<ProxyId>): World
  {
    if FailsOn(o, urlOk, key, base, v, c, id) then v
    else
      match Decide(key, base.spec, c, Stored(v, id), o.render(c))
      case Reinstall => if id.Some? then DeleteProxy(v, id.value) else v
      case Create(p) => Created(v, key, c, base.spec, p)
      case Update(p) => if id.Some? then Rewritten(v, id.value, p) else v
      case _ => v
  }

  predicate Passed(base: ChartProxy, cluster: Cluster) {
    cluster.deleting || cluster.paused || base.paused
  }

  /** The only object of the pair, if there is one; `None` if there is none or several. */
  ghost function OnlyOne(v: World, key: ObjectKey, c: ObjectKey): Option<ProxyId> {
    if exists id :: PairIds(v.proxies, key, c) == {id}
    then var id :| PairIds(v.proxies, key, c) == {id}; Some(id)
    else None
  }

  ghost predicate Several(v: World, key: ObjectKey, c: ObjectKey) {
    PairIds(v.proxies, key, c) != {} && forall id :: PairIds(v.proxies, key, c) != {id}
  }

  /** Whether a cluster's turn in the loop of reconcileNormal ends the reconcile. */
  ghost predicate TurnFails(o: Oracle, urlOk: string -> bool, key: ObjectKey, base: ChartProxy, v: World, c: ObjectKey,
                            cluster: Cluster)
  {
    !Passed(base, cluster) &&
    (!o.lookup(c) || Several(v, key, c) || FailsOn(o, urlOk, key, base, v, c, OnlyOne(v, key, c)))
  }

  /** The store after a cluster's turn. */
  ghost function AfterTurn(o: Oracle, urlOk: string -> bool, key: ObjectKey, base: ChartProxy, v: World, c: ObjectKey,
                           cluster: Cluster): World
  {
    if Passed(base, cluster) || TurnFails(o, urlOk, key, base, v, c, cluster) then v
    else StoreAfter(o, urlOk, key, base, v, c, OnlyOne(v, key, c))
  }

  /** The loop over the first `n` clusters: whether it has been left early, and the store. */
  ghost predicate LoopFails(o: Oracle, urlOk: string -> bool, key: ObjectKey, base: ChartProxy, v: World,
                            clusters: seq<ObjectKey>, selected: map<ObjectKey, Cluster>, n: nat)
    requires n <= |clusters| && forall c <- clusters :: c in selected
    decreases n, 0
  {
    n > 0 &&
    (LoopFails(o, urlOk, key, base, v, clusters, selected, n - 1) ||
     TurnFails(o, urlOk, key, base, AfterLoop(o, urlOk, key, base, v, clusters, selected, n - 1), clusters[n - 1],
               selected[clusters[n - 1]]))
  }

  ghost function AfterLoop(o: Oracle, urlOk: string -> bool, key: ObjectKey, base: ChartProxy, v: World,
                           clusters: seq<ObjectKey>, selected: map<ObjectKey, Cluster>, n: nat): World
    requires n <= |clusters| && forall c <- clusters :: c in selected
    decreases n, 1
  {
    if n == 0 then v
    else if LoopFails(o, urlOk, key, base, v, clusters, selected, n - 1)
    then AfterLoop(o, urlOk, key, base, v, clusters, selected, n - 1)
    else AfterTurn(o, urlOk, key, base, AfterLoop(o, urlOk, key, base, v, clusters, selected, n - 1), clusters[n - 1],
                   selected[clusters[n - 1]])
  }

  /** The same stores, whatever the reconciles in flight. */
  ghost predicate SameStores(v: World, v': World) {
    v'.charts == v.charts && v'.proxies == v.proxies && v'.clock == v.clock && v'.clusters == v.clusters
  }

  lemma DeletesAlike(v: World, u: World, id: ProxyId)
    requires SameStores(v, u)
    ensures SameStores(DeleteProxy(v, id), DeleteProxy(u, id))
  {
  }

  lemma RewritesAlike(v: World, u: World, id: ProxyId, p: ReleaseProxy)
    requires SameStores(v, u)
    ensures UpdateAccepted(v, id, p) == UpdateAccepted(u, id, p)
    ensures SameStores(Rewritten(v, id, p), Rewritten(u, id, p))
  {
    hide Stamp, Put, Overwrite;
  }

  lemma CreatesAlike(v: World, u: World, key: ObjectKey, c: ObjectKey, chart: ChartSpec, p: ReleaseProxy)
    requires SameStores(v, u)
    ensures SameStores(Created(v, key, c, chart, p), Created(u, key, c, chart, p))
  {
  }

  lemma StoreAfterAlike(o: Oracle, urlOk: string -> bool, key: ObjectKey, base: ChartProxy, v: World, u: World,
                        c: ObjectKey, id: Option<ProxyId>)
    requires SameStores(v, u)
    ensures FailsOn(o, urlOk, key, base, u, c, id) == FailsOn(o, urlOk, key, base, v, c, id)
    ensures SameStores(StoreAfter(o, urlOk, key, base, v, c, id), StoreAfter(o, urlOk, key, base, u, c, id))
  {
    assert Stored(v, id) == Stored(u, id);
    var plan := Decide(key, base.spec, c, Stored(v, id), o.render(c));
    hide Decide, UpdateAccepted, Rewritten, Created, DeleteProxy, SameStores, Stored;
    match plan
    case Leave =>
    case Reinstall =>
      if id.Some? {
        DeletesAlike(v, u, id.value);
      }
    case RenderFailed =>
    case Create(p) => CreatesAlike(v, u, key, c, base.spec, p);
    case Update(p) =>
      if id.Some? {
        RewritesAlike(v, u, id.value, p);
      }
  }

  lemma TurnAlike(o: Oracle, urlOk: string -> bool, key: ObjectKey, base: ChartProxy, v: World, u: World, c: ObjectKey,
                  cluster: Cluster)
    requires SameStores(v, u)
    ensures TurnFails(o, urlOk, key, base, u, c, cluster) == TurnFails(o, urlOk, key, base, v, c, cluster)
    ensures SameStores(AfterTurn(o, urlOk, key, base, v, c, cluster), AfterTurn(o, urlOk, key, base, u, c, cluster))
  {
    hide FailsOn, StoreAfter;
    assert OnlyOne(v, key, c) == OnlyOne(u, key, c);
    StoreAfterAlike(o, urlOk, key, base, v, u, c, OnlyOne(v, key, c));
  }
}
