/** The whole system as one state machine: the object store, the release stores of the
    clusters, and every reconcile in flight, each with a program counter, so that any actor
    can step in between any two API calls of a reconcile. */
module Machine {
  import opened Types
  import opened Admission
  import opened Helm
  import opened Phases
  import opened ReleaseFlow

  /** A HelmReleaseProxy's generated name: drawn from the store's clock, never reused. */
  type ProxyId = nat

  type Proxies = map<ProxyId, ReleaseProxy>

  datatype ChartPc =
    | ListClusters
    | ListReleases(selected: map<ObjectKey, Cluster>)
    | AddFinalizer(selected: map<ObjectKey, Cluster>, listed: Proxies)
    | DeleteOrphans(selected: map<ObjectKey, Cluster>, orphans: set<ProxyId>)
    | NextCluster(todo: map<ObjectKey, Cluster>)
    | DeleteForReinstall(todo: map<ObjectKey, Cluster>, id: ProxyId)
    | CreateProxy(todo: map<ObjectKey, Cluster>, cluster: ObjectKey, proxy: ReleaseProxy)
    | UpdateProxy(todo: map<ObjectKey, Cluster>, id: ProxyId, seen: ReleaseProxy, proxy: ReleaseProxy)
    | AggregateReady
    | Teardown(todelete: set<ProxyId>, waiting: set<ProxyId>, ready: bool)      // ready: all those waited for are
    | TeardownCheck(todelete: set<ProxyId>, waiting: set<ProxyId>, ready: bool, id: ProxyId)
    | DropFinalizer
    | FinishChart

  /** A chart reconcile in flight: the object as read, the working copy, where it is. */
  datatype ChartJob = ChartJob(base: ChartProxy, local: ChartProxy, pc: ChartPc)

  datatype ReleasePc =
    | PatchConditions
    | PatchFinalizer
    | GetCluster
    | CallHelm
    | GetClusterForDelete
    | Uninstall
    | UnpatchFinalizer
    | FinishRelease

  /** A Helm install/upgrade call and what it returned. */
  datatype Call = Call(spec: ReleaseSpec, outcome: Outcome)

  datatype ReleaseJob = ReleaseJob(base: ReleaseProxy, local: ReleaseProxy, call: Option<Call>, pc: ReleasePc)

  datatype Event =
    | Applied(id: ProxyId, call: Call)
    | Uninstalled(id: ProxyId, spec: ReleaseSpec)

  /** What a proxy was created for. */
  datatype Origin = Origin(chart: ObjectKey, cluster: ObjectKey, identity: Identity)

  /** History that no controller reads: the Helm calls so far, the proxies that hold a stake
      in each release, what each proxy was created for, and each proxy's last Helm call
      whose outcome reached the store. */
  datatype History = History(
    log: seq<Event>,
    claims: map<ReleaseKey, set<ProxyId>>,
    origin: map<ProxyId, Origin>,
    recorded: map<ProxyId, Call>)

  datatype World = World(
    charts: map<ObjectKey, ChartProxy>,
    proxies: Proxies,
    clusters: map<ObjectKey, Cluster>,
    releases: map<ReleaseKey, Release>,
    chartJobs: map<ObjectKey, ChartJob>,
    releaseJobs: map<ProxyId, ReleaseJob>,
    clock: nat,
    history: History)

  /* ---- the API server's view of HelmReleaseProxies ---- */

  predicate Labelled(p: ReleaseProxy, key: ObjectKey) {
    p.namespace == key.namespace && p.chartLabel == key.name
  }

  predicate PairOf(p: ReleaseProxy, key: ObjectKey, cluster: ObjectKey) {
    Labelled(p, key) && p.clusterLabel == cluster.name
  }

  function LabelledIds(proxies: Proxies, key: ObjectKey): set<ProxyId> {
    set id | id in proxies && Labelled(proxies[id], key)
  }

  function PairIds(proxies: Proxies, key: ObjectKey, cluster: ObjectKey): set<ProxyId> {
    set id | id in proxies && PairOf(proxies[id], key, cluster)
  }

  /** Storing `next` over `stored`: an unchanged object stays as it is, a changed one gets a
      new resource version, and a new generation if its spec changed. */
  function Stamp(stored: ReleaseProxy, next: ReleaseProxy, clock: nat): ReleaseProxy {
    if next == stored then stored
    else next.(resourceVersion := clock,
               generation := if next.spec == stored.spec && next.deleting == stored.deleting
                             then stored.generation else stored.generation + 1)
  }

  /** A deleted object disappears with its finalizer. */
  function Put(proxies: Proxies, id: ProxyId, p: ReleaseProxy): Proxies {
    if p.deleting && !p.finalizer then proxies - {id} else proxies[id := p]
  }

  function WriteProxy(w: World, id: ProxyId, next: ReleaseProxy): World
    requires id in w.proxies
  {
    w.(proxies := Put(w.proxies, id, Stamp(w.proxies[id], next, w.clock)), clock := w.clock + 1)
  }

  /** Delete: a missing object is no error. */
  function DeleteProxy(w: World, id: ProxyId): World {
    if id !in w.proxies then w else WriteProxy(w, id, w.proxies[id].(deleting := true))
  }

  /** Update replaces spec and metadata, leaves the status, and is compare-and-swap on the
      resource version of the object the caller read. */
  predicate UpdateAccepted(w: World, id: ProxyId, p: ReleaseProxy) {
    && id in w.proxies
    && w.proxies[id].resourceVersion == p.resourceVersion
    && ValidateReleaseUpdate(w.proxies[id].spec, DefaultRelease(p.spec)) == []
  }

  function Overwrite(stored: ReleaseProxy, p: ReleaseProxy): ReleaseProxy {
    stored.(finalizer := p.finalizer, annotations := p.annotations, spec := DefaultRelease(p.spec))
  }

  function Created(w: World, key: ObjectKey, cluster: ObjectKey, chart: ChartSpec, p: ReleaseProxy): World {
    w.(proxies := w.proxies[w.clock := p.(resourceVersion := w.clock, generation := 1,
                                          spec := DefaultRelease(p.spec))],
       clock := w.clock + 1,
       history := w.history.(origin := w.history.origin[w.clock := Origin(key, cluster, IdentityOf(chart))]))
  }

  /* ---- HelmChartProxies ---- */

  function PatchedChart(stored: ChartProxy, base: ChartProxy, local: ChartProxy): ChartProxy {
    stored.(finalizer := Merge(stored.finalizer, base.finalizer, local.finalizer),
            status := local.status.(ready := Summary(local.status.upToDate, local.status.proxiesReady),
                                    observedGeneration := base.generation))
  }

  function PutChart(charts: map<ObjectKey, ChartProxy>, key: ObjectKey, c: ChartProxy): map<ObjectKey, ChartProxy> {
    if c.deleting && !c.finalizer then charts - {key} else charts[key := c]
  }

  function PatchChart(w: World, key: ObjectKey, j: ChartJob): World
    requires key in w.charts
  {
    w.(charts := PutChart(w.charts, key, PatchedChart(w.charts[key], j.base, j.local)))
  }

  /* ---- one step of a chart reconcile ---- */

  /** The choices outside the controller's control: does the API call succeed, which listed
      object comes next, and what the values template renders to. */
  datatype ChartEnv = ChartEnv(apiOk: bool, id: ProxyId, cluster: ObjectKey, rendered: Option<string>)

  function Goto(w: World, key: ObjectKey, j: ChartJob, pc: ChartPc): World {
    w.(chartJobs := w.chartJobs[key := j.(pc := pc)])
  }

  function SetUpToDate(j: ChartJob, c: Condition): ChartJob {
    j.(local := j.local.(status := j.local.status.(upToDate := c)))
  }

  function SetProxiesReady(j: ChartJob, c: Condition): ChartJob {
    j.(local := j.local.(status := j.local.status.(proxiesReady := c)))
  }

  function SetChartFinalizer(j: ChartJob, on: bool): ChartJob {
    j.(local := j.local.(finalizer := on))
  }

  function Selected(clusters: map<ObjectKey, Cluster>, key: ObjectKey, selector: Selector): map<ObjectKey, Cluster> {
    map c | c in clusters && c.namespace == key.namespace && SelectorMatches(selector, clusters[c].labels) ::
      clusters[c]
  }

  /** What a listing of the HelmReleaseProxies with the label of `key` returns. */
  function Listed(proxies: Proxies, key: ObjectKey): Proxies {
    map id | id in LabelledIds(proxies, key) :: proxies[id]
  }

  function OrphanIds(listed: Proxies, selected: map<ObjectKey, Cluster>): set<ProxyId> {
    set id | id in listed && listed[id].spec.cluster !in selected
  }

  /** After the finalizer is in place: orphans first, unless the strategy is InstallOnce. */
  function WorkPc(base: ChartProxy, selected: map<ObjectKey, Cluster>, listed: Proxies): ChartPc {
    if base.spec.strategy == InstallOnce then NextCluster(selected)
    else DeleteOrphans(selected, OrphanIds(listed, selected))
  }

  function StepListClusters(w: World, key: ObjectKey, j: ChartJob, e: ChartEnv): World {
    if !e.apiOk || !SelectorParses(j.base.spec.selector) then Goto(w, key, SetUpToDate(j, IsFalse), FinishChart)
    else
      var selected := Selected(w.clusters, key, j.base.spec.selector);
      Goto(w, key, j.(local := j.local.(status := j.local.status.(matching := selected.Keys))), ListReleases(selected))
  }

  function StepListReleases(w: World, key: ObjectKey, j: ChartJob, e: ChartEnv): World
    requires j.pc.ListReleases?
  {
    if !e.apiOk then Goto(w, key, j, FinishChart)
    else
      var listed := Listed(w.proxies, key);
      if !j.base.deleting then
        if !j.base.finalizer
        then Goto(w, key, SetChartFinalizer(j, true), AddFinalizer(j.pc.selected, listed))
        else Goto(w, key, j, WorkPc(j.base, j.pc.selected, listed))
      else if j.base.finalizer then Goto(w, key, j, Teardown(listed.Keys, {}, true))
      else Goto(w, key, j, FinishChart)
  }

  function StepAddFinalizer(w: World, key: ObjectKey, j: ChartJob, e: ChartEnv): World
    requires j.pc.AddFinalizer?
  {
    if e.apiOk && key in w.charts
    then Goto(PatchChart(w, key, j), key, j, WorkPc(j.base, j.pc.selected, j.pc.listed))
    else Goto(w, key, j, FinishChart)
  }

  function StepDeleteOrphans(w: World, key: ObjectKey, j: ChartJob, e: ChartEnv): World
    requires j.pc.DeleteOrphans?
  {
    if j.pc.orphans == {} then Goto(w, key, j, NextCluster(j.pc.selected))
    else if e.id !in j.pc.orphans then w
    else if !e.apiOk then Goto(w, key, SetUpToDate(j, IsFalse), FinishChart)
    else Goto(DeleteProxy(w, e.id), key, j, j.pc.(orphans := j.pc.orphans - {e.id}))
  }

  /** getExistingHelmReleaseProxy, and the decision taken on what it found. */
  function StepNextCluster(w: World, key: ObjectKey, j: ChartJob, e: ChartEnv): World
    requires j.pc.NextCluster?
  {
    if j.pc.todo.Keys == {} then Goto(w, key, SetUpToDate(j, IsTrue), AggregateReady)
    else if e.cluster !in j.pc.todo then w
    else
      var c := j.pc.todo[e.cluster];
      var todo := j.pc.todo - {e.cluster};
      if c.deleting || c.paused || j.base.paused then Goto(w, key, j, NextCluster(todo))
      else if !e.apiOk then Goto(w, key, j, FinishChart)
      else Lookup(w, key, j, todo, e, PairIds(w.proxies, key, e.cluster))
  }

  function Lookup(w: World, key: ObjectKey, j: ChartJob, todo: map<ObjectKey, Cluster>, e: ChartEnv,
                  found: set<ProxyId>): World
    requires found <= w.proxies.Keys
  {
    if found == {} then Act(w, key, j, todo, e, None)
    else if e.id !in found then w
    else if found != {e.id} then Goto(w, key, j, FinishChart)
    else Act(w, key, j, todo, e, Some(e.id))
  }

  function Act(w: World, key: ObjectKey, j: ChartJob, todo: map<ObjectKey, Cluster>, e: ChartEnv,
               found: Option<ProxyId>): World
    requires found.Some? ==> found.value in w.proxies
  {
    var existing := if found.Some? then Some(w.proxies[found.value]) else None;
    match Decide(key, j.base.spec, e.cluster, existing, e.rendered)
    case Leave => Goto(w, key, j, NextCluster(todo))
    case Reinstall => if found.Some? then Goto(w, key, j, DeleteForReinstall(todo, found.value)) else w
    case RenderFailed => Goto(w, key, SetUpToDate(j, IsFalse), FinishChart)
    case Create(p) => Goto(w, key, j, CreateProxy(todo, e.cluster, p))
    case Update(p) => if found.Some? then Goto(w, key, j, UpdateProxy(todo, found.value, existing.value, p)) else w
  }

  function StepDeleteForReinstall(w: World, key: ObjectKey, j: ChartJob, e: ChartEnv): World
    requires j.pc.DeleteForReinstall?
  {
    if !e.apiOk then Goto(w, key, SetUpToDate(j, IsFalse), FinishChart)
    else Goto(DeleteProxy(w, j.pc.id), key, SetUpToDate(j, IsFalse), NextCluster(j.pc.todo))
  }

  function StepCreateProxy(w: World, urlOk: string -> bool, key: ObjectKey, j: ChartJob, e: ChartEnv): World
    requires j.pc.CreateProxy?
  {
    if !e.apiOk || ValidateReleaseCreate(urlOk, DefaultRelease(j.pc.proxy.spec)) != []
    then Goto(w, key, SetUpToDate(j, IsFalse), FinishChart)
    else Goto(Created(w, key, j.pc.cluster, j.base.spec, j.pc.proxy), key, j, NextCluster(j.pc.todo))
  }

  function StepUpdateProxy(w: World, key: ObjectKey, j: ChartJob, e: ChartEnv): World
    requires j.pc.UpdateProxy?
  {
    if !e.apiOk || !UpdateAccepted(w, j.pc.id, j.pc.proxy)
    then Goto(w, key, SetUpToDate(j, IsFalse), FinishChart)
    else Goto(WriteProxy(w, j.pc.id, Overwrite(w.proxies[j.pc.id], j.pc.proxy)), key, j, NextCluster(j.pc.todo))
  }

  /** The verdict of aggregateHelmReleaseProxyReadyCondition on the objects it lists. */
  function Aggregate(j: ChartJob, listed: set<ReleaseProxy>): ChartJob {
    if listed == {} then SetProxiesReady(j, IsTrue)
    else if exists p <- listed :: p.generation != p.status.observedGeneration then SetUpToDate(j, IsFalse)
    else SetProxiesReady(j, if forall p <- listed :: p.status.ready == IsTrue then IsTrue else IsFalse)
  }

  function StepAggregate(w: World, key: ObjectKey, j: ChartJob, e: ChartEnv): World {
    if !e.apiOk then Goto(w, key, j, FinishChart)
    else Goto(w, key, Aggregate(j, set id | id in LabelledIds(w.proxies, key) :: w.proxies[id]), FinishChart)
  }

  function StepTeardown(w: World, key: ObjectKey, j: ChartJob, e: ChartEnv): World
    requires j.pc.Teardown?
  {
    if j.pc.todelete == {} then
      if j.pc.waiting == {} then Goto(w, key, SetChartFinalizer(j, false), DropFinalizer)
      else Goto(w, key, SetProxiesReady(j, if j.pc.ready then IsTrue else IsFalse), FinishChart)
    else if e.id !in j.pc.todelete then w
    else if !e.apiOk then Goto(w, key, j, FinishChart)
    else Goto(DeleteProxy(w, e.id), key, j, TeardownCheck(j.pc.todelete - {e.id}, j.pc.waiting, j.pc.ready, e.id))
  }

  function StepTeardownCheck(w: World, key: ObjectKey, j: ChartJob, e: ChartEnv): World
    requires j.pc.TeardownCheck?
  {
    if !e.apiOk then Goto(w, key, j, FinishChart)
    else if j.pc.id !in w.proxies then Goto(w, key, j, Teardown(j.pc.todelete, j.pc.waiting, j.pc.ready))
    else Goto(w, key, j, Teardown(j.pc.todelete, j.pc.waiting + {j.pc.id},
                                  j.pc.ready && w.proxies[j.pc.id].status.ready == IsTrue))
  }

  function StepDropFinalizer(w: World, key: ObjectKey, j: ChartJob, e: ChartEnv): World {
    Goto(if e.apiOk && key in w.charts then PatchChart(w, key, j) else w, key, j, FinishChart)
  }

  function EndChart(w: World, key: ObjectKey): World {
    w.(chartJobs := w.chartJobs - {key})
  }

  function StepFinishChart(w: World, key: ObjectKey, j: ChartJob, e: ChartEnv): World {
    EndChart(if e.apiOk && key in w.charts then PatchChart(w, key, j) else w, key)
  }

  function StepChart(w: World, urlOk: string -> bool, key: ObjectKey, j: ChartJob, e: ChartEnv): World {
    match j.pc
    case ListClusters => StepListClusters(w, key, j, e)
    case ListReleases(_) => StepListReleases(w, key, j, e)
    case AddFinalizer(_, _) => StepAddFinalizer(w, key, j, e)
    case DeleteOrphans(_, _) => StepDeleteOrphans(w, key, j, e)
    case NextCluster(_) => StepNextCluster(w, key, j, e)
    case DeleteForReinstall(_, _) => StepDeleteForReinstall(w, key, j, e)
    case CreateProxy(_, _, _) => StepCreateProxy(w, urlOk, key, j, e)
    case UpdateProxy(_, _, _, _) => StepUpdateProxy(w, key, j, e)
    case AggregateReady => StepAggregate(w, key, j, e)
    case Teardown(_, _, _) => StepTeardown(w, key, j, e)
    case TeardownCheck(_, _, _, _) => StepTeardownCheck(w, key, j, e)
    case DropFinalizer => StepDropFinalizer(w, key, j, e)
    case FinishChart => StepFinishChart(w, key, j, e)
  }

  /* ---- one step of a release reconcile ---- */

  datatype ReleaseEnv = ReleaseEnv(
    apiOk: bool,
    kubeconfigOk: bool,
    secretsOk: bool,            // registry credentials and CA certificate
    uninstallOk: bool,
    keepHistory: bool,
    helm: HelmEnv)

  function Jump(w: World, id: ProxyId, j: ReleaseJob, pc: ReleasePc): World {
    w.(releaseJobs := w.releaseJobs[id := j.(pc := pc)])
  }

  function Reached(w: World, id: ProxyId, j: ReleaseJob): World {
    Jump(w, id, j.(local := SetClusterAvailable(j.local, IsTrue)), CallHelm)
  }

  function Unreachable(w: World, id: ProxyId, j: ReleaseJob): World {
    Jump(w, id, j.(local := SetClusterAvailable(j.local, IsFalse)), FinishRelease)
  }

  /** Where a reconcile goes once the conditions are initialised. */
  function Branch(base: ReleaseProxy, local: ReleaseProxy): ReleaseJob {
    if !base.deleting then
      if base.finalizer then ReleaseJob(base, local, None, GetCluster)
      else ReleaseJob(base, local.(finalizer := true), None, PatchFinalizer)
    else ReleaseJob(base, local, None, if base.finalizer then GetClusterForDelete else FinishRelease)
  }

  function StartRelease(p: ReleaseProxy): ReleaseJob {
    if HasNoConditions(p.status) then ReleaseJob(p, InitConditions(p), None, PatchConditions)
    else Branch(p, p)
  }

  function PatchProxy(w: World, id: ProxyId, j: ReleaseJob): World
    requires id in w.proxies
  {
    WriteProxy(w, id, MergePatch(w.proxies[id], j.base, j.local))
  }

  function StepPatchConditions(w: World, id: ProxyId, j: ReleaseJob, e: ReleaseEnv): World {
    var w' := if e.apiOk && id in w.proxies then PatchProxy(w, id, j) else w;
    w'.(releaseJobs := w'.releaseJobs[id := Branch(j.base, j.local)])
  }

  function StepPatchFinalizer(w: World, id: ProxyId, j: ReleaseJob, e: ReleaseEnv): World {
    if e.apiOk && id in w.proxies then Jump(PatchProxy(w, id, j), id, j, GetCluster)
    else Jump(w, id, j, FinishRelease)
  }

  function StepGetCluster(w: World, id: ProxyId, j: ReleaseJob, e: ReleaseEnv): World {
    var c := j.base.spec.cluster;
    if !e.apiOk || c !in w.clusters then Unreachable(w, id, j)
    else if w.clusters[c].controlPlaneInitialized == Some(false) then Unreachable(w, id, j)
    else if !e.kubeconfigOk || !e.secretsOk then Unreachable(w, id, j)
    else Reached(w, id, j)
  }

  function Claim(claims: map<ReleaseKey, set<ProxyId>>, key: ReleaseKey, id: ProxyId)
    : map<ReleaseKey, set<ProxyId>>
  {
    claims[key := (if key in claims then claims[key] else {}) + {id}]
  }

  /** The Helm call on a cluster that is gone fails without effect. */
  function HelmResult(w: World, spec: ReleaseSpec, env: HelmEnv): CallResult {
    if spec.cluster in w.clusters then InstallOrUpgrade(w.releases, spec, env) else Fail(w.releases, spec)
  }

  /** Another write to the release stores, with the history that goes with it. */
  function HelmWrites(w: World, releases: map<ReleaseKey, Release>, event: Event, claims: map<ReleaseKey, set<ProxyId>>)
    : (w': World)
    ensures w' == w.(releases := releases, history := w'.history)
    ensures w'.history == w.history.(log := w.history.log + [event], claims := claims)
  {
    w.(releases := releases, history := w.history.(log := w.history.log + [event], claims := claims))
  }

  /** A proxy whose spec names a release that exists after the call holds a stake in it,
      unless its strategy is InstallOnce. */
  function Stakes(w: World, id: ProxyId, spec: ReleaseSpec, releases: map<ReleaseKey, Release>)
    : map<ReleaseKey, set<ProxyId>>
  {
    if spec.strategy != InstallOnce && spec.releaseName != "" && KeyOf(spec) in releases
    then Claim(w.history.claims, KeyOf(spec), id) else w.history.claims
  }

  function AfterCall(w: World, id: ProxyId, j: ReleaseJob, r: CallResult): World {
    var call := Call(j.local.spec, r.outcome);
    Jump(HelmWrites(w, r.releases, Applied(id, call), Stakes(w, id, j.local.spec, r.releases)),
         id, j.(local := AfterHelm(MarkNameGenerated(j.local), r.outcome), call := Some(call)), FinishRelease)
  }

  /** reconcileNormal. */
  function StepCallHelm(w: World, id: ProxyId, j: ReleaseJob, e: ReleaseEnv): World {
    if j.local.spec.strategy == InstallOnce && HasBeenInstalled(Some(j.local)) then Jump(w, id, j, FinishRelease)
    else AfterCall(w, id, j, HelmResult(w, j.local.spec, e.helm))
  }

  function ReleaseFinalizer(j: ReleaseJob): ReleaseJob {
    j.(local := j.local.(finalizer := false))
  }

  function StepGetClusterForDelete(w: World, id: ProxyId, j: ReleaseJob, e: ReleaseEnv): World {
    if !e.apiOk then Unreachable(w, id, j)
    else if j.base.spec.cluster !in w.clusters then Jump(w, id, ReleaseFinalizer(j), UnpatchFinalizer)
    else if !e.kubeconfigOk then Unreachable(w, id, j)
    else Jump(w, id, j.(local := SetClusterAvailable(j.local, IsTrue)), Uninstall)
  }

  function ReleaseGone(j: ReleaseJob): ReleaseJob {
    ReleaseFinalizer(j.(local := SetReleaseReady(j.local, IsFalse)))
  }

  /** reconcileDelete. */
  function StepUninstall(w: World, id: ProxyId, j: ReleaseJob, e: ReleaseEnv): World {
    var spec := j.base.spec;
    var failed := j.(local := SetReleaseReady(j.local, IsFalse));
    if spec.strategy == InstallOnce then Jump(w, id, ReleaseFinalizer(j), UnpatchFinalizer)
    else if spec.releaseName == "" then Jump(w, id, ReleaseGone(j), UnpatchFinalizer)
    else if spec.cluster !in w.clusters || e.helm.getFails then Jump(w, id, failed, FinishRelease)
    else if KeyOf(spec) !in w.releases then Jump(w, id, ReleaseGone(j), UnpatchFinalizer)
    else if !e.uninstallOk then Jump(w, id, failed, FinishRelease)
    else
      Jump(HelmWrites(w, AfterUninstall(w.releases, KeyOf(spec), e.keepHistory), Event.Uninstalled(id, spec),
                      w.history.claims - {KeyOf(spec)}),
           id, ReleaseGone(j), UnpatchFinalizer)
  }

  function StepUnpatchFinalizer(w: World, id: ProxyId, j: ReleaseJob, e: ReleaseEnv): World {
    Jump(if e.apiOk && id in w.proxies then PatchProxy(w, id, j) else w, id, j, FinishRelease)
  }

  function EndRelease(w: World, id: ProxyId): World {
    w.(releaseJobs := w.releaseJobs - {id})
  }

  /** The outcome of the reconcile's Helm call reaches the store: it becomes the recorded
      one, and a generated name recorded in the spec is a stake in that release. */
  function Record(h: History, id: ProxyId, j: ReleaseJob, releases: map<ReleaseKey, Release>): History {
    var spec := j.local.spec;
    var stake := j.base.spec.releaseName == "" && spec.strategy != InstallOnce && spec.releaseName != "" &&
                 KeyOf(spec) in releases;
    h.(recorded := if j.call.Some? then h.recorded[id := j.call.value] else h.recorded,
       claims := if stake then Claim(h.claims, KeyOf(spec), id) else h.claims)
  }

  function StepFinishRelease(w: World, id: ProxyId, j: ReleaseJob, e: ReleaseEnv): World {
    if e.apiOk && id in w.proxies
    then EndRelease(PatchProxy(w, id, j).(history := Record(w.history, id, j, w.releases)), id)
    else EndRelease(w, id)
  }

  function StepRelease(w: World, id: ProxyId, j: ReleaseJob, e: ReleaseEnv): World {
    match j.pc
    case PatchConditions => StepPatchConditions(w, id, j, e)
    case PatchFinalizer => StepPatchFinalizer(w, id, j, e)
    case GetCluster => StepGetCluster(w, id, j, e)
    case CallHelm => StepCallHelm(w, id, j, e)
    case GetClusterForDelete => StepGetClusterForDelete(w, id, j, e)
    case Uninstall => StepUninstall(w, id, j, e)
    case UnpatchFinalizer => StepUnpatchFinalizer(w, id, j, e)
    case FinishRelease => StepFinishRelease(w, id, j, e)
  }

  /* ---- all actions ---- */

  datatype Action =
    | CreateChart(key: ObjectKey, spec: ChartSpec, paused: bool)
    | UpdateChart(key: ObjectKey, spec: ChartSpec, paused: bool)
    | DeleteChart(key: ObjectKey)
    | DeleteProxyByHand(id: ProxyId)
    | ClusterChanges(cluster: ObjectKey, state: Option<Cluster>)
    | ReleaseChanges(release: ReleaseKey, revision: Option<Release>)   // Helm used by hand
    | ChartReconcile(key: ObjectKey, chartEnv: ChartEnv)
    | ReleaseReconcile(id: ProxyId, releaseEnv: ReleaseEnv)
    | ChartCrash(key: ObjectKey)
    | ReleaseCrash(id: ProxyId)

  const NEW_CHART_STATUS := ChartStatus(Missing, Missing, Missing, {}, 0)

  /** Users create and update HelmChartProxies through admission. A key is not reused while
      a reconcile of its previous owner is still in flight. */
  function StepCreateChart(w: World, urlOk: string -> bool, key: ObjectKey, spec: ChartSpec, paused: bool): World {
    if key in w.charts || key in w.chartJobs || ValidateChartCreate(urlOk, key.namespace, DefaultChart(spec)) != []
    then w
    else w.(charts := w.charts[key := ChartProxy(DefaultChart(spec), paused, false, false, 1, NEW_CHART_STATUS)])
  }

  function StepUpdateChart(w: World, urlOk: string -> bool, key: ObjectKey, spec: ChartSpec, paused: bool): World {
    if key !in w.charts ||
       ValidateChartUpdate(urlOk, key.namespace, w.charts[key].spec, DefaultChart(spec)) != []
    then w
    else
      var c := w.charts[key];
      w.(charts := w.charts[key := c.(spec := DefaultChart(spec), paused := paused, generation := c.generation + 1)])
  }

  function StepDeleteChart(w: World, key: ObjectKey): World {
    if key !in w.charts then w
    else
      var c := w.charts[key];
      w.(charts := PutChart(w.charts, key, c.(deleting := true, generation := c.generation + 1)))
  }

  function KeysOn(releases: map<ReleaseKey, Release>, cluster: ObjectKey): set<ReleaseKey> {
    set k | k in releases && k.cluster == cluster
  }

  /** A cluster that goes away takes its releases with it. */
  function StepClusterChanges(w: World, cluster: ObjectKey, state: Option<Cluster>): World {
    match state
    case Some(c) => w.(clusters := w.clusters[cluster := c])
    case None =>
      var lost := KeysOn(w.releases, cluster);
      w.(clusters := w.clusters - {cluster}, releases := w.releases - lost,
         history := w.history.(claims := w.history.claims - lost))
  }

  function StepReleaseChanges(w: World, release: ReleaseKey, state: Option<Release>): World {
    match state
    case Some(r) =>
      if release.cluster !in w.clusters || release.name == "" then w else w.(releases := w.releases[release := r])
    case None =>
      w.(releases := w.releases - {release}, history := w.history.(claims := w.history.claims - {release}))
  }

  function Apply(w: World, urlOk: string -> bool, a: Action): World {
    match a
    case CreateChart(key, spec, paused) => StepCreateChart(w, urlOk, key, spec, paused)
    case UpdateChart(key, spec, paused) => StepUpdateChart(w, urlOk, key, spec, paused)
    case DeleteChart(key) => StepDeleteChart(w, key)
    case DeleteProxyByHand(id) => DeleteProxy(w, id)
    case ClusterChanges(cluster, state) => StepClusterChanges(w, cluster, state)
    case ReleaseChanges(release, state) => StepReleaseChanges(w, release, state)
    case ChartReconcile(key, e) =>
      if key in w.chartJobs then StepChart(w, urlOk, key, w.chartJobs[key], e)
      else if key in w.charts
      then w.(chartJobs := w.chartJobs[key := ChartJob(w.charts[key], w.charts[key], ListClusters)])
      else w
    case ReleaseReconcile(id, e) =>
      if id in w.releaseJobs then StepRelease(w, id, w.releaseJobs[id], e)
      else if id in w.proxies then w.(releaseJobs := w.releaseJobs[id := StartRelease(w.proxies[id])])
      else w
    case ChartCrash(key) => EndChart(w, key)
    case ReleaseCrash(id) => EndRelease(w, id)
  }

  function Run(w: World, urlOk: string -> bool, actions: seq<Action>): World
    decreases |actions|
  {
    if actions == [] then w
    else Apply(Run(w, urlOk, actions[..|actions| - 1]), urlOk, actions[|actions| - 1])
  }

  /** A fresh system: HelmChartProxies that may predate the secret-reference rule, any
      clusters with any releases on them, no HelmReleaseProxy and no reconcile yet. */
  ghost predicate Init(w: World, urlOk: string -> bool) {
    && w.proxies == map[] && w.chartJobs == map[] && w.releaseJobs == map[]
    && w.history == History([], map[], map[], map[])
    && (forall k <- w.charts :: urlOk(w.charts[k].spec.repoURL) && w.charts[k].spec.releaseNamespace != "")
    && (forall k <- w.charts :: w.charts[k].deleting ==> w.charts[k].finalizer)
    && (forall k <- w.releases :: k.cluster in w.clusters)
  }

  ghost predicate Reachable(w: World, urlOk: string -> bool) {
    exists init, actions :: Init(init, urlOk) && w == Run(init, urlOk, actions)
  }
}
