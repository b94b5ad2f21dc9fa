/** Runs from a fresh system into states that the code does not exclude: a HelmReleaseProxy that
    stays Ready on a release Helm has begun to uninstall, and a HelmChartProxy whose deletion is
    blocked by its selector. */
module Witness {
  import opened Types
  import opened Helm
  import opened Machine
  import opened StoreInvariant
  import opened Invariant
  import opened Rounds
  import opened Liveness
  import opened LastCalls
  import Theorems
  import C = Convergence
  import R = Refinement
  import B = Bridge
  import D = Drain
  import T = Teardown

  const KEY := ObjectKey("ns", "web")
  const CLUSTER := ObjectKey("ns", "prod")
  const UP := Cluster(map[], false, false, Some(true))

  function Spec(url: string): ChartSpec {
    ChartSpec([], "nginx", url, "web", "apps", "1.0.0", "", Continuous,
              HelmOptions(false, false, Some(600), {}), None, None)
  }

  function Start(url: string): World {
    World(map[KEY := ChartProxy(Spec(url), false, false, false, 1, NEW_CHART_STATUS)], map[], map[CLUSTER := UP], map[],
          map[], map[], 0, History([], map[], map[], map[]))
  }

  function TheSetting(url: string): Setting {
    Setting(KEY, Spec(url), {CLUSTER}, [CLUSTER], _ => "")
  }

  const WORKING := ReleaseEnv(true, true, true, true, false,
    HelmEnv(false, false, Some("1.0.0"), x => x, Stores(Deployed, false, true), "web"))

  lemma Reaches(w: World, urlOk: string -> bool, v: World)
    requires Machine.Reachable(w, urlOk) && B.IsRun(w, urlOk, v)
    ensures Machine.Reachable(v, urlOk)
  {
    hide Run, Init;
    var start, front :| Init(start, urlOk) && w == Run(start, urlOk, front);
    var rest :| v == Run(w, urlOk, rest);
    D.RunAppend(start, urlOk, front, rest);
  }

  lemma ReachesByAction(w: World, urlOk: string -> bool, a: Action)
    requires Machine.Reachable(w, urlOk)
    ensures Machine.Reachable(Apply(w, urlOk, a), urlOk)
  {
    hide Machine.Reachable, Apply, B.IsRun;
    B.ActionIsRun(w, urlOk, a);
    Reaches(w, urlOk, Apply(w, urlOk, a));
  }

  lemma StartIsReachable(urlOk: string -> bool, url: string)
    requires urlOk(url)
    ensures Init(Start(url), urlOk) && Machine.Reachable(Start(url), urlOk)
  {
    assert Run(Start(url), urlOk, []) == Start(url);
  }

  lemma StartIsAtRest(urlOk: string -> bool, url: string)
    requires urlOk(url)
    ensures C.AtRest(TheSetting(url), urlOk, Start(url))
  {
    StartIsReachable(urlOk, url);
    InitHasInv(Start(url), urlOk);
    hide Inv;
    var selected := Selected(Start(url).clusters, KEY, Spec(url).selector);
    assert selected == map[CLUSTER := UP];
    assert R.Describes(TheSetting(url), selected) by {
      forall c ensures c in [CLUSTER] <==> R.Eligible(selected, c) {
      }
    }
  }

  /** The controllers make a proxy for the cluster. */
  lemma ProxyAppears(urlOk: string -> bool, url: string) returns (w: World, id: ProxyId)
    requires urlOk(url)
    ensures Machine.Reachable(w, urlOk) && id in w.proxies && !w.proxies[id].deleting
    ensures w.proxies[id].spec.strategy == Continuous && w.proxies[id].spec.releaseName == "web"
    ensures w.proxies[id].spec.cluster == CLUSTER
  {
    hide C.AtRest, Machine.Reachable, Served;
    w := Settles(urlOk, url);
    id := TheServed(TheSetting(url), urlOk, w, CLUSTER);
  }

  lemma Settles(urlOk: string -> bool, url: string) returns (w: World)
    requires urlOk(url)
    ensures Machine.Reachable(w, urlOk) && C.AtRest(TheSetting(url), urlOk, w)
    ensures Served(TheSetting(url), w, CLUSTER)
  {
    var s := TheSetting(url);
    StartIsReachable(urlOk, url);
    StartIsAtRest(urlOk, url);
    hide C.AtRest, R.Leads, Machine.Reachable, Served, NoOrphans;
    w := C.MachineConverges(s, urlOk, Start(url));
    LeadsToReachable(Start(url), urlOk, R.Both(KEY), w);
    assert CLUSTER in s.eligible;
  }

  lemma LeadsToReachable(w: World, urlOk: string -> bool, who: R.Who, v: World)
    requires Machine.Reachable(w, urlOk) && R.Leads(w, urlOk, who, v)
    ensures Machine.Reachable(v, urlOk)
  {
    hide Run, Machine.Reachable;
    var actions :| R.Script(who, actions) && Run(w, urlOk, actions) == v;
    assert B.IsRun(w, urlOk, v);
    Reaches(w, urlOk, v);
  }

  lemma TheServed(s: Setting, urlOk: string -> bool, w: World, c: ObjectKey) returns (id: ProxyId)
    requires C.AtRest(s, urlOk, w) && Served(s, w, c) && s.chart.releaseName != "" && c.namespace == s.key.namespace
    requires s.chart.strategy != InstallOnce
    ensures id in w.proxies && !w.proxies[id].deleting && w.proxies[id].spec.strategy == s.chart.strategy
    ensures w.proxies[id].spec.releaseName == s.chart.releaseName && w.proxies[id].spec.cluster == c
    ensures OwnerOf(w.proxies[id]) == s.key
  {
    C.RestIsSane(s, urlOk, w);
    hide C.AtRest;
    id :| id in w.proxies && PairOf(w.proxies[id], s.key, c);
    assert Matches(s, w.proxies[id], c) && ProxySane(s, w.clock, id, w.proxies[id]);
  }

  /** Users, clusters and hand-used Helm clear the way: the cluster is up, no release is stored
      and no reconcile of the proxy is in flight. */
  lemma WayIsClear(urlOk: string -> bool, url: string) returns (w: World, id: ProxyId)
    requires urlOk(url)
    ensures Machine.Reachable(w, urlOk) && Serviceable(w, id) && id !in w.releaseJobs
    ensures KeyOf(w.proxies[id].spec) !in w.releases
  {
    var w0;
    w0, id := ProxyAppears(urlOk, url);
    hide Machine.Reachable;
    var key := KeyOf(w0.proxies[id].spec);
    var a, b, c := ClusterChanges(CLUSTER, Some(UP)), ReleaseChanges(key, None), ReleaseCrash(id);
    var w1 := Apply(w0, urlOk, a);
    var w2 := Apply(w1, urlOk, b);
    w := Apply(w2, urlOk, c);
    ReachesByAction(w0, urlOk, a);
    ReachesByAction(w1, urlOk, b);
    ReachesByAction(w2, urlOk, c);
  }

  /** One reconcile in which nothing fails, from a reachable state to a reachable state. */
  lemma ReconcileOnce(w: World, urlOk: string -> bool, id: ProxyId) returns (v: World)
    requires Machine.Reachable(w, urlOk) && Serviceable(w, id) && id !in w.releaseJobs
    ensures Machine.Reachable(v, urlOk) && Inv(w, urlOk) && Reconciled(w, id, _ => WORKING, v)
  {
    ReachableHasInv(w, urlOk);
    hide Inv, Machine.Reachable, Serviceable;
    assert WorksThroughout(_ => WORKING);
    assert Installable(w, id) by {
      ServiceableIsInstallable(w, id);
    }
    v := HealthyReconcile(w, urlOk, id, _ => WORKING);
    B.ReleaseReconcileIsRun(w, urlOk, id, _ => WORKING, v);
    Reaches(w, urlOk, v);
  }

  lemma EndsWithoutJob(w: World, id: ProxyId, env: ReleasePc -> ReleaseEnv, v: World)
    requires Reconciled(w, id, env, v)
    ensures id !in v.releaseJobs
  {
  }

  lemma ServiceableIsInstallable(w: World, id: ProxyId)
    requires Serviceable(w, id)
    ensures Installable(w, id)
  {
  }

  ghost predicate ReadyOn(w: World, urlOk: string -> bool, id: ProxyId, status: HelmStatus) {
    && Machine.Reachable(w, urlOk) && Serviceable(w, id) && id !in w.releaseJobs
    && ReadyNow(w.proxies[id]) && w.proxies[id].status.releaseReady == IsTrue
    && KeyOf(w.proxies[id].spec) in w.releases
    && Settled(x => x, w.releases[KeyOf(w.proxies[id].spec)], "1.0.0", w.proxies[id].spec.values)
    && w.releases[KeyOf(w.proxies[id].spec)].status == status
  }

  lemma FreshInstallSettles(releases: map<ReleaseKey, Release>, spec: ReleaseSpec)
    requires spec.releaseName != "" && KeyOf(spec) !in releases
    ensures var r := InstallOrUpgrade(releases, spec, WORKING.helm);
      && KeyOf(spec) in r.releases && r.releases[KeyOf(spec)].status == Deployed
      && Settled(x => x, r.releases[KeyOf(spec)], "1.0.0", spec.values)
      && r.outcome == Outcome(spec.releaseName, Some(r.releases[KeyOf(spec)]), false)
  {
  }

  lemma UninstallingIsReturned(releases: map<ReleaseKey, Release>, spec: ReleaseSpec)
    requires spec.releaseName != "" && KeyOf(spec) in releases && releases[KeyOf(spec)].status == Uninstalling
    requires Settled(x => x, releases[KeyOf(spec)], "1.0.0", spec.values)
    ensures var r := InstallOrUpgrade(releases, spec, WORKING.helm);
      r.releases == releases && r.outcome == Outcome(spec.releaseName, Some(releases[KeyOf(spec)]), false)
  {
  }

  lemma BecomesReadyOnDeployed(urlOk: string -> bool, url: string) returns (w: World, id: ProxyId)
    requires urlOk(url)
    ensures ReadyOn(w, urlOk, id, Deployed)
  {
    var w0;
    hide Machine.Reachable, Serviceable, ReadyOn;
    w0, id := WayIsClear(urlOk, url);
    w := DeploysFresh(w0, urlOk, id);
  }

  lemma DeploysFresh(w: World, urlOk: string -> bool, id: ProxyId) returns (v: World)
    requires Machine.Reachable(w, urlOk) && Serviceable(w, id) && id !in w.releaseJobs
    requires KeyOf(w.proxies[id].spec) !in w.releases
    ensures ReadyOn(v, urlOk, id, Deployed)
  {
    v := ReconcileOnce(w, urlOk, id);
    hide Machine.Reachable, Inv, Reconciled, InstallOrUpgrade, Settled, ReadyNow;
    FreshInstallSettles(w.releases, w.proxies[id].spec);
    ReturnedIsRecorded(w, urlOk, id, v);
    EndsWithoutJob(w, id, _ => WORKING, v);
  }

  /** What the reconcile stores if its call returned without an error. */
  lemma ReturnedIsRecorded(w: World, urlOk: string -> bool, id: ProxyId, v: World)
    requires Inv(w, urlOk) && Serviceable(w, id) && Reconciled(w, id, _ => WORKING, v)
    requires var o := InstallOrUpgrade(w.releases, w.proxies[id].spec, WORKING.helm).outcome;
      o.release.Some? && !o.failed && o.name == w.proxies[id].spec.releaseName &&
      (o.release.value.status == Deployed ||
       (o.release.value.status.IsUnhandled() && w.proxies[id].status.releaseReady == IsTrue))
    ensures Serviceable(v, id) && v.proxies[id].spec == w.proxies[id].spec
    ensures v.releases == InstallOrUpgrade(w.releases, w.proxies[id].spec, WORKING.helm).releases
    ensures ReadyNow(v.proxies[id]) && v.proxies[id].status.releaseReady == IsTrue
  {
    EveryHealthyReconcile(w, urlOk, id, _ => WORKING, v);
    hide Inv, InstallOrUpgrade, ReadyNow, Reconciled;
  }

  lemma UninstallBegins(w: World, urlOk: string -> bool, id: ProxyId) returns (v: World)
    requires ReadyOn(w, urlOk, id, Deployed)
    ensures ReadyOn(v, urlOk, id, Uninstalling)
  {
    var key := KeyOf(w.proxies[id].spec);
    var a := ReleaseChanges(key, Some(w.releases[key].(status := Uninstalling)));
    v := Apply(w, urlOk, a);
    ReachesByAction(w, urlOk, a);
    hide Machine.Reachable;
  }

  lemma StaysReadyOnUninstalling(w: World, urlOk: string -> bool, id: ProxyId) returns (v: World)
    requires ReadyOn(w, urlOk, id, Uninstalling)
    ensures ReadyOn(v, urlOk, id, Uninstalling) && Reconciled(w, id, _ => WORKING, v)
  {
    v := ReconcileOnce(w, urlOk, id);
    hide Machine.Reachable, Inv, Reconciled, InstallOrUpgrade, Settled, ReadyNow;
    UninstallingIsReturned(w.releases, w.proxies[id].spec);
    ReturnedIsRecorded(w, urlOk, id, v);
    EndsWithoutJob(w, id, _ => WORKING, v);
  }

  /** Ready may outlive the release: in some reachable state a Continuous proxy is Ready at its
      generation while its release is being uninstalled, and a reconcile without a failure
      leaves it so. */
  lemma ReadyMayOutliveTheRelease(urlOk: string -> bool, url: string) returns (w: World, v: World, id: ProxyId)
    requires urlOk(url)
    ensures ReadyOn(w, urlOk, id, Uninstalling) && ReadyOn(v, urlOk, id, Uninstalling)
    ensures Reconciled(w, id, _ => WORKING, v)
  {
    hide ReadyOn, Reconciled;
    var w0;
    w0, id := BecomesReadyOnDeployed(urlOk, url);
    w := UninstallBegins(w0, urlOk, id);
    v := StaysReadyOnUninstalling(w, urlOk, id);
  }

  /** A HelmChartProxy serving a cluster, no reconcile of it in flight. */
  lemma ServingAppears(urlOk: string -> bool, url: string) returns (w: World)
    requires urlOk(url)
    ensures Machine.Reachable(w, urlOk) && KEY in w.charts && KEY !in w.chartJobs
    ensures w.charts[KEY].finalizer && !w.charts[KEY].deleting && w.charts[KEY].spec == Spec(url)
  {
    hide Machine.Reachable, Served;
    w := Settles(urlOk, url);
    ReachableHasInv(w, urlOk);
    var id := TheServed(TheSetting(url), urlOk, w, CLUSTER);
    Theorems.OwnersOutliveProxies(w, urlOk);
  }

  const BAD: Selector := [BadOperator("In")]

  /** A teardown can be blocked: in some reachable state a HelmChartProxy is being deleted and its
      selector does not parse. */
  lemma StuckIsReachable(urlOk: string -> bool, url: string) returns (w: World)
    requires urlOk(url)
    ensures Machine.Reachable(w, urlOk) && T.Stuck(w, KEY)
  {
    var w0 := ServingAppears(urlOk, url);
    var spec := Spec(url).(selector := BAD);
    assert !BAD[0].Parses();
    var edit, delete := UpdateChart(KEY, spec, false), DeleteChart(KEY);
    T.BadEditSticks(w0, urlOk, KEY, spec, false);
    w := Apply(Apply(w0, urlOk, edit), urlOk, delete);
    ReachesByAction(w0, urlOk, edit);
    hide Apply, Machine.Reachable, T.Stuck;
    ReachesByAction(Apply(w0, urlOk, edit), urlOk, delete);
  }
}
