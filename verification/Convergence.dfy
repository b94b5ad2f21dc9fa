/** Convergence and teardown as facts about the machine: from any state the invariant allows,
    with no chart reconcile in flight, the two controllers alone get the job done. */
module Convergence {
  import opened Types
  import opened Helm
  import opened Phases
  import opened Machine
  import opened StoreInvariant
  import opened Invariant
  import opened Rounds
  import opened Refinement
  import D = Drain

  /** The HelmChartProxy and the clusters are those of the setting, and no reconcile of the
      HelmChartProxy is in flight. Release reconciles may be anywhere. */
  ghost predicate AtRest(s: Setting, urlOk: string -> bool, w: World) {
    && Inv(w, urlOk) && s.key in w.charts && s.key !in w.chartJobs
    && w.charts[s.key].spec == s.chart && !w.charts[s.key].paused && !w.charts[s.key].deleting
    && SelectorParses(s.chart.selector)
    && Describes(s, Selected(w.clusters, s.key, s.chart.selector)) && Distinct(s.eligible)
  }

  lemma RestIsSane(s: Setting, urlOk: string -> bool, w: World)
    requires AtRest(s, urlOk, w)
    ensures SettingOk(s) && Sane(s, w) && urlOk(s.chart.repoURL)
  {
    hide ReleaseSide;
    assert ChartOk(urlOk, w.charts[s.key]);
    forall c <- s.eligible ensures c in s.selected {
      assert Eligible(Selected(w.clusters, s.key, s.chart.selector), c);
    }
    forall id <- w.proxies ensures ProxySane(s, w.clock, id, w.proxies[id]) {
      assert ProxyOk(w.charts, w.clock, id, w.proxies[id]);
    }
  }

  lemma SameOrphans(s: Setting, w: World, selected: map<ObjectKey, Cluster>)
    requires s.selected == selected.Keys && s.chart.strategy != InstallOnce
    ensures (set id <- Orphans(s, w)) == OrphanIds(Listed(w.proxies, s.key), selected)
  {
  }

  lemma {:induction false} ForClustersAlike(s: Setting, w: World, v: World, n: nat)
    requires Alike(w, v) && Sane(s, w) && SettingOk(s) && n <= |s.eligible|
    ensures Alike(ForClusters(s, w, n), ForClusters(s, v, n))
  {
    hide Alike, Sane, SettingOk, ForCluster;
    hide AllHandled, AllServed, CleanFrom, OrphansLeaving, NoOrphans;
    if n > 0 {
      ForClustersAlike(s, w, v, n - 1);
      ForClustersStep(s, w, n - 1);
      ForClusterAlike(s, ForClusters(s, w, n - 1), ForClusters(s, v, n - 1), s.eligible[n - 1]);
    }
  }

  lemma {:induction false} DeleteEachAlike(w: World, v: World, ids: seq<ProxyId>)
    requires Alike(w, v)
    ensures Alike(DeleteEach(w, ids), DeleteEach(v, ids))
  {
    hide Alike, DeleteProxy;
    if ids != [] {
      DeleteEachAlike(w, v, ids[..|ids| - 1]);
      DeleteAlike(DeleteEach(w, ids[..|ids| - 1]), DeleteEach(v, ids[..|ids| - 1]), ids[|ids| - 1]);
    }
  }

  lemma ReconcileAlike(s: Setting, w: World, v: World)
    requires Alike(w, v) && Sane(s, w) && SettingOk(s)
    ensures Alike(Reconcile(s, w), Reconcile(s, v))
  {
    assert Orphans(s, w) == Orphans(s, v);
    DeleteEachDeletes(s, w, Orphans(s, w));
    DeleteEachAlike(w, v, Orphans(s, w));
    hide Alike, Sane, SettingOk, ForClusters, DeleteEach, Orphans;
    ForClustersAlike(s, DeleteEach(w, Orphans(s, w)), DeleteEach(v, Orphans(s, w)), |s.eligible|);
  }

  /** All orphans deleted, or none looked for: on to the clusters. */
  lemma OrphansDone(s: Setting, urlOk: string -> bool, v: World, base: ChartProxy, selected: map<ObjectKey, Cluster>)
    returns (v': World)
    requires Stands(v, s.key, base, WorkPc(base, selected, Listed(v.proxies, s.key)))
    requires base.spec == s.chart && s.selected == selected.Keys
    ensures Leads(v, urlOk, ChartOnly(s.key), v') && Stands(v', s.key, base, NextCluster(selected))
    ensures v'.charts == v.charts && Alike(DeleteEach(v, Orphans(s, v)), v')
  {
    if s.chart.strategy == InstallOnce {
      v' := v;
      assert Orphans(s, v) == [];
      LeadsNowhere(v, urlOk, ChartOnly(s.key));
      AlikeSelf(v);
    } else {
      v' := OrphansDeleted(s, urlOk, v, base, selected);
    }
  }

  lemma OrphansDeleted(s: Setting, urlOk: string -> bool, v: World, base: ChartProxy,
                       selected: map<ObjectKey, Cluster>) returns (v': World)
    requires Stands(v, s.key, base, DeleteOrphans(selected, OrphanIds(Listed(v.proxies, s.key), selected)))
    requires s.selected == selected.Keys && s.chart.strategy != InstallOnce
    ensures Leads(v, urlOk, ChartOnly(s.key), v') && Stands(v', s.key, base, NextCluster(selected))
    ensures v'.charts == v.charts && Alike(DeleteEach(v, Orphans(s, v)), v')
  {
    SameOrphans(s, v, selected);
    var ids := Orphans(s, v);
    var orphans := OrphanIds(Listed(v.proxies, s.key), selected);
    forall id <- ids ensures id in orphans {
      assert id in (set i <- ids);
    }
    assert orphans - (set id <- ids) == {};
    hide Leads, Orphans, OrphanIds, DeleteEach, Alike, Stands;
    var v1 := OrphansRefine(v, urlOk, s.key, base, selected, orphans, ids);
    v' := OnToClusters(v1, urlOk, s.key, base, selected);
    AlikeOn(DeleteEach(v, ids), v1, v');
    LeadsOn(v, urlOk, ChartOnly(s.key), v1, v');
  }

  lemma OnToClusters(v: World, urlOk: string -> bool, key: ObjectKey, base: ChartProxy,
                     selected: map<ObjectKey, Cluster>) returns (v': World)
    requires Stands(v, key, base, DeleteOrphans(selected, {}))
    ensures Leads(v, urlOk, ChartOnly(key), v') && Stands(v', key, base, NextCluster(selected))
    ensures v'.charts == v.charts && Alike(v, v')
  {
    hide Leads;
    v' := Goto(v, key, v.chartJobs[key], NextCluster(selected));
    assert StepChart(v, urlOk, key, v.chartJobs[key], ChartEnvOk(key)) == v';
    StepTaken(v, urlOk, key, ChartEnvOk(key));
  }

  lemma NoneEligible(s: Setting, selected: map<ObjectKey, Cluster>)
    requires Describes(s, selected)
    ensures forall c :: !Eligible(Rest(s, selected, |s.eligible|), c)
  {
    forall c ensures !Eligible(Rest(s, selected, |s.eligible|), c) {
      if c in s.eligible {
        var i :| 0 <= i < |s.eligible| && s.eligible[i] == c;
      } else {
        assert !Eligible(selected, c);
      }
    }
  }

  /** The orphans and the clusters of one reconcile. */
  lemma Worked(s: Setting, urlOk: string -> bool, v: World, base: ChartProxy, selected: map<ObjectKey, Cluster>)
    returns (v': World)
    requires Stands(v, s.key, base, WorkPc(base, selected, Listed(v.proxies, s.key)))
    requires base.spec == s.chart && !base.paused && urlOk(s.chart.repoURL)
    requires Describes(s, selected) && SettingOk(s) && Sane(s, v)
    ensures Leads(v, urlOk, ChartOnly(s.key), v') && Stands(v', s.key, base, NextCluster(map[]))
    ensures v'.charts == v.charts && Alike(Reconcile(s, v), v')
  {
    hide Leads, Sane, SettingOk, Rest, ForClusters, DeleteEach, Orphans, WorkPc, DeletesOnly, Stands, Alike;
    var ids := Orphans(s, v);
    var n := |s.eligible|;
    var v1 := OrphansDone(s, urlOk, v, base, selected);
    DeleteEachDeletes(s, v, ids);
    AlikeSane(s, DeleteEach(v, ids), v1);
    var v2 := ClustersRefine(s, urlOk, v1, base, selected, n);
    NoneEligible(s, selected);
    v' := SkipsRest(v2, urlOk, s.key, base, Rest(s, selected, n));
    ForClustersAlike(s, DeleteEach(v, ids), v1, n);
    AlikeOn(Reconcile(s, v), ForClusters(s, v1, n), v2);
    AlikeOn(Reconcile(s, v), v2, v');
    LeadsOn(v, urlOk, ChartOnly(s.key), v1, v2);
    LeadsOn(v, urlOk, ChartOnly(s.key), v2, v');
  }

  /** An uninterrupted chart reconcile is Rounds.Reconcile. */
  lemma ReconcileRefines(s: Setting, urlOk: string -> bool, w: World) returns (v: World)
    requires AtRest(s, urlOk, w)
    ensures Leads(w, urlOk, ChartOnly(s.key), v) && Alike(Reconcile(s, w), v)
    ensures KeepsChart(w, v, s.key) && s.key !in v.chartJobs
  {
    RestIsSane(s, urlOk, w);
    var selected := Selected(w.clusters, s.key, s.chart.selector);
    var base := w.charts[s.key];
    hide Inv, Leads, Sane, SettingOk, Describes, Selected, Reconcile, Stands, Listed, WorkPc;
    var v1 := Started(w, urlOk, s.key);
    var v2 := FinalizerIn(v1, urlOk, s.key, selected);
    AlikeOn(w, v1, v2);
    AlikeSane(s, w, v2);
    var v3 := Worked(s, urlOk, v2, base, selected);
    v := Finished(v3, urlOk, s.key, base);
    hide Alike;
    ReconcileAlike(s, w, v2);
    AlikeOn(Reconcile(s, w), Reconcile(s, v2), v3);
    AlikeOn(Reconcile(s, w), v3, v);
    LeadsOn(w, urlOk, ChartOnly(s.key), v1, v2);
    LeadsOn(w, urlOk, ChartOnly(s.key), v2, v3);
    LeadsOn(w, urlOk, ChartOnly(s.key), v3, v);
  }

  /* ---- draining ---- */

  const SMOOTH := ReleaseEnv(true, true, true, true, false, HelmEnv(false, false, None, x => x, Aborts, ""))

  function TerminatingIds(proxies: Proxies): set<ProxyId> {
    set id | id in proxies && proxies[id].deleting
  }

  /** Only terminating proxies and release reconciles are touched. */
  ghost predicate OnlyTerminating(w: World, v: World) {
    && v.charts == w.charts && v.chartJobs == w.chartJobs && v.clusters == w.clusters && w.clock <= v.clock
    && v.proxies == Drain(w).proxies
  }

  lemma OneDrained(w: World, urlOk: string -> bool, id: ProxyId) returns (v: World)
    requires Inv(w, urlOk) && id in w.proxies && w.proxies[id].deleting
    ensures Leads(w, urlOk, ReleasesOnly, v) && D.Drained(w, urlOk, id, v)
  {
    hide Inv, D.Drained, D.Stage;
    var a := ReleaseReconcile(id, SMOOTH);
    D.StageIsBounded(w, id);
    D.TerminatingProxyDrains(w, urlOk, id, SMOOTH, 12);
    var k: nat :| k <= 12 && D.Drained(w, urlOk, id, Run(w, urlOk, D.Repeat(a, k)));
    v := Run(w, urlOk, D.Repeat(a, k));
    assert Steps(ReleasesOnly, a);
    assert Script(ReleasesOnly, D.Repeat(a, k));
  }

  lemma DrainedOnce(w: World, urlOk: string -> bool, id: ProxyId, v: World)
    requires id in w.proxies && w.proxies[id].deleting && D.Drained(w, urlOk, id, v)
    ensures v.proxies == w.proxies - {id} && Drain(v).proxies == Drain(w).proxies
    ensures TerminatingIds(v.proxies) == TerminatingIds(w.proxies) - {id}
    ensures v.charts == w.charts && v.chartJobs == w.chartJobs && v.clusters == w.clusters && w.clock <= v.clock
  {
    hide Inv;
    assert v.proxies - {id} == v.proxies;
    assert forall i :: i in Drain(v).proxies <==> i in Drain(w).proxies;
  }

  /** The release controller alone finishes with every terminating proxy. */
  lemma {:induction false} DrainRefines(w: World, urlOk: string -> bool) returns (v: World)
    requires Inv(w, urlOk)
    ensures Leads(w, urlOk, ReleasesOnly, v) && Inv(v, urlOk) && OnlyTerminating(w, v)
    decreases |TerminatingIds(w.proxies)|
  {
    hide Inv, Leads, D.Drained, Drain;
    if TerminatingIds(w.proxies) == {} {
      v := w;
      LeadsNowhere(w, urlOk, ReleasesOnly);
      NothingToDrain(w);
    } else {
      var id :| id in TerminatingIds(w.proxies);
      var v1 := OneDrained(w, urlOk, id);
      DrainedOnce(w, urlOk, id, v1);
      DrainedInv(w, urlOk, id, v1);
      v := DrainRefines(v1, urlOk);
      LeadsOn(w, urlOk, ReleasesOnly, v1, v);
    }
  }

  lemma NothingToDrain(w: World)
    requires TerminatingIds(w.proxies) == {}
    ensures Drain(w).proxies == w.proxies
  {
    assert forall id <- w.proxies :: id !in TerminatingIds(w.proxies);
  }

  lemma DrainedInv(w: World, urlOk: string -> bool, id: ProxyId, v: World)
    requires D.Drained(w, urlOk, id, v)
    ensures Inv(v, urlOk)
  {
    hide Inv;
  }

  /* ---- rounds on the machine ---- */

  lemma ForClusterKeepsClusters(s: Setting, w: World, c: ObjectKey)
    ensures ForCluster(s, w, c).clusters == w.clusters
  {
    hide Decide, Stamp, Overwrite, NewProxy, UpdateAccepted;
  }

  lemma {:induction false} ForClustersKeepClusters(s: Setting, w: World, n: nat)
    requires n <= |s.eligible|
    ensures ForClusters(s, w, n).clusters == w.clusters
  {
    hide ForCluster;
    if n > 0 {
      ForClustersKeepClusters(s, w, n - 1);
      ForClusterKeepsClusters(s, ForClusters(s, w, n - 1), s.eligible[n - 1]);
    }
  }

  lemma {:induction false} DeleteEachKeepsClusters(w: World, ids: seq<ProxyId>)
    ensures DeleteEach(w, ids).clusters == w.clusters
  {
    hide Stamp;
    if ids != [] {
      DeleteEachKeepsClusters(w, ids[..|ids| - 1]);
    }
  }

  lemma ReconcileKeepsClusters(s: Setting, w: World)
    ensures Reconcile(s, w).clusters == w.clusters
  {
    DeleteEachKeepsClusters(w, Orphans(s, w));
    ForClustersKeepClusters(s, DeleteEach(w, Orphans(s, w)), |s.eligible|);
  }

  /** One round: a chart reconcile, then the release controller finishing what terminates. */
  lemma MachineRound(s: Setting, urlOk: string -> bool, w: World) returns (v: World)
    requires AtRest(s, urlOk, w)
    ensures Leads(w, urlOk, Both(s.key), v) && AtRest(s, urlOk, v)
    ensures v.proxies == Round(s, w).proxies
  {
    var v1 := ReconcileRefines(s, urlOk, w);
    LeadsKeepsInv(w, urlOk, ChartOnly(s.key), v1);
    hide Inv, Leads, Reconcile, Describes, Selected;
    v := DrainRefines(v1, urlOk);
    LeadsTogether(w, urlOk, s.key, v1);
    LeadsTogether(v1, urlOk, s.key, v);
    LeadsOn(w, urlOk, Both(s.key), v1, v);
    ReconcileKeepsClusters(s, w);
  }

  /** Serving and orphans depend on the stored proxies alone. */
  lemma SameProxies(s: Setting, w: World, v: World)
    requires w.proxies == v.proxies
    ensures NoOrphans(s, w) == NoOrphans(s, v) && CleanFrom(s, w, 0) == CleanFrom(s, v, 0)
    ensures AllServed(s, w, |s.eligible|) == AllServed(s, v, |s.eligible|)
  {
    forall c ensures Served(s, w, c) == Served(s, v, c) && Clean(s, w, c) == Clean(s, v, c) {
    }
  }

  lemma MachineRoundStep(s: Setting, urlOk: string -> bool, w: World) returns (v: World)
    requires AtRest(s, urlOk, w)
    ensures Leads(w, urlOk, Both(s.key), v) && AtRest(s, urlOk, v) && NoOrphans(s, v) && CleanFrom(s, v, 0)
    ensures NoOrphans(s, w) && CleanFrom(s, w, 0) ==> AllServed(s, v, |s.eligible|)
  {
    v := MachineRound(s, urlOk, w);
    RestIsSane(s, urlOk, w);
    hide AtRest, Leads, SettingOk, Sane, NoOrphans, CleanFrom, AllServed, Round;
    RoundStep(s, w);
    SameProxies(s, Round(s, w), v);
  }

  /** Convergence on the machine. With the HelmChartProxy and the clusters fixed, the two
      controllers alone lead from any state the invariant allows to one with exactly one
      proxy per eligible cluster, matching the HelmChartProxy on identity, version and values,
      and no orphan; from there another chart reconcile changes no proxy. */
  lemma MachineConverges(s: Setting, urlOk: string -> bool, w: World) returns (v: World)
    requires AtRest(s, urlOk, w)
    ensures Leads(w, urlOk, Both(s.key), v) && AtRest(s, urlOk, v)
    ensures OnePerPair(v.proxies) && NoOrphans(s, v) && forall c <- s.eligible :: Served(s, v, c)
    ensures exists u ::
      Leads(v, urlOk, ChartOnly(s.key), u) && AtRest(s, urlOk, u) && u.proxies == v.proxies && u.clock == v.clock
  {
    var v1 := MachineRoundStep(s, urlOk, w);
    v := MachineRoundStep(s, urlOk, v1);
    RestIsSane(s, urlOk, v);
    var u := ReconcileRefines(s, urlOk, v);
    hide Leads;
    LeadsOn(w, urlOk, Both(s.key), v1, v);
    RoundStep(s, v);
    assert Alike(v, u);
    LeadsKeepsInv(v, urlOk, ChartOnly(s.key), u);
    hide Inv;
    assert AtRest(s, urlOk, u);
  }
}
