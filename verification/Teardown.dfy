/** What becomes of a HelmChartProxy that is being deleted: the two controllers alone take it
    and all its HelmReleaseProxies away, by a measure that falls with every effective
    reconcile, if and only if its selector parses. */
module Teardown {
  import opened Types
  import opened Admission
  import opened Phases
  import opened Machine
  import opened StoreInvariant
  import opened Invariant
  import opened Rounds
  import opened Refinement
  import C = Convergence
  import D = Drain

  /** A HelmChartProxy being deleted, no reconcile of it in flight. */
  ghost predicate Dying(w: World, urlOk: string -> bool, key: ObjectKey) {
    && Inv(w, urlOk) && key in w.charts && key !in w.chartJobs
    && w.charts[key].deleting && SelectorParses(w.charts[key].spec.selector)
  }

  function LiveIds(proxies: Proxies, key: ObjectKey): set<ProxyId> {
    set id | id in LabelledIds(proxies, key) && !proxies[id].deleting
  }

  function DyingIds(proxies: Proxies, key: ObjectKey): set<ProxyId> {
    set id | id in LabelledIds(proxies, key) && proxies[id].deleting
  }

  /* ---- one chart reconcile of a HelmChartProxy being deleted ---- */

  lemma TeardownListed(w: World, urlOk: string -> bool, key: ObjectKey, selected: map<ObjectKey, Cluster>)
    returns (v: World)
    requires key in w.chartJobs && w.chartJobs[key].pc == ListReleases(selected)
    requires w.chartJobs[key].base.deleting && w.chartJobs[key].base.finalizer && w.chartJobs[key].local.finalizer
    ensures Leads(w, urlOk, ChartOnly(key), v) && Alike(w, v) && v.charts == w.charts
    ensures Stands(v, key, w.chartJobs[key].base, ChartPc.Teardown(LabelledIds(w.proxies, key), {}, true))
  {
    hide Leads;
    var e := ChartEnvOk(key);
    var j := w.chartJobs[key];
    StepTaken(w, urlOk, key, e);
    assert Listed(w.proxies, key).Keys == LabelledIds(w.proxies, key);
    v := Goto(w, key, j, ChartPc.Teardown(Listed(w.proxies, key).Keys, {}, true));
    assert StepChart(w, urlOk, key, j, e) == v;
  }

  /** One proxy deleted and looked up again. */
  lemma TornDown(v: World, urlOk: string -> bool, key: ObjectKey, base: ChartProxy, todelete: set<ProxyId>,
                 waiting: set<ProxyId>, ready: bool, id: ProxyId)
    returns (v': World, waiting': set<ProxyId>, ready': bool)
    requires Stands(v, key, base, ChartPc.Teardown(todelete, waiting, ready)) && id in todelete
    ensures Leads(v, urlOk, ChartOnly(key), v') && Alike(DeleteProxy(v, id), v') && v'.charts == v.charts
    ensures Stands(v', key, base, ChartPc.Teardown(todelete - {id}, waiting', ready'))
    ensures waiting' == waiting || waiting' == waiting + {id}
  {
    hide Leads, WriteProxy;
    var e := ChartEnv(true, id, key, None);
    var j := v.chartJobs[key];
    assert todelete != {};
    var v1 := Goto(DeleteProxy(v, id), key, j, TeardownCheck(todelete - {id}, waiting, ready, id));
    StepTaken(v, urlOk, key, e);
    assert StepChart(v, urlOk, key, j, e) == v1;
    StepTaken(v1, urlOk, key, e);
    waiting' := if id in v1.proxies then waiting + {id} else waiting;
    ready' := ready && (id in v1.proxies ==> v1.proxies[id].status.ready == IsTrue);
    v' := Goto(v1, key, v1.chartJobs[key], ChartPc.Teardown(todelete - {id}, waiting', ready'));
    assert StepChart(v1, urlOk, key, v1.chartJobs[key], e) == v';
    LeadsOn(v, urlOk, ChartOnly(key), v1, v');
    DeleteKeepsCharts(v, id);
  }

  lemma DeleteKeepsCharts(w: World, id: ProxyId)
    ensures DeleteProxy(w, id).charts == w.charts && DeleteProxy(w, id).chartJobs == w.chartJobs
  {
  }

  lemma {:induction false} AllTornDown(v: World, urlOk: string -> bool, key: ObjectKey, base: ChartProxy,
                                       todelete: set<ProxyId>, ids: seq<ProxyId>)
    returns (v': World, waiting: set<ProxyId>, ready: bool)
    requires Stands(v, key, base, ChartPc.Teardown(todelete, {}, true))
    requires (forall id <- ids :: id in todelete) && Distinct(ids)
    ensures Leads(v, urlOk, ChartOnly(key), v') && Alike(DeleteEach(v, ids), v') && v'.charts == v.charts
    ensures Stands(v', key, base, ChartPc.Teardown(todelete - (set id <- ids), waiting, ready))
    ensures waiting <= set id <- ids
    decreases |ids|
  {
    hide Leads, DeleteProxy, Alike, Stands;
    if ids == [] {
      v', waiting, ready := v, {}, true;
      LeadsNowhere(v, urlOk, ChartOnly(key));
      AlikeSelf(v);
      assert todelete - (set id <- ids) == todelete;
    } else {
      var front, last := ids[..|ids| - 1], ids[|ids| - 1];
      var v1, waiting1, ready1 := AllTornDown(v, urlOk, key, base, todelete, front);
      TakenOff(todelete, ids);
      v', waiting, ready := TornDown(v1, urlOk, key, base, todelete - (set id <- front), waiting1, ready1, last);
      DeleteAlike(DeleteEach(v, front), v1, last);
      AlikeOn(DeleteEach(v, ids), DeleteProxy(v1, last), v');
      LeadsOn(v, urlOk, ChartOnly(key), v1, v');
    }
  }

  lemma TakenOff(all: set<ProxyId>, ids: seq<ProxyId>)
    requires ids != [] && Distinct(ids) && forall id <- ids :: id in all
    ensures var front, last := ids[..|ids| - 1], ids[|ids| - 1];
      && last in all - (set id <- front) && all - (set id <- front) - {last} == all - (set id <- ids)
      && (set id <- front) + {last} == (set id <- ids)
  {
    assert ids == ids[..|ids| - 1] + [ids[|ids| - 1]];
  }

  /** The end of the reconcile: the HelmChartProxy goes exactly if nothing is waited for. */
  lemma TeardownEnds(w: World, urlOk: string -> bool, key: ObjectKey, base: ChartProxy, waiting: set<ProxyId>,
                     ready: bool) returns (v: World)
    requires Stands(w, key, base, ChartPc.Teardown({}, waiting, ready)) && base.finalizer
    requires key in w.charts && w.charts[key].deleting && w.charts[key].finalizer
    ensures Leads(w, urlOk, ChartOnly(key), v) && Alike(w, v) && key !in v.chartJobs
    ensures if waiting == {} then key !in v.charts else KeepsChart(w, v, key)
  {
    hide Leads, StepFinishChart, StepDropFinalizer;
    var e := ChartEnvOk(key);
    var j := w.chartJobs[key];
    StepTaken(w, urlOk, key, e);
    if waiting == {} {
      var w1 := Goto(w, key, SetChartFinalizer(j, false), DropFinalizer);
      assert StepChart(w, urlOk, key, j, e) == w1;
      v := DropsOut(w1, urlOk, key);
      LeadsOn(w, urlOk, ChartOnly(key), w1, v);
    } else {
      var w1 := Goto(w, key, SetProxiesReady(j, if ready then IsTrue else IsFalse), FinishChart);
      assert StepChart(w, urlOk, key, j, e) == w1;
      hide StepChart;
      v := Waits(w1, urlOk, key);
      LeadsOn(w, urlOk, ChartOnly(key), w1, v);
    }
  }

  lemma Waits(w: World, urlOk: string -> bool, key: ObjectKey) returns (v: World)
    requires key in w.chartJobs && w.chartJobs[key].pc.FinishChart?
    requires w.chartJobs[key].base.finalizer && w.chartJobs[key].local.finalizer
    requires key in w.charts && w.charts[key].deleting && w.charts[key].finalizer
    ensures Leads(w, urlOk, ChartOnly(key), v) && Alike(w, v) && key !in v.chartJobs && KeepsChart(w, v, key)
  {
    hide Leads;
    var e := ChartEnvOk(key);
    StepTaken(w, urlOk, key, e);
    v := StepChart(w, urlOk, key, w.chartJobs[key], e);
    assert v == StepFinishChart(w, key, w.chartJobs[key], e);
  }

  lemma DropsOut(w: World, urlOk: string -> bool, key: ObjectKey) returns (v: World)
    requires key in w.chartJobs && w.chartJobs[key].pc.DropFinalizer?
    requires w.chartJobs[key].base.finalizer && !w.chartJobs[key].local.finalizer
    requires key in w.charts && w.charts[key].deleting
    ensures Leads(w, urlOk, ChartOnly(key), v) && Alike(w, v) && key !in v.chartJobs && key !in v.charts
  {
    hide Leads;
    var e := ChartEnvOk(key);
    StepTaken(w, urlOk, key, e);
    var w1 := StepChart(w, urlOk, key, w.chartJobs[key], e);
    assert w1 == StepDropFinalizer(w, key, w.chartJobs[key], e);
    StepTaken(w1, urlOk, key, e);
    v := StepChart(w1, urlOk, key, w1.chartJobs[key], e);
    assert v == StepFinishChart(w1, key, w1.chartJobs[key], e);
    LeadsOn(w, urlOk, ChartOnly(key), w1, v);
  }

  /** A whole chart reconcile of a HelmChartProxy being deleted. */
  lemma ChartPass(w: World, urlOk: string -> bool, key: ObjectKey) returns (v: World)
    requires Dying(w, urlOk, key)
    ensures Leads(w, urlOk, ChartOnly(key), v) && Alike(DeleteEach(w, SeqOf(LabelledIds(w.proxies, key))), v)
    ensures key !in v.chartJobs && (key in v.charts ==> KeepsChart(w, v, key))
    ensures LabelledIds(w.proxies, key) == {} ==> key !in v.charts
  {
    DyingHasFinalizer(w, urlOk, key);
    hide Inv, Leads, Selected, SelectorParses, LabelledIds, SeqOf, Stands, DeleteEach, Alike;
    var labelled := LabelledIds(w.proxies, key);
    var ids := SeqOf(labelled);
    var v1 := Started(w, urlOk, key);
    AlikeIds(w, v1, key);
    var v2 := TeardownListed(v1, urlOk, key, Selected(w.clusters, key, w.charts[key].spec.selector));
    var v3, waiting, ready := AllTornDown(v2, urlOk, key, w.charts[key], labelled, ids);
    assert labelled - (set id <- ids) == {};
    assert labelled == {} ==> ids == [];
    v := TeardownEnds(v3, urlOk, key, w.charts[key], waiting, ready);
    PassAlike(w, v1, v2, v3, v, ids);
    LeadsOn(w, urlOk, ChartOnly(key), v1, v2);
    LeadsOn(w, urlOk, ChartOnly(key), v2, v3);
    LeadsOn(w, urlOk, ChartOnly(key), v3, v);
  }

  lemma PassAlike(w: World, v1: World, v2: World, v3: World, v: World, ids: seq<ProxyId>)
    requires Alike(w, v1) && Alike(v1, v2) && Alike(DeleteEach(v2, ids), v3) && Alike(v3, v)
    ensures Alike(DeleteEach(w, ids), v)
  {
    hide Alike, DeleteEach;
    AlikeOn(w, v1, v2);
    C.DeleteEachAlike(w, v2, ids);
    AlikeOn(DeleteEach(w, ids), DeleteEach(v2, ids), v3);
    AlikeOn(DeleteEach(w, ids), v3, v);
  }

  lemma DyingHasFinalizer(w: World, urlOk: string -> bool, key: ObjectKey)
    requires Dying(w, urlOk, key)
    ensures w.charts[key].finalizer
  {
    hide ReleaseSide;
    assert ChartOk(urlOk, w.charts[key]);
  }

  lemma AlikeIds(w: World, v: World, key: ObjectKey)
    requires Alike(w, v)
    ensures LabelledIds(w.proxies, key) == LabelledIds(v.proxies, key)
  {
  }

  /* ---- the measure ---- */

  /** Proxies of other HelmChartProxies are left as they are. */
  ghost predicate OthersKept(w: World, v: World, key: ObjectKey) {
    && (forall id <- w.proxies :: !Labelled(w.proxies[id], key) ==> id in v.proxies && v.proxies[id] == w.proxies[id])
    && (forall id <- v.proxies :: id in w.proxies && SameRole(w.proxies[id], v.proxies[id]))
  }

  /** A chart reconcile leaves no proxy of the HelmChartProxy undeleted. */
  lemma PassDeletes(w: World, urlOk: string -> bool, key: ObjectKey, v: World)
    requires Dying(w, urlOk, key) && Alike(DeleteEach(w, SeqOf(LabelledIds(w.proxies, key))), v)
    ensures LiveIds(v.proxies, key) == {} && OthersKept(w, v, key)
  {
    var s := Setting(key, w.charts[key].spec, {}, [], _ => "");
    var ids := SeqOf(LabelledIds(w.proxies, key));
    SaneForTeardown(s, w, urlOk);
    hide Inv, Dying, Sane, DeleteEach, SeqOf, DeletesOnly, LiveIds, OthersKept, LabelledIds;
    DeleteEachDeletes(s, w, ids);
    DeletedAreDying(w, DeleteEach(w, ids), v, key, ids);
  }

  lemma SaneForTeardown(s: Setting, w: World, urlOk: string -> bool)
    requires Inv(w, urlOk) && s.key in w.charts && s.chart == w.charts[s.key].spec
    ensures Sane(s, w)
  {
    hide ReleaseSide;
    forall id <- w.proxies ensures ProxySane(s, w.clock, id, w.proxies[id]) {
      assert ProxyOk(w.charts, w.clock, id, w.proxies[id]);
    }
  }

  lemma DeletedAreDying(w: World, u: World, v: World, key: ObjectKey, ids: seq<ProxyId>)
    requires DeletesOnly(w, u, ids) && forall id :: id in ids <==> id in LabelledIds(w.proxies, key)
    requires v.proxies == u.proxies
    ensures LiveIds(v.proxies, key) == {} && OthersKept(w, v, key)
  {
    forall id <- v.proxies | Labelled(v.proxies[id], key) ensures v.proxies[id].deleting {
      assert Labelled(w.proxies[id], key) && id in LabelledIds(w.proxies, key);
    }
  }

  ghost predicate Lower(w: World, v: World, key: ObjectKey) {
    || |LiveIds(v.proxies, key)| < |LiveIds(w.proxies, key)|
    || (|LiveIds(v.proxies, key)| == |LiveIds(w.proxies, key)| &&
        (|DyingIds(v.proxies, key)| < |DyingIds(w.proxies, key)| ||
         (|DyingIds(v.proxies, key)| == |DyingIds(w.proxies, key)| && key in w.charts && key !in v.charts)))
  }

  /** The chart controller is at work: proxies left undeleted, or none left at all. */
  lemma ChartPassLowers(w: World, urlOk: string -> bool, key: ObjectKey) returns (v: World)
    requires Dying(w, urlOk, key) && (LiveIds(w.proxies, key) != {} || LabelledIds(w.proxies, key) == {})
    ensures Leads(w, urlOk, Both(key), v) && Lower(w, v, key) && OthersKept(w, v, key)
    ensures Inv(v, urlOk) && (key in v.charts ==> Dying(v, urlOk, key))
  {
    hide Leads, DeleteEach, SeqOf, StoreInv, ReleaseSide;
    v := ChartPass(w, urlOk, key);
    PassDeletes(w, urlOk, key, v);
    LeadsKeepsInv(w, urlOk, ChartOnly(key), v);
    LeadsTogether(w, urlOk, key, v);
    PassLowers(w, v, key);
  }

  lemma PassLowers(w: World, v: World, key: ObjectKey)
    requires LiveIds(v.proxies, key) == {} && OthersKept(w, v, key) && key in w.charts
    requires LiveIds(w.proxies, key) != {} || (LabelledIds(w.proxies, key) == {} && key !in v.charts)
    ensures Lower(w, v, key)
  {
    if LiveIds(w.proxies, key) == {} {
      forall id <- v.proxies ensures !Labelled(v.proxies[id], key) {
        assert id !in LabelledIds(w.proxies, key);
      }
      assert DyingIds(w.proxies, key) == {} == DyingIds(v.proxies, key);
    } else {
      assert |LiveIds(v.proxies, key)| == 0;
    }
  }

  lemma OneLess(w: World, v: World, key: ObjectKey, id: ProxyId)
    requires id in DyingIds(w.proxies, key) && v.proxies == w.proxies - {id}
    ensures Lower(w, v, key) && OthersKept(w, v, key)
  {
    assert DyingIds(v.proxies, key) == DyingIds(w.proxies, key) - {id};
    assert LiveIds(v.proxies, key) == LiveIds(w.proxies, key);
  }

  /** The release controller is at work: all proxies left are terminating. */
  lemma ReleasePassLowers(w: World, urlOk: string -> bool, key: ObjectKey, id: ProxyId) returns (v: World)
    requires Dying(w, urlOk, key) && id in DyingIds(w.proxies, key)
    ensures Leads(w, urlOk, Both(key), v) && Lower(w, v, key) && OthersKept(w, v, key) && Dying(v, urlOk, key)
  {
    hide Inv, Leads, D.Drained, Drain, Lower, OthersKept;
    v := C.OneDrained(w, urlOk, id);
    LeadsTogether(w, urlOk, key, v);
    C.DrainedOnce(w, urlOk, id, v);
    C.DrainedInv(w, urlOk, id, v);
    OneLess(w, v, key, id);
  }

  /** As long as the HelmChartProxy is there, one of the controllers can lower the measure. */
  lemma TeardownAdvances(w: World, urlOk: string -> bool, key: ObjectKey) returns (v: World)
    requires Dying(w, urlOk, key)
    ensures Leads(w, urlOk, Both(key), v) && Lower(w, v, key) && OthersKept(w, v, key)
    ensures Inv(v, urlOk) && (key in v.charts ==> Dying(v, urlOk, key))
  {
    hide Leads, Lower, OthersKept, Inv;
    if LiveIds(w.proxies, key) != {} || LabelledIds(w.proxies, key) == {} {
      v := ChartPassLowers(w, urlOk, key);
    } else {
      var id :| id in LabelledIds(w.proxies, key);
      assert id !in LiveIds(w.proxies, key);
      v := ReleasePassLowers(w, urlOk, key, id);
    }
  }

  lemma OthersKeptOn(w: World, v: World, u: World, key: ObjectKey)
    requires OthersKept(w, v, key) && OthersKept(v, u, key)
    ensures OthersKept(w, u, key)
  {
  }

  /** Teardown runs to its end: the HelmChartProxy and all its proxies go, no others do. */
  lemma {:induction false} TeardownCompletes(w: World, urlOk: string -> bool, key: ObjectKey) returns (v: World)
    requires Dying(w, urlOk, key)
    ensures Leads(w, urlOk, Both(key), v) && Inv(v, urlOk)
    ensures key !in v.charts && NoneLabelled(v.proxies, key) && OthersKept(w, v, key)
    decreases |LiveIds(w.proxies, key)|, |DyingIds(w.proxies, key)|, key in w.charts
  {
    v := TeardownAdvances(w, urlOk, key);
    if key in v.charts {
      hide Leads, Inv, OthersKept, NoneLabelled;
      var u := TeardownCompletes(v, urlOk, key);
      LeadsOn(w, urlOk, Both(key), v, u);
      OthersKeptOn(w, v, u, key);
      v := u;
    } else {
      hide Leads, ReleaseSide, OthersKept;
      NoOwnerNoProxies(v, urlOk, key);
    }
  }

  /* ---- a selector that does not parse ---- */

  /** A HelmChartProxy being deleted whose selector does not parse: its reconciles end before
      they look at a single proxy. */
  ghost predicate Stuck(w: World, key: ObjectKey) {
    && key in w.charts && w.charts[key].deleting && w.charts[key].finalizer
    && !SelectorParses(w.charts[key].spec.selector)
    && (key in w.chartJobs ==>
          var j := w.chartJobs[key];
          && j.local.finalizer == j.base.finalizer
          && (j.pc.FinishChart? || (j.pc.ListClusters? && !SelectorParses(j.base.spec.selector))))
  }

  /** Neither the HelmChartProxy `key` nor its reconcile is touched. */
  ghost predicate Spares(w: World, v: World, key: ObjectKey) {
    && (key in v.charts <==> key in w.charts) && (key in w.charts ==> v.charts[key] == w.charts[key])
    && (key in v.chartJobs <==> key in w.chartJobs)
    && (key in w.chartJobs ==> v.chartJobs[key] == w.chartJobs[key])
  }

  lemma GotoSpares(w: World, v: World, k: ObjectKey, j: ChartJob, pc: ChartPc, key: ObjectKey)
    requires k != key && Spares(w, v, key)
    ensures Spares(w, Goto(v, k, j, pc), key)
  {
  }

  lemma DeleteSpares(w: World, id: ProxyId, key: ObjectKey)
    ensures Spares(w, DeleteProxy(w, id), key)
  {
  }

  lemma WriteSpares(w: World, id: ProxyId, q: ReleaseProxy, key: ObjectKey)
    requires id in w.proxies
    ensures Spares(w, WriteProxy(w, id, q), key)
  {
  }

  lemma PatchSpares(w: World, k: ObjectKey, j: ChartJob, key: ObjectKey)
    requires k != key && k in w.charts
    ensures Spares(w, PatchChart(w, k, j), key)
  {
  }

  lemma ListingSpares(w: World, k: ObjectKey, j: ChartJob, e: ChartEnv, key: ObjectKey)
    requires k != key
    ensures Spares(w, StepListClusters(w, k, j, e), key)
    ensures j.pc.ListReleases? ==> Spares(w, StepListReleases(w, k, j, e), key)
    ensures j.pc.TeardownCheck? ==> Spares(w, StepTeardownCheck(w, k, j, e), key)
    ensures Spares(w, StepAggregate(w, k, j, e), key)
  {
    assert Spares(w, w, key);
    hide Spares, Goto, Selected, WorkPc, LabelledIds, Aggregate;
    forall j', pc ensures Spares(w, Goto(w, k, j', pc), key) {
      GotoSpares(w, w, k, j', pc, key);
    }
  }

  lemma DeletingSpares(w: World, k: ObjectKey, j: ChartJob, e: ChartEnv, key: ObjectKey)
    requires k != key
    ensures j.pc.DeleteOrphans? ==> Spares(w, StepDeleteOrphans(w, k, j, e), key)
    ensures j.pc.DeleteForReinstall? ==> Spares(w, StepDeleteForReinstall(w, k, j, e), key)
    ensures j.pc.Teardown? ==> Spares(w, StepTeardown(w, k, j, e), key)
  {
    assert Spares(w, w, key);
    hide Spares, Goto, DeleteProxy;
    forall j', pc ensures Spares(w, Goto(w, k, j', pc), key) {
      GotoSpares(w, w, k, j', pc, key);
    }
    forall id, j', pc ensures Spares(w, Goto(DeleteProxy(w, id), k, j', pc), key) {
      DeleteSpares(w, id, key);
      GotoSpares(w, DeleteProxy(w, id), k, j', pc, key);
    }
  }

  lemma WritingSpares(w: World, urlOk: string -> bool, k: ObjectKey, j: ChartJob, e: ChartEnv, key: ObjectKey)
    requires k != key
    ensures j.pc.CreateProxy? ==> Spares(w, StepCreateProxy(w, urlOk, k, j, e), key)
    ensures j.pc.UpdateProxy? ==> Spares(w, StepUpdateProxy(w, k, j, e), key)
  {
    hide Goto, WriteProxy, UpdateAccepted, Overwrite, ValidateReleaseCreate, DefaultRelease;
    assert Spares(w, w, key);
    GotoSpares(w, w, k, SetUpToDate(j, IsFalse), FinishChart, key);
    if j.pc.CreateProxy? {
      assert Spares(w, Created(w, k, j.pc.cluster, j.base.spec, j.pc.proxy), key);
      GotoSpares(w, Created(w, k, j.pc.cluster, j.base.spec, j.pc.proxy), k, j, NextCluster(j.pc.todo), key);
    } else if j.pc.UpdateProxy? && j.pc.id in w.proxies {
      var q := Overwrite(w.proxies[j.pc.id], j.pc.proxy);
      WriteSpares(w, j.pc.id, q, key);
      GotoSpares(w, WriteProxy(w, j.pc.id, q), k, j, NextCluster(j.pc.todo), key);
      assert UpdateAccepted(w, j.pc.id, j.pc.proxy) ==> j.pc.id in w.proxies;
    } else if j.pc.UpdateProxy? {
      NotAccepted(w, j.pc.id, j.pc.proxy);
    }
  }

  lemma NotAccepted(w: World, id: ProxyId, q: ReleaseProxy)
    requires id !in w.proxies
    ensures !UpdateAccepted(w, id, q)
  {
  }

  lemma PatchingSpares(w: World, k: ObjectKey, j: ChartJob, e: ChartEnv, key: ObjectKey)
    requires k != key
    ensures j.pc.AddFinalizer? ==> Spares(w, StepAddFinalizer(w, k, j, e), key)
    ensures Spares(w, StepDropFinalizer(w, k, j, e), key) && Spares(w, StepFinishChart(w, k, j, e), key)
  {
    hide PatchChart, WorkPc;
    var w1 := if e.apiOk && k in w.charts then PatchChart(w, k, j) else w;
    assert Spares(w, w1, key) by {
      if e.apiOk && k in w.charts {
        PatchSpares(w, k, j, key);
      }
    }
  }

  lemma LookingSpares(w: World, k: ObjectKey, j: ChartJob, e: ChartEnv, key: ObjectKey)
    requires k != key && j.pc.NextCluster?
    ensures Spares(w, StepNextCluster(w, k, j, e), key)
  {
    assert Spares(w, w, key);
    hide Spares, Goto, Decide, PairIds;
    forall j', pc ensures Spares(w, Goto(w, k, j', pc), key) {
      GotoSpares(w, w, k, j', pc, key);
    }
  }

  lemma ChartStepSpares(w: World, urlOk: string -> bool, k: ObjectKey, j: ChartJob, e: ChartEnv, key: ObjectKey)
    requires k != key
    ensures Spares(w, StepChart(w, urlOk, k, j, e), key)
  {
    hide Spares;
    match j.pc
    case ListClusters => ListingSpares(w, k, j, e, key);
    case ListReleases(_) => ListingSpares(w, k, j, e, key);
    case AddFinalizer(_, _) => PatchingSpares(w, k, j, e, key);
    case DeleteOrphans(_, _) => DeletingSpares(w, k, j, e, key);
    case NextCluster(_) => LookingSpares(w, k, j, e, key);
    case DeleteForReinstall(_, _) => DeletingSpares(w, k, j, e, key);
    case CreateProxy(_, _, _) => WritingSpares(w, urlOk, k, j, e, key);
    case UpdateProxy(_, _, _, _) => WritingSpares(w, urlOk, k, j, e, key);
    case AggregateReady => ListingSpares(w, k, j, e, key);
    case Teardown(_, _, _) => DeletingSpares(w, k, j, e, key);
    case TeardownCheck(_, _, _, _) => ListingSpares(w, k, j, e, key);
    case DropFinalizer => PatchingSpares(w, k, j, e, key);
    case FinishChart => PatchingSpares(w, k, j, e, key);
  }

  lemma StuckReconcile(w: World, urlOk: string -> bool, key: ObjectKey, e: ChartEnv)
    requires Stuck(w, key)
    ensures Stuck(Apply(w, urlOk, ChartReconcile(key, e)), key)
  {
    if key in w.chartJobs {
      var j := w.chartJobs[key];
      if j.pc.FinishChart? {
        assert StepChart(w, urlOk, key, j, e) == StepFinishChart(w, key, j, e);
      } else {
        assert StepChart(w, urlOk, key, j, e) == StepListClusters(w, key, j, e);
      }
    }
  }

  lemma StuckStep(w: World, urlOk: string -> bool, key: ObjectKey, a: Action)
    requires Stuck(w, key) && !(a.UpdateChart? && a.key == key)
    ensures Stuck(Apply(w, urlOk, a), key)
  {
    hide StepChart, StepRelease, WriteProxy, StartRelease, SelectorParses, ValidateChartCreate, ValidateChartUpdate,
      DefaultChart, KeysOn;
    match a
    case CreateChart(k, _, _) =>
    case UpdateChart(k, _, _) =>
    case DeleteChart(k) =>
    case DeleteProxyByHand(id) => DeleteKeepsCharts(w, id);
    case ClusterChanges(_, _) =>
    case ReleaseChanges(_, _) =>
    case ChartReconcile(k, e) =>
      if k == key {
        StuckReconcile(w, urlOk, key, e);
      } else if k in w.chartJobs {
        ChartStepSpares(w, urlOk, k, w.chartJobs[k], e, key);
      }
    case ReleaseReconcile(id, e) =>
      if id in w.releaseJobs {
        D.ReleaseStepFrames(w, id, w.releaseJobs[id], e);
      }
    case ChartCrash(_) =>
    case ReleaseCrash(_) =>
  }

  /** With a selector that does not parse, no run takes the HelmChartProxy away until its
      selector is edited. */
  lemma {:induction false} UnparsableSelectorBlocksTeardown(
    w: World, urlOk: string -> bool, key: ObjectKey, actions: seq<Action>)
    requires Stuck(w, key) && forall a <- actions :: !(a.UpdateChart? && a.key == key)
    ensures Stuck(Run(w, urlOk, actions), key)
    decreases |actions|
  {
    if actions != [] {
      hide Apply, Stuck;
      var butLast := actions[..|actions| - 1];
      UnparsableSelectorBlocksTeardown(w, urlOk, key, butLast);
      StuckStep(Run(w, urlOk, butLast), urlOk, key, actions[|actions| - 1]);
    }
  }

  /** How it gets there: the selector is edited after the finalizer was set, and then the
      HelmChartProxy is deleted. */
  lemma BadEditSticks(w: World, urlOk: string -> bool, key: ObjectKey, spec: ChartSpec, paused: bool)
    requires key in w.charts && w.charts[key].finalizer && key !in w.chartJobs
    requires !SelectorParses(spec.selector)
    requires ValidateChartUpdate(urlOk, key.namespace, w.charts[key].spec, DefaultChart(spec)) == []
    ensures Stuck(Apply(Apply(w, urlOk, UpdateChart(key, spec, paused)), urlOk, DeleteChart(key)), key)
  {
  }
}
