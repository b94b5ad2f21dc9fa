/** Every uninterrupted chart reconcile in which no call fails is a round's reconcile, in the
    order in which the API server listed things. */
module Schedules {
  import opened Types
  import opened Admission
  import opened Phases
  import opened Machine
  import opened StoreInvariant
  import opened Invariant
  import opened Rounds
  import opened ChartRun
  import R = Refinement
  import C = Convergence
  import P = ChartController
  import Q = ChartReady
  import Theorems

  /** No call fails, and the values render to what the setting says. */
  ghost predicate NothingFails(o: Oracle, s: Setting) {
    && o.listClusters && o.listReleases && o.addFinalizer && o.aggregate && o.dropFinalizer && o.finish
    && (forall id :: o.delete(id) && o.get(id) && o.update(id))
    && (forall c :: o.lookup(c) && o.create(c) && o.render(c) == Some(s.render(c)))
  }

  /* ---- the rounds, in a given order ---- */

  /** The clusters in the given order, one after the other. */
  ghost function InTurn(s: Setting, w: World, order: seq<ObjectKey>): World {
    if order == [] then w else ForCluster(s, InTurn(s, w, order[..|order| - 1]), order[|order| - 1])
  }

  /** A round's reconcile with the orphans and the clusters in a given order. */
  ghost function ReconcileIn(s: Setting, w: World, ids: seq<ProxyId>, order: seq<ObjectKey>): World {
    InTurn(s, DeleteEach(w, ids), order)
  }

  lemma SameForCluster(s: Setting, t: Setting, w: World, c: ObjectKey)
    requires t == s.(eligible := t.eligible)
    ensures ForCluster(s, w, c) == ForCluster(t, w, c)
  {
    hide Decide, WriteProxy, Created, DeleteProxy, UpdateAccepted;
  }

  lemma {:induction false} InTurnIs(s: Setting, w: World, order: seq<ObjectKey>, n: nat)
    requires n <= |order|
    ensures ForClusters(s.(eligible := order), w, n) == InTurn(s, w, order[..n])
  {
    hide ForCluster;
    if n > 0 {
      InTurnIs(s, w, order, n - 1);
      assert order[..n][..n - 1] == order[..n - 1];
      SameForCluster(s, s.(eligible := order), InTurn(s, w, order[..n - 1]), order[n - 1]);
    }
  }

  /** The same setting with its eligible clusters in another order. */
  ghost predicate Reorders(s: Setting, order: seq<ObjectKey>) {
    Distinct(order) && forall c :: c in order <==> c in s.eligible
  }

  /** The same stored HelmReleaseProxies. */
  ghost predicate StoreIs(w: World, v: World) {
    w.proxies == v.proxies && w.clock == v.clock
  }

  /* ---- following one reconcile ---- */

  /** What a reconcile that started in `w` found. */
  ghost function Found(s: Setting, w: World): map<ObjectKey, Cluster> {
    Selected(w.clusters, s.key, s.chart.selector)
  }

  ghost function Lost(s: Setting, w: World): set<ProxyId> {
    if s.chart.strategy == InstallOnce then {} else OrphanIds(Listed(w.proxies, s.key), Found(s, w))
  }

  ghost predicate Among(ids: seq<ProxyId>, all: set<ProxyId>) {
    Distinct(ids) && forall id <- ids :: id in all
  }

  /** Exactly the eligible clusters outside `todo` have had their turn, but for `pending`. */
  ghost predicate HadTurn(s: Setting, order: seq<ObjectKey>, todo: map<ObjectKey, Cluster>, pending: set<ObjectKey>) {
    && Distinct(order) && (forall c <- order :: c in s.eligible)
    && (forall c <- s.eligible :: c in order <==> c !in todo && c !in pending)
  }

  ghost predicate Within(s: Setting, w: World, todo: map<ObjectKey, Cluster>) {
    forall c <- todo :: c in Found(s, w) && todo[c] == Found(s, w)[c]
  }

  /** Where the reconcile stands, `ids` deleted and `order` served so far. */
  ghost predicate Follows(s: Setting, w: World, v: World, pc: ChartPc, ids: seq<ProxyId>, order: seq<ObjectKey>) {
    var all := (forall id :: id in ids <==> id in Lost(s, w)) && Distinct(ids);
    match pc
    case ListClusters => ids == [] && order == []
    case ListReleases(selected) => ids == [] && order == [] && selected == Found(s, w)
    case AddFinalizer(selected, listed) =>
      ids == [] && order == [] && selected == Found(s, w) && listed == Listed(w.proxies, s.key)
    case DeleteOrphans(selected, rest) =>
      && s.chart.strategy != InstallOnce
      && order == [] && selected == Found(s, w) && Among(ids, Lost(s, w))
      && rest == Lost(s, w) - (set id <- ids)
    case NextCluster(todo) => all && Within(s, w, todo) && HadTurn(s, order, todo, {})
    case DeleteForReinstall(todo, id) =>
      && all && Within(s, w, todo)
      && exists c :: Pending(s, v, order, todo, c) && PairIds(v.proxies, s.key, c) == {id} && id in v.proxies &&
           MustGo(s, v.proxies[id])
    case CreateProxy(todo, c, p) =>
      && all && Within(s, w, todo) && Pending(s, v, order, todo, c)
      && PairIds(v.proxies, s.key, c) == {} && p == NewProxy(s.key, s.chart, c, s.render(c))
    case UpdateProxy(todo, id, seen, p) =>
      && all && Within(s, w, todo)
      && exists c :: Pending(s, v, order, todo, c) && PairIds(v.proxies, s.key, c) == {id} && id in v.proxies &&
           MustChange(s, v.proxies[id], c) &&
           p == v.proxies[id].(spec := Refresh(v.proxies[id].spec, s.key.namespace, s.chart, s.render(c)))
    case AggregateReady =>
      all && Reorders(s, order) && s.key in v.chartJobs && v.chartJobs[s.key].local.status.upToDate == IsTrue
    case FinishChart =>
      && all && Reorders(s, order) && s.key in v.chartJobs
      && (Q.BothTrue(v.chartJobs[s.key].local.status) <==> Q.AllReady(v, s.key))
    case _ => false
  }

  ghost predicate Pending(s: Setting, v: World, order: seq<ObjectKey>, todo: map<ObjectKey, Cluster>, c: ObjectKey) {
    c in s.eligible && c !in todo && c !in order && HadTurn(s, order, todo, {c})
  }

  /** A reconcile in flight that started in `w`. */
  ghost predicate InStep(s: Setting, w: World, v: World, ids: seq<ProxyId>, order: seq<ObjectKey>) {
    && s.key in v.chartJobs && s.key in w.charts && v.chartJobs[s.key].base == w.charts[s.key]
    && v.clusters == w.clusters && R.KeepsChart(w, v, s.key)
    && StoreIs(ReconcileIn(s, w, ids, order), v)
    && Follows(s, w, v, v.chartJobs[s.key].pc, ids, order)
  }

  /** The HelmChartProxy is stored as Ready at its generation exactly if all its proxies are. */
  ghost predicate ReadyIsExact(v: World, key: ObjectKey) {
    && key in v.charts && v.charts[key].status.observedGeneration == v.charts[key].generation
    && (v.charts[key].status.ready == IsTrue <==> Q.AllReady(v, key))
  }

  /** The reconcile has ended, all orphans deleted and every eligible cluster served. */
  ghost predicate Ended(s: Setting, w: World, v: World, ids: seq<ProxyId>, order: seq<ObjectKey>) {
    && s.key !in v.chartJobs && v.clusters == w.clusters && R.KeepsChart(w, v, s.key)
    && StoreIs(ReconcileIn(s, w, ids, order), v)
    && Distinct(ids) && (forall id :: id in ids <==> id in Lost(s, w)) && Reorders(s, order)
    && ReadyIsExact(v, s.key)
  }

  lemma Stands(s: Setting, w: World, v: World, ids: seq<ProxyId>, order: seq<ObjectKey>)
    requires InStep(s, w, v, ids, order)
    ensures var j := v.chartJobs[s.key]; P.Standing(v, s.key, w.charts[s.key], j.local, j.pc)
  {
    hide Follows, ReconcileIn;
  }

  /** The reconcile has moved on to `pc` without touching the stores. */
  lemma MovedOn(s: Setting, w: World, v: World, v': World, local: ChartProxy, pc: ChartPc, ids: seq<ProxyId>,
                order: seq<ObjectKey>)
    requires InStep(s, w, v, ids, order) && SameStores(v, v')
    requires P.Standing(v', s.key, w.charts[s.key], local, pc) && Follows(s, w, v', pc, ids, order)
    ensures InStep(s, w, v', ids, order)
  {
    hide Follows, ReconcileIn;
  }

  lemma DeletesStore(w: World, v: World, id: ProxyId)
    requires StoreIs(w, v)
    ensures StoreIs(DeleteProxy(w, id), DeleteProxy(v, id))
  {
  }

  lemma ListClustersStep(s: Setting, urlOk: string -> bool, w: World, o: Oracle, v: World, e: ChartEnv)
    requires C.AtRest(s, urlOk, w) && e.apiOk && InStep(s, w, v, [], []) && v.chartJobs[s.key].pc.ListClusters?
    ensures InStep(s, w, StepChart(v, urlOk, s.key, v.chartJobs[s.key], e), [], [])
  {
    var j := v.chartJobs[s.key];
    var selected := Found(s, w);
    var j1 := j.(local := j.local.(status := j.local.status.(matching := selected.Keys)));
    assert Selected(v.clusters, s.key, j.base.spec.selector) == selected;
    hide ReconcileIn, Inv, Selected, R.Describes, SelectorParses;
    assert StepChart(v, urlOk, s.key, j, e) == Goto(v, s.key, j1, ListReleases(selected));
    hide StepChart;
    P.GotoStands(v, s.key, j1, ListReleases(selected), j1.local);
    MovedOn(s, w, v, Goto(v, s.key, j1, ListReleases(selected)), j1.local, ListReleases(selected), [], []);
  }

  lemma ListReleasesStep(s: Setting, urlOk: string -> bool, w: World, o: Oracle, v: World, e: ChartEnv)
    requires C.AtRest(s, urlOk, w) && e.apiOk && InStep(s, w, v, [], []) && v.chartJobs[s.key].pc.ListReleases?
    ensures InStep(s, w, StepChart(v, urlOk, s.key, v.chartJobs[s.key], e), [], [])
  {
    var j := v.chartJobs[s.key];
    var selected, listed := Found(s, w), Listed(w.proxies, s.key);
    assert v.proxies == w.proxies;
    WorkFollows(s, w, j.base);
    hide ReconcileIn, Inv, Found, R.Describes, Listed, WorkPc;
    if j.base.finalizer {
      var pc := WorkPc(j.base, selected, listed);
      assert StepChart(v, urlOk, s.key, j, e) == Goto(v, s.key, j, pc);
      P.GotoStands(v, s.key, j, pc, j.local);
      hide StepChart;
      MovedOn(s, w, v, Goto(v, s.key, j, pc), j.local, pc, [], []);
    } else {
      var j1, pc := SetChartFinalizer(j, true), AddFinalizer(selected, listed);
      assert StepChart(v, urlOk, s.key, j, e) == Goto(v, s.key, j1, pc);
      P.GotoStands(v, s.key, j1, pc, j1.local);
      hide StepChart;
      MovedOn(s, w, v, Goto(v, s.key, j1, pc), j1.local, pc, [], []);
    }
  }

  lemma AddFinalizerStep(s: Setting, urlOk: string -> bool, w: World, o: Oracle, v: World, e: ChartEnv)
    requires C.AtRest(s, urlOk, w) && e.apiOk && InStep(s, w, v, [], []) && v.chartJobs[s.key].pc.AddFinalizer?
    ensures InStep(s, w, StepChart(v, urlOk, s.key, v.chartJobs[s.key], e), [], [])
  {
    var j := v.chartJobs[s.key];
    WorkFollows(s, w, j.base);
    assert j.base.spec == s.chart;
    assert j.pc.selected == Found(s, w) && j.pc.listed == Listed(w.proxies, s.key);
    PatchLeavesRest(v, s.key, j);
    hide ReconcileIn, Inv, Found, R.Describes, Listed, OrphanIds, Follows, WorkPc, PatchChart;
    var v1 := PatchChart(v, s.key, j);
    var pc := WorkPc(j.base, j.pc.selected, j.pc.listed);
    assert StepChart(v, urlOk, s.key, j, e) == Goto(v1, s.key, j, pc);
    hide StepChart;
    assert Follows(s, w, Goto(v1, s.key, j, pc), pc, [], []);
  }

  lemma PatchLeavesRest(v: World, key: ObjectKey, j: ChartJob)
    requires key in v.charts && !v.charts[key].deleting
    ensures var v1 := PatchChart(v, key, j); v1 == v.(charts := v1.charts) && R.KeepsChart(v, v1, key)
  {
  }

  /** The work begins with nothing deleted and no cluster served. */
  lemma WorkFollows(s: Setting, w: World, base: ChartProxy)
    requires base.spec == s.chart && R.Describes(s, Found(s, w)) && Distinct(s.eligible)
    ensures forall v :: Follows(s, w, v, WorkPc(base, Found(s, w), Listed(w.proxies, s.key)), [], [])
  {
    NoneDeletedYet(s, w);
    assert forall c <- s.eligible :: R.Eligible(Found(s, w), c);
    hide Found, Listed, OrphanIds;
  }

  lemma NoneDeletedYet(s: Setting, w: World)
    ensures Among([], Lost(s, w)) && Lost(s, w) - (set id <- []) == Lost(s, w)
  {
    var none: seq<ProxyId> := [];
    assert Lost(s, w) - (set id <- none) == Lost(s, w);
  }

  /** One orphan, or none left. */
  lemma OrphanStep(s: Setting, urlOk: string -> bool, w: World, o: Oracle, v: World, e: ChartEnv, ids: seq<ProxyId>)
    returns (ids': seq<ProxyId>)
    requires NothingFails(o, s) && InStep(s, w, v, ids, []) && v.chartJobs[s.key].pc.DeleteOrphans?
    requires R.Describes(s, Found(s, w))
    requires Allows(o, v.chartJobs[s.key].pc, e)
    ensures InStep(s, w, StepChart(v, urlOk, s.key, v.chartJobs[s.key], e), ids', [])
  {
    var j := v.chartJobs[s.key];
    var base := w.charts[s.key];
    var v' := StepChart(v, urlOk, s.key, j, e);
    Stands(s, w, v, ids, []);
    ids' := ids;
    hide StepChart, DeleteProxy;
    if j.pc.orphans == {} {
      P.OrphansDone(v, urlOk, s.key, base, j.local, j.pc.selected, e);
      AllLost(ids, Lost(s, w), j.pc.orphans);
      assert forall c <- s.eligible :: R.Eligible(Found(s, w), c);
      assert Follows(s, w, v', NextCluster(j.pc.selected), ids, []);
      MovedOn(s, w, v, v', j.local, NextCluster(j.pc.selected), ids, []);
    } else if e.id in j.pc.orphans {
      P.OrphanStep(v, urlOk, s.key, base, j.local, j.pc.selected, j.pc.orphans, e);
      ids' := ids + [e.id];
      OneMoreOrphan(s, w, v, v', j.local, ids, e.id, j.pc.selected, j.pc.orphans);
    } else {
      Idles(v, urlOk, s.key, e);
    }
  }

  lemma OneMoreOrphan(s: Setting, w: World, v: World, v': World, local: ChartProxy, ids: seq<ProxyId>, id: ProxyId,
                      selected: map<ObjectKey, Cluster>, orphans: set<ProxyId>)
    requires InStep(s, w, v, ids, []) && v.chartJobs[s.key].pc == DeleteOrphans(selected, orphans) && id in orphans
    requires SameStores(DeleteProxy(v, id), v')
    requires P.Standing(v', s.key, w.charts[s.key], local, DeleteOrphans(selected, orphans - {id}))
    ensures InStep(s, w, v', ids + [id], [])
  {
    assert (ids + [id])[..|ids|] == ids;
    assert DeleteEach(w, ids + [id]) == DeleteProxy(DeleteEach(w, ids), id);
    DeletesStore(DeleteEach(w, ids), v, id);
    OneMoreAmong(ids, id, Lost(s, w));
    DeleteLeavesRest(v, id);
    hide DeleteProxy, Lost, Found, DeleteEach;
  }

  lemma AllLost(ids: seq<ProxyId>, all: set<ProxyId>, rest: set<ProxyId>)
    requires Among(ids, all) && rest == all - (set i <- ids) && rest == {}
    ensures forall id :: id in ids <==> id in all
  {
    forall id | id in all ensures id in ids {
      assert id !in rest;
    }
  }

  lemma DeleteLeavesRest(v: World, id: ProxyId)
    ensures DeleteProxy(v, id).charts == v.charts && DeleteProxy(v, id).clusters == v.clusters
  {
  }

  lemma OneMoreAmong(ids: seq<ProxyId>, id: ProxyId, all: set<ProxyId>)
    requires Among(ids, all) && id in all && id !in ids
    ensures Among(ids + [id], all) && all - (set i <- ids + [id]) == all - (set i <- ids) - {id}
  {
  }

  /** The environment names nothing that is on the list: nothing happens. */
  lemma Idles(v: World, urlOk: string -> bool, key: ObjectKey, e: ChartEnv)
    requires key in v.chartJobs
    requires var pc := v.chartJobs[key].pc;
      (pc.DeleteOrphans? && pc.orphans != {} && e.id !in pc.orphans) ||
      (pc.NextCluster? && pc.todo.Keys != {} && e.cluster !in pc.todo)
    ensures StepChart(v, urlOk, key, v.chartJobs[key], e) == v
  {
  }

  /* ---- one cluster ---- */

  lemma Creates(s: Setting, w: World, v: World, c: ObjectKey)
    requires StoreIs(w, v) && PairIds(v.proxies, s.key, c) == {}
    ensures StoreIs(ForCluster(s, w, c), Created(v, s.key, c, s.chart, NewProxy(s.key, s.chart, c, s.render(c))))
  {
  }

  lemma Existing(s: Setting, w: World, v: World, c: ObjectKey, id: ProxyId)
    requires Sane(s, w) && StoreIs(w, v) && PairIds(v.proxies, s.key, c) == {id}
    ensures id in w.proxies && PairOf(w.proxies[id], s.key, c) && ForCluster(s, w, c) == ForExisting(s, w, c, id)
  {
    hide ForExisting;
    assert id in PairIds(v.proxies, s.key, c);
    var i := R.TheOne(s, w, c);
    assert i in PairIds(w.proxies, s.key, c);
  }

  lemma Reinstalls(s: Setting, w: World, v: World, c: ObjectKey, id: ProxyId)
    requires Sane(s, w) && StoreIs(w, v) && PairIds(v.proxies, s.key, c) == {id}
    requires id in v.proxies && MustGo(s, v.proxies[id])
    ensures StoreIs(ForCluster(s, w, c), DeleteProxy(v, id))
  {
    Existing(s, w, v, c, id);
    DeletesStore(w, v, id);
    hide DeleteProxy, Sane, ForCluster;
  }

  lemma Leaves(s: Setting, w: World, v: World, c: ObjectKey, id: ProxyId)
    requires Sane(s, w) && StoreIs(w, v) && PairIds(v.proxies, s.key, c) == {id}
    requires id in v.proxies && !MustGo(s, v.proxies[id]) && !MustChange(s, v.proxies[id], c)
    ensures ForCluster(s, w, c) == w
  {
    Existing(s, w, v, c, id);
    hide Sane, ForCluster;
  }

  lemma Updates(s: Setting, w: World, v: World, c: ObjectKey, id: ProxyId)
    requires SettingOk(s) && Sane(s, w) && StoreIs(w, v) && PairIds(v.proxies, s.key, c) == {id}
    requires id in v.proxies && MustChange(s, v.proxies[id], c)
    ensures var q := v.proxies[id].(spec := Refresh(v.proxies[id].spec, s.key.namespace, s.chart, s.render(c)));
      UpdateAccepted(v, id, q) && StoreIs(ForCluster(s, w, c), Rewritten(v, id, q))
  {
    var p := v.proxies[id];
    var q := p.(spec := Refresh(p.spec, s.key.namespace, s.chart, s.render(c)));
    Existing(s, w, v, c, id);
    UpdateForCluster(s, w, c, id);
    R.UpdatePasses(s, w, c, id);
    assert UpdateAccepted(v, id, q) == UpdateAccepted(w, id, q);
    hide Sane, SettingOk, ForCluster, ForExisting, MustChange, Refresh, Stamp, UpdateAccepted,
      Overwrite;
  }

  lemma OneMoreTurn(s: Setting, w: World, ids: seq<ProxyId>, order: seq<ObjectKey>, c: ObjectKey)
    ensures ReconcileIn(s, w, ids, order + [c]) == ForCluster(s, ReconcileIn(s, w, ids, order), c)
  {
    assert (order + [c])[..|order|] == order;
  }

  lemma TurnIsHad(s: Setting, v: World, order: seq<ObjectKey>, todo: map<ObjectKey, Cluster>, c: ObjectKey)
    requires Pending(s, v, order, todo, c)
    ensures HadTurn(s, order + [c], todo, {})
  {
  }

  lemma TurnBegins(s: Setting, v: World, order: seq<ObjectKey>, todo: map<ObjectKey, Cluster>, c: ObjectKey)
    requires HadTurn(s, order, todo, {}) && c in todo && c in s.eligible
    ensures Pending(s, v, order, todo - {c}, c)
  {
  }

  /** The store that the rounds have after `order`, which is sane. */
  ghost predicate Ready(s: Setting, urlOk: string -> bool, w: World, ids: seq<ProxyId>, order: seq<ObjectKey>) {
    C.AtRest(s, urlOk, w) && SettingOk(s) && Sane(s, ReconcileIn(s, w, ids, order))
  }

  lemma LoopEnds(s: Setting, urlOk: string -> bool, w: World, v: World, e: ChartEnv, ids: seq<ProxyId>,
                 order: seq<ObjectKey>)
    requires InStep(s, w, v, ids, order) && v.chartJobs[s.key].pc == NextCluster(map[])
    ensures InStep(s, w, StepChart(v, urlOk, s.key, v.chartJobs[s.key], e), ids, order)
  {
    var j := v.chartJobs[s.key];
    Stands(s, w, v, ids, order);
    P.LoopEndStep(v, urlOk, s.key, w.charts[s.key], j.local, e);
    hide StepChart, ReconcileIn;
    var v' := StepChart(v, urlOk, s.key, j, e);
    assert Follows(s, w, v', AggregateReady, ids, order);
    MovedOn(s, w, v, v', P.WithUpToDate(j.local, IsTrue), AggregateReady, ids, order);
  }

  lemma Skips(s: Setting, urlOk: string -> bool, w: World, v: World, e: ChartEnv, ids: seq<ProxyId>,
              order: seq<ObjectKey>)
    requires R.Describes(s, Found(s, w)) && s.key in w.charts && !w.charts[s.key].paused
    requires InStep(s, w, v, ids, order) && v.chartJobs[s.key].pc.NextCluster?
    requires e.cluster in v.chartJobs[s.key].pc.todo
    requires e.cluster !in s.eligible
    ensures InStep(s, w, StepChart(v, urlOk, s.key, v.chartJobs[s.key], e), ids, order)
  {
    var j := v.chartJobs[s.key];
    var todo := j.pc.todo;
    Stands(s, w, v, ids, order);
    P.SkipStep(v, urlOk, s.key, w.charts[s.key], j.local, todo, e);
    assert !R.Eligible(Found(s, w), e.cluster);
    hide StepChart, ReconcileIn, PairIds;
    var v' := StepChart(v, urlOk, s.key, j, e);
    assert Follows(s, w, v', NextCluster(todo - {e.cluster}), ids, order);
    MovedOn(s, w, v, v', j.local, NextCluster(todo - {e.cluster}), ids, order);
  }

  /** The lookup of a pair finds other objects than the environment names: nothing happens. */
  lemma LooksElsewhere(v: World, urlOk: string -> bool, key: ObjectKey, base: ChartProxy, local: ChartProxy,
                       todo: map<ObjectKey, Cluster>, e: ChartEnv)
    requires P.Standing(v, key, base, local, NextCluster(todo)) && e.cluster in todo && e.apiOk
    requires !todo[e.cluster].deleting && !todo[e.cluster].paused && !base.paused
    requires PairIds(v.proxies, key, e.cluster) != {} && e.id !in PairIds(v.proxies, key, e.cluster)
    ensures StepChart(v, urlOk, key, v.chartJobs[key], e) == v
  {
    assert todo.Keys != {};
    hide PairIds;
  }

  /** What a reconcile at the head of its loop knows about a cluster whose turn begins. */
  ghost predicate TurnOf(s: Setting, w: World, v: World, ids: seq<ProxyId>, order: seq<ObjectKey>, c: ObjectKey,
                         left: map<ObjectKey, Cluster>)
  {
    && InStep(s, w, v, ids, order) && Pending(s, v, order, left, c) && Within(s, w, left)
    && Distinct(ids) && forall id :: id in ids <==> id in Lost(s, w)
  }

  lemma ToCreate(s: Setting, w: World, v: World, v': World, local: ChartProxy, ids: seq<ProxyId>,
                 order: seq<ObjectKey>, c: ObjectKey, left: map<ObjectKey, Cluster>)
    requires TurnOf(s, w, v, ids, order, c, left) && PairIds(v.proxies, s.key, c) == {} && SameStores(v, v')
    requires P.Standing(v', s.key, w.charts[s.key], local,
                        CreateProxy(left, c, NewProxy(s.key, s.chart, c, s.render(c))))
    ensures InStep(s, w, v', ids, order)
  {
    var pc := CreateProxy(left, c, NewProxy(s.key, s.chart, c, s.render(c)));
    hide ReconcileIn, NewProxy, Lost, Found, HadTurn, Within;
    assert Follows(s, w, v', pc, ids, order);
    MovedOn(s, w, v, v', local, pc, ids, order);
  }

  lemma ToReinstall(s: Setting, w: World, v: World, v': World, local: ChartProxy, ids: seq<ProxyId>,
                    order: seq<ObjectKey>, c: ObjectKey, left: map<ObjectKey, Cluster>, id: ProxyId)
    requires TurnOf(s, w, v, ids, order, c, left) && PairIds(v.proxies, s.key, c) == {id} && SameStores(v, v')
    requires id in v.proxies && MustGo(s, v.proxies[id])
    requires P.Standing(v', s.key, w.charts[s.key], local, DeleteForReinstall(left, id))
    ensures InStep(s, w, v', ids, order)
  {
    hide ReconcileIn, Lost, Found, HadTurn, Within, PairIds, MustGo;
    assert Pending(s, v', order, left, c);
    assert Follows(s, w, v', DeleteForReinstall(left, id), ids, order);
    MovedOn(s, w, v, v', local, DeleteForReinstall(left, id), ids, order);
  }

  lemma ToUpdate(s: Setting, w: World, v: World, v': World, local: ChartProxy, ids: seq<ProxyId>,
                 order: seq<ObjectKey>, c: ObjectKey, left: map<ObjectKey, Cluster>, id: ProxyId)
    requires TurnOf(s, w, v, ids, order, c, left) && PairIds(v.proxies, s.key, c) == {id} && SameStores(v, v')
    requires id in v.proxies && MustChange(s, v.proxies[id], c)
    requires P.Standing(v', s.key, w.charts[s.key], local, UpdateProxy(left, id, v.proxies[id],
               v.proxies[id].(spec := Refresh(v.proxies[id].spec, s.key.namespace, s.chart, s.render(c)))))
    ensures InStep(s, w, v', ids, order)
  {
    var p := v.proxies[id];
    var pc := UpdateProxy(left, id, p, p.(spec := Refresh(p.spec, s.key.namespace, s.chart, s.render(c))));
    hide ReconcileIn, Lost, Found, HadTurn, Within, PairIds, MustChange, Refresh;
    assert Pending(s, v', order, left, c);
    assert Follows(s, w, v', pc, ids, order);
    MovedOn(s, w, v, v', local, pc, ids, order);
  }

  lemma ToLeave(s: Setting, urlOk: string -> bool, w: World, v: World, v': World, local: ChartProxy,
                ids: seq<ProxyId>, order: seq<ObjectKey>, c: ObjectKey, left: map<ObjectKey, Cluster>, id: ProxyId)
    requires Ready(s, urlOk, w, ids, order)
    requires TurnOf(s, w, v, ids, order, c, left) && PairIds(v.proxies, s.key, c) == {id} && SameStores(v, v')
    requires id in v.proxies && !MustGo(s, v.proxies[id]) && !MustChange(s, v.proxies[id], c)
    requires P.Standing(v', s.key, w.charts[s.key], local, NextCluster(left))
    ensures InStep(s, w, v', ids, order + [c])
  {
    assert StoreIs(ReconcileIn(s, w, ids, order), v);
    hide C.AtRest;
    Leaves(s, ReconcileIn(s, w, ids, order), v, c, id);
    OneMoreTurn(s, w, ids, order, c);
    TurnIsHad(s, v, order, left, c);
    hide ReconcileIn, Lost, Found, HadTurn, Within, PairIds, MustGo, MustChange, Ready, Pending;
    assert Follows(s, w, v', NextCluster(left), ids, order + [c]);
    LeftAlone(s, w, v, v', local, NextCluster(left), ids, order, order + [c]);
  }

  lemma NextTurn(s: Setting, w: World, v: World, ids: seq<ProxyId>, order: seq<ObjectKey>, c: ObjectKey)
    requires InStep(s, w, v, ids, order) && v.chartJobs[s.key].pc.NextCluster?
    requires c in v.chartJobs[s.key].pc.todo && c in s.eligible
    ensures TurnOf(s, w, v, ids, order, c, v.chartJobs[s.key].pc.todo - {c})
  {
    var todo := v.chartJobs[s.key].pc.todo;
    hide ReconcileIn;
    TurnBegins(s, v, order, todo, c);
    hide Pending, HadTurn;
  }

  /** The decision on an eligible cluster, its pair being looked up. */
  lemma Decides(s: Setting, urlOk: string -> bool, w: World, o: Oracle, v: World, e: ChartEnv, ids: seq<ProxyId>,
                order: seq<ObjectKey>, found: Option<ProxyId>) returns (order': seq<ObjectKey>)
    requires Ready(s, urlOk, w, ids, order) && NothingFails(o, s) && InStep(s, w, v, ids, order)
    requires v.chartJobs[s.key].pc.NextCluster? && Allows(o, v.chartJobs[s.key].pc, e)
    requires e.cluster in v.chartJobs[s.key].pc.todo && e.cluster in s.eligible
    requires PairIds(v.proxies, s.key, e.cluster) == if found.None? then {} else {found.value}
    requires found.Some? ==> e.id == found.value && e.id in v.proxies
    ensures InStep(s, w, StepChart(v, urlOk, s.key, v.chartJobs[s.key], e), ids, order')
  {
    var j := v.chartJobs[s.key];
    var base := w.charts[s.key];
    var c, todo := e.cluster, j.pc.todo;
    var left := todo - {c};
    hide Ready, P.Standing, PairIds, StepChart;
    DecisionTaken(s, urlOk, w, o, v, e, ids, order, found);
    NextTurn(s, w, v, ids, order, c);
    var v' := StepChart(v, urlOk, s.key, j, e);
    hide InStep, TurnOf;
    order' := order;
    if found.None? {
      ToCreate(s, w, v, v', j.local, ids, order, c, left);
    } else if MustGo(s, v.proxies[found.value]) {
      ToReinstall(s, w, v, v', j.local, ids, order, c, left, found.value);
    } else if MustChange(s, v.proxies[found.value], c) {
      ToUpdate(s, w, v, v', j.local, ids, order, c, left, found.value);
    } else {
      order' := order + [c];
      ToLeave(s, urlOk, w, v, v', j.local, ids, order, c, left, found.value);
    }
  }

  lemma FacesCluster(s: Setting, urlOk: string -> bool, w: World, o: Oracle, v: World, e: ChartEnv,
                     ids: seq<ProxyId>, order: seq<ObjectKey>)
    requires Ready(s, urlOk, w, ids, order) && NothingFails(o, s) && InStep(s, w, v, ids, order)
    requires v.chartJobs[s.key].pc.NextCluster? && Allows(o, v.chartJobs[s.key].pc, e)
    requires e.cluster in v.chartJobs[s.key].pc.todo && e.cluster in s.eligible
    ensures e.apiOk && e.rendered == Some(s.render(e.cluster))
    ensures w.charts[s.key].spec == s.chart && !w.charts[s.key].paused
    ensures P.Standing(v, s.key, w.charts[s.key], v.chartJobs[s.key].local, v.chartJobs[s.key].pc)
    ensures var todo := v.chartJobs[s.key].pc.todo; !todo[e.cluster].deleting && !todo[e.cluster].paused
  {
    assert R.Eligible(Found(s, w), e.cluster);
    Stands(s, w, v, ids, order);
    hide ReconcileIn;
  }

  /** The decision, for a cluster whose template renders. */
  lemma DecideIs(s: Setting, c: ObjectKey, existing: Option<ReleaseProxy>)
    ensures Decide(s.key, s.chart, c, existing, Some(s.render(c))) ==
      if existing.None? then Create(NewProxy(s.key, s.chart, c, s.render(c)))
      else
        var p := existing.value;
        if MustGo(s, p) then Reinstall
        else if MustChange(s, p, c)
        then Update(p.(spec := Refresh(p.spec, s.key.namespace, s.chart, s.render(c))))
        else Leave
  {
    hide ShouldReinstall, SpecChanged, Refresh, NewProxy;
  }

  lemma DecisionTaken(s: Setting, urlOk: string -> bool, w: World, o: Oracle, v: World, e: ChartEnv,
                      ids: seq<ProxyId>, order: seq<ObjectKey>, found: Option<ProxyId>)
    requires Ready(s, urlOk, w, ids, order) && NothingFails(o, s) && InStep(s, w, v, ids, order)
    requires v.chartJobs[s.key].pc.NextCluster? && Allows(o, v.chartJobs[s.key].pc, e)
    requires e.cluster in v.chartJobs[s.key].pc.todo && e.cluster in s.eligible
    requires PairIds(v.proxies, s.key, e.cluster) == if found.None? then {} else {found.value}
    requires found.Some? ==> e.id == found.value && e.id in v.proxies
    ensures var j := v.chartJobs[s.key];
      var v' := StepChart(v, urlOk, s.key, j, e);
      var base, c := w.charts[s.key], e.cluster;
      var left := j.pc.todo - {c};
      && SameStores(v, v')
      && (if found.None? then P.Standing(v', s.key, base, j.local,
                                         CreateProxy(left, c, NewProxy(s.key, s.chart, c, s.render(c))))
          else
            var p := v.proxies[found.value];
            if MustGo(s, p)
            then P.Standing(v', s.key, base, j.local, DeleteForReinstall(left, found.value))
            else if MustChange(s, p, c) then P.Standing(v', s.key, base, j.local, UpdateProxy(left, found.value, p,
                                   p.(spec := Refresh(p.spec, s.key.namespace, s.chart, s.render(c)))))
            else P.Standing(v', s.key, base, j.local, NextCluster(left)))
  {
    var j := v.chartJobs[s.key];
    var base := w.charts[s.key];
    var c, todo := e.cluster, j.pc.todo;
    FacesCluster(s, urlOk, w, o, v, e, ids, order);
    DecideIs(s, c, if found.Some? then Some(v.proxies[found.value]) else None);
    hide Ready, InStep, StepChart, Act, PairIds, P.Standing, MustGo, MustChange, Refresh, NewProxy,
      NothingFails, Allows, SameStores, Decide;
    P.LookupStep(v, urlOk, s.key, base, j.local, todo, e, found);
    P.ActStands(v, s.key, base, j.local, NextCluster(todo), todo - {c}, e, found);
    if found.None? {
    } else if MustGo(s, v.proxies[found.value]) {
    } else if MustChange(s, v.proxies[found.value], c) {
    } else {
    }
  }

  /** As MovedOn, when the turn that was had has changed nothing. */
  lemma LeftAlone(s: Setting, w: World, v: World, v': World, local: ChartProxy, pc: ChartPc, ids: seq<ProxyId>,
                  order: seq<ObjectKey>, order': seq<ObjectKey>)
    requires InStep(s, w, v, ids, order) && SameStores(v, v')
    requires P.Standing(v', s.key, w.charts[s.key], local, pc) && Follows(s, w, v', pc, ids, order')
    requires ReconcileIn(s, w, ids, order') == ReconcileIn(s, w, ids, order)
    ensures InStep(s, w, v', ids, order')
  {
    hide Follows, ReconcileIn;
  }

  /** The head of the loop. */
  lemma HeadStep(s: Setting, urlOk: string -> bool, w: World, o: Oracle, v: World, e: ChartEnv, ids: seq<ProxyId>,
                 order: seq<ObjectKey>) returns (order': seq<ObjectKey>)
    requires Ready(s, urlOk, w, ids, order) && NothingFails(o, s) && InStep(s, w, v, ids, order)
    requires v.chartJobs[s.key].pc.NextCluster? && Allows(o, v.chartJobs[s.key].pc, e)
    ensures InStep(s, w, StepChart(v, urlOk, s.key, v.chartJobs[s.key], e), ids, order')
  {
    var todo := v.chartJobs[s.key].pc.todo;
    order' := order;
    if todo.Keys == {} {
      assert todo == map[];
      LoopEnds(s, urlOk, w, v, e, ids, order);
    } else if e.cluster !in todo {
      Idles(v, urlOk, s.key, e);
    } else if e.cluster !in s.eligible {
      Skips(s, urlOk, w, v, e, ids, order);
    } else {
      order' := LooksUp(s, urlOk, w, o, v, e, ids, order);
    }
  }

  lemma LooksUp(s: Setting, urlOk: string -> bool, w: World, o: Oracle, v: World, e: ChartEnv, ids: seq<ProxyId>,
                order: seq<ObjectKey>) returns (order': seq<ObjectKey>)
    requires Ready(s, urlOk, w, ids, order) && NothingFails(o, s) && InStep(s, w, v, ids, order)
    requires v.chartJobs[s.key].pc.NextCluster? && Allows(o, v.chartJobs[s.key].pc, e)
    requires e.cluster in v.chartJobs[s.key].pc.todo && e.cluster in s.eligible
    ensures InStep(s, w, StepChart(v, urlOk, s.key, v.chartJobs[s.key], e), ids, order')
  {
    hide StepChart, Ready, NothingFails, Follows, ReconcileIn;
    var found := PairIds(v.proxies, s.key, e.cluster);
    order' := order;
    if found == {} {
      order' := Decides(s, urlOk, w, o, v, e, ids, order, None);
    } else {
      FoundOnce(s, urlOk, w, v, ids, order, e.cluster);
      if e.id in found {
        order' := Decides(s, urlOk, w, o, v, e, ids, order, Some(e.id));
      } else {
        FindsAnother(s, urlOk, w, o, v, e, ids, order);
      }
    }
  }

  lemma FindsAnother(s: Setting, urlOk: string -> bool, w: World, o: Oracle, v: World, e: ChartEnv, ids: seq<ProxyId>,
                     order: seq<ObjectKey>)
    requires Ready(s, urlOk, w, ids, order) && NothingFails(o, s) && InStep(s, w, v, ids, order)
    requires v.chartJobs[s.key].pc.NextCluster? && Allows(o, v.chartJobs[s.key].pc, e)
    requires e.cluster in v.chartJobs[s.key].pc.todo && e.cluster in s.eligible
    requires PairIds(v.proxies, s.key, e.cluster) != {} && e.id !in PairIds(v.proxies, s.key, e.cluster)
    ensures StepChart(v, urlOk, s.key, v.chartJobs[s.key], e) == v
  {
    Stands(s, w, v, ids, order);
    assert R.Eligible(Found(s, w), e.cluster);
    hide ReconcileIn, StepChart, PairIds, InStep;
    LooksElsewhere(v, urlOk, s.key, w.charts[s.key], v.chartJobs[s.key].local, v.chartJobs[s.key].pc.todo, e);
  }

  lemma FoundOnce(s: Setting, urlOk: string -> bool, w: World, v: World, ids: seq<ProxyId>, order: seq<ObjectKey>,
                  c: ObjectKey)
    requires Ready(s, urlOk, w, ids, order) && InStep(s, w, v, ids, order)
    ensures forall id <- PairIds(v.proxies, s.key, c) :: PairIds(v.proxies, s.key, c) == {id} && id in v.proxies
  {
    var found := PairIds(v.proxies, s.key, c);
    forall id <- found ensures found == {id} && id in v.proxies {
      forall i <- found ensures i == id {
        assert SamePair(v.proxies[i], v.proxies[id]);
      }
    }
  }

  /* ---- the writes ---- */

  /** A cluster's turn is over, with the store that the rounds have after it. */
  lemma TurnOver(s: Setting, w: World, v: World, v': World, local: ChartProxy, ids: seq<ProxyId>,
                 order: seq<ObjectKey>, c: ObjectKey, left: map<ObjectKey, Cluster>)
    requires TurnOf(s, w, v, ids, order, c, left)
    requires StoreIs(ForCluster(s, ReconcileIn(s, w, ids, order), c), v')
    requires v'.clusters == v.clusters && v'.charts == v.charts
    requires P.Standing(v', s.key, w.charts[s.key], local, NextCluster(left))
    ensures InStep(s, w, v', ids, order + [c])
  {
    OneMoreTurn(s, w, ids, order, c);
    TurnIsHad(s, v, order, left, c);
    hide ReconcileIn, Lost, Found, HadTurn, Within, Pending, ForCluster;
    assert Follows(s, w, v', NextCluster(left), ids, order + [c]);
  }

  lemma ReinstallStep(s: Setting, urlOk: string -> bool, w: World, o: Oracle, v: World, e: ChartEnv,
                      ids: seq<ProxyId>, order: seq<ObjectKey>) returns (order': seq<ObjectKey>)
    requires Ready(s, urlOk, w, ids, order) && InStep(s, w, v, ids, order) && e.apiOk
    requires v.chartJobs[s.key].pc.DeleteForReinstall?
    ensures InStep(s, w, StepChart(v, urlOk, s.key, v.chartJobs[s.key], e), ids, order')
  {
    var j := v.chartJobs[s.key];
    var id, left := j.pc.id, j.pc.todo;
    var c :| Pending(s, v, order, left, c) && PairIds(v.proxies, s.key, c) == {id} && id in v.proxies &&
             MustGo(s, v.proxies[id]);
    order' := order + [c];
    Stands(s, w, v, ids, order);
    assert TurnOf(s, w, v, ids, order, c, left);
    hide StepChart, DeleteProxy, PairIds, MustGo, InStep, TurnOf, Pending;
    P.ReinstallStep(v, urlOk, s.key, w.charts[s.key], j.local, left, id, e);
    assert StoreIs(ReconcileIn(s, w, ids, order), v) by {
      StoreOf(s, w, v, ids, order);
    }
    Reinstalls(s, ReconcileIn(s, w, ids, order), v, c, id);
    DeleteLeavesRest(v, id);
    hide Ready, ReconcileIn, ForCluster;
    TurnOver(s, w, v, StepChart(v, urlOk, s.key, j, e), P.WithUpToDate(j.local, IsFalse), ids, order, c, left);
  }

  lemma StoreOf(s: Setting, w: World, v: World, ids: seq<ProxyId>, order: seq<ObjectKey>)
    requires InStep(s, w, v, ids, order)
    ensures StoreIs(ReconcileIn(s, w, ids, order), v)
  {
  }

  lemma CreateStep(s: Setting, urlOk: string -> bool, w: World, o: Oracle, v: World, e: ChartEnv,
                   ids: seq<ProxyId>, order: seq<ObjectKey>) returns (order': seq<ObjectKey>)
    requires Ready(s, urlOk, w, ids, order) && InStep(s, w, v, ids, order) && e.apiOk && urlOk(s.chart.repoURL)
    requires v.chartJobs[s.key].pc.CreateProxy?
    ensures InStep(s, w, StepChart(v, urlOk, s.key, v.chartJobs[s.key], e), ids, order')
  {
    var j := v.chartJobs[s.key];
    var c, left, p := j.pc.cluster, j.pc.todo, j.pc.proxy;
    order' := order + [c];
    Stands(s, w, v, ids, order);
    assert TurnOf(s, w, v, ids, order, c, left) && PairIds(v.proxies, s.key, c) == {};
    assert p == NewProxy(s.key, s.chart, c, s.render(c)) && ValidateReleaseCreate(urlOk, DefaultRelease(p.spec)) == [];
    assert w.charts[s.key].spec == s.chart;
    hide StepChart, PairIds, InStep, TurnOf, Pending, Ready, NewProxy;
    P.CreateStep(v, urlOk, s.key, w.charts[s.key], j.local, left, c, p, e);
    assert StoreIs(ReconcileIn(s, w, ids, order), v) by {
      StoreOf(s, w, v, ids, order);
    }
    Creates(s, ReconcileIn(s, w, ids, order), v, c);
    CreateLeavesRest(v, s.key, c, s.chart, p);
    hide ReconcileIn, ForCluster, Created;
    TurnOver(s, w, v, StepChart(v, urlOk, s.key, j, e), j.local, ids, order, c, left);
  }

  lemma CreateLeavesRest(v: World, key: ObjectKey, c: ObjectKey, chart: ChartSpec, p: ReleaseProxy)
    ensures Created(v, key, c, chart, p).charts == v.charts && Created(v, key, c, chart, p).clusters == v.clusters
  {
  }

  lemma UpdateStep(s: Setting, urlOk: string -> bool, w: World, o: Oracle, v: World, e: ChartEnv,
                   ids: seq<ProxyId>, order: seq<ObjectKey>) returns (order': seq<ObjectKey>)
    requires Ready(s, urlOk, w, ids, order) && InStep(s, w, v, ids, order) && e.apiOk
    requires v.chartJobs[s.key].pc.UpdateProxy?
    ensures InStep(s, w, StepChart(v, urlOk, s.key, v.chartJobs[s.key], e), ids, order')
  {
    var j := v.chartJobs[s.key];
    var id, left, p := j.pc.id, j.pc.todo, j.pc.proxy;
    var c :| Pending(s, v, order, left, c) && PairIds(v.proxies, s.key, c) == {id} && id in v.proxies &&
             MustChange(s, v.proxies[id], c) &&
             p == v.proxies[id].(spec := Refresh(v.proxies[id].spec, s.key.namespace, s.chart, s.render(c)));
    order' := order + [c];
    Stands(s, w, v, ids, order);
    assert TurnOf(s, w, v, ids, order, c, left);
    hide StepChart, PairIds, MustChange, Refresh, InStep, TurnOf, Pending, Rewritten, UpdateAccepted;
    P.UpdateStep(v, urlOk, s.key, w.charts[s.key], j.local, left, id, j.pc.seen, p, e);
    assert StoreIs(ReconcileIn(s, w, ids, order), v) by {
      StoreOf(s, w, v, ids, order);
    }
    Updates(s, ReconcileIn(s, w, ids, order), v, c, id);
    UpdateLeavesRest(v, id, p);
    hide Ready, ReconcileIn, ForCluster;
    TurnOver(s, w, v, StepChart(v, urlOk, s.key, j, e), j.local, ids, order, c, left);
  }

  lemma UpdateLeavesRest(v: World, id: ProxyId, p: ReleaseProxy)
    ensures Rewritten(v, id, p).charts == v.charts && Rewritten(v, id, p).clusters == v.clusters
  {
  }

  /* ---- the whole reconcile ---- */

  lemma EndingStep(s: Setting, urlOk: string -> bool, w: World, o: Oracle, v: World, e: ChartEnv, ids: seq<ProxyId>,
                   order: seq<ObjectKey>)
    requires C.AtRest(s, urlOk, w) && InStep(s, w, v, ids, order) && e.apiOk
    requires var pc := v.chartJobs[s.key].pc; pc.AggregateReady? || pc.FinishChart?
    ensures var v' := StepChart(v, urlOk, s.key, v.chartJobs[s.key], e);
      if v.chartJobs[s.key].pc.AggregateReady? then InStep(s, w, v', ids, order) else Ended(s, w, v', ids, order)
  {
    var j := v.chartJobs[s.key];
    var v' := StepChart(v, urlOk, s.key, j, e);
    if j.pc.AggregateReady? {
      Stands(s, w, v, ids, order);
      P.AggregateStep(v, urlOk, s.key, w.charts[s.key], j.local, e);
      hide StepChart, ReconcileIn, C.AtRest, P.Aggregated;
      var local := P.Aggregated(j.local, P.ListedProxies(v.proxies, s.key));
      AggregationTells(s, w, v, urlOk, e, ids, order);
      assert Follows(s, w, v', FinishChart, ids, order);
      MovedOn(s, w, v, v', local, FinishChart, ids, order);
    } else {
      Finishes(s, urlOk, w, v, e, ids, order);
    }
  }

  lemma AggregationTells(s: Setting, w: World, v: World, urlOk: string -> bool, e: ChartEnv, ids: seq<ProxyId>,
                         order: seq<ObjectKey>)
    requires InStep(s, w, v, ids, order) && v.chartJobs[s.key].pc.AggregateReady? && e.apiOk
    ensures var v' := StepChart(v, urlOk, s.key, v.chartJobs[s.key], e);
      && s.key in v'.chartJobs
      && (Q.BothTrue(v'.chartJobs[s.key].local.status) <==> Q.AllReady(v', s.key))
  {
    var j := v.chartJobs[s.key];
    assert j.local.status.upToDate == IsTrue;
    hide ReconcileIn, InStep;
    assert StepChart(v, urlOk, s.key, j, e) == StepAggregate(v, s.key, j, e);
    hide StepChart;
    Theorems.AggregationIsExact(v, s.key, j, e);
  }

  lemma Finishes(s: Setting, urlOk: string -> bool, w: World, v: World, e: ChartEnv, ids: seq<ProxyId>,
                 order: seq<ObjectKey>)
    requires s.key in w.charts && !w.charts[s.key].deleting
    requires InStep(s, w, v, ids, order) && v.chartJobs[s.key].pc.FinishChart? && e.apiOk
    ensures Ended(s, w, StepChart(v, urlOk, s.key, v.chartJobs[s.key], e), ids, order)
  {
    var j := v.chartJobs[s.key];
    hide ReconcileIn;
    assert StepChart(v, urlOk, s.key, j, e) == StepFinishChart(v, s.key, j, e);
    var v1 := PatchChart(v, s.key, j);
    assert R.KeepsChart(w, v1, s.key) && StoreIs(v, v1) && v1.clusters == v.clusters;
    assert ReadyIsExact(StepChart(v, urlOk, s.key, j, e), s.key);
  }

  lemma SaneInTurn(s: Setting, urlOk: string -> bool, w: World, ids: seq<ProxyId>, order: seq<ObjectKey>)
    requires C.AtRest(s, urlOk, w) && Distinct(order) && forall c <- order :: c in s.eligible
    ensures Ready(s, urlOk, w, ids, order)
  {
    C.RestIsSane(s, urlOk, w);
    DeleteEachDeletes(s, w, ids);
    var t := s.(eligible := order);
    InTurnIs(s, DeleteEach(w, ids), order, |order|);
    assert order[..|order|] == order;
    hide C.AtRest, DeleteEach, DeletesOnly, InTurn, ForClusters;
    assert SettingOk(t) && Sane(t, DeleteEach(w, ids));
    ForClustersStep(t, DeleteEach(w, ids), |order|);
    assert Sane(s, ReconcileIn(s, w, ids, order));
  }

  lemma OrderSoFar(s: Setting, w: World, v: World, ids: seq<ProxyId>, order: seq<ObjectKey>)
    requires InStep(s, w, v, ids, order)
    ensures Distinct(order) && forall c <- order :: c in s.eligible
  {
    hide ReconcileIn, Lost, Found;
  }

  /** One step of such a reconcile. */
  lemma ReconcileStep(s: Setting, urlOk: string -> bool, w: World, o: Oracle, v: World, e: ChartEnv, ids: seq<ProxyId>,
                      order: seq<ObjectKey>) returns (ids': seq<ProxyId>, order': seq<ObjectKey>)
    requires C.AtRest(s, urlOk, w) && NothingFails(o, s) && InStep(s, w, v, ids, order)
    requires Allows(o, v.chartJobs[s.key].pc, e)
    ensures var v' := StepChart(v, urlOk, s.key, v.chartJobs[s.key], e);
      if v.chartJobs[s.key].pc.FinishChart? then Ended(s, w, v', ids', order') else InStep(s, w, v', ids', order')
  {
    var pc := v.chartJobs[s.key].pc;
    OrderSoFar(s, w, v, ids, order);
    SaneInTurn(s, urlOk, w, ids, order);
    C.RestIsSane(s, urlOk, w);
    assert e.apiOk;
    assert pc.ListClusters? || pc.ListReleases? || pc.AddFinalizer? ==> ids == [] && order == [];
    assert pc.DeleteOrphans? ==> order == [];
    assert !pc.Teardown? && !pc.TeardownCheck? && !pc.DropFinalizer?;
    assert R.Describes(s, Found(s, w));
    ids', order' := ids, order;
    hide InStep, Ended, StepChart, C.AtRest, Ready, NothingFails, Allows, SettingOk, Sane;
    match pc
    case ListClusters => ListClustersStep(s, urlOk, w, o, v, e);
    case ListReleases(_) => ListReleasesStep(s, urlOk, w, o, v, e);
    case AddFinalizer(_, _) => AddFinalizerStep(s, urlOk, w, o, v, e);
    case DeleteOrphans(_, _) => ids' := OrphanStep(s, urlOk, w, o, v, e, ids);
    case NextCluster(_) => order' := HeadStep(s, urlOk, w, o, v, e, ids, order);
    case DeleteForReinstall(_, _) => order' := ReinstallStep(s, urlOk, w, o, v, e, ids, order);
    case CreateProxy(_, _, _) => order' := CreateStep(s, urlOk, w, o, v, e, ids, order);
    case UpdateProxy(_, _, _, _) => order' := UpdateStep(s, urlOk, w, o, v, e, ids, order);
    case AggregateReady => EndingStep(s, urlOk, w, o, v, e, ids, order);
    case FinishChart => EndingStep(s, urlOk, w, o, v, e, ids, order);
    case _ =>
  }

  lemma BeginsInStep(s: Setting, urlOk: string -> bool, w: World)
    requires C.AtRest(s, urlOk, w)
    ensures InStep(s, w, Begun(w, s.key), [], [])
  {
    hide Inv, Selected;
  }

  lemma {:induction false} StepsFollow(s: Setting, urlOk: string -> bool, w: World, o: Oracle, es: seq<ChartEnv>)
    returns (ids: seq<ProxyId>, order: seq<ObjectKey>)
    requires C.AtRest(s, urlOk, w) && NothingFails(o, s) && Obeys(Begun(w, s.key), urlOk, s.key, o, es)
    ensures var v := Steps(Begun(w, s.key), urlOk, s.key, es);
      InStep(s, w, v, ids, order) || Ended(s, w, v, ids, order)
    decreases |es|
  {
    if es == [] {
      ids, order := [], [];
      BeginsInStep(s, urlOk, w);
    } else {
      var front, e := es[..|es| - 1], es[|es| - 1];
      ids, order := StepsFollow(s, urlOk, w, o, front);
      var v := Steps(Begun(w, s.key), urlOk, s.key, front);
      NotBoth(s, w, v, ids, order);
      hide InStep, Ended, StepChart, C.AtRest, NothingFails, Allows, Begun;
      if s.key in v.chartJobs {
        ids, order := ReconcileStep(s, urlOk, w, o, v, e, ids, order);
      }
    }
  }

  lemma NotBoth(s: Setting, w: World, v: World, ids: seq<ProxyId>, order: seq<ObjectKey>)
    requires InStep(s, w, v, ids, order) || Ended(s, w, v, ids, order)
    ensures s.key in v.chartJobs <==> InStep(s, w, v, ids, order)
    ensures s.key !in v.chartJobs <==> Ended(s, w, v, ids, order)
  {
  }

  /* ---- the clusters that match ---- */

  lemma MatchingStep(s: Setting, urlOk: string -> bool, w: World, o: Oracle, v: World, e: ChartEnv,
                     ids: seq<ProxyId>, order: seq<ObjectKey>)
    requires C.AtRest(s, urlOk, w) && NothingFails(o, s) && InStep(s, w, v, ids, order)
    requires Allows(o, v.chartJobs[s.key].pc, e) && Q.ConditionsOk(v.chartJobs[s.key])
    requires v.chartJobs[s.key].pc.ListClusters? || v.chartJobs[s.key].local.status.matching == s.selected
    ensures MatchingIs(s, StepChart(v, urlOk, s.key, v.chartJobs[s.key], e))
  {
    var j := v.chartJobs[s.key];
    var v' := StepChart(v, urlOk, s.key, j, e);
    assert e.apiOk;
    if j.pc.ListClusters? {
      Q.StepGoesOn(v, urlOk, s.key, e);
      hide Inv, ReconcileIn, Q.ConditionsOk, Selected;
      assert v' == StepListClusters(v, s.key, j, e);
    } else if j.pc.FinishChart? {
      hide Inv, ReconcileIn, Q.ConditionsOk, Selected;
      assert v' == StepFinishChart(v, s.key, j, e);
    } else {
      Q.StepGoesOn(v, urlOk, s.key, e);
      var ids', order' := ReconcileStep(s, urlOk, w, o, v, e, ids, order);
      hide StepChart, Q.ConditionsOk, Inv, ReconcileIn, Follows;
    }
  }

  /** From the listing on the reconcile's copy names the selected clusters, and so does the stored
      object when it has ended. */
  ghost predicate MatchingIs(s: Setting, v: World) {
    if s.key in v.chartJobs then
      var j := v.chartJobs[s.key];
      Q.ConditionsOk(j) && (j.pc.ListClusters? || j.local.status.matching == s.selected)
    else s.key in v.charts && v.charts[s.key].status.matching == s.selected
  }

  lemma {:induction false} MatchingSoFar(s: Setting, urlOk: string -> bool, w: World, o: Oracle, es: seq<ChartEnv>)
    requires C.AtRest(s, urlOk, w) && NothingFails(o, s) && Obeys(Begun(w, s.key), urlOk, s.key, o, es)
    ensures MatchingIs(s, Steps(Begun(w, s.key), urlOk, s.key, es))
    decreases |es|
  {
    if es == [] {
      hide Inv, Selected;
    } else {
      var front, e := es[..|es| - 1], es[|es| - 1];
      MatchingSoFar(s, urlOk, w, o, front);
      var ids, order := StepsFollow(s, urlOk, w, o, front);
      var v := Steps(Begun(w, s.key), urlOk, s.key, front);
      NotBoth(s, w, v, ids, order);
      hide InStep, Ended, StepChart, C.AtRest, NothingFails, Allows, Begun;
      if s.key in v.chartJobs {
        MatchingStep(s, urlOk, w, o, v, e, ids, order);
      }
    }
  }

  /** Every uninterrupted chart reconcile in which no call fails leaves the store that the rounds
      have, for the order in which it was told of the orphans and the clusters. */
  lemma EveryReconcile(s: Setting, urlOk: string -> bool, w: World, o: Oracle, v: World)
    returns (ids: seq<ProxyId>, order: seq<ObjectKey>)
    requires C.AtRest(s, urlOk, w) && NothingFails(o, s)
    requires OnTheWay(Begun(w, s.key), urlOk, s.key, o, v) && s.key !in v.chartJobs
    ensures Reorders(s, order) && Distinct(ids) && ListsOrphans(s, w, ids)
    ensures StoreIs(ReconcileIn(s, w, ids, order), v) && v.clusters == w.clusters && R.KeepsChart(w, v, s.key)
    ensures ReadyIsExact(v, s.key) && v.charts[s.key].status.matching == s.selected
  {
    var es :| Obeys(Begun(w, s.key), urlOk, s.key, o, es) && v == Steps(Begun(w, s.key), urlOk, s.key, es);
    ids, order := StepsFollow(s, urlOk, w, o, es);
    NotBoth(s, w, v, ids, order);
    MatchingSoFar(s, urlOk, w, o, es);
    hide C.AtRest, InStep, ReconcileIn, Steps, Obeys;
    LostAreOrphans(s, urlOk, w);
  }

  lemma LostAreOrphans(s: Setting, urlOk: string -> bool, w: World)
    requires C.AtRest(s, urlOk, w)
    ensures forall id :: id in Lost(s, w) <==> id in w.proxies && Orphan(s, w.proxies[id])
  {
    hide Inv, Selected;
  }
}
