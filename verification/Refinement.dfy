/** The machine does what the rounds say: uninterrupted steps of one chart reconcile add up to
    Rounds.Reconcile, and steps of the release reconciles to Rounds.Drain. */
module Refinement {
  import opened Types
  import opened Admission
  import opened Phases
  import opened Machine
  import opened StoreInvariant
  import opened Invariant
  import opened Rounds
  import D = Drain

  /** Whose steps, with none of their calls failing: the reconciles of one HelmChartProxy, those
      of HelmReleaseProxies, or both. No user, no crash. */
  datatype Who = ChartOnly(key: ObjectKey) | ReleasesOnly | Both(key: ObjectKey)

  predicate Steps(who: Who, a: Action) {
    || (!who.ReleasesOnly? && a.ChartReconcile? && a.key == who.key && a.chartEnv.apiOk)
    || (!who.ChartOnly? && a.ReleaseReconcile? && D.Smooth(a.releaseEnv))
  }

  ghost predicate Script(who: Who, actions: seq<Action>) {
    forall a <- actions :: Steps(who, a)
  }

  /** Such steps alone can take the system from `w` to `v`. */
  ghost predicate Leads(w: World, urlOk: string -> bool, who: Who, v: World) {
    exists actions :: Script(who, actions) && Run(w, urlOk, actions) == v
  }

  lemma LeadsNowhere(w: World, urlOk: string -> bool, who: Who)
    ensures Leads(w, urlOk, who, w)
  {
    assert Script(who, []) && Run(w, urlOk, []) == w;
  }

  lemma LeadsOn(w: World, urlOk: string -> bool, who: Who, v: World, u: World)
    requires Leads(w, urlOk, who, v) && Leads(v, urlOk, who, u)
    ensures Leads(w, urlOk, who, u)
  {
    var front :| Script(who, front) && Run(w, urlOk, front) == v;
    var rest :| Script(who, rest) && Run(v, urlOk, rest) == u;
    D.RunAppend(w, urlOk, front, rest);
    assert Script(who, front + rest);
  }

  lemma LeadsOneStep(w: World, urlOk: string -> bool, who: Who, a: Action)
    requires Steps(who, a)
    ensures Leads(w, urlOk, who, Apply(w, urlOk, a))
  {
    hide Apply;
    assert Run(w, urlOk, [a][..0]) == w;
    assert Script(who, [a]) && Run(w, urlOk, [a]) == Apply(w, urlOk, a);
  }

  lemma LeadsKeepsInv(w: World, urlOk: string -> bool, who: Who, v: World)
    requires Leads(w, urlOk, who, v) && Inv(w, urlOk)
    ensures Inv(v, urlOk)
  {
    var actions :| Script(who, actions) && Run(w, urlOk, actions) == v;
    RunKeepsInv(w, urlOk, actions);
  }

  /** What one controller can do alone, both can. */
  lemma LeadsTogether(w: World, urlOk: string -> bool, key: ObjectKey, v: World)
    requires Leads(w, urlOk, ChartOnly(key), v) || Leads(w, urlOk, ReleasesOnly, v)
    ensures Leads(w, urlOk, Both(key), v)
  {
    hide Run;
    if Leads(w, urlOk, ChartOnly(key), v) {
      var actions :| Script(ChartOnly(key), actions) && Run(w, urlOk, actions) == v;
      assert Script(Both(key), actions);
    } else {
      var actions :| Script(ReleasesOnly, actions) && Run(w, urlOk, actions) == v;
      assert Script(Both(key), actions);
    }
  }

  /** The reconcile of `key` stands at `pc`, working from `base`, its finalizer in place. */
  ghost predicate Stands(v: World, key: ObjectKey, base: ChartProxy, pc: ChartPc) {
    && key in v.chartJobs && v.chartJobs[key].base == base && v.chartJobs[key].pc == pc
    && v.chartJobs[key].local.finalizer
  }

  lemma StepTaken(v: World, urlOk: string -> bool, key: ObjectKey, e: ChartEnv)
    requires key in v.chartJobs && e.apiOk
    ensures Leads(v, urlOk, ChartOnly(key), StepChart(v, urlOk, key, v.chartJobs[key], e))
  {
    hide StepChart;
    LeadsOneStep(v, urlOk, ChartOnly(key), ChartReconcile(key, e));
  }

  /* ---- one cluster ---- */

  lemma AlikePairs(w: World, v: World, key: ObjectKey, c: ObjectKey)
    requires w.proxies == v.proxies
    ensures PairIds(w.proxies, key, c) == PairIds(v.proxies, key, c)
  {
  }

  function Env(s: Setting, c: ObjectKey, id: ProxyId): ChartEnv {
    ChartEnv(true, id, c, Some(s.render(c)))
  }

  /** The reconcile is at the head of its loop, about to look at an eligible cluster. */
  ghost predicate Facing(s: Setting, urlOk: string -> bool, v: World, base: ChartProxy, todo: map<ObjectKey, Cluster>,
                         c: ObjectKey)
  {
    && Stands(v, s.key, base, NextCluster(todo)) && base.spec == s.chart && !base.paused && urlOk(s.chart.repoURL)
    && c in todo && !todo[c].deleting && !todo[c].paused
  }

  /** Looking up the proxy of a pair. */
  lemma LookedUp(s: Setting, urlOk: string -> bool, v: World, base: ChartProxy, todo: map<ObjectKey, Cluster>,
                 c: ObjectKey, id: ProxyId)
    requires Facing(s, urlOk, v, base, todo, c)
    requires PairIds(v.proxies, s.key, c) == {} || PairIds(v.proxies, s.key, c) == {id}
    ensures PairIds(v.proxies, s.key, c) == {} ==>
      Leads(v, urlOk, ChartOnly(s.key), Act(v, s.key, v.chartJobs[s.key], todo - {c}, Env(s, c, id), None))
    ensures PairIds(v.proxies, s.key, c) == {id} ==> id in v.proxies
    ensures PairIds(v.proxies, s.key, c) == {id} ==>
      Leads(v, urlOk, ChartOnly(s.key), Act(v, s.key, v.chartJobs[s.key], todo - {c}, Env(s, c, id), Some(id)))
  {
    hide Act, Leads;
    StepTaken(v, urlOk, s.key, Env(s, c, id));
    var j := v.chartJobs[s.key];
    assert StepChart(v, urlOk, s.key, j, Env(s, c, id)) == StepNextCluster(v, s.key, j, Env(s, c, id));
    assert todo.Keys != {};
    assert PairIds(v.proxies, s.key, c) == {id} ==> id in PairIds(v.proxies, s.key, c);
  }

  lemma CreateRefines(s: Setting, urlOk: string -> bool, v: World, base: ChartProxy, todo: map<ObjectKey, Cluster>,
                      c: ObjectKey) returns (v': World)
    requires Facing(s, urlOk, v, base, todo, c)
    requires PairIds(v.proxies, s.key, c) == {}
    ensures Leads(v, urlOk, ChartOnly(s.key), v') && v'.charts == v.charts
    ensures Stands(v', s.key, base, NextCluster(todo - {c}))
    ensures Alike(ForCluster(s, v, c), v')
  {
    var p := NewProxy(s.key, s.chart, c, s.render(c));
    var j := v.chartJobs[s.key];
    var e := Env(s, c, 0);
    LookedUp(s, urlOk, v, base, todo, c, 0);
    hide Leads, StepChart;
    var v1 := Goto(v, s.key, j, CreateProxy(todo - {c}, c, p));
    assert Act(v, s.key, j, todo - {c}, e, None) == v1;
    StepTaken(v1, urlOk, s.key, e);
    v' := StepChart(v1, urlOk, s.key, v1.chartJobs[s.key], e);
    ProxyCreated(v, urlOk, s.key, j, e, todo - {c}, c, p);
    LeadsOn(v, urlOk, ChartOnly(s.key), v1, v');
  }

  lemma ProxyCreated(v: World, urlOk: string -> bool, key: ObjectKey, j: ChartJob, e: ChartEnv,
                     todo: map<ObjectKey, Cluster>, c: ObjectKey, p: ReleaseProxy)
    requires e.apiOk && ValidateReleaseCreate(urlOk, DefaultRelease(p.spec)) == []
    ensures var v1 := Goto(v, key, j, CreateProxy(todo, c, p));
      var v' := StepChart(v1, urlOk, key, v1.chartJobs[key], e);
      Alike(Created(v, key, c, j.base.spec, p), v') && v'.charts == v.charts &&
      key in v'.chartJobs && v'.chartJobs[key] == j.(pc := NextCluster(todo))
  {
    var v1 := Goto(v, key, j, CreateProxy(todo, c, p));
    assert StepChart(v1, urlOk, key, v1.chartJobs[key], e) == StepCreateProxy(v1, urlOk, key, v1.chartJobs[key], e);
    hide StepChart, ValidateReleaseCreate;
  }

  lemma ReinstallRefines(s: Setting, urlOk: string -> bool, v: World, base: ChartProxy, todo: map<ObjectKey, Cluster>,
                         c: ObjectKey, id: ProxyId) returns (v': World)
    requires Facing(s, urlOk, v, base, todo, c)
    requires PairIds(v.proxies, s.key, c) == {id} && id in v.proxies
    requires MustGo(s, v.proxies[id])
    ensures Leads(v, urlOk, ChartOnly(s.key), v') && v'.charts == v.charts
    ensures Stands(v', s.key, base, NextCluster(todo - {c}))
    ensures Alike(ForExisting(s, v, c, id), v')
  {
    var j := v.chartJobs[s.key];
    var e := Env(s, c, id);
    LookedUp(s, urlOk, v, base, todo, c, id);
    hide Leads, ShouldReinstall, WriteProxy;
    var v1 := Goto(v, s.key, j, DeleteForReinstall(todo - {c}, id));
    assert Act(v, s.key, j, todo - {c}, e, Some(id)) == v1;
    StepTaken(v1, urlOk, s.key, e);
    v' := StepChart(v1, urlOk, s.key, v1.chartJobs[s.key], e);
    assert v' == StepDeleteForReinstall(v1, s.key, v1.chartJobs[s.key], e);
    WriteAlike(v, v1, id, v.proxies[id].(deleting := true));
    LeadsOn(v, urlOk, ChartOnly(s.key), v1, v');
  }

  lemma UpdateRefines(s: Setting, urlOk: string -> bool, v: World, base: ChartProxy, todo: map<ObjectKey, Cluster>,
                      c: ObjectKey, id: ProxyId) returns (v': World)
    requires Facing(s, urlOk, v, base, todo, c) && SettingOk(s) && Sane(s, v)
    requires PairIds(v.proxies, s.key, c) == {id} && id in v.proxies && PairOf(v.proxies[id], s.key, c)
    requires MustChange(s, v.proxies[id], c)
    ensures Leads(v, urlOk, ChartOnly(s.key), v') && v'.charts == v.charts
    ensures Stands(v', s.key, base, NextCluster(todo - {c}))
    ensures Alike(ForExisting(s, v, c, id), v')
  {
    var j := v.chartJobs[s.key];
    var e := Env(s, c, id);
    var p := v.proxies[id];
    var q := p.(spec := Refresh(p.spec, s.key.namespace, s.chart, s.render(c)));
    LookedUp(s, urlOk, v, base, todo, c, id);
    UpdateForCluster(s, v, c, id);
    UpdatePasses(s, v, c, id);
    hide Leads, ShouldReinstall, SpecChanged, Refresh, Sane, SettingOk, WriteProxy, ForExisting, UpdateAccepted,
      StepChart;
    var v1 := Goto(v, s.key, j, UpdateProxy(todo - {c}, id, p, q));
    assert Act(v, s.key, j, todo - {c}, e, Some(id)) == v1;
    StepTaken(v1, urlOk, s.key, e);
    v' := StepChart(v1, urlOk, s.key, v1.chartJobs[s.key], e);
    Updated(v, urlOk, s.key, j, e, todo - {c}, id, q);
    LeadsOn(v, urlOk, ChartOnly(s.key), v1, v');
  }

  lemma Updated(v: World, urlOk: string -> bool, key: ObjectKey, j: ChartJob, e: ChartEnv,
                todo: map<ObjectKey, Cluster>, id: ProxyId, q: ReleaseProxy)
    requires e.apiOk && UpdateAccepted(v, id, q)
    ensures var v1 := Goto(v, key, j, UpdateProxy(todo, id, v.proxies[id], q));
      var v' := StepChart(v1, urlOk, key, v1.chartJobs[key], e);
      Alike(WriteProxy(v, id, Overwrite(v.proxies[id], q)), v') && v'.charts == v.charts &&
      key in v'.chartJobs && v'.chartJobs[key] == j.(pc := NextCluster(todo))
  {
    var v1 := Goto(v, key, j, UpdateProxy(todo, id, v.proxies[id], q));
    assert StepChart(v1, urlOk, key, v1.chartJobs[key], e) == StepUpdateProxy(v1, key, v1.chartJobs[key], e);
    assert UpdateAccepted(v1, id, q);
    hide WriteProxy, UpdateAccepted;
    WriteAlike(v, v1, id, Overwrite(v.proxies[id], q));
  }

  lemma WriteAlike(w: World, v: World, id: ProxyId, q: ReleaseProxy)
    requires Alike(w, v) && id in w.proxies
    ensures Alike(WriteProxy(w, id, q), WriteProxy(v, id, q))
    ensures WriteProxy(v, id, q).charts == v.charts && WriteProxy(v, id, q).chartJobs == v.chartJobs
  {
  }

  lemma UpdatePasses(s: Setting, w: World, c: ObjectKey, id: ProxyId)
    requires Sane(s, w) && id in w.proxies && Labelled(w.proxies[id], s.key)
    ensures UpdateAccepted(w, id,
      w.proxies[id].(spec := Refresh(w.proxies[id].spec, s.key.namespace, s.chart, s.render(c))))
  {
    assert ProxySane(s, w.clock, id, w.proxies[id]);
  }

  lemma LeaveRefines(s: Setting, urlOk: string -> bool, v: World, base: ChartProxy, todo: map<ObjectKey, Cluster>,
                     c: ObjectKey, id: ProxyId) returns (v': World)
    requires Facing(s, urlOk, v, base, todo, c)
    requires PairIds(v.proxies, s.key, c) == {id} && id in v.proxies
    requires !MustGo(s, v.proxies[id]) && !MustChange(s, v.proxies[id], c)
    ensures Leads(v, urlOk, ChartOnly(s.key), v') && v'.charts == v.charts
    ensures Stands(v', s.key, base, NextCluster(todo - {c}))
    ensures Alike(ForExisting(s, v, c, id), v')
  {
    var j := v.chartJobs[s.key];
    LookedUp(s, urlOk, v, base, todo, c, id);
    hide Leads, ShouldReinstall, SpecChanged;
    v' := Goto(v, s.key, j, NextCluster(todo - {c}));
    assert Act(v, s.key, j, todo - {c}, Env(s, c, id), Some(id)) == v';
  }

  /** What the rounds call one cluster, the machine does in at most two steps. */
  lemma ClusterRefines(s: Setting, urlOk: string -> bool, v: World, base: ChartProxy, todo: map<ObjectKey, Cluster>,
                       c: ObjectKey) returns (v': World)
    requires Facing(s, urlOk, v, base, todo, c) && SettingOk(s) && Sane(s, v)
    ensures Leads(v, urlOk, ChartOnly(s.key), v') && v'.charts == v.charts
    ensures Stands(v', s.key, base, NextCluster(todo - {c}))
    ensures Alike(ForCluster(s, v, c), v')
  {
    hide Leads, Facing, Sane, ForExisting, Stands;
    var found := PairIds(v.proxies, s.key, c);
    if found == {} {
      v' := CreateRefines(s, urlOk, v, base, todo, c);
    } else {
      var id := TheOne(s, v, c);
      if MustGo(s, v.proxies[id]) {
        v' := ReinstallRefines(s, urlOk, v, base, todo, c, id);
      } else if MustChange(s, v.proxies[id], c) {
        v' := UpdateRefines(s, urlOk, v, base, todo, c, id);
      } else {
        v' := LeaveRefines(s, urlOk, v, base, todo, c, id);
      }
    }
  }

  /** The only proxy of a pair, if there is any. */
  lemma TheOne(s: Setting, v: World, c: ObjectKey) returns (id: ProxyId)
    requires Sane(s, v) && PairIds(v.proxies, s.key, c) != {}
    ensures PairIds(v.proxies, s.key, c) == {id} && id in v.proxies && PairOf(v.proxies[id], s.key, c)
    ensures ForCluster(s, v, c) == ForExisting(s, v, c, id)
  {
    hide ForExisting;
    var found := PairIds(v.proxies, s.key, c);
    id :| id in found;
    forall i <- found ensures i == id {
      assert SamePair(v.proxies[i], v.proxies[id]);
    }
    assert found == {id};
  }

  /* ---- the loop over the clusters ---- */

  lemma ForExistingAlike(s: Setting, w: World, v: World, c: ObjectKey, id: ProxyId)
    requires Alike(w, v) && id in w.proxies
    ensures Alike(ForExisting(s, w, c, id), ForExisting(s, v, c, id))
  {
    hide Decide, WriteProxy, Overwrite;
    var p := w.proxies[id];
    var plan := Decide(s.key, s.chart, c, Some(p), Some(s.render(c)));
    if plan.Reinstall? {
      WriteAlike(w, v, id, p.(deleting := true));
    } else if plan.Update? {
      WriteAlike(w, v, id, Overwrite(p, plan.proxy));
      assert UpdateAccepted(w, id, plan.proxy) == UpdateAccepted(v, id, plan.proxy);
    }
  }

  lemma ForClusterAlike(s: Setting, w: World, v: World, c: ObjectKey)
    requires Alike(w, v) && Sane(s, w)
    ensures Alike(ForCluster(s, w, c), ForCluster(s, v, c))
  {
    AlikePairs(w, v, s.key, c);
    AlikeSane(s, w, v);
    if PairIds(w.proxies, s.key, c) != {} {
      hide ForExisting, ForCluster, Sane, Alike;
      var id := TheOne(s, w, c);
      var i := TheOne(s, v, c);
      assert i in PairIds(w.proxies, s.key, c);
      ForExistingAlike(s, w, v, c, id);
    } else {
      hide Sane, NewProxy;
    }
  }

  ghost predicate Eligible(selected: map<ObjectKey, Cluster>, c: ObjectKey) {
    c in selected && !selected[c].deleting && !selected[c].paused
  }

  /** The setting describes the clusters a reconcile found. */
  ghost predicate Describes(s: Setting, selected: map<ObjectKey, Cluster>) {
    s.selected == selected.Keys && forall c :: c in s.eligible <==> Eligible(selected, c)
  }

  function Rest(s: Setting, selected: map<ObjectKey, Cluster>, n: nat): map<ObjectKey, Cluster>
    requires n <= |s.eligible|
  {
    selected - (set i | 0 <= i < n :: s.eligible[i])
  }

  lemma {:induction false} ClustersRefine(s: Setting, urlOk: string -> bool, v: World, base: ChartProxy,
                                          selected: map<ObjectKey, Cluster>, n: nat) returns (v': World)
    requires Stands(v, s.key, base, NextCluster(selected)) && base.spec == s.chart && !base.paused
    requires urlOk(s.chart.repoURL) && Describes(s, selected) && SettingOk(s) && Sane(s, v) && n <= |s.eligible|
    ensures Leads(v, urlOk, ChartOnly(s.key), v') && Stands(v', s.key, base, NextCluster(Rest(s, selected, n)))
    ensures v'.charts == v.charts && Alike(ForClusters(s, v, n), v')
  {
    hide Leads, Sane, ForCluster, Alike, Facing, SettingOk, Rest, Describes, Stands;
    hide AllHandled, AllServed, CleanFrom, OrphansLeaving, NoOrphans;
    RestShrinks(s, selected, n);
    if n == 0 {
      v' := v;
      LeadsNowhere(v, urlOk, ChartOnly(s.key));
      AlikeSelf(v);
    } else {
      var v1 := ClustersRefine(s, urlOk, v, base, selected, n - 1);
      var c := s.eligible[n - 1];
      ForClustersStep(s, v, n - 1);
      AlikeSane(s, ForClusters(s, v, n - 1), v1);
      StillFacing(s, urlOk, v1, base, selected, n - 1);
      v' := ClusterRefines(s, urlOk, v1, base, Rest(s, selected, n - 1), c);
      LeadsOn(v, urlOk, ChartOnly(s.key), v1, v');
      ForClusterAlike(s, ForClusters(s, v, n - 1), v1, c);
      AlikeOn(ForClusters(s, v, n), ForCluster(s, v1, c), v');
    }
  }

  lemma RestShrinks(s: Setting, selected: map<ObjectKey, Cluster>, n: nat)
    requires n <= |s.eligible|
    ensures Rest(s, selected, 0) == selected
    ensures n > 0 ==> Rest(s, selected, n) == Rest(s, selected, n - 1) - {s.eligible[n - 1]}
  {
  }

  lemma StillFacing(s: Setting, urlOk: string -> bool, v: World, base: ChartProxy, selected: map<ObjectKey, Cluster>,
                    n: nat)
    requires n < |s.eligible| && Stands(v, s.key, base, NextCluster(Rest(s, selected, n)))
    requires base.spec == s.chart && !base.paused && urlOk(s.chart.repoURL) && Describes(s, selected) && SettingOk(s)
    ensures Facing(s, urlOk, v, base, Rest(s, selected, n), s.eligible[n])
  {
    assert Eligible(selected, s.eligible[n]);
  }

  lemma AlikeSelf(w: World)
    ensures Alike(w, w)
  {
  }

  lemma AlikeOn(w: World, v: World, u: World)
    requires Alike(w, v) && Alike(v, u)
    ensures Alike(w, u)
  {
  }

  lemma AlikeSane(s: Setting, w: World, v: World)
    requires Alike(w, v) && Sane(s, w)
    ensures Sane(s, v)
  {
  }

  /** Clusters that are paused or being deleted are passed over. */
  lemma {:induction false} SkipsRest(v: World, urlOk: string -> bool, key: ObjectKey, base: ChartProxy,
                                     todo: map<ObjectKey, Cluster>) returns (v': World)
    requires Stands(v, key, base, NextCluster(todo)) && forall c :: !Eligible(todo, c)
    ensures Leads(v, urlOk, ChartOnly(key), v') && Stands(v', key, base, NextCluster(map[]))
    ensures v'.charts == v.charts && Alike(v, v')
    decreases |todo.Keys|
  {
    hide Leads;
    if todo.Keys == {} {
      v' := v;
      LeadsNowhere(v, urlOk, ChartOnly(key));
      assert todo == map[];
    } else {
      var c :| c in todo.Keys;
      var e := ChartEnv(true, 0, c, None);
      assert !Eligible(todo, c);
      var v1 := Goto(v, key, v.chartJobs[key], NextCluster(todo - {c}));
      assert StepNextCluster(v, key, v.chartJobs[key], e) == v1;
      StepTaken(v, urlOk, key, e);
      assert forall d :: !Eligible(todo - {c}, d) by {
        assert forall d :: Eligible(todo - {c}, d) ==> Eligible(todo, d);
      }
      assert (todo - {c}).Keys == todo.Keys - {c};
      v' := SkipsRest(v1, urlOk, key, base, todo - {c});
      LeadsOn(v, urlOk, ChartOnly(key), v1, v');
    }
  }

  /* ---- the loop over the orphans ---- */

  /** The orphans the reconcile listed, deleted one by one. */
  lemma {:induction false} OrphansRefine(v: World, urlOk: string -> bool, key: ObjectKey, base: ChartProxy,
                                         selected: map<ObjectKey, Cluster>, orphans: set<ProxyId>, ids: seq<ProxyId>)
    returns (v': World)
    requires Stands(v, key, base, DeleteOrphans(selected, orphans))
    requires (forall id <- ids :: id in orphans) && Distinct(ids)
    ensures Leads(v, urlOk, ChartOnly(key), v')
    ensures Stands(v', key, base, DeleteOrphans(selected, orphans - (set id <- ids)))
    ensures v'.charts == v.charts && Alike(DeleteEach(v, ids), v')
    decreases |ids|
  {
    hide Leads, DeleteProxy, Alike;
    if ids == [] {
      v' := v;
      LeadsNowhere(v, urlOk, ChartOnly(key));
      AlikeSelf(v);
      assert orphans - (set id <- ids) == orphans;
    } else {
      var front, last := ids[..|ids| - 1], ids[|ids| - 1];
      var v1 := OrphansRefine(v, urlOk, key, base, selected, orphans, front);
      var left := orphans - (set id <- front);
      var e := ChartEnv(true, last, key, None);
      assert last in left;
      StepTaken(v1, urlOk, key, e);
      v' := StepChart(v1, urlOk, key, v1.chartJobs[key], e);
      OrphanDeleted(v1, urlOk, key, e);
      DeleteAlike(DeleteEach(v, front), v1, last);
      AlikeOn(DeleteEach(v, ids), DeleteProxy(v1, last), v');
      LeadsOn(v, urlOk, ChartOnly(key), v1, v');
      assert left - {last} == orphans - (set id <- ids) by {
        assert ids == front + [last];
      }
    }
  }

  lemma OrphanDeleted(v: World, urlOk: string -> bool, key: ObjectKey, e: ChartEnv)
    requires key in v.chartJobs && v.chartJobs[key].pc.DeleteOrphans? && e.apiOk && e.id in v.chartJobs[key].pc.orphans
    ensures var j := v.chartJobs[key];
      var v' := StepChart(v, urlOk, key, j, e);
      && Alike(DeleteProxy(v, e.id), v') && v'.charts == v.charts
      && key in v'.chartJobs && v'.chartJobs[key] == j.(pc := DeleteOrphans(j.pc.selected, j.pc.orphans - {e.id}))
  {
    assert v.chartJobs[key].pc.orphans != {};
  }

  lemma DeleteAlike(w: World, v: World, id: ProxyId)
    requires Alike(w, v)
    ensures Alike(DeleteProxy(w, id), DeleteProxy(v, id))
  {
  }

  /* ---- a whole reconcile ---- */

  /** Nothing but the HelmChartProxy's finalizer and status changes among the HelmChartProxies. */
  ghost predicate KeepsChart(w: World, v: World, key: ObjectKey) {
    && key in w.charts && key in v.charts
    && v.charts[key].spec == w.charts[key].spec && v.charts[key].paused == w.charts[key].paused
    && v.charts[key].deleting == w.charts[key].deleting && v.charts[key].generation == w.charts[key].generation
    && v.charts - {key} == w.charts - {key}
  }

  function ChartEnvOk(key: ObjectKey): ChartEnv {
    ChartEnv(true, 0, key, None)
  }

  /** From rest to the listing of the HelmReleaseProxies. */
  lemma Started(w: World, urlOk: string -> bool, key: ObjectKey) returns (v: World)
    requires key in w.charts && key !in w.chartJobs && SelectorParses(w.charts[key].spec.selector)
    ensures Leads(w, urlOk, ChartOnly(key), v) && Alike(w, v) && v.charts == w.charts
    ensures key in v.chartJobs && v.chartJobs[key].base == w.charts[key]
    ensures v.chartJobs[key].local.finalizer == w.charts[key].finalizer
    ensures v.chartJobs[key].pc == ListReleases(Selected(w.clusters, key, w.charts[key].spec.selector))
  {
    hide Leads;
    var e := ChartEnvOk(key);
    var c := w.charts[key];
    var w1 := w.(chartJobs := w.chartJobs[key := ChartJob(c, c, ListClusters)]);
    assert Apply(w, urlOk, ChartReconcile(key, e)) == w1;
    LeadsOneStep(w, urlOk, ChartOnly(key), ChartReconcile(key, e));
    StepTaken(w1, urlOk, key, e);
    v := StepChart(w1, urlOk, key, w1.chartJobs[key], e);
    assert v == StepListClusters(w1, key, w1.chartJobs[key], e);
    LeadsOn(w, urlOk, ChartOnly(key), w1, v);
  }

  /** The listing, and the finalizer if it is missing. */
  lemma FinalizerIn(w: World, urlOk: string -> bool, key: ObjectKey, selected: map<ObjectKey, Cluster>)
    returns (v: World)
    requires key in w.chartJobs && w.chartJobs[key].pc == ListReleases(selected)
    requires key in w.charts && w.chartJobs[key].base == w.charts[key]
    requires w.chartJobs[key].local.finalizer == w.charts[key].finalizer
    requires !w.charts[key].deleting
    ensures Leads(w, urlOk, ChartOnly(key), v) && Alike(w, v) && KeepsChart(w, v, key)
    ensures Stands(v, key, w.charts[key], WorkPc(w.charts[key], selected, Listed(w.proxies, key)))
  {
    hide Leads;
    var e := ChartEnvOk(key);
    var j := w.chartJobs[key];
    StepTaken(w, urlOk, key, e);
    assert StepChart(w, urlOk, key, j, e) == StepListReleases(w, key, j, e);
    hide StepChart;
    if j.base.finalizer {
      v := Goto(w, key, j, WorkPc(j.base, selected, Listed(w.proxies, key)));
    } else {
      var j1 := SetChartFinalizer(j, true);
      var w1 := Goto(w, key, j1, AddFinalizer(selected, Listed(w.proxies, key)));
      StepTaken(w1, urlOk, key, e);
      v := FinalizerPatched(w1, urlOk, key, e);
      LeadsOn(w, urlOk, ChartOnly(key), w1, v);
    }
  }

  lemma FinalizerPatched(w: World, urlOk: string -> bool, key: ObjectKey, e: ChartEnv) returns (v: World)
    requires key in w.chartJobs && w.chartJobs[key].pc.AddFinalizer? && key in w.charts && e.apiOk
    requires !w.charts[key].deleting
    requires w.chartJobs[key].local.finalizer
    ensures v == StepChart(w, urlOk, key, w.chartJobs[key], e)
    ensures var j := w.chartJobs[key];
      Alike(w, v) && KeepsChart(w, v, key) &&
      Stands(v, key, j.base, WorkPc(j.base, j.pc.selected, j.pc.listed))
  {
    v := StepChart(w, urlOk, key, w.chartJobs[key], e);
    assert v == StepAddFinalizer(w, key, w.chartJobs[key], e);
  }

  /** From the end of the loop back to rest. */
  lemma Finished(w: World, urlOk: string -> bool, key: ObjectKey, base: ChartProxy) returns (v: World)
    requires Stands(w, key, base, NextCluster(map[])) && key in w.charts && !w.charts[key].deleting
    ensures Leads(w, urlOk, ChartOnly(key), v) && Alike(w, v) && KeepsChart(w, v, key) && key !in v.chartJobs
  {
    hide Leads;
    var e := ChartEnvOk(key);
    var j := w.chartJobs[key];
    var w1 := Goto(w, key, SetUpToDate(j, IsTrue), AggregateReady);
    assert StepChart(w, urlOk, key, j, e) == w1;
    StepTaken(w, urlOk, key, e);
    var j1 := w1.chartJobs[key];
    var w2 := StepChart(w1, urlOk, key, j1, e);
    assert w2 == StepAggregate(w1, key, j1, e);
    StepTaken(w1, urlOk, key, e);
    LeadsOn(w, urlOk, ChartOnly(key), w1, w2);
    v := Ended(w2, urlOk, key, e);
    StepTaken(w2, urlOk, key, e);
    LeadsOn(w, urlOk, ChartOnly(key), w2, v);
  }

  lemma Ended(w: World, urlOk: string -> bool, key: ObjectKey, e: ChartEnv) returns (v: World)
    requires key in w.chartJobs && w.chartJobs[key].pc.FinishChart? && key in w.charts && e.apiOk
    requires !w.charts[key].deleting
    ensures v == StepChart(w, urlOk, key, w.chartJobs[key], e)
    ensures Alike(w, v) && KeepsChart(w, v, key) && key !in v.chartJobs
  {
    v := StepChart(w, urlOk, key, w.chartJobs[key], e);
    assert v == StepFinishChart(w, key, w.chartJobs[key], e);
  }
}
