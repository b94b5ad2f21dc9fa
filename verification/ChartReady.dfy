/** The Ready condition that is stored on a HelmChartProxy: exactly when a reconcile leaves it
    true, with an aggregation behind it or without. */
module ChartReady {
  import opened Types
  import opened Admission
  import opened Phases
  import opened Machine
  import opened StoreInvariant
  import opened Invariant
  import opened Theorems
  import D = Drain
  import T = Teardown
  import RI = ReleaseInvariant
  import CI = ContentInvariant

  predicate BothTrue(s: ChartStatus) {
    s.upToDate == IsTrue && s.proxiesReady == IsTrue
  }

  /** Only the reconcile of an object read as being deleted tears down, only that of any other
      works. And what a reconcile has done to the two conditions before its end: nothing to
      HelmReleaseProxiesReady, and to SpecsUpToDate nothing but take it back, until the loop over
      the clusters is through. */
  ghost predicate ConditionsOk(j: ChartJob) {
    && (j.pc.Teardown? || j.pc.TeardownCheck? || j.pc.DropFinalizer? ==> j.base.deleting)
    && (Working(j.pc) || j.pc.AddFinalizer? ==> !j.base.deleting)
    && (j.pc.DeleteForReinstall? || j.pc.CreateProxy? || j.pc.UpdateProxy? ==> !j.base.paused)
    && (!j.pc.FinishChart? ==>
      && j.local.status.proxiesReady == j.base.status.proxiesReady
      && (if j.pc.AggregateReady? then j.local.status.upToDate == IsTrue
          else if j.pc.ListClusters? || j.pc.ListReleases? || j.pc.AddFinalizer? || j.pc.DeleteOrphans?
          then j.local.status.upToDate == j.base.status.upToDate
          else j.local.status.upToDate == j.base.status.upToDate || j.local.status.upToDate == IsFalse))
  }

  ghost predicate ConditionsInv(w: World) {
    forall k <- w.chartJobs :: ConditionsOk(w.chartJobs[k])
  }

  /** A step of the reconcile `j`, as seen by its own job: the clusters that match are recorded when
      they are listed, and not touched again. */
  ghost predicate GoesOn(v: World, key: ObjectKey, j: ChartJob) {
    key in v.chartJobs ==>
      var i := v.chartJobs[key];
      && ConditionsOk(i) && i.base == j.base
      && (!j.pc.ListClusters? ==> i.local.status.matching == j.local.status.matching)
  }

  lemma GotoGoesOn(w: World, key: ObjectKey, i: ChartJob, pc: ChartPc)
    requires ConditionsOk(i.(pc := pc))
    ensures forall j: ChartJob | j.base == i.base &&
      (j.pc.ListClusters? || j.local.status.matching == i.local.status.matching) :: GoesOn(Goto(w, key, i, pc), key, j)
  {
  }

  lemma FirstStepsGoOn(w: World, key: ObjectKey, j: ChartJob, e: ChartEnv)
    requires ConditionsOk(j)
    ensures j.pc.ListClusters? ==> GoesOn(StepListClusters(w, key, j, e), key, j)
    ensures j.pc.ListReleases? ==> GoesOn(StepListReleases(w, key, j, e), key, j)
  {
    hide Selected, SelectorParses, LabelledIds, OrphanIds, Listed;
    if j.pc.ListClusters? {
      var selected := Selected(w.clusters, key, j.base.spec.selector);
      GotoGoesOn(w, key, SetUpToDate(j, IsFalse), FinishChart);
      GotoGoesOn(w, key, j.(local := j.local.(status := j.local.status.(matching := selected.Keys))),
                 ListReleases(selected));
    } else if j.pc.ListReleases? {
      var listed := Listed(w.proxies, key);
      GotoGoesOn(w, key, j, FinishChart);
      if !j.base.deleting {
        GotoGoesOn(w, key, SetChartFinalizer(j, true), AddFinalizer(j.pc.selected, listed));
        GotoGoesOn(w, key, j, WorkPc(j.base, j.pc.selected, listed));
      } else {
        GotoGoesOn(w, key, j, Teardown(listed.Keys, {}, true));
      }
    }
    hide Goto, GoesOn, ConditionsOk, WorkPc;
  }

  lemma PatchingStepsGoOn(w: World, key: ObjectKey, j: ChartJob, e: ChartEnv)
    requires ConditionsOk(j)
    ensures j.pc.AddFinalizer? ==> GoesOn(StepAddFinalizer(w, key, j, e), key, j)
    ensures j.pc.DropFinalizer? ==> GoesOn(StepDropFinalizer(w, key, j, e), key, j)
    ensures j.pc.FinishChart? ==> GoesOn(StepFinishChart(w, key, j, e), key, j)
  {
    var w1 := if e.apiOk && key in w.charts then PatchChart(w, key, j) else w;
    GotoGoesOn(w1, key, j, FinishChart);
    GotoGoesOn(w, key, j, FinishChart);
    if j.pc.AddFinalizer? {
      GotoGoesOn(w1, key, j, WorkPc(j.base, j.pc.selected, j.pc.listed));
    }
    hide PatchChart, Goto, ConditionsOk, WorkPc;
  }

  lemma DeletingStepsGoOn(w: World, key: ObjectKey, j: ChartJob, e: ChartEnv)
    requires ConditionsOk(j) && (key in w.chartJobs ==> w.chartJobs[key] == j)
    ensures j.pc.DeleteOrphans? ==> GoesOn(StepDeleteOrphans(w, key, j, e), key, j)
    ensures j.pc.DeleteForReinstall? ==> GoesOn(StepDeleteForReinstall(w, key, j, e), key, j)
  {
    assert GoesOn(w, key, j);
    GotoGoesOn(w, key, SetUpToDate(j, IsFalse), FinishChart);
    if j.pc.DeleteOrphans? {
      GotoGoesOn(w, key, j, NextCluster(j.pc.selected));
      GotoGoesOn(DeleteProxy(w, e.id), key, j, j.pc.(orphans := j.pc.orphans - {e.id}));
    } else if j.pc.DeleteForReinstall? {
      GotoGoesOn(DeleteProxy(w, j.pc.id), key, SetUpToDate(j, IsFalse), NextCluster(j.pc.todo));
    }
    hide DeleteProxy, Goto, GoesOn, ConditionsOk;
  }

  lemma TeardownStepsGoOn(w: World, key: ObjectKey, j: ChartJob, e: ChartEnv)
    requires ConditionsOk(j) && (key in w.chartJobs ==> w.chartJobs[key] == j)
    ensures j.pc.Teardown? ==> GoesOn(StepTeardown(w, key, j, e), key, j)
    ensures j.pc.TeardownCheck? ==> GoesOn(StepTeardownCheck(w, key, j, e), key, j)
  {
    assert GoesOn(w, key, j);
    GotoGoesOn(w, key, j, FinishChart);
    if j.pc.Teardown? {
      GotoGoesOn(w, key, SetChartFinalizer(j, false), DropFinalizer);
      GotoGoesOn(w, key, SetProxiesReady(j, if j.pc.ready then IsTrue else IsFalse), FinishChart);
      GotoGoesOn(DeleteProxy(w, e.id), key, j, TeardownCheck(j.pc.todelete - {e.id}, j.pc.waiting, j.pc.ready, e.id));
    } else if j.pc.TeardownCheck? {
      GotoGoesOn(w, key, j, Teardown(j.pc.todelete, j.pc.waiting, j.pc.ready));
      if j.pc.id in w.proxies {
        GotoGoesOn(w, key, j, Teardown(j.pc.todelete, j.pc.waiting + {j.pc.id},
                                       j.pc.ready && w.proxies[j.pc.id].status.ready == IsTrue));
      }
    }
    hide DeleteProxy, Goto, GoesOn, ConditionsOk;
  }

  lemma WritingStepsGoOn(w: World, urlOk: string -> bool, key: ObjectKey, j: ChartJob, e: ChartEnv)
    requires ConditionsOk(j)
    ensures j.pc.CreateProxy? ==> GoesOn(StepCreateProxy(w, urlOk, key, j, e), key, j)
    ensures j.pc.UpdateProxy? ==> GoesOn(StepUpdateProxy(w, key, j, e), key, j)
    ensures j.pc.AggregateReady? ==> GoesOn(StepAggregate(w, key, j, e), key, j)
  {
    GotoGoesOn(w, key, SetUpToDate(j, IsFalse), FinishChart);
    GotoGoesOn(w, key, j, FinishChart);
    if j.pc.CreateProxy? {
      GotoGoesOn(Created(w, key, j.pc.cluster, j.base.spec, j.pc.proxy), key, j, NextCluster(j.pc.todo));
    } else if j.pc.UpdateProxy? && j.pc.id in w.proxies {
      GotoGoesOn(WriteProxy(w, j.pc.id, Overwrite(w.proxies[j.pc.id], j.pc.proxy)), key, j, NextCluster(j.pc.todo));
    } else if j.pc.AggregateReady? {
      var listed := set id | id in LabelledIds(w.proxies, key) :: w.proxies[id];
      GotoGoesOn(w, key, Aggregate(j, listed), FinishChart);
    }
    hide WriteProxy, Created, ValidateReleaseCreate, Goto, GoesOn, ConditionsOk, Aggregate, LabelledIds, Overwrite;
  }

  predicate FromLoop(pc: ChartPc, paused: bool) {
    pc.NextCluster? || pc.FinishChart? || (!paused && (pc.DeleteForReinstall? || pc.CreateProxy? || pc.UpdateProxy?))
  }

  /** Whatever the loop does with a cluster, it is one of these. */
  ghost predicate LoopGoto(w: World, key: ObjectKey, j: ChartJob, v: World) {
    || v == w
    || (exists pc: ChartPc :: FromLoop(pc, j.base.paused) && v == Goto(w, key, j, pc))
    || v == Goto(w, key, SetUpToDate(j, IsFalse), FinishChart)
  }

  lemma ActGoesTo(w: World, key: ObjectKey, j: ChartJob, todo: map<ObjectKey, Cluster>, e: ChartEnv,
                  found: Option<ProxyId>)
    requires (found.Some? ==> found.value in w.proxies) && !j.base.paused
    ensures LoopGoto(w, key, j, Act(w, key, j, todo, e, found))
  {
    hide Goto, Decide;
    var existing := if found.Some? then Some(w.proxies[found.value]) else None;
    match Decide(key, j.base.spec, e.cluster, existing, e.rendered)
    case Leave => assert FromLoop(NextCluster(todo), j.base.paused);
    case Reinstall =>
      if found.Some? {
        assert FromLoop(DeleteForReinstall(todo, found.value), j.base.paused);
      }
    case RenderFailed =>
    case Create(p) => assert FromLoop(CreateProxy(todo, e.cluster, p), j.base.paused);
    case Update(p) =>
      if found.Some? {
        assert FromLoop(UpdateProxy(todo, found.value, existing.value, p), j.base.paused);
      }
  }

  lemma TurnGoesTo(w: World, key: ObjectKey, j: ChartJob, e: ChartEnv)
    requires j.pc.NextCluster? && j.pc.todo.Keys != {}
    ensures LoopGoto(w, key, j, StepNextCluster(w, key, j, e))
  {
    hide Goto, Act, LoopGoto;
    var left := j.pc.todo - {e.cluster};
    assert LoopGoto(w, key, j, w) && LoopGoto(w, key, j, Goto(w, key, j, FinishChart)) &&
           LoopGoto(w, key, j, Goto(w, key, j, NextCluster(left))) by {
      LoopGotos(w, key, j, left);
    }
    var found := PairIds(w.proxies, key, e.cluster);
    if !j.base.paused {
      ActGoesTo(w, key, j, left, e, None);
      if e.id in found {
        ActGoesTo(w, key, j, left, e, Some(e.id));
      }
    }
    hide PairIds;
  }

  lemma LoopGotos(w: World, key: ObjectKey, j: ChartJob, left: map<ObjectKey, Cluster>)
    ensures LoopGoto(w, key, j, w) && LoopGoto(w, key, j, Goto(w, key, j, FinishChart))
    ensures LoopGoto(w, key, j, Goto(w, key, j, NextCluster(left)))
  {
    assert FromLoop(FinishChart, j.base.paused) && FromLoop(NextCluster(left), j.base.paused);
  }

  lemma LoopStepGoesOn(w: World, key: ObjectKey, j: ChartJob, e: ChartEnv)
    requires ConditionsOk(j) && j.pc.NextCluster? && (key in w.chartJobs ==> w.chartJobs[key] == j)
    ensures GoesOn(StepNextCluster(w, key, j, e), key, j)
  {
    if j.pc.todo.Keys == {} {
      GotoGoesOn(w, key, SetUpToDate(j, IsTrue), AggregateReady);
    } else {
      TurnGoesTo(w, key, j, e);
      hide StepNextCluster;
      var v := StepNextCluster(w, key, j, e);
      if v == Goto(w, key, SetUpToDate(j, IsFalse), FinishChart) {
        GotoGoesOn(w, key, SetUpToDate(j, IsFalse), FinishChart);
      } else if v != w {
        var pc: ChartPc :| FromLoop(pc, j.base.paused) && v == Goto(w, key, j, pc);
        GotoGoesOn(w, key, j, pc);
      }
    }
  }

  lemma StepGoesOn(w: World, urlOk: string -> bool, key: ObjectKey, e: ChartEnv)
    requires key in w.chartJobs && ConditionsOk(w.chartJobs[key])
    ensures GoesOn(StepChart(w, urlOk, key, w.chartJobs[key], e), key, w.chartJobs[key])
  {
    var j := w.chartJobs[key];
    hide GoesOn, ConditionsOk, StepListClusters, StepListReleases, StepAddFinalizer, StepDeleteOrphans, StepNextCluster,
      StepDeleteForReinstall, StepCreateProxy, StepUpdateProxy, StepAggregate, StepTeardown, StepTeardownCheck,
      StepDropFinalizer, StepFinishChart;
    match j.pc
    case ListClusters => FirstStepsGoOn(w, key, j, e);
    case ListReleases(_) => FirstStepsGoOn(w, key, j, e);
    case AddFinalizer(_, _) => PatchingStepsGoOn(w, key, j, e);
    case DeleteOrphans(_, _) => DeletingStepsGoOn(w, key, j, e);
    case NextCluster(_) => LoopStepGoesOn(w, key, j, e);
    case DeleteForReinstall(_, _) => DeletingStepsGoOn(w, key, j, e);
    case CreateProxy(_, _, _) => WritingStepsGoOn(w, urlOk, key, j, e);
    case UpdateProxy(_, _, _, _) => WritingStepsGoOn(w, urlOk, key, j, e);
    case AggregateReady => WritingStepsGoOn(w, urlOk, key, j, e);
    case Teardown(_, _, _) => TeardownStepsGoOn(w, key, j, e);
    case TeardownCheck(_, _, _, _) => TeardownStepsGoOn(w, key, j, e);
    case DropFinalizer => PatchingStepsGoOn(w, key, j, e);
    case FinishChart => PatchingStepsGoOn(w, key, j, e);
  }

  /* ---- over all actions ---- */

  predicate MovesJob(a: Action, key: ObjectKey) {
    (a.ChartReconcile? || a.ChartCrash?) && a.key == key
  }

  ghost predicate SameJob(w: World, v: World, key: ObjectKey) {
    && (key in v.chartJobs <==> key in w.chartJobs)
    && (key in w.chartJobs ==> v.chartJobs[key] == w.chartJobs[key])
  }

  lemma JobUntouched(w: World, urlOk: string -> bool, a: Action, key: ObjectKey)
    requires !MovesJob(a, key)
    ensures SameJob(w, Apply(w, urlOk, a), key)
  {
    hide StepChart, StepRelease, WriteProxy, StartRelease, ValidateChartCreate, ValidateChartUpdate, DefaultChart,
      KeysOn, PutChart;
    match a
    case CreateChart(_, _, _) =>
    case UpdateChart(_, _, _) =>
    case DeleteChart(_) =>
    case DeleteProxyByHand(id) => T.DeleteKeepsCharts(w, id);
    case ClusterChanges(_, _) =>
    case ReleaseChanges(_, _) =>
    case ChartReconcile(k, e) =>
      if k in w.chartJobs {
        T.ChartStepSpares(w, urlOk, k, w.chartJobs[k], e, key);
      }
    case ReleaseReconcile(id, e) =>
      if id in w.releaseJobs {
        D.ReleaseStepFrames(w, id, w.releaseJobs[id], e);
      }
    case ChartCrash(_) =>
    case ReleaseCrash(_) =>
  }

  lemma {:induction false} JobUntouchedByRun(w: World, urlOk: string -> bool, actions: seq<Action>, key: ObjectKey)
    requires forall a <- actions :: !MovesJob(a, key)
    ensures SameJob(w, Run(w, urlOk, actions), key)
    decreases |actions|
  {
    hide Apply, MovesJob;
    if actions != [] {
      var front := actions[..|actions| - 1];
      JobUntouchedByRun(w, urlOk, front, key);
      JobUntouched(Run(w, urlOk, front), urlOk, actions[|actions| - 1], key);
    }
  }

  lemma ApplyKeepsConditions(w: World, urlOk: string -> bool, a: Action)
    requires ConditionsInv(w)
    ensures ConditionsInv(Apply(w, urlOk, a))
  {
    var v := Apply(w, urlOk, a);
    hide ConditionsOk, Apply;
    forall k <- v.chartJobs ensures ConditionsOk(v.chartJobs[k]) {
      if MovesJob(a, k) {
        MovedJobOk(w, urlOk, a, k);
      } else {
        JobUntouched(w, urlOk, a, k);
      }
    }
  }

  lemma MovedJobOk(w: World, urlOk: string -> bool, a: Action, key: ObjectKey)
    requires ConditionsInv(w) && MovesJob(a, key)
    ensures var v := Apply(w, urlOk, a); key in v.chartJobs ==> ConditionsOk(v.chartJobs[key])
  {
    hide StepChart;
    if a.ChartReconcile? && key in w.chartJobs {
      StepGoesOn(w, urlOk, key, a.chartEnv);
    }
  }

  lemma {:induction false} RunKeepsConditions(w: World, urlOk: string -> bool, actions: seq<Action>)
    requires ConditionsInv(w)
    ensures ConditionsInv(Run(w, urlOk, actions))
    decreases |actions|
  {
    hide Apply, ConditionsInv;
    if actions != [] {
      var front := actions[..|actions| - 1];
      RunKeepsConditions(w, urlOk, front);
      ApplyKeepsConditions(Run(w, urlOk, front), urlOk, actions[|actions| - 1]);
    }
  }

  lemma ReachableHasConditions(w: World, urlOk: string -> bool)
    requires Reachable(w, urlOk)
    ensures ConditionsInv(w)
  {
    var start, actions :| Init(start, urlOk) && w == Run(start, urlOk, actions);
    hide Run;
    RunKeepsConditions(start, urlOk, actions);
  }

  /** A paused HelmChartProxy: no step of its reconcile writes a proxy but to delete an orphan, or
      to take the HelmChartProxy away. */
  lemma PausedIsLeftAlone(w: World, urlOk: string -> bool, key: ObjectKey, e: ChartEnv)
    requires Reachable(w, urlOk) && key in w.chartJobs && w.chartJobs[key].base.paused
    requires !w.chartJobs[key].pc.DeleteOrphans? && !w.chartJobs[key].pc.Teardown?
    ensures StepChart(w, urlOk, key, w.chartJobs[key], e).proxies == w.proxies
  {
    ReachableHasConditions(w, urlOk);
    assert ConditionsOk(w.chartJobs[key]);
    hide Reachable, StepChart;
    ChartStepEffect(w, urlOk, key, w.chartJobs[key], e);
  }

  /* ---- how a reconcile gets to its end ---- */

  /** Every proxy with the label is Ready at its current generation. */
  ghost predicate AllReady(w: World, key: ObjectKey) {
    forall id <- w.proxies :: Labelled(w.proxies[id], key) ==>
      w.proxies[id].status.ready == IsTrue && w.proxies[id].status.observedGeneration == w.proxies[id].generation
  }

  /** Whether the last step before the end leaves Ready, by where it was taken and what failed:
      - listing the HelmReleaseProxies or adding the finalizer failed: as it was before;
      - looking up the proxy of a cluster failed: as it was before, unless a proxy was deleted for
        reinstall earlier in the reconcile;
      - the list for the aggregation failed: as HelmReleaseProxiesReady was before;
      - the aggregation took place: exactly if all proxies are Ready;
      - anything else that ends a reconcile: not. */
  ghost predicate EndsReady(w: World, key: ObjectKey, j: ChartJob, e: ChartEnv) {
    match j.pc
    case ListReleases(_) => BothTrue(j.base.status)
    case AddFinalizer(_, _) => BothTrue(j.base.status)
    case NextCluster(todo) => LookupFails(w, key, e) && BothTrue(j.base.status) && j.local.status.upToDate == IsTrue
    case AggregateReady => if e.apiOk then AllReady(w, key) else j.base.status.proxiesReady == IsTrue
    case _ => false
  }

  ghost predicate LookupFails(w: World, key: ObjectKey, e: ChartEnv) {
    !e.apiOk || (e.id in PairIds(w.proxies, key, e.cluster) && PairIds(w.proxies, key, e.cluster) != {e.id})
  }

  /** A reconcile of an undeleted HelmChartProxy that one more step brings to its end. */
  ghost predicate ComesToEnd(w: World, urlOk: string -> bool, key: ObjectKey, e: ChartEnv) {
    && key in w.chartJobs && !w.chartJobs[key].base.deleting && !w.chartJobs[key].pc.FinishChart?
    && var v := StepChart(w, urlOk, key, w.chartJobs[key], e);
       key in v.chartJobs && v.chartJobs[key].pc.FinishChart?
  }

  lemma LookupEnds(w: World, urlOk: string -> bool, key: ObjectKey, e: ChartEnv)
    requires ConditionsInv(w) && ComesToEnd(w, urlOk, key, e) && w.chartJobs[key].pc.NextCluster?
    ensures BothTrue(StepChart(w, urlOk, key, w.chartJobs[key], e).chartJobs[key].local.status) <==>
      EndsReady(w, key, w.chartJobs[key], e)
  {
    var j := w.chartJobs[key];
    assert StepChart(w, urlOk, key, j, e) == StepNextCluster(w, key, j, e);
    assert ConditionsOk(j);
    hide StepChart, ConditionsInv;
    var found := PairIds(w.proxies, key, e.cluster);
    if j.pc.todo.Keys != {} && e.cluster in j.pc.todo && !LookupFails(w, key, e) {
      hide PairIds;
      var left := j.pc.todo - {e.cluster};
      ActEnds(w, key, j, left, e, None);
      if e.id in found {
        ActEnds(w, key, j, left, e, Some(e.id));
      }
      hide Act;
    }
  }

  lemma ActEnds(w: World, key: ObjectKey, j: ChartJob, todo: map<ObjectKey, Cluster>, e: ChartEnv,
                found: Option<ProxyId>)
    requires found.Some? ==> found.value in w.proxies
    requires key in w.chartJobs && w.chartJobs[key] == j && j.pc.NextCluster?
    ensures var v := Act(w, key, j, todo, e, found);
      key in v.chartJobs && (v.chartJobs[key].pc.FinishChart? ==> v.chartJobs[key].local.status.upToDate == IsFalse)
  {
    hide Decide, Goto;
    var existing := if found.Some? then Some(w.proxies[found.value]) else None;
    match Decide(key, j.base.spec, e.cluster, existing, e.rendered)
    case Leave => GotoIs(w, key, j, NextCluster(todo));
    case Reinstall =>
      if found.Some? {
        GotoIs(w, key, j, DeleteForReinstall(todo, found.value));
      }
    case RenderFailed => GotoIs(w, key, SetUpToDate(j, IsFalse), FinishChart);
    case Create(p) => GotoIs(w, key, j, CreateProxy(todo, e.cluster, p));
    case Update(p) =>
      if found.Some? {
        GotoIs(w, key, j, UpdateProxy(todo, found.value, existing.value, p));
      }
  }

  lemma GotoIs(w: World, key: ObjectKey, j: ChartJob, pc: ChartPc)
    ensures key in Goto(w, key, j, pc).chartJobs && Goto(w, key, j, pc).chartJobs[key] == j.(pc := pc)
  {
  }

  lemma EarlyEnds(w: World, urlOk: string -> bool, key: ObjectKey, e: ChartEnv)
    requires ConditionsInv(w) && ComesToEnd(w, urlOk, key, e)
    requires var pc := w.chartJobs[key].pc; pc.ListClusters? || pc.ListReleases? || pc.AddFinalizer?
    ensures BothTrue(StepChart(w, urlOk, key, w.chartJobs[key], e).chartJobs[key].local.status) <==>
      EndsReady(w, key, w.chartJobs[key], e)
  {
    var j := w.chartJobs[key];
    assert ConditionsOk(j);
    hide ConditionsInv, Selected, SelectorParses, Listed, LabelledIds, OrphanIds, PatchedChart, PutChart;
    if j.pc.ListClusters? {
      assert StepChart(w, urlOk, key, j, e) == StepListClusters(w, key, j, e);
    } else if j.pc.ListReleases? {
      assert StepChart(w, urlOk, key, j, e) == StepListReleases(w, key, j, e);
    } else {
      assert StepChart(w, urlOk, key, j, e) == StepAddFinalizer(w, key, j, e);
    }
  }

  lemma WriteEnds(w: World, urlOk: string -> bool, key: ObjectKey, e: ChartEnv)
    requires ConditionsInv(w) && ComesToEnd(w, urlOk, key, e)
    requires var pc := w.chartJobs[key].pc;
      pc.DeleteOrphans? || pc.DeleteForReinstall? || pc.CreateProxy? || pc.UpdateProxy?
    ensures StepChart(w, urlOk, key, w.chartJobs[key], e).chartJobs[key].local.status.upToDate == IsFalse
  {
    var j := w.chartJobs[key];
    hide ConditionsInv, DeleteProxy, WriteProxy, Created, UpdateAccepted, ValidateReleaseCreate;
    if j.pc.DeleteOrphans? {
      assert StepChart(w, urlOk, key, j, e) == StepDeleteOrphans(w, key, j, e);
    } else if j.pc.DeleteForReinstall? {
      assert StepChart(w, urlOk, key, j, e) == StepDeleteForReinstall(w, key, j, e);
    } else if j.pc.CreateProxy? {
      assert StepChart(w, urlOk, key, j, e) == StepCreateProxy(w, urlOk, key, j, e);
    } else {
      assert StepChart(w, urlOk, key, j, e) == StepUpdateProxy(w, key, j, e);
    }
  }

  lemma AggregationEnds(w: World, urlOk: string -> bool, key: ObjectKey, e: ChartEnv)
    requires ConditionsInv(w) && ComesToEnd(w, urlOk, key, e) && w.chartJobs[key].pc.AggregateReady?
    ensures BothTrue(StepChart(w, urlOk, key, w.chartJobs[key], e).chartJobs[key].local.status) <==>
      EndsReady(w, key, w.chartJobs[key], e)
  {
    var j := w.chartJobs[key];
    assert ConditionsOk(j);
    assert StepChart(w, urlOk, key, j, e) == StepAggregate(w, key, j, e);
    hide StepChart, ConditionsInv;
    if e.apiOk {
      AggregationIsExact(w, key, j, e);
    }
    hide Aggregate;
  }

  /** Which last steps leave Ready in the working copy. */
  lemma EndsReadyExactlyWhen(w: World, urlOk: string -> bool, key: ObjectKey, e: ChartEnv)
    requires Reachable(w, urlOk) && ComesToEnd(w, urlOk, key, e)
    ensures BothTrue(StepChart(w, urlOk, key, w.chartJobs[key], e).chartJobs[key].local.status) <==>
      EndsReady(w, key, w.chartJobs[key], e)
  {
    ReachableHasConditions(w, urlOk);
    ReachableHasInv(w, urlOk);
    assert ConditionsOk(w.chartJobs[key]);
    hide Reachable, Inv, ConditionsInv, ComesToEnd, StepChart;
    var pc := w.chartJobs[key].pc;
    if pc.ListClusters? || pc.ListReleases? || pc.AddFinalizer? {
      EarlyEnds(w, urlOk, key, e);
    } else if pc.NextCluster? {
      LookupEnds(w, urlOk, key, e);
    } else if pc.AggregateReady? {
      AggregationEnds(w, urlOk, key, e);
    } else {
      EndIsNotYet(w, urlOk, key, e);
      WriteEnds(w, urlOk, key, e);
    }
  }

  lemma EndIsNotYet(w: World, urlOk: string -> bool, key: ObjectKey, e: ChartEnv)
    requires ComesToEnd(w, urlOk, key, e)
    ensures !w.chartJobs[key].pc.FinishChart?
  {
  }

  /* ---- what is stored ---- */

  lemma FinishStores(w: World, urlOk: string -> bool, key: ObjectKey, f: ChartEnv)
    requires key in w.chartJobs && w.chartJobs[key].pc.FinishChart? && f.apiOk && key in w.charts
    ensures var j := w.chartJobs[key];
      var v := StepChart(w, urlOk, key, j, f);
      key in v.charts ==>
        && (v.charts[key].status.ready == IsTrue <==> BothTrue(j.local.status))
        && v.charts[key].status.observedGeneration == j.base.generation
        && v.charts[key].generation == w.charts[key].generation
  {
    assert StepChart(w, urlOk, key, w.chartJobs[key], f) == StepFinishChart(w, key, w.chartJobs[key], f);
  }

  /** From the last step before its end, a reconcile goes on to its final patch while anyone else
      does anything. */
  ghost predicate RunsToTheEnd(urlOk: string -> bool, key: ObjectKey, w: World, e: ChartEnv, others: seq<Action>,
                               f: ChartEnv, v: World)
  {
    && ComesToEnd(w, urlOk, key, e) && (forall a <- others :: !MovesJob(a, key)) && f.apiOk
    && var u := Run(Apply(w, urlOk, ChartReconcile(key, e)), urlOk, others);
       key in u.charts && v == Apply(u, urlOk, ChartReconcile(key, f)) && key in v.charts
  }

  /** Exactly which reconciles of an undeleted HelmChartProxy leave it stored with Ready true. */
  lemma StoredReadyExactlyWhen(w: World, urlOk: string -> bool, key: ObjectKey, e: ChartEnv, others: seq<Action>,
                               f: ChartEnv, v: World)
    requires Reachable(w, urlOk) && RunsToTheEnd(urlOk, key, w, e, others, f, v)
    ensures v.charts[key].status.ready == IsTrue <==> EndsReady(w, key, w.chartJobs[key], e)
    ensures v.charts[key].status.observedGeneration == w.chartJobs[key].base.generation
  {
    var w1 := Apply(w, urlOk, ChartReconcile(key, e));
    assert w1 == StepChart(w, urlOk, key, w.chartJobs[key], e);
    EndsReadyExactlyWhen(w, urlOk, key, e);
    ReachableHasConditions(w, urlOk);
    StepGoesOn(w, urlOk, key, e);
    hide Reachable, StepChart, Run, EndsReady;
    var u := Run(w1, urlOk, others);
    JobUntouchedByRun(w1, urlOk, others, key);
    FinishStores(u, urlOk, key, f);
  }

  /** HelmChartProxy Ready soundness: if the reconcile aggregated, and the HelmChartProxy is then
      stored with Ready true, every proxy with its label was Ready at its generation when it was
      listed, so each undeleted Continuous or unset one had been applied with its spec. */
  lemma StoredReadyIsSound(w: World, urlOk: string -> bool, key: ObjectKey, e: ChartEnv, others: seq<Action>,
                           f: ChartEnv, v: World, id: ProxyId)
    requires Reachable(w, urlOk) && RunsToTheEnd(urlOk, key, w, e, others, f, v)
    requires w.chartJobs[key].pc.AggregateReady? && e.apiOk && v.charts[key].status.ready == IsTrue
    requires id in w.proxies && Labelled(w.proxies[id], key)
    ensures w.proxies[id].status.ready == IsTrue && w.proxies[id].status.observedGeneration == w.proxies[id].generation
    ensures w.proxies[id].spec.strategy != InstallOnce && !w.proxies[id].deleting ==>
      && id in w.history.recorded && w.history.recorded[id].spec == w.proxies[id].spec
      && RI.LeavesReady(w.history.recorded[id].outcome)
  {
    StoredReadyExactlyWhen(w, urlOk, key, e, others, f, v);
    hide RunsToTheEnd, Reachable;
    assert AllReady(w, key);
    if w.proxies[id].spec.strategy != InstallOnce && !w.proxies[id].deleting {
      ReadyIsRecorded(w, urlOk, id);
    }
  }

  lemma ReadyIsRecorded(w: World, urlOk: string -> bool, id: ProxyId)
    requires Reachable(w, urlOk) && id in w.proxies
    requires w.proxies[id].spec.strategy != InstallOnce && !w.proxies[id].deleting
    requires w.proxies[id].status.ready == IsTrue && w.proxies[id].status.observedGeneration == w.proxies[id].generation
    ensures id in w.history.recorded && w.history.recorded[id].spec == w.proxies[id].spec
    ensures RI.LeavesReady(w.history.recorded[id].outcome)
  {
    ReachableHasInv(w, urlOk);
    hide Reachable, StoreInv, LogInv;
    assert CI.ContentOk(w.history, id, w.proxies[id]);
  }

  /** A reconcile that lists nothing keeps an old Ready, and claims it for the new generation. */
  lemma EarlyExitKeepsReady(w: World, urlOk: string -> bool, key: ObjectKey) returns (v: World)
    requires key in w.charts && key !in w.chartJobs && !w.charts[key].deleting
    requires BothTrue(w.charts[key].status) && SelectorParses(w.charts[key].spec.selector)
    ensures var ok, fails := ChartEnv(true, 0, key, None), ChartEnv(false, 0, key, None);
      v == Run(w, urlOk, [ChartReconcile(key, ok), ChartReconcile(key, ok), ChartReconcile(key, fails),
                          ChartReconcile(key, ok)])
    ensures key in v.charts && v.charts[key].status.ready == IsTrue
    ensures v.charts[key].status.observedGeneration == v.charts[key].generation == w.charts[key].generation
    ensures v.charts[key].spec == w.charts[key].spec && v.proxies == w.proxies
  {
    var ok, fails := ChartEnv(true, 0, key, None), ChartEnv(false, 0, key, None);
    var a, b := ChartReconcile(key, ok), ChartReconcile(key, fails);
    var w1, w2, w3 := FailsToList(w, urlOk, key);
    v := Apply(w3, urlOk, a);
    FourSteps(w, urlOk, a, a, b, a);
    FinishIs(w3, urlOk, key, ok);
  }

  lemma FailsToList(w: World, urlOk: string -> bool, key: ObjectKey) returns (w1: World, w2: World, w3: World)
    requires key in w.charts && key !in w.chartJobs && SelectorParses(w.charts[key].spec.selector)
    ensures var ok, fails := ChartEnv(true, 0, key, None), ChartEnv(false, 0, key, None);
      && w1 == Apply(w, urlOk, ChartReconcile(key, ok)) && w2 == Apply(w1, urlOk, ChartReconcile(key, ok))
      && w3 == Apply(w2, urlOk, ChartReconcile(key, fails))
    ensures w3.charts == w.charts && w3.proxies == w.proxies && key in w3.chartJobs
    ensures var j := w3.chartJobs[key];
      && j.base == w.charts[key] && j.pc == FinishChart
      && j.local.status == w.charts[key].status.(matching := j.local.status.matching)
      && j.local.finalizer == w.charts[key].finalizer
  {
    var ok, fails := ChartEnv(true, 0, key, None), ChartEnv(false, 0, key, None);
    var c := w.charts[key];
    w1 := w.(chartJobs := w.chartJobs[key := ChartJob(c, c, ListClusters)]);
    w2 := StepListClusters(w1, key, w1.chartJobs[key], ok);
    w3 := StepListReleases(w2, key, w2.chartJobs[key], fails);
    hide Selected, SelectorParses, Listed, LabelledIds;
  }

  lemma FinishIs(w: World, urlOk: string -> bool, key: ObjectKey, e: ChartEnv)
    requires key in w.chartJobs && w.chartJobs[key].pc.FinishChart? && e.apiOk
    requires key in w.charts && !w.charts[key].deleting
    ensures var j := w.chartJobs[key];
      var v := Apply(w, urlOk, ChartReconcile(key, e));
      && key in v.charts && v.charts[key] == PatchedChart(w.charts[key], j.base, j.local) && v.proxies == w.proxies
  {
  }

  lemma FourSteps(w: World, urlOk: string -> bool, a: Action, b: Action, c: Action, d: Action)
    ensures Run(w, urlOk, [a, b, c, d]) == Apply(Apply(Apply(Apply(w, urlOk, a), urlOk, b), urlOk, c), urlOk, d)
  {
    hide Apply;
    assert [a, b, c, d][..3] == [a, b, c] && [a, b, c][..2] == [a, b] && [a, b][..1] == [a];
    assert [a][..0] == [];
    assert Run(w, urlOk, [a]) == Apply(w, urlOk, a);
    assert Run(w, urlOk, [a, b]) == Apply(Run(w, urlOk, [a]), urlOk, b);
    assert Run(w, urlOk, [a, b, c]) == Apply(Run(w, urlOk, [a, b]), urlOk, c);
  }
}
