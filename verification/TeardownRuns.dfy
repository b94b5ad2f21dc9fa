/** Teardown over all runs: once a HelmChartProxy is being deleted, the measure of its teardown
    never rises, whoever does what; every chart reconcile in which no call fails and every
    failure-free release reconcile of a terminating proxy brings it down, however interleaved. */
module TeardownRuns {
  import opened Types
  import opened Admission
  import opened Phases
  import opened ReleaseFlow
  import opened Machine
  import opened StoreInvariant
  import opened ReleaseInvariant
  import opened ContentInvariant
  import opened Invariant
  import opened Runs
  import opened Teardown
  import opened ChartReady
  import D = Drain

  ghost predicate Sound(w: World, urlOk: string -> bool) {
    Inv(w, urlOk) && ConditionsInv(w)
  }

  lemma ApplyKeepsSound(w: World, urlOk: string -> bool, a: Action)
    requires Sound(w, urlOk)
    ensures Sound(Apply(w, urlOk, a), urlOk)
  {
    hide Inv, ConditionsInv;
    ApplyKeepsInv(w, urlOk, a);
    ApplyKeepsConditions(w, urlOk, a);
  }

  /* ---- where new proxies come from ---- */

  /** The only action that adds a proxy, and the only id it adds. */
  ghost predicate Adds(w: World, a: Action) {
    a.ChartReconcile? && a.key in w.chartJobs && w.chartJobs[a.key].pc.CreateProxy?
  }

  /** No proxy is new, or only the created one is. */
  ghost predicate OnlyNew(w: World, v: World, a: Action) {
    && w.clock <= v.clock
    && forall id <- v.proxies :: id !in w.proxies ==> id == w.clock && id < v.clock && Adds(w, a)
  }

  lemma ChartStepAdds(w: World, urlOk: string -> bool, key: ObjectKey, e: ChartEnv)
    requires key in w.chartJobs
    ensures OnlyNew(w, StepChart(w, urlOk, key, w.chartJobs[key], e), ChartReconcile(key, e))
  {
    var j := w.chartJobs[key];
    ChartStepEffect(w, urlOk, key, j, e);
    hide StepChart, Stamp, NewProxy, Overwrite, UpdateAccepted;
  }

  lemma ReleaseStepAdds(w: World, urlOk: string -> bool, i: ProxyId, e: ReleaseEnv)
    requires Inv(w, urlOk) && i in w.releaseJobs
    ensures OnlyNew(w, StepRelease(w, i, w.releaseJobs[i], e), ReleaseReconcile(i, e))
  {
    var j := w.releaseJobs[i];
    D.JobOfInv(w, urlOk, i);
    JobCalls(w, i, j);
    hide Inv, StepRelease, ReleaseJobOk, MergePatch, Stamp;
    if Patches(j.pc) && e.apiOk && i in w.proxies {
      PatchStepsWrite(w, i, j, e);
    } else {
      OtherStepsWriteNothing(w, i, j, e);
    }
  }

  lemma ApplyAdds(w: World, urlOk: string -> bool, a: Action)
    requires Inv(w, urlOk)
    ensures OnlyNew(w, Apply(w, urlOk, a), a)
  {
    hide Inv, StepChart, StepRelease, StartRelease;
    if Elsewhere(a) {
      ElsewhereTouchesNoProxy(w, urlOk, a);
    } else if a.DeleteProxyByHand? {
      hide Stamp;
    } else if a.ChartReconcile? {
      if a.key in w.chartJobs {
        ChartStepAdds(w, urlOk, a.key, a.chartEnv);
      }
    } else if a.id in w.releaseJobs {
      ReleaseStepAdds(w, urlOk, a.id, a.releaseEnv);
    }
  }

  /** A proxy that is gone does not come back. */
  lemma GoneStaysGone(w: World, urlOk: string -> bool, a: Action, id: ProxyId)
    requires Inv(w, urlOk) && id !in w.proxies && id < w.clock
    ensures id !in Apply(w, urlOk, a).proxies && id < Apply(w, urlOk, a).clock
  {
    hide Inv, Apply;
    ApplyAdds(w, urlOk, a);
  }

  /* ---- the measure never rises ---- */

  /** The HelmChartProxy, if it is still there, is being deleted, and its reconcile, if there is
      one, has read it so. */
  ghost predicate Closing(w: World, key: ObjectKey) {
    && (key in w.charts ==> w.charts[key].deleting)
    && (key in w.chartJobs ==> w.chartJobs[key].base.deleting)
  }

  lemma CreatedIsLabelled(w: World, urlOk: string -> bool, a: Action, id: ProxyId)
    requires Sound(w, urlOk) && Adds(w, a) && id == w.clock && id !in w.proxies && id in Apply(w, urlOk, a).proxies
    ensures OwnerOf(Apply(w, urlOk, a).proxies[id]) == a.key && !w.chartJobs[a.key].base.deleting
  {
    var j := w.chartJobs[a.key];
    assert ConditionsOk(j);
    PcOfCreate(w, urlOk, a.key);
    ChartStepEffect(w, urlOk, a.key, j, a.chartEnv);
    hide Inv, ConditionsInv, StepChart;
  }

  lemma PcOfCreate(w: World, urlOk: string -> bool, key: ObjectKey)
    requires Inv(w, urlOk) && key in w.chartJobs && w.chartJobs[key].pc.CreateProxy?
    ensures OwnerOf(w.chartJobs[key].pc.proxy) == key
  {
    hide ReleaseSide;
    JobIsOk(w, urlOk, key, w.chartJobs[key]);
  }

  lemma OldStays(w: World, urlOk: string -> bool, a: Action, id: ProxyId)
    requires Inv(w, urlOk) && id in w.proxies && id in Apply(w, urlOk, a).proxies
    ensures var p, q := w.proxies[id], Apply(w, urlOk, a).proxies[id];
      OwnerOf(q) == OwnerOf(p) && (p.deleting ==> q.deleting)
  {
    hide Apply, Inv;
    NoLostUpdates(w, urlOk, a, id);
  }

  /** What no action does to the proxies of a HelmChartProxy that is being deleted. */
  ghost predicate NoneAdded(w: World, v: World, key: ObjectKey) {
    && LabelledIds(v.proxies, key) <= LabelledIds(w.proxies, key)
    && forall id <- LabelledIds(v.proxies, key) :: w.proxies[id].deleting ==> v.proxies[id].deleting
  }

  lemma OneAddsNone(w: World, urlOk: string -> bool, a: Action, key: ObjectKey, id: ProxyId)
    requires Sound(w, urlOk) && Closing(w, key) && id in Apply(w, urlOk, a).proxies
    requires Labelled(Apply(w, urlOk, a).proxies[id], key)
    ensures id in w.proxies && Labelled(w.proxies[id], key)
    ensures w.proxies[id].deleting ==> Apply(w, urlOk, a).proxies[id].deleting
  {
    hide Apply, Inv, ConditionsInv;
    ApplyAdds(w, urlOk, a);
    assert OwnerOf(Apply(w, urlOk, a).proxies[id]) == key;
    if id in w.proxies {
      OldStays(w, urlOk, a, id);
    } else {
      CreatedIsLabelled(w, urlOk, a, id);
    }
  }

  lemma ApplyAddsNone(w: World, urlOk: string -> bool, a: Action, key: ObjectKey)
    requires Sound(w, urlOk) && Closing(w, key)
    ensures NoneAdded(w, Apply(w, urlOk, a), key)
  {
    hide Apply, Sound, Closing;
    var v := Apply(w, urlOk, a);
    forall id <- LabelledIds(v.proxies, key)
      ensures id in LabelledIds(w.proxies, key) && (w.proxies[id].deleting ==> v.proxies[id].deleting)
    {
      OneAddsNone(w, urlOk, a, key, id);
    }
  }

  /** A HelmChartProxy is not created anew under the key. */
  predicate NotRecreated(a: Action, key: ObjectKey) {
    !(a.CreateChart? && a.key == key)
  }

  lemma PatchKeepsDeleting(w: World, key: ObjectKey, j: ChartJob, k: ObjectKey)
    requires key in w.charts
    ensures k in PatchChart(w, key, j).charts ==>
      k in w.charts && PatchChart(w, key, j).charts[k].deleting == w.charts[k].deleting &&
      PatchChart(w, key, j).charts[k].spec == w.charts[k].spec
  {
  }

  /** Chart reconciles neither create a HelmChartProxy nor touch its spec or its deletion. */
  ghost predicate ChartsOnlyPatched(w: World, v: World) {
    forall k <- v.charts ::
      k in w.charts && v.charts[k].deleting == w.charts[k].deleting && v.charts[k].spec == w.charts[k].spec
  }

  /** A chart step leaves the HelmChartProxies alone or patches its own. */
  ghost predicate PatchedOrNot(w: World, v: World, key: ObjectKey, j: ChartJob) {
    v.charts == w.charts || (key in w.charts && v.charts == PatchChart(w, key, j).charts)
  }

  lemma GotoPatches(w: World, u: World, key: ObjectKey, j: ChartJob, i: ChartJob, pc: ChartPc)
    requires PatchedOrNot(w, u, key, j)
    ensures PatchedOrNot(w, Goto(u, key, i, pc), key, j)
  {
    hide PatchChart;
  }

  lemma SamePatches(w: World, key: ObjectKey, j: ChartJob)
    ensures PatchedOrNot(w, w, key, j) && (key in w.charts ==> PatchedOrNot(w, PatchChart(w, key, j), key, j))
    ensures forall i: ChartJob, pc :: PatchedOrNot(w, Goto(w, key, i, pc), key, j)
  {
    hide PatchChart;
  }

  lemma LookupsPatch(w: World, key: ObjectKey, j: ChartJob, e: ChartEnv)
    ensures PatchedOrNot(w, StepListClusters(w, key, j, e), key, j)
    ensures j.pc.ListReleases? ==> PatchedOrNot(w, StepListReleases(w, key, j, e), key, j)
    ensures j.pc.TeardownCheck? ==> PatchedOrNot(w, StepTeardownCheck(w, key, j, e), key, j)
    ensures PatchedOrNot(w, StepAggregate(w, key, j, e), key, j)
  {
    SamePatches(w, key, j);
    hide PatchedOrNot, Goto, Selected, SelectorParses, Listed, LabelledIds, WorkPc, PairIds, Decide, Aggregate;
  }

  lemma LoopPatches(w: World, key: ObjectKey, j: ChartJob, e: ChartEnv)
    requires j.pc.NextCluster?
    ensures StepNextCluster(w, key, j, e).charts == w.charts
  {
    if j.pc.todo.Keys != {} {
      TurnGoesTo(w, key, j, e);
      hide StepNextCluster;
    }
  }

  lemma ProxyWritesPatch(w: World, urlOk: string -> bool, key: ObjectKey, j: ChartJob, e: ChartEnv)
    ensures j.pc.DeleteOrphans? ==> PatchedOrNot(w, StepDeleteOrphans(w, key, j, e), key, j)
    ensures j.pc.DeleteForReinstall? ==> PatchedOrNot(w, StepDeleteForReinstall(w, key, j, e), key, j)
    ensures j.pc.Teardown? ==> PatchedOrNot(w, StepTeardown(w, key, j, e), key, j)
    ensures j.pc.CreateProxy? ==> PatchedOrNot(w, StepCreateProxy(w, urlOk, key, j, e), key, j)
    ensures j.pc.UpdateProxy? ==> PatchedOrNot(w, StepUpdateProxy(w, key, j, e), key, j)
  {
    SamePatches(w, key, j);
    hide Goto;
    forall u: World, i: ChartJob, pc | u.charts == w.charts ensures PatchedOrNot(w, Goto(u, key, i, pc), key, j) {
      GotoPatches(w, u, key, j, i, pc);
    }
    forall id ensures DeleteProxy(w, id).charts == w.charts {
      DeleteKeepsCharts(w, id);
    }
    hide PatchedOrNot, DeleteProxy, ValidateReleaseCreate, UpdateAccepted, Overwrite, Stamp, Put;
  }

  lemma PatchesPatch(w: World, key: ObjectKey, j: ChartJob, e: ChartEnv)
    ensures j.pc.AddFinalizer? ==> PatchedOrNot(w, StepAddFinalizer(w, key, j, e), key, j)
    ensures PatchedOrNot(w, StepDropFinalizer(w, key, j, e), key, j)
    ensures PatchedOrNot(w, StepFinishChart(w, key, j, e), key, j)
  {
    hide PatchedChart, PutChart, WorkPc;
  }

  lemma ChartStepPatches(w: World, urlOk: string -> bool, key: ObjectKey, e: ChartEnv)
    requires key in w.chartJobs
    ensures PatchedOrNot(w, StepChart(w, urlOk, key, w.chartJobs[key], e), key, w.chartJobs[key])
  {
    var j := w.chartJobs[key];
    LookupsPatch(w, key, j, e);
    if j.pc.NextCluster? {
      LoopPatches(w, key, j, e);
    }
    ProxyWritesPatch(w, urlOk, key, j, e);
    PatchesPatch(w, key, j, e);
    assert j.pc.NextCluster? ==> PatchedOrNot(w, StepNextCluster(w, key, j, e), key, j);
    hide PatchedOrNot, StepListClusters, StepListReleases, StepAddFinalizer, StepDeleteOrphans, StepNextCluster,
      StepDeleteForReinstall, StepCreateProxy, StepUpdateProxy, StepAggregate, StepTeardown, StepTeardownCheck,
      StepDropFinalizer, StepFinishChart;
  }

  lemma ChartStepOnlyPatches(w: World, urlOk: string -> bool, key: ObjectKey, e: ChartEnv)
    requires key in w.chartJobs
    ensures ChartsOnlyPatched(w, StepChart(w, urlOk, key, w.chartJobs[key], e))
  {
    var j := w.chartJobs[key];
    ChartStepPatches(w, urlOk, key, e);
    hide StepChart;
    var v := StepChart(w, urlOk, key, j, e);
    forall k <- v.charts
      ensures k in w.charts && v.charts[k].deleting == w.charts[k].deleting && v.charts[k].spec == w.charts[k].spec
    {
      if key in w.charts {
        PatchKeepsDeleting(w, key, j, k);
      }
    }
  }

  /** What becomes of a HelmChartProxy that is being deleted, in any action: it stays so, its spec
      changes only by an edit, and once gone it stays gone unless it is created anew. */
  lemma ApplyKeepsClosing(w: World, urlOk: string -> bool, a: Action, key: ObjectKey)
    requires Sound(w, urlOk) && Closing(w, key) && NotRecreated(a, key)
    ensures var v := Apply(w, urlOk, a);
      && Closing(v, key) && (key in v.charts ==> key in w.charts)
      && (key in v.charts && !(a.UpdateChart? && a.key == key) ==> v.charts[key].spec == w.charts[key].spec)
  {
    if a.CreateChart? || a.UpdateChart? || a.DeleteChart? {
      UserKeepsClosing(w, urlOk, a, key);
    } else if Elsewhere(a) {
      OutsideKeepsClosing(w, urlOk, a, key);
    } else {
      hide Inv, ConditionsInv, StepChart, StepRelease, StartRelease;
      if a.DeleteProxyByHand? {
        DeleteKeepsCharts(w, a.id);
        hide DeleteProxy;
      } else if a.ChartReconcile? {
        if a.key in w.chartJobs {
          ChartStepKeepsClosing(w, urlOk, a.key, a.chartEnv, key);
        }
      } else if a.id in w.releaseJobs {
        ReleaseStepLeavesCharts(w, a.id, a.releaseEnv);
      }
    }
  }

  lemma UserKeepsClosing(w: World, urlOk: string -> bool, a: Action, key: ObjectKey)
    requires Closing(w, key) && NotRecreated(a, key) && (a.CreateChart? || a.UpdateChart? || a.DeleteChart?)
    ensures var v := Apply(w, urlOk, a);
      && Closing(v, key) && (key in v.charts ==> key in w.charts)
      && (key in v.charts && !(a.UpdateChart? && a.key == key) ==> v.charts[key].spec == w.charts[key].spec)
  {
    hide ValidateChartCreate, ValidateChartUpdate, DefaultChart;
  }

  lemma OutsideKeepsClosing(w: World, urlOk: string -> bool, a: Action, key: ObjectKey)
    requires Closing(w, key) && Elsewhere(a) && !a.CreateChart? && !a.UpdateChart? && !a.DeleteChart?
    ensures var v := Apply(w, urlOk, a); Closing(v, key) && v.charts == w.charts
  {
    hide KeysOn;
  }

  lemma ReleaseStepLeavesCharts(w: World, id: ProxyId, e: ReleaseEnv)
    requires id in w.releaseJobs
    ensures var v := StepRelease(w, id, w.releaseJobs[id], e);
      v.charts == w.charts && v.chartJobs == w.chartJobs && v.clusters == w.clusters
  {
    D.ReleaseStepFrames(w, id, w.releaseJobs[id], e);
    hide StepRelease;
  }

  lemma ChartStepKeepsClosing(w: World, urlOk: string -> bool, k: ObjectKey, e: ChartEnv, key: ObjectKey)
    requires ConditionsInv(w) && Closing(w, key) && k in w.chartJobs
    ensures var v := StepChart(w, urlOk, k, w.chartJobs[k], e);
      && Closing(v, key) && (key in v.charts ==> key in w.charts && v.charts[key].spec == w.charts[key].spec)
  {
    assert ConditionsOk(w.chartJobs[k]);
    hide StepChart, ConditionsInv, ConditionsOk;
    ChartStepOnlyPatches(w, urlOk, k, e);
    if k == key {
      StepGoesOn(w, urlOk, key, e);
    } else {
      ChartStepSpares(w, urlOk, k, w.chartJobs[k], e, key);
    }
  }

  /** The measure (live proxies, terminating proxies, HelmChartProxy present) has not risen. */
  ghost predicate NotHigher(w: World, v: World, key: ObjectKey) {
    || |LiveIds(v.proxies, key)| < |LiveIds(w.proxies, key)|
    || (|LiveIds(v.proxies, key)| == |LiveIds(w.proxies, key)| &&
        (|DyingIds(v.proxies, key)| < |DyingIds(w.proxies, key)| ||
         (|DyingIds(v.proxies, key)| == |DyingIds(w.proxies, key)| && (key in v.charts ==> key in w.charts))))
  }

  lemma SubsetCard<T>(a: set<T>, b: set<T>)
    requires a <= b
    ensures |a| <= |b| && (|a| == |b| ==> a == b)
  {
    assert b == a + (b - a);
    assert |b| == |a| + |b - a|;
    if |a| == |b| {
      assert b - a == {};
    }
  }

  lemma NoneAddedIsNotHigher(w: World, v: World, key: ObjectKey)
    requires NoneAdded(w, v, key) && (key in v.charts ==> key in w.charts)
    ensures NotHigher(w, v, key) && LiveIds(v.proxies, key) <= LiveIds(w.proxies, key)
  {
    SubsetCard(LiveIds(v.proxies, key), LiveIds(w.proxies, key));
    if LiveIds(v.proxies, key) == LiveIds(w.proxies, key) {
      forall id <- DyingIds(v.proxies, key) ensures id in DyingIds(w.proxies, key) {
        assert id !in LiveIds(v.proxies, key);
      }
      SubsetCard(DyingIds(v.proxies, key), DyingIds(w.proxies, key));
    }
  }

  lemma NoneAddedOn(w: World, v: World, u: World, key: ObjectKey)
    requires NoneAdded(w, v, key) && NoneAdded(v, u, key)
    ensures NoneAdded(w, u, key)
  {
    forall id <- LabelledIds(u.proxies, key)
      ensures id in LabelledIds(w.proxies, key) && (w.proxies[id].deleting ==> u.proxies[id].deleting)
    {
      assert id in LabelledIds(v.proxies, key);
    }
  }

  lemma {:induction false} RunAddsNone(w: World, urlOk: string -> bool, actions: seq<Action>, key: ObjectKey)
    requires Sound(w, urlOk) && Closing(w, key) && forall a <- actions :: NotRecreated(a, key)
    ensures var v := Run(w, urlOk, actions);
      Sound(v, urlOk) && Closing(v, key) && NoneAdded(w, v, key) && (key in v.charts ==> key in w.charts)
    decreases |actions|
  {
    hide Sound, Closing, Apply, NoneAdded;
    if actions == [] {
      NoneAddedAtFirst(w, key);
    } else {
      var front, a := actions[..|actions| - 1], actions[|actions| - 1];
      RunAddsNone(w, urlOk, front, key);
      var v := Run(w, urlOk, front);
      assert NotRecreated(a, key);
      ApplyKeepsSound(v, urlOk, a);
      ApplyKeepsClosing(v, urlOk, a, key);
      ApplyAddsNone(v, urlOk, a, key);
      NoneAddedOn(w, v, Apply(v, urlOk, a), key);
    }
  }

  lemma NoneAddedAtFirst(w: World, key: ObjectKey)
    ensures NoneAdded(w, w, key)
  {
  }

  /** Once a HelmChartProxy is being deleted and its reconciles know it, no run raises the measure,
      whoever does what: no proxy is added, none comes back to life, and once the HelmChartProxy
      is gone it stays gone unless it is created anew. */
  lemma MeasureNeverRises(w: World, urlOk: string -> bool, actions: seq<Action>, key: ObjectKey)
    requires Sound(w, urlOk) && Closing(w, key) && forall a <- actions :: NotRecreated(a, key)
    ensures var v := Run(w, urlOk, actions);
      NotHigher(w, v, key) && LiveIds(v.proxies, key) <= LiveIds(w.proxies, key)
  {
    hide Sound, Closing, NoneAdded, Run;
    RunAddsNone(w, urlOk, actions, key);
    NoneAddedIsNotHigher(w, Run(w, urlOk, actions), key);
  }

  /* ---- a chart reconcile in which no call fails, however interleaved ---- */

  /** What may happen during it: anything but a failing call or a crash of the reconcile itself,
      and the HelmChartProxy being created anew. */
  predicate Clean(a: Action, key: ObjectKey) {
    && NotRecreated(a, key) && !(a.ChartCrash? && a.key == key)
    && (a.ChartReconcile? && a.key == key ==> a.chartEnv.apiOk)
  }

  /** How far the reconcile has come; `none` says that it found no proxy. */
  ghost predicate OnItsWay(w: World, key: ObjectKey, none: bool) {
    && key in w.chartJobs
    && var j := w.chartJobs[key];
       && j.base.finalizer && SelectorParses(j.base.spec.selector)
       && match j.pc
          case ListClusters => true
          case ListReleases(_) => true
          case Teardown(todelete, waiting, _) =>
            LiveIds(w.proxies, key) <= todelete && (none ==> todelete == {} && waiting == {})
          case TeardownCheck(todelete, waiting, _, id) => LiveIds(w.proxies, key) <= todelete && !none
          case DropFinalizer => LiveIds(w.proxies, key) == {} && !j.local.finalizer
          case _ => false
  }

  /** What it has achieved at its end. */
  ghost predicate PassDone(w: World, key: ObjectKey, none: bool) {
    LiveIds(w.proxies, key) == {} && (none ==> key !in w.charts)
  }

  ghost predicate InPass(w: World, urlOk: string -> bool, key: ObjectKey, none: bool) {
    && Sound(w, urlOk) && Closing(w, key) && (none ==> LabelledIds(w.proxies, key) == {})
    && (OnItsWay(w, key, none) || PassDone(w, key, none))
  }

  /** Steps of anyone else leave the reconcile where it is, and no more live proxies. */
  lemma OthersKeepPass(w: World, v: World, key: ObjectKey, none: bool)
    requires OnItsWay(w, key, none) && SameJob(w, v, key) && LiveIds(v.proxies, key) <= LiveIds(w.proxies, key)
    ensures OnItsWay(v, key, none)
  {
    hide SelectorParses, LiveIds;
  }

  lemma DoneStays(w: World, v: World, key: ObjectKey, none: bool)
    requires PassDone(w, key, none) && LiveIds(v.proxies, key) <= LiveIds(w.proxies, key)
    requires key in v.charts ==> key in w.charts
    ensures PassDone(v, key, none)
  {
  }

  lemma ListsStep(w: World, urlOk: string -> bool, key: ObjectKey, e: ChartEnv, none: bool)
    requires OnItsWay(w, key, none) && w.chartJobs[key].base.deleting && e.apiOk
    requires none ==> LabelledIds(w.proxies, key) == {}
    requires var pc := w.chartJobs[key].pc; pc.ListClusters? || pc.ListReleases?
    ensures OnItsWay(StepChart(w, urlOk, key, w.chartJobs[key], e), key, none)
  {
    var j := w.chartJobs[key];
    if j.pc.ListClusters? {
      assert StepChart(w, urlOk, key, j, e) == StepListClusters(w, key, j, e);
      hide StepChart, Selected, SelectorParses;
    } else {
      var listed := Listed(w.proxies, key);
      assert listed.Keys == LabelledIds(w.proxies, key);
      assert StepChart(w, urlOk, key, j, e) == Goto(w, key, j, ChartPc.Teardown(listed.Keys, {}, true));
      hide StepChart, SelectorParses;
    }
  }

  lemma DeletedIsNotLive(w: World, key: ObjectKey, id: ProxyId, todelete: set<ProxyId>)
    requires LiveIds(w.proxies, key) <= todelete
    ensures LiveIds(DeleteProxy(w, id).proxies, key) <= todelete - {id}
  {
    var v := DeleteProxy(w, id);
    forall i <- LiveIds(v.proxies, key) ensures i in todelete - {id} {
      assert i != id ==> i in LiveIds(w.proxies, key);
    }
  }

  lemma TeardownStepOn(w: World, urlOk: string -> bool, key: ObjectKey, e: ChartEnv, none: bool)
    requires OnItsWay(w, key, none) && w.chartJobs[key].pc.Teardown? && e.apiOk
    requires none ==> LabelledIds(w.proxies, key) == {}
    ensures var v := StepChart(w, urlOk, key, w.chartJobs[key], e); OnItsWay(v, key, none) || PassDone(v, key, none)
  {
    var j := w.chartJobs[key];
    assert StepChart(w, urlOk, key, j, e) == StepTeardown(w, key, j, e);
    hide StepChart, SelectorParses;
    if j.pc.todelete == {} {
    } else if e.id in j.pc.todelete {
      DeletedIsNotLive(w, key, e.id, j.pc.todelete);
      hide DeleteProxy, LiveIds;
    } else {
    }
  }

  lemma CheckStepOn(w: World, urlOk: string -> bool, key: ObjectKey, e: ChartEnv, none: bool)
    requires OnItsWay(w, key, none) && w.chartJobs[key].pc.TeardownCheck? && e.apiOk
    ensures OnItsWay(StepChart(w, urlOk, key, w.chartJobs[key], e), key, none)
  {
    var j := w.chartJobs[key];
    assert StepChart(w, urlOk, key, j, e) == StepTeardownCheck(w, key, j, e);
    hide StepChart, SelectorParses;
  }

  lemma DropStepOn(w: World, urlOk: string -> bool, key: ObjectKey, e: ChartEnv, none: bool)
    requires OnItsWay(w, key, none) && w.chartJobs[key].pc.DropFinalizer? && e.apiOk && Closing(w, key)
    ensures PassDone(StepChart(w, urlOk, key, w.chartJobs[key], e), key, none)
  {
    var j := w.chartJobs[key];
    assert StepChart(w, urlOk, key, j, e) == StepDropFinalizer(w, key, j, e);
    hide StepChart, SelectorParses;
  }

  lemma OwnStepOn(w: World, urlOk: string -> bool, key: ObjectKey, e: ChartEnv, none: bool)
    requires InPass(w, urlOk, key, none) && OnItsWay(w, key, none) && e.apiOk
    ensures var v := StepChart(w, urlOk, key, w.chartJobs[key], e); OnItsWay(v, key, none) || PassDone(v, key, none)
  {
    var pc := w.chartJobs[key].pc;
    assert w.chartJobs[key].base.deleting;
    hide StepChart, Sound;
    assert pc.ListClusters? || pc.ListReleases? || pc.Teardown? || pc.TeardownCheck? || pc.DropFinalizer?;
    if pc.ListClusters? || pc.ListReleases? {
      ListsStep(w, urlOk, key, e, none);
    } else if pc.Teardown? {
      TeardownStepOn(w, urlOk, key, e, none);
    } else if pc.TeardownCheck? {
      CheckStepOn(w, urlOk, key, e, none);
    } else {
      DropStepOn(w, urlOk, key, e, none);
    }
  }

  lemma ApplyKeepsPass(w: World, urlOk: string -> bool, a: Action, key: ObjectKey, none: bool)
    requires InPass(w, urlOk, key, none) && Clean(a, key)
    ensures InPass(Apply(w, urlOk, a), urlOk, key, none)
  {
    var v := Apply(w, urlOk, a);
    hide Sound, StepChart, OnItsWay, NoneAdded, Closing;
    ApplyKeepsSound(w, urlOk, a);
    ApplyKeepsClosing(w, urlOk, a, key);
    ApplyAddsNone(w, urlOk, a, key);
    NoneAddedIsNotHigher(w, v, key);
    NoneAddedKeepsNone(w, v, key);
    if PassDone(w, key, none) {
      DoneStays(w, v, key, none);
    } else if a.ChartReconcile? && a.key == key {
      InFlightHere(w, key, none);
      OwnStepOn(w, urlOk, key, a.chartEnv, none);
    } else {
      JobUntouched(w, urlOk, a, key);
      hide Apply;
      OthersKeepPass(w, v, key, none);
    }
  }

  lemma InFlightHere(w: World, key: ObjectKey, none: bool)
    requires OnItsWay(w, key, none)
    ensures key in w.chartJobs
  {
  }

  lemma NoneAddedKeepsNone(w: World, v: World, key: ObjectKey)
    requires NoneAdded(w, v, key)
    ensures LabelledIds(w.proxies, key) == {} ==> LabelledIds(v.proxies, key) == {}
  {
  }

  lemma {:induction false} RunKeepsPass(w: World, urlOk: string -> bool, actions: seq<Action>, key: ObjectKey,
                                        none: bool)
    requires InPass(w, urlOk, key, none) && forall a <- actions :: Clean(a, key)
    ensures InPass(Run(w, urlOk, actions), urlOk, key, none)
    decreases |actions|
  {
    hide InPass, Apply, Clean;
    if actions != [] {
      var front := actions[..|actions| - 1];
      RunKeepsPass(w, urlOk, front, key, none);
      assert Clean(actions[|actions| - 1], key);
      ApplyKeepsPass(Run(w, urlOk, front), urlOk, actions[|actions| - 1], key, none);
    }
  }

  lemma PassBegins(w: World, urlOk: string -> bool, key: ObjectKey, e: ChartEnv)
    requires Dying(w, urlOk, key) && ConditionsInv(w)
    ensures InPass(Apply(w, urlOk, ChartReconcile(key, e)), urlOk, key, LabelledIds(w.proxies, key) == {})
  {
    DyingHasFinalizer(w, urlOk, key);
    ApplyKeepsSound(w, urlOk, ChartReconcile(key, e));
    hide Inv, ConditionsInv, SelectorParses;
  }

  /** A chart reconcile that starts on a HelmChartProxy being deleted and ends with no failed call,
      whatever anyone else does meanwhile. */
  ghost predicate CleanPass(w: World, urlOk: string -> bool, key: ObjectKey, e: ChartEnv, rest: seq<Action>, v: World) {
    && Dying(w, urlOk, key) && ConditionsInv(w) && (forall a <- rest :: Clean(a, key))
    && v == Run(Apply(w, urlOk, ChartReconcile(key, e)), urlOk, rest) && key !in v.chartJobs
  }

  /** Every such reconcile leaves no proxy undeleted, and takes the HelmChartProxy away if it had
      no proxies. */
  lemma EveryCleanPass(w: World, urlOk: string -> bool, key: ObjectKey, e: ChartEnv, rest: seq<Action>, v: World)
    requires CleanPass(w, urlOk, key, e, rest, v)
    ensures LiveIds(v.proxies, key) == {} && (LabelledIds(w.proxies, key) == {} ==> key !in v.charts)
    ensures Sound(v, urlOk) && Closing(v, key) && LabelledIds(v.proxies, key) <= LabelledIds(w.proxies, key)
    ensures LiveIds(w.proxies, key) != {} || LabelledIds(w.proxies, key) == {} ==> Lower(w, v, key)
  {
    var w1 := Apply(w, urlOk, ChartReconcile(key, e));
    var none := LabelledIds(w.proxies, key) == {};
    PassBegins(w, urlOk, key, e);
    StartLeavesProxies(w, urlOk, key, e);
    RunKeepsPass(w1, urlOk, rest, key, none);
    assert PassDone(v, key, none);
    CleanRunAddsNone(w1, urlOk, rest, key);
    hide Dying, Sound, Closing, OnItsWay, Run, Apply;
    assert LabelledIds(v.proxies, key) <= LabelledIds(w.proxies, key);
    if LiveIds(w.proxies, key) != {} || LabelledIds(w.proxies, key) == {} {
      DoneIsLower(w, v, key);
    }
  }

  lemma StartLeavesProxies(w: World, urlOk: string -> bool, key: ObjectKey, e: ChartEnv)
    requires Dying(w, urlOk, key)
    ensures Apply(w, urlOk, ChartReconcile(key, e)).proxies == w.proxies && key in w.charts
  {
    hide Inv;
  }

  lemma CleanRunAddsNone(w: World, urlOk: string -> bool, rest: seq<Action>, key: ObjectKey)
    requires Sound(w, urlOk) && Closing(w, key) && forall a <- rest :: Clean(a, key)
    ensures LabelledIds(Run(w, urlOk, rest).proxies, key) <= LabelledIds(w.proxies, key)
  {
    hide Sound, Closing, Run;
    forall a <- rest ensures NotRecreated(a, key) {
      assert Clean(a, key);
    }
    RunAddsNone(w, urlOk, rest, key);
  }

  lemma DoneIsLower(w: World, v: World, key: ObjectKey)
    requires LiveIds(v.proxies, key) == {} && key in w.charts
    requires LabelledIds(v.proxies, key) <= LabelledIds(w.proxies, key)
    requires LiveIds(w.proxies, key) != {} || (LabelledIds(w.proxies, key) == {} && key !in v.charts)
    ensures Lower(w, v, key)
  {
    if LiveIds(w.proxies, key) == {} {
      assert DyingIds(v.proxies, key) == {} == DyingIds(w.proxies, key);
    } else {
      assert |LiveIds(v.proxies, key)| == 0;
    }
  }

  /* ---- terminating proxies, however interleaved ---- */

  /** What may happen while a terminating proxy drains: anything but a failing call or a crash of
      its own reconcile. */
  predicate Lets(a: Action, id: ProxyId) {
    && (a.ReleaseReconcile? && a.id == id ==> D.Smooth(a.releaseEnv))
    && !(a.ReleaseCrash? && a.id == id)
  }

  /** The cluster goes away: an uninstall under way fails, and the reconcile has to start again. */
  predicate Loss(a: Action, cluster: ObjectKey) {
    a.ClusterChanges? && a.cluster == cluster && a.state.None?
  }

  function Losses(actions: seq<Action>, cluster: ObjectKey): nat {
    if actions == [] then 0
    else Losses(actions[..|actions| - 1], cluster) + if Loss(actions[|actions| - 1], cluster) then 1 else 0
  }

  predicate IsOwnStep(a: Action, id: ProxyId) {
    a.ReleaseReconcile? && a.id == id
  }

  /** How many steps of its own reconcile a run makes. */
  function OwnSteps(actions: seq<Action>, id: ProxyId): nat {
    if actions == [] then 0
    else OwnSteps(actions[..|actions| - 1], id) + if IsOwnStep(actions[|actions| - 1], id) then 1 else 0
  }

  /** The reconcile of `id` is where it was, and the cluster is still there if it was. */
  ghost predicate SameReleaseJob(w: World, v: World, id: ProxyId, a: Action, cluster: ObjectKey) {
    && (id in v.releaseJobs <==> id in w.releaseJobs)
    && (id in w.releaseJobs ==> v.releaseJobs[id] == w.releaseJobs[id])
    && (cluster in w.clusters && !Loss(a, cluster) ==> cluster in v.clusters)
  }

  lemma OutsideLeavesJob(w: World, urlOk: string -> bool, a: Action, id: ProxyId, cluster: ObjectKey)
    requires Lets(a, id) && (Elsewhere(a) || a.DeleteProxyByHand?)
    ensures SameReleaseJob(w, Apply(w, urlOk, a), id, a, cluster)
  {
    hide ValidateChartCreate, ValidateChartUpdate, DefaultChart, KeysOn, PutChart, Stamp, Put;
    match a
    case CreateChart(_, _, _) =>
    case UpdateChart(_, _, _) =>
    case DeleteChart(_) =>
    case DeleteProxyByHand(_) =>
    case ClusterChanges(_, _) =>
    case ReleaseChanges(_, _) =>
    case ChartCrash(_) =>
    case ReleaseCrash(_) =>
  }

  lemma OthersLeaveJob(w: World, urlOk: string -> bool, a: Action, id: ProxyId, cluster: ObjectKey)
    requires Lets(a, id) && !IsOwnStep(a, id)
    ensures SameReleaseJob(w, Apply(w, urlOk, a), id, a, cluster)
  {
    hide StepChart, StepRelease, StartRelease;
    if Elsewhere(a) || a.DeleteProxyByHand? {
      OutsideLeavesJob(w, urlOk, a, id, cluster);
    } else if a.ChartReconcile? {
      if a.key in w.chartJobs {
        ChartStepEffect(w, urlOk, a.key, w.chartJobs[a.key], a.chartEnv);
        hide Stamp, Put, NewProxy, Overwrite, UpdateAccepted;
      }
    } else if a.id in w.releaseJobs {
      D.ReleaseStepFrames(w, a.id, w.releaseJobs[a.id], a.releaseEnv);
      assert id in w.releaseJobs <==> id in w.releaseJobs - {a.id};
    }
  }

  /** Only the loss of the cluster sets a reconcile back, by no more than five steps. */
  lemma SameJobSameStage(w: World, v: World, id: ProxyId, a: Action, cluster: ObjectKey)
    requires SameReleaseJob(w, v, id, a, cluster) && id in w.proxies
    requires id in w.releaseJobs ==> w.releaseJobs[id].base.spec.cluster == cluster
    ensures D.Stage(v, id) <= D.Stage(w, id) + if Loss(a, cluster) then 5 else 0
  {
  }

  /** Gone for good, or terminating and within `n` steps of being gone. */
  ghost predicate Draining(w: World, urlOk: string -> bool, id: ProxyId, cluster: ObjectKey, n: int) {
    && Inv(w, urlOk) && id < w.clock
    && (id in w.proxies ==>
          w.proxies[id].deleting && w.proxies[id].spec.cluster == cluster && D.Stage(w, id) <= n)
  }

  lemma StillTerminating(w: World, urlOk: string -> bool, a: Action, id: ProxyId)
    requires Inv(w, urlOk) && id in w.proxies && w.proxies[id].deleting && id in Apply(w, urlOk, a).proxies
    ensures Apply(w, urlOk, a).proxies[id].deleting
    ensures Apply(w, urlOk, a).proxies[id].spec.cluster == w.proxies[id].spec.cluster
  {
    hide Apply, Inv;
    NoLostUpdates(w, urlOk, a, id);
  }

  lemma JobNamesCluster(w: World, urlOk: string -> bool, id: ProxyId)
    requires Inv(w, urlOk) && id in w.proxies && id in w.releaseJobs
    ensures w.releaseJobs[id].base.spec.cluster == w.proxies[id].spec.cluster
  {
    D.JobOfInv(w, urlOk, id);
    hide Inv;
  }

  /** What an action adds to the steps that are left. */
  function Cost(a: Action, id: ProxyId, cluster: ObjectKey): int {
    if IsOwnStep(a, id) then -1 else if Loss(a, cluster) then 5 else 0
  }

  lemma ApplyDrains(w: World, urlOk: string -> bool, a: Action, id: ProxyId, cluster: ObjectKey, n: int)
    requires Draining(w, urlOk, id, cluster, n) && Lets(a, id)
    ensures Draining(Apply(w, urlOk, a), urlOk, id, cluster, n + Cost(a, id, cluster))
  {
    hide Inv, Apply, D.Stage, Loss, SameReleaseJob;
    var v := Apply(w, urlOk, a);
    ApplyKeepsInv(w, urlOk, a);
    ApplyAdds(w, urlOk, a);
    if id in w.proxies {
      if id in v.proxies {
        StillTerminating(w, urlOk, a, id);
      }
      if IsOwnStep(a, id) {
        D.StageFalls(w, urlOk, id, a.releaseEnv);
      } else {
        if id in w.releaseJobs {
          JobNamesCluster(w, urlOk, id);
        }
        OthersLeaveJob(w, urlOk, a, id, cluster);
        SameJobSameStage(w, v, id, a, cluster);
      }
    } else {
      GoneStaysGone(w, urlOk, a, id);
    }
  }

  lemma {:induction false} RunDrains(w: World, urlOk: string -> bool, actions: seq<Action>, id: ProxyId,
                                     cluster: ObjectKey, n: int)
    requires Draining(w, urlOk, id, cluster, n) && forall a <- actions :: Lets(a, id)
    ensures Draining(Run(w, urlOk, actions), urlOk, id, cluster,
                     n - OwnSteps(actions, id) + 5 * Losses(actions, cluster))
    decreases |actions|
  {
    hide Draining, Apply, Lets;
    if actions != [] {
      var front, a := actions[..|actions| - 1], actions[|actions| - 1];
      RunDrains(w, urlOk, front, id, cluster, n);
      assert Lets(a, id);
      ApplyDrains(Run(w, urlOk, front), urlOk, a, id, cluster,
                  n - OwnSteps(front, id) + 5 * Losses(front, cluster));
    }
  }

  /** A terminating proxy is gone, for good, after twelve steps of its own reconcile in which
      nothing fails, and five more for each time that its cluster goes away, whatever was in
      flight and whatever anyone else does in between. */
  lemma DrainsUnderEverySchedule(w: World, urlOk: string -> bool, actions: seq<Action>, id: ProxyId)
    requires Inv(w, urlOk) && id in w.proxies && w.proxies[id].deleting
    requires forall a <- actions :: Lets(a, id)
    requires OwnSteps(actions, id) >= 12 + 5 * Losses(actions, w.proxies[id].spec.cluster)
    ensures id !in Run(w, urlOk, actions).proxies
  {
    var cluster := w.proxies[id].spec.cluster;
    DrainBegins(w, urlOk, id);
    hide Draining, Run, Lets, OwnSteps, Losses;
    RunDrains(w, urlOk, actions, id, cluster, 12);
    DrainEnds(Run(w, urlOk, actions), urlOk, id, cluster, 12 - OwnSteps(actions, id) + 5 * Losses(actions, cluster));
  }

  lemma DrainBegins(w: World, urlOk: string -> bool, id: ProxyId)
    requires Inv(w, urlOk) && id in w.proxies && w.proxies[id].deleting
    ensures Draining(w, urlOk, id, w.proxies[id].spec.cluster, 12)
  {
    D.StageIsBounded(w, id);
    ProxyIsOk(w, urlOk, id);
    hide Inv, D.Stage;
  }

  lemma DrainEnds(w: World, urlOk: string -> bool, id: ProxyId, cluster: ObjectKey, n: int)
    requires Draining(w, urlOk, id, cluster, n) && n <= 0
    ensures id !in w.proxies
  {
    D.StageIsBounded(w, id);
    hide Inv, D.Stage;
  }

  /* ---- fair teardown ---- */

  /** What may happen between the two chart reconciles: every terminating proxy makes its steps,
      and nobody edits the HelmChartProxy or creates it anew. */
  ghost predicate FairDrain(w: World, key: ObjectKey, actions: seq<Action>) {
    && (forall a <- actions :: NotRecreated(a, key) && !(a.UpdateChart? && a.key == key))
    && (forall id <- LabelledIds(w.proxies, key) ::
          && OwnSteps(actions, id) >= 12 + 5 * Losses(actions, w.proxies[id].spec.cluster)
          && forall a <- actions :: Lets(a, id))
  }

  lemma {:induction false} SpecStays(w: World, urlOk: string -> bool, actions: seq<Action>, key: ObjectKey)
    requires Sound(w, urlOk) && Closing(w, key)
    requires forall a <- actions :: NotRecreated(a, key) && !(a.UpdateChart? && a.key == key)
    ensures var v := Run(w, urlOk, actions);
      && Sound(v, urlOk) && Closing(v, key)
      && (key in v.charts ==> key in w.charts && v.charts[key].spec == w.charts[key].spec)
    decreases |actions|
  {
    hide Sound, Closing, Apply;
    if actions != [] {
      var front, a := actions[..|actions| - 1], actions[|actions| - 1];
      SpecStays(w, urlOk, front, key);
      var v := Run(w, urlOk, front);
      assert NotRecreated(a, key) && !(a.UpdateChart? && a.key == key);
      ApplyKeepsSound(v, urlOk, a);
      ApplyKeepsClosing(v, urlOk, a, key);
    }
  }

  /** After a fair drain no proxy of the HelmChartProxy is left. */
  lemma FairDrainEmpties(w: World, urlOk: string -> bool, key: ObjectKey, actions: seq<Action>)
    requires Sound(w, urlOk) && Closing(w, key) && LiveIds(w.proxies, key) == {} && FairDrain(w, key, actions)
    ensures LabelledIds(Run(w, urlOk, actions).proxies, key) == {}
  {
    var v := Run(w, urlOk, actions);
    forall a <- actions ensures NotRecreated(a, key) {
    }
    RunAddsNone(w, urlOk, actions, key);
    hide Run, Inv, ConditionsInv, NotRecreated, Lets;
    forall id <- LabelledIds(v.proxies, key) ensures false {
      assert id in LabelledIds(w.proxies, key) && id !in LiveIds(w.proxies, key);
      DrainsUnderEverySchedule(w, urlOk, actions, id);
    }
  }

  /** Every fair schedule completes the teardown: after a chart reconcile, steps in which each
      proxy gets its turns, and another chart reconcile, each without failures but interleaved
      with anything else, the HelmChartProxy and all its proxies are gone. */
  lemma EveryFairTeardownCompletes(
    w: World, urlOk: string -> bool, key: ObjectKey, e1: ChartEnv, pass1: seq<Action>, w1: World,
    drain: seq<Action>, w2: World, e2: ChartEnv, pass2: seq<Action>, w3: World)
    requires CleanPass(w, urlOk, key, e1, pass1, w1)
    requires key in w1.charts ==> SelectorParses(w1.charts[key].spec.selector)
    requires FairDrain(w1, key, drain) && w2 == Run(w1, urlOk, drain) && key !in w2.chartJobs
    requires (forall a <- pass2 :: Clean(a, key)) && key !in w3.chartJobs
    requires w3 == Run(Apply(w2, urlOk, ChartReconcile(key, e2)), urlOk, pass2)
    ensures key !in w3.charts && LabelledIds(w3.proxies, key) == {}
  {
    EveryCleanPass(w, urlOk, key, e1, pass1, w1);
    FairDrainEmpties(w1, urlOk, key, drain);
    SpecStays(w1, urlOk, drain, key);
    hide Run, Apply, FairDrain, CleanPass, Clean, Lower;
    if key in w2.charts {
      assert Dying(w2, urlOk, key) by {
        hide Inv, ConditionsInv;
      }
      assert CleanPass(w2, urlOk, key, e2, pass2, w3) by {
        CleanPassIs(w2, urlOk, key, e2, pass2, w3);
      }
      EveryCleanPass(w2, urlOk, key, e2, pass2, w3);
    } else {
      AlreadyGone(w2, urlOk, key, e2, pass2, w3);
    }
  }

  lemma CleanPassIs(w: World, urlOk: string -> bool, key: ObjectKey, e: ChartEnv, rest: seq<Action>, v: World)
    requires Dying(w, urlOk, key) && ConditionsInv(w) && (forall a <- rest :: Clean(a, key))
    requires v == Run(Apply(w, urlOk, ChartReconcile(key, e)), urlOk, rest) && key !in v.chartJobs
    ensures CleanPass(w, urlOk, key, e, rest, v)
  {
  }

  lemma AlreadyGone(w: World, urlOk: string -> bool, key: ObjectKey, e: ChartEnv, rest: seq<Action>, v: World)
    requires Sound(w, urlOk) && key !in w.charts && key !in w.chartJobs && LabelledIds(w.proxies, key) == {}
    requires (forall a <- rest :: Clean(a, key)) && v == Run(Apply(w, urlOk, ChartReconcile(key, e)), urlOk, rest)
    ensures key !in v.charts && LabelledIds(v.proxies, key) == {}
  {
    assert Apply(w, urlOk, ChartReconcile(key, e)) == w;
    forall a <- rest ensures NotRecreated(a, key) {
      assert Clean(a, key);
    }
    assert Closing(w, key);
    hide Sound, Closing, Run, Apply;
    RunAddsNone(w, urlOk, rest, key);
    NoneAddedKeepsNone(w, v, key);
  }

  /** A HelmChartProxy whose selector has not parsed so far: no reconcile of it has set the
      finalizer, and none is about to. */
  ghost predicate NeverStarted(w: World, key: ObjectKey) {
    && (key in w.charts ==> !w.charts[key].finalizer && !w.charts[key].deleting &&
                            !SelectorParses(w.charts[key].spec.selector))
    && (key in w.chartJobs ==>
          var j := w.chartJobs[key];
          && !j.local.finalizer && !j.base.finalizer
          && (j.pc.FinishChart? || (j.pc.ListClusters? && !SelectorParses(j.base.spec.selector))))
  }

  lemma NeverStartedReconcile(w: World, urlOk: string -> bool, key: ObjectKey, e: ChartEnv)
    requires NeverStarted(w, key)
    ensures NeverStarted(Apply(w, urlOk, ChartReconcile(key, e)), key)
  {
    hide SelectorParses, Selected, Summary;
    if key in w.chartJobs {
      var j := w.chartJobs[key];
      if j.pc.FinishChart? {
        assert StepChart(w, urlOk, key, j, e) == StepFinishChart(w, key, j, e);
      } else {
        assert StepChart(w, urlOk, key, j, e) == StepListClusters(w, key, j, e);
      }
    }
  }

  /** Nothing but an edit of its selector starts it. */
  lemma NeverStartedStep(w: World, urlOk: string -> bool, key: ObjectKey, a: Action)
    requires NeverStarted(w, key) && !((a.UpdateChart? || a.CreateChart?) && a.key == key)
    ensures NeverStarted(Apply(w, urlOk, a), key)
  {
    if a.ChartReconcile? && a.key == key {
      NeverStartedReconcile(w, urlOk, key, a.chartEnv);
    } else if a.ChartReconcile? || a.ReleaseReconcile? || a.DeleteProxyByHand? {
      ControllersSpare(w, urlOk, a, key);
    } else {
      UsersLeaveUnstarted(w, urlOk, a, key);
    }
  }

  lemma UsersLeaveUnstarted(w: World, urlOk: string -> bool, a: Action, key: ObjectKey)
    requires NeverStarted(w, key) && !((a.UpdateChart? || a.CreateChart?) && a.key == key)
    requires !a.ChartReconcile? && !a.ReleaseReconcile? && !a.DeleteProxyByHand?
    ensures NeverStarted(Apply(w, urlOk, a), key)
  {
    hide SelectorParses, ValidateChartCreate, ValidateChartUpdate, DefaultChart, KeysOn;
  }

  /** A step of anyone else's reconcile leaves the HelmChartProxy and its reconcile alone. */
  lemma ControllersSpare(w: World, urlOk: string -> bool, a: Action, key: ObjectKey)
    requires (a.ChartReconcile? && a.key != key) || a.ReleaseReconcile? || a.DeleteProxyByHand?
    ensures var v := Apply(w, urlOk, a); Spares(w, v, key)
  {
    hide StepChart, StepRelease, StartRelease, WriteProxy;
    if a.ChartReconcile? {
      if a.key in w.chartJobs {
        ChartStepSpares(w, urlOk, a.key, w.chartJobs[a.key], a.chartEnv, key);
      }
    } else if a.ReleaseReconcile? {
      if a.id in w.releaseJobs {
        D.ReleaseStepFrames(w, a.id, w.releaseJobs[a.id], a.releaseEnv);
      }
    } else {
      DeleteKeepsCharts(w, a.id);
    }
  }

  /** An edit to a selector that does not parse. */
  predicate BadEdit(a: Action, key: ObjectKey) {
    a.UpdateChart? && a.key == key && !SelectorParses(a.spec.selector)
  }

  /** The selector parses, or no reconcile has begun to serve the HelmChartProxy. */
  ghost predicate NotStuckYet(w: World, key: ObjectKey) {
    key in w.charts && !SelectorParses(w.charts[key].spec.selector) ==> NeverStarted(w, key)
  }

  lemma NotStuckYetStep(w: World, urlOk: string -> bool, key: ObjectKey, a: Action)
    requires NotStuckYet(w, key) && !BadEdit(a, key)
    ensures NotStuckYet(Apply(w, urlOk, a), key)
  {
    if (a.UpdateChart? || a.CreateChart?) && a.key == key {
      EditsLeaveUnstuck(w, urlOk, a, key);
    } else if NeverStarted(w, key) {
      hide NeverStarted;
      NeverStartedStep(w, urlOk, key, a);
    } else {
      ParsableStays(w, urlOk, a, key);
    }
  }

  lemma EditsLeaveUnstuck(w: World, urlOk: string -> bool, a: Action, key: ObjectKey)
    requires NotStuckYet(w, key) && !BadEdit(a, key) && (a.UpdateChart? || a.CreateChart?) && a.key == key
    ensures NotStuckYet(Apply(w, urlOk, a), key)
  {
    hide SelectorParses, ValidateChartCreate, ValidateChartUpdate, DefaultNamespace, DefaultOptions;
  }

  /** The selector changes only by an edit. */
  lemma ParsableStays(w: World, urlOk: string -> bool, a: Action, key: ObjectKey)
    requires key in w.charts ==> SelectorParses(w.charts[key].spec.selector)
    requires !((a.UpdateChart? || a.CreateChart?) && a.key == key)
    ensures var v := Apply(w, urlOk, a); key in v.charts ==> SelectorParses(v.charts[key].spec.selector)
  {
    if a.ChartReconcile? && a.key == key {
      if key in w.chartJobs {
        ChartStepOnlyPatches(w, urlOk, key, a.chartEnv);
        hide StepChart, SelectorParses;
      }
    } else if a.ChartReconcile? || a.ReleaseReconcile? || a.DeleteProxyByHand? {
      ControllersSpare(w, urlOk, a, key);
      hide Apply, SelectorParses;
    } else {
      hide SelectorParses, ValidateChartCreate, ValidateChartUpdate, DefaultChart, KeysOn;
    }
  }

  /** Only such an edit ever blocks a teardown: a run without one, from a fresh system in which no
      HelmChartProxy with an unparsable selector has the finalizer, does not end in `Stuck`, and a
      HelmChartProxy whose selector does not parse then goes at once when it is deleted. */
  lemma {:induction false} OnlyABadEditSticks(start: World, urlOk: string -> bool, key: ObjectKey, actions: seq<Action>)
    requires Init(start, urlOk)
    requires key in start.charts && start.charts[key].finalizer ==> SelectorParses(start.charts[key].spec.selector)
    requires forall a <- actions :: !BadEdit(a, key)
    ensures var v := Run(start, urlOk, actions);
      && !Stuck(v, key)
      && (key in v.charts && !SelectorParses(v.charts[key].spec.selector) ==>
            key !in Apply(v, urlOk, DeleteChart(key)).charts)
  {
    NotStuckYetRun(start, urlOk, key, actions);
    hide Run, SelectorParses;
  }

  lemma {:induction false} NotStuckYetRun(start: World, urlOk: string -> bool, key: ObjectKey, actions: seq<Action>)
    requires Init(start, urlOk)
    requires key in start.charts && start.charts[key].finalizer ==> SelectorParses(start.charts[key].spec.selector)
    requires forall a <- actions :: !BadEdit(a, key)
    ensures NotStuckYet(Run(start, urlOk, actions), key)
    decreases |actions|
  {
    if actions != [] {
      hide Apply, NotStuckYet, BadEdit, Init;
      var butLast := actions[..|actions| - 1];
      NotStuckYetRun(start, urlOk, key, butLast);
      NotStuckYetStep(Run(start, urlOk, butLast), urlOk, key, actions[|actions| - 1]);
    }
  }
}
