/** InstallOnce from end to end: the first reconcile that gets a deployed release back marks the
    proxy, nothing else ever does, and from then on no run calls Helm for it. */
module InstallOnce {
  import opened Types
  import opened Helm
  import opened ReleaseFlow
  import opened Phases
  import opened Machine
  import opened StoreInvariant
  import opened Invariant
  import opened Runs
  import opened Liveness
  import opened ReleaseInvariant
  import opened ContentInvariant
  import C = ReleaseController
  import D = Drain

  /** A live InstallOnce proxy, not yet marked as installed. */
  ghost predicate Pending(w: World, id: ProxyId) {
    Alive(w, id) && w.proxies[id].spec.strategy == Strategy.InstallOnce && w.proxies[id].annotations.installed.None?
  }

  /** Exactly which reconciles mark the proxy: those whose call came back with a deployed release,
      with or without an error. From then on it is frozen: whatever happens, Helm is never called
      for it again, and its spec stays. */
  lemma MarkedExactlyWhen(w: World, urlOk: string -> bool, id: ProxyId, env: ReleasePc -> ReleaseEnv, v: World)
    requires Inv(w, urlOk) && Pending(w, id) && Answers(w, id) && id !in w.releaseJobs && Smooth(env)
    requires C.OnTheWay(C.Begun(w, id), id, env, v) && id !in v.releaseJobs
    ensures var o := InstallOrUpgrade(w.releases, w.proxies[id].spec, env(CallHelm).helm).outcome;
      && v.history.log == w.history.log + [Applied(id, Call(w.proxies[id].spec, o))]
      && id in v.proxies && (v.proxies[id].annotations.installed.Some? <==> CameBackDeployed(o))
      && (CameBackDeployed(o) ==>
            forall actions :: var u := Run(v, urlOk, actions);
              && CallsOf(u.history.log, id) == CallsOf(w.history.log, id) + 1
              && (id in u.proxies ==>
                    u.proxies[id].spec == v.proxies[id].spec && u.proxies[id].annotations.installed.Some?))
  {
    hide Inv, InstallOrUpgrade, C.OnTheWay, C.Begun;
    EverySmoothReconcile(w, urlOk, id, env, v);
    var o := InstallOrUpgrade(w.releases, w.proxies[id].spec, env(CallHelm).helm).outcome;
    OneMoreCall(w.history.log, Applied(id, Call(w.proxies[id].spec, o)), id);
    if CameBackDeployed(o) {
      MarkedIsFrozen(v, urlOk, id);
      forall actions
        ensures Frozen(Run(v, urlOk, actions), id, v.proxies[id].spec)
        ensures CallsOf(Run(v, urlOk, actions).history.log, id) == CallsOf(v.history.log, id)
      {
        InstallOnceFreezes(v, urlOk, id, v.proxies[id].spec, actions);
      }
    }
  }

  lemma OneMoreCall(log: seq<Event>, e: Event, id: ProxyId)
    requires e.Applied? && e.id == id
    ensures CallsOf(log + [e], id) == CallsOf(log, id) + 1
  {
    assert (log + [e])[..|log|] == log;
  }

  /* ---- the mark is honest ---- */

  /** Some call for the proxy came back with a deployed release. */
  ghost predicate WasDeployed(log: seq<Event>, id: ProxyId) {
    exists e <- log :: e.Applied? && e.id == id && CameBackDeployed(e.call.outcome)
  }

  ghost predicate Honest(w: World) {
    forall id <- w.proxies :: w.proxies[id].annotations.installed.Some? ==> WasDeployed(w.history.log, id)
  }

  /** The log only grows, and no proxy gets the mark. */
  ghost predicate NoMark(w: World, v: World) {
    && w.history.log <= v.history.log
    && forall id <- v.proxies | v.proxies[id].annotations.installed.Some? ::
         id in w.proxies && w.proxies[id].annotations.installed.Some?
  }

  lemma NoMarkIsHonest(w: World, v: World)
    requires Honest(w) && NoMark(w, v)
    ensures Honest(v)
  {
    forall id <- v.proxies | v.proxies[id].annotations.installed.Some? ensures WasDeployed(v.history.log, id) {
      var e :| e in w.history.log && e.Applied? && e.id == id && CameBackDeployed(e.call.outcome);
      assert e in v.history.log;
    }
  }

  lemma WriteMarksNothing(w: World, id: ProxyId, next: ReleaseProxy)
    requires id in w.proxies && next.annotations == w.proxies[id].annotations
    ensures NoMark(w, WriteProxy(w, id, next))
  {
  }

  lemma AlikeMarksNothing(w: World, u: World, v: World)
    requires NoMark(w, u) && Alike(u, v)
    ensures NoMark(w, v)
  {
  }

  lemma ChartStepMarksNothing(w: World, urlOk: string -> bool, key: ObjectKey, e: ChartEnv)
    requires Inv(w, urlOk) && key in w.chartJobs
    ensures NoMark(w, StepChart(w, urlOk, key, w.chartJobs[key], e))
  {
    var j := w.chartJobs[key];
    var v := StepChart(w, urlOk, key, j, e);
    ChartStepEffect(w, urlOk, key, j, e);
    InFlightAt(w, urlOk, key);
    assert NoMark(w, w);
    hide StepChart, Inv, At, Alike, NoMark, DeleteProxy, WriteProxy, Created, UpdateAccepted;
    if Alike(w, v) {
      AlikeMarksNothing(w, w, v);
    } else if j.pc.CreateProxy? {
      NewIsUnmarked(w, urlOk, key, j);
      AlikeMarksNothing(w, Created(w, key, j.pc.cluster, j.base.spec, j.pc.proxy), v);
    } else if j.pc.UpdateProxy? {
      UpdateMarksNothing(w, urlOk, key, j);
      AlikeMarksNothing(w, WriteProxy(w, j.pc.id, Overwrite(w.proxies[j.pc.id], j.pc.proxy)), v);
    } else {
      DeleteMarksNothing(w, Victim(j, e));
      AlikeMarksNothing(w, DeleteProxy(w, Victim(j, e)), v);
    }
  }

  lemma InFlightAt(w: World, urlOk: string -> bool, key: ObjectKey)
    requires Inv(w, urlOk) && key in w.chartJobs
    ensures At(w, urlOk, key, w.chartJobs[key])
  {
    hide ReleaseSide;
  }

  lemma DeleteMarksNothing(w: World, id: ProxyId)
    ensures NoMark(w, DeleteProxy(w, id))
  {
    if id in w.proxies {
      WriteMarksNothing(w, id, w.proxies[id].(deleting := true));
    }
    hide WriteProxy;
  }

  lemma UpdateMarksNothing(w: World, urlOk: string -> bool, key: ObjectKey, j: ChartJob)
    requires At(w, urlOk, key, j) && j.pc.UpdateProxy? && UpdateAccepted(w, j.pc.id, j.pc.proxy)
    ensures j.pc.id in w.proxies && NoMark(w, WriteProxy(w, j.pc.id, Overwrite(w.proxies[j.pc.id], j.pc.proxy)))
  {
    UpdateIsForeign(w, urlOk, key, j);
    WriteMarksNothing(w, j.pc.id, Overwrite(w.proxies[j.pc.id], j.pc.proxy));
    hide WriteProxy, NoMark;
  }

  lemma NewIsUnmarked(w: World, urlOk: string -> bool, key: ObjectKey, j: ChartJob)
    requires At(w, urlOk, key, j) && j.pc.CreateProxy?
    ensures NoMark(w, Created(w, key, j.pc.cluster, j.base.spec, j.pc.proxy))
  {
    JobIsOk(w, urlOk, key, j);
  }

  /** A reconcile's patch sets the mark only if its own call came back with a deployed release. */
  lemma MergedMark(stored: ReleaseProxy, j: ReleaseJob)
    requires Shape(j) && Follows(j.base, stored)
    ensures MergePatch(stored, j.base, j.local).annotations.installed.Some? ==>
      stored.annotations.installed.Some? || (j.call.Some? && CameBackDeployed(j.call.value.outcome))
  {
    hide MergeSpec, PatchedStatus;
  }

  lemma CallIsLogged(w: World, urlOk: string -> bool, id: ProxyId)
    requires Inv(w, urlOk) && id in w.releaseJobs && w.releaseJobs[id].call.Some?
    requires CameBackDeployed(w.releaseJobs[id].call.value.outcome)
    ensures WasDeployed(w.history.log, id)
  {
    assert Applied(id, w.releaseJobs[id].call.value) in w.history.log;
    hide Inv;
  }

  lemma PatchIsHonest(w: World, urlOk: string -> bool, id: ProxyId, j: ReleaseJob)
    requires Inv(w, urlOk) && id in w.releaseJobs && w.releaseJobs[id] == j && id in w.proxies && Honest(w)
    ensures forall i | i in PatchProxy(w, id, j).proxies ::
      PatchProxy(w, id, j).proxies[i].annotations.installed.Some? ==> WasDeployed(w.history.log, i)
  {
    hide Inv, MergePatch, WasDeployed;
    D.JobOfInv(w, urlOk, id);
    MergedMark(w.proxies[id], j);
    hide Shape, Follows;
    if j.call.Some? && CameBackDeployed(j.call.value.outcome) {
      CallIsLogged(w, urlOk, id);
    }
  }

  lemma ReleaseStepIsHonest(w: World, urlOk: string -> bool, id: ProxyId, e: ReleaseEnv)
    requires Inv(w, urlOk) && id in w.releaseJobs && Honest(w)
    ensures Honest(StepRelease(w, id, w.releaseJobs[id], e))
  {
    var j := w.releaseJobs[id];
    ReleaseJobIsOk(w, id);
    JobCalls(w, id, j);
    StepOf(w, id, j, e);
    hide Inv, StepRelease, ReleaseJobOk, WasDeployed;
    var v := StepRelease(w, id, j, e);
    if Patches(j.pc) && e.apiOk && id in w.proxies {
      PatchStepsWrite(w, id, j, e);
      PatchIsHonest(w, urlOk, id, j);
    } else {
      OtherStepsWriteNothing(w, id, j, e);
      LogGrows(w, id, j, e);
      NoMarkIsHonest(w, v);
    }
  }

  lemma LogGrows(w: World, id: ProxyId, j: ReleaseJob, e: ReleaseEnv)
    ensures w.history.log <= StepRelease(w, id, j, e).history.log
  {
    hide StepRelease, StepCallHelm, StepUninstall;
    StepOf(w, id, j, e);
    CallGrowsLog(w, id, j, e);
    UninstallGrowsLog(w, id, j, e);
  }

  lemma CallGrowsLog(w: World, id: ProxyId, j: ReleaseJob, e: ReleaseEnv)
    ensures w.history.log <= StepCallHelm(w, id, j, e).history.log
  {
    hide HelmResult, AfterHelm, MarkNameGenerated, Stakes;
    if j.local.spec.strategy == Strategy.InstallOnce && HasBeenInstalled(Some(j.local)) {
    } else {
    }
  }

  lemma UninstallGrowsLog(w: World, id: ProxyId, j: ReleaseJob, e: ReleaseEnv)
    ensures w.history.log <= StepUninstall(w, id, j, e).history.log
  {
    var spec := j.base.spec;
    hide AfterUninstall, ReleaseGone, ReleaseFinalizer;
    if spec.strategy == Strategy.InstallOnce {
    } else if spec.releaseName == "" {
    } else if spec.cluster !in w.clusters || e.helm.getFails {
    } else if KeyOf(spec) !in w.releases {
    } else if !e.uninstallOk {
    } else {
    }
  }

  lemma ApplyIsHonest(w: World, urlOk: string -> bool, a: Action)
    requires Inv(w, urlOk) && Honest(w)
    ensures Honest(Apply(w, urlOk, a))
  {
    hide Inv, StepChart, StepRelease, StartRelease, Honest, WriteProxy;
    var v := Apply(w, urlOk, a);
    if Elsewhere(a) {
      ElsewhereTouchesNoProxy(w, urlOk, a);
      NoMarkIsHonest(w, v);
    } else if a.DeleteProxyByHand? {
      if a.id in w.proxies {
        WriteMarksNothing(w, a.id, w.proxies[a.id].(deleting := true));
      }
      NoMarkIsHonest(w, v);
    } else if a.ChartReconcile? {
      if a.key in w.chartJobs {
        ChartStepMarksNothing(w, urlOk, a.key, a.chartEnv);
      }
      NoMarkIsHonest(w, v);
    } else if a.id in w.releaseJobs {
      ReleaseStepIsHonest(w, urlOk, a.id, a.releaseEnv);
    } else {
      NoMarkIsHonest(w, v);
    }
  }

  /** In every reachable state, a proxy that carries the mark had a call that came back with a
      deployed release: what is skipped as installed was installed. */
  lemma MarkIsHonest(w: World, urlOk: string -> bool)
    requires Reachable(w, urlOk)
    ensures forall id <- w.proxies :: w.proxies[id].annotations.installed.Some? ==>
      exists e <- w.history.log :: e.Applied? && e.id == id && CameBackDeployed(e.call.outcome)
  {
    var start, actions :| Init(start, urlOk) && w == Run(start, urlOk, actions);
    hide Run;
    InitHasInv(start, urlOk);
    RunIsHonest(start, urlOk, actions);
  }

  lemma {:induction false} RunIsHonest(w: World, urlOk: string -> bool, actions: seq<Action>)
    requires Inv(w, urlOk) && Honest(w)
    ensures Honest(Run(w, urlOk, actions))
    decreases |actions|
  {
    hide Inv, Apply, Honest;
    if actions != [] {
      var front := actions[..|actions| - 1];
      RunIsHonest(w, urlOk, front);
      RunKeepsInv(w, urlOk, front);
      ApplyIsHonest(Run(w, urlOk, front), urlOk, actions[|actions| - 1]);
    }
  }

  lemma MarkedIsFrozen(v: World, urlOk: string -> bool, id: ProxyId)
    requires Inv(v, urlOk) && id in v.proxies && v.proxies[id].spec.strategy == Strategy.InstallOnce
    requires v.proxies[id].annotations.installed.Some?
    ensures Frozen(v, id, v.proxies[id].spec)
  {
    ProxyIsOk(v, urlOk, id);
  }
}
