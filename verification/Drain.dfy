/** Liveness of the release controller: whatever a reconcile in flight is doing, a
    HelmReleaseProxy that is being deleted is gone after a bounded number of steps in which
    nothing fails. */
module Drain {
  import opened Types
  import opened Helm
  import opened ReleaseFlow
  import opened Machine
  import opened StoreInvariant
  import opened ReleaseInvariant
  import opened ContentInvariant
  import opened ClaimInvariant
  import opened Invariant
  import opened Runs

  /** Nothing that a delete depends on fails. */
  predicate Smooth(e: ReleaseEnv) {
    e.apiOk && e.kubeconfigOk && e.uninstallOk && !e.helm.getFails
  }

  /** reconcileDelete gets to the point of dropping the finalizer. */
  predicate CanUninstall(w: World, spec: ReleaseSpec) {
    spec.strategy == InstallOnce || spec.releaseName == "" || spec.cluster in w.clusters
  }

  /** How many more steps the reconcile in flight makes before it ends or removes its object. */
  function StepsLeft(w: World, j: ReleaseJob): nat {
    match j.pc
    case PatchConditions => if j.base.deleting then 5 else 12
    case PatchFinalizer => 11
    case GetCluster => 10
    case CallHelm => 9
    case GetClusterForDelete => 4
    case Uninstall => if CanUninstall(w, j.base.spec) then 3 else 8
    case UnpatchFinalizer => 2
    case FinishRelease => if j.base.finalizer && !j.local.finalizer then 1 else 7
  }

  /** The distance of a terminating proxy from being gone. */
  function Stage(w: World, id: ProxyId): nat {
    if id !in w.proxies then 0
    else if id in w.releaseJobs then StepsLeft(w, w.releaseJobs[id])
    else 6
  }

  ghost predicate Terminating(w: World, id: ProxyId) {
    id in w.proxies && w.proxies[id].deleting
  }

  /** Only `id` and its own release are touched. */
  ghost predicate OnlyProxy(w: World, w': World, id: ProxyId) {
    && w'.charts == w.charts && w'.chartJobs == w.chartJobs && w'.clusters == w.clusters && w.clock <= w'.clock
    && w'.proxies - {id} == w.proxies - {id}
    && w'.releaseJobs - {id} == w.releaseJobs - {id}
  }

  lemma JumpFrames(w: World, w1: World, id: ProxyId, j: ReleaseJob, pc: ReleasePc)
    requires OnlyProxy(w, w1, id)
    ensures OnlyProxy(w, Jump(w1, id, j, pc), id)
  {
    assert w1.releaseJobs[id := j.(pc := pc)] - {id} == w1.releaseJobs - {id};
  }

  lemma SameFrames(w: World, releases: map<ReleaseKey, Release>, event: Event, claims: map<ReleaseKey, set<ProxyId>>,
                   id: ProxyId)
    ensures OnlyProxy(w, w, id) && OnlyProxy(w, HelmWrites(w, releases, event, claims), id)
  {
  }

  lemma CallFrames(w: World, id: ProxyId, j: ReleaseJob, e: ReleaseEnv)
    ensures OnlyProxy(w, StepCallHelm(w, id, j, e), id)
  {
    hide OnlyProxy, Jump, HelmWrites, HelmResult, AfterHelm, Stakes;
    var r := HelmResult(w, j.local.spec, e.helm);
    var call := Call(j.local.spec, r.outcome);
    var claims := Stakes(w, id, j.local.spec, r.releases);
    SameFrames(w, r.releases, Applied(id, call), claims, id);
    JumpFrames(w, w, id, j, FinishRelease);
    JumpFrames(w, HelmWrites(w, r.releases, Applied(id, call), claims), id,
               j.(local := AfterHelm(MarkNameGenerated(j.local), r.outcome), call := Some(call)), FinishRelease);
  }

  lemma UninstallFrames(w: World, id: ProxyId, j: ReleaseJob, e: ReleaseEnv)
    ensures OnlyProxy(w, StepUninstall(w, id, j, e), id)
  {
    hide OnlyProxy, Jump, HelmWrites, AfterUninstall, ReleaseGone, ReleaseFinalizer;
    var spec := j.base.spec;
    SameFrames(w, w.releases, Event.Uninstalled(id, spec), w.history.claims, id);
    JumpFrames(w, w, id, ReleaseFinalizer(j), UnpatchFinalizer);
    JumpFrames(w, w, id, ReleaseGone(j), UnpatchFinalizer);
    JumpFrames(w, w, id, j.(local := SetReleaseReady(j.local, IsFalse)), FinishRelease);
    if KeyOf(spec) in w.releases {
      var after := AfterUninstall(w.releases, KeyOf(spec), e.keepHistory);
      var claims := w.history.claims - {KeyOf(spec)};
      SameFrames(w, after, Event.Uninstalled(id, spec), claims, id);
      JumpFrames(w, HelmWrites(w, after, Event.Uninstalled(id, spec), claims), id, ReleaseGone(j), UnpatchFinalizer);
    }
  }

  lemma ClusterFrames(w: World, id: ProxyId, j: ReleaseJob, e: ReleaseEnv)
    ensures OnlyProxy(w, StepGetCluster(w, id, j, e), id)
    ensures OnlyProxy(w, StepGetClusterForDelete(w, id, j, e), id)
  {
    hide Jump, ReleaseFinalizer, SetClusterAvailable;
    assert OnlyProxy(w, w, id);
    hide OnlyProxy;
    JumpFrames(w, w, id, j.(local := SetClusterAvailable(j.local, IsFalse)), FinishRelease);
    JumpFrames(w, w, id, j.(local := SetClusterAvailable(j.local, IsTrue)), CallHelm);
    JumpFrames(w, w, id, j.(local := SetClusterAvailable(j.local, IsTrue)), Uninstall);
    JumpFrames(w, w, id, ReleaseFinalizer(j), UnpatchFinalizer);
  }

  lemma PatchFrames(w: World, id: ProxyId, j: ReleaseJob)
    requires id in w.proxies
    ensures OnlyProxy(w, PatchProxy(w, id, j), id)
  {
    var q := Stamp(w.proxies[id], MergePatch(w.proxies[id], j.base, j.local), w.clock);
    assert Put(w.proxies, id, q) - {id} == w.proxies - {id};
  }

  lemma JumpTo(w: World, id: ProxyId, j: ReleaseJob)
    ensures Jump(w, id, j, j.pc) == w.(releaseJobs := w.releaseJobs[id := j])
  {
    assert j.(pc := j.pc) == j;
  }

  lemma PatchStepsFrame(w: World, id: ProxyId, j: ReleaseJob, e: ReleaseEnv)
    ensures OnlyProxy(w, StepPatchConditions(w, id, j, e), id)
    ensures OnlyProxy(w, StepPatchFinalizer(w, id, j, e), id)
    ensures OnlyProxy(w, StepUnpatchFinalizer(w, id, j, e), id)
  {
    assert OnlyProxy(w, w, id);
    hide OnlyProxy, Jump, PatchProxy;
    var w1 := if e.apiOk && id in w.proxies then PatchProxy(w, id, j) else w;
    if e.apiOk && id in w.proxies {
      PatchFrames(w, id, j);
    }
    var b := Branch(j.base, j.local);
    JumpTo(w1, id, b);
    JumpFrames(w, w1, id, b, b.pc);
    JumpFrames(w, w1, id, j, GetCluster);
    JumpFrames(w, w1, id, j, FinishRelease);
  }

  lemma FinishFrames(w: World, id: ProxyId, j: ReleaseJob, e: ReleaseEnv)
    ensures OnlyProxy(w, StepFinishRelease(w, id, j, e), id)
  {
    if e.apiOk && id in w.proxies {
      hide PatchProxy, Record;
      PatchFrames(w, id, j);
    }
  }

  lemma ReleaseStepFrames(w: World, id: ProxyId, j: ReleaseJob, e: ReleaseEnv)
    ensures OnlyProxy(w, StepRelease(w, id, j, e), id)
  {
    hide OnlyProxy;
    match j.pc
    case PatchConditions => PatchStepsFrame(w, id, j, e);
    case PatchFinalizer => PatchStepsFrame(w, id, j, e);
    case GetCluster => ClusterFrames(w, id, j, e);
    case CallHelm => CallFrames(w, id, j, e);
    case GetClusterForDelete => ClusterFrames(w, id, j, e);
    case Uninstall => UninstallFrames(w, id, j, e);
    case UnpatchFinalizer => PatchStepsFrame(w, id, j, e);
    case FinishRelease => FinishFrames(w, id, j, e);
  }

  /** Taking the finalizer off a terminating proxy removes it. */
  lemma FreeingPatchRemoves(w: World, id: ProxyId, j: ReleaseJob)
    requires id in w.proxies && w.proxies[id].deleting && j.base.finalizer && !j.local.finalizer
    ensures id !in PatchProxy(w, id, j).proxies
  {
    var q := MergePatch(w.proxies[id], j.base, j.local);
    assert q.deleting && !q.finalizer;
  }

  lemma LookupFalls(w: World, id: ProxyId, j: ReleaseJob, e: ReleaseEnv)
    requires j.base.finalizer && Smooth(e) && j.pc.GetClusterForDelete?
    ensures var w' := StepGetClusterForDelete(w, id, j, e);
      id in w'.releaseJobs && StepsLeft(w', w'.releaseJobs[id]) < 4
  {
    if j.base.spec.cluster !in w.clusters {
    } else {
    }
  }

  lemma UninstallFalls(w: World, id: ProxyId, j: ReleaseJob, e: ReleaseEnv)
    requires j.base.finalizer && Smooth(e) && j.pc.Uninstall?
    ensures var w' := StepUninstall(w, id, j, e);
      id in w'.releaseJobs && StepsLeft(w', w'.releaseJobs[id]) < if CanUninstall(w, j.base.spec) then 3 else 8
  {
    hide AfterUninstall;
    var spec := j.base.spec;
    if spec.strategy == InstallOnce {
    } else if spec.releaseName == "" {
    } else if spec.cluster !in w.clusters {
    } else if KeyOf(spec) !in w.releases {
    } else {
    }
  }

  lemma DeletePathFalls(w: World, id: ProxyId, j: ReleaseJob, e: ReleaseEnv)
    requires ReleaseJobOk(w.proxies, w.clock, id, j) && Smooth(e)
    requires j.pc.GetClusterForDelete? || j.pc.Uninstall?
    ensures var w' := StepRelease(w, id, j, e);
      id in w'.releaseJobs && StepsLeft(w', w'.releaseJobs[id]) < StepsLeft(w, j)
  {
    assert j.base.finalizer;
    hide ReleaseJobOk, StepGetClusterForDelete, StepUninstall;
    if j.pc.GetClusterForDelete? {
      LookupFalls(w, id, j, e);
    } else {
      UninstallFalls(w, id, j, e);
    }
  }

  lemma CallFalls(w: World, id: ProxyId, j: ReleaseJob, e: ReleaseEnv)
    requires j.pc.CallHelm?
    ensures var w' := StepCallHelm(w, id, j, e);
      id in w'.releaseJobs && StepsLeft(w', w'.releaseJobs[id]) < 9
  {
    hide HelmResult, AfterHelm, MarkNameGenerated, Stakes;
    if j.local.spec.strategy == InstallOnce && HasBeenInstalled(Some(j.local)) {
    } else {
    }
  }

  lemma NormalPathFalls(w: World, id: ProxyId, j: ReleaseJob, e: ReleaseEnv)
    requires j.pc.GetCluster? || j.pc.CallHelm?
    ensures var w' := StepRelease(w, id, j, e);
      id in w'.releaseJobs && StepsLeft(w', w'.releaseJobs[id]) < StepsLeft(w, j)
  {
    hide StepCallHelm;
    if j.pc.CallHelm? {
      CallFalls(w, id, j, e);
    } else {
      var c := j.base.spec.cluster;
      if !e.apiOk || c !in w.clusters {
      } else if w.clusters[c].controlPlaneInitialized == Some(false) {
      } else if !e.kubeconfigOk || !e.secretsOk {
      } else {
      }
    }
  }

  lemma PatchPathFalls(w: World, id: ProxyId, j: ReleaseJob, e: ReleaseEnv)
    requires Terminating(w, id) && ReleaseJobOk(w.proxies, w.clock, id, j) && Smooth(e) && Patches(j.pc)
    ensures Stage(StepRelease(w, id, j, e), id) < StepsLeft(w, j)
  {
    hide PatchProxy, Record;
    if j.base.finalizer && !j.local.finalizer {
      FreeingPatchRemoves(w, id, j);
    }
    match j.pc
    case PatchConditions =>
    case PatchFinalizer =>
    case UnpatchFinalizer =>
    case FinishRelease =>
  }

  /** Every step without a failure brings a terminating proxy closer to its end, from any
      state the invariant allows, whatever was in flight. */
  lemma StageFalls(w: World, urlOk: string -> bool, id: ProxyId, e: ReleaseEnv)
    requires Inv(w, urlOk) && Terminating(w, id) && Smooth(e)
    ensures var w' := Apply(w, urlOk, ReleaseReconcile(id, e));
      && Stage(w', id) < Stage(w, id) && OnlyProxy(w, w', id)
      && Inv(w', urlOk) && (id in w'.proxies ==> Terminating(w', id))
  {
    hide Inv, StepRelease, StartRelease, StepsLeft, OnlyProxy;
    var a := ReleaseReconcile(id, e);
    var w' := Apply(w, urlOk, a);
    ApplyKeepsInv(w, urlOk, a);
    if id in w'.proxies {
      NoLostUpdates(w, urlOk, a, id);
    }
    if id in w.releaseJobs {
      var j := w.releaseJobs[id];
      JobOfInv(w, urlOk, id);
      ReleaseStepFrames(w, id, j, e);
      if Patches(j.pc) {
        PatchPathFalls(w, id, j, e);
      } else if j.pc.GetClusterForDelete? || j.pc.Uninstall? {
        DeletePathFalls(w, id, j, e);
      } else {
        NormalPathFalls(w, id, j, e);
      }
    } else {
      StartFalls(w, urlOk, id);
    }
  }

  lemma JobOfInv(w: World, urlOk: string -> bool, id: ProxyId)
    requires Inv(w, urlOk) && id in w.releaseJobs
    ensures ReleaseJobOk(w.proxies, w.clock, id, w.releaseJobs[id])
  {
    hide StoreInv, ContentInv, ClaimInv, LogInv;
  }

  lemma StartFalls(w: World, urlOk: string -> bool, id: ProxyId)
    requires Inv(w, urlOk) && Terminating(w, id) && id !in w.releaseJobs
    ensures var w' := w.(releaseJobs := w.releaseJobs[id := StartRelease(w.proxies[id])]);
      Stage(w', id) < 6 && OnlyProxy(w, w', id)
  {
    ProxyIsOk(w, urlOk, id);
  }

  /* ---- many steps ---- */

  ghost function Repeat(a: Action, n: nat): seq<Action> {
    seq(n, i => a)
  }

  /** The first action of a run, and the rest. */
  lemma {:induction false} RunFront(w: World, urlOk: string -> bool, a: Action, rest: seq<Action>)
    ensures Run(w, urlOk, [a] + rest) == Run(Apply(w, urlOk, a), urlOk, rest)
    decreases |rest|
  {
    hide Apply;
    if rest == [] {
      assert [a] + rest == [a];
      assert Run(w, urlOk, [a][..0]) == w;
    } else {
      var all := [a] + rest;
      assert all[..|all| - 1] == [a] + rest[..|rest| - 1];
      RunFront(w, urlOk, a, rest[..|rest| - 1]);
    }
  }

  lemma {:induction false} RunAppend(w: World, urlOk: string -> bool, front: seq<Action>, rest: seq<Action>)
    ensures Run(w, urlOk, front + rest) == Run(Run(w, urlOk, front), urlOk, rest)
    decreases |rest|
  {
    if rest == [] {
      assert front + rest == front;
    } else {
      var all := front + rest;
      assert all[..|all| - 1] == front + rest[..|rest| - 1];
      RunAppend(w, urlOk, front, rest[..|rest| - 1]);
    }
  }

  ghost predicate Drained(w: World, urlOk: string -> bool, id: ProxyId, w': World) {
    id !in w'.proxies && OnlyProxy(w, w', id) && Inv(w', urlOk)
  }

  /** Twelve steps of its own reconcile in which nothing fails remove a terminating proxy
      from any state the invariant allows, and touch no other object. */
  lemma {:induction false} TerminatingProxyDrains(w: World, urlOk: string -> bool, id: ProxyId, e: ReleaseEnv, n: nat)
    requires Inv(w, urlOk) && (id in w.proxies ==> w.proxies[id].deleting) && Smooth(e) && Stage(w, id) <= n
    ensures exists k: nat ::
      k <= n && Drained(w, urlOk, id, Run(w, urlOk, Repeat(ReleaseReconcile(id, e), k)))
    decreases n
  {
    hide Inv, OnlyProxy, Apply, Stage, Drained;
    var a := ReleaseReconcile(id, e);
    StageIsBounded(w, id);
    if id !in w.proxies {
      DrainedAlready(w, urlOk, id);
      assert Run(w, urlOk, Repeat(a, 0)) == w;
    } else {
      var w1 := Apply(w, urlOk, a);
      StageFalls(w, urlOk, id, e);
      TerminatingProxyDrains(w1, urlOk, id, e, n - 1);
      var k: nat :| k <= n - 1 && Drained(w1, urlOk, id, Run(w1, urlOk, Repeat(a, k)));
      assert Repeat(a, k + 1) == [a] + Repeat(a, k);
      RunFront(w, urlOk, a, Repeat(a, k));
      DrainedAfter(w, w1, urlOk, id, Run(w1, urlOk, Repeat(a, k)));
    }
  }

  lemma DrainedAlready(w: World, urlOk: string -> bool, id: ProxyId)
    requires Inv(w, urlOk) && id !in w.proxies
    ensures Drained(w, urlOk, id, w)
  {
    hide Inv;
  }

  lemma DrainedAfter(w: World, w1: World, urlOk: string -> bool, id: ProxyId, w2: World)
    requires OnlyProxy(w, w1, id) && Drained(w1, urlOk, id, w2)
    ensures Drained(w, urlOk, id, w2)
  {
    hide Inv;
  }

  lemma StageIsBounded(w: World, id: ProxyId)
    ensures Stage(w, id) <= 12
    ensures id in w.proxies ==> Stage(w, id) > 0
  {
  }
}
