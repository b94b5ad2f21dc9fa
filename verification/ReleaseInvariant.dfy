/** What every step keeps about release reconciles in flight, the Helm releases they hold a
    stake in, and the Ready condition they record. */
module ReleaseInvariant {
  import opened Types
  import opened Helm
  import opened ReleaseFlow
  import opened Machine
  import opened StoreInvariant

  /** A Helm call after which the release controller leaves HelmReleaseReady true: one that
      returned a deployed release, or one that returned, without error, a status for which
      the controller sets no condition. */
  predicate LeavesReady(o: Outcome) {
    o.release.Some? &&
    (o.release.value.status == Deployed || (o.release.value.status.IsUnhandled() && !o.failed))
  }

  /** The call came back with a deployed release, with or without an error. */
  predicate CameBackDeployed(o: Outcome) {
    o.release.Some? && o.release.value.status == Deployed
  }

  /** What a release reconcile has done to its working copy so far. */
  ghost predicate Shape(j: ReleaseJob) {
    && (j.base.deleting ==> j.base.finalizer)
    && (j.call.None? ==> j.local.spec == j.base.spec && j.local.annotations == j.base.annotations)
    && (j.call.Some? ==>
          && j.pc == FinishRelease && !j.base.deleting && j.call.value.spec == j.base.spec
          && (j.base.spec.strategy == InstallOnce ==> j.base.annotations.installed.None?)
          && j.local.spec == NameRelease(j.base.spec, j.local.spec.releaseName)
          && j.local.annotations.nameGenerated ==
               (if j.base.spec.releaseName == "" then Some(TRUE_VALUE) else j.base.annotations.nameGenerated)
          && j.local.annotations.installed ==
               (if CameBackDeployed(j.call.value.outcome) then Some(TRUE_VALUE) else j.base.annotations.installed))
    && (if j.base.deleting
        then j.pc.PatchConditions? || j.pc.GetClusterForDelete? || j.pc.Uninstall? || j.pc.UnpatchFinalizer? ||
             j.pc.FinishRelease?
        else j.pc.PatchConditions? || j.pc.PatchFinalizer? || j.pc.GetCluster? || j.pc.CallHelm? || j.pc.FinishRelease?)
    && (j.pc.PatchConditions? ==> j.local.finalizer == j.base.finalizer)
    && (!j.base.deleting && !j.pc.PatchConditions? ==> j.local.finalizer)
    && (j.pc.UnpatchFinalizer? ==> !j.local.finalizer)
    && (j.pc.GetClusterForDelete? || j.pc.Uninstall? ==> j.local.finalizer)
    && (j.pc.PatchConditions? || j.pc.PatchFinalizer? ==> j.local.status.releaseReady != IsTrue)
    && (j.pc.FinishRelease? && !j.base.deleting && j.base.spec.strategy != InstallOnce &&
        Summary(j.local.status.clusterAvailable, j.local.status.releaseReady) == IsTrue ==>
          j.call.Some? && LeavesReady(j.call.value.outcome))
  }

  /** The stored object, compared with the copy a release reconcile read: the name and the
      annotations are that controller's own, and a generation names one spec. */
  ghost predicate Follows(base: ReleaseProxy, p: ReleaseProxy) {
    && SameRole(base, p)
    && p.annotations == base.annotations && p.spec.releaseName == base.spec.releaseName
    && base.generation <= p.generation
    && (base.generation == p.generation ==> base.spec == p.spec)
    && (base.deleting ==> p.deleting)
  }

  /** From here on the reconcile relies on the finalizer being stored. */
  predicate HoldsFinalizer(j: ReleaseJob) {
    j.pc.GetCluster? || j.pc.CallHelm? || j.pc.GetClusterForDelete? || j.pc.Uninstall? || j.call.Some? ||
    (j.base.finalizer && j.local.finalizer)
  }

  ghost predicate ReleaseJobOk(proxies: Proxies, clock: nat, id: ProxyId, j: ReleaseJob) {
    && id < clock && Shape(j)
    && (id in proxies ==> Follows(j.base, proxies[id]))
    && (HoldsFinalizer(j) ==> id in proxies && proxies[id].finalizer)
  }

  ghost predicate ReleaseJobsOk(proxies: Proxies, clock: nat, jobs: map<ProxyId, ReleaseJob>) {
    forall id <- jobs :: ReleaseJobOk(proxies, clock, id, jobs[id])
  }

  /* ---- writes by others ---- */

  /** What a write by anyone but the object's own release reconcile leaves alone. */
  ghost predicate ForeignWrite(p: ReleaseProxy, q: ReleaseProxy) {
    && SameRole(p, q) && q.annotations == p.annotations && q.finalizer == p.finalizer && q.status == p.status
    && q.spec.releaseName == p.spec.releaseName && q.resourceVersion == p.resourceVersion
    && q.generation == p.generation && (p.deleting ==> q.deleting)
  }

  lemma StampFollows(base: ReleaseProxy, p: ReleaseProxy, q: ReleaseProxy, clock: nat)
    requires Follows(base, p) && ForeignWrite(p, q)
    ensures Follows(base, Stamp(p, q, clock))
  {
  }

  lemma ForeignWriteKeepsJobs(w: World, id: ProxyId, q: ReleaseProxy)
    requires ReleaseJobsOk(w.proxies, w.clock, w.releaseJobs)
    requires id in w.proxies && ForeignWrite(w.proxies[id], q)
    ensures var w' := WriteProxy(w, id, q); ReleaseJobsOk(w'.proxies, w'.clock, w'.releaseJobs)
  {
    var w' := WriteProxy(w, id, q);
    forall i <- w'.releaseJobs ensures ReleaseJobOk(w'.proxies, w'.clock, i, w'.releaseJobs[i]) {
      var j := w.releaseJobs[i];
      assert ReleaseJobOk(w.proxies, w.clock, i, j);
      if i == id {
        StampFollows(j.base, w.proxies[id], q, w.clock);
      }
    }
  }

  /* ---- the reconcile's own steps: what becomes of the working copy ---- */

  lemma StartShape(p: ReleaseProxy)
    requires p.deleting ==> p.finalizer
    requires !p.finalizer ==> p.status.releaseReady != IsTrue
    ensures Shape(StartRelease(p))
  {
  }

  lemma BranchShape(j: ReleaseJob)
    requires Shape(j) && j.pc.PatchConditions?
    ensures Shape(Branch(j.base, j.local))
  {
  }

  lemma AfterHelmShape(j: ReleaseJob, o: Outcome)
    requires Shape(j) && j.pc.CallHelm?
    requires !(j.local.spec.strategy == InstallOnce && HasBeenInstalled(Some(j.local)))
    requires o.release.None? ==> o.failed
    ensures Shape(j.(local := AfterHelm(MarkNameGenerated(j.local), o), call := Some(Call(j.local.spec, o)),
                     pc := FinishRelease))
  {
  }

  /** A patch before any Helm call writes the finalizer and the status and nothing else. */
  lemma QuietPatch(stored: ReleaseProxy, j: ReleaseJob)
    requires j.call.None? && Shape(j)
    ensures MergePatch(stored, j.base, j.local) ==
      stored.(finalizer := Merge(stored.finalizer, j.base.finalizer, j.local.finalizer),
              status := PatchedStatus(j.base, j.local))
  {
  }

  /** The patch after a Helm call also writes the annotations, and the release name if it
      was empty: everything else in the spec stays as the chart controller left it. */
  lemma FullPatch(stored: ReleaseProxy, j: ReleaseJob)
    requires j.call.Some? && Shape(j) && Follows(j.base, stored) && stored.finalizer
    ensures MergePatch(stored, j.base, j.local) ==
      stored.(annotations := j.local.annotations,
              spec := stored.spec.(releaseName := j.local.spec.releaseName),
              status := PatchedStatus(j.base, j.local))
  {
  }

  /** Moving one release reconcile on without a write. */
  lemma JumpKeepsJobs(w: World, id: ProxyId, j: ReleaseJob, pc: ReleasePc)
    requires ReleaseJobsOk(w.proxies, w.clock, w.releaseJobs)
    requires ReleaseJobOk(w.proxies, w.clock, id, j.(pc := pc))
    ensures var w' := Jump(w, id, j, pc); ReleaseJobsOk(w'.proxies, w'.clock, w'.releaseJobs)
  {
  }

  /** The patches that leave the reconcile in flight. */
  lemma QuietPatchKeepsJobs(w: World, id: ProxyId, j: ReleaseJob)
    requires ReleaseJobsOk(w.proxies, w.clock, w.releaseJobs)
    requires id in w.releaseJobs && w.releaseJobs[id] == j && j.call.None? && id in w.proxies
    ensures var w' := PatchProxy(w, id, j);
      && ReleaseJobsOk(w'.proxies, w'.clock, w'.releaseJobs)
      && (j.local.finalizer && (j.base.finalizer || !j.pc.PatchConditions?) ==>
            id in w'.proxies && w'.proxies[id].finalizer)
  {
    assert ReleaseJobOk(w.proxies, w.clock, id, j);
    QuietPatch(w.proxies[id], j);
    var w' := PatchProxy(w, id, j);
    forall i <- w'.releaseJobs ensures ReleaseJobOk(w'.proxies, w'.clock, i, w'.releaseJobs[i]) {
      assert ReleaseJobOk(w.proxies, w.clock, i, w.releaseJobs[i]);
    }
  }

  ghost predicate StatusOk(p: ReleaseProxy) {
    && p.status.observedGeneration <= p.generation
    && (!p.finalizer ==> p.status.releaseReady != IsTrue)
    && (p.deleting ==> p.finalizer)
  }

  lemma HelmAnswers(w: World, spec: ReleaseSpec, env: HelmEnv)
    ensures var o := HelmResult(w, spec, env).outcome; o.release.None? ==> o.failed
  {
  }

  /** A release reconcile in flight, the reconciles being in order. */
  ghost predicate InFlight(w: World, id: ProxyId, j: ReleaseJob) {
    ReleaseJobsOk(w.proxies, w.clock, w.releaseJobs) && id in w.releaseJobs && w.releaseJobs[id] == j
  }

  ghost predicate JobsOk(w: World) {
    ReleaseJobsOk(w.proxies, w.clock, w.releaseJobs)
  }

  lemma PatchStepsKeepJobs(w: World, id: ProxyId, j: ReleaseJob, e: ReleaseEnv)
    requires InFlight(w, id, j)
    ensures j.pc.PatchFinalizer? ==> JobsOk(StepPatchFinalizer(w, id, j, e))
    ensures j.pc.UnpatchFinalizer? ==> JobsOk(StepUnpatchFinalizer(w, id, j, e))
  {
    assert ReleaseJobOk(w.proxies, w.clock, id, j);
    if j.pc.PatchFinalizer? || j.pc.UnpatchFinalizer? {
      JumpKeepsJobs(w, id, j, FinishRelease);
      if e.apiOk && id in w.proxies {
        QuietPatchKeepsJobs(w, id, j);
        var w1 := PatchProxy(w, id, j);
        assert ReleaseJobOk(w1.proxies, w1.clock, id, j);
        JumpKeepsJobs(w1, id, j, if j.pc.PatchFinalizer? then GetCluster else FinishRelease);
      }
    }
  }

  lemma PatchConditionsKeepsJobs(w: World, id: ProxyId, j: ReleaseJob, e: ReleaseEnv)
    requires InFlight(w, id, j) && j.pc.PatchConditions?
    ensures JobsOk(StepPatchConditions(w, id, j, e))
  {
    assert ReleaseJobOk(w.proxies, w.clock, id, j);
    BranchShape(j);
    var w1 := w;
    if e.apiOk && id in w.proxies {
      QuietPatchKeepsJobs(w, id, j);
      w1 := PatchProxy(w, id, j);
    }
    assert ReleaseJobOk(w1.proxies, w1.clock, id, j);
    var b := Branch(j.base, j.local);
    assert b.(pc := b.pc) == b;
    JumpKeepsJobs(w1, id, b, b.pc);
  }

  lemma ClusterStepsKeepJobs(w: World, id: ProxyId, j: ReleaseJob, e: ReleaseEnv)
    requires InFlight(w, id, j)
    ensures j.pc.GetCluster? ==> JobsOk(StepGetCluster(w, id, j, e))
    ensures j.pc.GetClusterForDelete? ==> JobsOk(StepGetClusterForDelete(w, id, j, e))
  {
    assert ReleaseJobOk(w.proxies, w.clock, id, j);
    if j.pc.GetCluster? || j.pc.GetClusterForDelete? {
      var up, down := SetClusterAvailable(j.local, IsTrue), SetClusterAvailable(j.local, IsFalse);
      JumpKeepsJobs(w, id, j.(local := down), FinishRelease);
      JumpKeepsJobs(w, id, j.(local := up), if j.pc.GetCluster? then CallHelm else Uninstall);
      if j.pc.GetClusterForDelete? {
        JumpKeepsJobs(w, id, ReleaseFinalizer(j), UnpatchFinalizer);
      }
    }
  }

  lemma CallHelmKeepsJobs(w: World, id: ProxyId, j: ReleaseJob, e: ReleaseEnv)
    requires InFlight(w, id, j) && j.pc.CallHelm?
    ensures JobsOk(StepCallHelm(w, id, j, e))
  {
    assert ReleaseJobOk(w.proxies, w.clock, id, j);
    if j.local.spec.strategy == InstallOnce && HasBeenInstalled(Some(j.local)) {
      JumpKeepsJobs(w, id, j, FinishRelease);
    } else {
      var o := HelmResult(w, j.local.spec, e.helm).outcome;
      HelmAnswers(w, j.local.spec, e.helm);
      AfterHelmShape(j, o);
      JumpKeepsJobs(w, id, j.(local := AfterHelm(MarkNameGenerated(j.local), o), call := Some(Call(j.local.spec, o))),
                    FinishRelease);
    }
  }

  lemma UninstallKeepsJobs(w: World, id: ProxyId, j: ReleaseJob, e: ReleaseEnv)
    requires InFlight(w, id, j) && j.pc.Uninstall?
    ensures JobsOk(StepUninstall(w, id, j, e))
  {
    assert ReleaseJobOk(w.proxies, w.clock, id, j);
    JumpKeepsJobs(w, id, ReleaseFinalizer(j), UnpatchFinalizer);
    JumpKeepsJobs(w, id, ReleaseGone(j), UnpatchFinalizer);
    JumpKeepsJobs(w, id, j.(local := SetReleaseReady(j.local, IsFalse)), FinishRelease);
  }

  /** Every step of a release reconcile leaves the reconciles in flight in order. */
  lemma ReleaseStepKeepsJobs(w: World, id: ProxyId, j: ReleaseJob, e: ReleaseEnv)
    requires InFlight(w, id, j)
    ensures JobsOk(StepRelease(w, id, j, e))
  {
    match j.pc
    case PatchConditions => PatchConditionsKeepsJobs(w, id, j, e);
    case PatchFinalizer => PatchStepsKeepJobs(w, id, j, e);
    case GetCluster => ClusterStepsKeepJobs(w, id, j, e);
    case CallHelm => CallHelmKeepsJobs(w, id, j, e);
    case GetClusterForDelete => ClusterStepsKeepJobs(w, id, j, e);
    case Uninstall => UninstallKeepsJobs(w, id, j, e);
    case UnpatchFinalizer => PatchStepsKeepJobs(w, id, j, e);
    case FinishRelease => FinishKeepsJobs(w, id, j);
  }

  lemma FinishKeepsJobs(w: World, id: ProxyId, j: ReleaseJob)
    requires ReleaseJobsOk(w.proxies, w.clock, w.releaseJobs)
    requires id in w.releaseJobs && w.releaseJobs[id] == j
    ensures ReleaseJobsOk(w.proxies, w.clock, w.releaseJobs - {id})
    ensures id in w.proxies ==> ReleaseJobsOk(PatchProxy(w, id, j).proxies, w.clock + 1, w.releaseJobs - {id})
  {
    if id in w.proxies {
      var w' := PatchProxy(w, id, j);
      forall i <- w.releaseJobs | i != id ensures ReleaseJobOk(w'.proxies, w.clock + 1, i, w.releaseJobs[i]) {
        assert ReleaseJobOk(w.proxies, w.clock, i, w.releaseJobs[i]);
      }
    }
  }
}
