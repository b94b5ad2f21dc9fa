/** What every step keeps about the content of a stored HelmReleaseProxy: its Ready condition
    tells of a Helm call made with its current spec, and it never stops matching the
    HelmChartProxy it was created for. */
module ContentInvariant {
  import opened Types
  import opened ReleaseFlow
  import opened Machine
  import opened StoreInvariant
  import opened ReleaseInvariant

  /** Ready at the current generation means: the last Helm call whose outcome was recorded
      was made with the current spec, and left the release ready. */
  ghost predicate ReadyOk(recorded: map<ProxyId, Call>, id: ProxyId, p: ReleaseProxy) {
    p.spec.strategy != InstallOnce && !p.deleting && p.status.ready == IsTrue &&
    p.status.observedGeneration == p.generation ==>
      id in recorded && recorded[id].spec == p.spec && LeavesReady(recorded[id].outcome)
  }

  ghost predicate OriginOk(origin: map<ProxyId, Origin>, id: ProxyId, p: ReleaseProxy) {
    && id in origin
    && OwnerOf(p) == origin[id].chart && p.spec.cluster == origin[id].cluster
    && p.spec.chart == origin[id].identity.chart && p.spec.repoURL == origin[id].identity.repoURL
    && p.spec.releaseNamespace == origin[id].identity.releaseNamespace
    && (p.annotations.nameGenerated.None? ==> p.spec.releaseName == origin[id].identity.releaseName)
    && (p.annotations.nameGenerated.Some? ==>
          p.annotations.nameGenerated == Some(TRUE_VALUE) && origin[id].identity.releaseName == "")
  }

  ghost predicate ContentOk(h: History, id: ProxyId, p: ReleaseProxy) {
    StatusOk(p) && ReadyOk(h.recorded, id, p) && OriginOk(h.origin, id, p)
  }

  ghost predicate ContentsOk(h: History, proxies: Proxies) {
    forall id <- proxies :: ContentOk(h, id, proxies[id])
  }

  ghost predicate OriginsDated(origin: map<ProxyId, Origin>, clock: nat) {
    forall id <- origin :: id < clock
  }

  lemma ForeignWriteKeepsContent(h: History, id: ProxyId, p: ReleaseProxy, q: ReleaseProxy, clock: nat)
    requires ContentOk(h, id, p) && ForeignWrite(p, q)
    requires q.deleting ==> q.finalizer
    ensures ContentOk(h, id, Stamp(p, q, clock))
  {
  }

  /** The points at which a release reconcile patches its object. */
  predicate Patches(pc: ReleasePc) {
    pc.PatchConditions? || pc.PatchFinalizer? || pc.UnpatchFinalizer? || pc.FinishRelease?
  }

  /** The patches of a release reconcile, except the last one after a Helm call. */
  lemma QuietPatchKeepsContent(h: History, id: ProxyId, p: ReleaseProxy, j: ReleaseJob, clock: nat)
    requires ContentOk(h, id, p)
    requires j.call.None? && Shape(j) && Follows(j.base, p) && (HoldsFinalizer(j) ==> p.finalizer) && Patches(j.pc)
    requires var q := MergePatch(p, j.base, j.local); q.deleting ==> q.finalizer
    ensures ContentOk(h, id, Stamp(p, MergePatch(p, j.base, j.local), clock))
  {
    QuietPatch(p, j);
  }

  /** The patch that records the outcome of a Helm call. */
  lemma FullPatchKeepsContent(h: History, id: ProxyId, p: ReleaseProxy, j: ReleaseJob, clock: nat)
    requires ContentOk(h, id, p)
    requires j.call.Some? && Shape(j) && Follows(j.base, p) && p.finalizer
    ensures ContentOk(h.(recorded := h.recorded[id := j.call.value]), id,
                      Stamp(p, MergePatch(p, j.base, j.local), clock))
  {
    FullPatch(p, j);
  }

  lemma WriteKeepsContents(h: History, w: World, id: ProxyId, q: ReleaseProxy)
    requires ContentsOk(w.history, w.proxies) && id in w.proxies
    requires h.origin == w.history.origin
    requires forall i :: i != id ==> (i in h.recorded <==> i in w.history.recorded) &&
                                     (i in h.recorded ==> h.recorded[i] == w.history.recorded[i])
    requires var p := Stamp(w.proxies[id], q, w.clock); (p.deleting && !p.finalizer) || ContentOk(h, id, p)
    ensures ContentsOk(h, WriteProxy(w, id, q).proxies)
  {
    var w' := WriteProxy(w, id, q);
    forall i <- w'.proxies ensures ContentOk(h, i, w'.proxies[i]) {
      if i != id {
        assert ContentOk(w.history, i, w.proxies[i]);
      }
    }
  }

  lemma ForeignWriteKeepsContents(w: World, id: ProxyId, q: ReleaseProxy)
    requires ContentsOk(w.history, w.proxies)
    requires id in w.proxies && ForeignWrite(w.proxies[id], q)
    ensures ContentsOk(w.history, WriteProxy(w, id, q).proxies)
  {
    var p := w.proxies[id];
    assert ContentOk(w.history, id, p);
    if q.deleting ==> q.finalizer {
      ForeignWriteKeepsContent(w.history, id, p, q, w.clock);
    }
    WriteKeepsContents(w.history, w, id, q);
  }

  lemma OwnPatchKeepsContents(w: World, id: ProxyId, j: ReleaseJob)
    requires ContentsOk(w.history, w.proxies) && InFlight(w, id, j) && id in w.proxies && Patches(j.pc)
    ensures var w' := PatchProxy(w, id, j);
      && (j.call.None? ==> ContentsOk(w.history, w'.proxies))
      && (j.call.Some? ==> ContentsOk(w.history.(recorded := w.history.recorded[id := j.call.value]), w'.proxies))
  {
    var p := w.proxies[id];
    assert ContentOk(w.history, id, p) && ReleaseJobOk(w.proxies, w.clock, id, j);
    var q := MergePatch(p, j.base, j.local);
    if j.call.Some? {
      FullPatchKeepsContent(w.history, id, p, j, w.clock);
      WriteKeepsContents(w.history.(recorded := w.history.recorded[id := j.call.value]), w, id, q);
    } else {
      if q.deleting ==> q.finalizer {
        QuietPatchKeepsContent(w.history, id, p, j, w.clock);
      }
      WriteKeepsContents(w.history, w, id, q);
    }
  }

  lemma CreateKeepsContents(w: World, urlOk: string -> bool, key: ObjectKey, j: ChartJob)
    requires ContentsOk(w.history, w.proxies) && OriginsDated(w.history.origin, w.clock)
    requires At(w, urlOk, key, j) && j.pc.CreateProxy?
    ensures var w' := Created(w, key, j.pc.cluster, j.base.spec, j.pc.proxy);
      ContentsOk(w'.history, w'.proxies) && OriginsDated(w'.history.origin, w'.clock)
  {
    JobIsOk(w, urlOk, key, j);
    var w' := Created(w, key, j.pc.cluster, j.base.spec, j.pc.proxy);
    forall i <- w'.proxies ensures ContentOk(w'.history, i, w'.proxies[i]) {
      if i != w.clock {
        assert ContentOk(w.history, i, w.proxies[i]);
      }
    }
  }

  ghost predicate ContentInv(w: World) {
    ContentsOk(w.history, w.proxies) && OriginsDated(w.history.origin, w.clock)
  }

  ghost predicate WritesNothing(w: World, w': World) {
    && w'.charts == w.charts && w'.chartJobs == w.chartJobs
    && w'.proxies == w.proxies && w'.clock == w.clock
    && w'.history.recorded == w.history.recorded && w'.history.origin == w.history.origin
  }

  lemma GetClusterWritesNothing(w: World, id: ProxyId, j: ReleaseJob, e: ReleaseEnv)
    ensures WritesNothing(w, StepGetCluster(w, id, j, e))
  {
    var c := j.base.spec.cluster;
    if !e.apiOk || c !in w.clusters {
    } else if w.clusters[c].controlPlaneInitialized == Some(false) {
    } else if !e.kubeconfigOk || !e.secretsOk {
    } else {
    }
  }

  lemma GetClusterForDeleteWritesNothing(w: World, id: ProxyId, j: ReleaseJob, e: ReleaseEnv)
    ensures WritesNothing(w, StepGetClusterForDelete(w, id, j, e))
  {
    if !e.apiOk {
    } else if j.base.spec.cluster !in w.clusters {
    } else if !e.kubeconfigOk {
    } else {
    }
  }

  lemma CallHelmWritesNothing(w: World, id: ProxyId, j: ReleaseJob, e: ReleaseEnv)
    ensures WritesNothing(w, StepCallHelm(w, id, j, e))
  {
    if j.local.spec.strategy == InstallOnce && HasBeenInstalled(Some(j.local)) {
    } else {
    }
  }

  lemma UninstallWritesNothing(w: World, id: ProxyId, j: ReleaseJob, e: ReleaseEnv)
    ensures WritesNothing(w, StepUninstall(w, id, j, e))
  {
    var spec := j.base.spec;
    if spec.strategy == InstallOnce {
    } else if spec.releaseName == "" {
    } else if spec.cluster !in w.clusters || e.helm.getFails {
    } else if KeyOf(spec) !in w.releases {
    } else if !e.uninstallOk {
    } else {
    }
  }

  /** Only a patch changes a stored proxy or what is recorded of it. */
  lemma OtherStepsWriteNothing(w: World, id: ProxyId, j: ReleaseJob, e: ReleaseEnv)
    requires !Patches(j.pc) || !e.apiOk || id !in w.proxies
    ensures WritesNothing(w, StepRelease(w, id, j, e))
  {
    match j.pc
    case PatchConditions =>
    case PatchFinalizer =>
    case GetCluster => GetClusterWritesNothing(w, id, j, e);
    case CallHelm => CallHelmWritesNothing(w, id, j, e);
    case GetClusterForDelete => GetClusterForDeleteWritesNothing(w, id, j, e);
    case Uninstall => UninstallWritesNothing(w, id, j, e);
    case UnpatchFinalizer =>
    case FinishRelease =>
  }

  lemma PatchStepsWrite(w: World, id: ProxyId, j: ReleaseJob, e: ReleaseEnv)
    requires Patches(j.pc) && e.apiOk && id in w.proxies
    requires j.call.Some? ==> j.pc.FinishRelease?
    ensures var w' := StepRelease(w, id, j, e);
      && w'.charts == w.charts && w'.chartJobs == w.chartJobs
      && w'.proxies == PatchProxy(w, id, j).proxies && w'.clock == w.clock + 1
      && w'.history.recorded == (if j.call.Some? then w.history.recorded[id := j.call.value] else w.history.recorded)
      && w'.history.origin == w.history.origin
  {
    hide MergePatch, Stamp, Put, Branch;
    match j.pc
    case PatchConditions =>
    case PatchFinalizer =>
    case UnpatchFinalizer =>
    case FinishRelease =>
  }

  lemma ReleaseStepKeepsContents(w: World, id: ProxyId, j: ReleaseJob, e: ReleaseEnv)
    requires ContentInv(w) && InFlight(w, id, j)
    ensures ContentInv(StepRelease(w, id, j, e))
  {
    assert ReleaseJobOk(w.proxies, w.clock, id, j);
    var w' := StepRelease(w, id, j, e);
    if Patches(j.pc) && e.apiOk && id in w.proxies {
      PatchStepsWrite(w, id, j, e);
      OwnPatchKeepsContents(w, id, j);
      SameContents(w', if j.call.Some? then w.history.(recorded := w.history.recorded[id := j.call.value])
                       else w.history);
    } else {
      OtherStepsWriteNothing(w, id, j, e);
      SameContents(w', w.history);
    }
  }

  lemma SameContents(w: World, h: History)
    requires ContentsOk(h, w.proxies) && h.recorded == w.history.recorded && h.origin == w.history.origin
    requires OriginsDated(h.origin, w.clock)
    ensures ContentInv(w)
  {
    forall i <- w.proxies ensures ContentOk(w.history, i, w.proxies[i]) {
      assert ContentOk(h, i, w.proxies[i]);
    }
  }
}
