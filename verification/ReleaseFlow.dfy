/** The release controller's own computations on the object it fetched: conditions, the
    outcome of a Helm call, and the patch that writes the result back. */
module ReleaseFlow {
  import opened Types
  import opened Helm

  predicate HasNoConditions(s: ReleaseStatus) {
    s.clusterAvailable == Missing && s.releaseReady == Missing && s.ready == Missing
  }

  function SetClusterAvailable(p: ReleaseProxy, c: Condition): ReleaseProxy {
    p.(status := p.status.(clusterAvailable := c))
  }

  function SetReleaseReady(p: ReleaseProxy, c: Condition): ReleaseProxy {
    p.(status := p.status.(releaseReady := c))
  }

  /** initializeConditions, before its patch. */
  function InitConditions(p: ReleaseProxy): ReleaseProxy {
    if HasNoConditions(p.status) then SetReleaseReady(p, IsFalse) else p
  }

  /** The annotation set just before the Helm call of a spec without a release name. */
  function MarkNameGenerated(p: ReleaseProxy): ReleaseProxy {
    if p.spec.releaseName == ""
    then p.(annotations := p.annotations.(nameGenerated := Some(TRUE_VALUE))) else p
  }

  /** SetReleaseName: only an empty name is filled in. */
  function NameRelease(spec: ReleaseSpec, name: string): ReleaseSpec {
    if spec.releaseName == "" then spec.(releaseName := name) else spec
  }

  /** reconcileNormal after the Helm call returned. */
  function AfterHelm(p: ReleaseProxy, o: Outcome): ReleaseProxy {
    var q := if o.failed then SetReleaseReady(p, IsFalse) else p;
    if o.release.None? then q
    else
      var r := o.release.value;
      var named := q.(spec := NameRelease(q.spec, o.name),
                      status := q.status.(helmStatus := Some(r.status), revision := r.revision));
      if r.status == Deployed then
        SetReleaseReady(named, IsTrue).(annotations := named.annotations.(installed := Some(TRUE_VALUE)))
      else if r.status.IsPending() || (r.status == Failed && !o.failed) then SetReleaseReady(named, IsFalse)
      else named
  }

  function Merge<T(==)>(stored: T, base: T, local: T): T {
    if local == base then stored else local
  }

  function MergeSpec(stored: ReleaseSpec, base: ReleaseSpec, local: ReleaseSpec): ReleaseSpec {
    ReleaseSpec(
      Merge(stored.cluster, base.cluster, local.cluster),
      Merge(stored.chart, base.chart, local.chart),
      Merge(stored.repoURL, base.repoURL, local.repoURL),
      Merge(stored.releaseName, base.releaseName, local.releaseName),
      Merge(stored.releaseNamespace, base.releaseNamespace, local.releaseNamespace),
      Merge(stored.version, base.version, local.version),
      Merge(stored.values, base.values, local.values),
      Merge(stored.strategy, base.strategy, local.strategy),
      Merge(stored.options, base.options, local.options),
      Merge(stored.credentials, base.credentials, local.credentials),
      Merge(stored.tls, base.tls, local.tls))
  }

  /** The status a patch writes: the summary is recomputed and the generation that was
      read becomes the observed one. */
  function PatchedStatus(base: ReleaseProxy, local: ReleaseProxy): ReleaseStatus {
    local.status.(ready := Summary(local.status.clusterAvailable, local.status.releaseReady),
                  observedGeneration := base.generation)
  }

  /** patchHelmReleaseProxy on the stored object: only fields that differ from what was read
      are written, the conditions and status being this controller's own. */
  function MergePatch(stored: ReleaseProxy, base: ReleaseProxy, local: ReleaseProxy): ReleaseProxy {
    stored.(finalizer := Merge(stored.finalizer, base.finalizer, local.finalizer),
            annotations := Annotations(
              Merge(stored.annotations.nameGenerated, base.annotations.nameGenerated, local.annotations.nameGenerated),
              Merge(stored.annotations.installed, base.annotations.installed, local.annotations.installed)),
            spec := MergeSpec(stored.spec, base.spec, local.spec),
            status := PatchedStatus(base, local))
  }
}
