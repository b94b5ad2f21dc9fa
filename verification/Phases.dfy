/** The chart controller's decisions for one cluster: what to write for the
    HelmReleaseProxy of a (HelmChartProxy, cluster) pair. */
module Phases {
  import opened Types

  /** The fields whose change means uninstall and reinstall. */
  datatype Identity = Identity(chart: string, repoURL: string, releaseName: string, releaseNamespace: string)

  function IdentityOf(spec: ChartSpec): Identity {
    Identity(spec.chart, spec.repoURL, spec.releaseName, spec.releaseNamespace)
  }

  /** shouldReinstallHelmRelease. */
  predicate ShouldReinstall(existing: ReleaseProxy, chart: ChartSpec) {
    var generated := existing.annotations.nameGenerated == Some(TRUE_VALUE);
    || existing.spec.chart != chart.chart
    || existing.spec.repoURL != chart.repoURL
    || (generated && chart.releaseName != "")
    || (!generated && existing.spec.releaseName != chart.releaseName)
    || existing.spec.releaseNamespace != chart.releaseNamespace
  }

  /** Secret references are always resolved in the HelmChartProxy's namespace. */
  function LocalCredentials(c: Option<Credentials>, namespace: string): Option<Credentials> {
    match c
    case None => None
    case Some(v) => Some(Credentials(v.secret.(namespace := namespace), if v.key == "" then DEFAULT_OCI_KEY else v.key))
  }

  function LocalTLS(t: Option<TLSConfig>, namespace: string): Option<TLSConfig> {
    match t
    case None => None
    case Some(v) =>
      Some(if v.caSecret.Some? then v.(caSecret := Some(v.caSecret.value.(namespace := namespace))) else v)
  }

  /** The changes constructHelmReleaseProxy notices on an existing object. */
  predicate SpecChanged(spec: ReleaseSpec, namespace: string, chart: ChartSpec, values: string) {
    || spec.version != chart.version
    || spec.values != values
    || (spec.credentials.Some? && spec.credentials.value.secret.namespace != namespace)
    || (spec.tls.Some? && spec.tls.value.caSecret.Some? && spec.tls.value.caSecret.value.namespace != namespace)
  }

  /** The fields constructHelmReleaseProxy copies on a new and on a changed object alike. */
  function Refresh(spec: ReleaseSpec, namespace: string, chart: ChartSpec, values: string): ReleaseSpec {
    spec.(strategy := chart.strategy,
          version := chart.version,
          values := values,
          options := chart.options,
          credentials := LocalCredentials(chart.credentials, namespace),
          tls := LocalTLS(chart.tls, namespace))
  }

  const NO_STATUS := ReleaseStatus(Missing, Missing, Missing, None, 0, 0)

  /** A HelmReleaseProxy as the chart controller first builds it, before it is stored. */
  function NewProxy(key: ObjectKey, chart: ChartSpec, cluster: ObjectKey, values: string): ReleaseProxy {
    var blank := ReleaseSpec(cluster, chart.chart, chart.repoURL, chart.releaseName, chart.releaseNamespace,
                             "", "", Unset, HelmOptions(false, false, None, {}), None, None);
    ReleaseProxy(key.namespace, key.name, cluster.name, 0, 0, false, false, Annotations(None, None),
                 Refresh(blank, key.namespace, chart, values), NO_STATUS)
  }

  /** constructHelmReleaseProxy: None when the existing object needs no update. */
  function Construct(existing: Option<ReleaseProxy>, key: ObjectKey, chart: ChartSpec, values: string,
                     cluster: ObjectKey): Option<ReleaseProxy>
  {
    match existing
    case None => Some(NewProxy(key, chart, cluster, values))
    case Some(p) =>
      if SpecChanged(p.spec, key.namespace, chart, values)
      then Some(p.(spec := Refresh(p.spec, key.namespace, chart, values)))
      else None
  }

  /** What reconcileForCluster does once it knows the existing object and the rendered values. */
  datatype Plan =
    | Leave
    | Reinstall
    | RenderFailed
    | Create(proxy: ReleaseProxy)
    | Update(proxy: ReleaseProxy)

  function Decide(key: ObjectKey, chart: ChartSpec, cluster: ObjectKey, existing: Option<ReleaseProxy>,
                  rendered: Option<string>): Plan
  {
    if chart.strategy == InstallOnce && HasBeenInstalled(existing) then Leave
    else if chart.strategy != InstallOnce && existing.Some? && ShouldReinstall(existing.value, chart) then Reinstall
    else if rendered.None? then RenderFailed
    else
      match Construct(existing, key, chart, rendered.value, cluster)
      case None => Leave
      case Some(p) => if existing.None? then Create(p) else Update(p)
  }

  /** Construct is a one-step fixpoint: applied to its own result it finds nothing to do. */
  lemma ConstructIsAFixpoint(existing: Option<ReleaseProxy>, key: ObjectKey, chart: ChartSpec, values: string,
                             cluster: ObjectKey)
    ensures var r := Construct(existing, key, chart, values, cluster);
      Construct(if r.Some? then r else existing, key, chart, values, cluster) == None
  {
  }

  /** `local` is the reference `given` by the HelmChartProxy, moved to its namespace. */
  predicate Localised(given: Option<SecretRef>, local: Option<SecretRef>, namespace: string) {
    && (given.Some? <==> local.Some?)
    && (local.Some? ==> local.value == SecretRef(given.value.name, namespace))
  }

  function CredentialsSecret(c: Option<Credentials>): Option<SecretRef> {
    if c.Some? then Some(c.value.secret) else None
  }

  function CASecret(t: Option<TLSConfig>): Option<SecretRef> {
    if t.Some? then t.value.caSecret else None
  }

  /** What a constructed object carries over, whether it is new or not: everything but the
      identity comes from the HelmChartProxy, with its Secrets looked up next to it. */
  lemma ConstructCarriesOver(existing: Option<ReleaseProxy>, key: ObjectKey, chart: ChartSpec, values: string,
                             cluster: ObjectKey)
    ensures var r := Construct(existing, key, chart, values, cluster);
      r.Some? ==>
        var spec := r.value.spec;
        && Localised(CredentialsSecret(chart.credentials), CredentialsSecret(spec.credentials), key.namespace)
        && Localised(CASecret(chart.tls), CASecret(spec.tls), key.namespace)
        && (spec.credentials.Some? && chart.credentials.value.key == "" ==>
              spec.credentials.value.key == "config.json")
        && (spec.credentials.Some? && chart.credentials.value.key != "" ==>
              spec.credentials.value.key == chart.credentials.value.key)
        && (spec.tls.Some? <==> chart.tls.Some?)
        && (spec.tls.Some? ==> spec.tls.value.insecureSkipVerify == chart.tls.value.insecureSkipVerify)
        && spec.options == chart.options && spec.version == chart.version && spec.values == values
        && spec.strategy == chart.strategy
        && (existing.None? ==>
              && IdentityOf(chart) == Identity(spec.chart, spec.repoURL, spec.releaseName, spec.releaseNamespace)
              && r.value.namespace == key.namespace && r.value.chartLabel == key.name
              && r.value.clusterLabel == cluster.name && spec.cluster == cluster)
  {
  }

  /** Of the HelmChartProxy's spec, constructHelmReleaseProxy notices only the version (and what
      the values render to): whatever else changes, say the options, the name or key of the
      credentials or the TLS flags, an object it would leave alone it still leaves alone. */
  lemma NoticesOnlyTheVersion(existing: ReleaseProxy, key: ObjectKey, chart: ChartSpec, other: ChartSpec,
                              values: string, cluster: ObjectKey)
    requires other.version == chart.version
    ensures Construct(Some(existing), key, chart, values, cluster) == None <==>
            Construct(Some(existing), key, other, values, cluster) == None
  {
  }

  /** Every Secret reference of a constructed object is in the HelmChartProxy's namespace; of
      an existing object nothing changes but the spec, and of the spec no identity field. */
  lemma ConstructFrame(existing: Option<ReleaseProxy>, key: ObjectKey, chart: ChartSpec, values: string,
                       cluster: ObjectKey)
    ensures var r := Construct(existing, key, chart, values, cluster);
      r.Some? ==>
        && (r.value.spec.credentials.Some? ==> r.value.spec.credentials.value.secret.namespace == key.namespace)
        && (r.value.spec.credentials.Some? ==> r.value.spec.credentials.value.key != "")
        && (r.value.spec.tls.Some? && r.value.spec.tls.value.caSecret.Some? ==>
              r.value.spec.tls.value.caSecret.value.namespace == key.namespace)
        && r.value.spec.version == chart.version && r.value.spec.values == values
        && r.value.spec.strategy == chart.strategy
        && (existing.Some? ==>
              && r.value == existing.value.(spec := r.value.spec)
              && r.value.spec.cluster == existing.value.spec.cluster
              && r.value.spec.chart == existing.value.spec.chart
              && r.value.spec.repoURL == existing.value.spec.repoURL
              && r.value.spec.releaseName == existing.value.spec.releaseName
              && r.value.spec.releaseNamespace == existing.value.spec.releaseNamespace
              && r.value.spec != existing.value.spec)
        && (existing.None? ==> !ShouldReinstall(r.value, chart) && r.value.spec.cluster == cluster)
  {
  }

  /** Every Secret that an object refers to is next to the HelmChartProxy. */
  predicate SecretsIn(spec: ReleaseSpec, namespace: string) {
    && (CredentialsSecret(spec.credentials).Some? ==> spec.credentials.value.secret.namespace == namespace)
    && (CASecret(spec.tls).Some? ==> spec.tls.value.caSecret.value.namespace == namespace)
  }

  /** Exactly when constructHelmReleaseProxy has nothing to do; a missing object is always made. */
  lemma ConstructsExactlyWhen(existing: Option<ReleaseProxy>, key: ObjectKey, chart: ChartSpec, values: string,
                              cluster: ObjectKey)
    ensures Construct(existing, key, chart, values, cluster) == None <==>
      && existing.Some? && existing.value.spec.version == chart.version && existing.value.spec.values == values
      && SecretsIn(existing.value.spec, key.namespace)
  {
  }

  /** The release that an object stands for is the one the HelmChartProxy asks for: chart,
      repository, namespace, and the name, which the HelmChartProxy leaves open exactly if it
      was generated. */
  predicate SameIdentity(p: ReleaseProxy, chart: ChartSpec) {
    && p.spec.chart == chart.chart && p.spec.repoURL == chart.repoURL
    && p.spec.releaseNamespace == chart.releaseNamespace
    && chart.releaseName == (if p.annotations.nameGenerated == Some(TRUE_VALUE) then "" else p.spec.releaseName)
  }

  /** The decision on a cluster without an object, under every strategy: one is created for the
      HelmChartProxy and the cluster as soon as the values render. */
  lemma DecisionOnNone(key: ObjectKey, chart: ChartSpec, cluster: ObjectKey, rendered: Option<string>)
    ensures var plan := Decide(key, chart, cluster, None, rendered);
      && (plan.Create? <==> rendered.Some?) && (plan.RenderFailed? <==> rendered.None?)
      && (plan.Create? ==>
            var p := plan.proxy;
            && p.namespace == key.namespace && p.chartLabel == key.name && p.clusterLabel == cluster.name
            && p.spec.cluster == cluster && SameIdentity(p, chart) && p.annotations == Annotations(None, None)
            && p.spec.version == chart.version && p.spec.values == rendered.value
            && p.spec.strategy == chart.strategy && p.spec.options == chart.options
            && SecretsIn(p.spec, key.namespace) && !p.finalizer && !p.deleting && p.status == NO_STATUS)
  {
  }

  /** The decision on an existing object: an installed InstallOnce object is left alone whatever
      changes; an object with another identity is reinstalled unless the strategy is InstallOnce;
      any other is brought to the version and values asked for, or left if it has them. */
  lemma DecisionOnExisting(p: ReleaseProxy, key: ObjectKey, chart: ChartSpec, cluster: ObjectKey,
                           rendered: Option<string>)
    ensures var plan := Decide(key, chart, cluster, Some(p), rendered);
      var done := chart.strategy == InstallOnce && p.annotations.installed.Some?;
      var other := chart.strategy != InstallOnce && !SameIdentity(p, chart);
      && (plan.Reinstall? <==> other)
      && (plan.RenderFailed? <==> !done && !other && rendered.None?)
      && (plan.Leave? <==> done || (!other && rendered.Some? && p.spec.version == chart.version &&
                                    p.spec.values == rendered.value && SecretsIn(p.spec, key.namespace)))
      && !plan.Create?
      && (plan.Update? ==>
            var q := plan.proxy;
            && q == p.(spec := q.spec) && q.spec.version == chart.version && q.spec.values == rendered.value
            && q.spec.strategy == chart.strategy && q.spec.options == chart.options
            && q.spec.releaseName == p.spec.releaseName && q.spec.cluster == p.spec.cluster
            && (SameIdentity(q, chart) <==> SameIdentity(p, chart)) && SecretsIn(q.spec, key.namespace))
  {
  }
}
