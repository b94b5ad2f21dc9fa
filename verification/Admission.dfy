/** The admission webhooks: defaulting, validation, and what they guarantee along any
    chain of admitted updates. URL parsing is the parameter `urlOk`. */
module Admission {
  import opened Types

  datatype FieldError = BadURL | ForeignCredentials | ForeignCASecret | ImmutableField(name: string)

  function DefaultOptions(o: HelmOptions): HelmOptions {
    o.(wait := o.wait || o.atomic,
       timeout := if o.timeout.None? then Some(HELM_TIMEOUT_SECONDS) else o.timeout)
  }

  function DefaultNamespace(ns: string): string {
    if ns == "" then DEFAULT_NAMESPACE else ns
  }

  function DefaultChart(spec: ChartSpec): ChartSpec {
    spec.(releaseNamespace := DefaultNamespace(spec.releaseNamespace), options := DefaultOptions(spec.options))
  }

  function DefaultRelease(spec: ReleaseSpec): ReleaseSpec {
    spec.(releaseNamespace := DefaultNamespace(spec.releaseNamespace))
  }

  function CredentialsRef(spec: ChartSpec): Option<SecretRef> {
    if spec.credentials.Some? then Some(spec.credentials.value.secret) else None
  }

  function CARef(spec: ChartSpec): Option<SecretRef> {
    if spec.tls.Some? then spec.tls.value.caSecret else None
  }

  /** A reference to a Secret outside the proxy's own namespace. */
  predicate Foreign(ref: Option<SecretRef>, namespace: string) {
    ref.Some? && ref.value.namespace != "" && ref.value.namespace != namespace
  }

  /** validateSecretReferences: a foreign reference passes only if it was already there. */
  function SecretErrors(namespace: string, before: Option<ChartSpec>, after: ChartSpec): seq<FieldError> {
    var oldCredentials := if before.Some? then CredentialsRef(before.value) else None;
    var oldCA := if before.Some? then CARef(before.value) else None;
    (if Foreign(CredentialsRef(after), namespace) && CredentialsRef(after) != oldCredentials
     then [ForeignCredentials] else []) +
    (if Foreign(CARef(after), namespace) && CARef(after) != oldCA then [ForeignCASecret] else [])
  }

  function URLErrors(urlOk: string -> bool, url: string): seq<FieldError> {
    if urlOk(url) then [] else [BadURL]
  }

  function Immutable<T(==)>(name: string, before: T, after: T): seq<FieldError> {
    if before == after then [] else [ImmutableField(name)]
  }

  function ValidateChartCreate(urlOk: string -> bool, namespace: string, spec: ChartSpec): seq<FieldError> {
    if !urlOk(spec.repoURL) then [BadURL] else SecretErrors(namespace, None, spec)
  }

  function ValidateChartUpdate(urlOk: string -> bool, namespace: string, before: ChartSpec, after: ChartSpec)
    : seq<FieldError>
  {
    URLErrors(urlOk, after.repoURL) + SecretErrors(namespace, Some(before), after) +
    Immutable("ReconcileStrategy", before.strategy, after.strategy)
  }

  function ValidateReleaseCreate(urlOk: string -> bool, spec: ReleaseSpec): seq<FieldError> {
    URLErrors(urlOk, spec.repoURL)
  }

  function ValidateReleaseUpdate(before: ReleaseSpec, after: ReleaseSpec): seq<FieldError> {
    Immutable("RepoURL", before.repoURL, after.repoURL) +
    Immutable("ChartName", before.chart, after.chart) +
    Immutable("ReleaseNamespace", before.releaseNamespace, after.releaseNamespace) +
    Immutable("ReconcileStrategy", before.strategy, after.strategy)
  }

  /** Defaulting fills in what is missing, adds what atomic needs, leaves everything else as it
      is, and has nothing left to do the second time. */
  lemma DefaultingSettles(spec: ChartSpec)
    ensures var d := DefaultChart(spec);
      && d.releaseNamespace == (if spec.releaseNamespace == "" then "default" else spec.releaseNamespace)
      && d.options.timeout == (if spec.options.timeout.None? then Some(600) else spec.options.timeout)
      && (d.options.wait <==> spec.options.wait || spec.options.atomic)
      && d == spec.(releaseNamespace := d.releaseNamespace, options := d.options)
      && d.options == spec.options.(wait := d.options.wait, timeout := d.options.timeout)
      && DefaultChart(d) == d
  {
  }

  /** A HelmReleaseProxy gets a release namespace and nothing else. */
  lemma ReleaseDefaultingSettles(spec: ReleaseSpec)
    ensures DefaultRelease(spec) ==
      spec.(releaseNamespace := if spec.releaseNamespace == "" then "default" else spec.releaseNamespace)
    ensures DefaultRelease(DefaultRelease(spec)) == DefaultRelease(spec)
  {
  }

  /** Exactly which updates of a HelmReleaseProxy are admitted. */
  lemma ReleaseUpdateAdmittedExactlyWhen(before: ReleaseSpec, after: ReleaseSpec)
    ensures ValidateReleaseUpdate(before, after) == [] <==>
      && after.repoURL == before.repoURL && after.chart == before.chart
      && after.releaseNamespace == before.releaseNamespace && after.strategy == before.strategy
  {
  }

  /** A reference that passes on update: none, a local one, or the very one that was there. */
  predicate RefAllowed(before: Option<SecretRef>, after: Option<SecretRef>, namespace: string) {
    after.None? || after.value.namespace == "" || after.value.namespace == namespace || after == before
  }

  /** Exactly which updates are admitted. */
  lemma UpdateAdmittedExactlyWhen(urlOk: string -> bool, namespace: string, before: ChartSpec, after: ChartSpec)
    ensures ValidateChartUpdate(urlOk, namespace, before, after) == [] <==>
      && urlOk(after.repoURL) && after.strategy == before.strategy
      && RefAllowed(CredentialsRef(before), CredentialsRef(after), namespace)
      && RefAllowed(CARef(before), CARef(after), namespace)
  {
  }

  /** Exactly which HelmChartProxies may be created. */
  lemma CreateAdmittedExactlyWhen(urlOk: string -> bool, namespace: string, spec: ChartSpec)
    ensures ValidateChartCreate(urlOk, namespace, spec) == [] <==>
      && urlOk(spec.repoURL)
      && (spec.credentials.Some? ==> spec.credentials.value.secret.namespace in {"", namespace})
      && (spec.tls.Some? && spec.tls.value.caSecret.Some? ==>
            spec.tls.value.caSecret.value.namespace in {"", namespace})
  {
  }

  /** Exactly which HelmReleaseProxies may be created. */
  lemma ReleaseCreateAdmittedExactlyWhen(urlOk: string -> bool, spec: ReleaseSpec)
    ensures ValidateReleaseCreate(urlOk, spec) == [] <==> urlOk(spec.repoURL)
  {
  }

  /** A chain of specs of one HelmChartProxy, each admitted as an update of the one before. */
  ghost predicate UpdateChain(urlOk: string -> bool, namespace: string, chain: seq<ChartSpec>) {
    forall i :: 0 < i < |chain| ==> ValidateChartUpdate(urlOk, namespace, chain[i - 1], chain[i]) == []
  }

  lemma {:induction false} ForeignReferencesOnlySurvive(
    urlOk: string -> bool, namespace: string, chain: seq<ChartSpec>, i: nat, j: nat)
    requires UpdateChain(urlOk, namespace, chain)
    requires i <= j < |chain|
    ensures Foreign(CredentialsRef(chain[j]), namespace) ==> CredentialsRef(chain[i]) == CredentialsRef(chain[j])
    ensures Foreign(CARef(chain[j]), namespace) ==> CARef(chain[i]) == CARef(chain[j])
    decreases j - i
  {
    if i < j {
      assert ValidateChartUpdate(urlOk, namespace, chain[j - 1], chain[j]) == [];
      ForeignReferencesOnlySurvive(urlOk, namespace, chain, i, j - 1);
    }
  }

  /** A proxy created under admission never gets a foreign reference, whatever updates follow. */
  lemma CreatedProxiesStayLocal(urlOk: string -> bool, namespace: string, chain: seq<ChartSpec>, j: nat)
    requires UpdateChain(urlOk, namespace, chain)
    requires j < |chain|
    requires ValidateChartCreate(urlOk, namespace, chain[0]) == []
    ensures !Foreign(CredentialsRef(chain[j]), namespace)
    ensures !Foreign(CARef(chain[j]), namespace)
  {
    ForeignReferencesOnlySurvive(urlOk, namespace, chain, 0, j);
  }

  /** Once local or removed, never foreign again. */
  lemma LocalStaysLocal(urlOk: string -> bool, namespace: string, chain: seq<ChartSpec>, i: nat, j: nat)
    requires UpdateChain(urlOk, namespace, chain)
    requires i <= j < |chain|
    ensures !Foreign(CredentialsRef(chain[i]), namespace) ==> !Foreign(CredentialsRef(chain[j]), namespace)
    ensures !Foreign(CARef(chain[i]), namespace) ==> !Foreign(CARef(chain[j]), namespace)
  {
    ForeignReferencesOnlySurvive(urlOk, namespace, chain, i, j);
  }

  lemma {:induction false} StrategyIsFixed(
    urlOk: string -> bool, namespace: string, chain: seq<ChartSpec>, i: nat, j: nat)
    requires UpdateChain(urlOk, namespace, chain)
    requires i <= j < |chain|
    ensures chain[i].strategy == chain[j].strategy
    ensures i < j ==> urlOk(chain[j].repoURL)
    decreases j - i
  {
    if i < j {
      assert ValidateChartUpdate(urlOk, namespace, chain[j - 1], chain[j]) == [];
      StrategyIsFixed(urlOk, namespace, chain, i, j - 1);
    }
  }
}
