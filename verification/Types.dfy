/** The API objects of the add-on provider, as values: what the API server stores
    and what the controllers copy, compare and patch. */
module Types {

  datatype Option<+T> = None | Some(value: T)

  /** Namespace and name of a stored object. */
  datatype ObjectKey = ObjectKey(namespace: string, name: string)

  datatype Strategy = Unset | Continuous | InstallOnce

  datatype SecretRef = SecretRef(name: string, namespace: string)

  datatype Credentials = Credentials(secret: SecretRef, key: string)

  datatype TLSConfig = TLSConfig(caSecret: Option<SecretRef>, insecureSkipVerify: bool)

  /** The options that defaulting looks at; `flags` stands for every other CLI flag. */
  datatype HelmOptions = HelmOptions(atomic: bool, wait: bool, timeout: Option<nat>, flags: set<string>)

  /** One requirement of a label selector. `BadOperator` is one that does not parse. */
  datatype Requirement =
    | In(key: string, values: set<string>)
    | NotIn(key: string, values: set<string>)
    | Exists(key: string)
    | DoesNotExist(key: string)
    | BadOperator(key: string)
  {
    predicate Parses() {
      match this
      case In(_, values) => values != {}
      case NotIn(_, values) => values != {}
      case Exists(_) => true
      case DoesNotExist(_) => true
      case BadOperator(_) => false
    }

    predicate Matches(labels: map<string, string>) {
      match this
      case In(k, values) => k in labels && labels[k] in values
      case NotIn(k, values) => k !in labels || labels[k] !in values
      case Exists(k) => k in labels
      case DoesNotExist(k) => k !in labels
      case BadOperator(_) => false
    }
  }

  type Selector = seq<Requirement>

  predicate SelectorParses(s: Selector) {
    forall r <- s :: r.Parses()
  }

  predicate SelectorMatches(s: Selector, labels: map<string, string>) {
    forall r <- s :: r.Matches(labels)
  }

  datatype Cluster = Cluster(
    labels: map<string, string>,
    paused: bool,
    deleting: bool,
    controlPlaneInitialized: Option<bool>)

  /** HelmChartProxySpec. */
  datatype ChartSpec = ChartSpec(
    selector: Selector,
    chart: string,
    repoURL: string,
    releaseName: string,
    releaseNamespace: string,
    version: string,
    valuesTemplate: string,
    strategy: Strategy,
    options: HelmOptions,
    credentials: Option<Credentials>,
    tls: Option<TLSConfig>)

  /** HelmReleaseProxySpec. */
  datatype ReleaseSpec = ReleaseSpec(
    cluster: ObjectKey,
    chart: string,
    repoURL: string,
    releaseName: string,
    releaseNamespace: string,
    version: string,
    values: string,
    strategy: Strategy,
    options: HelmOptions,
    credentials: Option<Credentials>,
    tls: Option<TLSConfig>)

  /** A condition that was never set, or its status. */
  datatype Condition = Missing | IsFalse | IsTrue

  function Summary(a: Condition, b: Condition): Condition {
    if a == IsTrue && b == IsTrue then IsTrue else IsFalse
  }

  datatype ChartStatus = ChartStatus(
    upToDate: Condition,
    proxiesReady: Condition,
    ready: Condition,
    matching: set<ObjectKey>,
    observedGeneration: nat)

  /** HelmChartProxy; `finalizer` says whether the provider's own finalizer is on it. */
  datatype ChartProxy = ChartProxy(
    spec: ChartSpec,
    paused: bool,
    finalizer: bool,
    deleting: bool,
    generation: nat,
    status: ChartStatus)

  /** The two annotations the controllers write, by their stored text. */
  datatype Annotations = Annotations(nameGenerated: Option<string>, installed: Option<string>)

  /** Statuses of a stored Helm revision. */
  datatype HelmStatus =
    | Unknown | Deployed | Uninstalled | Superseded | Failed | Uninstalling
    | PendingInstall | PendingUpgrade | PendingRollback
  {
    predicate IsPending() {
      PendingInstall? || PendingUpgrade? || PendingRollback?
    }

    /** The statuses for which the release controller sets no condition. */
    predicate IsUnhandled() {
      !Deployed? && !IsPending() && !Failed?
    }
  }

  datatype ReleaseStatus = ReleaseStatus(
    clusterAvailable: Condition,
    releaseReady: Condition,
    ready: Condition,
    helmStatus: Option<HelmStatus>,
    revision: nat,
    observedGeneration: nat)

  /** HelmReleaseProxy. The labels name the owning HelmChartProxy and the cluster. */
  datatype ReleaseProxy = ReleaseProxy(
    namespace: string,
    chartLabel: string,
    clusterLabel: string,
    resourceVersion: nat,
    generation: nat,
    finalizer: bool,
    deleting: bool,
    annotations: Annotations,
    spec: ReleaseSpec,
    status: ReleaseStatus)

  /** Where Helm keeps a release. */
  datatype ReleaseKey = ReleaseKey(cluster: ObjectKey, namespace: string, name: string)

  /** The last stored revision of a Helm release. `version` is absent when the stored
      release carries no chart metadata. */
  datatype Release = Release(status: HelmStatus, revision: nat, version: Option<string>, config: string)

  const TRUE_VALUE := "true"
  const DEFAULT_NAMESPACE := "default"
  const DEFAULT_OCI_KEY := "config.json"
  const HELM_TIMEOUT_SECONDS: nat := 600

  /** What Helm call a spec names; a spec without a release name names none. */
  function KeyOf(spec: ReleaseSpec): ReleaseKey {
    ReleaseKey(spec.cluster, spec.releaseNamespace, spec.releaseName)
  }

  predicate Identifies(spec: ReleaseSpec, key: ReleaseKey) {
    spec.releaseName != "" && KeyOf(spec) == key
  }

  /** HasHelmReleaseBeenSuccessfullyInstalled, for an object that may be absent. */
  predicate HasBeenInstalled(p: Option<ReleaseProxy>) {
    p.Some? && p.value.annotations.installed.Some?
  }
}
