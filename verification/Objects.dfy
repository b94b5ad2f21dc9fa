/** The API objects as the program holds them: with pointers to their credentials and TLS
    settings, and updated in place. Each class has a Value, the plain object it stands for. */
module Objects {
  import opened Types
  import opened Admission
  import opened Phases
  import opened ReleaseFlow

  class CredentialsObject {
    var secret: SecretRef
    var key: string

    constructor (secret: SecretRef, key: string)
      ensures this.secret == secret && this.key == key
    {
      this.secret, this.key := secret, key;
    }
  }

  class SecretObject {
    var ref: SecretRef

    constructor (ref: SecretRef)
      ensures this.ref == ref
    {
      this.ref := ref;
    }
  }

  class TLSObject {
    var caSecret: SecretObject?
    var insecureSkipVerify: bool

    constructor (caSecret: SecretObject?, insecureSkipVerify: bool)
      ensures this.caSecret == caSecret && this.insecureSkipVerify == insecureSkipVerify
    {
      this.caSecret, this.insecureSkipVerify := caSecret, insecureSkipVerify;
    }
  }

  function CredentialsValue(c: CredentialsObject?): Option<Credentials>
    reads c
  {
    if c == null then None else Some(Credentials(c.secret, c.key))
  }

  function TLSValue(t: TLSObject?): Option<TLSConfig>
    reads t, if t == null then null else t.caSecret
  {
    if t == null then None
    else Some(TLSConfig(if t.caSecret == null then None else Some(t.caSecret.ref), t.insecureSkipVerify))
  }

  /** Credentials.DeepCopy: nothing is shared with the original. */
  method CopyCredentials(c: CredentialsObject?) returns (copy: CredentialsObject?)
    ensures CredentialsValue(copy) == CredentialsValue(c)
    ensures copy != null ==> fresh(copy)
  {
    if c == null {
      return null;
    }
    copy := new CredentialsObject(c.secret, c.key);
  }

  /** TLSConfig.DeepCopy: the nested Secret reference is copied as well. */
  method CopyTLS(t: TLSObject?) returns (copy: TLSObject?)
    ensures TLSValue(copy) == TLSValue(t)
    ensures copy != null ==> fresh(copy) && (copy.caSecret != null ==> fresh(copy.caSecret))
  {
    if t == null {
      return null;
    }
    var ca: SecretObject? := null;
    if t.caSecret != null {
      ca := new SecretObject(t.caSecret.ref);
    }
    copy := new TLSObject(ca, t.insecureSkipVerify);
  }

  /** A HelmChartProxy. `plain` holds every part of the spec but the two pointers. */
  class ChartObject {
    const key: ObjectKey
    var plain: ChartSpec
    var credentials: CredentialsObject?
    var tls: TLSObject?
    var status: ChartStatus
    var finalizer: bool

    constructor (key: ObjectKey, c: ChartProxy)
      ensures this.key == key && Spec() == c.spec && status == c.status && finalizer == c.finalizer
      ensures credentials != null ==> fresh(credentials)
      ensures tls != null ==> fresh(tls) && (tls.caSecret != null ==> fresh(tls.caSecret))
    {
      this.key := key;
      plain := c.spec;
      status, finalizer := c.status, c.finalizer;
      credentials, tls := null, null;
      new;
      if c.spec.credentials.Some? {
        credentials := new CredentialsObject(c.spec.credentials.value.secret, c.spec.credentials.value.key);
      }
      if c.spec.tls.Some? {
        var ca: SecretObject? := null;
        if c.spec.tls.value.caSecret.Some? {
          ca := new SecretObject(c.spec.tls.value.caSecret.value);
        }
        tls := new TLSObject(ca, c.spec.tls.value.insecureSkipVerify);
      }
    }

    function Spec(): ChartSpec
      reads this`plain, this`credentials, this`tls, credentials, tls, if tls == null then null else tls.caSecret
    {
      plain.(credentials := CredentialsValue(credentials), tls := TLSValue(tls))
    }

    /** The defaulting webhook. */
    method Default()
      modifies this`plain
      ensures Spec() == DefaultChart(old(Spec()))
    {
      if plain.releaseNamespace == "" {
        plain := plain.(releaseNamespace := DEFAULT_NAMESPACE);
      }
      if plain.options.atomic {
        plain := plain.(options := plain.options.(wait := true));
      }
      if plain.options.timeout.None? {
        plain := plain.(options := plain.options.(timeout := Some(HELM_TIMEOUT_SECONDS)));
      }
    }

    method SetUpToDate(c: Condition)
      modifies this`status
      ensures status == old(status).(upToDate := c)
    {
      status := status.(upToDate := c);
    }

    method SetProxiesReady(c: Condition)
      modifies this`status
      ensures status == old(status).(proxiesReady := c)
    {
      status := status.(proxiesReady := c);
    }

    /** SetMatchingClusters, from the listed clusters in their order. */
    method SetMatchingClusters(clusters: seq<ObjectKey>)
      modifies this`status
      ensures status == old(status).(matching := set c <- clusters)
    {
      var matching: set<ObjectKey> := {};
      for i := 0 to |clusters|
        invariant matching == set c <- clusters[..i]
      {
        matching := matching + {clusters[i]};
        assert clusters[..i + 1] == clusters[..i] + [clusters[i]];
      }
      assert clusters[..] == clusters;
      status := status.(matching := matching);
    }
  }

  /** A HelmReleaseProxy as a controller holds it. */
  class ReleaseObject {
    var namespace: string
    var chartLabel: string
    var clusterLabel: string
    var resourceVersion: nat
    var generation: nat
    var finalizer: bool
    var deleting: bool
    var annotations: Annotations
    var plain: ReleaseSpec
    var credentials: CredentialsObject?
    var tls: TLSObject?
    var status: ReleaseStatus

    function Spec(): ReleaseSpec
      reads this`plain, this`credentials, this`tls, credentials, tls, if tls == null then null else tls.caSecret
    {
      plain.(credentials := CredentialsValue(credentials), tls := TLSValue(tls))
    }

    function Value(): ReleaseProxy
      reads this, credentials, tls, if tls == null then null else tls.caSecret
    {
      ReleaseProxy(namespace, chartLabel, clusterLabel, resourceVersion, generation, finalizer, deleting, annotations,
                   Spec(), status)
    }

    /** An object that is not stored yet. */
    constructor New()
      ensures Value() == ReleaseProxy("", "", "", 0, 0, false, false, Annotations(None, None), EMPTY_SPEC, NO_STATUS)
      ensures credentials == null && tls == null
    {
      namespace, chartLabel, clusterLabel := "", "", "";
      resourceVersion, generation, finalizer, deleting := 0, 0, false, false;
      annotations, plain, status := Annotations(None, None), EMPTY_SPEC, NO_STATUS;
      credentials, tls := null, null;
    }

    /** An object read from the store. */
    constructor Read(p: ReleaseProxy)
      ensures Value() == p
      ensures credentials != null ==> fresh(credentials)
      ensures tls != null ==> fresh(tls) && (tls.caSecret != null ==> fresh(tls.caSecret))
    {
      namespace, chartLabel, clusterLabel := p.namespace, p.chartLabel, p.clusterLabel;
      resourceVersion, generation, finalizer, deleting := p.resourceVersion, p.generation, p.finalizer, p.deleting;
      annotations, plain, status := p.annotations, p.spec, p.status;
      credentials, tls := null, null;
      new;
      if p.spec.credentials.Some? {
        credentials := new CredentialsObject(p.spec.credentials.value.secret, p.spec.credentials.value.key);
      }
      if p.spec.tls.Some? {
        var ca: SecretObject? := null;
        if p.spec.tls.value.caSecret.Some? {
          ca := new SecretObject(p.spec.tls.value.caSecret.value);
        }
        tls := new TLSObject(ca, p.spec.tls.value.insecureSkipVerify);
      }
    }

    /** The defaulting webhook. */
    method Default()
      modifies this`plain
      ensures Value() == old(Value()).(spec := DefaultRelease(old(Spec())))
    {
      if plain.releaseNamespace == "" {
        plain := plain.(releaseNamespace := DEFAULT_NAMESPACE);
      }
    }

    /** Only an empty name is filled in. */
    method SetReleaseName(name: string)
      modifies this`plain
      ensures Value() == old(Value()).(spec := NameRelease(old(Spec()), name))
    {
      if plain.releaseName == "" {
        plain := plain.(releaseName := name);
      }
    }

    method SetReleaseStatus(s: HelmStatus)
      modifies this`status
      ensures Value() == old(Value()).(status := old(status).(helmStatus := Some(s)))
    {
      status := status.(helmStatus := Some(s));
    }

    method SetReleaseRevision(revision: nat)
      modifies this`status
      ensures Value() == old(Value()).(status := old(status).(revision := revision))
    {
      status := status.(revision := revision);
    }

    method SetClusterAvailable(c: Condition)
      modifies this`status
      ensures Value() == ReleaseFlow.SetClusterAvailable(old(Value()), c)
    {
      status := status.(clusterAvailable := c);
    }

    method SetReleaseReady(c: Condition)
      modifies this`status
      ensures Value() == ReleaseFlow.SetReleaseReady(old(Value()), c)
    {
      status := status.(releaseReady := c);
    }
  }

  const EMPTY_SPEC := ReleaseSpec(ObjectKey("", ""), "", "", "", "", "", "", Unset, HelmOptions(false, false, None, {}),
                                  None, None)

  /** The existing object, if there is one, as a value. */
  function ValueOf(p: ReleaseObject?): Option<ReleaseProxy>
    reads p, if p == null then null else p.credentials, if p == null then null else p.tls,
      if p == null || p.tls == null then null else p.tls.caSecret
  {
    if p == null then None else Some(p.Value())
  }

  /** The first half of constructHelmReleaseProxy on an existing object. */
  method NeedsUpdate(existing: ReleaseObject, hcp: ChartObject, values: string) returns (changed: bool)
    ensures changed == SpecChanged(existing.Spec(), hcp.key.namespace, hcp.Spec(), values)
    ensures !changed <==>
      && existing.plain.version == hcp.plain.version && existing.plain.values == values
      && SecretsIn(existing.Spec(), hcp.key.namespace)
  {
    changed := false;
    if existing.plain.version != hcp.plain.version {
      changed := true;
    }
    if existing.plain.values != values {
      changed := true;
    }
    if existing.credentials != null && existing.credentials.secret.namespace != hcp.key.namespace {
      changed := true;
    }
    if existing.tls != null && existing.tls.caSecret != null &&
       existing.tls.caSecret.ref.namespace != hcp.key.namespace
    {
      changed := true;
    }
  }

  /** A copy of the credentials, resolved in `namespace`, with the default key if it has none. */
  method CopyCredentialsInto(c: CredentialsObject?, namespace: string) returns (copy: CredentialsObject?)
    ensures CredentialsValue(copy) == LocalCredentials(CredentialsValue(c), namespace)
    ensures copy != null ==> fresh(copy)
  {
    copy := CopyCredentials(c);
    if copy != null {
      copy.secret := copy.secret.(namespace := namespace);
      if copy.key == "" {
        copy.key := DEFAULT_OCI_KEY;
      }
    }
  }

  /** A copy of the TLS settings, the CA secret resolved in `namespace`. */
  method CopyTLSInto(t: TLSObject?, namespace: string) returns (copy: TLSObject?)
    ensures TLSValue(copy) == LocalTLS(TLSValue(t), namespace)
    ensures copy != null ==> fresh(copy) && (copy.caSecret != null ==> fresh(copy.caSecret))
  {
    copy := CopyTLS(t);
    if copy != null && copy.caSecret != null {
      copy.caSecret.ref := copy.caSecret.ref.(namespace := namespace);
    }
  }

  /** The second half: the fields copied on a new and on a changed object alike. */
  method CopyFields(p: ReleaseObject, hcp: ChartObject, values: string)
    modifies p`plain, p`credentials, p`tls
    ensures p.Value() == old(p.Value()).(spec := Refresh(old(p.Spec()), hcp.key.namespace, hcp.Spec(), values))
    ensures p.credentials != null ==> fresh(p.credentials)
    ensures p.tls != null ==> fresh(p.tls) && (p.tls.caSecret != null ==> fresh(p.tls.caSecret))
  {
    p.plain := p.plain.(strategy := hcp.plain.strategy, version := hcp.plain.version, values := values,
                        options := hcp.plain.options);
    p.credentials := CopyCredentialsInto(hcp.credentials, hcp.key.namespace);
    p.tls := CopyTLSInto(hcp.tls, hcp.key.namespace);
  }

  /** constructHelmReleaseProxy: an existing object is updated in place, the HelmChartProxy is
      not, and the result shares no credentials or TLS settings with it. */
  method Construct(existing: ReleaseObject?, hcp: ChartObject, values: string, cluster: ObjectKey)
    returns (p: ReleaseObject?)
    modifies if existing == null then {} else {existing}
    ensures hcp.Spec() == old(hcp.Spec())
    ensures ValueOf(p) == Phases.Construct(old(ValueOf(existing)), hcp.key, hcp.Spec(), values, cluster)
    ensures p == null <==>
      && existing != null
      && old(existing.plain.version) == hcp.plain.version && old(existing.plain.values) == values
      && SecretsIn(old(existing.Spec()), hcp.key.namespace)
    ensures p != null ==> if existing == null then fresh(p) else p == existing
    ensures p == null ==> ValueOf(existing) == old(ValueOf(existing))
    ensures p != null && p.credentials != null ==> fresh(p.credentials)
    ensures p != null && p.tls != null ==> fresh(p.tls) && (p.tls.caSecret != null ==> fresh(p.tls.caSecret))
  {
    hide LocalCredentials, LocalTLS, SpecChanged;
    if existing == null {
      p := new ReleaseObject.New();
      p.namespace, p.chartLabel, p.clusterLabel := hcp.key.namespace, hcp.key.name, cluster.name;
      p.plain := p.plain.(cluster := cluster, releaseName := hcp.plain.releaseName, chart := hcp.plain.chart,
                          repoURL := hcp.plain.repoURL, releaseNamespace := hcp.plain.releaseNamespace);
    } else {
      var changed := NeedsUpdate(existing, hcp, values);
      if !changed {
        return null;
      }
      p := existing;
    }
    CopyFields(p, hcp, values);
  }
}
