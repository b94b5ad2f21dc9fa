/** What every step keeps about Helm releases: each proxy with a stake in a live release is
    stored, carries the finalizer, and names that release. */
module ClaimInvariant {
  import opened Types
  import opened Helm
  import opened ReleaseFlow
  import opened Machine
  import opened StoreInvariant
  import opened ReleaseInvariant

  type Claims = map<ReleaseKey, set<ProxyId>>

  ghost predicate Staked(proxies: Proxies, id: ProxyId, key: ReleaseKey) {
    && id in proxies && proxies[id].finalizer
    && proxies[id].spec.strategy != InstallOnce && Identifies(proxies[id].spec, key)
  }

  ghost predicate ClaimsOk(proxies: Proxies, claims: Claims) {
    forall k <- claims, id <- claims[k] :: Staked(proxies, id, k)
  }

  ghost predicate NoClaim(claims: Claims, id: ProxyId) {
    forall k <- claims :: id !in claims[k]
  }

  /** A release reconcile that is about to take the finalizer off, or has tried to. */
  predicate Freeing(j: ReleaseJob) {
    j.base.finalizer && !j.local.finalizer && j.base.spec.strategy != InstallOnce
  }

  ghost predicate FreedOk(claims: Claims, jobs: map<ProxyId, ReleaseJob>) {
    forall id <- jobs :: Freeing(jobs[id]) ==> NoClaim(claims, id)
  }

  ghost predicate Homes(releases: map<ReleaseKey, Release>, clusters: map<ObjectKey, Cluster>) {
    forall k <- releases :: k.cluster in clusters
  }

  ghost predicate ClaimInv(w: World) {
    && ClaimsOk(w.proxies, w.history.claims)
    && w.history.claims.Keys <= w.releases.Keys
    && Homes(w.releases, w.clusters)
    && FreedOk(w.history.claims, w.releaseJobs)
  }

  lemma ClaimIdentifies(w: World, id: ProxyId, spec: ReleaseSpec)
    requires ClaimInv(w)
    requires id in w.proxies ==> SameName(w.proxies[id].spec, spec)
    requires spec.releaseName == "" || KeyOf(spec) !in w.releases || spec.cluster !in w.clusters
    ensures NoClaim(w.history.claims, id)
  {
    forall k <- w.history.claims ensures id !in w.history.claims[k] {
      assert id in w.history.claims[k] ==> Staked(w.proxies, id, k);
    }
  }

  /** Two specs that name the same release, if any. */
  ghost predicate SameName(s: ReleaseSpec, t: ReleaseSpec) {
    s.releaseName == t.releaseName && KeyOf(s) == KeyOf(t)
  }

  /* ---- writes to proxies ---- */

  /** A write leaves the stakes of `id` alone if it keeps its finalizer, strategy and name. */
  lemma WriteKeepsClaims(w: World, id: ProxyId, q: ReleaseProxy, claims: Claims)
    requires ClaimsOk(w.proxies, claims) && id in w.proxies
    requires NoClaim(claims, id) ||
             ((w.proxies[id].finalizer ==> q.finalizer) && q.spec.strategy == w.proxies[id].spec.strategy &&
              SameName(q.spec, w.proxies[id].spec))
    ensures ClaimsOk(WriteProxy(w, id, q).proxies, claims)
  {
    var w' := WriteProxy(w, id, q);
    forall k <- claims, i <- claims[k] ensures Staked(w'.proxies, i, k) {
      assert Staked(w.proxies, i, k);
    }
  }

  lemma ForeignWriteKeepsClaims(w: World, id: ProxyId, q: ReleaseProxy)
    requires ClaimInv(w) && id in w.proxies && ForeignWrite(w.proxies[id], q)
    ensures ClaimInv(WriteProxy(w, id, q))
  {
    WriteKeepsClaims(w, id, q, w.history.claims);
  }

  lemma CreateKeepsClaims(w: World, urlOk: string -> bool, key: ObjectKey, j: ChartJob)
    requires ClaimInv(w) && At(w, urlOk, key, j) && j.pc.CreateProxy?
    ensures ClaimInv(Created(w, key, j.pc.cluster, j.base.spec, j.pc.proxy))
  {
    var w' := Created(w, key, j.pc.cluster, j.base.spec, j.pc.proxy);
    assert w.clock in w.proxies ==> ProxyOk(w.charts, w.clock, w.clock, w.proxies[w.clock]);
    forall k <- w.history.claims, i <- w.history.claims[k] ensures Staked(w'.proxies, i, k) {
      assert Staked(w.proxies, i, k);
    }
  }

  lemma QuietPatchKeepsClaims(w: World, id: ProxyId, j: ReleaseJob)
    requires ClaimInv(w) && InFlight(w, id, j) && id in w.proxies && j.call.None?
    ensures ClaimInv(PatchProxy(w, id, j))
  {
    assert ReleaseJobOk(w.proxies, w.clock, id, j);
    QuietPatch(w.proxies[id], j);
    if j.base.spec.strategy == InstallOnce {
      forall k <- w.history.claims ensures id !in w.history.claims[k] {
        assert id in w.history.claims[k] ==> Staked(w.proxies, id, k);
      }
    }
    WriteKeepsClaims(w, id, MergePatch(w.proxies[id], j.base, j.local), w.history.claims);
  }

  lemma ClaimKeepsClaimsOk(proxies: Proxies, claims: Claims, key: ReleaseKey, id: ProxyId)
    requires ClaimsOk(proxies, claims) && Staked(proxies, id, key)
    ensures ClaimsOk(proxies, Claim(claims, key, id))
  {
    var claims' := Claim(claims, key, id);
    forall k <- claims', i <- claims'[k] ensures Staked(proxies, i, k) {
      if !(k == key && i == id) {
        assert k in claims && i in claims[k];
      }
    }
  }

  lemma FreedSurvivesClaim(claims: Claims, jobs: map<ProxyId, ReleaseJob>, key: ReleaseKey, id: ProxyId)
    requires FreedOk(claims, jobs)
    requires id in jobs ==> !Freeing(jobs[id])
    ensures FreedOk(Claim(claims, key, id), jobs)
  {
    var claims' := Claim(claims, key, id);
    forall i <- jobs | Freeing(jobs[i]) ensures NoClaim(claims', i) {
      assert NoClaim(claims, i);
    }
  }

  /** The last patch after a Helm call: a generated name recorded now is a new stake. */
  lemma FinishAfterCallKeepsClaims(w: World, id: ProxyId, j: ReleaseJob)
    requires ClaimInv(w) && InFlight(w, id, j) && id in w.proxies && j.call.Some?
    ensures var w' := PatchProxy(w, id, j);
      ClaimInv(EndRelease(w'.(history := Record(w.history, id, j, w.releases)), id))
  {
    assert ReleaseJobOk(w.proxies, w.clock, id, j);
    var p := w.proxies[id];
    FullPatch(p, j);
    if j.base.spec.releaseName == "" {
      ClaimIdentifies(w, id, p.spec);
    }
    WriteKeepsClaims(w, id, MergePatch(p, j.base, j.local), w.history.claims);
    var w' := PatchProxy(w, id, j);
    var spec := j.local.spec;
    if j.base.spec.releaseName == "" && spec.strategy != InstallOnce && spec.releaseName != "" &&
       KeyOf(spec) in w.releases
    {
      ClaimKeepsClaimsOk(w'.proxies, w.history.claims, KeyOf(spec), id);
      FreedSurvivesClaim(w.history.claims, w.releaseJobs - {id}, KeyOf(spec), id);
    }
  }

  /* ---- steps of a release reconcile ---- */

  lemma JumpKeepsClaims(w: World, id: ProxyId, j: ReleaseJob, pc: ReleasePc)
    requires ClaimInv(w) && (Freeing(j) ==> NoClaim(w.history.claims, id))
    ensures ClaimInv(Jump(w, id, j, pc))
  {
  }

  lemma CallKeepsKeys(w: World, spec: ReleaseSpec, env: HelmEnv)
    requires Homes(w.releases, w.clusters)
    ensures var r := HelmResult(w, spec, env);
      w.releases.Keys <= r.releases.Keys && Homes(r.releases, w.clusters)
  {
    if spec.cluster in w.clusters {
      CallAddsOneKey(w.releases, spec, env);
    }
    hide InstallOrUpgrade;
  }

  /** A call loses no release and adds at most one, named and on the spec's cluster. */
  lemma CallAddsOneKey(releases: map<ReleaseKey, Release>, spec: ReleaseSpec, env: HelmEnv)
    ensures var r := InstallOrUpgrade(releases, spec, env);
      && (forall k <- releases :: k in r.releases)
      && (forall k <- r.releases :: k in releases || (k.cluster == spec.cluster && k.name != ""))
  {
    var r := InstallOrUpgrade(releases, spec, env);
    var key := KeyOf(spec).(name := if spec.releaseName == "" then env.generatedName else spec.releaseName);
    forall k | k != key ensures k in r.releases <==> k in releases {
      CallFrame(releases, spec, env, k);
    }
  }

  /** After the Helm call: a stake is taken only by a stored proxy with its finalizer on. */
  lemma AfterCallKeepsClaims(w: World, id: ProxyId, j: ReleaseJob, r: CallResult)
    requires ClaimInv(w) && InFlight(w, id, j) && j.pc.CallHelm?
    requires w.releases.Keys <= r.releases.Keys && Homes(r.releases, w.clusters)
    ensures ClaimInv(AfterCall(w, id, j, r))
  {
    assert ReleaseJobOk(w.proxies, w.clock, id, j);
    var spec := j.local.spec;
    if spec.strategy != InstallOnce && spec.releaseName != "" && KeyOf(spec) in r.releases {
      assert Staked(w.proxies, id, KeyOf(spec));
      ClaimKeepsClaimsOk(w.proxies, w.history.claims, KeyOf(spec), id);
      FreedSurvivesClaim(w.history.claims, w.releaseJobs, KeyOf(spec), id);
    }
    var call := Call(spec, r.outcome);
    var w1 := HelmWrites(w, r.releases, Applied(id, call), Stakes(w, id, spec, r.releases));
    JumpKeepsClaims(w1, id, j.(local := AfterHelm(MarkNameGenerated(j.local), r.outcome), call := Some(call)),
                    FinishRelease);
  }

  lemma CallHelmKeepsClaims(w: World, id: ProxyId, j: ReleaseJob, e: ReleaseEnv)
    requires ClaimInv(w) && InFlight(w, id, j) && j.pc.CallHelm?
    ensures ClaimInv(StepCallHelm(w, id, j, e))
  {
    assert ReleaseJobOk(w.proxies, w.clock, id, j);
    if j.local.spec.strategy == InstallOnce && HasBeenInstalled(Some(j.local)) {
      JumpKeepsClaims(w, id, j, FinishRelease);
    } else {
      CallKeepsKeys(w, j.local.spec, e.helm);
      AfterCallKeepsClaims(w, id, j, HelmResult(w, j.local.spec, e.helm));
    }
  }

  lemma GetClustersKeepClaims(w: World, id: ProxyId, j: ReleaseJob, e: ReleaseEnv)
    requires ClaimInv(w) && InFlight(w, id, j)
    ensures j.pc.GetCluster? ==> ClaimInv(StepGetCluster(w, id, j, e))
    ensures j.pc.GetClusterForDelete? ==> ClaimInv(StepGetClusterForDelete(w, id, j, e))
  {
    assert ReleaseJobOk(w.proxies, w.clock, id, j);
    JumpKeepsClaims(w, id, j.(local := SetClusterAvailable(j.local, IsFalse)), FinishRelease);
    JumpKeepsClaims(w, id, j.(local := SetClusterAvailable(j.local, IsTrue)), CallHelm);
    JumpKeepsClaims(w, id, j.(local := SetClusterAvailable(j.local, IsTrue)), Uninstall);
    if j.pc.GetClusterForDelete? && j.base.spec.cluster !in w.clusters {
      ClaimIdentifies(w, id, j.base.spec);
      JumpKeepsClaims(w, id, ReleaseFinalizer(j), UnpatchFinalizer);
    }
  }

  lemma UninstallFrees(w: World, id: ProxyId, spec: ReleaseSpec, keepHistory: bool)
    requires ClaimInv(w) && KeyOf(spec) in w.releases
    requires id in w.proxies ==> SameName(w.proxies[id].spec, spec)
    ensures var w1 := HelmWrites(w, AfterUninstall(w.releases, KeyOf(spec), keepHistory), Event.Uninstalled(id, spec),
                                 w.history.claims - {KeyOf(spec)});
      ClaimInv(w1) && NoClaim(w1.history.claims, id)
  {
    var claims := w.history.claims - {KeyOf(spec)};
    forall k <- claims ensures id !in claims[k] {
      assert id in claims[k] ==> Staked(w.proxies, id, k);
    }
    forall i <- w.releaseJobs | Freeing(w.releaseJobs[i]) ensures NoClaim(claims, i) {
      assert NoClaim(w.history.claims, i);
    }
  }

  lemma UninstallKeepsClaims(w: World, id: ProxyId, j: ReleaseJob, e: ReleaseEnv)
    requires ClaimInv(w) && InFlight(w, id, j) && j.pc.Uninstall?
    ensures ClaimInv(StepUninstall(w, id, j, e))
  {
    assert ReleaseJobOk(w.proxies, w.clock, id, j);
    var spec := j.base.spec;
    if spec.strategy == InstallOnce {
      JumpKeepsClaims(w, id, ReleaseFinalizer(j), UnpatchFinalizer);
    } else if spec.releaseName == "" {
      ClaimIdentifies(w, id, spec);
      JumpKeepsClaims(w, id, ReleaseGone(j), UnpatchFinalizer);
    } else if spec.cluster !in w.clusters || e.helm.getFails {
      JumpKeepsClaims(w, id, j.(local := SetReleaseReady(j.local, IsFalse)), FinishRelease);
    } else if KeyOf(spec) !in w.releases {
      ClaimIdentifies(w, id, spec);
      JumpKeepsClaims(w, id, ReleaseGone(j), UnpatchFinalizer);
    } else if !e.uninstallOk {
      JumpKeepsClaims(w, id, j.(local := SetReleaseReady(j.local, IsFalse)), FinishRelease);
    } else {
      UninstallFrees(w, id, spec, e.keepHistory);
      var w1 := HelmWrites(w, AfterUninstall(w.releases, KeyOf(spec), e.keepHistory), Event.Uninstalled(id, spec),
                           w.history.claims - {KeyOf(spec)});
      JumpKeepsClaims(w1, id, ReleaseGone(j), UnpatchFinalizer);
    }
  }

  lemma PatchStepsKeepClaims(w: World, id: ProxyId, j: ReleaseJob, e: ReleaseEnv)
    requires ClaimInv(w) && InFlight(w, id, j)
    ensures j.pc.PatchConditions? ==> ClaimInv(StepPatchConditions(w, id, j, e))
    ensures j.pc.PatchFinalizer? ==> ClaimInv(StepPatchFinalizer(w, id, j, e))
    ensures j.pc.UnpatchFinalizer? ==> ClaimInv(StepUnpatchFinalizer(w, id, j, e))
  {
    assert ReleaseJobOk(w.proxies, w.clock, id, j);
    var w1 := w;
    if e.apiOk && id in w.proxies && j.call.None? {
      QuietPatchKeepsClaims(w, id, j);
      w1 := PatchProxy(w, id, j);
    }
    if j.pc.PatchConditions? {
      var b := Branch(j.base, j.local);
      assert b.(pc := b.pc) == b;
      JumpKeepsClaims(w1, id, b, b.pc);
    } else {
      JumpKeepsClaims(w1, id, j, GetCluster);
      JumpKeepsClaims(w1, id, j, FinishRelease);
    }
  }

  lemma FinishKeepsClaims(w: World, id: ProxyId, j: ReleaseJob, e: ReleaseEnv)
    requires ClaimInv(w) && InFlight(w, id, j) && j.pc.FinishRelease?
    ensures ClaimInv(StepFinishRelease(w, id, j, e))
  {
    assert ReleaseJobOk(w.proxies, w.clock, id, j);
    if e.apiOk && id in w.proxies {
      if j.call.Some? {
        FinishAfterCallKeepsClaims(w, id, j);
      } else {
        QuietPatchKeepsClaims(w, id, j);
      }
    }
  }

  lemma ReleaseStepKeepsClaims(w: World, id: ProxyId, j: ReleaseJob, e: ReleaseEnv)
    requires ClaimInv(w) && InFlight(w, id, j)
    ensures ClaimInv(StepRelease(w, id, j, e))
  {
    match j.pc
    case PatchConditions => PatchStepsKeepClaims(w, id, j, e);
    case PatchFinalizer => PatchStepsKeepClaims(w, id, j, e);
    case GetCluster => GetClustersKeepClaims(w, id, j, e);
    case CallHelm => CallHelmKeepsClaims(w, id, j, e);
    case GetClusterForDelete => GetClustersKeepClaims(w, id, j, e);
    case Uninstall => UninstallKeepsClaims(w, id, j, e);
    case UnpatchFinalizer => PatchStepsKeepClaims(w, id, j, e);
    case FinishRelease => FinishKeepsClaims(w, id, j, e);
  }

  /* ---- clusters and releases changing by themselves ---- */

  lemma OutsideKeepsClaims(w: World, cluster: ObjectKey, state: Option<Cluster>, release: ReleaseKey,
                           revision: Option<Release>)
    requires ClaimInv(w)
    ensures ClaimInv(StepClusterChanges(w, cluster, state))
    ensures ClaimInv(StepReleaseChanges(w, release, revision))
  {
    forall lost: set<ReleaseKey> ensures FreedOk(w.history.claims - lost, w.releaseJobs) {
      forall i <- w.releaseJobs | Freeing(w.releaseJobs[i]) ensures NoClaim(w.history.claims - lost, i) {
        assert NoClaim(w.history.claims, i);
      }
    }
  }
}
