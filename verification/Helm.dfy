/** The Helm client's decisions: install, upgrade or leave alone, and the recovery of a
    release stuck in a pending status. What the Helm library does is the argument `HelmEnv`. */
module Helm {
  import opened Types

  /** What the library does when it is asked to install or to upgrade: it gives up before
      storing anything; it stores a new revision and perhaps fails as well; or, under `atomic`,
      it fails and takes back what it stored, returning the failed release with the error. */
  datatype Effect =
    | Aborts
    | Stores(status: HelmStatus, fails: bool, returned: bool)
    | RollsBack

  datatype HelmEnv = HelmEnv(
    getFails: bool,             // reading the release fails for a reason other than "not found"
    overwriteFails: bool,       // overwriting a pending status fails
    located: Option<string>,    // version of the chart that was located and loaded
    norm: string -> string,     // normal form under which values are compared
    effect: Effect,
    generatedName: string)

  /** What a call returns to the release controller. */
  datatype Outcome = Outcome(name: string, release: Option<Release>, failed: bool)

  /** `upgradedFrom` is the stored revision at the moment an upgrade was issued. */
  datatype CallResult = CallResult(
    releases: map<ReleaseKey, Release>,
    outcome: Outcome,
    upgradedFrom: Option<Release>)

  datatype Verdict = Undecided | UpToDate | MustUpgrade

  /** shouldUpgradeHelmRelease. */
  function ShouldUpgrade(norm: string -> string, existing: Release, version: string, values: string): Verdict {
    if existing.version.None? then Undecided
    else if existing.version.value != version then MustUpgrade
    else if existing.status == Failed then MustUpgrade
    else if norm(existing.config) != norm(values) then MustUpgrade
    else UpToDate
  }

  function Fail(releases: map<ReleaseKey, Release>, spec: ReleaseSpec): CallResult {
    CallResult(releases, Outcome(spec.releaseName, None, true), None)
  }

  /** GetHelmRelease: a spec without a release name has no release. */
  function Get(releases: map<ReleaseKey, Release>, spec: ReleaseSpec): Option<Release> {
    if spec.releaseName != "" && KeyOf(spec) in releases then Some(releases[KeyOf(spec)]) else None
  }

  /** A rollback deploys the contents of the revision before the failed one, as yet another. */
  function RolledBack(r: Release): Release {
    r.(status := Deployed, revision := r.revision + 2)
  }

  /** The library storing one more revision under `key`. */
  function StoreRevision(releases: map<ReleaseKey, Release>, key: ReleaseKey, spec: ReleaseSpec, version: string,
                         effect: Effect): (map<ReleaseKey, Release>, Outcome)
  {
    match effect
    case Aborts => (releases, Outcome(key.name, None, true))
    case Stores(status, fails, returned) =>
      var revision := if key in releases then releases[key].revision + 1 else 1;
      var r := Release(status, revision, Some(version), spec.values);
      (releases[key := r], Outcome(key.name, if fails && !returned then None else Some(r), fails))
    case RollsBack =>
      var revision := if key in releases then releases[key].revision + 1 else 1;
      (if key in releases then releases[key := RolledBack(releases[key])] else releases,
       Outcome(key.name, Some(Release(Failed, revision, Some(version), spec.values)), true))
  }

  /** InstallHelmRelease: the library refuses a name that is already in use. */
  function Install(releases: map<ReleaseKey, Release>, spec: ReleaseSpec, env: HelmEnv): CallResult {
    var key := KeyOf(spec).(name := if spec.releaseName == "" then env.generatedName else spec.releaseName);
    if env.located.None? || key.name == "" || key in releases then Fail(releases, spec)
    else
      var (releases', outcome) := StoreRevision(releases, key, spec, env.located.value, env.effect);
      CallResult(releases', outcome, None)
  }

  /** UpgradeHelmReleaseIfChanged: decides on `existing`, the revision read earlier. The
      library refuses to upgrade while the stored revision is pending. */
  function UpgradeIfChanged(releases: map<ReleaseKey, Release>, spec: ReleaseSpec, existing: Release, env: HelmEnv)
    : CallResult
    requires KeyOf(spec) in releases
  {
    if env.located.None? then Fail(releases, spec)
    else
      match ShouldUpgrade(env.norm, existing, env.located.value, spec.values)
      case Undecided => Fail(releases, spec)
      case UpToDate => CallResult(releases, Outcome(spec.releaseName, Some(existing), false), None)
      case MustUpgrade =>
        var stored := releases[KeyOf(spec)];
        if stored.status.IsPending() then Fail(releases, spec).(upgradedFrom := Some(stored))
        else
          var (releases', outcome) := StoreRevision(releases, KeyOf(spec), spec, env.located.value, env.effect);
          CallResult(releases', outcome, Some(stored))
  }

  /** updateLastReleaseStatus, writing `Failed` over a pending status. */
  function OverwritePending(releases: map<ReleaseKey, Release>, key: ReleaseKey): map<ReleaseKey, Release>
    requires key in releases
  {
    if releases[key].status.IsPending() then releases[key := releases[key].(status := Failed)] else releases
  }

  /** InstallOrUpgradeHelmRelease. */
  function InstallOrUpgrade(releases: map<ReleaseKey, Release>, spec: ReleaseSpec, env: HelmEnv): CallResult {
    if spec.releaseName != "" && env.getFails then Fail(releases, spec)
    else
      match Get(releases, spec)
      case None => Install(releases, spec, env)
      case Some(existing) =>
        if existing.status.IsPending() && env.overwriteFails then Fail(releases, spec)
        else UpgradeIfChanged(OverwritePending(releases, KeyOf(spec)), spec, existing, env)
  }

  /** Helm's uninstall removes the release, or keeps it as history. */
  function AfterUninstall(releases: map<ReleaseKey, Release>, key: ReleaseKey, keepHistory: bool)
    : map<ReleaseKey, Release>
    requires key in releases
  {
    if keepHistory then releases[key := releases[key].(status := HelmStatus.Uninstalled)] else releases - {key}
  }

  /** An environment in which no call fails and every revision ends up deployed. */
  predicate Healthy(env: HelmEnv) {
    && !env.getFails && !env.overwriteFails && env.located.Some?
    && env.effect == Stores(Deployed, false, true)
  }

  /** The upgrade the library would refuse is never asked for. */
  lemma UpgradeNeverIssuedWhilePending(releases: map<ReleaseKey, Release>, spec: ReleaseSpec, env: HelmEnv)
    ensures var r := InstallOrUpgrade(releases, spec, env);
      r.upgradedFrom.Some? ==>
        r.upgradedFrom.value.status !in {PendingInstall, PendingUpgrade, PendingRollback}
  {
  }

  /** A call touches no release but the one it names, or the one it generates. */
  lemma CallFrame(releases: map<ReleaseKey, Release>, spec: ReleaseSpec, env: HelmEnv, key: ReleaseKey)
    requires key != KeyOf(spec).(name := if spec.releaseName == "" then env.generatedName else spec.releaseName)
    ensures var r := InstallOrUpgrade(releases, spec, env);
      && (key in r.releases <==> key in releases)
      && (key in releases ==> r.releases[key] == releases[key])
  {
  }

  /** A named or a generated install: with nothing stored under the name, an error-free call
      stores the first revision with the located chart and the given values, and returns the
      name it used. */
  lemma InstallsUnderTheName(releases: map<ReleaseKey, Release>, spec: ReleaseSpec, env: HelmEnv)
    requires Healthy(env) && env.generatedName != ""
    requires var name := if spec.releaseName == "" then env.generatedName else spec.releaseName;
      ReleaseKey(spec.cluster, spec.releaseNamespace, name) !in releases
    ensures var name := if spec.releaseName == "" then env.generatedName else spec.releaseName;
      var first := Release(Deployed, 1, env.located, spec.values);
      var r := InstallOrUpgrade(releases, spec, env);
      && r.releases == releases[ReleaseKey(spec.cluster, spec.releaseNamespace, name) := first]
      && r.outcome == Outcome(name, Some(first), false) && r.upgradedFrom.None?
  {
  }

  /** What is returned and left behind when a call fails before it installs or upgrades. */
  ghost predicate FailsWith(r: CallResult, releases: map<ReleaseKey, Release>) {
    r.outcome.failed && r.outcome.release.None? && r.upgradedFrom.None? && r.releases == releases
  }

  /** A read that fails for another reason than "not found" ends the call; a spec without a
      release name reads nothing. */
  lemma FailedReadInstallsNothing(releases: map<ReleaseKey, Release>, spec: ReleaseSpec, env: HelmEnv)
    requires env.getFails
    ensures spec.releaseName != "" ==> FailsWith(InstallOrUpgrade(releases, spec, env), releases)
    ensures spec.releaseName == "" ==>
      InstallOrUpgrade(releases, spec, env) == InstallOrUpgrade(releases, spec, env.(getFails := false))
  {
  }

  /** A pending status that cannot be overwritten ends the call as well. */
  lemma FailedOverwriteUpgradesNothing(releases: map<ReleaseKey, Release>, spec: ReleaseSpec, env: HelmEnv)
    requires spec.releaseName != "" && KeyOf(spec) in releases && releases[KeyOf(spec)].status.IsPending()
    requires env.overwriteFails
    ensures FailsWith(InstallOrUpgrade(releases, spec, env), releases)
  {
  }

  /** The release store once a pending status under the spec's name is overwritten. */
  function Unblocked(releases: map<ReleaseKey, Release>, spec: ReleaseSpec): map<ReleaseKey, Release> {
    var key := ReleaseKey(spec.cluster, spec.releaseNamespace, spec.releaseName);
    if spec.releaseName != "" && key in releases &&
       releases[key].status in {PendingInstall, PendingUpgrade, PendingRollback}
    then releases[key := releases[key].(status := Failed)] else releases
  }

  /** Without the chart nothing is installed or upgraded; a pending status has been overwritten. */
  lemma NoChartInstallsNothing(releases: map<ReleaseKey, Release>, spec: ReleaseSpec, env: HelmEnv)
    requires env.located.None? && !env.getFails && !env.overwriteFails
    ensures FailsWith(InstallOrUpgrade(releases, spec, env), Unblocked(releases, spec))
  {
  }

  /** A generated name that is taken, or empty, installs nothing. */
  lemma TakenNameInstallsNothing(releases: map<ReleaseKey, Release>, spec: ReleaseSpec, env: HelmEnv)
    requires spec.releaseName == ""
    requires env.generatedName == "" ||
             ReleaseKey(spec.cluster, spec.releaseNamespace, env.generatedName) in releases
    ensures FailsWith(InstallOrUpgrade(releases, spec, env), releases)
  {
  }

  /** The library is asked to install or to upgrade: the chart is there, the calls before do not
      fail, and the release is absent, or due for an upgrade. */
  predicate GoesAhead(releases: map<ReleaseKey, Release>, spec: ReleaseSpec, env: HelmEnv) {
    && env.located.Some? && !env.overwriteFails && (spec.releaseName == "" || !env.getFails)
    && if spec.releaseName == ""
       then env.generatedName != "" && ReleaseKey(spec.cluster, spec.releaseNamespace, env.generatedName) !in releases
       else KeyOf(spec) in releases ==>
         var r := releases[KeyOf(spec)];
         && r.version.Some?
         && (r.version != env.located || r.status == Failed || env.norm(r.config) != env.norm(spec.values))
  }

  /** Then exactly what the library does is stored and returned: whether it fails or not, a revision
      it stored stays under the name, and comes back unless it failed without returning it. */
  lemma GoesAheadAsAsked(releases: map<ReleaseKey, Release>, spec: ReleaseSpec, env: HelmEnv)
    requires GoesAhead(releases, spec, env) && !env.effect.RollsBack?
    ensures var name := if spec.releaseName == "" then env.generatedName else spec.releaseName;
      var key := ReleaseKey(spec.cluster, spec.releaseNamespace, name);
      var r := InstallOrUpgrade(releases, spec, env);
      match env.effect
      case Aborts => r.releases == Unblocked(releases, spec) && r.outcome == Outcome(name, None, true)
      case Stores(status, fails, returned) =>
        var revision := if key in releases then releases[key].revision + 1 else 1;
        var next := Release(status, revision, env.located, spec.values);
        && r.releases == releases[key := next]
        && r.outcome == Outcome(name, if fails && !returned then None else Some(next), fails)
  {
  }

  /** In all other cases the library is not asked: nothing is stored but perhaps the overwritten
      status, and the call fails unless a release that is as requested was read, which comes back. */
  lemma OtherwiseStandsStill(releases: map<ReleaseKey, Release>, spec: ReleaseSpec, env: HelmEnv)
    requires env.overwriteFails || !GoesAhead(releases, spec, env)
    requires env.overwriteFails ==> spec.releaseName != "" && KeyOf(spec) in releases &&
                                    releases[KeyOf(spec)].status.IsPending()
    ensures var r := InstallOrUpgrade(releases, spec, env);
      && r.upgradedFrom.None? && (r.releases == releases || r.releases == Unblocked(releases, spec))
      && (r.outcome.failed <==> r.outcome.release.None?)
      && (r.outcome.release.Some? <==>
            && spec.releaseName != "" && KeyOf(spec) in releases && env.located.Some?
            && !env.getFails && !env.overwriteFails
            && var s := releases[KeyOf(spec)];
               s.version == env.located && s.status != Failed && env.norm(s.config) == env.norm(spec.values))
      && (r.outcome.release.Some? ==> r.outcome.release.value == releases[KeyOf(spec)])
      && (r.outcome.release.Some? ==> r.releases == Unblocked(releases, spec))
  {
  }

  /** A failing atomic call takes back what it did: an install leaves nothing, an upgrade leaves
      the contents from before, two revisions later. Either way the failed release is returned
      with the error. */
  lemma AtomicFailureTakesBack(releases: map<ReleaseKey, Release>, spec: ReleaseSpec, env: HelmEnv)
    requires spec.releaseName != "" && !env.getFails && !env.overwriteFails && env.located.Some?
    requires env.effect == RollsBack
    requires KeyOf(spec) in releases ==>
      !releases[KeyOf(spec)].status.IsPending() &&
      ShouldUpgrade(env.norm, releases[KeyOf(spec)], env.located.value, spec.values) == MustUpgrade
    ensures var key := KeyOf(spec);
      var r := InstallOrUpgrade(releases, spec, env);
      var revision := if key in releases then releases[key].revision + 1 else 1;
      && r.outcome == Outcome(key.name, Some(Release(Failed, revision, env.located, spec.values)), true)
      && r.releases == if key in releases
                       then releases[key := releases[key].(status := Deployed, revision := revision + 1)] else releases
  {
  }

  /** A stored release without chart metadata is an error, and nothing is upgraded; if it was
      pending, its status has been overwritten all the same. */
  lemma UnreadableVersionFails(releases: map<ReleaseKey, Release>, spec: ReleaseSpec, env: HelmEnv)
    requires spec.releaseName != "" && KeyOf(spec) in releases && releases[KeyOf(spec)].version.None?
    ensures var r := InstallOrUpgrade(releases, spec, env);
      && r.outcome.failed && r.outcome.release.None? && r.upgradedFrom.None?
      && r.releases == (if releases[KeyOf(spec)].status.IsPending() && !env.getFails && !env.overwriteFails
                        then releases[KeyOf(spec) := releases[KeyOf(spec)].(status := Failed)] else releases)
  {
  }

  /** Uninstalling takes the one release away, or leaves its last revision as history. */
  lemma UninstallTakesAway(releases: map<ReleaseKey, Release>, key: ReleaseKey, keepHistory: bool)
    requires key in releases
    ensures var left := AfterUninstall(releases, key, keepHistory);
      && left - {key} == releases - {key} && (key in left <==> keepHistory)
      && (keepHistory ==> left[key].status == HelmStatus.Uninstalled && left[key].revision == releases[key].revision)
  {
  }

  /** Repeated calls with one spec in one environment. */
  function Calls(n: nat, releases: map<ReleaseKey, Release>, spec: ReleaseSpec, env: HelmEnv)
    : map<ReleaseKey, Release>
  {
    if n == 0 then releases else InstallOrUpgrade(Calls(n - 1, releases, spec, env), spec, env).releases
  }

  /** What a release looks like once the client has nothing left to do. */
  predicate Settled(norm: string -> string, r: Release, version: string, values: string) {
    !r.status.IsPending() && ShouldUpgrade(norm, r, version, values) == UpToDate
  }

  /** From any release that is not pending, one call moves the revision exactly when the
      chart version differs, the stored status is failed, or the normal forms differ. */
  lemma RevisionMovesExactlyWhen(releases: map<ReleaseKey, Release>, spec: ReleaseSpec, env: HelmEnv)
    requires spec.releaseName != "" && KeyOf(spec) in releases
    requires Healthy(env)
    requires !releases[KeyOf(spec)].status.IsPending() && releases[KeyOf(spec)].version.Some?
    ensures var before := releases[KeyOf(spec)];
      var r := InstallOrUpgrade(releases, spec, env);
      && KeyOf(spec) in r.releases
      && var after := r.releases[KeyOf(spec)];
      && (after.revision != before.revision <==>
           before.version != env.located || before.status == Failed ||
           env.norm(before.config) != env.norm(spec.values))
      && (after.revision != before.revision ==>
           after == Release(Deployed, before.revision + 1, env.located, spec.values))
      && (after.revision == before.revision ==> after == before)
      && Settled(env.norm, after, env.located.value, spec.values)
  {
  }

  lemma {:induction false} SettledForever(
    n: nat, releases: map<ReleaseKey, Release>, spec: ReleaseSpec, env: HelmEnv)
    requires spec.releaseName != "" && KeyOf(spec) in releases
    requires env.located.Some?
    requires Settled(env.norm, releases[KeyOf(spec)], env.located.value, spec.values)
    ensures Calls(n, releases, spec, env) == releases
  {
    if n > 0 {
      SettledForever(n - 1, releases, spec, env);
    }
  }

  lemma {:induction false} CallsCompose(
    m: nat, n: nat, releases: map<ReleaseKey, Release>, spec: ReleaseSpec, env: HelmEnv)
    ensures Calls(m + n, releases, spec, env) == Calls(n, Calls(m, releases, spec, env), spec, env)
  {
    hide InstallOrUpgrade;
    if n > 0 {
      CallsCompose(m, n - 1, releases, spec, env);
      assert m + n - 1 == m + (n - 1);
    }
  }

  /** Pending recovery: two healthy calls leave the release deployed at exactly one revision
      more, with the requested chart and values; one call suffices exactly when the chart
      version or the values differ. */
  lemma PendingRecovery(releases: map<ReleaseKey, Release>, spec: ReleaseSpec, env: HelmEnv)
    requires spec.releaseName != "" && KeyOf(spec) in releases
    requires Healthy(env)
    requires releases[KeyOf(spec)].status.IsPending() && releases[KeyOf(spec)].version.Some?
    ensures var before := releases[KeyOf(spec)];
      var recovered := Release(Deployed, before.revision + 1, env.located, spec.values);
      && Calls(2, releases, spec, env) == releases[KeyOf(spec) := recovered]
      && (Calls(1, releases, spec, env) == releases[KeyOf(spec) := recovered] <==>
           before.version != env.located || env.norm(before.config) != env.norm(spec.values))
  {
    var key := KeyOf(spec);
    var before := releases[key];
    var recovered := Release(Deployed, before.revision + 1, env.located, spec.values);
    var once := InstallOrUpgrade(releases, spec, env).releases;
    assert Calls(0, releases, spec, env) == releases;
    assert Calls(1, releases, spec, env) == once;
    if before.version != env.located || env.norm(before.config) != env.norm(spec.values) {
      assert once == releases[key := recovered];
      assert InstallOrUpgrade(once, spec, env).releases == once;
    } else {
      assert once == releases[key := before.(status := Failed)];
      assert once[key] != recovered;
      assert InstallOrUpgrade(once, spec, env).releases == releases[key := recovered];
    }
  }

  /** Quiescence: whatever is stored under a named spec, from the second healthy call on
      nothing in the release store changes any more. */
  lemma QuiescentFromTheSecondCall(n: nat, releases: map<ReleaseKey, Release>, spec: ReleaseSpec, env: HelmEnv)
    requires spec.releaseName != ""
    requires KeyOf(spec) in releases ==> releases[KeyOf(spec)].version.Some?
    requires Healthy(env)
    requires n >= 2
    ensures Calls(n, releases, spec, env) == Calls(2, releases, spec, env)
  {
    var once := InstallOrUpgrade(releases, spec, env).releases;
    var twice := InstallOrUpgrade(once, spec, env).releases;
    assert Calls(0, releases, spec, env) == releases;
    assert Calls(1, releases, spec, env) == once;
    assert Calls(2, releases, spec, env) == twice;
    if KeyOf(spec) in releases && releases[KeyOf(spec)].status.IsPending() {
      PendingRecovery(releases, spec, env);
    } else if KeyOf(spec) in releases {
      RevisionMovesExactlyWhen(releases, spec, env);
      RevisionMovesExactlyWhen(once, spec, env);
    }
    assert Settled(env.norm, twice[KeyOf(spec)], env.located.value, spec.values);
    CallsCompose(2, n - 2, releases, spec, env);
    SettledForever(n - 2, twice, spec, env);
  }
}
