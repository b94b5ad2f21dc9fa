/** The Helm client as the program runs it: a sequence of effects on the release stores, each
    method proved to do what the decision functions say. */
module Client {
  import opened Types
  import opened Helm

  class HelmClient {
    var releases: map<ReleaseKey, Release>

    constructor (stored: map<ReleaseKey, Release>)
      ensures releases == stored
    {
      releases := stored;
    }

    /** GetHelmRelease: without a failure, no result means "not found". */
    method GetHelmRelease(spec: ReleaseSpec, getFails: bool) returns (found: Option<Release>, failed: bool)
      ensures failed <==> spec.releaseName != "" && getFails
      ensures found == if failed then None else Get(releases, spec)
    {
      if spec.releaseName == "" {
        return None, false;
      }
      if getFails {
        return None, true;
      }
      if KeyOf(spec) in releases {
        return Some(releases[KeyOf(spec)]), false;
      }
      return None, false;
    }

    /** The library storing one more revision. */
    method StoreNext(key: ReleaseKey, spec: ReleaseSpec, version: string, effect: Effect) returns (o: Outcome)
      modifies this
      ensures (releases, o) == StoreRevision(old(releases), key, spec, version, effect)
    {
      if effect.Aborts? {
        return Outcome(key.name, None, true);
      }
      var revision: nat := 1;
      if key in releases {
        revision := releases[key].revision + 1;
      }
      if effect.RollsBack? {
        if key in releases {
          releases := releases[key := RolledBack(releases[key])];
        }
        return Outcome(key.name, Some(Release(Failed, revision, Some(version), spec.values)), true);
      }
      var r := Release(effect.status, revision, Some(version), spec.values);
      releases := releases[key := r];
      if effect.fails && !effect.returned {
        return Outcome(key.name, None, true);
      }
      return Outcome(key.name, Some(r), effect.fails);
    }

    method InstallHelmRelease(spec: ReleaseSpec, env: HelmEnv) returns (o: Outcome)
      modifies this
      ensures releases == Install(old(releases), spec, env).releases && o == Install(old(releases), spec, env).outcome
    {
      var key := KeyOf(spec);
      if spec.releaseName == "" {
        key := key.(name := env.generatedName);
      }
      if env.located.None? || key.name == "" || key in releases {
        return Outcome(spec.releaseName, None, true);
      }
      o := StoreNext(key, spec, env.located.value, env.effect);
    }

    /** updateLastReleaseStatus. */
    method UpdateLastReleaseStatus(key: ReleaseKey, status: HelmStatus, fails: bool) returns (failed: bool)
      modifies this
      ensures failed <==> fails || key !in old(releases)
      ensures releases == if failed then old(releases) else old(releases)[key := old(releases)[key].(status := status)]
    {
      if fails || key !in releases {
        return true;
      }
      releases := releases[key := releases[key].(status := status)];
      return false;
    }

    /** `from` is the stored revision at the moment the library is asked to upgrade, if it is. */
    method UpgradeHelmReleaseIfChanged(spec: ReleaseSpec, existing: Release, env: HelmEnv)
      returns (o: Outcome, ghost from: Option<Release>)
      requires KeyOf(spec) in releases
      modifies this
      ensures CallResult(releases, o, from) == UpgradeIfChanged(old(releases), spec, existing, env)
    {
      from := None;
      if env.located.None? {
        return Outcome(spec.releaseName, None, true), from;
      }
      var verdict := ShouldUpgrade(env.norm, existing, env.located.value, spec.values);
      if verdict == Undecided {
        return Outcome(spec.releaseName, None, true), from;
      }
      if verdict == UpToDate {
        return Outcome(spec.releaseName, Some(existing), false), from;
      }
      from := Some(releases[KeyOf(spec)]);
      if releases[KeyOf(spec)].status.IsPending() {
        return Outcome(spec.releaseName, None, true), from;
      }
      o := StoreNext(KeyOf(spec), spec, env.located.value, env.effect);
    }

    /** InstallOrUpgradeHelmRelease: a pending status is overwritten in the store, while the
        decision to upgrade is still taken on the release read before. */
    method InstallOrUpgradeHelmRelease(spec: ReleaseSpec, env: HelmEnv)
      returns (o: Outcome, ghost from: Option<Release>)
      modifies this
      ensures CallResult(releases, o, from) == InstallOrUpgrade(old(releases), spec, env)
      ensures from.Some? ==> !from.value.status.IsPending()
      ensures spec.releaseName != "" && env.getFails ==>
        o == Outcome(spec.releaseName, None, true) && from.None? && releases == old(releases)
    {
      from := None;
      var existing, failed := GetHelmRelease(spec, env.getFails);
      if failed {
        return Outcome(spec.releaseName, None, true), from;
      }
      if existing.None? {
        o := InstallHelmRelease(spec, env);
        return;
      }
      if existing.value.status.IsPending() {
        failed := UpdateLastReleaseStatus(KeyOf(spec), Failed, env.overwriteFails);
        if failed {
          return Outcome(spec.releaseName, None, true), from;
        }
      }
      o, from := UpgradeHelmReleaseIfChanged(spec, existing.value, env);
    }

    /** UninstallHelmRelease. */
    method UninstallHelmRelease(spec: ReleaseSpec, ok: bool, keepHistory: bool) returns (failed: bool)
      modifies this
      ensures failed <==> !ok || KeyOf(spec) !in old(releases)
      ensures releases == if failed then old(releases) else AfterUninstall(old(releases), KeyOf(spec), keepHistory)
    {
      if !ok || KeyOf(spec) !in releases {
        return true;
      }
      if keepHistory {
        releases := releases[KeyOf(spec) := releases[KeyOf(spec)].(status := HelmStatus.Uninstalled)];
      } else {
        releases := releases - {KeyOf(spec)};
      }
      return false;
    }
  }
}
