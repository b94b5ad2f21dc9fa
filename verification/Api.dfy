/** The API server as the controllers use it: stored objects, compare-and-swap updates,
    admission, and deletion that waits for finalizers. */
module Api {
  import opened Types
  import opened Admission
  import opened Machine

  class ApiServer {
    var charts: map<ObjectKey, ChartProxy>
    var proxies: Proxies
    var clock: nat
    const clusters: map<ObjectKey, Cluster>

    constructor (charts: map<ObjectKey, ChartProxy>, proxies: Proxies, clock: nat, clusters: map<ObjectKey, Cluster>)
      ensures this.charts == charts && this.proxies == proxies && this.clock == clock && this.clusters == clusters
    {
      this.charts, this.proxies, this.clock, this.clusters := charts, proxies, clock, clusters;
    }

    /** One accepted write of a HelmReleaseProxy. */
    method Write(id: ProxyId, next: ReleaseProxy)
      requires id in proxies
      modifies this`proxies, this`clock
      ensures proxies == Put(old(proxies), id, Stamp(old(proxies)[id], next, old(clock))) && clock == old(clock) + 1
    {
      var p := Stamp(proxies[id], next, clock);
      if p.deleting && !p.finalizer {
        proxies := proxies - {id};
      } else {
        proxies := proxies[id := p];
      }
      clock := clock + 1;
    }

    /** Delete, as deleteHelmReleaseProxy uses it: a missing object is no error. */
    method Delete(id: ProxyId, ok: bool) returns (failed: bool)
      modifies this`proxies, this`clock
      ensures failed <==> !ok
      ensures failed || id !in old(proxies) ==> proxies == old(proxies) && clock == old(clock)
      ensures !failed && id in old(proxies) ==>
        && proxies == Put(old(proxies), id, Stamp(old(proxies)[id], old(proxies)[id].(deleting := true), old(clock)))
        && clock == old(clock) + 1
    {
      if !ok {
        return true;
      }
      if id in proxies {
        Write(id, proxies[id].(deleting := true));
      }
      return false;
    }

    /** Create through admission, under a generated name. */
    method Create(urlOk: string -> bool, p: ReleaseProxy, ok: bool) returns (failed: bool)
      modifies this`proxies, this`clock
      ensures failed <==> !ok || ValidateReleaseCreate(urlOk, DefaultRelease(p.spec)) != []
      ensures failed ==> proxies == old(proxies) && clock == old(clock)
      ensures !failed ==>
        && clock == old(clock) + 1
        && proxies == old(proxies)[old(clock) := p.(resourceVersion := old(clock), generation := 1,
                                                    spec := DefaultRelease(p.spec))]
    {
      var spec := DefaultRelease(p.spec);
      if !ok || ValidateReleaseCreate(urlOk, spec) != [] {
        return true;
      }
      proxies := proxies[clock := p.(resourceVersion := clock, generation := 1, spec := spec)];
      clock := clock + 1;
      return false;
    }

    /** Update through admission: refused if the object was written since it was read. */
    method Update(id: ProxyId, p: ReleaseProxy, ok: bool) returns (failed: bool)
      modifies this`proxies, this`clock
      ensures failed <==> !ok || id !in old(proxies) || old(proxies)[id].resourceVersion != p.resourceVersion ||
                          ValidateReleaseUpdate(old(proxies)[id].spec, DefaultRelease(p.spec)) != []
      ensures failed ==> proxies == old(proxies) && clock == old(clock)
      ensures !failed ==>
        && proxies == Put(old(proxies), id, Stamp(old(proxies)[id], Overwrite(old(proxies)[id], p), old(clock)))
        && clock == old(clock) + 1
    {
      if !ok || id !in proxies || proxies[id].resourceVersion != p.resourceVersion {
        return true;
      }
      if ValidateReleaseUpdate(proxies[id].spec, DefaultRelease(p.spec)) != [] {
        return true;
      }
      Write(id, Overwrite(proxies[id], p));
      return false;
    }

    /** Patch of a HelmChartProxy: what changed since `base` was read. */
    method PatchChart(key: ObjectKey, base: ChartProxy, local: ChartProxy, ok: bool) returns (failed: bool)
      modifies this`charts
      ensures failed <==> !ok || key !in old(charts)
      ensures charts == if failed then old(charts)
                        else PutChart(old(charts), key, PatchedChart(old(charts)[key], base, local))
    {
      if !ok || key !in charts {
        return true;
      }
      var c := PatchedChart(charts[key], base, local);
      if c.deleting && !c.finalizer {
        charts := charts - {key};
      } else {
        charts := charts[key := c];
      }
      return false;
    }
  }
}
