/** From any state to a HelmChartProxy stored as Ready: two rounds settle the HelmReleaseProxies,
    a healthy reconcile of each deploys its release, and the next chart reconcile reports it. */
module EndToEnd {
  import opened Types
  import opened Helm
  import opened Machine
  import opened Invariant
  import opened LastCalls
  import opened Rounds
  import opened Convergence
  import opened Schedules
  import opened EveryRound
  import opened Liveness
  import B = ReleaseController
  import D = Drain

  /** A proxy that one reconcile without a failure makes Ready. */
  ghost predicate Fit(w: World, id: ProxyId) {
    id !in w.releaseJobs && Serviceable(w, id) && Workable(w.releases, w.proxies[id].spec)
  }

  ghost predicate AllFit(s: Setting, w: World) {
    forall id <- w.proxies :: Labelled(w.proxies[id], s.key) ==> Fit(w, id)
  }

  /** A release reconcile and what it meets. */
  datatype Turn = Turn(id: ProxyId, env: ReleasePc -> ReleaseEnv)

  ghost predicate TakesTurn(s: Setting, w: World, t: Turn, v: World) {
    t.id in w.proxies && Labelled(w.proxies[t.id], s.key) && Reconciled(w, t.id, t.env, v)
  }

  /** Reconciles without a failure, one after the other. */
  ghost predicate InSeries(s: Setting, w: World, turns: seq<Turn>, v: World)
    decreases |turns|, 0
  {
    if turns == [] then v == w else Followed(s, w, turns[..|turns| - 1], turns[|turns| - 1], v)
  }

  ghost predicate Followed(s: Setting, w: World, turns: seq<Turn>, t: Turn, v: World)
    decreases |turns|, 1
  {
    exists u :: InSeries(s, w, turns, u) && TakesTurn(s, u, t, v)
  }

  /** Ready at its generation, with the release deployed as the turn's Helm was asked to. */
  ghost predicate Runs(w: World, t: Turn) {
    && t.id in w.proxies && ReadyNow(w.proxies[t.id])
    && Installed(w.releases, w.proxies[t.id].spec, t.env(CallHelm).helm)
  }

  /* ---- one turn ---- */

  lemma {:induction false} ThroughKeeps(s: Setting, urlOk: string -> bool, w: World, id: ProxyId,
                                        env: ReleasePc -> ReleaseEnv, n: nat)
    requires AtRest(s, urlOk, w) && id in w.proxies && id !in w.releaseJobs
    ensures var v := B.Through(B.Begun(w, id), id, env, n);
      AtRest(s, urlOk, v) && KeptProxies(s, w, v) && D.OnlyProxy(w, v, id)
  {
    hide AtRest, KeptProxies, StepRelease, StartRelease, D.OnlyProxy;
    if n == 0 {
      var e := env(PatchConditions);
      assert Apply(w, urlOk, ReleaseReconcile(id, e)) == B.Begun(w, id);
      ReleaseActionKeeps(s, urlOk, w, id, e);
      BegunFrames(w, id);
    } else {
      ThroughKeeps(s, urlOk, w, id, env, n - 1);
      var v := B.Through(B.Begun(w, id), id, env, n - 1);
      if id in v.releaseJobs {
        var e := env(v.releaseJobs[id].pc);
        var u := StepRelease(v, id, v.releaseJobs[id], e);
        assert Apply(v, urlOk, ReleaseReconcile(id, e)) == u;
        ReleaseActionKeeps(s, urlOk, v, id, e);
        KeptOn(s, w, v, u);
        D.ReleaseStepFrames(v, id, v.releaseJobs[id], e);
        FramesOn(w, v, u, id);
      }
    }
  }

  lemma BegunFrames(w: World, id: ProxyId)
    requires id in w.proxies
    ensures D.OnlyProxy(w, B.Begun(w, id), id)
  {
    hide StartRelease;
    assert B.Begun(w, id).releaseJobs - {id} == w.releaseJobs - {id};
  }

  lemma FramesOn(w: World, v: World, u: World, id: ProxyId)
    requires D.OnlyProxy(w, v, id) && D.OnlyProxy(v, u, id)
    ensures D.OnlyProxy(w, u, id)
  {
  }

  /** Proxies of one HelmChartProxy have different releases. */
  lemma OwnReleases(s: Setting, w: World, i: ProxyId, id: ProxyId)
    requires Sane(s, w) && i in w.proxies && id in w.proxies && i != id
    requires Labelled(w.proxies[i], s.key) && Labelled(w.proxies[id], s.key)
    ensures KeyOf(w.proxies[i].spec) != KeyOf(w.proxies[id].spec)
  {
    assert ProxySane(s, w.clock, i, w.proxies[i]) && ProxySane(s, w.clock, id, w.proxies[id]);
  }

  /** What the turn of `id` leaves of the proxy `i`. */
  ghost predicate Untouched(w: World, v: World, i: ProxyId) {
    && (i in v.proxies <==> i in w.proxies) && (i in v.releaseJobs <==> i in w.releaseJobs)
    && v.clusters == w.clusters
    && (i in w.proxies ==>
          && v.proxies[i] == w.proxies[i]
          && var key := KeyOf(w.proxies[i].spec);
             (key in v.releases <==> key in w.releases) && (key in w.releases ==> v.releases[key] == w.releases[key]))
  }

  lemma OthersUntouched(s: Setting, urlOk: string -> bool, w: World, t: Turn, v: World, i: ProxyId)
    requires AtRest(s, urlOk, w) && Serviceable(w, t.id) && TakesTurn(s, w, t, v) && D.OnlyProxy(w, v, t.id)
    requires i in w.proxies && Labelled(w.proxies[i], s.key) && i != t.id
    ensures Untouched(w, v, i)
  {
    RestIsSane(s, urlOk, w);
    InvAtRest(s, urlOk, w);
    OwnReleases(s, w, i, t.id);
    var spec := w.proxies[t.id].spec;
    assert KeyOf(spec).(name := spec.releaseName) == KeyOf(spec);
    hide AtRest, Inv, Sane, InstallOrUpgrade, Reconciled, ReadyNow;
    EveryHealthyReconcile(w, urlOk, t.id, t.env, v);
    CallFrame(w.releases, spec, t.env(CallHelm).helm, KeyOf(w.proxies[i].spec));
    SameElsewhere(w, v, t.id, i);
  }

  lemma SameElsewhere(w: World, v: World, id: ProxyId, i: ProxyId)
    requires D.OnlyProxy(w, v, id) && i != id
    ensures v.clusters == w.clusters && (i in v.proxies <==> i in w.proxies)
    ensures i in v.releaseJobs <==> i in w.releaseJobs
    ensures i in w.proxies ==> v.proxies[i] == w.proxies[i]
  {
    assert i in v.proxies <==> i in v.proxies - {id};
    assert i in v.releaseJobs <==> i in v.releaseJobs - {id};
    assert i in w.proxies ==> (v.proxies - {id})[i] == v.proxies[i];
  }

  lemma StaysFit(w: World, v: World, i: ProxyId)
    requires Untouched(w, v, i) && Fit(w, i)
    ensures Fit(v, i)
  {
  }

  lemma StillRuns(w: World, v: World, t: Turn)
    requires Untouched(w, v, t.id) && Runs(w, t)
    ensures Runs(v, t)
  {
    hide ReadyNow;
  }

  /** The proxy whose turn it is becomes Ready and stays fit. */
  lemma TurnMakesReady(s: Setting, urlOk: string -> bool, w: World, t: Turn, v: World)
    requires AtRest(s, urlOk, w) && Fit(w, t.id) && TakesTurn(s, w, t, v)
    ensures Fit(v, t.id) && Runs(v, t)
  {
    InvAtRest(s, urlOk, w);
    assert Works(t.env(CallHelm));
    assert t.id !in v.releaseJobs;
    hide AtRest, Inv, Reconciled, ReadyNow;
    HealthyReconcileMakesReady(w, urlOk, t.id, t.env, v);
  }

  lemma TurnKeeps(s: Setting, urlOk: string -> bool, w: World, t: Turn, v: World)
    requires AtRest(s, urlOk, w) && Converged(s, w) && AllFit(s, w) && TakesTurn(s, w, t, v)
    ensures AtRest(s, urlOk, v) && Converged(s, v) && KeptProxies(s, w, v) && D.OnlyProxy(w, v, t.id)
    ensures Fit(w, t.id) && Fit(v, t.id) && Runs(v, t)
  {
    var n: nat :| v == B.Through(B.Begun(w, t.id), t.id, t.env, n);
    hide AtRest, KeptProxies, D.OnlyProxy, Converged, Fit, Runs;
    TurnMakesReady(s, urlOk, w, t, v);
    ThroughKeeps(s, urlOk, w, t.id, t.env, n);
    ConvergedStays(s, urlOk, w, v);
  }

  /** Who was labelled before and is still there. */
  lemma WasLabelled(s: Setting, w: World, v: World, id: ProxyId)
    requires KeptProxies(s, w, v) && id in v.proxies && Labelled(v.proxies[id], s.key)
    ensures id in w.proxies && Labelled(w.proxies[id], s.key)
  {
    hide Matches;
    assert SameForRounds(s, w.proxies[id], v.proxies[id]);
  }

  lemma AllStayFit(s: Setting, urlOk: string -> bool, w: World, t: Turn, v: World)
    requires AtRest(s, urlOk, w) && AllFit(s, w) && TakesTurn(s, w, t, v)
    requires KeptProxies(s, w, v) && D.OnlyProxy(w, v, t.id) && Fit(w, t.id) && Fit(v, t.id)
    ensures AllFit(s, v)
  {
    hide AtRest, KeptProxies, D.OnlyProxy, Reconciled, Workable;
    forall id <- v.proxies | Labelled(v.proxies[id], s.key) ensures Fit(v, id) {
      WasLabelled(s, w, v, id);
      if id != t.id {
        OthersUntouched(s, urlOk, w, t, v, id);
        StaysFit(w, v, id);
      }
    }
  }

  /* ---- all turns ---- */

  /** Of each proxy that has had a turn, the latest one tells what is deployed. */
  ghost predicate RunsSince(w: World, turns: seq<Turn>, id: ProxyId) {
    exists i :: 0 <= i < |turns| && turns[i].id == id && Runs(w, turns[i])
  }

  ghost predicate HadTurns(turns: seq<Turn>, id: ProxyId) {
    exists i :: 0 <= i < |turns| && turns[i].id == id
  }

  lemma RunsOn(s: Setting, urlOk: string -> bool, w: World, turns: seq<Turn>, t: Turn, v: World, id: ProxyId)
    requires AtRest(s, urlOk, w) && Serviceable(w, t.id) && TakesTurn(s, w, t, v) && D.OnlyProxy(w, v, t.id)
    requires id in w.proxies && Labelled(w.proxies[id], s.key) && Runs(v, t)
    requires RunsSince(w, turns, id) || id == t.id
    ensures RunsSince(v, turns + [t], id)
  {
    hide AtRest, D.OnlyProxy, Reconciled, Runs;
    if id == t.id {
      assert (turns + [t])[|turns|] == t;
    } else {
      var i :| 0 <= i < |turns| && turns[i].id == id && Runs(w, turns[i]);
      OthersUntouched(s, urlOk, w, t, v, id);
      StillRuns(w, v, turns[i]);
      assert (turns + [t])[i] == turns[i];
    }
  }

  /** How the proxies are after some turns. */
  ghost predicate AfterTurns(s: Setting, urlOk: string -> bool, w: World, turns: seq<Turn>, v: World) {
    && AtRest(s, urlOk, v) && Converged(s, v) && AllFit(s, v) && KeptProxies(s, w, v)
    && forall id <- v.proxies :: Labelled(v.proxies[id], s.key) && HadTurns(turns, id) ==> RunsSince(v, turns, id)
  }

  lemma {:induction false} SeriesMakesReady(s: Setting, urlOk: string -> bool, w: World, turns: seq<Turn>, v: World)
    requires AtRest(s, urlOk, w) && Converged(s, w) && AllFit(s, w) && InSeries(s, w, turns, v)
    ensures AfterTurns(s, urlOk, w, turns, v)
    decreases |turns|
  {
    hide AtRest, Converged, AllFit, KeptProxies, TakesTurn;
    if turns == [] {
      SameKept(s, w, w);
    } else {
      var front, t := turns[..|turns| - 1], turns[|turns| - 1];
      var u :| InSeries(s, w, front, u) && TakesTurn(s, u, t, v);
      SeriesMakesReady(s, urlOk, w, front, u);
      hide AfterTurns;
      OneMoreTurnKeeps(s, urlOk, w, front, u, t, v);
      assert turns == front + [t];
    }
  }

  lemma OneMoreTurnKeeps(s: Setting, urlOk: string -> bool, w: World, front: seq<Turn>, u: World, t: Turn, v: World)
    requires AfterTurns(s, urlOk, w, front, u) && TakesTurn(s, u, t, v)
    ensures AfterTurns(s, urlOk, w, front + [t], v)
  {
    hide AtRest, Converged, AllFit, KeptProxies, TakesTurn, Runs, RunsSince, D.OnlyProxy, Serviceable, HadTurns;
    TurnKeeps(s, urlOk, u, t, v);
    KeptOn(s, w, u, v);
    AllStayFit(s, urlOk, u, t, v);
    var turns := front + [t];
    forall id <- v.proxies | Labelled(v.proxies[id], s.key) && HadTurns(turns, id) ensures RunsSince(v, turns, id) {
      WasLabelled(s, u, v, id);
      EarlierOrNow(front, t, id);
      RunsOn(s, urlOk, u, front, t, v, id);
    }
  }

  lemma EarlierOrNow(front: seq<Turn>, t: Turn, id: ProxyId)
    requires HadTurns(front + [t], id)
    ensures HadTurns(front, id) || id == t.id
  {
    var i :| 0 <= i < |front + [t]| && (front + [t])[i].id == id;
    assert i < |front| ==> front[i].id == id;
  }

  /** The whole way: two rounds, then reconciles without a failure in which each proxy has at
      least one turn, then a chart reconcile in which no call fails. Each eligible cluster has its
      one proxy, Ready on a release deployed as Helm was asked to, and the HelmChartProxy is
      stored with Ready true at its generation. */
  lemma SettlesAsReady(s: Setting, urlOk: string -> bool, w0: World, w1: World, w: World, turns: seq<Turn>,
                       v: World, x: World)
    requires AtRest(s, urlOk, w0) && ARound(s, urlOk, w0, w1) && ARound(s, urlOk, w1, w)
    requires AllFit(s, w) && InSeries(s, w, turns, v)
    requires forall id <- w.proxies :: Labelled(w.proxies[id], s.key) ==> HadTurns(turns, id)
    requires CleanReconcile(s, urlOk, v, x)
    ensures s.key in x.charts && x.charts[s.key].spec == s.chart && x.charts[s.key].status.ready == IsTrue
    ensures x.charts[s.key].status.observedGeneration == x.charts[s.key].generation
    ensures Converged(s, x) && x.proxies == v.proxies
    ensures forall id <- v.proxies :: Labelled(v.proxies[id], s.key) ==> RunsSince(v, turns, id)
  {
    hide ARound, AllFit, Converged, InSeries, CleanReconcile, AllClean, KeptProxies, RunsSince, HadTurns, Inv;
    RoundDoes(s, urlOk, w0, w1);
    RoundDoes(s, urlOk, w1, w);
    SeriesMakesReady(s, urlOk, w, turns, v);
    ConvergedIsClean(s, v);
    CleanReconcileDoes(s, urlOk, v, x);
    forall id <- v.proxies | Labelled(v.proxies[id], s.key) ensures RunsSince(v, turns, id) && Running(v, id) {
      WasLabelled(s, w, v, id);
      RunsSinceIsReady(v, turns, id);
    }
    AllRunning(s, x);
  }

  lemma ConvergedIsClean(s: Setting, w: World)
    requires Converged(s, w)
    ensures AllClean(s, w)
  {
    hide Orphan, Matches;
  }

  ghost predicate Running(w: World, id: ProxyId) {
    id in w.proxies && ReadyNow(w.proxies[id])
  }

  lemma RunsSinceIsReady(w: World, turns: seq<Turn>, id: ProxyId)
    requires RunsSince(w, turns, id)
    ensures Running(w, id)
  {
  }

  lemma AllRunning(s: Setting, x: World)
    requires ReadyIsExact(x, s.key)
    requires forall id <- x.proxies :: Labelled(x.proxies[id], s.key) ==> Running(x, id)
    ensures x.charts[s.key].status.ready == IsTrue
    ensures x.charts[s.key].status.observedGeneration == x.charts[s.key].generation
  {
  }
}
