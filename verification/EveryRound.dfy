/** Convergence under every schedule of rounds: chart reconciles in which no call fails, and
    between them the release controller doing anything it may do until no HelmReleaseProxy of
    the HelmChartProxy is terminating. */
module EveryRound {
  import opened Types
  import opened Phases
  import opened ReleaseFlow
  import opened Machine
  import opened StoreInvariant
  import opened ReleaseInvariant
  import opened ContentInvariant
  import opened Invariant
  import opened Runs
  import opened Rounds
  import opened ChartRun
  import opened Schedules
  import opened Refinement
  import opened Convergence
  import B = Bridge
  import D = Drain

  /* ---- the rounds, for any order ---- */

  /** What one reconcile does to a sane store, whatever the order. */
  lemma AnyOrder(s: Setting, w: World, ids: seq<ProxyId>, order: seq<ObjectKey>)
    requires SettingOk(s) && Sane(s, w) && Reorders(s, order) && ListsOrphans(s, w, ids)
    ensures var v := ReconcileIn(s, w, ids, order);
      && Sane(s, v) && OrphansLeaving(s, v) && (forall c <- s.eligible :: Handled(s, v, c))
      && (NoOrphans(s, w) && (forall c <- s.eligible :: Clean(s, w, c)) ==>
            NoOrphans(s, v) && forall c <- s.eligible :: Served(s, v, c))
      && (NoOrphans(s, w) && (forall c <- s.eligible :: Served(s, w, c)) ==> v == w)
  {
    var t := s.(eligible := order);
    var w1 := DeleteEach(w, ids);
    DeleteEachDeletes(s, w, ids);
    OrphansGo(s, w, ids);
    InTurnIs(s, w1, order, |order|);
    assert order[..|order|] == order;
    var v := ReconcileIn(s, w, ids, order);
    assert v == ForClusters(t, w1, |order|);
    hide DeleteEach, DeletesOnly, InTurn, ForClusters, Handled, Clean, Served, NoOrphans, OrphansLeaving, Sane;
    SameMeaning(s, t, w1);
    SameMeaning(s, t, w);
    SameMeaning(s, t, v);
    assert SettingOk(t);
    ForClustersStep(t, w1, |order|);
    forall c <- s.eligible ensures Handled(s, v, c) {
      assert c in order;
    }
    if NoOrphans(s, w) && forall c <- s.eligible :: Clean(s, w, c) {
      assert CleanFrom(t, w1, 0);
      forall c <- s.eligible ensures Served(s, v, c) {
        assert c in order;
      }
    }
    if NoOrphans(s, w) && forall c <- s.eligible :: Served(s, w, c) {
      assert AllServed(t, w1, |order|);
    }
  }

  lemma OrphansGo(s: Setting, w: World, ids: seq<ProxyId>)
    requires Sane(s, w) && ListsOrphans(s, w, ids)
    ensures OrphansLeaving(s, DeleteEach(w, ids)) && (NoOrphans(s, w) ==> DeleteEach(w, ids) == w)
  {
    DeleteEachDeletes(s, w, ids);
    assert ids != [] ==> ids[0] in ids;
  }

  lemma SameMeaning(s: Setting, t: Setting, w: World)
    requires t == s.(eligible := t.eligible)
    ensures Sane(s, w) == Sane(t, w) && NoOrphans(s, w) == NoOrphans(t, w)
    ensures OrphansLeaving(s, w) == OrphansLeaving(t, w)
    ensures forall c :: Handled(s, w, c) == Handled(t, w, c) && Clean(s, w, c) == Clean(t, w, c)
    ensures forall c :: Served(s, w, c) == Served(t, w, c)
  {
    forall c ensures Served(s, w, c) == Served(t, w, c) && Clean(s, w, c) == Clean(t, w, c) {
    }
  }

  /* ---- the release controller between the reconciles ---- */

  /** Being due for reinstall is a matter of what the proxy was created for. */
  lemma ReinstallByOrigin(h: History, id: ProxyId, p: ReleaseProxy, chart: ChartSpec)
    requires OriginOk(h.origin, id, p)
    ensures ShouldReinstall(p, chart) <==> IdentityOf(chart) != h.origin[id].identity
  {
  }

  /** What a step of a release reconcile leaves alone in any proxy. */
  ghost predicate SameForRounds(s: Setting, p: ReleaseProxy, q: ReleaseProxy) {
    && SameRole(p, q) && q.deleting == p.deleting
    && (forall c :: Matches(s, p, c) ==> Matches(s, q, c))
  }

  lemma NamedStillMatches(s: Setting, h: History, id: ProxyId, p: ReleaseProxy, q: ReleaseProxy)
    requires KeepsSpec(p, q) && OriginOk(h.origin, id, p) && OriginOk(h.origin, id, q)
    ensures SameForRounds(s, p, q)
  {
    ReinstallByOrigin(h, id, p, s.chart);
    ReinstallByOrigin(h, id, q, s.chart);
    hide ShouldReinstall, OriginOk;
  }

  lemma ContentOf(w: World, urlOk: string -> bool, id: ProxyId)
    requires Inv(w, urlOk) && id in w.proxies
    ensures OriginOk(w.history.origin, id, w.proxies[id])
  {
    assert ContentOk(w.history, id, w.proxies[id]);
  }

  /** No proxy appears, only terminating ones go, and the others stay as the rounds see them. */
  ghost predicate KeptProxies(s: Setting, w: World, v: World) {
    && (forall i <- v.proxies :: i in w.proxies && SameForRounds(s, w.proxies[i], v.proxies[i]))
    && (forall i <- w.proxies :: !w.proxies[i].deleting ==> i in v.proxies)
  }

  lemma SameKept(s: Setting, w: World, v: World)
    requires v.proxies == w.proxies
    ensures KeptProxies(s, w, v)
  {
  }

  lemma KeptOn(s: Setting, w: World, v: World, u: World)
    requires KeptProxies(s, w, v) && KeptProxies(s, v, u)
    ensures KeptProxies(s, w, u)
  {
    hide Matches;
  }

  lemma PatchKeeps(s: Setting, urlOk: string -> bool, w: World, v: World, id: ProxyId, j: ReleaseJob)
    requires Inv(w, urlOk) && Inv(v, urlOk) && id in w.proxies && v.proxies == PatchProxy(w, id, j).proxies
    requires v.history.origin == w.history.origin
    requires id in v.proxies ==> KeepsSpec(w.proxies[id], v.proxies[id])
    ensures KeptProxies(s, w, v)
  {
    LivePatchOrNot(w, id, j);
    if id in v.proxies {
      ContentOf(w, urlOk, id);
      ContentOf(v, urlOk, id);
      NamedStillMatches(s, w.history, id, w.proxies[id], v.proxies[id]);
    }
    hide Inv, PatchProxy, Matches, KeepsSpec;
    forall i <- v.proxies ensures i in w.proxies && SameForRounds(s, w.proxies[i], v.proxies[i]) {
    }
  }

  lemma LivePatchOrNot(w: World, id: ProxyId, j: ReleaseJob)
    requires id in w.proxies
    ensures var v := PatchProxy(w, id, j);
      && (!w.proxies[id].deleting ==> id in v.proxies)
      && (forall i | i != id :: i in v.proxies <==> i in w.proxies)
      && (forall i <- w.proxies | i != id :: v.proxies[i] == w.proxies[i])
  {
    hide MergeSpec;
  }

  lemma RestStays(s: Setting, urlOk: string -> bool, w: World, v: World)
    requires AtRest(s, urlOk, w) && Inv(v, urlOk)
    requires v.charts == w.charts && v.chartJobs == w.chartJobs && v.clusters == w.clusters
    ensures AtRest(s, urlOk, v)
  {
    hide Inv;
  }

  lemma InvAtRest(s: Setting, urlOk: string -> bool, w: World)
    requires AtRest(s, urlOk, w)
    ensures Inv(w, urlOk)
  {
    hide Inv;
  }

  /** One action of the release controller keeps what the rounds look at. */
  lemma ReleaseActionKeeps(s: Setting, urlOk: string -> bool, w: World, id: ProxyId, e: ReleaseEnv)
    requires AtRest(s, urlOk, w)
    ensures var v := Apply(w, urlOk, ReleaseReconcile(id, e)); AtRest(s, urlOk, v) && KeptProxies(s, w, v)
  {
    InvAtRest(s, urlOk, w);
    hide Inv, AtRest, StepRelease, StartRelease, KeptProxies, Apply;
    var a := ReleaseReconcile(id, e);
    var v := Apply(w, urlOk, a);
    ApplyKeepsInv(w, urlOk, a);
    ReleaseActionFrames(w, urlOk, id, e);
    RestStays(s, urlOk, w, v);
    if id in w.releaseJobs {
      ReleaseStepKeepsProxies(s, urlOk, w, id, e);
    } else {
      SameKept(s, w, v);
    }
  }

  lemma ReleaseActionFrames(w: World, urlOk: string -> bool, id: ProxyId, e: ReleaseEnv)
    ensures var v := Apply(w, urlOk, ReleaseReconcile(id, e));
      && v.charts == w.charts && v.chartJobs == w.chartJobs && v.clusters == w.clusters
      && (id !in w.releaseJobs ==> v.proxies == w.proxies)
  {
    hide StepRelease, StartRelease;
    if id in w.releaseJobs {
      D.ReleaseStepFrames(w, id, w.releaseJobs[id], e);
    }
  }

  lemma ReleaseStepKeepsProxies(s: Setting, urlOk: string -> bool, w: World, id: ProxyId, e: ReleaseEnv)
    requires Inv(w, urlOk) && id in w.releaseJobs && Inv(Apply(w, urlOk, ReleaseReconcile(id, e)), urlOk)
    ensures KeptProxies(s, w, Apply(w, urlOk, ReleaseReconcile(id, e)))
  {
    hide Inv, StepRelease, KeptProxies, ReleaseJobOk, KeepsSpec, KeepsRecords;
    var a := ReleaseReconcile(id, e);
    var v := Apply(w, urlOk, a);
    var j := w.releaseJobs[id];
    D.JobOfInv(w, urlOk, id);
    JobCalls(w, id, j);
    if Patches(j.pc) && e.apiOk && id in w.proxies {
      PatchStepsWrite(w, id, j, e);
      if id in v.proxies {
        NoLostUpdates(w, urlOk, a, id);
      }
      hide PatchProxy;
      PatchKeeps(s, urlOk, w, v, id, j);
    } else {
      OtherStepsWriteNothing(w, id, j, e);
      SameKept(s, w, v);
    }
  }

  ghost predicate OnlyReleases(actions: seq<Action>) {
    forall a <- actions :: a.ReleaseReconcile?
  }

  lemma {:induction false} ReleaseActionsKeep(s: Setting, urlOk: string -> bool, w: World, actions: seq<Action>)
    requires AtRest(s, urlOk, w) && OnlyReleases(actions)
    ensures var v := Run(w, urlOk, actions); AtRest(s, urlOk, v) && KeptProxies(s, w, v)
    decreases |actions|
  {
    hide AtRest, KeptProxies, Apply;
    if actions == [] {
      SameKept(s, w, w);
    } else {
      var front, a := actions[..|actions| - 1], actions[|actions| - 1];
      ReleaseActionsKeep(s, urlOk, w, front);
      var v := Run(w, urlOk, front);
      assert a in actions;
      ReleaseActionKeeps(s, urlOk, v, a.id, a.releaseEnv);
      KeptOn(s, w, v, Apply(v, urlOk, a));
    }
  }

  /* ---- rounds ---- */

  /** An uninterrupted chart reconcile in which no call fails. */
  ghost predicate CleanReconcile(s: Setting, urlOk: string -> bool, w: World, v: World) {
    exists o :: NothingFails(o, s) && OnTheWay(Begun(w, s.key), urlOk, s.key, o, v) && s.key !in v.chartJobs
  }

  /** Any steps of the release controller, failing or not, until no proxy of the HelmChartProxy
      is terminating. */
  ghost predicate Drained(s: Setting, urlOk: string -> bool, w: World, v: World) {
    && (exists actions :: OnlyReleases(actions) && v == Run(w, urlOk, actions))
    && (forall id <- v.proxies :: Labelled(v.proxies[id], s.key) ==> !v.proxies[id].deleting)
  }

  ghost predicate ARound(s: Setting, urlOk: string -> bool, w: World, v: World) {
    exists u :: CleanReconcile(s, urlOk, w, u) && Drained(s, urlOk, u, v)
  }

  ghost predicate AllClean(s: Setting, w: World) {
    NoOrphans(s, w) && forall c <- s.eligible :: Clean(s, w, c)
  }

  ghost predicate Converged(s: Setting, w: World) {
    NoOrphans(s, w) && OnePerPair(w.proxies) && forall c <- s.eligible :: Served(s, w, c)
  }

  lemma CleanReconcileDoes(s: Setting, urlOk: string -> bool, w: World, v: World)
    requires AtRest(s, urlOk, w) && CleanReconcile(s, urlOk, w, v)
    ensures AtRest(s, urlOk, v) && OrphansLeaving(s, v) && (forall c <- s.eligible :: Handled(s, v, c))
    ensures AllClean(s, w) ==> Converged(s, v)
    ensures Converged(s, w) ==> v.proxies == w.proxies && v.clock == w.clock
    ensures ReadyIsExact(v, s.key) && v.charts[s.key].status.matching == s.selected
  {
    var ids, order := CleanReconcileIs(s, urlOk, w, v);
    hide AtRest, CleanReconcile, ReconcileIn, Reorders, SettingOk, Sane, Handled, Clean, Served, NoOrphans,
      OrphansLeaving, StoreIs, ListsOrphans, OnePerPair, ReadyIsExact;
    RestIsSane(s, urlOk, w);
    RestIsSane(s, urlOk, v);
    SaneIsOnePerPair(s, v);
    AnyOrder(s, w, ids, order);
    SameStoreSame(s, ReconcileIn(s, w, ids, order), v);
    if Converged(s, w) {
      assert ReconcileIn(s, w, ids, order) == w;
      StoreIsMeans(w, v);
    }
  }

  /* ---- cluster by cluster ---- */

  /** The proxy serves one of the clusters. */
  ghost predicate PairAmong(s: Setting, p: ReleaseProxy, order: seq<ObjectKey>) {
    exists c <- order :: PairOf(p, s.key, c)
  }

  /** Of the proxies of no cluster in `order`, none comes, none goes and none changes. */
  ghost predicate SameOutside(s: Setting, w: World, v: World, order: seq<ObjectKey>) {
    && (forall id <- w.proxies | !PairAmong(s, w.proxies[id], order) ::
          id in v.proxies && v.proxies[id] == w.proxies[id])
    && (forall id <- v.proxies | !PairAmong(s, v.proxies[id], order) ::
          id in w.proxies && w.proxies[id] == v.proxies[id])
  }

  lemma SameOutsideOn(s: Setting, w: World, v: World, u: World, order: seq<ObjectKey>, c: ObjectKey)
    requires SameOutside(s, w, v, order) && OnlyPair(s, v, u, c)
    ensures SameOutside(s, w, u, order + [c])
  {
    forall p: ReleaseProxy ensures PairAmong(s, p, order + [c]) <==> PairAmong(s, p, order) || PairOf(p, s.key, c) {
      assert c in order + [c] && forall d <- order :: d in order + [c];
    }
    hide PairAmong;
  }

  /** The loop, cluster by cluster: what is clean when it begins is served when it ends, and only
      the proxies of its clusters are touched. */
  lemma {:induction false} TurnByTurn(s: Setting, w: World, order: seq<ObjectKey>)
    requires SettingOk(s) && Sane(s, w) && Distinct(order) && forall c <- order :: c in s.eligible
    ensures var v := InTurn(s, w, order);
      && Sane(s, v) && SameOutside(s, w, v, order)
      && (forall c <- order :: Clean(s, w, c) ==> Served(s, v, c))
      && (forall c <- s.eligible | c !in order :: Clean(s, w, c) ==> Clean(s, v, c))
  {
    hide Sane, Clean, Served, SettingOk, OnlyPair, ForCluster, SameOutside;
    if order == [] {
      NothingIsSameOutside(s, w);
    } else {
      var front, c := order[..|order| - 1], order[|order| - 1];
      TurnByTurn(s, w, front);
      var v := InTurn(s, w, front);
      InNamespace(s, c);
      ForClusterStep(s, v, c);
      assert order == front + [c];
      SameOutsideOn(s, w, v, ForCluster(s, v, c), front, c);
      forall d <- s.eligible | d != c
        ensures Clean(s, v, d) ==> Clean(s, ForCluster(s, v, c), d)
        ensures Served(s, v, d) ==> Served(s, ForCluster(s, v, c), d)
      {
        InNamespace(s, d);
        OtherPairsSurvive(s, v, ForCluster(s, v, c), c, d);
      }
    }
  }

  lemma NothingIsSameOutside(s: Setting, w: World)
    ensures SameOutside(s, w, w, [])
  {
  }

  lemma InNamespace(s: Setting, c: ObjectKey)
    requires SettingOk(s) && c in s.eligible
    ensures c.namespace == s.key.namespace
  {
  }

  /** Deleting orphans leaves the selected clusters alone. */
  lemma OrphansAreNoPairs(s: Setting, w: World, ids: seq<ProxyId>)
    requires SettingOk(s) && Sane(s, w) && ListsOrphans(s, w, ids)
    ensures var v := DeleteEach(w, ids);
      && Sane(s, v)
      && (forall id <- w.proxies | !Orphan(s, w.proxies[id]) :: id in v.proxies && v.proxies[id] == w.proxies[id])
      && (forall id <- v.proxies | !Orphan(s, v.proxies[id]) :: id in w.proxies && w.proxies[id] == v.proxies[id])
      && (forall c <- s.eligible :: Clean(s, w, c) ==> Clean(s, v, c))
  {
    DeleteEachDeletes(s, w, ids);
    hide DeleteEach;
    forall c <- s.eligible | Clean(s, w, c) ensures Clean(s, DeleteEach(w, ids), c) {
      forall id <- DeleteEach(w, ids).proxies | PairOf(DeleteEach(w, ids).proxies[id], s.key, c)
        ensures id in w.proxies && w.proxies[id] == DeleteEach(w, ids).proxies[id]
      {
        assert ProxySane(s, w.clock, id, w.proxies[id]);
      }
    }
  }

  lemma StoreIsMeans(w: World, v: World)
    requires StoreIs(w, v)
    ensures v.proxies == w.proxies && v.clock == w.clock
  {
  }

  lemma CleanReconcileIs(s: Setting, urlOk: string -> bool, w: World, v: World)
    returns (ids: seq<ProxyId>, order: seq<ObjectKey>)
    requires AtRest(s, urlOk, w) && CleanReconcile(s, urlOk, w, v)
    ensures AtRest(s, urlOk, v) && Reorders(s, order) && ListsOrphans(s, w, ids)
    ensures StoreIs(ReconcileIn(s, w, ids, order), v) && ReadyIsExact(v, s.key)
    ensures v.charts[s.key].status.matching == s.selected
  {
    var o :| NothingFails(o, s) && OnTheWay(Begun(w, s.key), urlOk, s.key, o, v) && s.key !in v.chartJobs;
    ids, order := EveryReconcile(s, urlOk, w, o, v);
    CleanIsRun(s, urlOk, w, o, v);
    hide Inv, NothingFails, OnTheWay, ReconcileIn, Reorders, ListsOrphans, StoreIs, ReadyIsExact;
    assert AtRest(s, urlOk, v);
  }

  lemma SaneIsOnePerPair(s: Setting, v: World)
    requires Sane(s, v)
    ensures OnePerPair(v.proxies)
  {
  }

  lemma CleanIsRun(s: Setting, urlOk: string -> bool, w: World, o: Oracle, v: World)
    requires Inv(w, urlOk) && s.key !in w.chartJobs && OnTheWay(Begun(w, s.key), urlOk, s.key, o, v)
    ensures Inv(v, urlOk)
  {
    hide Inv;
    B.ChartReconcileIsRun(w, urlOk, s.key, o, v);
  }

  lemma SameStoreSame(s: Setting, w: World, v: World)
    requires StoreIs(w, v)
    ensures NoOrphans(s, w) == NoOrphans(s, v) && OrphansLeaving(s, w) == OrphansLeaving(s, v)
    ensures forall c :: Handled(s, w, c) == Handled(s, v, c) && Clean(s, w, c) == Clean(s, v, c)
    ensures forall c :: Served(s, w, c) == Served(s, v, c)
  {
    forall c ensures Served(s, w, c) == Served(s, v, c) && Clean(s, w, c) == Clean(s, v, c) {
    }
  }

  lemma DrainedDoes(s: Setting, urlOk: string -> bool, w: World, v: World)
    requires AtRest(s, urlOk, w) && Drained(s, urlOk, w, v)
    ensures AtRest(s, urlOk, v)
    ensures OrphansLeaving(s, w) && (forall c <- s.eligible :: Handled(s, w, c)) ==> AllClean(s, v)
    ensures Converged(s, w) ==> Converged(s, v)
  {
    hide AtRest, Run, KeptProxies, Handled, Clean, NoOrphans, OrphansLeaving, Converged;
    var actions :| OnlyReleases(actions) && v == Run(w, urlOk, actions);
    ReleaseActionsKeep(s, urlOk, w, actions);
    forall c ensures Handled(s, w, c) ==> Clean(s, v, c) {
      if Handled(s, w, c) {
        HandledGetsClean(s, w, v, c);
      }
    }
    OrphansGone(s, w, v);
    if Converged(s, w) {
      ConvergedStays(s, urlOk, w, v);
    }
  }

  lemma OrphansGone(s: Setting, w: World, v: World)
    requires KeptProxies(s, w, v)
    requires forall id <- v.proxies :: Labelled(v.proxies[id], s.key) ==> !v.proxies[id].deleting
    ensures OrphansLeaving(s, w) ==> NoOrphans(s, v)
  {
    hide Matches;
    forall id <- v.proxies ensures OrphansLeaving(s, w) ==> !Orphan(s, v.proxies[id]) {
      assert SameForRounds(s, w.proxies[id], v.proxies[id]);
    }
  }

  lemma HandledGetsClean(s: Setting, w: World, v: World, c: ObjectKey)
    requires KeptProxies(s, w, v) && Handled(s, w, c)
    requires forall id <- v.proxies :: Labelled(v.proxies[id], s.key) ==> !v.proxies[id].deleting
    ensures Clean(s, v, c)
  {
    hide Matches;
    forall id <- v.proxies | PairOf(v.proxies[id], s.key, c) ensures Matches(s, v.proxies[id], c) {
      assert SameForRounds(s, w.proxies[id], v.proxies[id]);
    }
  }

  lemma ServedStays(s: Setting, w: World, v: World, c: ObjectKey)
    requires KeptProxies(s, w, v)
    ensures Served(s, w, c) ==> Served(s, v, c)
  {
    if Served(s, w, c) {
      var id :| id in w.proxies && PairOf(w.proxies[id], s.key, c);
      assert Matches(s, w.proxies[id], c);
      hide Matches;
      assert id in v.proxies && PairOf(v.proxies[id], s.key, c);
      forall i <- v.proxies | PairOf(v.proxies[i], s.key, c) ensures Matches(s, v.proxies[i], c) {
        assert SameForRounds(s, w.proxies[i], v.proxies[i]);
      }
    }
  }

  lemma RoundDoes(s: Setting, urlOk: string -> bool, w: World, v: World)
    requires AtRest(s, urlOk, w) && ARound(s, urlOk, w, v)
    ensures AtRest(s, urlOk, v) && AllClean(s, v) && (AllClean(s, w) ==> Converged(s, v))
  {
    var u :| CleanReconcile(s, urlOk, w, u) && Drained(s, urlOk, u, v);
    hide AtRest, CleanReconcile, Drained, AllClean, Converged, Handled, OrphansLeaving;
    CleanReconcileDoes(s, urlOk, w, u);
    DrainedDoes(s, urlOk, u, v);
  }

  /** Convergence: with the HelmChartProxy and the clusters fixed, from any state the invariant
      allows, any two rounds leave exactly one proxy per eligible cluster, matching the
      HelmChartProxy on identity, version and values, and no orphan; and whatever the release
      controller does afterwards, another such reconcile writes no proxy. */
  lemma TwoRoundsConverge(s: Setting, urlOk: string -> bool, w: World, v: World, u: World)
    requires AtRest(s, urlOk, w) && ARound(s, urlOk, w, v) && ARound(s, urlOk, v, u)
    ensures Converged(s, u)
    ensures forall actions, x | OnlyReleases(actions) && CleanReconcile(s, urlOk, Run(u, urlOk, actions), x) ::
      x.proxies == Run(u, urlOk, actions).proxies
  {
    hide AtRest, ARound, AllClean, Converged, CleanReconcile, Run;
    RoundDoes(s, urlOk, w, v);
    RoundDoes(s, urlOk, v, u);
    forall actions, x | OnlyReleases(actions) && CleanReconcile(s, urlOk, Run(u, urlOk, actions), x)
      ensures x.proxies == Run(u, urlOk, actions).proxies
    {
      ReleaseActionsKeep(s, urlOk, u, actions);
      ConvergedStays(s, urlOk, u, Run(u, urlOk, actions));
      CleanReconcileDoes(s, urlOk, Run(u, urlOk, actions), x);
    }
  }

  lemma ConvergedStays(s: Setting, urlOk: string -> bool, w: World, v: World)
    requires Converged(s, w) && KeptProxies(s, w, v) && AtRest(s, urlOk, v)
    ensures Converged(s, v)
  {
    RestIsSane(s, urlOk, v);
    SaneIsOnePerPair(s, v);
    hide AtRest, Sane, SettingOk;
    forall id <- v.proxies ensures !Orphan(s, v.proxies[id]) {
      assert SameForRounds(s, w.proxies[id], v.proxies[id]);
    }
    forall c <- s.eligible ensures Served(s, v, c) {
      ServedStays(s, w, v, c);
    }
  }

  /** Every reconcile without a failed call, cluster by cluster and under every strategy: an
      eligible cluster none of whose proxies was wrong, in particular one without a proxy, is
      served; a proxy that is neither an orphan nor of an eligible cluster, so of a paused cluster,
      of another HelmChartProxy, or of an unselected cluster under InstallOnce, is left alone. */
  lemma EachClusterIsServed(s: Setting, urlOk: string -> bool, w: World, v: World)
    requires AtRest(s, urlOk, w) && CleanReconcile(s, urlOk, w, v)
    ensures Sane(s, v) && forall c <- s.eligible :: c.namespace == s.key.namespace
    ensures forall c <- s.eligible :: Clean(s, w, c) ==> Served(s, v, c)
    ensures forall id <- w.proxies | !Orphan(s, w.proxies[id]) && !PairAmong(s, w.proxies[id], s.eligible) ::
      id in v.proxies && v.proxies[id] == w.proxies[id]
  {
    var ids, order := CleanReconcileIs(s, urlOk, w, v);
    RestIsSane(s, urlOk, w);
    RestIsSane(s, urlOk, v);
    hide AtRest, CleanReconcile, ReconcileIn, Sane, SettingOk, Clean, Served, StoreIs, ReadyIsExact, PairAmong;
    var w1 := DeleteEach(w, ids);
    OrphansAreNoPairs(s, w, ids);
    TurnByTurn(s, w1, order);
    SameStoreSame(s, ReconcileIn(s, w, ids, order), v);
    EndsAs(s, w, v, ids, order);
    SameEligible(s, order);
    forall c <- s.eligible ensures c.namespace == s.key.namespace {
      InNamespace(s, c);
    }
  }

  /** A paused cluster, or one that is being deleted, is passed over. */
  lemma PausedClusterIsLeftAlone(s: Setting, urlOk: string -> bool, w: World, v: World, c: ObjectKey, id: ProxyId)
    requires AtRest(s, urlOk, w) && CleanReconcile(s, urlOk, w, v)
    requires c in w.clusters && c.namespace == s.key.namespace && (w.clusters[c].paused || w.clusters[c].deleting)
    requires SelectorMatches(s.chart.selector, w.clusters[c].labels)
    requires id in w.proxies && PairOf(w.proxies[id], s.key, c)
    ensures id in v.proxies && v.proxies[id] == w.proxies[id]
  {
    EachClusterIsServed(s, urlOk, w, v);
    RestIsSane(s, urlOk, w);
    assert ProxySane(s, w.clock, id, w.proxies[id]);
    var selected := Selected(w.clusters, s.key, s.chart.selector);
    assert !Eligible(selected, c) && c in selected;
    hide Inv, CleanReconcile;
    forall d <- s.eligible ensures !PairOf(w.proxies[id], s.key, d) {
      assert Eligible(selected, d);
    }
  }

  lemma EndsAs(s: Setting, w: World, v: World, ids: seq<ProxyId>, order: seq<ObjectKey>)
    requires StoreIs(ReconcileIn(s, w, ids, order), v)
    ensures v.proxies == InTurn(s, DeleteEach(w, ids), order).proxies
    ensures ReconcileIn(s, w, ids, order) == InTurn(s, DeleteEach(w, ids), order)
  {
  }

  lemma SameEligible(s: Setting, order: seq<ObjectKey>)
    requires Reorders(s, order)
    ensures forall p: ReleaseProxy :: PairAmong(s, p, order) <==> PairAmong(s, p, s.eligible)
  {
  }

  /** A cluster that the HelmChartProxy is to serve: it is in the namespace, its labels match, and it
      is neither paused nor being deleted. */
  ghost predicate ToServe(s: Setting, w: World, c: ObjectKey) {
    && c in w.clusters && c.namespace == s.key.namespace
    && SelectorMatches(s.chart.selector, w.clusters[c].labels)
    && !w.clusters[c].paused && !w.clusters[c].deleting
  }

  lemma ToServeIsEligible(s: Setting, urlOk: string -> bool, w: World)
    requires AtRest(s, urlOk, w)
    ensures forall c :: c in s.eligible <==> ToServe(s, w, c)
    ensures forall c :: c in s.selected <==>
      c in w.clusters && c.namespace == s.key.namespace && SelectorMatches(s.chart.selector, w.clusters[c].labels)
  {
    hide Inv, SelectorMatches;
    var selected := Selected(w.clusters, s.key, s.chart.selector);
    forall c ensures c in s.eligible <==> ToServe(s, w, c) {
      assert c in s.eligible <==> Eligible(selected, c);
    }
  }

  /** Unless the strategy is InstallOnce, the converged state has no proxy of the HelmChartProxy on a
      cluster that it does not select. */
  lemma ConvergedSelects(s: Setting, urlOk: string -> bool, w: World, id: ProxyId)
    requires AtRest(s, urlOk, w) && Converged(s, w) && s.chart.strategy != InstallOnce
    requires id in w.proxies && Labelled(w.proxies[id], s.key)
    ensures var c := w.proxies[id].spec.cluster;
      c in w.clusters && c.namespace == s.key.namespace && SelectorMatches(s.chart.selector, w.clusters[c].labels)
  {
    ToServeIsEligible(s, urlOk, w);
    hide AtRest, SelectorMatches, OnePerPair, Served;
  }

  /** What the converged state is: each cluster to serve has exactly one proxy; it is live and has
      the version and values the HelmChartProxy asks for (or is installed under InstallOnce), and
      unless the strategy is InstallOnce it was created for the identity it asks for. */
  lemma ConvergedMeans(s: Setting, urlOk: string -> bool, w: World, c: ObjectKey) returns (id: ProxyId)
    requires AtRest(s, urlOk, w) && Converged(s, w) && ToServe(s, w, c)
    ensures id in w.proxies && PairIds(w.proxies, s.key, c) == {id}
    ensures var p := w.proxies[id];
      && !p.deleting && p.spec.cluster == c && p.spec.strategy == s.chart.strategy
      && (s.chart.strategy != InstallOnce ==>
            SameIdentity(p, s.chart) && w.history.origin[id].identity == IdentityOf(s.chart))
      && ((s.chart.strategy == InstallOnce && p.annotations.installed.Some?) ||
          (p.spec.version == s.chart.version && p.spec.values == s.render(c) && SecretsIn(p.spec, s.key.namespace)))
  {
    RestIsSane(s, urlOk, w);
    InvAtRest(s, urlOk, w);
    ToServeIsEligible(s, urlOk, w);
    InNamespace(s, c);
    hide AtRest, Inv, Sane, SettingOk;
    id := ServedMeans(s, w, c);
    ContentOf(w, urlOk, id);
    ReinstallByOrigin(w.history, id, w.proxies[id], s.chart);
  }
}
