/** Whole reconciles run one after the other: with a fixed HelmChartProxy and fixed clusters
    the chart controller converges in two rounds and then writes nothing more. */
module Rounds {
  import opened Types
  import opened Phases
  import opened Machine
  import opened StoreInvariant

  /** What stays fixed during the rounds: the HelmChartProxy, the selected clusters that are
      neither paused nor being deleted, all selected ones, and what the values render to. */
  datatype Setting = Setting(
    key: ObjectKey,
    chart: ChartSpec,
    selected: set<ObjectKey>,
    eligible: seq<ObjectKey>,
    render: ObjectKey -> string)

  ghost predicate SettingOk(s: Setting) {
    && s.chart.releaseNamespace != ""
    && (forall c <- s.selected :: c.namespace == s.key.namespace)
    && (forall c <- s.eligible :: c in s.selected)
    && Distinct(s.eligible)
  }

  ghost predicate ProxySane(s: Setting, clock: nat, id: ProxyId, p: ReleaseProxy) {
    && id < clock && (p.deleting ==> p.finalizer)
    && (Labelled(p, s.key) ==>
          p.spec.strategy == s.chart.strategy && p.spec.releaseNamespace != "" &&
          p.spec.cluster == ObjectKey(p.namespace, p.clusterLabel))
  }

  /** A store with at most one proxy per pair, properly labelled. */
  ghost predicate Sane(s: Setting, w: World) {
    OnePerPair(w.proxies) && forall id <- w.proxies :: ProxySane(s, w.clock, id, w.proxies[id])
  }

  /** reconcileForCluster, run without interruption. */
  ghost function ForCluster(s: Setting, w: World, c: ObjectKey): World {
    var found := PairIds(w.proxies, s.key, c);
    if found == {} then Created(w, s.key, c, s.chart, NewProxy(s.key, s.chart, c, s.render(c)))
    else
      var id :| id in found;
      if found == {id} then ForExisting(s, w, c, id) else w
  }

  function ForExisting(s: Setting, w: World, c: ObjectKey, id: ProxyId): World
    requires id in w.proxies
  {
    match Decide(s.key, s.chart, c, Some(w.proxies[id]), Some(s.render(c)))
    case Reinstall => DeleteProxy(w, id)
    case Update(p) => if UpdateAccepted(w, id, p) then WriteProxy(w, id, Overwrite(w.proxies[id], p)) else w
    case _ => w
  }

  /** An InstallOnce proxy that has been installed, which nothing touches any more. */
  predicate IsDone(s: Setting, p: ReleaseProxy) {
    s.chart.strategy == InstallOnce && p.annotations.installed.Some?
  }

  predicate MustGo(s: Setting, p: ReleaseProxy) {
    s.chart.strategy != InstallOnce && ShouldReinstall(p, s.chart)
  }

  predicate MustChange(s: Setting, p: ReleaseProxy, c: ObjectKey) {
    !IsDone(s, p) && !MustGo(s, p) && SpecChanged(p.spec, s.key.namespace, s.chart, s.render(c))
  }

  /** The proxy is what the HelmChartProxy asks for: it is live, it stands for the same release
      unless the strategy is InstallOnce, and it has the version and values, with all Secrets in
      reach, unless it has been installed under InstallOnce. */
  ghost predicate Matches(s: Setting, p: ReleaseProxy, c: ObjectKey) {
    && !p.deleting && (s.chart.strategy != InstallOnce ==> SameIdentity(p, s.chart))
    && (IsDone(s, p) ||
        (p.spec.version == s.chart.version && p.spec.values == s.render(c) && SecretsIn(p.spec, s.key.namespace)))
  }

  /** Every proxy of the pair matches, or is on its way out. */
  ghost predicate Handled(s: Setting, w: World, c: ObjectKey) {
    forall id <- w.proxies :: PairOf(w.proxies[id], s.key, c) ==> w.proxies[id].deleting || Matches(s, w.proxies[id], c)
  }

  /** No proxy of the pair is wrong; there may be none. */
  ghost predicate Clean(s: Setting, w: World, c: ObjectKey) {
    forall id <- w.proxies :: PairOf(w.proxies[id], s.key, c) ==> Matches(s, w.proxies[id], c)
  }

  /** Exactly one proxy for the pair, by OnePerPair, and it matches. */
  ghost predicate Served(s: Setting, w: World, c: ObjectKey) {
    Clean(s, w, c) && exists id <- w.proxies :: PairOf(w.proxies[id], s.key, c)
  }

  /** Proxies of other pairs are untouched. */
  ghost predicate OnlyPair(s: Setting, w: World, w': World, c: ObjectKey) {
    && w.clock <= w'.clock
    && (forall id <- w.proxies :: !PairOf(w.proxies[id], s.key, c) ==>
          id in w'.proxies && w'.proxies[id] == w.proxies[id])
    && (forall id <- w'.proxies :: !PairOf(w'.proxies[id], s.key, c) ==>
          id in w.proxies && w.proxies[id] == w'.proxies[id])
  }

  lemma WriteStaysSane(s: Setting, w: World, id: ProxyId, q: ReleaseProxy)
    requires Sane(s, w) && id in w.proxies && SameRole(w.proxies[id], q)
    ensures Sane(s, WriteProxy(w, id, q))
  {
    StampKeeps(w.proxies[id], q, w.clock);
    var w' := WriteProxy(w, id, q);
    forall i <- w'.proxies ensures ProxySane(s, w'.clock, i, w'.proxies[i]) {
      assert ProxySane(s, w.clock, i, w.proxies[i]);
    }
  }

  lemma WriteOnlyPair(s: Setting, w: World, id: ProxyId, q: ReleaseProxy, c: ObjectKey)
    requires id in w.proxies && SameRole(w.proxies[id], q) && PairOf(w.proxies[id], s.key, c)
    ensures OnlyPair(s, w, WriteProxy(w, id, q), c)
  {
    StampKeeps(w.proxies[id], q, w.clock);
  }

  lemma CreateForCluster(s: Setting, w: World, c: ObjectKey)
    requires SettingOk(s) && Sane(s, w) && c.namespace == s.key.namespace && NoneForPair(w.proxies, s.key, c)
    ensures var w' := Created(w, s.key, c, s.chart, NewProxy(s.key, s.chart, c, s.render(c)));
      Sane(s, w') && OnlyPair(s, w, w', c) && Served(s, w', c)
  {
    var w' := Created(w, s.key, c, s.chart, NewProxy(s.key, s.chart, c, s.render(c)));
    var p := w'.proxies[w.clock];
    assert PairOf(p, s.key, c) && Matches(s, p, c) && ProxySane(s, w'.clock, w.clock, p);
    assert w.clock in w.proxies ==> ProxySane(s, w.clock, w.clock, w.proxies[w.clock]);
    forall i <- w'.proxies | i != w.clock ensures ProxySane(s, w'.clock, i, w'.proxies[i]) {
      assert ProxySane(s, w.clock, i, w.proxies[i]);
    }
    forall i, k | i in w'.proxies && k in w'.proxies && SamePair(w'.proxies[i], w'.proxies[k]) ensures i == k {
      if i != w.clock && k != w.clock {
        assert SamePair(w.proxies[i], w.proxies[k]);
      } else if i != w.clock {
        assert PairOf(w.proxies[i], s.key, c);
      } else if k != w.clock {
        assert PairOf(w.proxies[k], s.key, c);
      }
    }
  }

  lemma UpdateForCluster(s: Setting, w: World, c: ObjectKey, id: ProxyId)
    requires SettingOk(s) && Sane(s, w) && id in w.proxies && PairOf(w.proxies[id], s.key, c)
    requires MustChange(s, w.proxies[id], c)
    ensures var p := w.proxies[id];
      var q := p.(spec := Refresh(p.spec, s.key.namespace, s.chart, s.render(c)));
      && ForExisting(s, w, c, id) == WriteProxy(w, id, Overwrite(p, q))
      && SameRole(p, Overwrite(p, q))
      && Overwrite(p, q).finalizer == p.finalizer && Overwrite(p, q).deleting == p.deleting
      && (!p.deleting ==> Matches(s, Stamp(p, Overwrite(p, q), w.clock), c))
  {
    assert ProxySane(s, w.clock, id, w.proxies[id]);
  }

  lemma WriteHandles(s: Setting, w: World, c: ObjectKey, id: ProxyId, q: ReleaseProxy)
    requires Sane(s, w) && id in w.proxies && PairOf(w.proxies[id], s.key, c) && SameRole(w.proxies[id], q)
    requires q.deleting || Matches(s, Stamp(w.proxies[id], q, w.clock), c)
    ensures var w' := WriteProxy(w, id, q); Sane(s, w') && OnlyPair(s, w, w', c) && Handled(s, w', c)
  {
    WriteStaysSane(s, w, id, q);
    WriteOnlyPair(s, w, id, q, c);
    StampKeeps(w.proxies[id], q, w.clock);
    var w' := WriteProxy(w, id, q);
    forall i <- w'.proxies | PairOf(w'.proxies[i], s.key, c)
      ensures w'.proxies[i].deleting || Matches(s, w'.proxies[i], c)
    {
      if i != id {
        assert SamePair(w.proxies[i], w.proxies[id]);
      }
    }
  }

  lemma LeaveHandles(s: Setting, w: World, c: ObjectKey, id: ProxyId)
    requires Sane(s, w) && id in w.proxies && PairOf(w.proxies[id], s.key, c)
    requires !MustGo(s, w.proxies[id]) && !MustChange(s, w.proxies[id], c)
    ensures Handled(s, w, c) && OnlyPair(s, w, w, c)
  {
    forall i <- w.proxies | PairOf(w.proxies[i], s.key, c)
      ensures w.proxies[i].deleting || Matches(s, w.proxies[i], c)
    {
      assert SamePair(w.proxies[i], w.proxies[id]);
    }
  }

  /** On an existing proxy: it ends up matching, or leaving. */
  lemma ExistingForCluster(s: Setting, w: World, c: ObjectKey, id: ProxyId)
    requires SettingOk(s) && Sane(s, w) && id in w.proxies && PairOf(w.proxies[id], s.key, c)
    ensures var w' := ForExisting(s, w, c, id);
      Sane(s, w') && OnlyPair(s, w, w', c) && Handled(s, w', c) && (Matches(s, w.proxies[id], c) ==> w' == w)
  {
    hide Sane, OnlyPair, Handled;
    var p := w.proxies[id];
    if MustGo(s, p) {
      WriteHandles(s, w, c, id, p.(deleting := true));
    } else if MustChange(s, p, c) {
      UpdateForCluster(s, w, c, id);
      WriteHandles(s, w, c, id, Overwrite(p, p.(spec := Refresh(p.spec, s.key.namespace, s.chart, s.render(c)))));
    } else {
      LeaveHandles(s, w, c, id);
    }
  }

  /** One cluster of one reconcile: nothing else is touched; what was clean becomes served,
      what was served stays as it is, and anything becomes handled. */
  lemma ForClusterStep(s: Setting, w: World, c: ObjectKey)
    requires SettingOk(s) && Sane(s, w) && c.namespace == s.key.namespace
    ensures var w' := ForCluster(s, w, c);
      && Sane(s, w') && OnlyPair(s, w, w', c) && Handled(s, w', c)
      && (Clean(s, w, c) ==> Served(s, w', c))
      && (Served(s, w, c) ==> w' == w)
  {
    var found := PairIds(w.proxies, s.key, c);
    if found == {} {
      forall i <- w.proxies ensures !PairOf(w.proxies[i], s.key, c) {
        assert i !in found;
      }
      CreateForCluster(s, w, c);
    } else {
      var id :| id in found;
      forall i <- found ensures i == id {
        assert SamePair(w.proxies[i], w.proxies[id]);
      }
      assert found == {id};
      assert ForCluster(s, w, c) == ForExisting(s, w, c, id);
      ExistingForCluster(s, w, c, id);
    }
  }

  /* ---- a whole reconcile ---- */

  /** The loop of reconcileNormal over the first `n` clusters. */
  ghost function ForClusters(s: Setting, w: World, n: nat): World
    requires n <= |s.eligible|
  {
    if n == 0 then w else ForCluster(s, ForClusters(s, w, n - 1), s.eligible[n - 1])
  }

  /** Deleting a set of proxies, one after the other. */
  function DeleteEach(w: World, ids: seq<ProxyId>): World {
    if ids == [] then w else DeleteProxy(DeleteEach(w, ids[..|ids| - 1]), ids[|ids| - 1])
  }

  /** InstallOnce has no orphans: its proxies outlive the selection. */
  ghost predicate Orphan(s: Setting, p: ReleaseProxy) {
    s.chart.strategy != InstallOnce && Labelled(p, s.key) && p.spec.cluster !in s.selected
  }

  ghost predicate ListsOrphans(s: Setting, w: World, ids: seq<ProxyId>) {
    forall id :: id in ids <==> id in w.proxies && Orphan(s, w.proxies[id])
  }

  ghost predicate Distinct<T(!new)>(items: seq<T>) {
    forall i, j :: 0 <= i < j < |items| ==> items[i] != items[j]
  }

  /** The orphans, in some order. */
  ghost function Orphans(s: Setting, w: World): (ids: seq<ProxyId>)
    ensures ListsOrphans(s, w, ids) && Distinct(ids)
  {
    SeqOf(set id | id in w.proxies && Orphan(s, w.proxies[id]))
  }

  ghost function SeqOf(ids: set<ProxyId>): (q: seq<ProxyId>)
    ensures (forall id :: id in q <==> id in ids) && Distinct(q)
  {
    if ids == {} then []
    else
      var id :| id in ids;
      SeqOf(ids - {id}) + [id]
  }

  /** One chart reconcile: orphans first, then the clusters. */
  ghost function Reconcile(s: Setting, w: World): World {
    ForClusters(s, DeleteEach(w, Orphans(s, w)), |s.eligible|)
  }

  /** The release controller finishing with every terminating proxy. */
  function Drain(w: World): World {
    w.(proxies := map id | id in w.proxies && !w.proxies[id].deleting :: w.proxies[id])
  }

  ghost function Round(s: Setting, w: World): World {
    Drain(Reconcile(s, w))
  }

  ghost predicate NoOrphans(s: Setting, w: World) {
    forall id <- w.proxies :: !Orphan(s, w.proxies[id])
  }

  ghost predicate OrphansLeaving(s: Setting, w: World) {
    forall id <- w.proxies :: Orphan(s, w.proxies[id]) ==> w.proxies[id].deleting
  }

  /** What deleting the listed proxies does: they leave or are gone, the rest is untouched. */
  ghost predicate DeletesOnly(w: World, w': World, ids: seq<ProxyId>) {
    && (forall id <- w.proxies :: id !in ids ==> id in w'.proxies && w'.proxies[id] == w.proxies[id])
    && (forall id <- w'.proxies :: id in w.proxies && SameRole(w.proxies[id], w'.proxies[id]))
    && (forall id <- w'.proxies :: if id in ids then w'.proxies[id].deleting else w'.proxies[id] == w.proxies[id])
  }

  lemma {:induction false} DeleteEachDeletes(s: Setting, w: World, ids: seq<ProxyId>)
    requires Sane(s, w)
    ensures var w' := DeleteEach(w, ids); Sane(s, w') && DeletesOnly(w, w', ids)
  {
    if ids != [] {
      var front, last := ids[..|ids| - 1], ids[|ids| - 1];
      assert ids == front + [last];
      DeleteEachDeletes(s, w, front);
      DeleteOneMore(s, w, DeleteEach(w, front), front, last);
    }
  }

  lemma DeleteOneMore(s: Setting, w: World, w1: World, front: seq<ProxyId>, last: ProxyId)
    requires Sane(s, w1) && DeletesOnly(w, w1, front)
    ensures var w' := DeleteProxy(w1, last); Sane(s, w') && DeletesOnly(w, w', front + [last])
  {
    if last in w1.proxies {
      var q := w1.proxies[last].(deleting := true);
      WriteStaysSane(s, w1, last, q);
      StampKeeps(w1.proxies[last], q, w1.clock);
    }
  }

  /** Distinct clusters of one namespace have distinct pairs. */
  lemma PairsAreDisjoint(s: Setting, p: ReleaseProxy, c: ObjectKey, d: ObjectKey)
    requires c.namespace == s.key.namespace && d.namespace == s.key.namespace && c != d
    requires PairOf(p, s.key, c)
    ensures !PairOf(p, s.key, d)
  {
  }

  lemma OtherPairsSurvive(s: Setting, w: World, w': World, c: ObjectKey, d: ObjectKey)
    requires OnlyPair(s, w, w', c) && c != d
    requires c.namespace == s.key.namespace && d.namespace == s.key.namespace
    ensures Handled(s, w, d) ==> Handled(s, w', d)
    ensures Clean(s, w, d) ==> Clean(s, w', d)
    ensures Served(s, w, d) ==> Served(s, w', d)
  {
    forall id <- w'.proxies | PairOf(w'.proxies[id], s.key, d)
      ensures id in w.proxies && w.proxies[id] == w'.proxies[id]
    {
      PairsAreDisjoint(s, w'.proxies[id], d, c);
    }
    if id :| id in w.proxies && PairOf(w.proxies[id], s.key, d) {
      PairsAreDisjoint(s, w.proxies[id], d, c);
      assert id in w'.proxies && PairOf(w'.proxies[id], s.key, d);
    }
  }

  lemma OrphansSurvive(s: Setting, w: World, w': World, c: ObjectKey)
    requires OnlyPair(s, w, w', c) && Sane(s, w') && c in s.selected && c.namespace == s.key.namespace
    ensures OrphansLeaving(s, w) ==> OrphansLeaving(s, w')
    ensures NoOrphans(s, w) ==> NoOrphans(s, w')
  {
    forall id <- w'.proxies | Orphan(s, w'.proxies[id]) ensures id in w.proxies && w.proxies[id] == w'.proxies[id] {
      assert ProxySane(s, w'.clock, id, w'.proxies[id]);
    }
  }

  ghost predicate AllHandled(s: Setting, w: World, n: nat)
    requires n <= |s.eligible|
  {
    forall i | 0 <= i < n :: Handled(s, w, s.eligible[i])
  }

  ghost predicate AllServed(s: Setting, w: World, n: nat)
    requires n <= |s.eligible|
  {
    forall i | 0 <= i < n :: Served(s, w, s.eligible[i])
  }

  /** The pairs the loop has not reached yet. */
  ghost predicate CleanFrom(s: Setting, w: World, n: nat)
    requires n <= |s.eligible|
  {
    forall i | n <= i < |s.eligible| :: Clean(s, w, s.eligible[i])
  }

  lemma OneMoreCluster(s: Setting, w: World, n: nat)
    requires SettingOk(s) && Sane(s, w) && n < |s.eligible|
    ensures var w' := ForCluster(s, w, s.eligible[n]);
      && Sane(s, w')
      && (AllHandled(s, w, n) ==> AllHandled(s, w', n + 1))
      && (AllServed(s, w, n) && CleanFrom(s, w, n) ==> AllServed(s, w', n + 1) && CleanFrom(s, w', n + 1))
      && (Served(s, w, s.eligible[n]) ==> w' == w)
      && (OrphansLeaving(s, w) ==> OrphansLeaving(s, w')) && (NoOrphans(s, w) ==> NoOrphans(s, w'))
  {
    hide Sane, Handled, Clean, Served, NoOrphans, OrphansLeaving, OnlyPair;
    var c := s.eligible[n];
    ForClusterStep(s, w, c);
    var w' := ForCluster(s, w, c);
    OrphansSurvive(s, w, w', c);
    forall i | 0 <= i < |s.eligible| && i != n
      ensures Handled(s, w, s.eligible[i]) ==> Handled(s, w', s.eligible[i])
      ensures Clean(s, w, s.eligible[i]) ==> Clean(s, w', s.eligible[i])
      ensures Served(s, w, s.eligible[i]) ==> Served(s, w', s.eligible[i])
    {
      assert s.eligible[i] != c;
      OtherPairsSurvive(s, w, w', c, s.eligible[i]);
    }
  }

  /** The whole loop over the clusters. */
  lemma {:induction false} ForClustersStep(s: Setting, w: World, n: nat)
    requires SettingOk(s) && Sane(s, w) && n <= |s.eligible|
    ensures var w' := ForClusters(s, w, n);
      && Sane(s, w') && AllHandled(s, w', n)
      && (CleanFrom(s, w, 0) ==> AllServed(s, w', n) && CleanFrom(s, w', n))
      && (AllServed(s, w, n) ==> w' == w)
      && (OrphansLeaving(s, w) ==> OrphansLeaving(s, w')) && (NoOrphans(s, w) ==> NoOrphans(s, w'))
  {
    hide Sane, Handled, Clean, Served, NoOrphans, OrphansLeaving, SettingOk, ForCluster;
    if n > 0 {
      ForClustersStep(s, w, n - 1);
      OneMoreCluster(s, ForClusters(s, w, n - 1), n - 1);
    }
  }

  lemma DrainStep(s: Setting, w: World)
    requires Sane(s, w)
    ensures var w' := Drain(w);
      && Sane(s, w')
      && (AllHandled(s, w, |s.eligible|) ==> CleanFrom(s, w', 0))
      && (AllServed(s, w, |s.eligible|) ==> AllServed(s, w', |s.eligible|))
      && (OrphansLeaving(s, w) ==> NoOrphans(s, w'))
  {
    var w' := Drain(w);
    forall id <- w'.proxies ensures ProxySane(s, w'.clock, id, w'.proxies[id]) {
      assert ProxySane(s, w.clock, id, w.proxies[id]);
    }
    forall c | Served(s, w, c) ensures Served(s, w', c) {
      var id :| id in w.proxies && PairOf(w.proxies[id], s.key, c);
      assert id in w'.proxies && PairOf(w'.proxies[id], s.key, c);
    }
  }

  lemma OrphansLeave(s: Setting, w: World)
    requires Sane(s, w)
    ensures var w' := DeleteEach(w, Orphans(s, w));
      Sane(s, w') && OrphansLeaving(s, w') && (NoOrphans(s, w) ==> w' == w)
  {
    var ids := Orphans(s, w);
    DeleteEachDeletes(s, w, ids);
    assert NoOrphans(s, w) ==> ids == [];
  }

  /** One round from any sane store: no orphan is left and no eligible pair is wrong; from
      such a store, every eligible pair is served. */
  lemma RoundStep(s: Setting, w: World)
    requires SettingOk(s) && Sane(s, w)
    ensures var w' := Round(s, w);
      && Sane(s, w') && NoOrphans(s, w') && CleanFrom(s, w', 0)
      && (NoOrphans(s, w) && CleanFrom(s, w, 0) ==> AllServed(s, w', |s.eligible|))
      && (NoOrphans(s, w) && AllServed(s, w, |s.eligible|) ==> Reconcile(s, w) == w)
  {
    OrphansLeave(s, w);
    ForClustersStep(s, DeleteEach(w, Orphans(s, w)), |s.eligible|);
    DrainStep(s, Reconcile(s, w));
  }

  /** Convergence: from any store with at most one proxy per pair, two rounds leave exactly one
      proxy per eligible cluster, matching the HelmChartProxy on identity, version and values,
      and no orphan; a third reconcile writes nothing. */
  lemma Converges(s: Setting, w: World)
    requires SettingOk(s) && Sane(s, w)
    ensures var w2 := Round(s, Round(s, w));
      && OnePerPair(w2.proxies) && NoOrphans(s, w2)
      && (forall c <- s.eligible :: Served(s, w2, c))
      && Reconcile(s, w2) == w2
  {
    RoundStep(s, w);
    RoundStep(s, Round(s, w));
    RoundStep(s, Round(s, Round(s, w)));
  }

  /** Why the strategies have to agree: on a proxy with another strategy every update is refused,
      and reconciles leave it as it is for good. */
  lemma OtherStrategyIsRefused(s: Setting, w: World, c: ObjectKey, id: ProxyId)
    requires id in w.proxies && s.chart.strategy != InstallOnce && w.proxies[id].spec.strategy != s.chart.strategy
    requires !ShouldReinstall(w.proxies[id], s.chart)
    requires SpecChanged(w.proxies[id].spec, s.key.namespace, s.chart, s.render(c))
    ensures ForExisting(s, w, c, id) == w
  {
  }

  /* ---- what serving a cluster means ---- */

  /** The controller leaves alone exactly the live proxies that match. */
  lemma LeavesExactlyMatching(s: Setting, p: ReleaseProxy, c: ObjectKey)
    ensures Matches(s, p, c) <==> !p.deleting && Decide(s.key, s.chart, c, Some(p), Some(s.render(c))).Leave?
  {
  }

  /** A served cluster has exactly one proxy, which is what the HelmChartProxy asks for. */
  lemma ServedMeans(s: Setting, w: World, c: ObjectKey) returns (id: ProxyId)
    requires Sane(s, w) && Served(s, w, c) && c.namespace == s.key.namespace
    ensures id in w.proxies && PairIds(w.proxies, s.key, c) == {id}
    ensures var p := w.proxies[id];
      Matches(s, p, c) && p.spec.cluster == c && p.spec.strategy == s.chart.strategy
  {
    id :| id in w.proxies && PairOf(w.proxies[id], s.key, c);
    assert ProxySane(s, w.clock, id, w.proxies[id]);
    forall i <- PairIds(w.proxies, s.key, c) ensures i == id {
      assert SamePair(w.proxies[i], w.proxies[id]);
    }
    hide Matches;
  }

  /** The turn of a cluster without a proxy, under every strategy: the only proxy of the pair
      afterwards is a new one with the HelmChartProxy's identity, version, values and strategy. */
  lemma TurnOnNone(s: Setting, w: World, c: ObjectKey)
    requires SettingOk(s) && Sane(s, w) && c.namespace == s.key.namespace && NoneForPair(w.proxies, s.key, c)
    ensures var w' := ForCluster(s, w, c);
      && PairIds(w'.proxies, s.key, c) == {w.clock} && w'.proxies - {w.clock} == w.proxies
      && var p := w'.proxies[w.clock];
      && p.spec.cluster == c && SameIdentity(p, s.chart) && p.spec.strategy == s.chart.strategy
      && p.spec.version == s.chart.version && p.spec.values == s.render(c) && SecretsIn(p.spec, s.key.namespace)
      && !p.deleting && p.annotations == Annotations(None, None)
  {
    assert PairIds(w.proxies, s.key, c) == {};
    CreateForCluster(s, w, c);
    DecisionOnNone(s.key, s.chart, c, Some(s.render(c)));
    var w' := ForCluster(s, w, c);
    assert PairOf(w'.proxies[w.clock], s.key, c);
    forall i <- w.proxies ensures i != w.clock {
      assert ProxySane(s, w.clock, i, w.proxies[i]);
    }
    hide NewProxy, Matches;
  }

  /** The turn of a cluster whose proxy is live and is not due for reinstall: afterwards it is as
      it was if it was installed under InstallOnce, and otherwise it has the version and values
      asked for, with its release name, annotations and status untouched. */
  lemma TurnOnExisting(s: Setting, w: World, c: ObjectKey, id: ProxyId)
    requires SettingOk(s) && Sane(s, w) && id in w.proxies && PairOf(w.proxies[id], s.key, c)
    requires !w.proxies[id].deleting && (s.chart.strategy != InstallOnce ==> SameIdentity(w.proxies[id], s.chart))
    ensures var w' := ForCluster(s, w, c);
      && id in w'.proxies
      && var p, q := w.proxies[id], w'.proxies[id];
      if s.chart.strategy == InstallOnce && p.annotations.installed.Some? then q == p
      else
        && q.spec.version == s.chart.version && q.spec.values == s.render(c) && SecretsIn(q.spec, s.key.namespace)
        && q.spec.releaseName == p.spec.releaseName && q.annotations == p.annotations && q.status == p.status
        && !q.deleting
  {
    var p := w.proxies[id];
    forall i <- PairIds(w.proxies, s.key, c) ensures i == id {
      assert SamePair(w.proxies[i], w.proxies[id]);
    }
    assert PairIds(w.proxies, s.key, c) == {id};
    assert ForCluster(s, w, c) == ForExisting(s, w, c, id);
    DecisionOnExisting(p, s.key, s.chart, c, Some(s.render(c)));
    assert !MustGo(s, p);
    if MustChange(s, p, c) {
      UpdateForCluster(s, w, c, id);
    }
    hide Decide, Sane;
  }
}
