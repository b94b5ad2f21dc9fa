/** The chart controller's loops over listed objects that only compute: which proxies are
    orphaned, whether all are ready, and which HelmChartProxies select a cluster. */
module Listings {
  import opened Types
  import opened Machine

  /** A listed HelmReleaseProxy with its name. */
  datatype Item = Item(id: ProxyId, proxy: ReleaseProxy)

  /* ---- orphans ---- */

  /** The map key the program builds for a cluster. */
  function ClusterString(c: ObjectKey): string {
    c.namespace + "/" + c.name
  }

  predicate SlashFree(s: string) {
    '/' !in s
  }

  /** Two keys with slash-free namespaces have the same string only if they are the same. */
  lemma ClusterStringIsInjective(c: ObjectKey, d: ObjectKey)
    requires SlashFree(c.namespace) && SlashFree(d.namespace)
    requires ClusterString(c) == ClusterString(d)
    ensures c == d
  {
    var s := ClusterString(c);
    var m, n := |c.namespace|, |d.namespace|;
    assert s[m] == '/' && s[n] == '/';
    assert m == n;
    assert c.namespace == s[..m] && d.namespace == s[..n];
    assert c.name == s[m + 1..] && d.name == s[n + 1..];
  }

  /** Without that, different clusters may collide. */
  lemma SlashesCollide()
    ensures exists c, d :: c != d && ClusterString(c) == ClusterString(d)
  {
    var c, d := ObjectKey("a/b", "c"), ObjectKey("a", "b/c");
    assert c.namespace != d.namespace;
    assert ClusterString(c) == ClusterString(d);
  }

  /** The items whose cluster is not selected, in their order. */
  function OrphansOf(items: seq<Item>, selected: set<ObjectKey>): seq<Item> {
    if items == [] then []
    else
      OrphansOf(items[..|items| - 1], selected) +
      (if items[|items| - 1].proxy.spec.cluster in selected then [] else [items[|items| - 1]])
  }

  function Members(clusters: seq<ObjectKey>): set<ObjectKey> {
    set c <- clusters
  }

  /** getOrphanedHelmReleaseProxies, with its map of strings: all and only the proxies whose
      cluster is not selected, in their order. */
  method GetOrphaned(clusters: seq<ObjectKey>, items: seq<Item>) returns (orphans: seq<Item>)
    requires forall c <- clusters :: SlashFree(c.namespace)
    requires forall i <- items :: SlashFree(i.proxy.spec.cluster.namespace)
    ensures orphans == OrphansOf(items, Members(clusters))
  {
    var selected: set<string> := {};
    for i := 0 to |clusters|
      invariant selected == set c <- clusters[..i] :: ClusterString(c)
    {
      selected := selected + {ClusterString(clusters[i])};
      assert clusters[..i + 1] == clusters[..i] + [clusters[i]];
    }
    assert clusters[..|clusters|] == clusters;
    orphans := [];
    for i := 0 to |items|
      invariant orphans == OrphansOf(items[..i], Members(clusters))
    {
      var cluster := items[i].proxy.spec.cluster;
      assert items[..i + 1][..i] == items[..i];
      assert ClusterString(cluster) in selected <==> cluster in clusters by {
        StringIsSelected(clusters, cluster);
      }
      if ClusterString(cluster) !in selected {
        orphans := orphans + [items[i]];
      }
    }
    assert items[..|items|] == items;
  }

  lemma StringIsSelected(clusters: seq<ObjectKey>, d: ObjectKey)
    requires SlashFree(d.namespace) && forall c <- clusters :: SlashFree(c.namespace)
    ensures ClusterString(d) in (set c <- clusters :: ClusterString(c)) <==> d in clusters
  {
    forall c <- clusters | ClusterString(c) == ClusterString(d) ensures c == d {
      ClusterStringIsInjective(c, d);
    }
  }

  /** What the list of orphans holds, by membership and by order. */
  lemma {:induction false} OrphansAreExactly(items: seq<Item>, selected: set<ObjectKey>)
    ensures forall i :: i in OrphansOf(items, selected) <==> i in items && i.proxy.spec.cluster !in selected
    ensures |OrphansOf(items, selected)| <= |items|
  {
    if items != [] {
      OrphansAreExactly(items[..|items| - 1], selected);
      assert items == items[..|items| - 1] + [items[|items| - 1]];
    }
  }

  /** They keep the order they were listed in. */
  lemma {:induction false} OrphansKeepOrder(items: seq<Item>, selected: set<ObjectKey>) returns (at: seq<nat>)
    ensures |at| == |OrphansOf(items, selected)|
    ensures forall k :: 0 <= k < |at| ==> at[k] < |items| && items[at[k]] == OrphansOf(items, selected)[k]
    ensures forall i, k :: 0 <= i < k < |at| ==> at[i] < at[k]
  {
    at := [];
    if items != [] {
      var front, last := items[..|items| - 1], items[|items| - 1];
      at := OrphansKeepOrder(front, selected);
      assert forall k :: 0 <= k < |at| ==> items[at[k]] == front[at[k]];
      var found := OrphansOf(front, selected);
      assert OrphansOf(items, selected) == if last.proxy.spec.cluster !in selected then found + [last] else found;
      hide OrphansOf;
      if last.proxy.spec.cluster !in selected {
        at := at + [|items| - 1];
      }
    }
  }

  /* ---- readiness ---- */

  /** The loop of aggregateHelmReleaseProxyReadyCondition over a non-empty list: it gives up at
      the first proxy whose spec has not been observed yet. */
  method Verdict(items: seq<Item>) returns (outdated: bool, ready: bool)
    ensures outdated <==> exists i <- items :: i.proxy.generation != i.proxy.status.observedGeneration
    ensures !outdated ==> (ready <==> forall i <- items :: i.proxy.status.ready == IsTrue)
  {
    outdated, ready := false, true;
    for i := 0 to |items|
      invariant forall k <- items[..i] :: k.proxy.generation == k.proxy.status.observedGeneration
      invariant ready <==> forall k <- items[..i] :: k.proxy.status.ready == IsTrue
    {
      assert items[..i + 1] == items[..i] + [items[i]];
      if items[i].proxy.generation != items[i].proxy.status.observedGeneration {
        return true, false;
      }
      if items[i].proxy.status.ready != IsTrue {
        ready := false;
      }
    }
    assert items[..|items|] == items;
  }

  /* ---- the mapper ---- */

  /** A listed HelmChartProxy with its key. */
  datatype ChartItem = ChartItem(key: ObjectKey, selector: Selector)

  function SelectingKeys(charts: seq<ChartItem>, labels: map<string, string>): seq<ObjectKey> {
    if charts == [] then []
    else
      SelectingKeys(charts[..|charts| - 1], labels) +
      (if SelectorMatches(charts[|charts| - 1].selector, labels) then [charts[|charts| - 1].key] else [])
  }

  /** ClusterToHelmChartProxiesMapper: if every selector parses, the HelmChartProxies that
      select the cluster, in their order; if a single one does not, none at all. */
  method MapCluster(charts: seq<ChartItem>, labels: map<string, string>) returns (requests: seq<ObjectKey>)
    ensures requests ==
      if forall c <- charts :: SelectorParses(c.selector) then SelectingKeys(charts, labels) else []
  {
    requests := [];
    for i := 0 to |charts|
      invariant forall c <- charts[..i] :: SelectorParses(c.selector)
      invariant requests == SelectingKeys(charts[..i], labels)
    {
      assert charts[..i + 1][..i] == charts[..i];
      assert charts[..i + 1] == charts[..i] + [charts[i]];
      if !SelectorParses(charts[i].selector) {
        assert charts[i] in charts;
        return [];
      }
      if SelectorMatches(charts[i].selector, labels) {
        requests := requests + [charts[i].key];
      }
    }
    assert charts[..|charts|] == charts;
    assert forall c <- charts :: SelectorParses(c.selector);
  }

  /** One HelmChartProxy with a bad selector hides the cluster from all others. */
  lemma {:induction false} MapperFindsExactly(charts: seq<ChartItem>, labels: map<string, string>, key: ObjectKey)
    ensures key in SelectingKeys(charts, labels) <==>
      exists c <- charts :: c.key == key && SelectorMatches(c.selector, labels)
  {
    if charts != [] {
      MapperFindsExactly(charts[..|charts| - 1], labels, key);
      assert charts == charts[..|charts| - 1] + [charts[|charts| - 1]];
    }
  }

  /** What selectors select: opposite operators split the label sets, more requirements narrow the
      selection, and no requirement selects everything; and which of them parse. */
  lemma SelectorsSelect(k: string, values: set<string>, s: Selector, t: Selector, labels: map<string, string>)
    ensures In(k, values).Matches(labels) <==> exists v <- values :: Exists(k).Matches(labels) && labels[k] == v
    ensures NotIn(k, values).Matches(labels) <==> !In(k, values).Matches(labels)
    ensures DoesNotExist(k).Matches(labels) <==> !Exists(k).Matches(labels)
    ensures Exists(k).Matches(labels) <==> k in labels
    ensures SelectorMatches(s + t, labels) <==> SelectorMatches(s, labels) && SelectorMatches(t, labels)
    ensures SelectorMatches([], labels)
    ensures In(k, values).Parses() <==> values != {}
    ensures NotIn(k, values).Parses() <==> values != {}
    ensures Exists(k).Parses() && DoesNotExist(k).Parses() && !BadOperator(k).Parses()
    ensures SelectorParses(s + t) <==> SelectorParses(s) && SelectorParses(t)
  {
    forall r | r in s || r in t ensures r in s + t {
    }
    assert forall r <- s + t :: r in s || r in t;
  }
}
