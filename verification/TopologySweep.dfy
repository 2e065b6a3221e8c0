/** One discovery sweep as the operator wires it: the selected providers and the service correlator. */
module TopologySweep {
  import opened Wrappers
  import opened Discovery
  import opened Correlator
  import opened Registry
  import K = KubernetesGraph
  import E = KubernetesEdges
  import KP = KubernetesProvider
  import DP = DatadogProvider
  import D = DatadogProperties

  const OTEL := "otel"

  /** What the outside world answers to Datadog discovery during one sweep. */
  datatype Datadog = Datadog(creds: Result<Option<DP.Credentials>>, api: DP.API, options: DP.Options)

  /** The cluster, and the providers that are selected: Datadog, and OpenTelemetry with its endpoint. */
  datatype World = World(cluster: K.Cluster, excluded: set<string>, datadog: Option<Datadog>, otel: Option<string>)

  /** The OpenTelemetry provider finds nothing yet. */
  function OtelDiscovered(endpoint: string): Subgraph {
    Subgraph([], [], ProviderStatus(if endpoint == "" then NotConfigured else OK, 0, ""))
  }

  function DatadogDiscovered(d: Datadog): Subgraph {
    DP.Discovered(d.creds, d.api, d.options)
  }

  /** Kubernetes always, each other provider when it is selected. */
  function Wired(kubernetes: Subgraph, datadog: Option<Subgraph>, otel: Option<Subgraph>): seq<Provider> {
    [Provider(KUBERNETES, Finds(kubernetes))]
    + (if datadog.Some? then [Provider(DATADOG, Finds(datadog.value))] else [])
    + (if otel.Some? then [Provider(OTEL, Finds(otel.value))] else [])
  }

  function SnapshotOf(kubernetes: Subgraph, datadog: Option<Subgraph>, otel: Option<Subgraph>): Snapshot {
    Linked(Merged(Wired(kubernetes, datadog, otel)), [ServiceCorrelator])
  }

  function DatadogFound(w: World): Option<Subgraph> {
    if w.datadog.Some? then Some(DatadogDiscovered(w.datadog.value)) else None
  }

  function OtelFound(w: World): Option<Subgraph> {
    if w.otel.Some? then Some(OtelDiscovered(w.otel.value)) else None
  }

  function Topology(w: World): Snapshot {
    SnapshotOf(K.Discovered(w.cluster, w.excluded), DatadogFound(w), OtelFound(w))
  }

  method Merge(kubernetes: Subgraph, datadog: Option<Subgraph>, otel: Option<Subgraph>) returns (snap: Snapshot)
    ensures snap == SnapshotOf(kubernetes, datadog, otel)
  {
    var providers := [Provider(KUBERNETES, Finds(kubernetes))];
    if datadog.Some? {
      providers := providers + [Provider(DATADOG, Finds(datadog.value))];
    }
    if otel.Some? {
      providers := providers + [Provider(OTEL, Finds(otel.value))];
    }
    assert providers == Wired(kubernetes, datadog, otel);
    var r := new Registry(providers);
    r.WithCorrelators([ServiceCorrelator]);
    snap := r.DiscoverAll();
  }

  method Sweep(w: World) returns (snap: Snapshot)
    ensures snap == Topology(w)
  {
    var kubernetes := KP.Discover(w.cluster, w.excluded);
    var datadog := None;
    if w.datadog.Some? {
      var d := w.datadog.value;
      var sub := DP.Discover(d.creds, d.api, d.options);
      datadog := Some(sub);
    }
    snap := Merge(kubernetes, datadog, OtelFound(w));
  }

  function AssetsIn(d: Option<Subgraph>): seq<Asset> {
    if d.Some? then d.value.assets else []
  }

  function RelationsIn(d: Option<Subgraph>): seq<Relation> {
    if d.Some? then d.value.relations else []
  }

  lemma FlatOne<T, U>(x: T, row: T -> seq<U>)
    ensures Flat([x], row) == row(x)
  {
    assert [x][..0] == [];
    EmptyLeft(row(x));
  }

  lemma Selected<U>(name: string, d: Option<Subgraph>, row: Provider -> seq<U>)
    ensures Flat(if d.Some? then [Provider(name, Finds(d.value))] else [], row)
            == if d.Some? then row(Provider(name, Finds(d.value))) else []
  {
    if d.Some? {
      FlatOne(Provider(name, Finds(d.value)), row);
    }
  }

  /** What is read off the providers of a sweep, Kubernetes first. */
  lemma ProvidersFlat<U>(k: Subgraph, d: Option<Subgraph>, o: Option<Subgraph>, row: Provider -> seq<U>)
    requires o.Some? ==> row(Provider(OTEL, Finds(o.value))) == []
    ensures Flat(Wired(k, d, o), row)
            == row(Provider(KUBERNETES, Finds(k))) + if d.Some? then row(Provider(DATADOG, Finds(d.value))) else []
  {
    var one := [Provider(KUBERNETES, Finds(k))];
    var two := if d.Some? then [Provider(DATADOG, Finds(d.value))] else [];
    var three := if o.Some? then [Provider(OTEL, Finds(o.value))] else [];
    FlatOne(one[0], row);
    Selected(DATADOG, d, row);
    Selected(OTEL, o, row);
    FlatConcat(one, two, row);
    FlatConcat(one + two, three, row);
    EmptyRight(Flat(one + two, row));
  }

  lemma OneLinker(snap: Snapshot, linker: Linker)
    ensures Linked(snap, [linker]) == snap.(relations := snap.relations + Correlated(snap.assets))
  {
    assert [linker][..0] == [];
  }

  lemma SnapshotIs(k: Subgraph, d: Option<Subgraph>, o: Option<Subgraph>)
    requires o.Some? ==> o.value.assets == [] && o.value.relations == []
    ensures SnapshotOf(k, d, o).assets == k.assets + AssetsIn(d)
    ensures SnapshotOf(k, d, o).relations == k.relations + RelationsIn(d) + Correlated(k.assets + AssetsIn(d))
  {
    ProvidersFlat(k, d, o, AssetsFrom);
    ProvidersFlat(k, d, o, RelationsFrom);
    OneLinker(Merged(Wired(k, d, o)), ServiceCorrelator);
  }

  /** What is asked of Datadog's own relations. */
  ghost predicate OnlyDatadog(sub: Subgraph) {
    forall r | r in sub.relations ::
      && r.sourceProvider == DATADOG && r.kind in {"monitors", "targets", "based_on"}
      && (r.kind == "based_on" ==> BothEnds(sub.assets, r))
  }

  lemma WiredEnds(k: Subgraph, d: Option<Subgraph>, o: Option<Subgraph>, r: Relation)
    requires o.Some? ==> o.value.assets == [] && o.value.relations == []
    requires forall x | x in k.relations :: BothEnds(k.assets, x)
    requires d.Some? ==> OnlyDatadog(d.value)
    requires r in SnapshotOf(k, d, o).relations
    requires r.sourceProvider == KUBERNETES || r.kind == "describes" || r.kind == "based_on"
    ensures BothEnds(SnapshotOf(k, d, o).assets, r)
  {
    SnapshotIs(k, d, o);
    if r in k.relations {
      BothEndsMore(k.assets, AssetsIn(d), r);
    } else if r in RelationsIn(d) {
      assert "datadog"[0] != "kubernetes"[0];
      assert "describes"[0] != "monitors"[0] && "describes"[0] != "targets"[0] && "describes"[0] != "based_on"[0];
      BothEndsMore(AssetsIn(d), k.assets, r);
    } else {
      LinksAreGrounded(SnapshotOf(k, d, o).assets, r);
    }
  }

  lemma KubernetesEnds(c: K.Cluster, ex: set<string>)
    ensures forall r | r in K.Discovered(c, ex).relations :: BothEnds(K.Discovered(c, ex).assets, r)
  {
    E.NoDanglingEdges(c, ex);
  }

  lemma DatadogEnds(creds: Result<Option<DP.Credentials>>, api: DP.API, o: DP.Options)
    ensures OnlyDatadog(DP.Discovered(creds, api, o))
  {
    forall r | r in DP.Discovered(creds, api, o).relations
      ensures r.sourceProvider == DATADOG && r.kind in {"monitors", "targets", "based_on"}
      ensures r.kind == "based_on" ==> BothEnds(DP.Discovered(creds, api, o).assets, r)
    {
      D.SweepEndsKept(creds, api, o, r);
    }
  }

  lemma EdgeEnds(w: World, r: Relation)
    requires r in Topology(w).relations
    requires r.sourceProvider == KUBERNETES || r.kind == "describes" || r.kind == "based_on"
    ensures BothEnds(Topology(w).assets, r)
  {
    KubernetesEnds(w.cluster, w.excluded);
    if w.datadog.Some? {
      DatadogEnds(w.datadog.value.creds, w.datadog.value.api, w.datadog.value.options);
    }
    WiredEnds(K.Discovered(w.cluster, w.excluded), DatadogFound(w), OtelFound(w), r);
  }

  /**
   Whatever subset of the Kubernetes lists and Datadog requests failed: in the merged, correlated snapshot every
   Kubernetes edge, every `describes` edge and every `based_on` edge has both endpoints among the assets.
   */
  lemma NothingDangles(w: World)
    ensures forall r | r in Topology(w).relations
                       && (r.sourceProvider == KUBERNETES || r.kind == "describes" || r.kind == "based_on") ::
              BothEnds(Topology(w).assets, r)
  {
    forall r | r in Topology(w).relations
               && (r.sourceProvider == KUBERNETES || r.kind == "describes" || r.kind == "based_on")
      ensures BothEnds(Topology(w).assets, r)
    {
      EdgeEnds(w, r);
    }
  }

  predicate AllDatadog(assets: seq<Asset>) {
    forall a | a in assets :: a.provider == DATADOG
  }

  lemma SweptIsDatadog(api: DP.API, o: DP.Options)
    ensures AllDatadog(DP.SweptAssets(api, o))
  {
    var limit := DP.EffectiveLimit(o.pageLimit);
    assert AllDatadog(DP.Map(DP.Services(api, limit).items, DP.ServiceAsset));
    assert AllDatadog(DP.Map(DP.Monitors(api, limit).items, DP.MonitorAsset));
    assert AllDatadog(DP.Map(DP.Slos(api, limit).items, DP.SloAsset));
    assert AllDatadog(DP.Map(DP.MetricNames(api), DP.MetricAsset));
  }

  lemma DatadogAssets(creds: Result<Option<DP.Credentials>>, api: DP.API, o: DP.Options)
    ensures AllDatadog(DP.Discovered(creds, api, o).assets)
  {
    SweptIsDatadog(api, o);
  }

  /** No namespaced Kubernetes asset comes from an excluded namespace. */
  predicate NoneExcluded(assets: seq<Asset>, excluded: set<string>) {
    forall a | a in assets && a.provider == KUBERNETES && a.kind != "namespace" :: a.namespace !in excluded
  }

  lemma WiredExclusion(k: Subgraph, d: Option<Subgraph>, o: Option<Subgraph>, excluded: set<string>)
    requires o.Some? ==> o.value.assets == [] && o.value.relations == []
    requires NoneExcluded(k.assets, excluded) && (d.Some? ==> AllDatadog(d.value.assets))
    ensures NoneExcluded(SnapshotOf(k, d, o).assets, excluded)
  {
    SnapshotIs(k, d, o);
    assert "datadog"[0] != "kubernetes"[0];
  }

  lemma KubernetesExclusion(c: K.Cluster, excluded: set<string>)
    ensures NoneExcluded(K.Discovered(c, excluded).assets, excluded)
  {
    E.NothingExcluded(c, excluded);
  }

  /** No namespaced Kubernetes asset of the snapshot comes from an excluded namespace. */
  lemma NothingExcluded(w: World)
    ensures NoneExcluded(Topology(w).assets, w.excluded)
  {
    KubernetesExclusion(w.cluster, w.excluded);
    if w.datadog.Some? {
      DatadogAssets(w.datadog.value.creds, w.datadog.value.api, w.datadog.value.options);
    }
    WiredExclusion(K.Discovered(w.cluster, w.excluded), DatadogFound(w), OtelFound(w), w.excluded);
  }

  lemma KubernetesStatus(k: Subgraph, d: Option<Subgraph>, o: Option<Subgraph>)
    ensures KUBERNETES in SnapshotOf(k, d, o).syncStatus
    ensures SnapshotOf(k, d, o).syncStatus[KUBERNETES] == StatusFrom(Provider(KUBERNETES, Finds(k)))
  {
    var one := [Provider(KUBERNETES, Finds(k))];
    var two := if d.Some? then [Provider(DATADOG, Finds(d.value))] else [];
    var three := if o.Some? then [Provider(OTEL, Finds(o.value))] else [];
    assert KUBERNETES[0] == 'k' && DATADOG[0] == 'd' && OTEL[0] == 'o';
    StatusesConcat(one, two);
    StatusesConcat(one + two, three);
    MergedNames(two);
    MergedNames(three);
    assert one[..0] == [];
    LinkedKeeps(Merged(one + two + three), [ServiceCorrelator]);
  }

  lemma PartialInSnapshot(k: Subgraph, d: Option<Subgraph>, o: Option<Subgraph>, failed: bool)
    requires k.status.state == if failed then Partial else OK
    ensures KUBERNETES in SnapshotOf(k, d, o).syncStatus
    ensures SnapshotOf(k, d, o).syncStatus[KUBERNETES].state == if failed then Partial else OK
  {
    KubernetesStatus(k, d, o);
  }

  /** In the merged, correlated snapshot, the Kubernetes status is partial exactly when one of its lists failed. */
  lemma KubernetesPartialIff(w: World)
    ensures KUBERNETES in Topology(w).syncStatus
    ensures Topology(w).syncStatus[KUBERNETES].state == if E.SomeListFailed(w.cluster) then Partial else OK
  {
    E.PartialIff(w.cluster, w.excluded);
    PartialInSnapshot(K.Discovered(w.cluster, w.excluded), DatadogFound(w), OtelFound(w), E.SomeListFailed(w.cluster));
  }
}
