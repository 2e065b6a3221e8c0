/** The links of a whole sweep, read off the cluster and the answers of Datadog. */
module TopologyContract {
  import opened Wrappers
  import opened Discovery
  import opened Correlator
  import opened Registry
  import opened TopologySweep
  import KC = KubernetesContract
  import DC = DatadogContract

  // --- the services ---

  /** The service definitions read in the sweep: none without Datadog and its credentials. */
  function Definitions(w: World): seq<DP.ServiceDef> {
    if w.datadog.None? then []
    else
      var d := w.datadog.value;
      if d.creds.Err? || d.creds.value.None? || d.creds.value.value.apiKey == "" || d.creds.value.value.appKey == ""
      then [] else DP.Services(d.api, DP.EffectiveLimit(d.options.pageLimit)).items
  }

  /** The service a workload is to be linked to: the one it names, or else the one of its own name. */
  predicate Wants(o: K.Object, service: string) {
    && service != ""
    && (KC.NamesService(o, service) || (KC.NamesService(o, "") && service == o.meta.name))
  }

  /** A service that was read describes a workload that was listed, outside the excluded namespaces. */
  ghost predicate Described(w: World, r: Relation) {
    exists kind, o, d, service ::
      && KC.WorkloadPresent(w.cluster, w.excluded, kind, o) && Wants(o, service)
      && d in Definitions(w) && DC.Named(d, service)
      && r == Relation("service:" + service, "datadog", o.meta.uid, "kubernetes", "describes")
  }

  // --- the statuses ---

  lemma StatusesOf(k: Subgraph, d: Option<Subgraph>, o: Option<Subgraph>)
    ensures var st := SnapshotOf(k, d, o).syncStatus;
            && (forall n :: n in st <==> n == "kubernetes" || (n == "datadog" && d.Some?) || (n == "otel" && o.Some?))
            && Reported(Provider("kubernetes", Finds(k)), st["kubernetes"])
            && (d.Some? ==> Reported(Provider("datadog", Finds(d.value)), st["datadog"]))
            && (o.Some? ==> Reported(Provider("otel", Finds(o.value)), st["otel"]))
  {
    var ps := Wired(k, d, o);
    OneLinker(Merged(ps), ServiceCorrelator);
    MergedNames(ps);
    assert "datadog"[0] == 'd' && "otel"[0] == 'o' && "kubernetes"[0] == 'k';
    assert ps[0] == Provider("kubernetes", Finds(k));
    StatusExact(ps, 0);
    if d.Some? {
      assert ps[1] == Provider("datadog", Finds(d.value));
      StatusExact(ps, 1);
    }
    if o.Some? {
      assert ps[|ps| - 1] == Provider("otel", Finds(o.value));
      StatusExact(ps, |ps| - 1);
    }
  }

  /** Kubernetes always has a status, the other two when they are selected; OpenTelemetry needs an endpoint. */
  lemma StatusesExact(w: World)
    ensures var st := Topology(w).syncStatus;
            && (forall n :: n in st <==> n == "kubernetes" || (n == "datadog" && w.datadog.Some?)
                                         || (n == "otel" && w.otel.Some?))
            && (w.datadog.Some? ==>
                  Reported(Provider("datadog", Finds(DatadogDiscovered(w.datadog.value))), st["datadog"]))
            && (w.otel.Some? ==>
                  st["otel"] == ProviderStatus(if w.otel.value == "" then NotConfigured else OK, 0, ""))
  {
    StatusesOf(K.Discovered(w.cluster, w.excluded), DatadogFound(w), OtelFound(w));
  }

  // --- assets that links start from and lead to ---

  function AssetsOf(w: World): seq<Asset> {
    K.Discovered(w.cluster, w.excluded).assets + AssetsIn(DatadogFound(w))
  }

  lemma DatadogAssetsExact(w: World, a: Asset)
    requires IsService(a)
    ensures a in AssetsIn(DatadogFound(w)) <==> exists d :: d in Definitions(w) && DC.ServiceNode(a, d)
  {
    if w.datadog.Some? {
      var d := w.datadog.value;
      if Definitions(w) == [] && (d.creds.Err? || d.creds.value.None? || d.creds.value.value.apiKey == ""
                                  || d.creds.value.value.appKey == "") {
        DC.WithoutCredentials(d.creds, d.api, d.options);
      } else {
        DC.AssetsExact(d.creds.value.value, d.api, d.options, a);
        KindsDiffer(a);
      }
    }
  }

  lemma KindsDiffer(a: Asset)
    requires a.kind == "dd_service"
    ensures forall m :: !DC.MonitorNode(a, m)
    ensures forall s :: !DC.SloNode(a, s)
    ensures forall n :: !DC.MetricNode(a, n)
  {
    assert "dd_service"[3] != "dd_monitor"[3] && |"dd_service"| != |"dd_slo"| && "dd_service"[0] != "metric"[0];
  }

  /** The services among the assets are those that were read. */
  lemma ServicesExact(w: World, a: Asset)
    requires IsService(a)
    ensures a in AssetsOf(w) <==> exists d :: d in Definitions(w) && DC.ServiceNode(a, d)
  {
    DatadogAssetsExact(w, a);
    assert "datadog"[0] != "kubernetes"[0];
    if a in K.Discovered(w.cluster, w.excluded).assets {
      KC.AssetsExact(w.cluster, w.excluded, a);
    }
  }

  lemma DatadogIsNotKubernetes(w: World, a: Asset)
    requires a in AssetsIn(DatadogFound(w))
    ensures a.provider == "datadog"
  {
    var d := w.datadog.value;
    DatadogAssets(d.creds, d.api, d.options);
  }

  ghost predicate WorkloadAsset(w: World, a: Asset) {
    exists kind, o :: KC.WorkloadPresent(w.cluster, w.excluded, kind, o) && KC.Describes(a, o, K.WorkloadKind(kind))
  }

  lemma WorkloadKinds(kind: string)
    requires kind in {"Deployment", "StatefulSet", "DaemonSet", "CronJob"}
    ensures K.WorkloadKind(kind) in {"deployment", "statefulset", "daemonset", "cronjob"}
  {
  }

  /** The workloads among the assets are those listed. */
  lemma WorkloadsExact(w: World, a: Asset)
    requires IsWorkload(a)
    ensures a in AssetsOf(w) <==> WorkloadAsset(w, a)
  {
    assert "datadog"[0] != "kubernetes"[0];
    if a in AssetsIn(DatadogFound(w)) {
      DatadogIsNotKubernetes(w, a);
    }
    KC.AssetsExact(w.cluster, w.excluded, a);
    KC.KindNames();
    WorkloadIsNoOther(w, a);
    WorkloadIsListed(w, a);
  }

  lemma WorkloadIsNoOther(w: World, a: Asset)
    requires IsWorkload(a)
    ensures a.kind !in {"namespace", "configmap", "secret", "service", "ingress", "hpa", "poddisruptionbudget",
                        "networkpolicy"}
  {
    assert a.kind[0] == 'd' || a.kind[0] == 's' || a.kind[0] == 'c';
    assert "statefulset"[1] == 't' && "secret"[1] == 'e' && "service"[1] == 'e';
    assert "cronjob"[1] == 'r' && "configmap"[1] == 'o';
  }

  lemma WorkloadIsListed(w: World, a: Asset)
    ensures WorkloadAsset(w, a) <==>
            || KC.AssetIn(w.cluster.deployments, w.excluded, a, "deployment")
            || KC.AssetIn(w.cluster.statefulSets, w.excluded, a, "statefulset")
            || KC.AssetIn(w.cluster.daemonSets, w.excluded, a, "daemonset")
            || KC.AssetIn(w.cluster.cronJobs, w.excluded, a, "cronjob")
  {
    KC.KindNames();
    if KC.AssetIn(w.cluster.deployments, w.excluded, a, "deployment") {
      var o :| KC.Present(w.cluster.deployments, w.excluded, o) && KC.Describes(a, o, "deployment");
      assert KC.WorkloadPresent(w.cluster, w.excluded, "Deployment", o);
    }
    if KC.AssetIn(w.cluster.statefulSets, w.excluded, a, "statefulset") {
      var o :| KC.Present(w.cluster.statefulSets, w.excluded, o) && KC.Describes(a, o, "statefulset");
      assert KC.WorkloadPresent(w.cluster, w.excluded, "StatefulSet", o);
    }
    if KC.AssetIn(w.cluster.daemonSets, w.excluded, a, "daemonset") {
      var o :| KC.Present(w.cluster.daemonSets, w.excluded, o) && KC.Describes(a, o, "daemonset");
      assert KC.WorkloadPresent(w.cluster, w.excluded, "DaemonSet", o);
    }
    if KC.AssetIn(w.cluster.cronJobs, w.excluded, a, "cronjob") {
      var o :| KC.Present(w.cluster.cronJobs, w.excluded, o) && KC.Describes(a, o, "cronjob");
      assert KC.WorkloadPresent(w.cluster, w.excluded, "CronJob", o);
    }
  }

  // --- the links ---

  lemma {:induction false} LastOfName(assets: seq<Asset>, a: Asset) returns (j: nat)
    requires a in assets && IsService(a)
    ensures LastService(assets, j, a.name)
    decreases |assets|
  {
    var init, last := assets[..|assets| - 1], assets[|assets| - 1];
    if IsService(last) && last.name == a.name {
      j := |init|;
    } else {
      j := LastOfName(init, a);
      assert forall q | 0 <= q < |init| :: assets[q] == init[q];
    }
  }

  lemma SignalWanted(a: Asset, o: K.Object, kind: string)
    requires KC.Describes(a, o, kind) && Signal(a) != ""
    ensures Wants(o, Signal(a))
    ensures forall service | Wants(o, service) :: service == Signal(a)
  {
  }

  lemma LinkIsDescribed(w: World, r: Relation)
    requires Correlator.Declared(AssetsOf(w), r)
    ensures Described(w, r)
  {
    var assets := AssetsOf(w);
    var a :| a in assets && Links(assets, a, r);
    var j :| LastService(assets, j, Signal(a)) && r == Describes(assets[j].externalID, a.externalID);
    WorkloadsExact(w, a);
    var kind, o :| KC.WorkloadPresent(w.cluster, w.excluded, kind, o) && KC.Describes(a, o, K.WorkloadKind(kind));
    SignalWanted(a, o, K.WorkloadKind(kind));
    assert assets[j] in assets;
    ServicesExact(w, assets[j]);
    var d :| d in Definitions(w) && DC.ServiceNode(assets[j], d);
    assert DC.Named(d, Signal(a));
  }

  lemma AssetOf(w: World, kind: string, o: K.Object) returns (a: Asset)
    requires KC.WorkloadPresent(w.cluster, w.excluded, kind, o)
    ensures a in AssetsOf(w) && IsWorkload(a) && KC.Describes(a, o, K.WorkloadKind(kind))
  {
    a := K.AssetFor(K.WorkloadKind(kind), o);
    WorkloadKinds(kind);
    assert KC.Describes(a, o, K.WorkloadKind(kind));
    WorkloadsExact(w, a);
  }

  lemma ServiceOf(w: World, d: DP.ServiceDef, service: string) returns (j: nat)
    requires d in Definitions(w) && DC.Named(d, service)
    ensures LastService(AssetsOf(w), j, service) && AssetsOf(w)[j].externalID == "service:" + service
  {
    var svc := Asset("service:" + service, "datadog", "dd_service", service, "", map[], "");
    assert DC.ServiceNode(svc, d);
    ServicesExact(w, svc);
    j := LastOfName(AssetsOf(w), svc);
    ServicesExact(w, AssetsOf(w)[j]);
  }

  lemma DescribedIsLink(w: World, r: Relation)
    requires Described(w, r)
    ensures Correlator.Declared(AssetsOf(w), r)
  {
    var kind, o, d, service :|
      && KC.WorkloadPresent(w.cluster, w.excluded, kind, o) && Wants(o, service)
      && d in Definitions(w) && DC.Named(d, service)
      && r == Relation("service:" + service, "datadog", o.meta.uid, "kubernetes", "describes");
    var a := AssetOf(w, kind, o);
    var j := ServiceOf(w, d, service);
    LinkBetween(AssetsOf(w), a, o, K.WorkloadKind(kind), j, service, r);
  }

  lemma LinkBetween(assets: seq<Asset>, a: Asset, o: K.Object, kind: string, j: nat, service: string, r: Relation)
    requires a in assets && IsWorkload(a) && KC.Describes(a, o, kind) && Wants(o, service)
    requires LastService(assets, j, service) && assets[j].externalID == "service:" + service
    requires r == Relation("service:" + service, "datadog", o.meta.uid, "kubernetes", "describes")
    ensures Correlator.Declared(assets, r)
  {
    assert Signal(a) == service && r == Describes(assets[j].externalID, a.externalID);
    assert Links(assets, a, r);
  }

  lemma UIDsHaveNoArrow(w: World)
    requires forall kind, o | KC.WorkloadPresent(w.cluster, w.excluded, kind, o) :: '>' !in o.meta.uid
    ensures forall a | a in AssetsOf(w) && IsWorkload(a) :: '>' !in a.externalID
  {
    forall a | a in AssetsOf(w) && IsWorkload(a) ensures '>' !in a.externalID {
      WorkloadsExact(w, a);
      var kind, o :| KC.WorkloadPresent(w.cluster, w.excluded, kind, o) && KC.Describes(a, o, K.WorkloadKind(kind));
    }
  }

  /** What the correlator adds is exactly the relation between the services read and the workloads listed. */
  lemma LinksExact(w: World, r: Relation)
    requires forall kind, o | KC.WorkloadPresent(w.cluster, w.excluded, kind, o) :: '>' !in o.meta.uid
    ensures r in Correlated(AssetsOf(w)) <==> Described(w, r)
  {
    UIDsHaveNoArrow(w);
    CorrelateExact(AssetsOf(w), r);
    if Correlator.Declared(AssetsOf(w), r) {
      LinkIsDescribed(w, r);
    }
    if Described(w, r) {
      DescribedIsLink(w, r);
    }
  }

  /**
   The relations of a sweep are exactly those declared between the objects of the cluster, those that Datadog's own
   answers give, and the links between the two. Kubernetes UIDs contain no '>'.
   */
  lemma RelationsExact(w: World, r: Relation)
    requires KC.ProperCluster(w.cluster, w.excluded)
    requires forall kind, o | KC.WorkloadPresent(w.cluster, w.excluded, kind, o) :: '>' !in o.meta.uid
    ensures r in Topology(w).relations <==>
            || KC.Declared(w.cluster, w.excluded, r)
            || (w.datadog.Some? && r in DatadogDiscovered(w.datadog.value).relations)
            || Described(w, r)
  {
    SnapshotIs(K.Discovered(w.cluster, w.excluded), DatadogFound(w), OtelFound(w));
    KC.EdgesExact(w.cluster, w.excluded, r);
    LinksExact(w, r);
  }
}
