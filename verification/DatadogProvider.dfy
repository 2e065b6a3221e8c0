/**
 The Datadog sweep: services, monitors, SLOs and metrics read page by page into a builder
 (src/internal/discovery/datadog/provider.go and builder.go).
 */
module DatadogProvider {
  import opened Wrappers
  import opened Text
  import opened Discovery
  import opened Paging

  const SERVICE_PAGE := 100
  const MONITOR_PAGE := 1000
  const SLO_PAGE := 1000
  const METRICS_CAP := 5000

  /** A service definition in the two schema versions the provider reads. */
  datatype ServiceDef = ServiceDef(id: string, v22: Option<string>, v21: Option<string>)
  datatype Monitor = Monitor(id: int, name: string, tags: seq<string>)
  datatype Slo = Slo(id: string, name: string, tags: seq<string>, monitorIDs: seq<int>)

  datatype Credentials = Credentials(apiKey: string, appKey: string)

  /** What Datadog answers during one sweep. */
  datatype API = API(services: nat -> Result<seq<ServiceDef>>, monitors: nat -> Result<seq<Monitor>>,
                     slos: nat -> Result<seq<Slo>>, metrics: Result<seq<string>>)

  datatype Options = Options(includeMetrics: bool, pageLimit: int)

  // --- values ---

  function ServiceName(d: ServiceDef): string {
    if d.v22.Some? && d.v22.value != "" then d.v22.value
    else if d.v21.Some? && d.v21.value != "" then d.v21.value
    else d.id
  }

  /** serviceTags: the values of the `service:` tags that have one. */
  function ServiceTags(tags: seq<string>): seq<string> {
    if tags == [] then []
    else
      var t := tags[|tags| - 1];
      ServiceTags(tags[..|tags| - 1]) + if "service:" < t then [t[8..]] else []
  }

  function TagKey(t: string): string { Before(t, ':') }

  function TagValue(t: string): string {
    if |TagKey(t)| < |t| then t[|TagKey(t)| + 1..] else ""
  }

  /** tagSliceToMap: cut at the first colon; the last tag of a key wins. */
  function TagMap(tags: seq<string>): map<string, string> {
    if tags == [] then map[]
    else
      var t := tags[|tags| - 1];
      TagMap(tags[..|tags| - 1])[TagKey(t) := TagValue(t)]
  }

  function MonitorExt(id: int): string { "monitor:" + Decimal(id) }

  function SloExt(id: string): string { "slo:" + id }

  function ServiceAsset(d: ServiceDef): Asset {
    Asset("service:" + ServiceName(d), DATADOG, "dd_service", ServiceName(d), "", map[], "")
  }

  function MonitorAsset(m: Monitor): Asset {
    Asset(MonitorExt(m.id), DATADOG, "dd_monitor", m.name, "", TagMap(m.tags), "")
  }

  function SloAsset(s: Slo): Asset {
    Asset(SloExt(s.id), DATADOG, "dd_slo", s.name, "", TagMap(s.tags), "")
  }

  function MetricAsset(n: string): Asset {
    Asset("metric:" + n, DATADOG, "metric", n, "", map[], "")
  }

  function Map<T>(xs: seq<T>, f: T -> Asset): (r: seq<Asset>)
    ensures |r| == |xs| && forall i | 0 <= i < |xs| :: r[i] == f(xs[i])
  {
    if xs == [] then [] else Map(xs[..|xs| - 1], f) + [f(xs[|xs| - 1])]
  }

  function Rel(source: string, target: string, kind: string): Relation {
    Relation(source, DATADOG, target, DATADOG, kind)
  }

  function ServiceCell(ext: string, kind: string): string -> seq<Relation> {
    (svc: string) => [Rel(ext, "service:" + svc, kind)]
  }

  function MonitorRow(): Monitor -> seq<Relation> {
    (m: Monitor) => Flat(ServiceTags(m.tags), ServiceCell(MonitorExt(m.id), "monitors"))
  }

  function BasedOnCell(ext: string, known: set<string>): int -> seq<Relation> {
    (id: int) => if MonitorExt(id) in known then [Rel(ext, MonitorExt(id), "based_on")] else []
  }

  function SloRow(known: set<string>): Slo -> seq<Relation> {
    (s: Slo) =>
      Flat(ServiceTags(s.tags), ServiceCell(SloExt(s.id), "targets"))
      + Flat(s.monitorIDs, BasedOnCell(SloExt(s.id), known))
  }

  function Known(ms: seq<Monitor>): set<string> {
    set m | m in ms :: MonitorExt(m.id)
  }

  function FailureOf(resource: string, failure: Option<string>): seq<string> {
    if failure.Some? then [resource + ": " + failure.value] else []
  }

  function MetricNames(api: API): seq<string> {
    match api.metrics
    case Err(_) => []
    case Ok(names) => if |names| > METRICS_CAP then names[..METRICS_CAP] else names
  }

  function MetricErrors(api: API): seq<string> {
    match api.metrics
    case Err(e) => ["metrics: " + e]
    case Ok(names) =>
      if |names| > METRICS_CAP
      then ["metrics: " + Decimal(|names|) + " active, capped at " + Decimal(METRICS_CAP)]
      else []
  }

  // --- the whole sweep ---

  function EffectiveLimit(limit: int): nat {
    if limit <= 0 then 50 else limit
  }

  function Services(api: API, limit: nat): Fetched<ServiceDef> { Fetch(api.services, SERVICE_PAGE, limit, 0) }

  function Monitors(api: API, limit: nat): Fetched<Monitor> { Fetch(api.monitors, MONITOR_PAGE, limit, 0) }

  function Slos(api: API, limit: nat): Fetched<Slo> { Fetch(api.slos, SLO_PAGE, limit, 0) }

  function SweptAssets(api: API, o: Options): seq<Asset> {
    var limit := EffectiveLimit(o.pageLimit);
    Map(Services(api, limit).items, ServiceAsset) + Map(Monitors(api, limit).items, MonitorAsset)
    + Map(Slos(api, limit).items, SloAsset) + if o.includeMetrics then Map(MetricNames(api), MetricAsset) else []
  }

  function SweptRelations(api: API, o: Options): seq<Relation> {
    var limit := EffectiveLimit(o.pageLimit);
    var ms := Monitors(api, limit).items;
    Flat(ms, MonitorRow()) + Flat(Slos(api, limit).items, SloRow(Known(ms)))
  }

  function SweptErrors(api: API, o: Options): seq<string> {
    var limit := EffectiveLimit(o.pageLimit);
    FailureOf("services", Services(api, limit).failure) + FailureOf("monitors", Monitors(api, limit).failure)
    + FailureOf("slos", Slos(api, limit).failure) + if o.includeMetrics then MetricErrors(api) else []
  }

  predicate Connected(creds: Option<Credentials>) {
    creds.Some? && creds.value.apiKey != "" && creds.value.appKey != ""
  }

  function Discovered(creds: Result<Option<Credentials>>, api: API, o: Options): Subgraph {
    match creds
    case Err(e) => Subgraph([], [], ProviderStatus(Failed, 0, e))
    case Ok(c) =>
      if !Connected(c) then Subgraph([], [], ProviderStatus(NotConfigured, 0, ""))
      else Subgraph(SweptAssets(api, o), SweptRelations(api, o), SweepStatus(SweptErrors(api, o)))
  }

  // --- the loops ---

  method ListServiceTags(tags: seq<string>) returns (out: seq<string>)
    ensures out == ServiceTags(tags)
  {
    out := [];
    for i := 0 to |tags|
      invariant out == ServiceTags(tags[..i])
    {
      assert tags[..i + 1][..i] == tags[..i];
      if "service:" <= tags[i] && tags[i][8..] != "" {
        out := out + [tags[i][8..]];
      }
    }
    assert tags[..|tags|] == tags;
  }

  method TagSliceToMap(tags: seq<string>) returns (out: map<string, string>)
    ensures out == TagMap(tags)
  {
    out := map[];
    for i := 0 to |tags|
      invariant out == TagMap(tags[..i])
    {
      assert tags[..i + 1][..i] == tags[..i];
      out := out[TagKey(tags[i]) := TagValue(tags[i])];
    }
    assert tags[..|tags|] == tags;
  }

  lemma MapSnoc<T>(xs: seq<T>, i: nat, f: T -> Asset)
    requires i < |xs|
    ensures Map(xs[..i + 1], f) == Map(xs[..i], f) + [f(xs[i])]
  {
    assert xs[..i + 1][..i] == xs[..i];
  }

  lemma MapConcat<T>(xs: seq<T>, ys: seq<T>, f: T -> Asset)
    ensures Map(xs + ys, f) == Map(xs, f) + Map(ys, f)
  {
  }

  /** The services whose metrics are queried: every one, when metrics are included. */
  function Queried(ds: seq<ServiceDef>, includeMetrics: bool): seq<string> {
    if ds == [] then []
    else Queried(ds[..|ds| - 1], includeMetrics) + if includeMetrics then [ServiceName(ds[|ds| - 1])] else []
  }

  lemma {:induction false} QueriedConcat(xs: seq<ServiceDef>, ys: seq<ServiceDef>, includeMetrics: bool)
    ensures Queried(xs + ys, includeMetrics) == Queried(xs, includeMetrics) + Queried(ys, includeMetrics)
  {
    if ys == [] {
      assert xs + ys == xs;
    } else {
      var n := |ys| - 1;
      QueriedConcat(xs, ys[..n], includeMetrics);
      assert (xs + ys)[..|xs + ys| - 1] == xs + ys[..n];
    }
  }

  /** One page of services, each queried for its metrics when they are included. */
  method ServicesOn(data: seq<ServiceDef>, includeMetrics: bool) returns (listed: seq<Asset>, queried: seq<string>)
    ensures listed == Map(data, ServiceAsset) && queried == Queried(data, includeMetrics)
  {
    listed, queried := [], [];
    for i := 0 to |data|
      invariant listed == Map(data[..i], ServiceAsset) && queried == Queried(data[..i], includeMetrics)
    {
      MapSnoc(data, i, ServiceAsset);
      assert data[..i + 1][..i] == data[..i];
      var name := ServiceName(data[i]);
      if includeMetrics {
        queried := queried + [name];
      }
      listed := listed + [Asset("service:" + name, DATADOG, "dd_service", name, "", map[], "")];
    }
    assert data[..|data|] == data;
  }

  method ServiceEdges(ext: string, tags: seq<string>, kind: string) returns (edges: seq<Relation>)
    ensures edges == Flat(ServiceTags(tags), ServiceCell(ext, kind))
  {
    var services := ListServiceTags(tags);
    edges := [];
    for j := 0 to |services|
      invariant edges == Flat(services[..j], ServiceCell(ext, kind))
    {
      FlatSnoc(services, j, ServiceCell(ext, kind));
      edges := edges + [Rel(ext, "service:" + services[j], kind)];
    }
    assert services[..|services|] == services;
  }

  lemma KnownSnoc(ms: seq<Monitor>, i: nat)
    requires i < |ms|
    ensures Known(ms[..i + 1]) == Known(ms[..i]) + {MonitorExt(ms[i].id)}
  {
    assert ms[..i + 1] == ms[..i] + [ms[i]];
    KnownConcat(ms[..i], [ms[i]]);
  }

  /** One page of monitors. */
  method MonitorsOn(data: seq<Monitor>) returns (listed: seq<Asset>, edges: seq<Relation>, exist: set<string>)
    ensures listed == Map(data, MonitorAsset) && edges == Flat(data, MonitorRow()) && exist == Known(data)
  {
    listed, edges, exist := [], [], {};
    for i := 0 to |data|
      invariant listed == Map(data[..i], MonitorAsset) && edges == Flat(data[..i], MonitorRow())
      invariant exist == Known(data[..i])
    {
      var m := data[i];
      var ext := MonitorExt(m.id);
      MapSnoc(data, i, MonitorAsset);
      FlatSnoc(data, i, MonitorRow());
      KnownSnoc(data, i);
      var tags := TagSliceToMap(m.tags);
      var more := ServiceEdges(ext, m.tags, "monitors");
      exist := exist + {ext};
      listed := listed + [Asset(ext, DATADOG, "dd_monitor", m.name, "", tags, "")];
      edges := edges + more;
    }
    assert data[..|data|] == data;
  }

  lemma KnownConcat(xs: seq<Monitor>, ys: seq<Monitor>)
    ensures Known(xs + ys) == Known(xs) + Known(ys)
    ensures |ys| == 1 ==> Known(ys) == {MonitorExt(ys[0].id)}
  {
    forall e | e in Known(xs) + Known(ys) ensures e in Known(xs + ys) {
      if e in Known(xs) {
        var m :| m in xs && MonitorExt(m.id) == e;
        assert m in xs + ys;
      } else {
        var m :| m in ys && MonitorExt(m.id) == e;
        assert m in xs + ys;
      }
    }
    if |ys| == 1 {
      assert ys[0] in ys;
    }
  }

  method BasedOnEdges(ext: string, ids: seq<int>, known: set<string>) returns (edges: seq<Relation>)
    ensures edges == Flat(ids, BasedOnCell(ext, known))
  {
    edges := [];
    for j := 0 to |ids|
      invariant edges == Flat(ids[..j], BasedOnCell(ext, known))
    {
      FlatSnoc(ids, j, BasedOnCell(ext, known));
      if MonitorExt(ids[j]) in known {
        edges := edges + [Rel(ext, MonitorExt(ids[j]), "based_on")];
      }
    }
    assert ids[..|ids|] == ids;
  }

  /** One page of SLOs. */
  method SlosOn(data: seq<Slo>, known: set<string>) returns (listed: seq<Asset>, edges: seq<Relation>)
    ensures listed == Map(data, SloAsset) && edges == Flat(data, SloRow(known))
  {
    listed, edges := [], [];
    for i := 0 to |data|
      invariant listed == Map(data[..i], SloAsset) && edges == Flat(data[..i], SloRow(known))
    {
      var s := data[i];
      MapSnoc(data, i, SloAsset);
      FlatSnoc(data, i, SloRow(known));
      var tags := TagSliceToMap(s.tags);
      var targets := ServiceEdges(SloExt(s.id), s.tags, "targets");
      var monitors := BasedOnEdges(SloExt(s.id), s.monitorIDs, known);
      listed := listed + [Asset(SloExt(s.id), DATADOG, "dd_slo", s.name, "", tags, "")];
      edges := edges + (targets + monitors);
    }
    assert data[..|data|] == data;
  }

  /** The services, page after page. */
  method ReadServices(api: API, limit: nat, includeMetrics: bool)
      returns (listed: seq<Asset>, queried: seq<string>, requests: nat, failure: Option<string>)
    ensures var got := Services(api, limit);
            && listed == Map(got.items, ServiceAsset) && queried == Queried(got.items, includeMetrics)
            && requests == got.requests && failure == got.failure
  {
    ghost var got: seq<ServiceDef> := [];
    listed, queried, requests, failure := [], [], 0, None;
    while requests < limit
      invariant requests <= limit && failure == None
      invariant listed == Map(got, ServiceAsset) && queried == Queried(got, includeMetrics)
      invariant Services(api, limit) == Joined(got, Fetch(api.services, SERVICE_PAGE, limit, requests), requests)
    {
      var page := requests;
      requests := requests + 1;
      match api.services(page) {
        case Err(e) =>
          AfterFailure(api.services, SERVICE_PAGE, limit, page, got, e);
          failure := Some(e);
          return;
        case Ok(data) =>
          var moreListed, moreQueried := ServicesOn(data, includeMetrics);
          MapConcat(got, data, ServiceAsset);
          QueriedConcat(got, data, includeMetrics);
          AfterPage(api.services, SERVICE_PAGE, limit, page, got, data);
          listed, queried := listed + moreListed, queried + moreQueried;
          got := got + data;
          if |data| < SERVICE_PAGE {
            return;
          }
      }
    }
    AfterLimit(api.services, SERVICE_PAGE, limit, requests, got);
  }

  /** The monitors, page after page. */
  method ReadMonitors(api: API, limit: nat)
      returns (listed: seq<Asset>, edges: seq<Relation>, exist: set<string>, requests: nat, failure: Option<string>)
    ensures var got := Monitors(api, limit);
            && listed == Map(got.items, MonitorAsset)
            && edges == Flat(got.items, MonitorRow()) && exist == Known(got.items)
            && requests == got.requests && failure == got.failure
  {
    ghost var got: seq<Monitor> := [];
    listed, edges, exist, requests, failure := [], [], {}, 0, None;
    while requests < limit
      invariant requests <= limit && failure == None
      invariant listed == Map(got, MonitorAsset) && edges == Flat(got, MonitorRow()) && exist == Known(got)
      invariant Monitors(api, limit) == Joined(got, Fetch(api.monitors, MONITOR_PAGE, limit, requests), requests)
    {
      var page := requests;
      requests := requests + 1;
      match api.monitors(page) {
        case Err(e) =>
          AfterFailure(api.monitors, MONITOR_PAGE, limit, page, got, e);
          failure := Some(e);
          return;
        case Ok(data) =>
          var moreListed, moreEdges, moreExist := MonitorsOn(data);
          MapConcat(got, data, MonitorAsset);
          FlatConcat(got, data, MonitorRow());
          KnownConcat(got, data);
          AfterPage(api.monitors, MONITOR_PAGE, limit, page, got, data);
          listed, edges, exist := listed + moreListed, edges + moreEdges, exist + moreExist;
          got := got + data;
          if |data| < MONITOR_PAGE {
            return;
          }
      }
    }
    AfterLimit(api.monitors, MONITOR_PAGE, limit, requests, got);
  }

  /** The SLOs, page after page. */
  method ReadSlos(api: API, limit: nat, known: set<string>)
      returns (listed: seq<Asset>, edges: seq<Relation>, requests: nat, failure: Option<string>)
    ensures var got := Slos(api, limit);
            && listed == Map(got.items, SloAsset) && edges == Flat(got.items, SloRow(known))
            && requests == got.requests && failure == got.failure
  {
    ghost var got: seq<Slo> := [];
    listed, edges, requests, failure := [], [], 0, None;
    while requests < limit
      invariant requests <= limit && failure == None
      invariant listed == Map(got, SloAsset) && edges == Flat(got, SloRow(known))
      invariant Slos(api, limit) == Joined(got, Fetch(api.slos, SLO_PAGE, limit, requests), requests)
    {
      var page := requests;
      requests := requests + 1;
      match api.slos(page) {
        case Err(e) =>
          AfterFailure(api.slos, SLO_PAGE, limit, page, got, e);
          failure := Some(e);
          return;
        case Ok(data) =>
          var moreListed, moreEdges := SlosOn(data, known);
          MapConcat(got, data, SloAsset);
          FlatConcat(got, data, SloRow(known));
          AfterPage(api.slos, SLO_PAGE, limit, page, got, data);
          listed, edges := listed + moreListed, edges + moreEdges;
          got := got + data;
          if |data| < SLO_PAGE {
            return;
          }
      }
    }
    AfterLimit(api.slos, SLO_PAGE, limit, requests, got);
  }

  class Builder {
    var assets: seq<Asset>
    var relations: seq<Relation>
    var monitorExists: set<string>
    var errors: seq<string>

    constructor ()
      ensures assets == [] && relations == [] && monitorExists == {} && errors == []
    {
      assets, relations, monitorExists, errors := [], [], {}, [];
    }

    method Fail(resource: string, failure: Option<string>)
      modifies this`errors
      ensures errors == old(errors) + FailureOf(resource, failure)
    {
      if failure.Some? {
        errors := errors + [resource + ": " + failure.value];
      } else {
        EmptyRight(errors);
      }
    }

    method DiscoverServices(api: API, limit: nat, includeMetrics: bool)
        returns (requests: nat, queried: seq<string>)
      modifies this`assets, this`errors
      ensures var got := Services(api, limit);
              && assets == old(assets) + Map(got.items, ServiceAsset)
              && errors == old(errors) + FailureOf("services", got.failure)
              && requests == got.requests && queried == Queried(got.items, includeMetrics)
    {
      var listed, names, count, failure := ReadServices(api, limit, includeMetrics);
      assets, requests, queried := assets + listed, count, names;
      Fail("services", failure);
    }

    method DiscoverMonitors(api: API, limit: nat) returns (requests: nat)
      requires monitorExists == {}
      modifies this`assets, this`relations, this`monitorExists, this`errors
      ensures var got := Monitors(api, limit);
              && assets == old(assets) + Map(got.items, MonitorAsset)
              && relations == old(relations) + Flat(got.items, MonitorRow())
              && monitorExists == Known(got.items)
              && errors == old(errors) + FailureOf("monitors", got.failure)
              && requests == got.requests
    {
      var listed, edges, exist, count, failure := ReadMonitors(api, limit);
      assets, relations, monitorExists, requests := assets + listed, relations + edges, exist, count;
      Fail("monitors", failure);
    }

    method DiscoverSLOs(api: API, limit: nat) returns (requests: nat)
      modifies this`assets, this`relations, this`errors
      ensures var got := Slos(api, limit);
              && assets == old(assets) + Map(got.items, SloAsset)
              && relations == old(relations) + Flat(got.items, SloRow(monitorExists))
              && errors == old(errors) + FailureOf("slos", got.failure)
              && requests == got.requests
    {
      var listed, edges, count, failure := ReadSlos(api, limit, monitorExists);
      assets, relations, requests := assets + listed, relations + edges, count;
      Fail("slos", failure);
    }

    method AddMetrics(names: seq<string>)
      modifies this`assets
      ensures assets == old(assets) + Map(names, MetricAsset)
    {
      for i := 0 to |names|
        invariant assets == old(assets) + Map(names[..i], MetricAsset)
      {
        MapSnoc(names, i, MetricAsset);
        assets := assets + [Asset("metric:" + names[i], DATADOG, "metric", names[i], "", map[], "")];
      }
      assert names[..|names|] == names;
    }

    method DiscoverMetrics(api: API)
      modifies this`assets, this`errors
      ensures assets == old(assets) + Map(MetricNames(api), MetricAsset)
      ensures errors == old(errors) + MetricErrors(api)
    {
      if api.metrics.Err? {
        errors := errors + ["metrics: " + api.metrics.error];
        EmptyRight(assets);
        return;
      }
      var names := api.metrics.value;
      if |names| > METRICS_CAP {
        errors := errors + ["metrics: " + Decimal(|names|) + " active, capped at " + Decimal(METRICS_CAP)];
        names := names[..METRICS_CAP];
      } else {
        EmptyRight(errors);
      }
      AddMetrics(names);
    }

    method SweepLists(api: API, limit: nat, includeMetrics: bool)
      requires assets == [] && relations == [] && monitorExists == {} && errors == []
      modifies this
      ensures var ms := Monitors(api, limit).items;
              && assets == Map(Services(api, limit).items, ServiceAsset) + Map(ms, MonitorAsset)
                           + Map(Slos(api, limit).items, SloAsset)
              && relations == Flat(ms, MonitorRow()) + Flat(Slos(api, limit).items, SloRow(Known(ms)))
      ensures errors == FailureOf("services", Services(api, limit).failure)
                        + FailureOf("monitors", Monitors(api, limit).failure)
                        + FailureOf("slos", Slos(api, limit).failure)
    {
      EmptyLeft(Map(Services(api, limit).items, ServiceAsset));
      EmptyLeft(Flat(Monitors(api, limit).items, MonitorRow()));
      EmptyLeft(FailureOf("services", Services(api, limit).failure));
      var _, _ := DiscoverServices(api, limit, includeMetrics);
      var _ := DiscoverMonitors(api, limit);
      var _ := DiscoverSLOs(api, limit);
    }

    method Sweep(api: API, o: Options)
      requires assets == [] && relations == [] && monitorExists == {} && errors == []
      modifies this
      ensures assets == SweptAssets(api, o) && relations == SweptRelations(api, o) && errors == SweptErrors(api, o)
    {
      SweepLists(api, EffectiveLimit(o.pageLimit), o.includeMetrics);
      if o.includeMetrics {
        DiscoverMetrics(api);
      } else {
        EmptyRight(assets);
        EmptyRight(errors);
      }
    }
  }

  /** Discover. */
  method Discover(creds: Result<Option<Credentials>>, api: API, o: Options) returns (g: Subgraph)
    ensures g == Discovered(creds, api, o)
  {
    if creds.Err? {
      return Subgraph([], [], ProviderStatus(Failed, 0, creds.error));
    }
    if !Connected(creds.value) {
      return Subgraph([], [], ProviderStatus(NotConfigured, 0, ""));
    }
    var b := new Builder();
    b.Sweep(api, o);
    g := Subgraph(b.assets, b.relations, SweepStatus(b.errors));
  }
}
