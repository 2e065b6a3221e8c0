/**
 What a Datadog sweep finds, read off the answers of the API
 (src/internal/discovery/datadog/provider.go and builder.go).
 */
module DatadogContract {
  import opened Wrappers
  import opened Text
  import opened Discovery
  import opened Paging
  import opened DatadogProvider
  import opened DatadogProperties

  // --- how far each list is read ---

  /**
   Full pages in order, then whatever stopped the reading: the page limit, a page that failed and is reported, or a page
   that was not full and is kept.
   */
  ghost predicate ReadAs<T>(api: nat -> Result<seq<T>>, size: nat, limit: int, got: Fetched<T>) {
    exists n: nat :: n <= limit && AllFull(api, size, n) && StopsAt(api, size, limit, n, got)
  }

  ghost predicate StopsAt<T>(api: nat -> Result<seq<T>>, size: nat, limit: int, n: nat, got: Fetched<T>)
    requires n <= limit
  {
    if n == limit then got == Fetched(Read(api, n), n, None)
    else if api(n).Err? then got == Fetched(Read(api, n), n + 1, Some(api(n).error))
    else |api(n).value| < size && got == Fetched(Read(api, n) + api(n).value, n + 1, None)
  }

  lemma {:induction false} FetchStops<T>(api: nat -> Result<seq<T>>, size: nat, limit: nat, n: nat)
    requires n <= limit && AllFull(api, size, n)
    ensures ReadAs(api, size, limit, Fetch(api, size, limit, 0))
    decreases limit - n
  {
    AfterFullPages(api, size, limit, n);
    var got := Fetch(api, size, limit, 0);
    if n == limit {
      AfterLimit(api, size, limit, n, Read(api, n));
      assert StopsAt(api, size, limit, n, got);
    } else if api(n).Err? {
      AfterFailure(api, size, limit, n, Read(api, n), api(n).error);
      assert StopsAt(api, size, limit, n, got);
    } else if |api(n).value| < size {
      AfterPage(api, size, limit, n, Read(api, n), api(n).value);
      assert StopsAt(api, size, limit, n, got);
    } else {
      FetchStops(api, size, limit, n + 1);
    }
  }

  /** Services come a hundred to a page, monitors and SLOs a thousand; fifty pages are read when no limit is set. */
  lemma ListsReadAs(api: API, o: Options)
    ensures var limit := if o.pageLimit <= 0 then 50 else o.pageLimit;
            && ReadAs(api.services, 100, limit, Services(api, EffectiveLimit(o.pageLimit)))
            && ReadAs(api.monitors, 1000, limit, Monitors(api, EffectiveLimit(o.pageLimit)))
            && ReadAs(api.slos, 1000, limit, Slos(api, EffectiveLimit(o.pageLimit)))
  {
    var limit := EffectiveLimit(o.pageLimit);
    FetchStops(api.services, 100, limit, 0);
    FetchStops(api.monitors, 1000, limit, 0);
    FetchStops(api.slos, 1000, limit, 0);
  }

  // --- the assets ---

  /** The name of a service: the first that is not empty of the two schemas', or else its id. */
  predicate Named(d: ServiceDef, name: string) {
    if d.v22.Some? && d.v22.value != "" then name == d.v22.value
    else if d.v21.Some? && d.v21.value != "" then name == d.v21.value
    else name == d.id
  }

  predicate Node(a: Asset, id: string, kind: string, name: string) {
    a.externalID == id && a.provider == "datadog" && a.kind == kind && a.name == name && a.namespace == ""
    && a.ddService == ""
  }

  predicate ServiceNode(a: Asset, d: ServiceDef) {
    Named(d, a.name) && Node(a, "service:" + a.name, "dd_service", a.name) && a.tags == map[]
  }

  predicate MonitorNode(a: Asset, m: Monitor) {
    Node(a, "monitor:" + Decimal(m.id), "dd_monitor", m.name) && a.tags == TagMap(m.tags)
  }

  predicate SloNode(a: Asset, s: Slo) {
    Node(a, "slo:" + s.id, "dd_slo", s.name) && a.tags == TagMap(s.tags)
  }

  predicate MetricNode(a: Asset, n: string) {
    Node(a, "metric:" + n, "metric", n) && a.tags == map[]
  }

  lemma MapExact<T>(xs: seq<T>, f: T -> Asset, a: Asset, made: T -> bool)
    requires forall x | x in xs :: f(x) == a <==> made(x)
    ensures a in Map(xs, f) <==> exists x :: x in xs && made(x)
  {
    if a in Map(xs, f) {
      var i :| 0 <= i < |xs| && Map(xs, f)[i] == a;
      assert xs[i] in xs && made(xs[i]);
    }
    if x :| x in xs && made(x) {
      MapHas(xs, f, x);
    }
  }

  lemma ServicesExact(ds: seq<ServiceDef>, a: Asset)
    ensures a in Map(ds, ServiceAsset) <==> exists d :: d in ds && ServiceNode(a, d)
  {
    MapExact(ds, ServiceAsset, a, d => ServiceNode(a, d));
  }

  lemma MonitorsExact(ms: seq<Monitor>, a: Asset)
    ensures a in Map(ms, MonitorAsset) <==> exists m :: m in ms && MonitorNode(a, m)
  {
    MapExact(ms, MonitorAsset, a, m => MonitorNode(a, m));
  }

  lemma SlosExact(ss: seq<Slo>, a: Asset)
    ensures a in Map(ss, SloAsset) <==> exists s :: s in ss && SloNode(a, s)
  {
    MapExact(ss, SloAsset, a, s => SloNode(a, s));
  }

  lemma MetricsExact(names: seq<string>, a: Asset)
    ensures a in Map(names, MetricAsset) <==> exists n :: n in names && MetricNode(a, n)
  {
    MapExact(names, MetricAsset, a, n => MetricNode(a, n));
  }

  /** Among the first five thousand active metrics. */
  predicate AmongMetrics(api: API, n: string) {
    api.metrics.Ok? && exists i :: 0 <= i < |api.metrics.value| && i < 5000 && api.metrics.value[i] == n
  }

  lemma MetricNamesExact(api: API, n: string)
    ensures n in MetricNames(api) <==> AmongMetrics(api, n)
  {
    if n in MetricNames(api) {
      var i :| 0 <= i < |MetricNames(api)| && MetricNames(api)[i] == n;
      assert api.metrics.value[i] == n;
    }
    if AmongMetrics(api, n) {
      var i :| 0 <= i < |api.metrics.value| && i < 5000 && api.metrics.value[i] == n;
      assert MetricNames(api)[i] == n;
    }
  }

  /** With credentials, the assets are exactly what was read, and the metrics when they are included. */
  lemma AssetsExact(creds: Credentials, api: API, o: Options, a: Asset)
    requires creds.apiKey != "" && creds.appKey != ""
    ensures var limit := EffectiveLimit(o.pageLimit);
            a in Discovered(Ok(Some(creds)), api, o).assets <==>
            || (exists d :: d in Services(api, limit).items && ServiceNode(a, d))
            || (exists m :: m in Monitors(api, limit).items && MonitorNode(a, m))
            || (exists s :: s in Slos(api, limit).items && SloNode(a, s))
            || (o.includeMetrics && exists n :: AmongMetrics(api, n) && MetricNode(a, n))
  {
    var limit := EffectiveLimit(o.pageLimit);
    ServicesExact(Services(api, limit).items, a);
    MonitorsExact(Monitors(api, limit).items, a);
    SlosExact(Slos(api, limit).items, a);
    MetricsExact(MetricNames(api), a);
    if o.includeMetrics {
      forall n ensures n in MetricNames(api) <==> AmongMetrics(api, n) {
        MetricNamesExact(api, n);
      }
    }
  }

  /** Everything read is one asset. */
  lemma AssetsNumber(creds: Credentials, api: API, o: Options)
    requires creds.apiKey != "" && creds.appKey != ""
    ensures var limit := EffectiveLimit(o.pageLimit);
            var metrics := if o.includeMetrics && api.metrics.Ok? then |api.metrics.value| else 0;
            |Discovered(Ok(Some(creds)), api, o).assets|
            == |Services(api, limit).items| + |Monitors(api, limit).items| + |Slos(api, limit).items|
               + if metrics > 5000 then 5000 else metrics
  {
  }

  // --- the tags of an asset ---

  /** A tag is cut at its first colon; without one it is a key with an empty value. */
  lemma TagParts(t: string)
    ensures ':' !in TagKey(t)
    ensures if ':' in t then t == TagKey(t) + ":" + TagValue(t) else t == TagKey(t) && TagValue(t) == ""
  {
    CutAtFirst(t);
  }

  lemma {:induction false} CutAtFirst(t: string)
    ensures ':' !in TagKey(t) && TagKey(t) <= t
    ensures if ':' in t then |TagKey(t)| < |t| && t[|TagKey(t)|] == ':' else TagKey(t) == t
  {
    if t != "" && t[0] != ':' {
      CutAtFirst(t[1..]);
      assert TagKey(t) == [t[0]] + TagKey(t[1..]);
    }
  }

  // --- the relations ---

  ghost predicate MonitorOf(m: Monitor, r: Relation) {
    exists svc :: svc != "" && "service:" + svc in m.tags
                  && r == Relation("monitor:" + Decimal(m.id), "datadog", "service:" + svc, "datadog", "monitors")
  }

  ghost predicate TargetOf(s: Slo, r: Relation) {
    exists svc :: svc != "" && "service:" + svc in s.tags
                  && r == Relation("slo:" + s.id, "datadog", "service:" + svc, "datadog", "targets")
  }

  predicate BasisOf(s: Slo, m: Monitor, r: Relation) {
    && m.id in s.monitorIDs
    && r == Relation("slo:" + s.id, "datadog", "monitor:" + Decimal(m.id), "datadog", "based_on")
  }

  lemma ServiceTag(t: string)
    requires "service:" < t
    ensures t[8..] != "" && t == "service:" + t[8..]
  {
  }

  lemma TaggedIff(ms: seq<Monitor>, r: Relation)
    ensures Tagged(ms, r) <==> exists m :: m in ms && MonitorOf(m, r)
  {
    if Tagged(ms, r) {
      var m, t :| m in ms && t in m.tags && "service:" < t && r == Rel(MonitorExt(m.id), t, "monitors");
      ServiceTag(t);
      assert MonitorOf(m, r);
    }
    if m :| m in ms && MonitorOf(m, r) {
      var svc :| svc != "" && "service:" + svc in m.tags
                 && r == Relation("monitor:" + Decimal(m.id), "datadog", "service:" + svc, "datadog", "monitors");
      var t := "service:" + svc;
      assert t in m.tags && "service:" < t && r == Rel(MonitorExt(m.id), t, "monitors");
    }
  }

  lemma TargetsIff(ss: seq<Slo>, r: Relation)
    ensures Targets(ss, r) <==> exists s :: s in ss && TargetOf(s, r)
  {
    if Targets(ss, r) {
      var s, t :| s in ss && t in s.tags && "service:" < t && r == Rel(SloExt(s.id), t, "targets");
      ServiceTag(t);
      assert TargetOf(s, r);
    }
    if s :| s in ss && TargetOf(s, r) {
      var svc :| svc != "" && "service:" + svc in s.tags
                 && r == Relation("slo:" + s.id, "datadog", "service:" + svc, "datadog", "targets");
      var t := "service:" + svc;
      assert t in s.tags && "service:" < t && r == Rel(SloExt(s.id), t, "targets");
    }
  }

  lemma BasedOnIff(ss: seq<Slo>, ms: seq<Monitor>, r: Relation)
    ensures BasedOn(ss, ms, r) <==> exists s, m :: s in ss && m in ms && BasisOf(s, m, r)
  {
    if s, m :| s in ss && m in ms && BasisOf(s, m, r) {
      assert r == Rel(SloExt(s.id), MonitorExt(m.id), "based_on");
    }
    if BasedOn(ss, ms, r) {
      var s, m :| s in ss && m in ms && m.id in s.monitorIDs && r == Rel(SloExt(s.id), MonitorExt(m.id), "based_on");
      assert BasisOf(s, m, r);
    }
  }

  /** With credentials, the relations are exactly these, between what was read and the services named in tags. */
  lemma EdgesExact(creds: Credentials, api: API, o: Options, r: Relation)
    requires creds.apiKey != "" && creds.appKey != ""
    ensures var limit := EffectiveLimit(o.pageLimit);
            var ms, ss := Monitors(api, limit).items, Slos(api, limit).items;
            r in Discovered(Ok(Some(creds)), api, o).relations <==>
            || (exists m :: m in ms && MonitorOf(m, r))
            || (exists s :: s in ss && TargetOf(s, r))
            || (exists s, m :: s in ss && m in ms && BasisOf(s, m, r))
  {
    var limit := EffectiveLimit(o.pageLimit);
    SweepEdgesExact(api, o, r);
    TaggedIff(Monitors(api, limit).items, r);
    TargetsIff(Slos(api, limit).items, r);
    BasedOnIff(Slos(api, limit).items, Monitors(api, limit).items, r);
  }

  // --- without credentials, and the metric queries ---

  /** Credentials that cannot be read are a failure, and incomplete ones are none; either way nothing is found. */
  lemma WithoutCredentials(creds: Result<Option<Credentials>>, api: API, o: Options)
    requires creds.Ok? && creds.value.Some? ==> creds.value.value.apiKey == "" || creds.value.value.appKey == ""
    ensures var g := Discovered(creds, api, o);
            && g.assets == [] && g.relations == []
            && g.status == if creds.Err? then ProviderStatus(Failed, 0, creds.error)
                           else ProviderStatus(NotConfigured, 0, "")
  {
  }

  /** Every service is queried for its metrics, in order, when metrics are included, and none otherwise. */
  lemma {:induction false} QueriedExact(ds: seq<ServiceDef>, includeMetrics: bool)
    ensures if includeMetrics then
              |Queried(ds, true)| == |ds| && forall i | 0 <= i < |ds| :: Named(ds[i], Queried(ds, true)[i])
            else Queried(ds, false) == []
  {
    if ds != [] {
      QueriedExact(ds[..|ds| - 1], includeMetrics);
    }
  }

  // --- the errors ---

  predicate FailedAs<T>(got: Fetched<T>, resource: string, e: string) {
    got.failure.Some? && e == resource + ": " + got.failure.value
  }

  /** Each list that failed is reported once under its name, and metrics that were cut off with their number. */
  lemma ErrorsExact(api: API, o: Options, e: string)
    ensures var limit := EffectiveLimit(o.pageLimit);
            e in SweptErrors(api, o) <==>
            || FailedAs(Services(api, limit), "services", e) || FailedAs(Monitors(api, limit), "monitors", e)
            || FailedAs(Slos(api, limit), "slos", e)
            || (o.includeMetrics && api.metrics.Err? && e == "metrics: " + api.metrics.error)
            || (o.includeMetrics && api.metrics.Ok? && |api.metrics.value| > 5000
                && e == "metrics: " + Decimal(|api.metrics.value|) + " active, capped at 5000")
  {
    if api.metrics.Ok? {
      CapText(Decimal(|api.metrics.value|));
    }
  }

  lemma CapText(n: string)
    ensures "metrics: " + n + " active, capped at " + Decimal(METRICS_CAP)
            == "metrics: " + n + " active, capped at 5000"
  {
    assert DecimalNat(5) == "5" && DecimalNat(50) == "50" && DecimalNat(500) == "500";
    assert " active, capped at " + "5000" == " active, capped at 5000";
    Assoc("metrics: " + n, " active, capped at ", "5000");
  }
}
