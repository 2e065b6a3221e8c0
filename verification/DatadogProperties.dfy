/** What a Datadog sweep puts in the graph. */
module DatadogProperties {
  import opened Wrappers
  import opened Text
  import opened Discovery
  import opened Registry
  import opened DatadogProvider

  lemma {:induction false} ServiceTagsExact(tags: seq<string>, svc: string)
    ensures svc in ServiceTags(tags) <==> svc != "" && "service:" + svc in tags
  {
    if tags != [] {
      var init, t := tags[..|tags| - 1], tags[|tags| - 1];
      ServiceTagsExact(init, svc);
      assert tags == init + [t];
      if "service:" < t {
        assert t == "service:" + t[8..];
        assert t == "service:" + svc <==> t[8..] == svc by {
          assert ("service:" + svc)[8..] == svc;
        }
      }
    }
  }

  /** A tag is the last of its key. */
  predicate LastOfKey(tags: seq<string>, i: int, key: string) {
    0 <= i < |tags| && TagKey(tags[i]) == key && forall j | i < j < |tags| :: TagKey(tags[j]) != key
  }

  lemma LastOfKeySnoc(tags: seq<string>, i: int, key: string)
    requires tags != [] && TagKey(tags[|tags| - 1]) != key
    ensures LastOfKey(tags[..|tags| - 1], i, key) <==> LastOfKey(tags, i, key)
  {
    var init := tags[..|tags| - 1];
    assert forall j | 0 <= j < |init| :: init[j] == tags[j];
  }

  /** Every key that a tag carries is in the map, with the value of its last tag. */
  lemma {:induction false} TagMapExact(tags: seq<string>, key: string)
    ensures key in TagMap(tags) <==> exists i :: LastOfKey(tags, i, key)
    ensures forall i | LastOfKey(tags, i, key) :: TagMap(tags)[key] == TagValue(tags[i])
  {
    if tags != [] {
      var n := |tags| - 1;
      if TagKey(tags[n]) == key {
        assert LastOfKey(tags, n, key);
      } else {
        TagMapExact(tags[..n], key);
        forall i ensures LastOfKey(tags[..n], i, key) <==> LastOfKey(tags, i, key) {
          LastOfKeySnoc(tags, i, key);
        }
      }
    }
  }

  // --- the edges ---

  ghost predicate Tagged(ms: seq<Monitor>, r: Relation) {
    exists m, t :: m in ms && t in m.tags && "service:" < t && r == Rel(MonitorExt(m.id), t, "monitors")
  }

  ghost predicate Targets(ss: seq<Slo>, r: Relation) {
    exists s, t :: s in ss && t in s.tags && "service:" < t && r == Rel(SloExt(s.id), t, "targets")
  }

  /** Only monitors read in the same sweep. */
  ghost predicate BasedOn(ss: seq<Slo>, ms: seq<Monitor>, r: Relation) {
    exists s, m :: s in ss && m in ms && m.id in s.monitorIDs && r == Rel(SloExt(s.id), MonitorExt(m.id), "based_on")
  }

  lemma ServiceEdgesExact(ext: string, tags: seq<string>, kind: string, r: Relation)
    ensures r in Flat(ServiceTags(tags), ServiceCell(ext, kind))
            <==> exists t :: t in tags && "service:" < t && r == Rel(ext, t, kind)
  {
    var services, cell := ServiceTags(tags), ServiceCell(ext, kind);
    FlatMembers(services, cell);
    if r in Flat(services, cell) {
      var i :| 0 <= i < |services| && r in cell(services[i]);
      ServiceTagsExact(tags, services[i]);
      var t := "service:" + services[i];
      assert t in tags && "service:" < t && r == Rel(ext, t, kind);
    }
    if t :| t in tags && "service:" < t && r == Rel(ext, t, kind) {
      assert t == "service:" + t[8..];
      ServiceTagsExact(tags, t[8..]);
      var i :| 0 <= i < |services| && services[i] == t[8..];
      assert r in cell(services[i]);
    }
  }

  lemma MonitorEdgesExact(ms: seq<Monitor>, r: Relation)
    ensures r in Flat(ms, MonitorRow()) <==> Tagged(ms, r)
  {
    FlatMembers(ms, MonitorRow());
    if r in Flat(ms, MonitorRow()) {
      var i :| 0 <= i < |ms| && r in MonitorRow()(ms[i]);
      ServiceEdgesExact(MonitorExt(ms[i].id), ms[i].tags, "monitors", r);
    }
    if Tagged(ms, r) {
      var m, t :| m in ms && t in m.tags && "service:" < t && r == Rel(MonitorExt(m.id), t, "monitors");
      ServiceEdgesExact(MonitorExt(m.id), m.tags, "monitors", r);
      var i :| 0 <= i < |ms| && ms[i] == m;
      assert r in MonitorRow()(ms[i]);
    }
  }

  lemma KnownExact(ms: seq<Monitor>, id: int)
    ensures MonitorExt(id) in Known(ms) <==> exists m :: m in ms && m.id == id
  {
    if MonitorExt(id) in Known(ms) {
      var m :| m in ms && MonitorExt(m.id) == MonitorExt(id);
      assert Decimal(m.id) == MonitorExt(m.id)[8..] && Decimal(id) == MonitorExt(id)[8..];
      DecimalInjective(m.id, id);
    }
  }

  lemma BasedOnEdgesExact(s: Slo, ms: seq<Monitor>, r: Relation)
    ensures r in Flat(s.monitorIDs, BasedOnCell(SloExt(s.id), Known(ms)))
            <==> exists m :: m in ms && m.id in s.monitorIDs && r == Rel(SloExt(s.id), MonitorExt(m.id), "based_on")
  {
    var cell := BasedOnCell(SloExt(s.id), Known(ms));
    FlatMembers(s.monitorIDs, cell);
    if r in Flat(s.monitorIDs, cell) {
      var i :| 0 <= i < |s.monitorIDs| && r in cell(s.monitorIDs[i]);
      KnownExact(ms, s.monitorIDs[i]);
    }
    if m :| m in ms && m.id in s.monitorIDs && r == Rel(SloExt(s.id), MonitorExt(m.id), "based_on") {
      KnownExact(ms, m.id);
      var i :| 0 <= i < |s.monitorIDs| && s.monitorIDs[i] == m.id;
      assert r in cell(s.monitorIDs[i]);
    }
  }

  lemma SloRowExact(s: Slo, ms: seq<Monitor>, r: Relation)
    ensures r in SloRow(Known(ms))(s) <==> Targets([s], r) || BasedOn([s], ms, r)
  {
    ServiceEdgesExact(SloExt(s.id), s.tags, "targets", r);
    BasedOnEdgesExact(s, ms, r);
    assert s in [s];
  }

  lemma SloEdgesExact(ss: seq<Slo>, ms: seq<Monitor>, r: Relation)
    ensures r in Flat(ss, SloRow(Known(ms))) <==> Targets(ss, r) || BasedOn(ss, ms, r)
  {
    var row := SloRow(Known(ms));
    FlatMembers(ss, row);
    if r in Flat(ss, row) {
      var i :| 0 <= i < |ss| && r in row(ss[i]);
      SloRowExact(ss[i], ms, r);
    }
    if Targets(ss, r) {
      var s, t :| s in ss && t in s.tags && "service:" < t && r == Rel(SloExt(s.id), t, "targets");
      assert s in [s] && Targets([s], r);
      SloRowIn(ss, s, ms, r);
    }
    if BasedOn(ss, ms, r) {
      var s, m :| s in ss && m in ms && m.id in s.monitorIDs && r == Rel(SloExt(s.id), MonitorExt(m.id), "based_on");
      assert s in [s] && BasedOn([s], ms, r);
      SloRowIn(ss, s, ms, r);
    }
  }

  lemma SloRowIn(ss: seq<Slo>, s: Slo, ms: seq<Monitor>, r: Relation)
    requires s in ss && (Targets([s], r) || BasedOn([s], ms, r))
    ensures exists i :: 0 <= i < |ss| && r in SloRow(Known(ms))(ss[i])
  {
    SloRowExact(s, ms, r);
    var i :| 0 <= i < |ss| && ss[i] == s;
    assert r in SloRow(Known(ms))(ss[i]);
  }

  /** The relations of a sweep are exactly these three, over what the sweep read. */
  lemma SweepEdgesExact(api: API, o: Options, r: Relation)
    ensures var limit := EffectiveLimit(o.pageLimit);
            var ms, ss := Monitors(api, limit).items, Slos(api, limit).items;
            r in SweptRelations(api, o) <==> Tagged(ms, r) || Targets(ss, r) || BasedOn(ss, ms, r)
  {
    var limit := EffectiveLimit(o.pageLimit);
    MonitorEdgesExact(Monitors(api, limit).items, r);
    SloEdgesExact(Slos(api, limit).items, Monitors(api, limit).items, r);
  }

  lemma MapHas<T>(xs: seq<T>, f: T -> Asset, x: T)
    requires x in xs
    ensures f(x) in Map(xs, f)
  {
    var i :| 0 <= i < |xs| && xs[i] == x;
    assert Map(xs, f)[i] == f(x);
  }

  /** Datadog edges stay within Datadog, and a `based_on` edge never dangles, whatever the requests answered. */
  lemma SweepEndsKept(creds: Result<Option<Credentials>>, api: API, o: Options, r: Relation)
    requires r in Discovered(creds, api, o).relations
    ensures r.sourceProvider == DATADOG == r.targetProvider && r.kind in {"monitors", "targets", "based_on"}
    ensures HasAsset(Discovered(creds, api, o).assets, DATADOG, r.source)
    ensures r.kind == "based_on" ==> BothEnds(Discovered(creds, api, o).assets, r)
  {
    var limit := EffectiveLimit(o.pageLimit);
    var ms, ss := Monitors(api, limit).items, Slos(api, limit).items;
    SweepEdgesExact(api, o, r);
    assert "monitors"[0] != "based_on"[0] && "targets"[0] != "based_on"[0];
    if Tagged(ms, r) {
      var m, t :| m in ms && t in m.tags && "service:" < t && r == Rel(MonitorExt(m.id), t, "monitors");
      MapHas(ms, MonitorAsset, m);
      assert MonitorAsset(m) in SweptAssets(api, o);
    } else if Targets(ss, r) {
      var s, t :| s in ss && t in s.tags && "service:" < t && r == Rel(SloExt(s.id), t, "targets");
      MapHas(ss, SloAsset, s);
      assert SloAsset(s) in SweptAssets(api, o);
    } else {
      var s, m :| s in ss && m in ms && m.id in s.monitorIDs && r == Rel(SloExt(s.id), MonitorExt(m.id), "based_on");
      MapHas(ss, SloAsset, s);
      MapHas(ms, MonitorAsset, m);
      assert SloAsset(s) in SweptAssets(api, o) && MonitorAsset(m) in SweptAssets(api, o);
    }
  }

  /** Some request failed, or metrics were cut off. */
  predicate Troubled(api: API, o: Options) {
    var limit := EffectiveLimit(o.pageLimit);
    || Services(api, limit).failure.Some? || Monitors(api, limit).failure.Some? || Slos(api, limit).failure.Some?
    || (o.includeMetrics && (api.metrics.Err? || |api.metrics.value| > METRICS_CAP))
  }

  /** The status: failed without the credentials call, not configured without both keys, partial on any failure. */
  lemma SweepStatusIff(creds: Result<Option<Credentials>>, api: API, o: Options)
    ensures var st := Discovered(creds, api, o).status.state;
            && (st == Failed <==> creds.Err?)
            && (st == NotConfigured <==> creds.Ok? && !Connected(creds.value))
            && (st == Partial <==> creds.Ok? && Connected(creds.value) && Troubled(api, o))
  {
  }
}
