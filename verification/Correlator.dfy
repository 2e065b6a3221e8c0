/**
 Linking Datadog services to the Kubernetes workloads that implement them
 (src/internal/discovery/correlator.go).
 */
module Correlator {
  import opened Wrappers
  import opened Text
  import opened Discovery

  predicate IsWorkload(a: Asset) {
    a.provider == KUBERNETES && a.kind in {"deployment", "statefulset", "daemonset", "cronjob"}
  }

  predicate IsService(a: Asset) {
    a.provider == DATADOG && a.kind == "dd_service"
  }

  // --- what the link should be ---

  /** The Unified Service Tagging attribute, and the workload's own name only when that is empty. */
  function Signal(a: Asset): string {
    if a.ddService != "" then a.ddService else a.name
  }

  /** The last service of a name. */
  predicate LastService(assets: seq<Asset>, j: int, name: string) {
    && 0 <= j < |assets| && IsService(assets[j]) && assets[j].name == name
    && forall q | j < q < |assets| :: !(IsService(assets[q]) && assets[q].name == name)
  }

  function Describes(source: string, target: string): Relation {
    Relation(source, DATADOG, target, KUBERNETES, "describes")
  }

  ghost predicate Links(assets: seq<Asset>, a: Asset, r: Relation) {
    && IsWorkload(a) && Signal(a) != ""
    && exists j :: LastService(assets, j, Signal(a)) && r == Describes(assets[j].externalID, a.externalID)
  }

  ghost predicate Declared(assets: seq<Asset>, r: Relation) {
    exists a :: a in assets && Links(assets, a, r)
  }

  /** The deduplication key. */
  function Key(r: Relation): string {
    r.source + "->" + r.target
  }

  // --- what the loops compute ---

  function ServiceIndex(assets: seq<Asset>): map<string, string> {
    if assets == [] then map[]
    else
      var a := assets[|assets| - 1];
      var rest := ServiceIndex(assets[..|assets| - 1]);
      if IsService(a) then rest[a.name := a.externalID] else rest
  }

  function LinkOf(index: map<string, string>, a: Asset): Option<Relation> {
    if !IsWorkload(a) then None
    else
      var svc := if a.ddService == "" && a.name in index then a.name else a.ddService;
      if svc == "" || svc !in index then None else Some(Describes(index[svc], a.externalID))
  }

  function Keys(rels: seq<Relation>): set<string> {
    set r | r in rels :: Key(r)
  }

  /** The link of each workload in turn, unless its key was seen. */
  function LinkAll(index: map<string, string>, assets: seq<Asset>): seq<Relation> {
    if assets == [] then []
    else
      var rest, link := LinkAll(index, assets[..|assets| - 1]), LinkOf(index, assets[|assets| - 1]);
      if link.None? || Key(link.value) in Keys(rest) then rest else rest + [link.value]
  }

  function Correlated(assets: seq<Asset>): seq<Relation> {
    LinkAll(ServiceIndex(assets), assets)
  }

  method IndexServices(assets: seq<Asset>) returns (index: map<string, string>)
    ensures index == ServiceIndex(assets)
  {
    index := map[];
    for i := 0 to |assets|
      invariant index == ServiceIndex(assets[..i])
    {
      assert assets[..i + 1][..i] == assets[..i];
      if IsService(assets[i]) {
        index := index[assets[i].name := assets[i].externalID];
      }
    }
    assert assets[..|assets|] == assets;
  }

  lemma {:induction false} NothingToLink(assets: seq<Asset>)
    ensures LinkAll(map[], assets) == []
  {
    if assets != [] {
      NothingToLink(assets[..|assets| - 1]);
    }
  }

  /** Correlate, with its seen map. */
  method Correlate(assets: seq<Asset>) returns (rels: seq<Relation>)
    ensures rels == Correlated(assets)
  {
    var index := IndexServices(assets);
    rels := [];
    if |index| == 0 {
      NothingToLink(assets);
      return;
    }
    var seen: set<string> := {};
    for i := 0 to |assets|
      invariant rels == LinkAll(index, assets[..i]) && seen == Keys(rels)
    {
      var a := assets[i];
      assert assets[..i + 1][..i] == assets[..i];
      if !IsWorkload(a) {
        continue;
      }
      var svc := a.ddService;
      if svc == "" && a.name in index {
        svc := a.name;
      }
      if svc == "" || svc !in index {
        continue;
      }
      var r := Describes(index[svc], a.externalID);
      if Key(r) in seen {
        continue;
      }
      KeysAppend(rels, r);
      seen := seen + {Key(r)};
      rels := rels + [r];
    }
    assert assets[..|assets|] == assets;
  }

  lemma KeysAppend(rels: seq<Relation>, r: Relation)
    ensures Keys(rels + [r]) == Keys(rels) + {Key(r)}
  {
    assert r in rels + [r];
    forall k | k in Keys(rels) ensures k in Keys(rels + [r]) {
      var x :| x in rels && Key(x) == k;
      assert x in rels + [r];
    }
  }

  // --- that they compute it ---

  lemma {:induction false} IndexIsLast(assets: seq<Asset>, name: string)
    ensures name in ServiceIndex(assets) <==> exists j :: LastService(assets, j, name)
    ensures forall j | LastService(assets, j, name) :: ServiceIndex(assets)[name] == assets[j].externalID
  {
    if assets != [] {
      var init, a := assets[..|assets| - 1], assets[|assets| - 1];
      IndexIsLast(init, name);
      if IsService(a) && a.name == name {
        assert LastService(assets, |assets| - 1, name);
      } else {
        forall j ensures LastService(init, j, name) <==> LastService(assets, j, name) {
          if LastService(init, j, name) {
            forall q | j < q < |assets| ensures !(IsService(assets[q]) && assets[q].name == name) {
              assert q < |init| ==> init[q] == assets[q];
            }
          }
          if LastService(assets, j, name) {
            assert j < |init|;
            forall q | j < q < |init| ensures !(IsService(init[q]) && init[q].name == name) {
              assert init[q] == assets[q];
            }
          }
        }
      }
    }
  }

  lemma LinkOfExact(assets: seq<Asset>, a: Asset, r: Relation)
    ensures LinkOf(ServiceIndex(assets), a) == Some(r) <==> Links(assets, a, r)
  {
    IndexIsLast(assets, Signal(a));
    IndexIsLast(assets, a.name);
  }

  lemma {:induction false} LinkAllSound(index: map<string, string>, assets: seq<Asset>, r: Relation)
    requires r in LinkAll(index, assets)
    ensures exists a :: a in assets && LinkOf(index, a) == Some(r)
  {
    var init, last := assets[..|assets| - 1], assets[|assets| - 1];
    if r in LinkAll(index, init) {
      LinkAllSound(index, init, r);
      var a :| a in init && LinkOf(index, a) == Some(r);
      assert a in assets;
    } else {
      assert last in assets;
    }
  }

  lemma {:induction false} LinkAllCovers(index: map<string, string>, assets: seq<Asset>, a: Asset)
    requires a in assets && LinkOf(index, a).Some?
    ensures Key(LinkOf(index, a).value) in Keys(LinkAll(index, assets))
  {
    var init, last := assets[..|assets| - 1], assets[|assets| - 1];
    var rest, link := LinkAll(index, init), LinkOf(index, last);
    assert assets == init + [last];
    if link.Some? {
      KeysAppend(rest, link.value);
    }
    if a in init {
      LinkAllCovers(index, init, a);
    }
  }

  lemma {:induction false} LinkAllDistinct(index: map<string, string>, assets: seq<Asset>)
    ensures DistinctKeys(LinkAll(index, assets))
  {
    if assets != [] {
      var init, last := assets[..|assets| - 1], assets[|assets| - 1];
      var rest, link := LinkAll(index, init), LinkOf(index, last);
      LinkAllDistinct(index, init);
      if link.Some? && Key(link.value) !in Keys(rest) {
        assert forall i | 0 <= i < |rest| :: Key(rest[i]) in Keys(rest);
      }
    }
  }

  predicate DistinctKeys(rels: seq<Relation>) {
    forall i, j | 0 <= i < j < |rels| :: Key(rels[i]) != Key(rels[j])
  }

  /** Only declared links are emitted, no two with one key, and every declared link's key is covered. */
  lemma CorrelateSound(assets: seq<Asset>)
    ensures forall r | r in Correlated(assets) :: Declared(assets, r)
    ensures forall r | Declared(assets, r) :: Key(r) in Keys(Correlated(assets))
    ensures NoDup(Correlated(assets))
  {
    var index := ServiceIndex(assets);
    LinkAllDistinct(index, assets);
    forall r | r in Correlated(assets) ensures Declared(assets, r) {
      LinkAllSound(index, assets, r);
      var a :| a in assets && LinkOf(index, a) == Some(r);
      LinkOfExact(assets, a, r);
    }
    forall r | Declared(assets, r) ensures Key(r) in Keys(Correlated(assets)) {
      var a :| a in assets && Links(assets, a, r);
      LinkOfExact(assets, a, r);
      LinkAllCovers(index, assets, a);
    }
  }

  /** No two declared links share a key. */
  ghost predicate KeysTellApart(assets: seq<Asset>) {
    forall r, s | Declared(assets, r) && Declared(assets, s) && Key(r) == Key(s) :: r == s
  }

  ghost predicate AllEmitted(assets: seq<Asset>) {
    forall r | Declared(assets, r) :: r in Correlated(assets)
  }

  lemma EmittedByKey(assets: seq<Asset>, r: Relation, s: Relation)
    requires r in Correlated(assets) && s in Correlated(assets) && Key(r) == Key(s)
    ensures r == s
  {
    LinkAllDistinct(ServiceIndex(assets), assets);
    var rels := Correlated(assets);
    var i :| 0 <= i < |rels| && rels[i] == r;
    var j :| 0 <= j < |rels| && rels[j] == s;
  }

  lemma EmittedOrHidden(assets: seq<Asset>, r: Relation) returns (s: Relation)
    requires Declared(assets, r)
    ensures Declared(assets, s) && s in Correlated(assets) && Key(s) == Key(r)
  {
    CorrelateSound(assets);
    s :| s in Correlated(assets) && Key(s) == Key(r);
  }

  /** Every declared link is emitted exactly when the keys tell the declared links apart. */
  lemma CorrelateCompleteIff(assets: seq<Asset>)
    ensures AllEmitted(assets) <==> KeysTellApart(assets)
  {
    if KeysTellApart(assets) {
      forall r | Declared(assets, r) ensures r in Correlated(assets) {
        var s := EmittedOrHidden(assets, r);
      }
    }
    if AllEmitted(assets) {
      forall r, s | Declared(assets, r) && Declared(assets, s) && Key(r) == Key(s) ensures r == s {
        EmittedByKey(assets, r, s);
      }
    }
  }

  /** The key determines both ends when the target has no '>'. */
  lemma KeyInjective(r: Relation, s: Relation)
    requires Key(r) == Key(s) && '>' !in r.target && '>' !in s.target
    ensures r.source == s.source && r.target == s.target
  {
    var a, b := r.source + "-", s.source + "-";
    assert Key(r) == a + ['>'] + r.target;
    assert Key(s) == b + ['>'] + s.target;
    CutLast(a, r.target, b, s.target, '>');
    assert r.source == a[..|a| - 1];
    assert s.source == b[..|b| - 1];
  }

  /** Workload ids without '>', as Kubernetes UIDs are, make the relation exact. */
  lemma CorrelateExact(assets: seq<Asset>, r: Relation)
    requires forall a | a in assets && IsWorkload(a) :: '>' !in a.externalID
    ensures r in Correlated(assets) <==> Declared(assets, r)
  {
    forall r, s | Declared(assets, r) && Declared(assets, s) && Key(r) == Key(s) ensures r == s {
      KeyInjective(r, s);
    }
    CorrelateCompleteIff(assets);
    CorrelateSound(assets);
  }

  /** Otherwise a link can be lost: here "x->y" described by one service hides "x" describing "y->z". */
  lemma CollidingKeysLoseALink(x: string, y: string, z: string, w1: Asset, w2: Asset)
    requires IsWorkload(w1) && Signal(w1) == "a" && w1.externalID == y + "->" + z
    requires IsWorkload(w2) && Signal(w2) == "b" && w2.externalID == z
    ensures !AllEmitted([Asset(x, DATADOG, "dd_service", "a", "", map[], ""),
                         Asset(x + "->" + y, DATADOG, "dd_service", "b", "", map[], ""), w1, w2])
  {
    var assets := [Asset(x, DATADOG, "dd_service", "a", "", map[], ""),
                   Asset(x + "->" + y, DATADOG, "dd_service", "b", "", map[], ""), w1, w2];
    var r1, r2 := Describes(x, w1.externalID), Describes(x + "->" + y, z);
    assert LastService(assets, 0, "a") && LastService(assets, 1, "b");
    assert w1 in assets && Links(assets, w1, r1) && w2 in assets && Links(assets, w2, r2);
    assert x + "->" + (y + "->" + z) == (x + "->" + y) + "->" + z;
    assert Key(r1) == Key(r2) && |r1.source| != |r2.source|;
    CorrelateCompleteIff(assets);
  }

  /** Both ends of every emitted link are assets. */
  lemma LinksAreGrounded(assets: seq<Asset>, r: Relation)
    requires r in Correlated(assets)
    ensures HasAsset(assets, r.sourceProvider, r.source) && HasAsset(assets, r.targetProvider, r.target)
  {
    CorrelateSound(assets);
    var a :| a in assets && Links(assets, a, r);
    var j :| LastService(assets, j, Signal(a)) && r == Describes(assets[j].externalID, a.externalID);
    assert assets[j] in assets;
  }
}
