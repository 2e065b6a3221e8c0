/**
 Finding which deployments use which queues, by scanning environment values
 (src/internal/controller/queue_link_runner.go).
 */
module QueueLink {
  import opened Wrappers
  import opened Text

  /** Kubernetes namespaces are DNS labels: they contain no slash. */
  type Namespace = s: string | '/' !in s witness "default"

  type ConfigMap = map<string, string>

  datatype KeyRef = KeyRef(name: string, key: string)
  datatype EnvVar = EnvVar(value: string, configMapKey: Option<KeyRef>)
  datatype Container = Container(env: seq<EnvVar>, envFrom: seq<Option<string>>)
  datatype Deployment = Deployment(uid: string, name: string, namespace: Namespace,
                                   containers: seq<Container>, initContainers: seq<Container>)

  datatype QueueName = QueueName(externalID: string, displayName: string)
  datatype Hint = Hint(externalID: string, displayName: string, workloadUID: string, workloadName: string,
                       namespace: Namespace)

  datatype HintKey = HintKey(externalID: string, workloadUID: string)

  /** What a Get of a ConfigMap answers; None for any error. */
  type Store = (Namespace, string) -> Option<ConfigMap>

  // --- what a scan should find ---

  function EnvValues(store: Store, ns: Namespace, e: EnvVar): set<string> {
    if e.value != "" then {e.value}
    else if e.configMapKey.None? then {}
    else
      var ref, cm := e.configMapKey.value, store(ns, e.configMapKey.value.name);
      if cm.Some? && ref.key in cm.value then {cm.value[ref.key]} else {}
  }

  function EnvFromValues(store: Store, ns: Namespace, name: Option<string>): set<string> {
    if name.None? then {}
    else
      var cm := store(ns, name.value);
      if cm.Some? then cm.value.Values else {}
  }

  function AllEnv(store: Store, ns: Namespace, es: seq<EnvVar>): set<string> {
    if es == [] then {} else AllEnv(store, ns, es[..|es| - 1]) + EnvValues(store, ns, es[|es| - 1])
  }

  function AllEnvFrom(store: Store, ns: Namespace, names: seq<Option<string>>): set<string> {
    if names == [] then {}
    else AllEnvFrom(store, ns, names[..|names| - 1]) + EnvFromValues(store, ns, names[|names| - 1])
  }

  function AllContainers(store: Store, ns: Namespace, cs: seq<Container>): set<string> {
    if cs == [] then {}
    else
      var c := cs[|cs| - 1];
      AllContainers(store, ns, cs[..|cs| - 1]) + AllEnv(store, ns, c.env) + AllEnvFrom(store, ns, c.envFrom)
  }

  /** The values a deployment's containers can see, Secrets apart. */
  function Candidates(store: Store, d: Deployment): set<string> {
    AllContainers(store, d.namespace, d.containers + d.initContainers)
  }

  /** A value refers to a queue by its external id, or by its display name when that is distinctive enough. */
  predicate RefersTo(value: string, q: QueueName) {
    || value == q.externalID || value == q.displayName
    || (q.externalID != "" && Contains(value, q.externalID))
    || (ByteLength(q.displayName) >= 4 && Contains(value, q.displayName))
  }

  predicate Uses(store: Store, d: Deployment, q: QueueName) {
    exists v :: v in Candidates(store, d) && RefersTo(v, q)
  }

  function HintOf(d: Deployment, q: QueueName): Hint {
    Hint(q.externalID, q.displayName, d.uid, d.name, d.namespace)
  }

  function Key(h: Hint): HintKey {
    HintKey(h.externalID, h.workloadUID)
  }

  function UsedBy(store: Store, d: Deployment, names: seq<QueueName>): seq<Hint> {
    if names == [] then []
    else
      var q := names[|names| - 1];
      UsedBy(store, d, names[..|names| - 1]) + if Uses(store, d, q) then [HintOf(d, q)] else []
  }

  /** Every match, deployment by deployment. */
  function Matches(store: Store, ds: seq<Deployment>, names: seq<QueueName>): seq<Hint> {
    if ds == [] then []
    else Matches(store, ds[..|ds| - 1], names) + UsedBy(store, ds[|ds| - 1], names)
  }

  function Keys(hints: seq<Hint>): set<HintKey> {
    set h | h in hints :: Key(h)
  }

  /** The first hint of each key. */
  function Firsts(hints: seq<Hint>): seq<Hint> {
    if hints == [] then []
    else
      var rest, h := Firsts(hints[..|hints| - 1]), hints[|hints| - 1];
      if Key(h) in Keys(rest) then rest else rest + [h]
  }

  lemma KeysSnoc(hints: seq<Hint>, h: Hint)
    ensures Keys(hints + [h]) == Keys(hints) + {Key(h)}
  {
    var all := hints + [h];
    assert h in all;
    forall k ensures k in Keys(all) <==> k in Keys(hints) || k == Key(h) {
      if k in Keys(hints) {
        var x :| x in hints && Key(x) == k;
        assert x in all;
      }
      if k in Keys(all) {
        var x :| x in all && Key(x) == k;
        assert x in hints || x == h;
      }
    }
  }

  lemma FirstsSnoc(hints: seq<Hint>, h: Hint)
    ensures Firsts(hints + [h]) == if Key(h) in Keys(Firsts(hints)) then Firsts(hints) else Firsts(hints) + [h]
  {
    assert (hints + [h])[..|hints|] == hints;
  }

  // --- the scan ---

  /** matchesAny. */
  method MatchesAny(candidates: seq<string>, q: QueueName) returns (r: bool)
    ensures r <==> exists v :: v in candidates && RefersTo(v, q)
  {
    for i := 0 to |candidates|
      invariant forall j | 0 <= j < i :: !RefersTo(candidates[j], q)
    {
      var c := candidates[i];
      if c == q.externalID || c == q.displayName {
        assert RefersTo(c, q) && c in candidates;
        return true;
      }
      if q.externalID != "" && Contains(c, q.externalID) {
        assert RefersTo(c, q) && c in candidates;
        return true;
      }
      if ByteLength(q.displayName) >= 4 && Contains(c, q.displayName) {
        assert RefersTo(c, q) && c in candidates;
        return true;
      }
    }
    return false;
  }

  function CacheKey(ns: Namespace, name: string): string {
    ns + "/" + name
  }

  lemma CacheKeyInjective(n1: Namespace, a: string, n2: Namespace, b: string)
    requires CacheKey(n1, a) == CacheKey(n2, b)
    ensures n1 == n2 && a == b
  {
    assert CacheKey(n1, a) == n1 + ['/'] + a && CacheKey(n2, b) == n2 + ['/'] + b;
    CutFirst(n1, a, n2, b, '/');
  }

  /** One scan: the ConfigMaps it has read, including those it could not read. */
  class Scan {
    var cmCache: map<string, Option<ConfigMap>>
    ghost var asked: seq<(Namespace, string)>
    const store: Store

    constructor (s: Store)
      ensures Valid() && store == s
    {
      cmCache, asked, store := map[], [], s;
    }

    /** The cache agrees with the store, and each ConfigMap was asked for once. */
    ghost predicate Valid()
      reads this
    {
      && (forall ns, name | CacheKey(ns, name) in cmCache :: cmCache[CacheKey(ns, name)] == store(ns, name))
      && (forall i | 0 <= i < |asked| :: CacheKey(asked[i].0, asked[i].1) in cmCache)
      && (forall i, j | 0 <= i < j < |asked| :: asked[i] != asked[j])
    }

    /** getConfigMap: what the store would have answered, whether cached or not. */
    method GetConfigMap(ns: Namespace, name: string) returns (cm: Option<ConfigMap>)
      requires Valid()
      modifies this
      ensures Valid() && cm == store(ns, name)
    {
      var key := CacheKey(ns, name);
      if key in cmCache {
        return cmCache[key];
      }
      cm := store(ns, name);
      forall n, a | CacheKey(n, a) == key ensures n == ns && a == name {
        CacheKeyInjective(n, a, ns, name);
      }
      asked := asked + [(ns, name)];
      cmCache := cmCache[key := cm];
    }

    method CollectEnv(ns: Namespace, es: seq<EnvVar>) returns (out: seq<string>)
      requires Valid()
      modifies this
      ensures Valid() && Elements(out) == AllEnv(store, ns, es)
    {
      out := [];
      for i := 0 to |es|
        invariant Valid() && Elements(out) == AllEnv(store, ns, es[..i])
      {
        assert es[..i + 1][..i] == es[..i];
        var e := es[i];
        if e.value != "" {
          out := out + [e.value];
          continue;
        }
        if e.configMapKey.Some? {
          var ref := e.configMapKey.value;
          var cm := GetConfigMap(ns, ref.name);
          if cm.Some? && ref.key in cm.value {
            out := out + [cm.value[ref.key]];
          }
        }
      }
      assert es[..|es|] == es;
    }

    method CollectEnvFrom(ns: Namespace, names: seq<Option<string>>) returns (out: seq<string>)
      requires Valid()
      modifies this
      ensures Valid() && Elements(out) == AllEnvFrom(store, ns, names)
    {
      out := [];
      for i := 0 to |names|
        invariant Valid() && Elements(out) == AllEnvFrom(store, ns, names[..i])
      {
        assert names[..i + 1][..i] == names[..i];
        if names[i].None? {
          continue;
        }
        var cm := GetConfigMap(ns, names[i].value);
        if cm.Some? {
          var values := ValuesInSomeOrder(cm.value);
          out := out + values;
        }
      }
      assert names[..|names|] == names;
    }

    /** collectEnvValues: containers, then init containers. */
    method CollectEnvValues(d: Deployment) returns (out: seq<string>)
      requires Valid()
      modifies this
      ensures Valid() && Elements(out) == Candidates(store, d)
    {
      var containers := d.containers + d.initContainers;
      out := [];
      for i := 0 to |containers|
        invariant Valid() && Elements(out) == AllContainers(store, d.namespace, containers[..i])
      {
        assert containers[..i + 1][..i] == containers[..i];
        var env := CollectEnv(d.namespace, containers[i].env);
        var envFrom := CollectEnvFrom(d.namespace, containers[i].envFrom);
        out := out + env + envFrom;
      }
      assert containers[..|containers|] == containers;
    }
  }

  /** Ranging over a ConfigMap's data. */
  method ValuesInSomeOrder(m: map<string, string>) returns (out: seq<string>)
    ensures Elements(out) == m.Values
  {
    out := [];
    var todo := m.Keys;
    while todo != {}
      invariant todo <= m.Keys && forall v | v in out :: v in m.Values
      invariant forall k | k in m.Keys - todo :: m[k] in out
      decreases |todo|
    {
      var k :| k in todo;
      todo := todo - {k};
      out := out + [m[k]];
    }
    forall v | v in m.Values ensures v in out {
      var k :| k in m && m[k] == v;
      assert k in m.Keys - todo;
    }
  }

  lemma HintStep(store: Store, d: Deployment, names: seq<QueueName>, j: nat, before: seq<Hint>)
    requires j < |names|
    ensures var so, h := before + UsedBy(store, d, names[..j]), HintOf(d, names[j]);
            Firsts(before + UsedBy(store, d, names[..j + 1]))
            == if !Uses(store, d, names[j]) || Key(h) in Keys(Firsts(so)) then Firsts(so) else Firsts(so) + [h]
  {
    assert names[..j + 1][..j] == names[..j];
    var used, h := UsedBy(store, d, names[..j]), HintOf(d, names[j]);
    assert before + (used + [h]) == (before + used) + [h];
    EmptyRight(used);
    FirstsSnoc(before + used, h);
  }

  /** The hints of one deployment, after those already found. */
  method HintsFor(d: Deployment, names: seq<QueueName>, candidates: seq<string>, found: seq<Hint>, keys: set<HintKey>,
                  ghost store: Store, ghost before: seq<Hint>)
      returns (hints: seq<Hint>, seen: set<HintKey>)
    requires Elements(candidates) == Candidates(store, d) && found == Firsts(before) && keys == Keys(found)
    ensures hints == Firsts(before + UsedBy(store, d, names)) && seen == Keys(hints)
  {
    hints, seen := found, keys;
    EmptyRight(before);
    for j := 0 to |names|
      invariant hints == Firsts(before + UsedBy(store, d, names[..j])) && seen == Keys(hints)
    {
      HintStep(store, d, names, j, before);
      var matches := MatchesAny(candidates, names[j]);
      MatchesMeansUses(store, d, names[j], candidates);
      if !matches {
        continue;
      }
      var h := HintOf(d, names[j]);
      if Key(h) in seen {
        continue;
      }
      KeysSnoc(hints, h);
      seen := seen + {Key(h)};
      hints := hints + [h];
    }
    assert names[..|names|] == names;
  }

  lemma MatchesMeansUses(store: Store, d: Deployment, q: QueueName, candidates: seq<string>)
    requires Elements(candidates) == Candidates(store, d)
    ensures Uses(store, d, q) <==> exists v :: v in candidates && RefersTo(v, q)
  {
    assert forall v :: v in candidates <==> v in Elements(candidates);
  }

  lemma {:induction false} NothingUsed(store: Store, d: Deployment, names: seq<QueueName>)
    requires Candidates(store, d) == {}
    ensures UsedBy(store, d, names) == []
  {
    if names != [] {
      NothingUsed(store, d, names[..|names| - 1]);
    }
  }

  /** What is posted to titlis-api, if anything. */
  function Posted(names: Result<seq<QueueName>>, deployments: Result<seq<Deployment>>, store: Store)
    : Option<seq<Hint>>
  {
    if names.Err? || names.value == [] || deployments.Err? then None
    else
      var hints := Firsts(Matches(store, deployments.value, names.value));
      if hints == [] then None else Some(hints)
  }

  /** One deployment of the scan. */
  method ScanOne(scan: Scan, d: Deployment, names: seq<QueueName>, found: seq<Hint>, keys: set<HintKey>,
                 ghost before: seq<Hint>) returns (hints: seq<Hint>, seen: set<HintKey>)
    requires scan.Valid() && found == Firsts(before) && keys == Keys(found)
    modifies scan
    ensures scan.Valid()
    ensures hints == Firsts(before + UsedBy(scan.store, d, names)) && seen == Keys(hints)
  {
    var candidates := scan.CollectEnvValues(d);
    if |candidates| == 0 {
      NothingUsed(scan.store, d, names);
      EmptyRight(before);
      return found, keys;
    }
    hints, seen := HintsFor(d, names, candidates, found, keys, scan.store, before);
  }

  /** run: the scan with its cache sends the hints that reading every ConfigMap anew would give. */
  method Run(names: Result<seq<QueueName>>, deployments: Result<seq<Deployment>>, store: Store)
      returns (sent: Option<seq<Hint>>)
    ensures sent == Posted(names, deployments, store)
  {
    if names.Err? || |names.value| == 0 || deployments.Err? {
      return None;
    }
    var ds := deployments.value;
    var scan := new Scan(store);
    var seen: set<HintKey> := {};
    var hints: seq<Hint> := [];
    for i := 0 to |ds|
      invariant scan.Valid() && scan.store == store && fresh(scan)
      invariant hints == Firsts(Matches(store, ds[..i], names.value)) && seen == Keys(hints)
    {
      assert ds[..i + 1][..i] == ds[..i];
      hints, seen := ScanOne(scan, ds[i], names.value, hints, seen, Matches(store, ds[..i], names.value));
    }
    assert ds[..|ds|] == ds;
    sent := if |hints| == 0 then None else Some(hints);
  }

  // --- what the hints are ---

  /** The first of its key. */
  predicate FirstAt(hints: seq<Hint>, p: int, h: Hint) {
    0 <= p < |hints| && hints[p] == h && forall q | 0 <= q < p :: Key(hints[q]) != Key(h)
  }

  lemma FirstAtSnoc(hints: seq<Hint>, h: Hint, p: int, x: Hint)
    ensures FirstAt(hints + [h], p, x)
            <==> FirstAt(hints, p, x) || (p == |hints| && x == h && Key(h) !in Keys(hints))
  {
    var all := hints + [h];
    assert forall q | 0 <= q < |hints| :: all[q] == hints[q] && Key(hints[q]) in Keys(hints);
    if Key(h) in Keys(hints) {
      var y :| y in hints && Key(y) == Key(h);
      var q :| 0 <= q < |hints| && hints[q] == y;
      assert all[q] == y;
    }
  }

  lemma {:induction false} FirstsKeys(hints: seq<Hint>)
    ensures Keys(Firsts(hints)) == Keys(hints)
    ensures forall i, j | 0 <= i < j < |Firsts(hints)| :: Key(Firsts(hints)[i]) != Key(Firsts(hints)[j])
  {
    if hints != [] {
      var init, h := hints[..|hints| - 1], hints[|hints| - 1];
      FirstsKeys(init);
      assert hints == init + [h];
      KeysSnoc(init, h);
      KeysSnoc(Firsts(init), h);
      assert forall i | 0 <= i < |Firsts(init)| :: Key(Firsts(init)[i]) in Keys(Firsts(init));
    }
  }

  /** A match is kept exactly when it is the first of its key. */
  lemma {:induction false} FirstsExact(hints: seq<Hint>, x: Hint)
    ensures x in Firsts(hints) <==> exists p :: FirstAt(hints, p, x)
  {
    if hints != [] {
      var init, h := hints[..|hints| - 1], hints[|hints| - 1];
      FirstsExact(init, x);
      FirstsKeys(init);
      assert hints == init + [h];
      if p :| FirstAt(hints, p, x) {
        FirstAtSnoc(init, h, p, x);
      }
      if p :| FirstAt(init, p, x) {
        FirstAtSnoc(init, h, p, x);
      }
      FirstAtSnoc(init, h, |init|, h);
    }
  }

  lemma {:induction false} UsedByExact(store: Store, d: Deployment, names: seq<QueueName>, h: Hint)
    ensures h in UsedBy(store, d, names) <==> exists q :: q in names && Uses(store, d, q) && h == HintOf(d, q)
  {
    if names != [] {
      UsedByExact(store, d, names[..|names| - 1], h);
      assert names == names[..|names| - 1] + [names[|names| - 1]];
    }
  }

  lemma {:induction false} MatchesRows(store: Store, ds: seq<Deployment>, names: seq<QueueName>, h: Hint)
    ensures h in Matches(store, ds, names) <==> exists d :: d in ds && h in UsedBy(store, d, names)
  {
    if ds != [] {
      var init, last := ds[..|ds| - 1], ds[|ds| - 1];
      MatchesRows(store, init, names, h);
      assert last in ds;
      if d :| d in init && h in UsedBy(store, d, names) {
        assert d in ds;
      }
      if d :| d in ds && h in UsedBy(store, d, names) {
        assert d in init || d == last;
      }
    }
  }

  lemma MatchesExact(store: Store, ds: seq<Deployment>, names: seq<QueueName>, h: Hint)
    ensures h in Matches(store, ds, names)
            <==> exists d, q :: d in ds && q in names && Uses(store, d, q) && h == HintOf(d, q)
  {
    MatchesRows(store, ds, names, h);
    forall d
      ensures h in UsedBy(store, d, names) <==> exists q :: q in names && Uses(store, d, q) && h == HintOf(d, q)
    {
      UsedByExact(store, d, names, h);
    }
  }

  /** A deployment and a queue it uses. */
  ghost predicate Pair(store: Store, ds: seq<Deployment>, names: seq<QueueName>, d: Deployment, q: QueueName) {
    d in ds && q in names && Uses(store, d, q)
  }

  /**
   The hints posted are matching pairs, no two for the same queue and workload, and every matching pair has its
   queue and workload among them. Nothing is posted exactly when nothing matches or an answer is missing.
   */
  lemma PostedExact(names: seq<QueueName>, ds: seq<Deployment>, store: Store)
    ensures var sent := Posted(Ok(names), Ok(ds), store);
            && (sent.None? <==> forall d, q :: !Pair(store, ds, names, d, q))
            && (sent.Some? ==>
                  && (forall h | h in sent.value :: exists d, q :: Pair(store, ds, names, d, q) && h == HintOf(d, q))
                  && (forall i, j | 0 <= i < j < |sent.value| :: Key(sent.value[i]) != Key(sent.value[j]))
                  && (forall d, q | Pair(store, ds, names, d, q) :: HintKey(q.externalID, d.uid) in Keys(sent.value)))
  {
    var all := Matches(store, ds, names);
    var hints := Firsts(all);
    FirstsKeys(all);
    forall h | h in hints ensures exists d, q :: Pair(store, ds, names, d, q) && h == HintOf(d, q) {
      FirstsExact(all, h);
      MatchesExact(store, ds, names, h);
      var d, q :| d in ds && q in names && Uses(store, d, q) && h == HintOf(d, q);
      assert Pair(store, ds, names, d, q);
    }
    forall d, q | Pair(store, ds, names, d, q) ensures HintKey(q.externalID, d.uid) in Keys(hints) {
      MatchesExact(store, ds, names, HintOf(d, q));
      assert Key(HintOf(d, q)) in Keys(all);
    }
    if hints == [] {
      assert Keys(hints) == {};
    } else {
      assert hints[0] in hints;
    }
  }
}
