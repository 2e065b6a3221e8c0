/** The edges of a sweep are exactly the declared ones, never dangle and never repeat. */
module KubernetesEdges {
  import opened Wrappers
  import opened Text
  import opened Discovery
  import opened KubernetesGraph

  // --- the declared relation ---

  ghost predicate SelectedBy(s: Object, ws: seq<WorkloadRef>, r: Relation) {
    && s.shape.Service?
    && exists w :: w in ws && Selects(s.meta.namespace, s.shape.selector, w) && r == Rel(s.meta.uid, w.uid, "selects")
  }

  ghost predicate DeclaredSelects(services: seq<Object>, ws: seq<WorkloadRef>, r: Relation) {
    exists s :: s in services && SelectedBy(s, ws, r)
  }

  ghost predicate RouteOf(g: Object, services: seq<Object>, r: Relation) {
    && g.shape.Ingress?
    && exists s :: s in services && s.meta.namespace == g.meta.namespace && s.meta.name != ""
                   && s.meta.name in Backends(g.shape) && r == Rel(g.meta.uid, s.meta.uid, "routes_to")
  }

  ghost predicate DeclaredRoutes(ingresses: seq<Object>, services: seq<Object>, r: Relation) {
    exists g :: g in ingresses && RouteOf(g, services, r)
  }

  ghost predicate ScaledBy(h: Object, ws: seq<WorkloadRef>, r: Relation) {
    && h.shape.HPA?
    && exists w :: w in ws && w.namespace == h.meta.namespace && w.kind == h.shape.targetKind
                   && w.name == h.shape.targetName && r == Rel(w.uid, h.meta.uid, "scaled_by")
  }

  ghost predicate DeclaredScaled(hpas: seq<Object>, ws: seq<WorkloadRef>, r: Relation) {
    exists h :: h in hpas && ScaledBy(h, ws, r)
  }

  ghost predicate ProtectedBy(p: Object, ws: seq<WorkloadRef>, r: Relation) {
    && p.shape.PDB?
    && exists w :: w in ws && Selects(p.meta.namespace, p.shape.pdbSelector, w)
                   && r == Rel(w.uid, p.meta.uid, "protected_by")
  }

  ghost predicate DeclaredProtected(pdbs: seq<Object>, ws: seq<WorkloadRef>, r: Relation) {
    exists p :: p in pdbs && ProtectedBy(p, ws, r)
  }

  /** An edge from a source to an object that one of the names denotes in the source's namespace. */
  ghost predicate Names(names: seq<string>, uid: string, ns: string, objs: seq<Object>, kind: string, r: Relation) {
    exists o :: o in objs && o.meta.namespace == ns && o.meta.name in names && r == Rel(uid, o.meta.uid, kind)
  }

  ghost predicate DeclaredUses(ws: seq<WorkloadRef>, objs: seq<Object>, secrets: bool,
                 kind: string, r: Relation) {
    exists w :: w in ws && Names(if secrets then w.secretRefs else w.cmRefs, w.uid, w.namespace, objs, kind, r)
  }

  /** An edge between two kept objects, by what their references say. */
  ghost predicate DeclaredByRefs(c: Cluster, ex: set<string>, r: Relation) {
    || DeclaredSelects(Kept(ItemsOf(c.services), ex), WorkloadsOf(c, ex), r)
    || DeclaredRoutes(Kept(ItemsOf(c.ingresses), ex), Kept(ItemsOf(c.services), ex), r)
    || DeclaredScaled(Kept(ItemsOf(c.hpas), ex), WorkloadsOf(c, ex), r)
    || DeclaredProtected(Kept(ItemsOf(c.pdbs), ex), WorkloadsOf(c, ex), r)
    || DeclaredUses(WorkloadsOf(c, ex), Kept(ItemsOf(c.configMaps), ex), false, "uses_config", r)
    || DeclaredUses(WorkloadsOf(c, ex), Kept(ItemsOf(c.secrets), ex), true, "uses_secret", r)
  }

  // --- assumptions ---

  predicate DistinctUIDs(objs: seq<Object>) {
    forall i, j | 0 <= i < j < |objs| :: objs[i].meta.uid != objs[j].meta.uid
  }

  /** Names are unique per namespace, and namespaces contain no slash. */
  predicate ProperNames(objs: seq<Object>) {
    && (forall i, j | 0 <= i < j < |objs| ::
          objs[i].meta.namespace != objs[j].meta.namespace || objs[i].meta.name != objs[j].meta.name)
    && (forall o | o in objs :: '/' !in o.meta.namespace)
  }

  ghost predicate Proper(c: Cluster, ex: set<string>) {
    && ProperNames(Kept(ItemsOf(c.services), ex))
    && ProperNames(Kept(ItemsOf(c.configMaps), ex))
    && ProperNames(Kept(ItemsOf(c.secrets), ex))
    && (forall o | o in Kept(ItemsOf(c.ingresses), ex) :: '/' !in o.meta.namespace)
    && (forall w | w in WorkloadsOf(c, ex) :: '/' !in w.namespace)
  }

  ghost predicate UniqueUIDs(c: Cluster, ex: set<string>) {
    && DistinctUIDs(Kept(ItemsOf(c.services), ex)) && DistinctUIDs(Kept(ItemsOf(c.configMaps), ex))
    && DistinctUIDs(Kept(ItemsOf(c.secrets), ex)) && DistinctUIDs(Kept(ItemsOf(c.ingresses), ex))
    && DistinctUIDs(Kept(ItemsOf(c.hpas), ex)) && DistinctUIDs(Kept(ItemsOf(c.pdbs), ex))
    && (var ws := WorkloadsOf(c, ex); forall i, j | 0 <= i < j < |ws| :: ws[i].uid != ws[j].uid)
  }

  // --- the index ---

  lemma NNInjective(ns: string, name: string, ns2: string, name2: string)
    requires NN(ns, name) == NN(ns2, name2) && '/' !in ns && '/' !in ns2
    ensures ns == ns2 && name == name2
  {
    CutFirst(ns, name, ns2, name2, '/');
  }

  /** The index never invents: every entry is the UID of an object with that key. */
  lemma {:induction false} IndexSound(objs: seq<Object>, key: string)
    requires key in Index(objs)
    ensures exists o :: o in objs && NN(o.meta.namespace, o.meta.name) == key && o.meta.uid == Index(objs)[key]
  {
    var init, last := objs[..|objs| - 1], objs[|objs| - 1];
    if NN(last.meta.namespace, last.meta.name) == key {
      assert last in objs;
    } else {
      IndexSound(init, key);
      var o :| o in init && NN(o.meta.namespace, o.meta.name) == key && o.meta.uid == Index(init)[key];
      assert o in objs;
    }
  }

  /** With proper names it finds every object. */
  lemma {:induction false} IndexComplete(objs: seq<Object>, o: Object)
    requires ProperNames(objs) && o in objs
    ensures NN(o.meta.namespace, o.meta.name) in Index(objs)
    ensures Index(objs)[NN(o.meta.namespace, o.meta.name)] == o.meta.uid
  {
    var init, last := objs[..|objs| - 1], objs[|objs| - 1];
    var i :| 0 <= i < |objs| && objs[i] == o;
    if i < |init| {
      assert init[i] == o;
      IndexComplete(init, o);
      if NN(last.meta.namespace, last.meta.name) == NN(o.meta.namespace, o.meta.name) {
        NNInjective(last.meta.namespace, last.meta.name, o.meta.namespace, o.meta.name);
      }
    }
  }

  /** Looking a name up in a namespace finds exactly the object of that name there. */
  lemma IndexExact(objs: seq<Object>, ns: string, name: string)
    requires ProperNames(objs) && '/' !in ns
    ensures NN(ns, name) in Index(objs) <==> exists o :: o in objs && o.meta.namespace == ns && o.meta.name == name
    ensures forall o | o in objs && o.meta.namespace == ns && o.meta.name == name ::
              NN(ns, name) in Index(objs) && Index(objs)[NN(ns, name)] == o.meta.uid
  {
    if NN(ns, name) in Index(objs) {
      IndexSound(objs, NN(ns, name));
      var o :| o in objs && NN(o.meta.namespace, o.meta.name) == NN(ns, name);
      NNInjective(o.meta.namespace, o.meta.name, ns, name);
    }
    forall o | o in objs && o.meta.namespace == ns && o.meta.name == name
      ensures NN(ns, name) in Index(objs) && Index(objs)[NN(ns, name)] == o.meta.uid
    {
      IndexComplete(objs, o);
    }
  }

  // --- each loop emits exactly its declared edges ---

  lemma SelectsRowExact(s: Object, ws: seq<WorkloadRef>, r: Relation)
    requires s.shape.Service?
    ensures r in SelectsRow(ws)(SvcRefOf(s)) <==> SelectedBy(s, ws, r)
  {
    var cell := SelectsCell(SvcRefOf(s));
    FlatMembers(ws, cell);
    if SelectedBy(s, ws, r) {
      var w :| w in ws && r in cell(w);
      var j :| 0 <= j < |ws| && ws[j] == w;
    }
  }

  lemma SelectsExact(services: seq<Object>, ws: seq<WorkloadRef>, r: Relation)
    requires forall s | s in services :: s.shape.Service?
    ensures r in Flat(SvcRefs(services), SelectsRow(ws)) <==> DeclaredSelects(services, ws, r)
  {
    var refs, row := SvcRefs(services), SelectsRow(ws);
    FlatMembers(refs, row);
    forall i | 0 <= i < |refs| ensures r in row(refs[i]) <==> SelectedBy(services[i], ws, r) {
      assert services[i] in services;
      SelectsRowExact(services[i], ws, r);
    }
    if r in Flat(refs, row) {
      var i :| 0 <= i < |refs| && r in row(refs[i]);
      assert services[i] in services;
    }
    if s :| s in services && SelectedBy(s, ws, r) {
      var i :| 0 <= i < |services| && services[i] == s;
      assert r in row(refs[i]);
    }
  }

  lemma ScaledRowExact(h: Object, ws: seq<WorkloadRef>, r: Relation)
    requires h.shape.HPA?
    ensures r in ScaledRow(ws)(HpaRefOf(h)) <==> ScaledBy(h, ws, r)
  {
    var cell := ScaledCell(HpaRefOf(h));
    FlatMembers(ws, cell);
    if ScaledBy(h, ws, r) {
      var w :| w in ws && r in cell(w);
      var j :| 0 <= j < |ws| && ws[j] == w;
    }
  }

  lemma ScaledExact(hpas: seq<Object>, ws: seq<WorkloadRef>, r: Relation)
    requires forall h | h in hpas :: h.shape.HPA?
    ensures r in Flat(HpaRefs(hpas), ScaledRow(ws)) <==> DeclaredScaled(hpas, ws, r)
  {
    var refs, row := HpaRefs(hpas), ScaledRow(ws);
    FlatMembers(refs, row);
    forall i | 0 <= i < |refs| ensures r in row(refs[i]) <==> ScaledBy(hpas[i], ws, r) {
      assert hpas[i] in hpas;
      ScaledRowExact(hpas[i], ws, r);
    }
    if r in Flat(refs, row) {
      var i :| 0 <= i < |refs| && r in row(refs[i]);
      assert hpas[i] in hpas;
    }
    if h :| h in hpas && ScaledBy(h, ws, r) {
      var i :| 0 <= i < |hpas| && hpas[i] == h;
      assert r in row(refs[i]);
    }
  }

  lemma ProtectedRowExact(p: Object, ws: seq<WorkloadRef>, r: Relation)
    requires p.shape.PDB?
    ensures r in ProtectedRow(ws)(PdbRefOf(p)) <==> ProtectedBy(p, ws, r)
  {
    var cell := ProtectedCell(PdbRefOf(p));
    FlatMembers(ws, cell);
    if ProtectedBy(p, ws, r) {
      var w :| w in ws && r in cell(w);
      var j :| 0 <= j < |ws| && ws[j] == w;
    }
  }

  lemma ProtectedExact(pdbs: seq<Object>, ws: seq<WorkloadRef>, r: Relation)
    requires forall p | p in pdbs :: p.shape.PDB?
    ensures r in Flat(PdbRefs(pdbs), ProtectedRow(ws)) <==> DeclaredProtected(pdbs, ws, r)
  {
    var refs, row := PdbRefs(pdbs), ProtectedRow(ws);
    FlatMembers(refs, row);
    forall i | 0 <= i < |refs| ensures r in row(refs[i]) <==> ProtectedBy(pdbs[i], ws, r) {
      assert pdbs[i] in pdbs;
      ProtectedRowExact(pdbs[i], ws, r);
    }
    if r in Flat(refs, row) {
      var i :| 0 <= i < |refs| && r in row(refs[i]);
      assert pdbs[i] in pdbs;
    }
    if p :| p in pdbs && ProtectedBy(p, ws, r) {
      var i :| 0 <= i < |pdbs| && pdbs[i] == p;
      assert r in row(refs[i]);
    }
  }

  /** The relations from one source to the objects its names resolve to. */
  lemma NamedExact(names: seq<string>, uid: string, ns: string, objs: seq<Object>, kind: string, r: Relation)
    requires ProperNames(objs) && '/' !in ns
    ensures r in Flat(names, NamedCell(uid, ns, Index(objs), kind)) <==> Names(names, uid, ns, objs, kind, r)
  {
    var cell := NamedCell(uid, ns, Index(objs), kind);
    FlatMembers(names, cell);
    if r in Flat(names, cell) {
      var i :| 0 <= i < |names| && r in cell(names[i]);
      IndexExact(objs, ns, names[i]);
      var o :| o in objs && o.meta.namespace == ns && o.meta.name == names[i];
      assert o.meta.name in names;
    }
    if o :| o in objs && o.meta.namespace == ns && o.meta.name in names && r == Rel(uid, o.meta.uid, kind) {
      var i :| 0 <= i < |names| && names[i] == o.meta.name;
      IndexExact(objs, ns, names[i]);
      assert r in cell(names[i]);
    }
  }

  lemma RouteRowExact(g: Object, services: seq<Object>, r: Relation)
    requires g.shape.Ingress? && '/' !in g.meta.namespace && ProperNames(services)
    ensures r in RoutesRow(Index(services))(IngRefOf(g)) <==> RouteOf(g, services, r)
  {
    var ref := IngRefOf(g);
    NamedExact(ref.backends, ref.uid, ref.namespace, services, "routes_to", r);
    assert forall n :: n in ref.backends <==> n in Backends(g.shape) && n != "";
  }

  lemma RoutesExact(ingresses: seq<Object>, services: seq<Object>, r: Relation)
    requires forall g | g in ingresses :: g.shape.Ingress? && '/' !in g.meta.namespace
    requires ProperNames(services)
    ensures r in Flat(IngRefs(ingresses), RoutesRow(Index(services))) <==> DeclaredRoutes(ingresses, services, r)
  {
    var refs, row := IngRefs(ingresses), RoutesRow(Index(services));
    FlatMembers(refs, row);
    forall i | 0 <= i < |refs| ensures r in row(refs[i]) <==> RouteOf(ingresses[i], services, r) {
      assert ingresses[i] in ingresses;
      RouteRowExact(ingresses[i], services, r);
    }
    if r in Flat(refs, row) {
      var i :| 0 <= i < |refs| && r in row(refs[i]);
      assert ingresses[i] in ingresses;
    }
    if g :| g in ingresses && RouteOf(g, services, r) {
      var i :| 0 <= i < |ingresses| && ingresses[i] == g;
      assert r in row(refs[i]);
    }
  }

  /** One of the names of w, of either kind, makes the edge. */
  ghost predicate UsedBy(w: WorkloadRef, configMaps: seq<Object>, secrets: seq<Object>, r: Relation) {
    || Names(w.cmRefs, w.uid, w.namespace, configMaps, "uses_config", r)
    || Names(w.secretRefs, w.uid, w.namespace, secrets, "uses_secret", r)
  }

  lemma UsesRowExact(w: WorkloadRef, configMaps: seq<Object>, secrets: seq<Object>, r: Relation)
    requires '/' !in w.namespace && ProperNames(configMaps) && ProperNames(secrets)
    ensures r in UsesRow(Index(configMaps), Index(secrets))(w) <==> UsedBy(w, configMaps, secrets, r)
  {
    NamedExact(w.cmRefs, w.uid, w.namespace, configMaps, "uses_config", r);
    NamedExact(w.secretRefs, w.uid, w.namespace, secrets, "uses_secret", r);
  }

  lemma UsedByDeclared(ws: seq<WorkloadRef>, configMaps: seq<Object>, secrets: seq<Object>, r: Relation)
    ensures (exists w :: w in ws && UsedBy(w, configMaps, secrets, r)) <==>
            DeclaredUses(ws, configMaps, false, "uses_config", r) || DeclaredUses(ws, secrets, true, "uses_secret", r)
  {
    if DeclaredUses(ws, configMaps, false, "uses_config", r) {
      var w :| w in ws && Names(w.cmRefs, w.uid, w.namespace, configMaps, "uses_config", r);
      assert UsedBy(w, configMaps, secrets, r);
    }
    if DeclaredUses(ws, secrets, true, "uses_secret", r) {
      var w :| w in ws && Names(w.secretRefs, w.uid, w.namespace, secrets, "uses_secret", r);
      assert UsedBy(w, configMaps, secrets, r);
    }
  }

  lemma UsesExact(ws: seq<WorkloadRef>, configMaps: seq<Object>, secrets: seq<Object>, r: Relation)
    requires forall w | w in ws :: '/' !in w.namespace
    requires ProperNames(configMaps) && ProperNames(secrets)
    ensures r in Flat(ws, UsesRow(Index(configMaps), Index(secrets))) <==>
            DeclaredUses(ws, configMaps, false, "uses_config", r) || DeclaredUses(ws, secrets, true, "uses_secret", r)
  {
    var row := UsesRow(Index(configMaps), Index(secrets));
    forall w | w in ws ensures r in row(w) <==> UsedBy(w, configMaps, secrets, r) {
      UsesRowExact(w, configMaps, secrets, r);
    }
    FlatExact(ws, row, r, w => UsedBy(w, configMaps, secrets, r));
    UsedByDeclared(ws, configMaps, secrets, r);
  }

  /** resolveEdges emits exactly the declared relation, whatever lists failed. */
  lemma EdgesByRefs(c: Cluster, ex: set<string>, r: Relation)
    requires Proper(c, ex)
    ensures r in Discovered(c, ex).relations <==> DeclaredByRefs(c, ex, r)
  {
    var ws := WorkloadsOf(c, ex);
    SelectsExact(Kept(ItemsOf(c.services), ex), ws, r);
    RoutesExact(Kept(ItemsOf(c.ingresses), ex), Kept(ItemsOf(c.services), ex), r);
    ScaledExact(Kept(ItemsOf(c.hpas), ex), ws, r);
    ProtectedExact(Kept(ItemsOf(c.pdbs), ex), ws, r);
    UsesExact(ws, Kept(ItemsOf(c.configMaps), ex), Kept(ItemsOf(c.secrets), ex), r);
  }

  // --- no dangling edges ---

  /** There is a Kubernetes asset with this id in this namespace, which is not an excluded one. */
  ghost predicate AssetAt(assets: seq<Asset>, ex: set<string>, id: string, ns: string) {
    ns !in ex && exists a :: a in assets && a.provider == KUBERNETES && a.externalID == id && a.namespace == ns
  }

  ghost predicate AllAt(assets: seq<Asset>, ex: set<string>, objs: seq<Object>) {
    forall o | o in objs :: AssetAt(assets, ex, o.meta.uid, o.meta.namespace)
  }

  ghost predicate RefsAt(assets: seq<Asset>, ex: set<string>, ws: seq<WorkloadRef>) {
    forall w | w in ws :: AssetAt(assets, ex, w.uid, w.namespace)
  }

  lemma AssetsForAt(kind: string, objs: seq<Object>, ex: set<string>, assets: seq<Asset>)
    requires forall a | a in AssetsFor(kind, Kept(objs, ex)) :: a in assets
    ensures AllAt(assets, ex, Kept(objs, ex))
  {
    var kept := Kept(objs, ex);
    forall o | o in kept ensures AssetAt(assets, ex, o.meta.uid, o.meta.namespace) {
      var i :| 0 <= i < |kept| && kept[i] == o;
      assert AssetsFor(kind, kept)[i] == AssetFor(kind, o);
    }
  }

  lemma WorkloadRefsAt(kind: string, objs: seq<Object>, ex: set<string>, assets: seq<Asset>)
    requires forall o | o in objs :: o.shape.Workload?
    requires forall a | a in AssetsFor(WorkloadKind(kind), Kept(objs, ex)) :: a in assets
    ensures RefsAt(assets, ex, WorkloadRefs(kind, Kept(objs, ex)))
    ensures forall w | w in WorkloadRefs(kind, Kept(objs, ex)) :: NoDup(w.cmRefs) && NoDup(w.secretRefs)
  {
    var kept := Kept(objs, ex);
    AssetsForAt(WorkloadKind(kind), objs, ex, assets);
    forall w | w in WorkloadRefs(kind, kept)
      ensures AssetAt(assets, ex, w.uid, w.namespace) && NoDup(w.cmRefs) && NoDup(w.secretRefs)
    {
      var i :| 0 <= i < |kept| && WorkloadRefs(kind, kept)[i] == w;
      assert kept[i] in kept;
    }
  }

  /** Every workload that edges are computed from is an asset, and names each reference once. */
  lemma WorkloadsAt(c: Cluster, ex: set<string>)
    ensures RefsAt(WorkloadAssets(c, ex), ex, WorkloadsOf(c, ex))
    ensures forall w | w in WorkloadsOf(c, ex) :: NoDup(w.cmRefs) && NoDup(w.secretRefs)
  {
    var assets := WorkloadAssets(c, ex);
    WorkloadRefsAt("Deployment", ItemsOf(c.deployments), ex, assets);
    WorkloadRefsAt("StatefulSet", ItemsOf(c.statefulSets), ex, assets);
    WorkloadRefsAt("DaemonSet", ItemsOf(c.daemonSets), ex, assets);
    WorkloadRefsAt("CronJob", ItemsOf(c.cronJobs), ex, assets);
  }

  lemma IndexedAt(c: Cluster, ex: set<string>)
    ensures AllAt(IndexedAssets(c, ex), ex, Kept(ItemsOf(c.services), ex))
    ensures AllAt(IndexedAssets(c, ex), ex, Kept(ItemsOf(c.configMaps), ex))
    ensures AllAt(IndexedAssets(c, ex), ex, Kept(ItemsOf(c.secrets), ex))
  {
    var assets := IndexedAssets(c, ex);
    AssetsForAt("service", ItemsOf(c.services), ex, assets);
    AssetsForAt("configmap", ItemsOf(c.configMaps), ex, assets);
    AssetsForAt("secret", ItemsOf(c.secrets), ex, assets);
  }

  lemma OthersAt(c: Cluster, ex: set<string>)
    ensures AllAt(OtherAssets(c, ex), ex, Kept(ItemsOf(c.ingresses), ex))
    ensures AllAt(OtherAssets(c, ex), ex, Kept(ItemsOf(c.hpas), ex))
    ensures AllAt(OtherAssets(c, ex), ex, Kept(ItemsOf(c.pdbs), ex))
  {
    var assets := OtherAssets(c, ex);
    AssetsForAt("ingress", ItemsOf(c.ingresses), ex, assets);
    AssetsForAt("hpa", ItemsOf(c.hpas), ex, assets);
    AssetsForAt("poddisruptionbudget", ItemsOf(c.pdbs), ex, assets);
  }

  lemma AtMonotone(a: seq<Asset>, b: seq<Asset>, ex: set<string>, objs: seq<Object>)
    requires AllAt(a, ex, objs) && forall x | x in a :: x in b
    ensures AllAt(b, ex, objs)
  {
  }

  /** Every object that an edge can touch is an asset of the sweep. */
  lemma EndsAt(c: Cluster, ex: set<string>)
    ensures var assets := AssetsOf(c, ex);
            && RefsAt(assets, ex, WorkloadsOf(c, ex))
            && AllAt(assets, ex, Kept(ItemsOf(c.services), ex)) && AllAt(assets, ex, Kept(ItemsOf(c.configMaps), ex))
            && AllAt(assets, ex, Kept(ItemsOf(c.secrets), ex)) && AllAt(assets, ex, Kept(ItemsOf(c.ingresses), ex))
            && AllAt(assets, ex, Kept(ItemsOf(c.hpas), ex)) && AllAt(assets, ex, Kept(ItemsOf(c.pdbs), ex))
  {
    var assets, i, w, o := AssetsOf(c, ex), IndexedAssets(c, ex), WorkloadAssets(c, ex), OtherAssets(c, ex);
    IndexedAt(c, ex);
    WorkloadsAt(c, ex);
    OthersAt(c, ex);
    AtMonotone(i, assets, ex, Kept(ItemsOf(c.services), ex));
    AtMonotone(i, assets, ex, Kept(ItemsOf(c.configMaps), ex));
    AtMonotone(i, assets, ex, Kept(ItemsOf(c.secrets), ex));
    AtMonotone(o, assets, ex, Kept(ItemsOf(c.ingresses), ex));
    AtMonotone(o, assets, ex, Kept(ItemsOf(c.hpas), ex));
    AtMonotone(o, assets, ex, Kept(ItemsOf(c.pdbs), ex));
  }

  /** Both ends are assets, in one and the same namespace. */
  ghost predicate WithinNamespace(assets: seq<Asset>, ex: set<string>, r: Relation) {
    && r.sourceProvider == KUBERNETES && r.targetProvider == KUBERNETES
    && exists ns :: AssetAt(assets, ex, r.source, ns) && AssetAt(assets, ex, r.target, ns)
  }

  /** Both ends are assets. */
  ghost predicate Grounded(assets: seq<Asset>, ex: set<string>, r: Relation) {
    && r.sourceProvider == KUBERNETES && r.targetProvider == KUBERNETES
    && (exists ns :: AssetAt(assets, ex, r.source, ns)) && exists ns :: AssetAt(assets, ex, r.target, ns)
  }

  lemma SelectsEnds(assets: seq<Asset>, ex: set<string>, services: seq<Object>, ws: seq<WorkloadRef>, r: Relation)
    requires AllAt(assets, ex, services) && RefsAt(assets, ex, ws) && DeclaredSelects(services, ws, r)
    ensures WithinNamespace(assets, ex, r)
  {
    var s :| s in services && SelectedBy(s, ws, r);
    var w :| w in ws && w.namespace == s.meta.namespace && r == Rel(s.meta.uid, w.uid, "selects");
    assert AssetAt(assets, ex, w.uid, w.namespace);
  }

  lemma ScaledEnds(assets: seq<Asset>, ex: set<string>, hpas: seq<Object>, ws: seq<WorkloadRef>, r: Relation)
    requires AllAt(assets, ex, hpas) && RefsAt(assets, ex, ws) && DeclaredScaled(hpas, ws, r)
    ensures WithinNamespace(assets, ex, r)
  {
    var h :| h in hpas && ScaledBy(h, ws, r);
    var w :| w in ws && w.namespace == h.meta.namespace && r == Rel(w.uid, h.meta.uid, "scaled_by");
    assert AssetAt(assets, ex, w.uid, w.namespace);
  }

  lemma ProtectedEnds(assets: seq<Asset>, ex: set<string>, pdbs: seq<Object>, ws: seq<WorkloadRef>, r: Relation)
    requires AllAt(assets, ex, pdbs) && RefsAt(assets, ex, ws) && DeclaredProtected(pdbs, ws, r)
    ensures WithinNamespace(assets, ex, r)
  {
    var p :| p in pdbs && ProtectedBy(p, ws, r);
    var w :| w in ws && w.namespace == p.meta.namespace && r == Rel(w.uid, p.meta.uid, "protected_by");
    assert AssetAt(assets, ex, w.uid, w.namespace);
  }

  lemma RoutesEnds(assets: seq<Asset>, ex: set<string>, ingresses: seq<Object>, services: seq<Object>, r: Relation)
    requires AllAt(assets, ex, ingresses) && AllAt(assets, ex, services) && DeclaredRoutes(ingresses, services, r)
    ensures WithinNamespace(assets, ex, r)
  {
    var g :| g in ingresses && RouteOf(g, services, r);
    var s :| s in services && s.meta.namespace == g.meta.namespace && r == Rel(g.meta.uid, s.meta.uid, "routes_to");
    assert AssetAt(assets, ex, s.meta.uid, s.meta.namespace);
  }

  lemma UsesEnds(assets: seq<Asset>, ex: set<string>, ws: seq<WorkloadRef>, objs: seq<Object>, secrets: bool,
                 kind: string, r: Relation)
    requires AllAt(assets, ex, objs) && RefsAt(assets, ex, ws) && DeclaredUses(ws, objs, secrets, kind, r)
    ensures WithinNamespace(assets, ex, r)
  {
    var w :| w in ws && Names(if secrets then w.secretRefs else w.cmRefs, w.uid, w.namespace, objs, kind, r);
    var o :| o in objs && o.meta.namespace == w.namespace
             && o.meta.name in (if secrets then w.secretRefs else w.cmRefs) && r == Rel(w.uid, o.meta.uid, kind);
    assert AssetAt(assets, ex, o.meta.uid, o.meta.namespace);
  }

  /** With proper names, both ends of every edge are assets of one and the same namespace. */
  lemma EdgesWithinNamespace(c: Cluster, ex: set<string>)
    requires Proper(c, ex)
    ensures forall r | r in Discovered(c, ex).relations :: WithinNamespace(Discovered(c, ex).assets, ex, r)
  {
    EndsAt(c, ex);
    DeclaredEnds(AssetsOf(c, ex), c, ex);
    forall r | r in Discovered(c, ex).relations ensures WithinNamespace(AssetsOf(c, ex), ex, r) {
      EdgesByRefs(c, ex, r);
    }
  }

  lemma DeclaredEnds(assets: seq<Asset>, c: Cluster, ex: set<string>)
    requires RefsAt(assets, ex, WorkloadsOf(c, ex))
    requires AllAt(assets, ex, Kept(ItemsOf(c.services), ex)) && AllAt(assets, ex, Kept(ItemsOf(c.configMaps), ex))
    requires AllAt(assets, ex, Kept(ItemsOf(c.secrets), ex)) && AllAt(assets, ex, Kept(ItemsOf(c.ingresses), ex))
    requires AllAt(assets, ex, Kept(ItemsOf(c.hpas), ex)) && AllAt(assets, ex, Kept(ItemsOf(c.pdbs), ex))
    ensures forall r | DeclaredByRefs(c, ex, r) :: WithinNamespace(assets, ex, r)
  {
    var ws, services := WorkloadsOf(c, ex), Kept(ItemsOf(c.services), ex);
    forall r | DeclaredByRefs(c, ex, r) ensures WithinNamespace(assets, ex, r) {
      if DeclaredSelects(services, ws, r) {
        SelectsEnds(assets, ex, services, ws, r);
      } else if DeclaredRoutes(Kept(ItemsOf(c.ingresses), ex), services, r) {
        RoutesEnds(assets, ex, Kept(ItemsOf(c.ingresses), ex), services, r);
      } else if DeclaredScaled(Kept(ItemsOf(c.hpas), ex), ws, r) {
        ScaledEnds(assets, ex, Kept(ItemsOf(c.hpas), ex), ws, r);
      } else if DeclaredProtected(Kept(ItemsOf(c.pdbs), ex), ws, r) {
        ProtectedEnds(assets, ex, Kept(ItemsOf(c.pdbs), ex), ws, r);
      } else if DeclaredUses(ws, Kept(ItemsOf(c.configMaps), ex), false, "uses_config", r) {
        UsesEnds(assets, ex, ws, Kept(ItemsOf(c.configMaps), ex), false, "uses_config", r);
      } else {
        UsesEnds(assets, ex, ws, Kept(ItemsOf(c.secrets), ex), true, "uses_secret", r);
      }
    }
  }

  lemma NamedGrounded(assets: seq<Asset>, ex: set<string>, names: seq<string>, uid: string, ns: string,
                      objs: seq<Object>, kind: string, r: Relation)
    requires r in Flat(names, NamedCell(uid, ns, Index(objs), kind)) && AllAt(assets, ex, objs)
    ensures r == Rel(uid, r.target, kind) && exists n :: AssetAt(assets, ex, r.target, n)
  {
    var cell := NamedCell(uid, ns, Index(objs), kind);
    FlatMembers(names, cell);
    var i :| 0 <= i < |names| && r in cell(names[i]);
    IndexSound(objs, NN(ns, names[i]));
  }

  lemma RoutesGrounded(assets: seq<Asset>, ex: set<string>, ingresses: seq<Object>, services: seq<Object>, r: Relation)
    requires forall g | g in ingresses :: g.shape.Ingress?
    requires AllAt(assets, ex, ingresses) && AllAt(assets, ex, services)
    requires r in Flat(IngRefs(ingresses), RoutesRow(Index(services)))
    ensures Grounded(assets, ex, r)
  {
    var refs, row := IngRefs(ingresses), RoutesRow(Index(services));
    FlatMembers(refs, row);
    var i :| 0 <= i < |refs| && r in row(refs[i]);
    assert ingresses[i] in ingresses;
    assert AssetAt(assets, ex, ingresses[i].meta.uid, ingresses[i].meta.namespace);
    NamedGrounded(assets, ex, refs[i].backends, refs[i].uid, refs[i].namespace, services, "routes_to", r);
  }

  lemma UsesGrounded(assets: seq<Asset>, ex: set<string>, ws: seq<WorkloadRef>, configMaps: seq<Object>,
                     secrets: seq<Object>, r: Relation)
    requires RefsAt(assets, ex, ws) && AllAt(assets, ex, configMaps) && AllAt(assets, ex, secrets)
    requires r in Flat(ws, UsesRow(Index(configMaps), Index(secrets)))
    ensures Grounded(assets, ex, r)
  {
    var row := UsesRow(Index(configMaps), Index(secrets));
    FlatMembers(ws, row);
    var i :| 0 <= i < |ws| && r in row(ws[i]);
    var w := ws[i];
    assert w in ws && AssetAt(assets, ex, w.uid, w.namespace);
    if r in Flat(w.cmRefs, NamedCell(w.uid, w.namespace, Index(configMaps), "uses_config")) {
      NamedGrounded(assets, ex, w.cmRefs, w.uid, w.namespace, configMaps, "uses_config", r);
    } else {
      NamedGrounded(assets, ex, w.secretRefs, w.uid, w.namespace, secrets, "uses_secret", r);
    }
  }

  /** Whatever lists fail and however objects are named, no edge of the sweep dangles. */
  lemma NoDanglingEdges(c: Cluster, ex: set<string>)
    ensures forall r | r in Discovered(c, ex).relations :: Grounded(Discovered(c, ex).assets, ex, r)
  {
    EndsAt(c, ex);
    forall r | r in Discovered(c, ex).relations ensures Grounded(AssetsOf(c, ex), ex, r) {
      EdgesGrounded(AssetsOf(c, ex), c, ex, r);
    }
  }

  lemma EdgesGrounded(assets: seq<Asset>, c: Cluster, ex: set<string>, r: Relation)
    requires RefsAt(assets, ex, WorkloadsOf(c, ex))
    requires AllAt(assets, ex, Kept(ItemsOf(c.services), ex)) && AllAt(assets, ex, Kept(ItemsOf(c.configMaps), ex))
    requires AllAt(assets, ex, Kept(ItemsOf(c.secrets), ex)) && AllAt(assets, ex, Kept(ItemsOf(c.ingresses), ex))
    requires AllAt(assets, ex, Kept(ItemsOf(c.hpas), ex)) && AllAt(assets, ex, Kept(ItemsOf(c.pdbs), ex))
    requires r in Edges(InventoryOf(c, ex))
    ensures Grounded(assets, ex, r)
  {
    var ws, services := WorkloadsOf(c, ex), Kept(ItemsOf(c.services), ex);
    var hpas, pdbs, ingresses := Kept(ItemsOf(c.hpas), ex), Kept(ItemsOf(c.pdbs), ex), Kept(ItemsOf(c.ingresses), ex);
    if r in Flat(SvcRefs(services), SelectsRow(ws)) {
      SelectsExact(services, ws, r);
      SelectsEnds(assets, ex, services, ws, r);
    } else if r in Flat(HpaRefs(hpas), ScaledRow(ws)) {
      ScaledExact(hpas, ws, r);
      ScaledEnds(assets, ex, hpas, ws, r);
    } else if r in Flat(PdbRefs(pdbs), ProtectedRow(ws)) {
      ProtectedExact(pdbs, ws, r);
      ProtectedEnds(assets, ex, pdbs, ws, r);
    } else if r in Flat(IngRefs(ingresses), RoutesRow(Index(services))) {
      RoutesGrounded(assets, ex, ingresses, services, r);
    } else {
      UsesGrounded(assets, ex, ws, Kept(ItemsOf(c.configMaps), ex), Kept(ItemsOf(c.secrets), ex), r);
    }
  }

  // --- no repeated edges ---

  /** Joining two lists of distinct ids gives distinct relations. */
  lemma {:induction false} IndexDistinctUIDs(objs: seq<Object>, k1: string, k2: string)
    requires DistinctUIDs(objs) && k1 in Index(objs) && k2 in Index(objs) && Index(objs)[k1] == Index(objs)[k2]
    ensures k1 == k2
  {
    IndexSound(objs, k1);
    IndexSound(objs, k2);
    var a :| a in objs && NN(a.meta.namespace, a.meta.name) == k1 && a.meta.uid == Index(objs)[k1];
    var b :| b in objs && NN(b.meta.namespace, b.meta.name) == k2 && b.meta.uid == Index(objs)[k2];
    var i :| 0 <= i < |objs| && objs[i] == a;
    var j :| 0 <= j < |objs| && objs[j] == b;
    assert i == j || i < j || j < i;
  }

  lemma NamedNoDup(names: seq<string>, uid: string, ns: string, objs: seq<Object>, kind: string)
    requires NoDup(names) && DistinctUIDs(objs)
    ensures NoDup(Flat(names, NamedCell(uid, ns, Index(objs), kind)))
  {
    var cell := NamedCell(uid, ns, Index(objs), kind);
    forall i, j, r | 0 <= i < j < |names| && r in cell(names[i]) ensures r !in cell(names[j]) {
      assert NN(ns, names[i])[|ns| + 1..] == names[i] && NN(ns, names[j])[|ns| + 1..] == names[j];
      if r in cell(names[j]) {
        IndexDistinctUIDs(objs, NN(ns, names[i]), NN(ns, names[j]));
      }
    }
    FlatNoDup(names, cell);
  }

  lemma NamedSource(names: seq<string>, uid: string, ns: string, index: map<string, string>, kind: string)
    ensures forall r | r in Flat(names, NamedCell(uid, ns, index, kind)) :: r.source == uid && r.kind == kind
  {
    FlatMembers(names, NamedCell(uid, ns, index, kind));
  }

  predicate DistinctRefs(ws: seq<WorkloadRef>) {
    forall i, j | 0 <= i < j < |ws| :: ws[i].uid != ws[j].uid
  }

  lemma SelectsNoDup(services: seq<Object>, ws: seq<WorkloadRef>)
    requires (forall s | s in services :: s.shape.Service?) && DistinctUIDs(services) && DistinctRefs(ws)
    ensures NoDup(Flat(SvcRefs(services), SelectsRow(ws)))
    ensures forall r | r in Flat(SvcRefs(services), SelectsRow(ws)) :: r.kind == "selects"
  {
    var refs, row := SvcRefs(services), SelectsRow(ws);
    forall i | 0 <= i < |refs|
      ensures NoDup(row(refs[i]))
      ensures forall r | r in row(refs[i]) :: r.source == refs[i].uid && r.kind == "selects"
    {
      FlatNoDup(ws, SelectsCell(refs[i]));
      FlatMembers(ws, SelectsCell(refs[i]));
    }
    FlatNoDup(refs, row);
    FlatMembers(refs, row);
  }

  lemma ScaledNoDup(hpas: seq<Object>, ws: seq<WorkloadRef>)
    requires (forall h | h in hpas :: h.shape.HPA?) && DistinctUIDs(hpas) && DistinctRefs(ws)
    ensures NoDup(Flat(HpaRefs(hpas), ScaledRow(ws)))
    ensures forall r | r in Flat(HpaRefs(hpas), ScaledRow(ws)) :: r.kind == "scaled_by"
  {
    var refs, row := HpaRefs(hpas), ScaledRow(ws);
    forall i | 0 <= i < |refs|
      ensures NoDup(row(refs[i]))
      ensures forall r | r in row(refs[i]) :: r.target == refs[i].uid && r.kind == "scaled_by"
    {
      FlatNoDup(ws, ScaledCell(refs[i]));
      FlatMembers(ws, ScaledCell(refs[i]));
    }
    FlatNoDup(refs, row);
    FlatMembers(refs, row);
  }

  lemma ProtectedNoDup(pdbs: seq<Object>, ws: seq<WorkloadRef>)
    requires (forall p | p in pdbs :: p.shape.PDB?) && DistinctUIDs(pdbs) && DistinctRefs(ws)
    ensures NoDup(Flat(PdbRefs(pdbs), ProtectedRow(ws)))
    ensures forall r | r in Flat(PdbRefs(pdbs), ProtectedRow(ws)) :: r.kind == "protected_by"
  {
    var refs, row := PdbRefs(pdbs), ProtectedRow(ws);
    forall i | 0 <= i < |refs|
      ensures NoDup(row(refs[i]))
      ensures forall r | r in row(refs[i]) :: r.target == refs[i].uid && r.kind == "protected_by"
    {
      FlatNoDup(ws, ProtectedCell(refs[i]));
      FlatMembers(ws, ProtectedCell(refs[i]));
    }
    FlatNoDup(refs, row);
    FlatMembers(refs, row);
  }

  lemma RoutesNoDup(ingresses: seq<Object>, services: seq<Object>)
    requires (forall g | g in ingresses :: g.shape.Ingress?) && DistinctUIDs(ingresses) && DistinctUIDs(services)
    ensures NoDup(Flat(IngRefs(ingresses), RoutesRow(Index(services))))
    ensures forall r | r in Flat(IngRefs(ingresses), RoutesRow(Index(services))) :: r.kind == "routes_to"
  {
    var refs, row := IngRefs(ingresses), RoutesRow(Index(services));
    forall i | 0 <= i < |refs|
      ensures NoDup(row(refs[i]))
      ensures forall r | r in row(refs[i]) :: r.source == refs[i].uid && r.kind == "routes_to"
    {
      NamedNoDup(refs[i].backends, refs[i].uid, refs[i].namespace, services, "routes_to");
      NamedSource(refs[i].backends, refs[i].uid, refs[i].namespace, Index(services), "routes_to");
    }
    FlatNoDup(refs, row);
    FlatMembers(refs, row);
  }

  lemma UsesRowNoDup(w: WorkloadRef, configMaps: seq<Object>, secrets: seq<Object>)
    requires DistinctUIDs(configMaps) && DistinctUIDs(secrets) && NoDup(w.cmRefs) && NoDup(w.secretRefs)
    ensures var row := UsesRow(Index(configMaps), Index(secrets));
            && NoDup(row(w))
            && forall r | r in row(w) :: r.source == w.uid && (r.kind == "uses_config" || r.kind == "uses_secret")
  {
    NamedNoDup(w.cmRefs, w.uid, w.namespace, configMaps, "uses_config");
    NamedNoDup(w.secretRefs, w.uid, w.namespace, secrets, "uses_secret");
    NamedSource(w.cmRefs, w.uid, w.namespace, Index(configMaps), "uses_config");
    NamedSource(w.secretRefs, w.uid, w.namespace, Index(secrets), "uses_secret");
    assert "uses_config"[5] != "uses_secret"[5];
    NoDupConcat(Flat(w.cmRefs, NamedCell(w.uid, w.namespace, Index(configMaps), "uses_config")),
                Flat(w.secretRefs, NamedCell(w.uid, w.namespace, Index(secrets), "uses_secret")));
  }

  lemma UsesNoDup(ws: seq<WorkloadRef>, configMaps: seq<Object>, secrets: seq<Object>)
    requires DistinctRefs(ws) && DistinctUIDs(configMaps) && DistinctUIDs(secrets)
    requires forall w | w in ws :: NoDup(w.cmRefs) && NoDup(w.secretRefs)
    ensures NoDup(Flat(ws, UsesRow(Index(configMaps), Index(secrets))))
    ensures forall r | r in Flat(ws, UsesRow(Index(configMaps), Index(secrets))) ::
              r.kind == "uses_config" || r.kind == "uses_secret"
  {
    var row := UsesRow(Index(configMaps), Index(secrets));
    forall i | 0 <= i < |ws|
      ensures NoDup(row(ws[i]))
      ensures forall r | r in row(ws[i]) ::
                r.source == ws[i].uid && (r.kind == "uses_config" || r.kind == "uses_secret")
    {
      UsesRowNoDup(ws[i], configMaps, secrets);
    }
    FlatNoDup(ws, row);
    FlatMembers(ws, row);
  }

  /** Relations of different kinds are different. */
  lemma NoDupByKind(a: seq<Relation>, b: seq<Relation>)
    requires NoDup(a) && NoDup(b) && forall r, q | r in a && q in b :: r.kind != q.kind
    ensures NoDup(a + b)
  {
    NoDupConcat(a, b);
  }

  lemma NoDupFive(e1: seq<Relation>, e2: seq<Relation>, e3: seq<Relation>, e4: seq<Relation>, e5: seq<Relation>)
    requires NoDup(e1) && NoDup(e2) && NoDup(e3) && NoDup(e4) && NoDup(e5)
    requires forall r | r in e1 :: r.kind == "selects"
    requires forall r | r in e2 :: r.kind == "routes_to"
    requires forall r | r in e3 :: r.kind == "scaled_by"
    requires forall r | r in e4 :: r.kind == "protected_by"
    requires forall r | r in e5 :: r.kind == "uses_config" || r.kind == "uses_secret"
    ensures NoDup(e1 + e2 + e3 + e4 + e5)
  {
    assert "routes_to"[0] != "scaled_by"[0];
    NoDupByKind(e1, e2);
    NoDupByKind(e1 + e2, e3);
    NoDupByKind(e1 + e2 + e3, e4);
    NoDupByKind(e1 + e2 + e3 + e4, e5);
  }

  /** With unique UIDs no relation is emitted twice, across all six loops. */
  lemma NoRepeatedEdges(c: Cluster, ex: set<string>)
    requires UniqueUIDs(c, ex)
    ensures NoDup(Discovered(c, ex).relations)
  {
    var ws, services := WorkloadsOf(c, ex), Kept(ItemsOf(c.services), ex);
    var ingresses, hpas, pdbs := Kept(ItemsOf(c.ingresses), ex), Kept(ItemsOf(c.hpas), ex), Kept(ItemsOf(c.pdbs), ex);
    var configMaps, secrets := Kept(ItemsOf(c.configMaps), ex), Kept(ItemsOf(c.secrets), ex);
    WorkloadsAt(c, ex);
    SelectsNoDup(services, ws);
    RoutesNoDup(ingresses, services);
    ScaledNoDup(hpas, ws);
    ProtectedNoDup(pdbs, ws);
    UsesNoDup(ws, configMaps, secrets);
    NoDupFive(Flat(SvcRefs(services), SelectsRow(ws)), Flat(IngRefs(ingresses), RoutesRow(Index(services))),
              Flat(HpaRefs(hpas), ScaledRow(ws)), Flat(PdbRefs(pdbs), ProtectedRow(ws)),
              Flat(ws, UsesRow(Index(configMaps), Index(secrets))));
  }

  // --- selectors ---

  predicate Included(selector: map<string, string>, labels: map<string, string>) {
    selector != map[] && forall k | k in selector :: k in labels && labels[k] == selector[k]
  }

  /** The selector test is label inclusion exactly for selectors that ask for no empty value. */
  lemma SubsetIsInclusionIff(selector: map<string, string>)
    ensures (forall labels :: LabelsSubset(selector, labels) <==> Included(selector, labels)) <==>
            forall k | k in selector :: selector[k] != ""
  {
    if k :| k in selector && selector[k] == "" {
      var labels := selector - {k};
      assert LabelsSubset(selector, labels) && !Included(selector, labels);
    }
  }

  // --- status ---

  /** One of the twelve listings failed. */
  predicate SomeListFailed(c: Cluster) {
    || c.namespaces.Unlisted? || c.configMaps.Unlisted? || c.secrets.Unlisted? || c.services.Unlisted?
    || c.deployments.Unlisted? || c.statefulSets.Unlisted? || c.daemonSets.Unlisted? || c.cronJobs.Unlisted?
    || c.ingresses.Unlisted? || c.hpas.Unlisted? || c.pdbs.Unlisted? || c.networkPolicies.Unlisted?
  }

  /** The status is partial exactly when some list failed. */
  lemma PartialIff(c: Cluster, ex: set<string>)
    ensures Discovered(c, ex).status.state == if SomeListFailed(c) then Partial else OK
  {
  }

  predicate Outside(assets: seq<Asset>, ex: set<string>) {
    forall a | a in assets ::
      a.provider == KUBERNETES && (a.namespace !in ex || (a.kind == "namespace" && a.name !in ex))
  }

  lemma KeptOutside(kind: string, objs: seq<Object>, ex: set<string>)
    ensures Outside(AssetsFor(kind, Kept(objs, ex)), ex)
  {
    var kept := Kept(objs, ex);
    forall a | a in AssetsFor(kind, kept) ensures a.provider == KUBERNETES && a.namespace !in ex {
      var i :| 0 <= i < |kept| && AssetsFor(kind, kept)[i] == a;
      assert kept[i] in kept;
    }
  }

  lemma NamespacesOutside(objs: seq<Object>, ex: set<string>)
    ensures Outside(AssetsFor("namespace", KeptNamespaces(objs, ex)), ex)
  {
    var kept := KeptNamespaces(objs, ex);
    forall a | a in AssetsFor("namespace", kept)
      ensures a.provider == KUBERNETES && a.kind == "namespace" && a.name !in ex
    {
      var i :| 0 <= i < |kept| && AssetsFor("namespace", kept)[i] == a;
      assert kept[i] in kept;
    }
  }

  /** No asset comes from an excluded namespace, and no excluded namespace is an asset. */
  lemma NothingExcluded(c: Cluster, ex: set<string>)
    ensures Outside(Discovered(c, ex).assets, ex)
  {
    NamespacesOutside(ItemsOf(c.namespaces), ex);
    KeptOutside("configmap", ItemsOf(c.configMaps), ex);
    KeptOutside("secret", ItemsOf(c.secrets), ex);
    KeptOutside("service", ItemsOf(c.services), ex);
    assert Outside(IndexedAssets(c, ex), ex);
    KeptOutside(WorkloadKind("Deployment"), ItemsOf(c.deployments), ex);
    KeptOutside(WorkloadKind("StatefulSet"), ItemsOf(c.statefulSets), ex);
    KeptOutside(WorkloadKind("DaemonSet"), ItemsOf(c.daemonSets), ex);
    KeptOutside(WorkloadKind("CronJob"), ItemsOf(c.cronJobs), ex);
    assert Outside(WorkloadAssets(c, ex), ex);
    KeptOutside("ingress", ItemsOf(c.ingresses), ex);
    KeptOutside("hpa", ItemsOf(c.hpas), ex);
    KeptOutside("poddisruptionbudget", ItemsOf(c.pdbs), ex);
    KeptOutside("networkpolicy", ItemsOf(c.networkPolicies), ex);
    assert Outside(OtherAssets(c, ex), ex);
  }
}
