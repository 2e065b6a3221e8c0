/**
 What a Kubernetes sweep finds, read off the listed objects themselves
 (src/internal/discovery/kubernetes/builder.go and provider.go).
 */
module KubernetesContract {
  import opened Wrappers
  import opened Discovery
  import opened KubernetesGraph
  import opened KubernetesEdges

  // --- what is listed ---

  /** The object was listed, outside the excluded namespaces. */
  predicate Present(l: Listing<Object>, ex: set<string>, o: Object) {
    l.Items? && o in l.items && o.meta.namespace !in ex
  }

  /** A workload of one of the four kinds. */
  predicate WorkloadPresent(c: Cluster, ex: set<string>, kind: string, o: Object) {
    && o.shape.Workload?
    && ((kind == "Deployment" && Present(c.deployments, ex, o))
        || (kind == "StatefulSet" && Present(c.statefulSets, ex, o))
        || (kind == "DaemonSet" && Present(c.daemonSets, ex, o))
        || (kind == "CronJob" && Present(c.cronJobs, ex, o)))
  }

  // --- what a pod refers to ---

  predicate Either(secret: bool, configMapName: Option<string>, secretName: Option<string>, n: string) {
    if secret then secretName == Some(n) else configMapName == Some(n)
  }

  /** A container gets the whole object, or one of its keys, into its environment. */
  predicate ContainerUses(k: Container, secret: bool, n: string) {
    || (exists e :: e in k.envFrom && Either(secret, e.configMap, e.secret, n))
    || (exists e :: e in k.env && Either(secret, e.configMap, e.secret, n))
  }

  /** One of the pod's containers, init containers included, uses the object, or a volume mounts it. */
  predicate PodUses(pod: PodSpec, secret: bool, n: string) {
    || (exists k :: k in pod.initContainers && ContainerUses(k, secret, n))
    || (exists k :: k in pod.containers && ContainerUses(k, secret, n))
    || (exists v :: v in pod.volumes && Either(secret, v.configMap, v.secret, n))
  }

  lemma {:induction false} EnvFromExact(es: seq<EnvFrom>, secret: bool, n: string)
    ensures n in EnvFromNames(es, secret) <==> exists e :: e in es && Either(secret, e.configMap, e.secret, n)
  {
    if es != [] {
      var init, last := es[..|es| - 1], es[|es| - 1];
      EnvFromExact(init, secret, n);
      assert forall e :: e in es <==> e in init || e == last;
    }
  }

  lemma {:induction false} EnvExact(es: seq<EnvVar>, secret: bool, n: string)
    ensures n in EnvNames(es, secret) <==> exists e :: e in es && Either(secret, e.configMap, e.secret, n)
  {
    if es != [] {
      var init, last := es[..|es| - 1], es[|es| - 1];
      EnvExact(init, secret, n);
      assert forall e :: e in es <==> e in init || e == last;
    }
  }

  lemma {:induction false} VolumesExact(vs: seq<Volume>, secret: bool, n: string)
    ensures n in VolumeNames(vs, secret) <==> exists v :: v in vs && Either(secret, v.configMap, v.secret, n)
  {
    if vs != [] {
      var init, last := vs[..|vs| - 1], vs[|vs| - 1];
      VolumesExact(init, secret, n);
      assert forall v :: v in vs <==> v in init || v == last;
    }
  }

  lemma {:induction false} ContainersExact(ks: seq<Container>, secret: bool, n: string)
    ensures n in ContainerNames(ks, secret) <==> exists k :: k in ks && ContainerUses(k, secret, n)
  {
    if ks != [] {
      var init, last := ks[..|ks| - 1], ks[|ks| - 1];
      ContainersExact(init, secret, n);
      EnvFromExact(last.envFrom, secret, n);
      EnvExact(last.env, secret, n);
      assert last in ks;
      if k :| k in init && ContainerUses(k, secret, n) {
        assert k in ks;
      }
      if k :| k in ks && ContainerUses(k, secret, n) {
        assert k in init || k == last;
      }
    }
  }

  /** A name is a reference of a workload exactly when it is not empty and the pod uses it. */
  lemma RefsExact(kind: string, o: Object, n: string)
    requires o.shape.Workload?
    ensures n in WorkloadRefOf(kind, o).cmRefs <==> n != "" && PodUses(o.shape.pod, false, n)
    ensures n in WorkloadRefOf(kind, o).secretRefs <==> n != "" && PodUses(o.shape.pod, true, n)
  {
    PodNamesExact(o.shape.pod, false, n);
    PodNamesExact(o.shape.pod, true, n);
  }

  lemma PodNamesExact(pod: PodSpec, secret: bool, n: string)
    ensures n in PodNames(pod, secret) <==> PodUses(pod, secret, n)
  {
    ContainersExact(pod.initContainers + pod.containers, secret, n);
    VolumesExact(pod.volumes, secret, n);
    assert forall k :: k in pod.initContainers + pod.containers <==> k in pod.initContainers || k in pod.containers;
  }

  // --- where an ingress leads ---

  /** The default backend, or the backend of a path of a rule, is this service. */
  predicate LeadsTo(g: Shape, n: string)
    requires g.Ingress?
  {
    || g.defaultBackend == Some(n)
    || exists rule :: rule in g.rules && rule.Some? && Some(n) in rule.value
  }

  lemma {:induction false} PathsExact(paths: seq<Option<string>>, n: string)
    ensures n in PathBackends(paths) <==> Some(n) in paths
  {
    if paths != [] {
      PathsExact(paths[..|paths| - 1], n);
      assert forall p :: p in paths <==> p in paths[..|paths| - 1] || p == paths[|paths| - 1];
    }
  }

  lemma {:induction false} RulesExact(rules: seq<Option<seq<Option<string>>>>, n: string)
    ensures n in RuleBackends(rules) <==> exists rule :: rule in rules && rule.Some? && Some(n) in rule.value
  {
    if rules != [] {
      var init, last := rules[..|rules| - 1], rules[|rules| - 1];
      RulesExact(init, n);
      if last.Some? {
        PathsExact(last.value, n);
      }
      assert forall rule :: rule in rules <==> rule in init || rule == last;
    }
  }

  lemma BackendsExact(g: Shape, n: string)
    requires g.Ingress?
    ensures n in Backends(g) <==> LeadsTo(g, n)
  {
    RulesExact(g.rules, n);
  }

  // --- which labels a selector matches ---

  /** Every label asked for is there with its value; one that is not there counts as empty. */
  predicate Matches(selector: map<string, string>, labels: map<string, string>) {
    && (exists k :: k in selector)
    && forall k | k in selector :: (k in labels && labels[k] == selector[k]) || (k !in labels && selector[k] == "")
  }

  lemma MatchesIff(selector: map<string, string>, labels: map<string, string>)
    ensures LabelsSubset(selector, labels) <==> Matches(selector, labels)
  {
  }

  // --- the declared edges ---

  function Edge(source: Object, target: Object, kind: string): Relation {
    Relation(source.meta.uid, "kubernetes", target.meta.uid, "kubernetes", kind)
  }

  predicate Together(a: Object, b: Object) {
    a.meta.namespace == b.meta.namespace
  }

  ghost predicate Selected(c: Cluster, ex: set<string>, r: Relation) {
    exists s, kind, w :: Present(c.services, ex, s) && WorkloadPresent(c, ex, kind, w) && Together(s, w)
                         && Matches(s.shape.selector, w.shape.templateLabels) && r == Edge(s, w, "selects")
  }

  ghost predicate Routed(c: Cluster, ex: set<string>, r: Relation) {
    exists g, s :: Present(c.ingresses, ex, g) && Present(c.services, ex, s) && Together(g, s)
                   && s.meta.name != "" && LeadsTo(g.shape, s.meta.name) && r == Edge(g, s, "routes_to")
  }

  ghost predicate Scaled(c: Cluster, ex: set<string>, r: Relation) {
    exists h, w :: Present(c.hpas, ex, h) && WorkloadPresent(c, ex, h.shape.targetKind, w) && Together(h, w)
                   && h.shape.targetName == w.meta.name && r == Edge(w, h, "scaled_by")
  }

  ghost predicate Protected(c: Cluster, ex: set<string>, r: Relation) {
    exists p, kind, w :: Present(c.pdbs, ex, p) && WorkloadPresent(c, ex, kind, w) && Together(p, w)
                         && Matches(p.shape.pdbSelector, w.shape.templateLabels) && r == Edge(w, p, "protected_by")
  }

  ghost predicate Uses(c: Cluster, ex: set<string>, secret: bool, r: Relation) {
    exists kind, w, o :: WorkloadPresent(c, ex, kind, w) && Together(w, o)
                         && Present(if secret then c.secrets else c.configMaps, ex, o)
                         && o.meta.name != "" && PodUses(w.shape.pod, secret, o.meta.name)
                         && r == Edge(w, o, if secret then "uses_secret" else "uses_config")
  }

  /** The relation between listed objects that the six loops are to find. */
  ghost predicate Declared(c: Cluster, ex: set<string>, r: Relation) {
    || Selected(c, ex, r) || Routed(c, ex, r) || Scaled(c, ex, r) || Protected(c, ex, r)
    || Uses(c, ex, false, r) || Uses(c, ex, true, r)
  }

  // --- from objects to references and back ---

  lemma KindRefs(kind: string, l: Listing<WorkloadObj>, ex: set<string>, w: WorkloadRef)
    ensures w in WorkloadRefs(kind, Kept(ItemsOf(l), ex))
            <==> exists o: Object :: o.shape.Workload? && Present(l, ex, o) && w == WorkloadRefOf(kind, o)
  {
    RefsMembers(kind, Kept(ItemsOf(l), ex), w);
    KeptExact(l, ex);
  }

  lemma RefsMembers(kind: string, objs: seq<Object>, w: WorkloadRef)
    ensures w in WorkloadRefs(kind, objs) <==> exists o :: o in objs && w == WorkloadRefOf(kind, o)
  {
    var refs := WorkloadRefs(kind, objs);
    if w in refs {
      var i :| 0 <= i < |refs| && refs[i] == w;
      assert objs[i] in objs;
    }
    if o :| o in objs && w == WorkloadRefOf(kind, o) {
      var i :| 0 <= i < |objs| && objs[i] == o;
      assert refs[i] == w;
    }
  }

  /** The workloads that edges are computed from are those listed. */
  lemma WorkloadsExact(c: Cluster, ex: set<string>, w: WorkloadRef)
    ensures w in WorkloadsOf(c, ex)
            <==> exists kind, o :: WorkloadPresent(c, ex, kind, o) && w == WorkloadRefOf(kind, o)
  {
    KindRefs("Deployment", c.deployments, ex, w);
    KindRefs("StatefulSet", c.statefulSets, ex, w);
    KindRefs("DaemonSet", c.daemonSets, ex, w);
    KindRefs("CronJob", c.cronJobs, ex, w);
    if w in WorkloadsOf(c, ex) {
      var kind :| kind in {"Deployment", "StatefulSet", "DaemonSet", "CronJob"}
                  && exists o: Object :: WorkloadPresent(c, ex, kind, o) && w == WorkloadRefOf(kind, o);
    }
  }

  /** The reference stands for the object. */
  predicate StandsFor(w: WorkloadRef, kind: string, o: Object) {
    && o.shape.Workload? && w.uid == o.meta.uid && w.namespace == o.meta.namespace && w.name == o.meta.name
    && w.kind == kind && w.templateLabels == o.shape.templateLabels
  }

  /** The reference names what the object's pod uses. */
  ghost predicate NamesUsed(w: WorkloadRef, o: Object) {
    && o.shape.Workload?
    && (forall n :: n in w.cmRefs <==> n != "" && PodUses(o.shape.pod, false, n))
    && (forall n :: n in w.secretRefs <==> n != "" && PodUses(o.shape.pod, true, n))
  }

  ghost predicate HasObject(c: Cluster, ex: set<string>, w: WorkloadRef) {
    exists kind, o :: WorkloadPresent(c, ex, kind, o) && StandsFor(w, kind, o) && NamesUsed(w, o)
  }

  ghost predicate HasRef(ws: seq<WorkloadRef>, kind: string, o: Object) {
    exists w :: w in ws && StandsFor(w, kind, o) && NamesUsed(w, o)
  }

  /** The sequence holds the references of the listed workloads. */
  ghost predicate RefsOf(c: Cluster, ex: set<string>, ws: seq<WorkloadRef>) {
    && (forall w {:trigger HasObject(c, ex, w)} | w in ws :: HasObject(c, ex, w))
    && (forall kind, o {:trigger HasRef(ws, kind, o)} | WorkloadPresent(c, ex, kind, o) :: HasRef(ws, kind, o))
  }

  /** The sequence holds the listed objects. */
  ghost predicate ObjectsOf(l: Listing<Object>, ex: set<string>, objs: seq<Object>) {
    forall o :: o in objs <==> Present(l, ex, o)
  }

  lemma KeptExact(l: Listing<Object>, ex: set<string>)
    ensures ObjectsOf(l, ex, Kept(ItemsOf(l), ex))
  {
  }

  lemma RefStands(kind: string, o: Object)
    requires o.shape.Workload?
    ensures StandsFor(WorkloadRefOf(kind, o), kind, o) && NamesUsed(WorkloadRefOf(kind, o), o)
  {
    forall n
      ensures n in WorkloadRefOf(kind, o).cmRefs <==> n != "" && PodUses(o.shape.pod, false, n)
      ensures n in WorkloadRefOf(kind, o).secretRefs <==> n != "" && PodUses(o.shape.pod, true, n)
    {
      RefsExact(kind, o, n);
    }
  }

  lemma WorkloadsAreRefs(c: Cluster, ex: set<string>)
    ensures RefsOf(c, ex, WorkloadsOf(c, ex))
  {
    var ws := WorkloadsOf(c, ex);
    forall w | w in ws ensures HasObject(c, ex, w) {
      WorkloadsExact(c, ex, w);
      var kind, o :| WorkloadPresent(c, ex, kind, o) && w == WorkloadRefOf(kind, o);
      RefStands(kind, o);
    }
    forall kind, o | WorkloadPresent(c, ex, kind, o) ensures HasRef(ws, kind, o) {
      WorkloadsExact(c, ex, WorkloadRefOf(kind, o));
      RefStands(kind, o);
    }
  }

  lemma ObjectOf(c: Cluster, ex: set<string>, ws: seq<WorkloadRef>, w: WorkloadRef) returns (kind: string, o: Object)
    requires RefsOf(c, ex, ws) && w in ws
    ensures WorkloadPresent(c, ex, kind, o) && StandsFor(w, kind, o) && NamesUsed(w, o)
  {
    assert HasObject(c, ex, w);
    kind, o :| WorkloadPresent(c, ex, kind, o) && StandsFor(w, kind, o) && NamesUsed(w, o);
  }

  lemma RefOf(c: Cluster, ex: set<string>, ws: seq<WorkloadRef>, kind: string, o: Object) returns (w: WorkloadRef)
    requires RefsOf(c, ex, ws) && WorkloadPresent(c, ex, kind, o)
    ensures w in ws && StandsFor(w, kind, o) && NamesUsed(w, o)
  {
    assert HasRef(ws, kind, o);
    w :| w in ws && StandsFor(w, kind, o) && NamesUsed(w, o);
  }

  // --- each kind of edge ---

  lemma SelectedIff(c: Cluster, ex: set<string>, services: seq<Object>, ws: seq<WorkloadRef>, r: Relation)
    requires ObjectsOf(c.services, ex, services) && RefsOf(c, ex, ws)
    ensures DeclaredSelects(services, ws, r) <==> Selected(c, ex, r)
  {
    if DeclaredSelects(services, ws, r) {
      var s :| s in services && SelectedBy(s, ws, r);
      var w :| w in ws && Selects(s.meta.namespace, s.shape.selector, w) && r == Rel(s.meta.uid, w.uid, "selects");
      var kind, o := ObjectOf(c, ex, ws, w);
      MatchesIff(s.shape.selector, w.templateLabels);
      assert Present(c.services, ex, s) && Together(s, o) && r == Edge(s, o, "selects");
    }
    if Selected(c, ex, r) {
      var s, kind, o :| Present(c.services, ex, s) && WorkloadPresent(c, ex, kind, o) && Together(s, o)
                        && Matches(s.shape.selector, o.shape.templateLabels) && r == Edge(s, o, "selects");
      var w := RefOf(c, ex, ws, kind, o);
      MatchesIff(s.shape.selector, o.shape.templateLabels);
      assert SelectedBy(s, ws, r);
    }
  }

  lemma RoutedIff(c: Cluster, ex: set<string>, ingresses: seq<Object>, services: seq<Object>, r: Relation)
    requires ObjectsOf(c.ingresses, ex, ingresses) && ObjectsOf(c.services, ex, services)
    requires forall g | g in ingresses :: g.shape.Ingress?
    ensures DeclaredRoutes(ingresses, services, r) <==> Routed(c, ex, r)
  {
    if DeclaredRoutes(ingresses, services, r) {
      var g :| g in ingresses && RouteOf(g, services, r);
      var s :| s in services && s.meta.namespace == g.meta.namespace && s.meta.name != ""
               && s.meta.name in Backends(g.shape) && r == Rel(g.meta.uid, s.meta.uid, "routes_to");
      BackendsExact(g.shape, s.meta.name);
      assert Present(c.ingresses, ex, g) && Present(c.services, ex, s) && Together(g, s);
      assert r == Edge(g, s, "routes_to");
    }
    if Routed(c, ex, r) {
      var g, s :| Present(c.ingresses, ex, g) && Present(c.services, ex, s) && Together(g, s)
                  && s.meta.name != "" && LeadsTo(g.shape, s.meta.name) && r == Edge(g, s, "routes_to");
      BackendsExact(g.shape, s.meta.name);
      assert RouteOf(g, services, r);
    }
  }

  lemma ScaledIff(c: Cluster, ex: set<string>, hpas: seq<Object>, ws: seq<WorkloadRef>, r: Relation)
    requires ObjectsOf(c.hpas, ex, hpas) && RefsOf(c, ex, ws)
    ensures DeclaredScaled(hpas, ws, r) <==> Scaled(c, ex, r)
  {
    if DeclaredScaled(hpas, ws, r) {
      var h :| h in hpas && ScaledBy(h, ws, r);
      var w :| w in ws && w.namespace == h.meta.namespace && w.kind == h.shape.targetKind
               && w.name == h.shape.targetName && r == Rel(w.uid, h.meta.uid, "scaled_by");
      var kind, o := ObjectOf(c, ex, ws, w);
      assert Present(c.hpas, ex, h) && Together(h, o) && r == Edge(o, h, "scaled_by");
    }
    if Scaled(c, ex, r) {
      var h, o :| Present(c.hpas, ex, h) && WorkloadPresent(c, ex, h.shape.targetKind, o) && Together(h, o)
                  && h.shape.targetName == o.meta.name && r == Edge(o, h, "scaled_by");
      var w := RefOf(c, ex, ws, h.shape.targetKind, o);
      assert ScaledBy(h, ws, r);
    }
  }

  lemma ProtectedIff(c: Cluster, ex: set<string>, pdbs: seq<Object>, ws: seq<WorkloadRef>, r: Relation)
    requires ObjectsOf(c.pdbs, ex, pdbs) && RefsOf(c, ex, ws)
    ensures DeclaredProtected(pdbs, ws, r) <==> Protected(c, ex, r)
  {
    if DeclaredProtected(pdbs, ws, r) {
      var p :| p in pdbs && ProtectedBy(p, ws, r);
      var w :| w in ws && Selects(p.meta.namespace, p.shape.pdbSelector, w)
               && r == Rel(w.uid, p.meta.uid, "protected_by");
      var kind, o := ObjectOf(c, ex, ws, w);
      MatchesIff(p.shape.pdbSelector, w.templateLabels);
      assert Present(c.pdbs, ex, p) && Together(p, o) && r == Edge(o, p, "protected_by");
    }
    if Protected(c, ex, r) {
      var p, kind, o :| Present(c.pdbs, ex, p) && WorkloadPresent(c, ex, kind, o) && Together(p, o)
                        && Matches(p.shape.pdbSelector, o.shape.templateLabels) && r == Edge(o, p, "protected_by");
      var w := RefOf(c, ex, ws, kind, o);
      MatchesIff(p.shape.pdbSelector, o.shape.templateLabels);
      assert ProtectedBy(p, ws, r);
    }
  }

  lemma UsesIff(c: Cluster, ex: set<string>, objs: seq<Object>, ws: seq<WorkloadRef>, secret: bool, r: Relation)
    requires ObjectsOf(if secret then c.secrets else c.configMaps, ex, objs) && RefsOf(c, ex, ws)
    ensures DeclaredUses(ws, objs, secret, if secret then "uses_secret" else "uses_config", r)
            <==> Uses(c, ex, secret, r)
  {
    var l, edge := if secret then c.secrets else c.configMaps, if secret then "uses_secret" else "uses_config";
    if DeclaredUses(ws, objs, secret, edge, r) {
      var w :| w in ws && Names(if secret then w.secretRefs else w.cmRefs, w.uid, w.namespace, objs, edge, r);
      var o :| o in objs && o.meta.namespace == w.namespace
               && o.meta.name in (if secret then w.secretRefs else w.cmRefs) && r == Rel(w.uid, o.meta.uid, edge);
      var kind, x := ObjectOf(c, ex, ws, w);
      assert Present(l, ex, o) && Together(x, o) && r == Edge(x, o, edge);
    }
    if Uses(c, ex, secret, r) {
      var kind, x, o :| WorkloadPresent(c, ex, kind, x) && Together(x, o) && Present(l, ex, o)
                        && o.meta.name != "" && PodUses(x.shape.pod, secret, o.meta.name) && r == Edge(x, o, edge);
      var w := RefOf(c, ex, ws, kind, x);
      assert Names(if secret then w.secretRefs else w.cmRefs, w.uid, w.namespace, objs, edge, r);
    }
  }

  // --- the main result ---

  /** Names are unique in their namespaces where they are looked up, and namespaces contain no slash. */
  ghost predicate ProperCluster(c: Cluster, ex: set<string>) {
    && ProperNames(Kept(ItemsOf(c.services), ex)) && ProperNames(Kept(ItemsOf(c.configMaps), ex))
    && ProperNames(Kept(ItemsOf(c.secrets), ex))
    && (forall g | Present(c.ingresses, ex, g) :: '/' !in g.meta.namespace)
    && (forall kind, w | WorkloadPresent(c, ex, kind, w) :: '/' !in w.meta.namespace)
  }

  lemma ProperIs(c: Cluster, ex: set<string>)
    requires ProperCluster(c, ex)
    ensures Proper(c, ex)
  {
    WorkloadsAreRefs(c, ex);
    KeptExact(c.ingresses, ex);
    forall w | w in WorkloadsOf(c, ex) ensures '/' !in w.namespace {
      var kind, o := ObjectOf(c, ex, WorkloadsOf(c, ex), w);
    }
  }

  lemma ListingsHold(c: Cluster, ex: set<string>)
    ensures RefsOf(c, ex, WorkloadsOf(c, ex))
    ensures ObjectsOf(c.services, ex, Kept(ItemsOf(c.services), ex))
    ensures ObjectsOf(c.ingresses, ex, Kept(ItemsOf(c.ingresses), ex))
    ensures ObjectsOf(c.hpas, ex, Kept(ItemsOf(c.hpas), ex)) && ObjectsOf(c.pdbs, ex, Kept(ItemsOf(c.pdbs), ex))
    ensures ObjectsOf(c.configMaps, ex, Kept(ItemsOf(c.configMaps), ex))
    ensures ObjectsOf(c.secrets, ex, Kept(ItemsOf(c.secrets), ex))
    ensures forall g | g in Kept(ItemsOf(c.ingresses), ex) :: g.shape.Ingress?
  {
    WorkloadsAreRefs(c, ex);
    KeptExact(c.services, ex);
    KeptExact(c.ingresses, ex);
    KeptExact(c.hpas, ex);
    KeptExact(c.pdbs, ex);
    KeptExact(c.configMaps, ex);
    KeptExact(c.secrets, ex);
  }

  /** resolveEdges emits exactly the relation declared between the listed objects, whatever lists failed. */
  lemma EdgesExact(c: Cluster, ex: set<string>, r: Relation)
    requires ProperCluster(c, ex)
    ensures r in Discovered(c, ex).relations <==> Declared(c, ex, r)
  {
    var ws, services := WorkloadsOf(c, ex), Kept(ItemsOf(c.services), ex);
    ProperIs(c, ex);
    EdgesByRefs(c, ex, r);
    ListingsHold(c, ex);
    SelectedIff(c, ex, services, ws, r);
    RoutedIff(c, ex, Kept(ItemsOf(c.ingresses), ex), services, r);
    ScaledIff(c, ex, Kept(ItemsOf(c.hpas), ex), ws, r);
    ProtectedIff(c, ex, Kept(ItemsOf(c.pdbs), ex), ws, r);
    UsesIff(c, ex, Kept(ItemsOf(c.configMaps), ex), ws, false, r);
    UsesIff(c, ex, Kept(ItemsOf(c.secrets), ex), ws, true, r);
  }

  // --- the assets ---

  /** The Datadog service a workload names: its own label, or else its pod template's. */
  predicate NamesService(o: Object, service: string) {
    if !o.shape.Workload? then service == ""
    else if Get(o.meta.labels, "tags.datadoghq.com/service") != "" then
      service == o.meta.labels["tags.datadoghq.com/service"]
    else service == Get(o.shape.templateLabels, "tags.datadoghq.com/service")
  }

  predicate Describes(a: Asset, o: Object, kind: string) {
    && a.externalID == o.meta.uid && a.provider == "kubernetes" && a.kind == kind && a.name == o.meta.name
    && a.namespace == o.meta.namespace && a.tags == o.meta.labels && NamesService(o, a.ddService)
  }

  ghost predicate AssetIn(l: Listing<Object>, ex: set<string>, a: Asset, kind: string) {
    exists o :: Present(l, ex, o) && Describes(a, o, kind)
  }

  ghost predicate NamespaceIn(l: Listing<Object>, ex: set<string>, a: Asset) {
    exists o :: l.Items? && o in l.items && o.meta.name !in ex && Describes(a, o, "namespace")
  }

  lemma AssetsForExact(kind: string, objs: seq<Object>, a: Asset)
    ensures a in AssetsFor(kind, objs) <==> exists o :: o in objs && Describes(a, o, kind)
  {
    if a in AssetsFor(kind, objs) {
      var i :| 0 <= i < |objs| && AssetsFor(kind, objs)[i] == a;
      assert objs[i] in objs && Describes(a, objs[i], kind);
    }
    if o :| o in objs && Describes(a, o, kind) {
      var i :| 0 <= i < |objs| && objs[i] == o;
      assert AssetsFor(kind, objs)[i] == a;
    }
  }

  lemma ListedExact(kind: string, l: Listing<Object>, ex: set<string>, a: Asset)
    ensures a in AssetsFor(kind, Kept(ItemsOf(l), ex)) <==> AssetIn(l, ex, a, kind)
  {
    AssetsForExact(kind, Kept(ItemsOf(l), ex), a);
    if o :| o in Kept(ItemsOf(l), ex) && Describes(a, o, kind) {
      assert Present(l, ex, o);
    }
    if o :| Present(l, ex, o) && Describes(a, o, kind) {
      assert o in Kept(ItemsOf(l), ex);
    }
  }

  lemma NamespacesExact(l: Listing<Object>, ex: set<string>, a: Asset)
    ensures a in AssetsFor("namespace", KeptNamespaces(ItemsOf(l), ex)) <==> NamespaceIn(l, ex, a)
  {
    AssetsForExact("namespace", KeptNamespaces(ItemsOf(l), ex), a);
    if o :| o in KeptNamespaces(ItemsOf(l), ex) && Describes(a, o, "namespace") {
      assert l.Items? && o in l.items && o.meta.name !in ex;
    }
    if o :| l.Items? && o in l.items && o.meta.name !in ex && Describes(a, o, "namespace") {
      assert o in KeptNamespaces(ItemsOf(l), ex);
    }
  }

  lemma IndexedExact(c: Cluster, ex: set<string>, a: Asset)
    ensures a in IndexedAssets(c, ex) <==>
            || NamespaceIn(c.namespaces, ex, a) || AssetIn(c.configMaps, ex, a, "configmap")
            || AssetIn(c.secrets, ex, a, "secret") || AssetIn(c.services, ex, a, "service")
  {
    NamespacesExact(c.namespaces, ex, a);
    ListedExact("configmap", c.configMaps, ex, a);
    ListedExact("secret", c.secrets, ex, a);
    ListedExact("service", c.services, ex, a);
  }

  lemma KindNames()
    ensures WorkloadKind("Deployment") == "deployment" && WorkloadKind("StatefulSet") == "statefulset"
    ensures WorkloadKind("DaemonSet") == "daemonset" && WorkloadKind("CronJob") == "cronjob"
  {
  }

  lemma WorkloadAssetsExact(c: Cluster, ex: set<string>, a: Asset)
    ensures a in WorkloadAssets(c, ex) <==>
            || AssetIn(c.deployments, ex, a, "deployment") || AssetIn(c.statefulSets, ex, a, "statefulset")
            || AssetIn(c.daemonSets, ex, a, "daemonset") || AssetIn(c.cronJobs, ex, a, "cronjob")
  {
    KindNames();
    ListedExact("deployment", c.deployments, ex, a);
    ListedExact("statefulset", c.statefulSets, ex, a);
    ListedExact("daemonset", c.daemonSets, ex, a);
    ListedExact("cronjob", c.cronJobs, ex, a);
  }

  lemma OthersExact(c: Cluster, ex: set<string>, a: Asset)
    ensures a in OtherAssets(c, ex) <==>
            || AssetIn(c.ingresses, ex, a, "ingress") || AssetIn(c.hpas, ex, a, "hpa")
            || AssetIn(c.pdbs, ex, a, "poddisruptionbudget") || AssetIn(c.networkPolicies, ex, a, "networkpolicy")
  {
    ListedExact("ingress", c.ingresses, ex, a);
    ListedExact("hpa", c.hpas, ex, a);
    ListedExact("poddisruptionbudget", c.pdbs, ex, a);
    ListedExact("networkpolicy", c.networkPolicies, ex, a);
  }

  /** The assets are exactly the listed objects outside the excluded namespaces, each under its kind. */
  lemma AssetsExact(c: Cluster, ex: set<string>, a: Asset)
    ensures a in Discovered(c, ex).assets <==>
            || NamespaceIn(c.namespaces, ex, a)
            || AssetIn(c.configMaps, ex, a, "configmap") || AssetIn(c.secrets, ex, a, "secret")
            || AssetIn(c.services, ex, a, "service") || AssetIn(c.deployments, ex, a, "deployment")
            || AssetIn(c.statefulSets, ex, a, "statefulset") || AssetIn(c.daemonSets, ex, a, "daemonset")
            || AssetIn(c.cronJobs, ex, a, "cronjob") || AssetIn(c.ingresses, ex, a, "ingress")
            || AssetIn(c.hpas, ex, a, "hpa") || AssetIn(c.pdbs, ex, a, "poddisruptionbudget")
            || AssetIn(c.networkPolicies, ex, a, "networkpolicy")
  {
    IndexedExact(c, ex, a);
    WorkloadAssetsExact(c, ex, a);
    OthersExact(c, ex, a);
  }

  // --- how many assets there are ---

  lemma {:induction false} KeptCount(objs: seq<Object>, ex: set<string>, o: Object)
    ensures multiset(Kept(objs, ex))[o] == if o.meta.namespace in ex then 0 else multiset(objs)[o]
  {
    if objs != [] {
      var init, last := objs[..|objs| - 1], objs[|objs| - 1];
      KeptCount(init, ex, o);
      assert objs == init + [last];
    }
  }

  lemma {:induction false} NamespacesCount(objs: seq<Object>, ex: set<string>, o: Object)
    ensures multiset(KeptNamespaces(objs, ex))[o] == if o.meta.name in ex then 0 else multiset(objs)[o]
  {
    if objs != [] {
      var init, last := objs[..|objs| - 1], objs[|objs| - 1];
      NamespacesCount(init, ex, o);
      assert objs == init + [last];
    }
  }

  function Number(l: Listing<Object>, ex: set<string>): nat {
    |Kept(ItemsOf(l), ex)|
  }

  lemma IndexedNumber(c: Cluster, ex: set<string>)
    ensures |IndexedAssets(c, ex)|
            == |KeptNamespaces(ItemsOf(c.namespaces), ex)| + Number(c.configMaps, ex) + Number(c.secrets, ex)
               + Number(c.services, ex)
  {
  }

  lemma WorkloadsNumber(c: Cluster, ex: set<string>)
    ensures |WorkloadAssets(c, ex)|
            == Number(c.deployments, ex) + Number(c.statefulSets, ex) + Number(c.daemonSets, ex)
               + Number(c.cronJobs, ex)
  {
  }

  lemma OthersNumber(c: Cluster, ex: set<string>)
    ensures |OtherAssets(c, ex)|
            == Number(c.ingresses, ex) + Number(c.hpas, ex) + Number(c.pdbs, ex) + Number(c.networkPolicies, ex)
  {
  }

  lemma PartsNumber(c: Cluster, ex: set<string>)
    ensures |Discovered(c, ex).assets| == |IndexedAssets(c, ex)| + |WorkloadAssets(c, ex)| + |OtherAssets(c, ex)|
  {
  }

  /** Every listed object outside the excluded namespaces is one asset. */
  lemma AssetsNumber(c: Cluster, ex: set<string>)
    ensures |Discovered(c, ex).assets|
            == |KeptNamespaces(ItemsOf(c.namespaces), ex)| + Number(c.configMaps, ex) + Number(c.secrets, ex)
               + Number(c.services, ex) + Number(c.deployments, ex) + Number(c.statefulSets, ex)
               + Number(c.daemonSets, ex) + Number(c.cronJobs, ex) + Number(c.ingresses, ex) + Number(c.hpas, ex)
               + Number(c.pdbs, ex) + Number(c.networkPolicies, ex)
  {
    IndexedNumber(c, ex);
    WorkloadsNumber(c, ex);
    OthersNumber(c, ex);
    PartsNumber(c, ex);
  }

  // --- the errors ---

  predicate FailedAs(l: Listing<Object>, resource: string, e: string) {
    l.Unlisted? && e == "list " + resource + ": " + l.error
  }

  /** Every failed list is reported under its resource. */
  lemma ErrorsExact(c: Cluster, e: string)
    ensures e in ListErrors(c) <==>
            || FailedAs(c.namespaces, "namespaces", e) || FailedAs(c.configMaps, "configmaps", e)
            || FailedAs(c.secrets, "secrets", e) || FailedAs(c.services, "services", e)
            || FailedAs(c.deployments, "deployments", e) || FailedAs(c.statefulSets, "statefulsets", e)
            || FailedAs(c.daemonSets, "daemonsets", e) || FailedAs(c.cronJobs, "cronjobs", e)
            || FailedAs(c.ingresses, "ingresses", e) || FailedAs(c.hpas, "hpas", e)
            || FailedAs(c.pdbs, "poddisruptionbudgets", e) || FailedAs(c.networkPolicies, "networkpolicies", e)
  {
  }
}
