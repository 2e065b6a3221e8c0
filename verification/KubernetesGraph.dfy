/**
 The Kubernetes topology: what the twelve listings keep, and the edges between it
 (src/internal/discovery/kubernetes/builder.go and provider.go), as values.
 */
module KubernetesGraph {
  import opened Wrappers
  import opened Discovery

  const USTAG := "tags.datadoghq.com/service"

  // --- cluster objects ---

  datatype Meta = Meta(uid: string, name: string, namespace: string, labels: map<string, string>)

  datatype EnvFrom = EnvFrom(configMap: Option<string>, secret: Option<string>)
  datatype EnvVar = EnvVar(configMap: Option<string>, secret: Option<string>)
  datatype Container = Container(envFrom: seq<EnvFrom>, env: seq<EnvVar>)
  datatype Volume = Volume(configMap: Option<string>, secret: Option<string>)
  datatype PodSpec = PodSpec(initContainers: seq<Container>, containers: seq<Container>, volumes: seq<Volume>)

  /**
   An ingress names the service of its default backend, if any, and has rules; a rule without HTTP has no paths, and a
   path may lead to something other than a service.
   */
  datatype Shape =
    | Plain
    | Service(selector: map<string, string>)
    | Workload(templateLabels: map<string, string>, pod: PodSpec)
    | Ingress(defaultBackend: Option<string>, rules: seq<Option<seq<Option<string>>>>)
    | HPA(targetKind: string, targetName: string)
    | PDB(pdbSelector: map<string, string>)

  datatype Object = Object(meta: Meta, shape: Shape)

  const NO_META := Meta("", "", "", map[])
  type ServiceObj = o: Object | o.shape.Service? witness Object(NO_META, Service(map[]))
  type WorkloadObj = o: Object | o.shape.Workload? witness Object(NO_META, Workload(map[], PodSpec([], [], [])))
  type IngressObj = o: Object | o.shape.Ingress? witness Object(NO_META, Ingress(None, []))
  type HPAObj = o: Object | o.shape.HPA? witness Object(NO_META, HPA("", ""))
  type PDBObj = o: Object | o.shape.PDB? witness Object(NO_META, PDB(map[]))

  /** The answer to one List call. */
  datatype Listing<+T> = Unlisted(error: string) | Items(items: seq<T>)

  function ItemsOf<T>(l: Listing<T>): seq<T> {
    if l.Items? then l.items else []
  }

  datatype Cluster = Cluster(
    namespaces: Listing<Object>, configMaps: Listing<Object>, secrets: Listing<Object>, services: Listing<ServiceObj>,
    deployments: Listing<WorkloadObj>, statefulSets: Listing<WorkloadObj>, daemonSets: Listing<WorkloadObj>,
    cronJobs: Listing<WorkloadObj>, ingresses: Listing<IngressObj>, hpas: Listing<HPAObj>, pdbs: Listing<PDBObj>,
    networkPolicies: Listing<Object>)

  // --- what a listing keeps ---

  /** The objects outside the excluded namespaces. */
  function Kept(objs: seq<Object>, excluded: set<string>): (r: seq<Object>)
    ensures forall o :: o in r <==> o in objs && o.meta.namespace !in excluded
  {
    if objs == [] then []
    else
      var last := objs[|objs| - 1];
      Kept(objs[..|objs| - 1], excluded) + if last.meta.namespace in excluded then [] else [last]
  }

  /** Namespaces themselves are excluded by name. */
  function KeptNamespaces(objs: seq<Object>, excluded: set<string>): (r: seq<Object>)
    ensures forall o :: o in r <==> o in objs && o.meta.name !in excluded
  {
    if objs == [] then []
    else
      var last := objs[|objs| - 1];
      KeptNamespaces(objs[..|objs| - 1], excluded) + if last.meta.name in excluded then [] else [last]
  }

  function NN(namespace: string, name: string): string { namespace + "/" + name }

  /** The name-to-UID index; a later object of the same key replaces an earlier one. */
  function Index(objs: seq<Object>): map<string, string> {
    if objs == [] then map[]
    else
      var m := objs[|objs| - 1].meta;
      Index(objs[..|objs| - 1])[NN(m.namespace, m.name) := m.uid]
  }

  /** ustagService: the workload's own label, else the pod template's. */
  function UstagService(labels: map<string, string>, templateLabels: map<string, string>): string {
    if Get(labels, USTAG) != "" then Get(labels, USTAG) else Get(templateLabels, USTAG)
  }

  function WorkloadKind(kind: string): string {
    match kind
    case "Deployment" => "deployment"
    case "StatefulSet" => "statefulset"
    case "DaemonSet" => "daemonset"
    case "CronJob" => "cronjob"
    case _ => kind
  }

  function AssetFor(kind: string, o: Object): Asset {
    var dd := if o.shape.Workload? then UstagService(o.meta.labels, o.shape.templateLabels) else "";
    Asset(o.meta.uid, KUBERNETES, kind, o.meta.name, o.meta.namespace, o.meta.labels, dd)
  }

  function AssetsFor(kind: string, objs: seq<Object>): (r: seq<Asset>)
    ensures |r| == |objs| && forall i | 0 <= i < |objs| :: r[i] == AssetFor(kind, objs[i])
  {
    if objs == [] then [] else AssetsFor(kind, objs[..|objs| - 1]) + [AssetFor(kind, objs[|objs| - 1])]
  }

  // --- pod references ---

  function OptName(o: Option<string>): seq<string> {
    if o.Some? then [o.value] else []
  }

  function EnvFromNames(es: seq<EnvFrom>, secrets: bool): seq<string> {
    if es == [] then []
    else
      EnvFromNames(es[..|es| - 1], secrets)
      + OptName(if secrets then es[|es| - 1].secret else es[|es| - 1].configMap)
  }

  function EnvNames(es: seq<EnvVar>, secrets: bool): seq<string> {
    if es == [] then []
    else EnvNames(es[..|es| - 1], secrets) + OptName(if secrets then es[|es| - 1].secret else es[|es| - 1].configMap)
  }

  function ContainerNames(cs: seq<Container>, secrets: bool): seq<string> {
    if cs == [] then []
    else
      var c := cs[|cs| - 1];
      ContainerNames(cs[..|cs| - 1], secrets) + EnvFromNames(c.envFrom, secrets) + EnvNames(c.env, secrets)
  }

  function VolumeNames(vs: seq<Volume>, secrets: bool): seq<string> {
    if vs == [] then []
    else VolumeNames(vs[..|vs| - 1], secrets) + OptName(if secrets then vs[|vs| - 1].secret else vs[|vs| - 1].configMap)
  }

  /** The ConfigMap (or Secret) names of a pod, init containers first, with repetitions. */
  function PodNames(pod: PodSpec, secrets: bool): seq<string> {
    ContainerNames(pod.initContainers + pod.containers, secrets) + VolumeNames(pod.volumes, secrets)
  }

  /** dedupe: the first occurrence of each name that is not empty. */
  function Dedupe(names: seq<string>): (r: seq<string>)
    ensures NoDup(r)
    ensures forall n :: n in r <==> n in names && n != ""
  {
    if names == [] then []
    else
      var init, last := names[..|names| - 1], names[|names| - 1];
      if last == "" || last in init then Dedupe(init) else Dedupe(init) + [last]
  }

  /** x occurs in s, first at position p. */
  predicate FirstAt(s: seq<string>, p: int, x: string) {
    0 <= p < |s| && s[p] == x && forall q | 0 <= q < p :: s[q] != x
  }

  lemma FirstAtInit(s: seq<string>, n: nat, p: int, x: string)
    requires n <= |s| && x in s[..n] && FirstAt(s, p, x)
    ensures p < n && FirstAt(s[..n], p, x)
  {
    var k :| 0 <= k < n && s[..n][k] == x;
    assert s[k] == x;
  }

  /** Names come in the order of their first occurrences. */
  lemma {:induction false} DedupeInOrder(names: seq<string>, i: nat, j: nat, p: int, q: int)
    requires i < j < |Dedupe(names)| && FirstAt(names, p, Dedupe(names)[i]) && FirstAt(names, q, Dedupe(names)[j])
    ensures p < q
  {
    var n := |names| - 1;
    var init := names[..n];
    assert forall k | 0 <= k < n :: names[k] in init;
    var r := Dedupe(init);
    assert r[i] in r && r[i] == Dedupe(names)[i];
    FirstAtInit(names, n, p, r[i]);
    if j < |r| {
      assert r[j] in r && r[j] == Dedupe(names)[j];
      FirstAtInit(names, n, q, r[j]);
      DedupeInOrder(init, i, j, p, q);
    }
  }

  // --- the inventory the edges are computed from ---

  datatype WorkloadRef = WorkloadRef(uid: string, namespace: string, name: string, kind: string,
                                     templateLabels: map<string, string>, cmRefs: seq<string>, secretRefs: seq<string>)
  datatype SvcRef = SvcRef(uid: string, namespace: string, selector: map<string, string>)
  datatype IngRef = IngRef(uid: string, namespace: string, backends: seq<string>)
  datatype HpaRef = HpaRef(uid: string, namespace: string, targetKind: string, targetName: string)
  datatype PdbRef = PdbRef(uid: string, namespace: string, selector: map<string, string>)

  datatype Inventory = Inventory(
    workloads: seq<WorkloadRef>, services: seq<SvcRef>, ingresses: seq<IngRef>, hpas: seq<HpaRef>, pdbs: seq<PdbRef>,
    serviceUID: map<string, string>, configMapUID: map<string, string>, secretUID: map<string, string>)

  function PathBackends(paths: seq<Option<string>>): seq<string> {
    if paths == [] then [] else PathBackends(paths[..|paths| - 1]) + OptName(paths[|paths| - 1])
  }

  function RuleBackends(rules: seq<Option<seq<Option<string>>>>): seq<string> {
    if rules == [] then []
    else
      var last := rules[|rules| - 1];
      RuleBackends(rules[..|rules| - 1]) + if last.Some? then PathBackends(last.value) else []
  }

  /** The services an ingress leads to, the default one first, with repetitions. */
  function Backends(s: Shape): seq<string> {
    if s.Ingress? then OptName(s.defaultBackend) + RuleBackends(s.rules) else []
  }

  function WorkloadRefOf(kind: string, o: Object): WorkloadRef {
    var labels := if o.shape.Workload? then o.shape.templateLabels else map[];
    var pod := if o.shape.Workload? then o.shape.pod else PodSpec([], [], []);
    WorkloadRef(o.meta.uid, o.meta.namespace, o.meta.name, kind, labels,
                Dedupe(PodNames(pod, false)), Dedupe(PodNames(pod, true)))
  }

  function SvcRefOf(o: Object): SvcRef {
    SvcRef(o.meta.uid, o.meta.namespace, if o.shape.Service? then o.shape.selector else map[])
  }

  function IngRefOf(o: Object): IngRef {
    IngRef(o.meta.uid, o.meta.namespace, Dedupe(Backends(o.shape)))
  }

  function HpaRefOf(o: Object): HpaRef {
    HpaRef(o.meta.uid, o.meta.namespace, if o.shape.HPA? then o.shape.targetKind else "",
           if o.shape.HPA? then o.shape.targetName else "")
  }

  function PdbRefOf(o: Object): PdbRef {
    PdbRef(o.meta.uid, o.meta.namespace, if o.shape.PDB? then o.shape.pdbSelector else map[])
  }

  function WorkloadRefs(kind: string, objs: seq<Object>): (r: seq<WorkloadRef>)
    ensures |r| == |objs| && forall i | 0 <= i < |objs| :: r[i] == WorkloadRefOf(kind, objs[i])
  {
    if objs == [] then [] else WorkloadRefs(kind, objs[..|objs| - 1]) + [WorkloadRefOf(kind, objs[|objs| - 1])]
  }

  function SvcRefs(objs: seq<Object>): (r: seq<SvcRef>)
    ensures |r| == |objs| && forall i | 0 <= i < |objs| :: r[i] == SvcRefOf(objs[i])
  {
    if objs == [] then [] else SvcRefs(objs[..|objs| - 1]) + [SvcRefOf(objs[|objs| - 1])]
  }

  function IngRefs(objs: seq<Object>): (r: seq<IngRef>)
    ensures |r| == |objs| && forall i | 0 <= i < |objs| :: r[i] == IngRefOf(objs[i])
  {
    if objs == [] then [] else IngRefs(objs[..|objs| - 1]) + [IngRefOf(objs[|objs| - 1])]
  }

  function HpaRefs(objs: seq<Object>): (r: seq<HpaRef>)
    ensures |r| == |objs| && forall i | 0 <= i < |objs| :: r[i] == HpaRefOf(objs[i])
  {
    if objs == [] then [] else HpaRefs(objs[..|objs| - 1]) + [HpaRefOf(objs[|objs| - 1])]
  }

  function PdbRefs(objs: seq<Object>): (r: seq<PdbRef>)
    ensures |r| == |objs| && forall i | 0 <= i < |objs| :: r[i] == PdbRefOf(objs[i])
  {
    if objs == [] then [] else PdbRefs(objs[..|objs| - 1]) + [PdbRefOf(objs[|objs| - 1])]
  }

  // --- the edges ---

  /** labelsSubset: an empty selector selects nothing, and a missing label reads as "". */
  predicate LabelsSubset(selector: map<string, string>, labels: map<string, string>) {
    selector != map[] && forall k | k in selector :: Get(labels, k) == selector[k]
  }

  predicate Selects(namespace: string, selector: map<string, string>, w: WorkloadRef) {
    w.namespace == namespace && LabelsSubset(selector, w.templateLabels)
  }

  predicate Scales(h: HpaRef, w: WorkloadRef) {
    w.namespace == h.namespace && w.kind == h.targetKind && w.name == h.targetName
  }

  function Rel(source: string, target: string, kind: string): Relation {
    Relation(source, KUBERNETES, target, KUBERNETES, kind)
  }

  function SelectsCell(s: SvcRef): WorkloadRef -> seq<Relation> {
    (w: WorkloadRef) => if Selects(s.namespace, s.selector, w) then [Rel(s.uid, w.uid, "selects")] else []
  }

  function SelectsRow(ws: seq<WorkloadRef>): SvcRef -> seq<Relation> {
    (s: SvcRef) => Flat(ws, SelectsCell(s))
  }

  /** The relation to the object that a name resolves to in the source's namespace. */
  function NamedCell(uid: string, namespace: string, index: map<string, string>, kind: string)
    : string -> seq<Relation>
  {
    (n: string) => if NN(namespace, n) in index then [Rel(uid, index[NN(namespace, n)], kind)] else []
  }

  function RoutesRow(index: map<string, string>): IngRef -> seq<Relation> {
    (i: IngRef) => Flat(i.backends, NamedCell(i.uid, i.namespace, index, "routes_to"))
  }

  function ScaledCell(h: HpaRef): WorkloadRef -> seq<Relation> {
    (w: WorkloadRef) => if Scales(h, w) then [Rel(w.uid, h.uid, "scaled_by")] else []
  }

  function ScaledRow(ws: seq<WorkloadRef>): HpaRef -> seq<Relation> {
    (h: HpaRef) => Flat(ws, ScaledCell(h))
  }

  function ProtectedCell(p: PdbRef): WorkloadRef -> seq<Relation> {
    (w: WorkloadRef) => if Selects(p.namespace, p.selector, w) then [Rel(w.uid, p.uid, "protected_by")] else []
  }

  function ProtectedRow(ws: seq<WorkloadRef>): PdbRef -> seq<Relation> {
    (p: PdbRef) => Flat(ws, ProtectedCell(p))
  }

  function UsesRow(configMaps: map<string, string>, secrets: map<string, string>): WorkloadRef -> seq<Relation> {
    (w: WorkloadRef) =>
      Flat(w.cmRefs, NamedCell(w.uid, w.namespace, configMaps, "uses_config"))
      + Flat(w.secretRefs, NamedCell(w.uid, w.namespace, secrets, "uses_secret"))
  }

  /** The six loops of resolveEdges, the last two in one pass over the workloads. */
  function Edges(v: Inventory): seq<Relation> {
    Flat(v.services, SelectsRow(v.workloads))
    + Flat(v.ingresses, RoutesRow(v.serviceUID))
    + Flat(v.hpas, ScaledRow(v.workloads))
    + Flat(v.pdbs, ProtectedRow(v.workloads))
    + Flat(v.workloads, UsesRow(v.configMapUID, v.secretUID))
  }

  // --- the whole sweep ---

  function WorkloadsOf(c: Cluster, excluded: set<string>): seq<WorkloadRef> {
    WorkloadRefs("Deployment", Kept(ItemsOf(c.deployments), excluded))
    + WorkloadRefs("StatefulSet", Kept(ItemsOf(c.statefulSets), excluded))
    + WorkloadRefs("DaemonSet", Kept(ItemsOf(c.daemonSets), excluded))
    + WorkloadRefs("CronJob", Kept(ItemsOf(c.cronJobs), excluded))
  }

  function InventoryOf(c: Cluster, excluded: set<string>): Inventory {
    Inventory(
      WorkloadsOf(c, excluded),
      SvcRefs(Kept(ItemsOf(c.services), excluded)),
      IngRefs(Kept(ItemsOf(c.ingresses), excluded)),
      HpaRefs(Kept(ItemsOf(c.hpas), excluded)),
      PdbRefs(Kept(ItemsOf(c.pdbs), excluded)),
      Index(Kept(ItemsOf(c.services), excluded)),
      Index(Kept(ItemsOf(c.configMaps), excluded)),
      Index(Kept(ItemsOf(c.secrets), excluded)))
  }

  function IndexedAssets(c: Cluster, excluded: set<string>): seq<Asset> {
    AssetsFor("namespace", KeptNamespaces(ItemsOf(c.namespaces), excluded))
    + AssetsFor("configmap", Kept(ItemsOf(c.configMaps), excluded))
    + AssetsFor("secret", Kept(ItemsOf(c.secrets), excluded))
    + AssetsFor("service", Kept(ItemsOf(c.services), excluded))
  }

  function WorkloadAssets(c: Cluster, excluded: set<string>): seq<Asset> {
    AssetsFor(WorkloadKind("Deployment"), Kept(ItemsOf(c.deployments), excluded))
    + AssetsFor(WorkloadKind("StatefulSet"), Kept(ItemsOf(c.statefulSets), excluded))
    + AssetsFor(WorkloadKind("DaemonSet"), Kept(ItemsOf(c.daemonSets), excluded))
    + AssetsFor(WorkloadKind("CronJob"), Kept(ItemsOf(c.cronJobs), excluded))
  }

  function OtherAssets(c: Cluster, excluded: set<string>): seq<Asset> {
    AssetsFor("ingress", Kept(ItemsOf(c.ingresses), excluded))
    + AssetsFor("hpa", Kept(ItemsOf(c.hpas), excluded))
    + AssetsFor("poddisruptionbudget", Kept(ItemsOf(c.pdbs), excluded))
    + AssetsFor("networkpolicy", Kept(ItemsOf(c.networkPolicies), excluded))
  }

  function AssetsOf(c: Cluster, excluded: set<string>): seq<Asset> {
    IndexedAssets(c, excluded) + WorkloadAssets(c, excluded) + OtherAssets(c, excluded)
  }

  function ListError<T>(resource: string, l: Listing<T>): seq<string> {
    if l.Unlisted? then ["list " + resource + ": " + l.error] else []
  }

  function IndexedErrors(c: Cluster): seq<string> {
    ListError("namespaces", c.namespaces) + ListError("configmaps", c.configMaps) + ListError("secrets", c.secrets)
    + ListError("services", c.services)
  }

  function WorkloadErrors(c: Cluster): seq<string> {
    ListError("deployments", c.deployments) + ListError("statefulsets", c.statefulSets)
    + ListError("daemonsets", c.daemonSets) + ListError("cronjobs", c.cronJobs)
  }

  function OtherErrors(c: Cluster): seq<string> {
    ListError("ingresses", c.ingresses) + ListError("hpas", c.hpas)
    + ListError("poddisruptionbudgets", c.pdbs) + ListError("networkpolicies", c.networkPolicies)
  }

  function ListErrors(c: Cluster): seq<string> {
    IndexedErrors(c) + WorkloadErrors(c) + OtherErrors(c)
  }

  function Discovered(c: Cluster, excluded: set<string>): Subgraph {
    Subgraph(AssetsOf(c, excluded), Edges(InventoryOf(c, excluded)), SweepStatus(ListErrors(c)))
  }
}
