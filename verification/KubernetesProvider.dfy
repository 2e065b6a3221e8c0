/** The Kubernetes sweep in the form of the source: a builder that the listings and the edge loops fill. */
module KubernetesProvider {
  import opened Wrappers
  import opened Discovery
  import opened KubernetesGraph

  /** dedupe, with its seen map. */
  method DedupeNames(names: seq<string>) returns (out: seq<string>)
    ensures out == Dedupe(names)
  {
    out := [];
    var seen: set<string> := {};
    for i := 0 to |names|
      invariant out == Dedupe(names[..i])
      invariant forall n :: n in seen <==> n in names[..i] && n != ""
    {
      assert names[..i + 1][..i] == names[..i];
      if names[i] == "" || names[i] in seen {
        continue;
      }
      seen := seen + {names[i]};
      out := out + [names[i]];
    }
    assert names[..|names|] == names;
  }

  method EnvFromRefs(es: seq<EnvFrom>) returns (cms: seq<string>, secrets: seq<string>)
    ensures cms == EnvFromNames(es, false) && secrets == EnvFromNames(es, true)
  {
    cms, secrets := [], [];
    for j := 0 to |es|
      invariant cms == EnvFromNames(es[..j], false) && secrets == EnvFromNames(es[..j], true)
    {
      assert es[..j + 1][..j] == es[..j];
      cms := cms + OptName(es[j].configMap);
      secrets := secrets + OptName(es[j].secret);
    }
    assert es[..|es|] == es;
  }

  method EnvRefs(es: seq<EnvVar>) returns (cms: seq<string>, secrets: seq<string>)
    ensures cms == EnvNames(es, false) && secrets == EnvNames(es, true)
  {
    cms, secrets := [], [];
    for j := 0 to |es|
      invariant cms == EnvNames(es[..j], false) && secrets == EnvNames(es[..j], true)
    {
      assert es[..j + 1][..j] == es[..j];
      cms := cms + OptName(es[j].configMap);
      secrets := secrets + OptName(es[j].secret);
    }
    assert es[..|es|] == es;
  }

  method VolumeRefs(vs: seq<Volume>) returns (cms: seq<string>, secrets: seq<string>)
    ensures cms == VolumeNames(vs, false) && secrets == VolumeNames(vs, true)
  {
    cms, secrets := [], [];
    for j := 0 to |vs|
      invariant cms == VolumeNames(vs[..j], false) && secrets == VolumeNames(vs[..j], true)
    {
      assert vs[..j + 1][..j] == vs[..j];
      cms := cms + OptName(vs[j].configMap);
      secrets := secrets + OptName(vs[j].secret);
    }
    assert vs[..|vs|] == vs;
  }

  /** The ConfigMap and Secret names of the containers, gathered side by side. */
  method ContainerRefs(cs: seq<Container>) returns (cms: seq<string>, secrets: seq<string>)
    ensures cms == ContainerNames(cs, false) && secrets == ContainerNames(cs, true)
  {
    cms, secrets := [], [];
    for i := 0 to |cs|
      invariant cms == ContainerNames(cs[..i], false) && secrets == ContainerNames(cs[..i], true)
    {
      assert cs[..i + 1][..i] == cs[..i];
      var fromCMs, fromSecrets := EnvFromRefs(cs[i].envFrom);
      var envCMs, envSecrets := EnvRefs(cs[i].env);
      cms, secrets := cms + fromCMs + envCMs, secrets + fromSecrets + envSecrets;
    }
    assert cs[..|cs|] == cs;
  }

  /** podRefs. */
  method PodRefs(pod: PodSpec) returns (cms: seq<string>, secrets: seq<string>)
    ensures cms == Dedupe(PodNames(pod, false)) && secrets == Dedupe(PodNames(pod, true))
  {
    var containerCMs, containerSecrets := ContainerRefs(pod.initContainers + pod.containers);
    var volumeCMs, volumeSecrets := VolumeRefs(pod.volumes);
    cms := DedupeNames(containerCMs + volumeCMs);
    secrets := DedupeNames(containerSecrets + volumeSecrets);
  }

  /** labelsSubset, visiting the selector in any order. */
  method MatchesLabels(selector: map<string, string>, labels: map<string, string>) returns (ok: bool)
    ensures ok == LabelsSubset(selector, labels)
  {
    if |selector| == 0 {
      return false;
    }
    var keys := selector.Keys;
    while keys != {}
      invariant keys <= selector.Keys
      invariant forall k | k in selector && k !in keys :: Get(labels, k) == selector[k]
      decreases |keys|
    {
      var k :| k in keys;
      if Get(labels, k) != selector[k] {
        return false;
      }
      keys := keys - {k};
    }
    return true;
  }

  /** What the next object adds to the kept ones and their assets. */
  lemma KeptStep(kind: string, items: seq<Object>, i: nat, ex: set<string>)
    requires i < |items|
    ensures Kept(items[..i + 1], ex)
            == Kept(items[..i], ex) + (if items[i].meta.namespace in ex then [] else [items[i]])
    ensures AssetsFor(kind, Kept(items[..i], ex) + [items[i]])
            == AssetsFor(kind, Kept(items[..i], ex)) + [AssetFor(kind, items[i])]
    ensures Index(Kept(items[..i], ex) + [items[i]])
            == Index(Kept(items[..i], ex))[NN(items[i].meta.namespace, items[i].meta.name) := items[i].meta.uid]
  {
    var before := Kept(items[..i], ex);
    assert items[..i + 1][..i] == items[..i];
    assert (before + [items[i]])[..|before|] == before;
    assert AssetsFor(kind, before + [items[i]]) == AssetsFor(kind, before) + [AssetFor(kind, items[i])];
  }

  lemma WorkloadRefsStep(kind: string, kept: seq<Object>, o: Object)
    ensures WorkloadRefs(kind, kept + [o]) == WorkloadRefs(kind, kept) + [WorkloadRefOf(kind, o)]
  {
    assert (kept + [o])[..|kept|] == kept;
  }

  lemma SvcRefsStep(kept: seq<Object>, o: Object)
    ensures SvcRefs(kept + [o]) == SvcRefs(kept) + [SvcRefOf(o)]
  {
    assert (kept + [o])[..|kept|] == kept;
  }

  lemma IngRefsStep(kept: seq<Object>, o: Object)
    ensures IngRefs(kept + [o]) == IngRefs(kept) + [IngRefOf(o)]
  {
    assert (kept + [o])[..|kept|] == kept;
  }

  lemma HpaRefsStep(kept: seq<Object>, o: Object)
    ensures HpaRefs(kept + [o]) == HpaRefs(kept) + [HpaRefOf(o)]
  {
    assert (kept + [o])[..|kept|] == kept;
  }

  lemma PdbRefsStep(kept: seq<Object>, o: Object)
    ensures PdbRefs(kept + [o]) == PdbRefs(kept) + [PdbRefOf(o)]
  {
    assert (kept + [o])[..|kept|] == kept;
  }

  lemma AssocFour<T>(x: seq<T>, a: seq<T>, b: seq<T>, c: seq<T>, d: seq<T>)
    ensures x + a + b + c + d == x + (a + b + c + d)
  {
  }

  /** Namespaces are filtered by their own name. */
  method KeepNamespaces(items: seq<Object>, ex: set<string>) returns (listed: seq<Asset>)
    ensures listed == AssetsFor("namespace", KeptNamespaces(items, ex))
  {
    listed := [];
    ghost var kept: seq<Object> := [];
    for i := 0 to |items|
      invariant kept == KeptNamespaces(items[..i], ex) && listed == AssetsFor("namespace", kept)
    {
      assert items[..i + 1][..i] == items[..i];
      assert (kept + [items[i]])[..|kept|] == kept;
      if items[i].meta.name in ex {
        continue;
      }
      kept := kept + [items[i]];
      listed := listed + [AssetFor("namespace", items[i])];
    }
    assert items[..|items|] == items;
  }

  /** ConfigMaps, Secrets and NetworkPolicies: an asset and an index entry each. */
  method KeepIndexed(kind: string, items: seq<Object>, ex: set<string>)
      returns (listed: seq<Asset>, index: map<string, string>)
    ensures listed == AssetsFor(kind, Kept(items, ex))
    ensures index == Index(Kept(items, ex))
  {
    listed := [];
    index := map[];
    ghost var kept: seq<Object> := [];
    for i := 0 to |items|
      invariant kept == Kept(items[..i], ex) && listed == AssetsFor(kind, kept)
      invariant index == Index(kept)
    {
      KeptStep(kind, items, i, ex);
      if items[i].meta.namespace in ex {
        continue;
      }
      kept := kept + [items[i]];
      index := index[NN(items[i].meta.namespace, items[i].meta.name) := items[i].meta.uid];
      listed := listed + [AssetFor(kind, items[i])];
    }
    assert items[..|items|] == items;
  }

  /** Services: also what they select. */
  method KeepServices(items: seq<ServiceObj>, ex: set<string>)
      returns (listed: seq<Asset>, refs: seq<SvcRef>, index: map<string, string>)
    ensures listed == AssetsFor("service", Kept(items, ex))
    ensures refs == SvcRefs(Kept(items, ex)) && index == Index(Kept(items, ex))
  {
    listed := [];
    refs, index := [], map[];
    ghost var kept: seq<Object> := [];
    for i := 0 to |items|
      invariant kept == Kept(items[..i], ex) && listed == AssetsFor("service", kept)
      invariant refs == SvcRefs(kept) && index == Index(kept)
    {
      KeptStep("service", items, i, ex);
      if items[i].meta.namespace in ex {
        continue;
      }
      SvcRefsStep(kept, items[i]);
      kept := kept + [items[i]];
      index := index[NN(items[i].meta.namespace, items[i].meta.name) := items[i].meta.uid];
      refs := refs + [SvcRefOf(items[i])];
      listed := listed + [AssetFor("service", items[i])];
    }
    assert items[..|items|] == items;
  }

  /** Deployments, StatefulSets, DaemonSets and CronJobs: also what their pods refer to. */
  method KeepWorkloads(kind: string, items: seq<WorkloadObj>, ex: set<string>)
      returns (listed: seq<Asset>, refs: seq<WorkloadRef>)
    ensures listed == AssetsFor(WorkloadKind(kind), Kept(items, ex))
    ensures refs == WorkloadRefs(kind, Kept(items, ex))
  {
    listed := [];
    refs := [];
    ghost var kept: seq<Object> := [];
    for i := 0 to |items|
      invariant kept == Kept(items[..i], ex) && listed == AssetsFor(WorkloadKind(kind), kept)
      invariant refs == WorkloadRefs(kind, kept)
    {
      KeptStep(WorkloadKind(kind), items, i, ex);
      if items[i].meta.namespace in ex {
        continue;
      }
      WorkloadRefsStep(kind, kept, items[i]);
      kept := kept + [items[i]];
      var cms, secrets := PodRefs(items[i].shape.pod);
      var m := items[i].meta;
      refs := refs + [WorkloadRef(m.uid, m.namespace, m.name, kind, items[i].shape.templateLabels, cms, secrets)];
      listed := listed + [AssetFor(WorkloadKind(kind), items[i])];
    }
    assert items[..|items|] == items;
  }

  method GatherPaths(paths: seq<Option<string>>) returns (backends: seq<string>)
    ensures backends == PathBackends(paths)
  {
    backends := [];
    for i := 0 to |paths|
      invariant backends == PathBackends(paths[..i])
    {
      assert paths[..i + 1][..i] == paths[..i];
      if paths[i].Some? {
        backends := backends + [paths[i].value];
      }
    }
    assert paths[..|paths|] == paths;
  }

  /** The default backend, then the paths of the HTTP rules. */
  method GatherBackends(s: Shape) returns (backends: seq<string>)
    requires s.Ingress?
    ensures backends == Backends(s)
  {
    var fromRules := [];
    for i := 0 to |s.rules|
      invariant fromRules == RuleBackends(s.rules[..i])
    {
      assert s.rules[..i + 1][..i] == s.rules[..i];
      if s.rules[i].None? {
        continue;
      }
      var paths := GatherPaths(s.rules[i].value);
      fromRules := fromRules + paths;
    }
    assert s.rules[..|s.rules|] == s.rules;
    backends := OptName(s.defaultBackend) + fromRules;
  }

  /** Ingresses: also their backends, each once. */
  method KeepIngresses(items: seq<IngressObj>, ex: set<string>) returns (listed: seq<Asset>, refs: seq<IngRef>)
    ensures listed == AssetsFor("ingress", Kept(items, ex))
    ensures refs == IngRefs(Kept(items, ex))
  {
    listed := [];
    refs := [];
    ghost var kept: seq<Object> := [];
    for i := 0 to |items|
      invariant kept == Kept(items[..i], ex) && listed == AssetsFor("ingress", kept)
      invariant refs == IngRefs(kept)
    {
      KeptStep("ingress", items, i, ex);
      if items[i].meta.namespace in ex {
        continue;
      }
      IngRefsStep(kept, items[i]);
      kept := kept + [items[i]];
      var gathered := GatherBackends(items[i].shape);
      var backends := DedupeNames(gathered);
      refs := refs + [IngRef(items[i].meta.uid, items[i].meta.namespace, backends)];
      listed := listed + [AssetFor("ingress", items[i])];
    }
    assert items[..|items|] == items;
  }

  /** HorizontalPodAutoscalers: also what they scale. */
  method KeepHPAs(items: seq<HPAObj>, ex: set<string>) returns (listed: seq<Asset>, refs: seq<HpaRef>)
    ensures listed == AssetsFor("hpa", Kept(items, ex))
    ensures refs == HpaRefs(Kept(items, ex))
  {
    listed := [];
    refs := [];
    ghost var kept: seq<Object> := [];
    for i := 0 to |items|
      invariant kept == Kept(items[..i], ex) && listed == AssetsFor("hpa", kept)
      invariant refs == HpaRefs(kept)
    {
      KeptStep("hpa", items, i, ex);
      if items[i].meta.namespace in ex {
        continue;
      }
      HpaRefsStep(kept, items[i]);
      kept := kept + [items[i]];
      refs := refs + [HpaRefOf(items[i])];
      listed := listed + [AssetFor("hpa", items[i])];
    }
    assert items[..|items|] == items;
  }

  /** PodDisruptionBudgets: also what they protect. */
  method KeepPDBs(items: seq<PDBObj>, ex: set<string>) returns (listed: seq<Asset>, refs: seq<PdbRef>)
    ensures listed == AssetsFor("poddisruptionbudget", Kept(items, ex))
    ensures refs == PdbRefs(Kept(items, ex))
  {
    listed := [];
    refs := [];
    ghost var kept: seq<Object> := [];
    for i := 0 to |items|
      invariant kept == Kept(items[..i], ex) && listed == AssetsFor("poddisruptionbudget", kept)
      invariant refs == PdbRefs(kept)
    {
      KeptStep("poddisruptionbudget", items, i, ex);
      if items[i].meta.namespace in ex {
        continue;
      }
      PdbRefsStep(kept, items[i]);
      kept := kept + [items[i]];
      refs := refs + [PdbRefOf(items[i])];
      listed := listed + [AssetFor("poddisruptionbudget", items[i])];
    }
    assert items[..|items|] == items;
  }

  /** The last four listings, one after the other. */
  lemma OthersJoin(c: Cluster, ex: set<string>, a: seq<Asset>, e: seq<string>)
    ensures a + AssetsFor("ingress", Kept(ItemsOf(c.ingresses), ex)) + AssetsFor("hpa", Kept(ItemsOf(c.hpas), ex))
            + AssetsFor("poddisruptionbudget", Kept(ItemsOf(c.pdbs), ex))
            + AssetsFor("networkpolicy", Kept(ItemsOf(c.networkPolicies), ex))
            == a + OtherAssets(c, ex)
    ensures e + ListError("ingresses", c.ingresses) + ListError("hpas", c.hpas)
            + ListError("poddisruptionbudgets", c.pdbs) + ListError("networkpolicies", c.networkPolicies)
            == e + OtherErrors(c)
  {
    AssocFour(a, AssetsFor("ingress", Kept(ItemsOf(c.ingresses), ex)), AssetsFor("hpa", Kept(ItemsOf(c.hpas), ex)),
              AssetsFor("poddisruptionbudget", Kept(ItemsOf(c.pdbs), ex)),
              AssetsFor("networkpolicy", Kept(ItemsOf(c.networkPolicies), ex)));
    AssocFour(e, ListError("ingresses", c.ingresses), ListError("hpas", c.hpas),
              ListError("poddisruptionbudgets", c.pdbs), ListError("networkpolicies", c.networkPolicies));
  }

  lemma NoServices(ex: set<string>)
    ensures Kept([], ex) == [] && AssetsFor("service", []) == [] && SvcRefs([]) == [] && Index([]) == map[]
  {
  }

  class Builder {
    var assets: seq<Asset>
    var relations: seq<Relation>
    var workloads: seq<WorkloadRef>
    var services: seq<SvcRef>
    var ingresses: seq<IngRef>
    var hpas: seq<HpaRef>
    var pdbs: seq<PdbRef>
    var serviceUID: map<string, string>
    var configMapUID: map<string, string>
    var secretUID: map<string, string>
    var listErrors: seq<string>

    constructor ()
      ensures assets == [] && relations == [] && listErrors == []
      ensures Refs() == Inventory([], [], [], [], [], map[], map[], map[])
    {
      assets, relations, workloads, services, ingresses, hpas, pdbs := [], [], [], [], [], [], [];
      serviceUID, configMapUID, secretUID, listErrors := map[], map[], map[], [];
    }

    function Refs(): Inventory
      reads this
    {
      Inventory(workloads, services, ingresses, hpas, pdbs, serviceUID, configMapUID, secretUID)
    }

    method Fail(resource: string, error: string)
      modifies this`listErrors
      ensures listErrors == old(listErrors) + ["list " + resource + ": " + error]
    {
      listErrors := listErrors + ["list " + resource + ": " + error];
    }

    method ListNamespaces(l: Listing<Object>, ex: set<string>)
      modifies this`assets, this`listErrors
      ensures assets == old(assets) + AssetsFor("namespace", KeptNamespaces(ItemsOf(l), ex))
      ensures listErrors == old(listErrors) + ListError("namespaces", l)
    {
      EmptyRight(assets);
      EmptyRight(listErrors);
      if l.Unlisted? {
        Fail("namespaces", l.error);
      } else {
        var listed := KeepNamespaces(l.items, ex);
        assets := assets + listed;
      }
    }

    /** The index is for the field it belongs to. */
    method ListIndexed(kind: string, resource: string, l: Listing<Object>, ex: set<string>)
        returns (index: map<string, string>)
      modifies this`assets, this`listErrors
      ensures assets == old(assets) + AssetsFor(kind, Kept(ItemsOf(l), ex))
      ensures index == Index(Kept(ItemsOf(l), ex))
      ensures listErrors == old(listErrors) + ListError(resource, l)
    {
      EmptyRight(assets);
      EmptyRight(listErrors);
      index := map[];
      if l.Unlisted? {
        Fail(resource, l.error);
      } else {
        var listed;
        listed, index := KeepIndexed(kind, l.items, ex);
        assets := assets + listed;
      }
    }

    method ListServices(l: Listing<ServiceObj>, ex: set<string>)
      requires services == [] && serviceUID == map[]
      modifies this`assets, this`services, this`serviceUID, this`listErrors
      ensures assets == old(assets) + AssetsFor("service", Kept(ItemsOf(l), ex))
      ensures services == SvcRefs(Kept(ItemsOf(l), ex)) && serviceUID == Index(Kept(ItemsOf(l), ex))
      ensures listErrors == old(listErrors) + ListError("services", l)
    {
      if l.Unlisted? {
        Fail("services", l.error);
        NoServices(ex);
        EmptyRight(assets);
      } else {
        var listed, refs, index := KeepServices(l.items, ex);
        assets, services, serviceUID := assets + listed, refs, index;
        EmptyRight(listErrors);
      }
    }

    method ListWorkloads(kind: string, resource: string, l: Listing<WorkloadObj>, ex: set<string>)
      modifies this`assets, this`workloads, this`listErrors
      ensures assets == old(assets) + AssetsFor(WorkloadKind(kind), Kept(ItemsOf(l), ex))
      ensures workloads == old(workloads) + WorkloadRefs(kind, Kept(ItemsOf(l), ex))
      ensures listErrors == old(listErrors) + ListError(resource, l)
    {
      EmptyRight(assets);
      EmptyRight(listErrors);
      if l.Unlisted? {
        Fail(resource, l.error);
      } else {
        var listed, refs := KeepWorkloads(kind, l.items, ex);
        assets, workloads := assets + listed, workloads + refs;
      }
    }

    method ListIngresses(l: Listing<IngressObj>, ex: set<string>)
      requires ingresses == []
      modifies this`assets, this`ingresses, this`listErrors
      ensures assets == old(assets) + AssetsFor("ingress", Kept(ItemsOf(l), ex))
      ensures ingresses == IngRefs(Kept(ItemsOf(l), ex))
      ensures listErrors == old(listErrors) + ListError("ingresses", l)
    {
      EmptyRight(assets);
      EmptyRight(listErrors);
      if l.Unlisted? {
        Fail("ingresses", l.error);
      } else {
        var listed, refs := KeepIngresses(l.items, ex);
        assets, ingresses := assets + listed, refs;
      }
    }

    method ListHPAs(l: Listing<HPAObj>, ex: set<string>)
      requires hpas == []
      modifies this`assets, this`hpas, this`listErrors
      ensures assets == old(assets) + AssetsFor("hpa", Kept(ItemsOf(l), ex))
      ensures hpas == HpaRefs(Kept(ItemsOf(l), ex))
      ensures listErrors == old(listErrors) + ListError("hpas", l)
    {
      EmptyRight(assets);
      EmptyRight(listErrors);
      if l.Unlisted? {
        Fail("hpas", l.error);
      } else {
        var listed, refs := KeepHPAs(l.items, ex);
        assets, hpas := assets + listed, refs;
      }
    }

    method ListPDBs(l: Listing<PDBObj>, ex: set<string>)
      requires pdbs == []
      modifies this`assets, this`pdbs, this`listErrors
      ensures assets == old(assets) + AssetsFor("poddisruptionbudget", Kept(ItemsOf(l), ex))
      ensures pdbs == PdbRefs(Kept(ItemsOf(l), ex))
      ensures listErrors == old(listErrors) + ListError("poddisruptionbudgets", l)
    {
      EmptyRight(assets);
      EmptyRight(listErrors);
      if l.Unlisted? {
        Fail("poddisruptionbudgets", l.error);
      } else {
        var listed, refs := KeepPDBs(l.items, ex);
        assets, pdbs := assets + listed, refs;
      }
    }

    /** The relations from one source to the objects its names resolve to. */
    method EmitNamed(names: seq<string>, uid: string, namespace: string, index: map<string, string>, kind: string)
      modifies this`relations
      ensures relations == old(relations) + Flat(names, NamedCell(uid, namespace, index, kind))
    {
      ghost var cell := NamedCell(uid, namespace, index, kind);
      for j := 0 to |names|
        invariant relations == old(relations) + Flat(names[..j], cell)
      {
        FlatSnoc(names, j, cell);
        if NN(namespace, names[j]) in index {
          relations := relations + [Rel(uid, index[NN(namespace, names[j])], kind)];
        }
      }
      assert names[..|names|] == names;
    }

    method EmitSelectsFor(s: SvcRef)
      modifies this`relations
      ensures relations == old(relations) + Flat(workloads, SelectsCell(s))
    {
      ghost var cell := SelectsCell(s);
      for j := 0 to |workloads|
        invariant relations == old(relations) + Flat(workloads[..j], cell)
      {
        FlatSnoc(workloads, j, cell);
        var w := workloads[j];
        var matches := MatchesLabels(s.selector, w.templateLabels);
        if w.namespace == s.namespace && matches {
          relations := relations + [Rel(s.uid, w.uid, "selects")];
        }
      }
      assert workloads[..|workloads|] == workloads;
    }

    method EmitSelects()
      modifies this`relations
      ensures relations == old(relations) + Flat(services, SelectsRow(workloads))
    {
      ghost var row := SelectsRow(workloads);
      for i := 0 to |services|
        invariant relations == old(relations) + Flat(services[..i], row)
      {
        FlatSnoc(services, i, row);
        EmitSelectsFor(services[i]);
      }
      assert services[..|services|] == services;
    }

    method EmitScaledFor(h: HpaRef)
      modifies this`relations
      ensures relations == old(relations) + Flat(workloads, ScaledCell(h))
    {
      ghost var cell := ScaledCell(h);
      for j := 0 to |workloads|
        invariant relations == old(relations) + Flat(workloads[..j], cell)
      {
        FlatSnoc(workloads, j, cell);
        var w := workloads[j];
        if w.namespace == h.namespace && w.kind == h.targetKind && w.name == h.targetName {
          relations := relations + [Rel(w.uid, h.uid, "scaled_by")];
        }
      }
      assert workloads[..|workloads|] == workloads;
    }

    method EmitScaled()
      modifies this`relations
      ensures relations == old(relations) + Flat(hpas, ScaledRow(workloads))
    {
      ghost var row := ScaledRow(workloads);
      for i := 0 to |hpas|
        invariant relations == old(relations) + Flat(hpas[..i], row)
      {
        FlatSnoc(hpas, i, row);
        EmitScaledFor(hpas[i]);
      }
      assert hpas[..|hpas|] == hpas;
    }

    method EmitProtectedFor(p: PdbRef)
      modifies this`relations
      ensures relations == old(relations) + Flat(workloads, ProtectedCell(p))
    {
      ghost var cell := ProtectedCell(p);
      for j := 0 to |workloads|
        invariant relations == old(relations) + Flat(workloads[..j], cell)
      {
        FlatSnoc(workloads, j, cell);
        var w := workloads[j];
        var matches := MatchesLabels(p.selector, w.templateLabels);
        if w.namespace == p.namespace && matches {
          relations := relations + [Rel(w.uid, p.uid, "protected_by")];
        }
      }
      assert workloads[..|workloads|] == workloads;
    }

    method EmitProtected()
      modifies this`relations
      ensures relations == old(relations) + Flat(pdbs, ProtectedRow(workloads))
    {
      ghost var row := ProtectedRow(workloads);
      for i := 0 to |pdbs|
        invariant relations == old(relations) + Flat(pdbs[..i], row)
      {
        FlatSnoc(pdbs, i, row);
        EmitProtectedFor(pdbs[i]);
      }
      assert pdbs[..|pdbs|] == pdbs;
    }

    method EmitRoutes()
      modifies this`relations
      ensures relations == old(relations) + Flat(ingresses, RoutesRow(serviceUID))
    {
      ghost var row := RoutesRow(serviceUID);
      for i := 0 to |ingresses|
        invariant relations == old(relations) + Flat(ingresses[..i], row)
      {
        FlatSnoc(ingresses, i, row);
        Assoc(old(relations), Flat(ingresses[..i], row), row(ingresses[i]));
        EmitNamed(ingresses[i].backends, ingresses[i].uid, ingresses[i].namespace, serviceUID, "routes_to");
      }
      assert ingresses[..|ingresses|] == ingresses;
    }

    method EmitUses()
      modifies this`relations
      ensures relations == old(relations) + Flat(workloads, UsesRow(configMapUID, secretUID))
    {
      ghost var row := UsesRow(configMapUID, secretUID);
      for i := 0 to |workloads|
        invariant relations == old(relations) + Flat(workloads[..i], row)
      {
        FlatSnoc(workloads, i, row);
        var w := workloads[i];
        ghost var cms := Flat(w.cmRefs, NamedCell(w.uid, w.namespace, configMapUID, "uses_config"));
        ghost var secrets := Flat(w.secretRefs, NamedCell(w.uid, w.namespace, secretUID, "uses_secret"));
        Assoc(relations, cms, secrets);
        Assoc(old(relations), Flat(workloads[..i], row), cms + secrets);
        EmitNamed(w.cmRefs, w.uid, w.namespace, configMapUID, "uses_config");
        EmitNamed(w.secretRefs, w.uid, w.namespace, secretUID, "uses_secret");
      }
      assert workloads[..|workloads|] == workloads;
    }

    /** resolveEdges: the loops over the collected references, in order. */
    method ResolveEdges()
      modifies this`relations
      ensures relations == old(relations) + Edges(Refs())
    {
      ghost var r := relations;
      ghost var e1, e2 := Flat(services, SelectsRow(workloads)), Flat(ingresses, RoutesRow(serviceUID));
      ghost var e3, e4 := Flat(hpas, ScaledRow(workloads)), Flat(pdbs, ProtectedRow(workloads));
      ghost var e5 := Flat(workloads, UsesRow(configMapUID, secretUID));
      EmitSelects();
      EmitRoutes();
      Assoc(r, e1, e2);
      EmitScaled();
      Assoc(r, e1 + e2, e3);
      EmitProtected();
      Assoc(r, e1 + e2 + e3, e4);
      EmitUses();
      Assoc(r, e1 + e2 + e3 + e4, e5);
    }

    method SweepNamespaces(c: Cluster, ex: set<string>)
      requires assets == [] && listErrors == []
      modifies this`assets, this`listErrors
      ensures assets == AssetsFor("namespace", KeptNamespaces(ItemsOf(c.namespaces), ex))
      ensures listErrors == ListError("namespaces", c.namespaces)
    {
      EmptyLeft(AssetsFor("namespace", KeptNamespaces(ItemsOf(c.namespaces), ex)));
      EmptyLeft(ListError("namespaces", c.namespaces));
      ListNamespaces(c.namespaces, ex);
    }

    method SweepNamed(c: Cluster, ex: set<string>)
      requires assets == [] && listErrors == []
      modifies this`assets, this`listErrors, this`configMapUID, this`secretUID
      ensures assets == AssetsFor("namespace", KeptNamespaces(ItemsOf(c.namespaces), ex))
                        + AssetsFor("configmap", Kept(ItemsOf(c.configMaps), ex))
                        + AssetsFor("secret", Kept(ItemsOf(c.secrets), ex))
      ensures listErrors == ListError("namespaces", c.namespaces) + ListError("configmaps", c.configMaps)
                            + ListError("secrets", c.secrets)
      ensures configMapUID == Index(Kept(ItemsOf(c.configMaps), ex)) && secretUID == Index(Kept(ItemsOf(c.secrets), ex))
    {
      SweepNamespaces(c, ex);
      configMapUID := ListIndexed("configmap", "configmaps", c.configMaps, ex);
      secretUID := ListIndexed("secret", "secrets", c.secrets, ex);
    }

    /** The resources that names resolve to come first. */
    method SweepIndexed(c: Cluster, ex: set<string>)
      requires assets == [] && listErrors == [] && services == [] && serviceUID == map[]
      modifies this`assets, this`listErrors, this`services, this`serviceUID, this`configMapUID, this`secretUID
      ensures assets == IndexedAssets(c, ex) && listErrors == IndexedErrors(c)
      ensures services == SvcRefs(Kept(ItemsOf(c.services), ex)) && serviceUID == Index(Kept(ItemsOf(c.services), ex))
      ensures configMapUID == Index(Kept(ItemsOf(c.configMaps), ex)) && secretUID == Index(Kept(ItemsOf(c.secrets), ex))
    {
      SweepNamed(c, ex);
      ListServices(c.services, ex);
    }

    method SweepWorkloads(c: Cluster, ex: set<string>)
      requires workloads == []
      modifies this`assets, this`listErrors, this`workloads
      ensures assets == old(assets) + WorkloadAssets(c, ex) && listErrors == old(listErrors) + WorkloadErrors(c)
      ensures workloads == WorkloadsOf(c, ex)
    {
      ghost var a, e := assets, listErrors;
      ghost var a1 := AssetsFor(WorkloadKind("Deployment"), Kept(ItemsOf(c.deployments), ex));
      ghost var e1 := ListError("deployments", c.deployments);
      ghost var a2 := AssetsFor(WorkloadKind("StatefulSet"), Kept(ItemsOf(c.statefulSets), ex));
      ghost var e2 := ListError("statefulsets", c.statefulSets);
      ghost var a3 := AssetsFor(WorkloadKind("DaemonSet"), Kept(ItemsOf(c.daemonSets), ex));
      ghost var e3 := ListError("daemonsets", c.daemonSets);
      ghost var a4 := AssetsFor(WorkloadKind("CronJob"), Kept(ItemsOf(c.cronJobs), ex));
      ghost var e4 := ListError("cronjobs", c.cronJobs);
      EmptyLeft(WorkloadRefs("Deployment", Kept(ItemsOf(c.deployments), ex)));
      ListWorkloads("Deployment", "deployments", c.deployments, ex);
      ListWorkloads("StatefulSet", "statefulsets", c.statefulSets, ex);
      ListWorkloads("DaemonSet", "daemonsets", c.daemonSets, ex);
      ListWorkloads("CronJob", "cronjobs", c.cronJobs, ex);
      AssocFour(a, a1, a2, a3, a4);
      AssocFour(e, e1, e2, e3, e4);
    }

    method SweepScaling(c: Cluster, ex: set<string>)
      requires ingresses == [] && hpas == []
      modifies this`assets, this`listErrors, this`ingresses, this`hpas
      ensures assets == old(assets) + AssetsFor("ingress", Kept(ItemsOf(c.ingresses), ex))
                        + AssetsFor("hpa", Kept(ItemsOf(c.hpas), ex))
      ensures listErrors == old(listErrors) + ListError("ingresses", c.ingresses) + ListError("hpas", c.hpas)
      ensures ingresses == IngRefs(Kept(ItemsOf(c.ingresses), ex)) && hpas == HpaRefs(Kept(ItemsOf(c.hpas), ex))
    {
      ListIngresses(c.ingresses, ex);
      ListHPAs(c.hpas, ex);
    }

    method SweepPolicies(c: Cluster, ex: set<string>)
      requires pdbs == []
      modifies this`assets, this`listErrors, this`pdbs
      ensures assets == old(assets) + AssetsFor("poddisruptionbudget", Kept(ItemsOf(c.pdbs), ex))
                        + AssetsFor("networkpolicy", Kept(ItemsOf(c.networkPolicies), ex))
      ensures listErrors == old(listErrors) + ListError("poddisruptionbudgets", c.pdbs)
                            + ListError("networkpolicies", c.networkPolicies)
      ensures pdbs == PdbRefs(Kept(ItemsOf(c.pdbs), ex))
    {
      ListPDBs(c.pdbs, ex);
      var _ := ListIndexed("networkpolicy", "networkpolicies", c.networkPolicies, ex);
    }

    method SweepOthers(c: Cluster, ex: set<string>)
      requires ingresses == [] && hpas == [] && pdbs == []
      modifies this`assets, this`listErrors, this`ingresses, this`hpas, this`pdbs
      ensures assets == old(assets) + OtherAssets(c, ex) && listErrors == old(listErrors) + OtherErrors(c)
      ensures var inv := InventoryOf(c, ex); ingresses == inv.ingresses && hpas == inv.hpas && pdbs == inv.pdbs
    {
      OthersJoin(c, ex, assets, listErrors);
      SweepScaling(c, ex);
      SweepPolicies(c, ex);
    }

    method SweepSources(c: Cluster, ex: set<string>)
      requires assets == [] && listErrors == [] && services == [] && serviceUID == map[] && workloads == []
      modifies this`assets, this`listErrors, this`services, this`serviceUID, this`configMapUID, this`secretUID,
               this`workloads
      ensures assets == IndexedAssets(c, ex) + WorkloadAssets(c, ex)
      ensures listErrors == IndexedErrors(c) + WorkloadErrors(c)
      ensures var inv := InventoryOf(c, ex);
              && workloads == inv.workloads && services == inv.services && serviceUID == inv.serviceUID
              && configMapUID == inv.configMapUID && secretUID == inv.secretUID
    {
      SweepIndexed(c, ex);
      SweepWorkloads(c, ex);
    }

    /** The twelve listings. */
    method Sweep(c: Cluster, ex: set<string>)
      requires assets == [] && listErrors == []
      requires Refs() == Inventory([], [], [], [], [], map[], map[], map[])
      modifies this`assets, this`listErrors, this`services, this`serviceUID, this`configMapUID, this`secretUID,
               this`workloads, this`ingresses, this`hpas, this`pdbs
      ensures assets == AssetsOf(c, ex) && listErrors == ListErrors(c) && Refs() == InventoryOf(c, ex)
    {
      SweepSources(c, ex);
      SweepOthers(c, ex);
    }
  }

  /** Discover: the twelve listings in order, then the edges. */
  method Discover(c: Cluster, ex: set<string>) returns (g: Subgraph)
    ensures g == Discovered(c, ex)
  {
    var b := new Builder();
    b.Sweep(c, ex);
    b.ResolveEdges();
    EmptyLeft(Edges(InventoryOf(c, ex)));
    g := Subgraph(b.assets, b.relations, SweepStatus(b.listErrors));
  }
}
