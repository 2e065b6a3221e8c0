/**
 The cluster's name: resolved once from node labels, then sealed in a ConfigMap
 (src/internal/cluster/resolver.go).
 */
module ClusterIdentity {
  import opened Wrappers

  const IDENTITY_KEY := "cluster-name"

  /** Cloud-provider labels that carry the cluster name, in priority order. */
  const NODE_LABELS: seq<string> := [
    "eks.amazonaws.com/cluster-name", "alpha.eksctl.io/cluster-name",
    "cloud.google.com/gke-cluster-name", "kubernetes.azure.com/cluster"]

  datatype Source = FromEnv | FromConfigMap | FromNodeLabels | Fallback

  /** Which of the Kubernetes calls of one resolution succeed; a Get also fails when there is no ConfigMap. */
  datatype Calls = Calls(firstGet: bool, listNodes: bool, secondGet: bool, write: bool)

  type ConfigMap = map<string, string>

  datatype Resolution = Resolution(name: string, source: Source, sealed: Option<ConfigMap>)

  function FirstLabel(labels: map<string, string>, keys: seq<string>): string {
    if keys == [] then ""
    else if Get(labels, keys[0]) != "" then Get(labels, keys[0])
    else FirstLabel(labels, keys[1..])
  }

  /** The name the first listed node carries. */
  function NodeName(nodes: seq<map<string, string>>, calls: Calls): string {
    if !calls.listNodes || nodes == [] then "" else FirstLabel(nodes[0], NODE_LABELS)
  }

  /** Write the name into the ConfigMap, creating it when it is not there. */
  function Seal(cm: Option<ConfigMap>, name: string, calls: Calls): Option<ConfigMap> {
    if cm.Some? && calls.secondGet then
      if calls.write then Some(cm.value[IDENTITY_KEY := name]) else cm
    else if cm.None? && calls.write then Some(map[IDENTITY_KEY := name])
    else cm
  }

  function SealedName(cm: Option<ConfigMap>): string {
    if cm.Some? then Get(cm.value, IDENTITY_KEY) else ""
  }

  function Resolve(env: string, cm: Option<ConfigMap>, nodes: seq<map<string, string>>, calls: Calls): Resolution {
    if env != "" then Resolution(env, FromEnv, cm)
    else if calls.firstGet && SealedName(cm) != "" then Resolution(SealedName(cm), FromConfigMap, cm)
    else
      var v := NodeName(nodes, calls);
      if v != "" then Resolution(v, FromNodeLabels, Seal(cm, v, calls))
      else Resolution("unknown", Fallback, cm)
  }

  /** The ConfigMap as the cluster stores it, and the nodes. */
  class Cluster {
    var configMap: Option<ConfigMap>
    var nodes: seq<map<string, string>>

    constructor (cm: Option<ConfigMap>, ns: seq<map<string, string>>)
      ensures configMap == cm && nodes == ns
    {
      configMap, nodes := cm, ns;
    }

    method GetConfigMap(ok: bool) returns (r: Option<ConfigMap>)
      ensures r == if ok then configMap else None
    {
      r := if ok then configMap else None;
    }

    method ResolveFromNodeLabels(calls: Calls) returns (v: string)
      ensures v == NodeName(nodes, calls)
    {
      if !calls.listNodes || |nodes| == 0 {
        return "";
      }
      var labels := nodes[0];
      for i := 0 to |NODE_LABELS|
        invariant FirstLabel(labels, NODE_LABELS) == FirstLabel(labels, NODE_LABELS[i..])
      {
        if Get(labels, NODE_LABELS[i]) != "" {
          return Get(labels, NODE_LABELS[i]);
        }
      }
      return "";
    }

    method SealIdentity(name: string, calls: Calls)
      modifies this`configMap
      ensures configMap == Seal(old(configMap), name, calls)
    {
      var cm := GetConfigMap(calls.secondGet);
      if cm.None? {
        // Create fails when the ConfigMap is already there.
        if calls.write && configMap.None? {
          configMap := Some(map[IDENTITY_KEY := name]);
        }
        return;
      }
      if calls.write {
        configMap := Some(cm.value[IDENTITY_KEY := name]);
      }
    }

    method ResolveClusterName(env: string, calls: Calls) returns (name: string, source: Source)
      modifies this`configMap
      ensures Resolution(name, source, configMap) == Resolve(env, old(configMap), nodes, calls)
    {
      if env != "" {
        return env, FromEnv;
      }
      var cm := GetConfigMap(calls.firstGet);
      if cm.Some? && Get(cm.value, IDENTITY_KEY) != "" {
        return Get(cm.value, IDENTITY_KEY), FromConfigMap;
      }
      var v := ResolveFromNodeLabels(calls);
      if v != "" {
        SealIdentity(v, calls);
        return v, FromNodeLabels;
      }
      return "unknown", Fallback;
    }
  }

  // --- what is resolved, and what is sealed ---

  /** The labels of the cloud providers, in the order they are tried. */
  predicate LabelledAs(labels: map<string, string>, name: string) {
    if Get(labels, "eks.amazonaws.com/cluster-name") != "" then name == labels["eks.amazonaws.com/cluster-name"]
    else if Get(labels, "alpha.eksctl.io/cluster-name") != "" then name == labels["alpha.eksctl.io/cluster-name"]
    else if Get(labels, "cloud.google.com/gke-cluster-name") != "" then
      name == labels["cloud.google.com/gke-cluster-name"]
    else name == Get(labels, "kubernetes.azure.com/cluster")
  }

  /** The first listed node is asked, if the list comes and is not empty. */
  lemma NodeNameExact(nodes: seq<map<string, string>>, calls: Calls)
    ensures if calls.listNodes && nodes != [] then LabelledAs(nodes[0], NodeName(nodes, calls))
            else NodeName(nodes, calls) == ""
  {
    if calls.listNodes && nodes != [] {
      FirstOfFour(nodes[0], "eks.amazonaws.com/cluster-name", "alpha.eksctl.io/cluster-name",
                  "cloud.google.com/gke-cluster-name", "kubernetes.azure.com/cluster");
    }
  }

  lemma FirstOfFour(labels: map<string, string>, a: string, b: string, c: string, d: string)
    ensures FirstLabel(labels, [a, b, c, d])
            == if Get(labels, a) != "" then Get(labels, a) else if Get(labels, b) != "" then Get(labels, b)
               else if Get(labels, c) != "" then Get(labels, c) else Get(labels, d)
  {
    assert [a, b, c, d][1..] == [b, c, d] && [b, c, d][1..] == [c, d] && [c, d][1..] == [d] && [d][1..] == [];
    assert FirstLabel(labels, [d]) == Get(labels, d);
    assert FirstLabel(labels, [c, d]) == if Get(labels, c) != "" then Get(labels, c) else Get(labels, d);
  }

  /** The four sources in order: only a name found on the nodes is sealed. */
  lemma ResolvesInOrder(env: string, cm: Option<ConfigMap>, nodes: seq<map<string, string>>, calls: Calls)
    ensures var r := Resolve(env, cm, nodes, calls);
            var sealed := if cm.None? then "" else Get(cm.value, "cluster-name");
            && (env != "" ==> r == Resolution(env, FromEnv, cm))
            && (env == "" && calls.firstGet && sealed != "" ==> r == Resolution(sealed, FromConfigMap, cm))
            && (env == "" && !(calls.firstGet && sealed != "") && NodeName(nodes, calls) == "" ==>
                  r == Resolution("unknown", Fallback, cm))
            && (env == "" && !(calls.firstGet && sealed != "") && NodeName(nodes, calls) != "" ==>
                  r.name == NodeName(nodes, calls) && r.source == FromNodeLabels)
  {
  }

  /** What a start seals: the name is put into a ConfigMap it can read, or into a new one when there is none. */
  lemma SealsExact(env: string, cm: Option<ConfigMap>, nodes: seq<map<string, string>>, calls: Calls)
    requires Resolve(env, cm, nodes, calls).source == FromNodeLabels
    ensures var r := Resolve(env, cm, nodes, calls);
            && (calls.write && cm.None? ==> r.sealed == Some(map["cluster-name" := r.name]))
            && (calls.write && cm.Some? && calls.secondGet ==> r.sealed == Some(cm.value["cluster-name" := r.name]))
            && (!calls.write || (cm.Some? && !calls.secondGet) ==> r.sealed == cm)
  {
  }

  // --- restarts ---

  /** One start of the operator: its environment, the nodes at that time, and which calls succeed. */
  datatype Start = Start(env: string, nodes: seq<map<string, string>>, calls: Calls)

  function After(cm: Option<ConfigMap>, starts: seq<Start>): Option<ConfigMap> {
    if starts == [] then cm
    else
      var s := starts[|starts| - 1];
      Resolve(s.env, After(cm, starts[..|starts| - 1]), s.nodes, s.calls).sealed
  }

  /** What the i-th start resolves to. */
  function ResolvedAt(cm: Option<ConfigMap>, starts: seq<Start>, i: nat): Resolution
    requires i < |starts|
  {
    Resolve(starts[i].env, After(cm, starts[..i]), starts[i].nodes, starts[i].calls)
  }

  /** The first read fails, and yet the name found on the nodes can be written over the sealed one. */
  predicate Reseals(s: Start, sealed: string) {
    && s.env == "" && !s.calls.firstGet && s.calls.secondGet && s.calls.write
    && NodeName(s.nodes, s.calls) != "" && NodeName(s.nodes, s.calls) != sealed
  }

  /** A sealed name survives a start exactly unless that start reseals it. */
  lemma SealKeptIff(cm: Option<ConfigMap>, s: Start)
    requires SealedName(cm) != ""
    ensures SealedName(Resolve(s.env, cm, s.nodes, s.calls).sealed) == SealedName(cm) <==> !Reseals(s, SealedName(cm))
  {
  }

  lemma {:induction false} SealKept(cm: Option<ConfigMap>, starts: seq<Start>, i: nat, n: nat)
    requires i <= n <= |starts| && SealedName(After(cm, starts[..i])) != ""
    requires forall k | i <= k < n :: !Reseals(starts[k], SealedName(After(cm, starts[..i])))
    ensures SealedName(After(cm, starts[..n])) == SealedName(After(cm, starts[..i]))
  {
    if i < n {
      SealKept(cm, starts, i, n - 1);
      assert starts[..n][..n - 1] == starts[..n - 1];
      SealKeptIff(After(cm, starts[..n - 1]), starts[n - 1]);
    }
  }

  /** The ConfigMap takes the name, whether or not it was there before. */
  predicate SealSucceeds(cm: Option<ConfigMap>, calls: Calls) {
    calls.write && (cm.None? || calls.secondGet)
  }

  /** The start answers v, given a ConfigMap sealed with v. */
  predicate Returns(s: Start, v: string) {
    if s.env != "" then s.env == v
    else
      || s.calls.firstGet || NodeName(s.nodes, s.calls) == v
      || (NodeName(s.nodes, s.calls) == "" && v == "unknown")
  }

  /** A start returns the sealed name exactly then; and then it also keeps it sealed. */
  lemma ReturnsIff(cm: Option<ConfigMap>, s: Start)
    requires SealedName(cm) != ""
    ensures Resolve(s.env, cm, s.nodes, s.calls).name == SealedName(cm) <==> Returns(s, SealedName(cm))
    ensures Returns(s, SealedName(cm)) ==> !Reseals(s, SealedName(cm))
  {
  }

  /** A sealed name is not returned by a start that cannot read it and finds another one on the nodes. */
  lemma UnreadableSealIsIgnored(v: string, w: string)
    requires v != "" && w != "" && v != w
    ensures var cm := Some(map[IDENTITY_KEY := v]);
            var s := Start("", [map["eks.amazonaws.com/cluster-name" := w]], Calls(false, true, false, false));
            !Reseals(s, v) && !Returns(s, v) && Resolve(s.env, cm, s.nodes, s.calls).name == w
  {
    assert NODE_LABELS[0] == "eks.amazonaws.com/cluster-name";
  }

  /** Every start of the stretch is one that answers v. */
  predicate AllReturn(starts: seq<Start>, i: nat, n: nat, v: string)
    requires n <= |starts|
  {
    forall k | i <= k < n :: Returns(starts[k], v)
  }

  /** Every start of the stretch did answer v. */
  predicate AllNamed(cm: Option<ConfigMap>, starts: seq<Start>, i: nat, n: nat, v: string)
    requires n <= |starts|
  {
    forall k | i <= k < n :: ResolvedAt(cm, starts, k).name == v
  }

  lemma StartReturnsIff(cm: Option<ConfigMap>, starts: seq<Start>, n: nat, v: string)
    requires n < |starts| && SealedName(After(cm, starts[..n])) == v != ""
    ensures ResolvedAt(cm, starts, n).name == v <==> Returns(starts[n], v)
    ensures Returns(starts[n], v) ==> SealedName(After(cm, starts[..n + 1])) == v
  {
    assert starts[..n + 1][..n] == starts[..n];
    ReturnsIff(After(cm, starts[..n]), starts[n]);
    SealKeptIff(After(cm, starts[..n]), starts[n]);
  }

  lemma StretchSnoc(cm: Option<ConfigMap>, starts: seq<Start>, i: nat, n: nat, v: string)
    requires i <= n < |starts|
    ensures AllNamed(cm, starts, i, n + 1, v) <==> AllNamed(cm, starts, i, n, v) && ResolvedAt(cm, starts, n).name == v
    ensures AllReturn(starts, i, n + 1, v) <==> AllReturn(starts, i, n, v) && Returns(starts[n], v)
  {
  }

  lemma {:induction false} StretchKeepsSeal(cm: Option<ConfigMap>, starts: seq<Start>, i: nat, n: nat, v: string)
    requires i <= n <= |starts| && SealedName(After(cm, starts[..i])) == v != ""
    requires AllReturn(starts, i, n, v)
    ensures SealedName(After(cm, starts[..n])) == v
  {
    if i < n {
      StretchKeepsSeal(cm, starts, i, n - 1, v);
      StartReturnsIff(cm, starts, n - 1, v);
    }
  }

  lemma {:induction false} StretchReturnsIff(cm: Option<ConfigMap>, starts: seq<Start>, i: nat, n: nat, v: string)
    requires i <= n <= |starts| && SealedName(After(cm, starts[..i])) == v != ""
    ensures AllNamed(cm, starts, i, n, v) <==> AllReturn(starts, i, n, v)
  {
    if i < n {
      StretchReturnsIff(cm, starts, i, n - 1, v);
      StretchSnoc(cm, starts, i, n - 1, v);
      if AllReturn(starts, i, n - 1, v) {
        StretchKeepsSeal(cm, starts, i, n - 1, v);
        StartReturnsIff(cm, starts, n - 1, v);
      }
    }
  }

  /**
   With a name sealed, every start of a run returns it, whatever the labels become, if and only if each start can read
   the ConfigMap or finds that same name anyway.
   */
  lemma SealedNameForeverIff(cm: Option<ConfigMap>, starts: seq<Start>)
    requires SealedName(cm) != ""
    ensures AllNamed(cm, starts, 0, |starts|, SealedName(cm)) <==> AllReturn(starts, 0, |starts|, SealedName(cm))
  {
    assert starts[..0] == [];
    StretchReturnsIff(cm, starts, 0, |starts|, SealedName(cm));
  }

  /**
   Once a start has resolved a name from the node labels and sealed it, all later starts return it if and only if each
   of them can read the ConfigMap or finds that same name anyway.
   */
  lemma IdentityIsStableIff(cm: Option<ConfigMap>, starts: seq<Start>, i: nat)
    requires i < |starts|
    requires ResolvedAt(cm, starts, i).source == FromNodeLabels && SealSucceeds(After(cm, starts[..i]), starts[i].calls)
    ensures var v := ResolvedAt(cm, starts, i).name;
            AllNamed(cm, starts, i + 1, |starts|, v) <==> AllReturn(starts, i + 1, |starts|, v)
  {
    assert starts[..i + 1][..i] == starts[..i];
    StretchReturnsIff(cm, starts, i + 1, |starts|, ResolvedAt(cm, starts, i).name);
  }

  predicate AllSucceed(s: Start) {
    s.env == "" && s.calls == Calls(true, true, true, true)
  }

  /** With every call succeeding, the first name found is the name forever. */
  lemma FirstNameForever(cm: Option<ConfigMap>, starts: seq<Start>, i: nat, j: nat)
    requires i < j < |starts| && forall k | i <= k <= j :: AllSucceed(starts[k])
    requires ResolvedAt(cm, starts, i).source != Fallback
    ensures ResolvedAt(cm, starts, j).name == ResolvedAt(cm, starts, i).name
  {
    assert starts[..i + 1][..i] == starts[..i];
    SealKept(cm, starts, i + 1, j);
  }

  /** Sealing keeps the other entries of the ConfigMap. */
  lemma {:induction false} OtherEntriesKept(cm: Option<ConfigMap>, starts: seq<Start>, key: string)
    requires cm.Some? && key != IDENTITY_KEY
    ensures After(cm, starts).Some? && Get(After(cm, starts).value, key) == Get(cm.value, key)
  {
    if starts != [] {
      OtherEntriesKept(cm, starts[..|starts| - 1], key);
    }
  }
}
