/**
 Merging the providers' subgraphs into one snapshot, then linking across them
 (src/internal/discovery/provider.go).
 */
module Registry {
  import opened Wrappers
  import opened Discovery
  import opened Correlator

  /** What a provider's Enabled and Discover answer in one sweep. */
  datatype Answer = Disabled | Fails(error: string) | Finds(sub: Subgraph)

  datatype Provider = Provider(name: string, answer: Answer)

  /** The implementations of the correlator interface. */
  datatype Linker = ServiceCorrelator

  datatype Snapshot = Snapshot(assets: seq<Asset>, relations: seq<Relation>, syncStatus: map<string, ProviderStatus>)

  function AssetsFrom(p: Provider): seq<Asset> {
    if p.answer.Finds? then p.answer.sub.assets else []
  }

  function RelationsFrom(p: Provider): seq<Relation> {
    if p.answer.Finds? then p.answer.sub.relations else []
  }

  /** A provider that is not connected is not an error, and a status left empty means success. */
  function StatusFrom(p: Provider): ProviderStatus {
    match p.answer
    case Disabled => ProviderStatus(NotConfigured, 0, "")
    case Fails(error) => ProviderStatus(Failed, 0, error)
    case Finds(sub) =>
      ProviderStatus(if sub.status.state == Unset then OK else sub.status.state, |sub.assets|, sub.status.error)
  }

  function AllAssets(providers: seq<Provider>): seq<Asset> {
    Flat(providers, AssetsFrom)
  }

  function AllRelations(providers: seq<Provider>): seq<Relation> {
    Flat(providers, RelationsFrom)
  }

  function AllStatuses(providers: seq<Provider>): map<string, ProviderStatus> {
    if providers == [] then map[]
    else
      var p := providers[|providers| - 1];
      AllStatuses(providers[..|providers| - 1])[p.name := StatusFrom(p)]
  }

  function Merged(providers: seq<Provider>): Snapshot {
    Snapshot(AllAssets(providers), AllRelations(providers), AllStatuses(providers))
  }

  function Linked(snap: Snapshot, linkers: seq<Linker>): Snapshot {
    if linkers == [] then snap
    else
      var rest := Linked(snap, linkers[..|linkers| - 1]);
      rest.(relations := rest.relations + Correlated(rest.assets))
  }

  class Registry {
    var providers: seq<Provider>
    var correlators: seq<Linker>

    constructor (ps: seq<Provider>)
      ensures providers == ps && correlators == []
    {
      providers, correlators := ps, [];
    }

    method WithCorrelators(ls: seq<Linker>)
      modifies this`correlators
      ensures correlators == ls
    {
      correlators := ls;
    }

    method DiscoverAll() returns (snap: Snapshot)
      ensures snap == Linked(Merged(providers), correlators)
    {
      var assets, relations, syncStatus := [], [], map[];
      for i := 0 to |providers|
        invariant Snapshot(assets, relations, syncStatus) == Merged(providers[..i])
      {
        var p := providers[i];
        assert providers[..i + 1][..i] == providers[..i];
        match p.answer {
          case Disabled =>
            syncStatus := syncStatus[p.name := ProviderStatus(NotConfigured, 0, "")];
          case Fails(error) =>
            syncStatus := syncStatus[p.name := ProviderStatus(Failed, 0, error)];
          case Finds(sub) =>
            assets, relations := assets + sub.assets, relations + sub.relations;
            var st := sub.status;
            if st.state == Unset {
              st := st.(state := OK);
            }
            syncStatus := syncStatus[p.name := st.(assetCount := |sub.assets|)];
        }
      }
      assert providers[..|providers|] == providers;
      snap := Snapshot(assets, relations, syncStatus);
      for i := 0 to |correlators|
        invariant snap == Linked(Merged(providers), correlators[..i])
      {
        assert correlators[..i + 1][..i] == correlators[..i];
        var links := Correlate(snap.assets);
        snap := snap.(relations := snap.relations + links);
      }
      assert correlators[..|correlators|] == correlators;
    }
  }

  // --- what the merge keeps ---

  lemma AddUpdated<K, V>(m: map<K, V>, n: map<K, V>, k: K, v: V)
    ensures (m + n)[k := v] == m + n[k := v]
  {
  }

  lemma {:induction false} StatusesConcat(a: seq<Provider>, b: seq<Provider>)
    ensures AllStatuses(a + b) == AllStatuses(a) + AllStatuses(b)
  {
    if b == [] {
      assert a + b == a;
    } else {
      var init, p := b[..|b| - 1], b[|b| - 1];
      StatusesConcat(a, init);
      assert (a + b)[..|a + b| - 1] == a + init;
      AddUpdated(AllStatuses(a), AllStatuses(init), p.name, StatusFrom(p));
    }
  }

  predicate DistinctNames(providers: seq<Provider>) {
    forall i, j | 0 <= i < j < |providers| :: providers[i].name != providers[j].name
  }

  lemma {:induction false} MergedNames(providers: seq<Provider>)
    ensures forall n :: n in Merged(providers).syncStatus
              <==> exists i :: 0 <= i < |providers| && providers[i].name == n
  {
    if providers != [] {
      var init, last := providers[..|providers| - 1], providers[|providers| - 1];
      MergedNames(init);
      forall n
        ensures n in Merged(providers).syncStatus <==> exists i :: 0 <= i < |providers| && providers[i].name == n
      {
        if n in Merged(init).syncStatus {
          var i :| 0 <= i < |init| && init[i].name == n;
          assert providers[i].name == n;
        }
        if i :| 0 <= i < |providers| && providers[i].name == n {
          assert i < |init| ==> init[i].name == n;
        }
      }
    }
  }

  lemma NameAbsent(before: seq<Provider>, p: Provider, after: seq<Provider>)
    requires DistinctNames(before + [p] + after)
    ensures p.name !in AllStatuses(before) && p.name !in AllStatuses(after)
  {
    var ps := before + [p] + after;
    assert ps[|before|] == p;
    MergedNames(before);
    MergedNames(after);
    forall i | 0 <= i < |after| ensures after[i].name != p.name {
      assert ps[|before| + 1 + i] == after[i];
    }
    forall i | 0 <= i < |before| ensures before[i].name != p.name {
      assert ps[i] == before[i];
    }
  }

  lemma WithoutAssets(before: seq<Provider>, p: Provider, after: seq<Provider>)
    requires !p.answer.Finds?
    ensures AllAssets(before + [p] + after) == AllAssets(before + after)
  {
    assert (before + [p])[..|before|] == before;
    FlatConcat(before, after, AssetsFrom);
    FlatConcat(before + [p], after, AssetsFrom);
    EmptyRight(AllAssets(before));
  }

  lemma WithoutRelations(before: seq<Provider>, p: Provider, after: seq<Provider>)
    requires !p.answer.Finds?
    ensures AllRelations(before + [p] + after) == AllRelations(before + after)
  {
    assert (before + [p])[..|before|] == before;
    FlatConcat(before, after, RelationsFrom);
    FlatConcat(before + [p], after, RelationsFrom);
    EmptyRight(AllRelations(before));
  }

  lemma WithoutStatus(before: seq<Provider>, p: Provider, after: seq<Provider>)
    requires p.name !in AllStatuses(before) && p.name !in AllStatuses(after)
    ensures AllStatuses(before + [p] + after) == AllStatuses(before + after)[p.name := StatusFrom(p)]
    ensures p.name !in AllStatuses(before + after)
  {
    assert (before + [p])[..|before|] == before;
    StatusesConcat(before, after);
    StatusesConcat(before + [p], after);
  }

  /** The snapshot has every asset and relation that some provider found, and no others. */
  lemma MergedExact(providers: seq<Provider>, a: Asset, r: Relation)
    ensures a in Merged(providers).assets
            <==> exists p :: p in providers && p.answer.Finds? && a in p.answer.sub.assets
    ensures r in Merged(providers).relations
            <==> exists p :: p in providers && p.answer.Finds? && r in p.answer.sub.relations
  {
    FlatExact(providers, AssetsFrom, a, (p: Provider) => p.answer.Finds? && a in p.answer.sub.assets);
    FlatExact(providers, RelationsFrom, r, (p: Provider) => p.answer.Finds? && r in p.answer.sub.relations);
  }

  /** What the snapshot says about a provider: that of the last one of its name. */
  predicate Reported(p: Provider, st: ProviderStatus) {
    match p.answer
    case Disabled => st == ProviderStatus(NotConfigured, 0, "")
    case Fails(e) => st == ProviderStatus(Failed, 0, e)
    case Finds(sub) =>
      && st.assetCount == |sub.assets| && st.error == sub.status.error
      && (sub.status.state != Unset ==> st.state == sub.status.state)
      && (sub.status.state == Unset ==> st.state == OK)
  }

  lemma {:induction false} StatusExact(providers: seq<Provider>, i: nat)
    requires i < |providers| && forall j | i < j < |providers| :: providers[j].name != providers[i].name
    ensures providers[i].name in Merged(providers).syncStatus
    ensures Reported(providers[i], Merged(providers).syncStatus[providers[i].name])
  {
    if i < |providers| - 1 {
      StatusExact(providers[..|providers| - 1], i);
    }
  }

  /** Whatever happens to one provider, the others' assets, relations and statuses are as if it were absent. */
  lemma FailureIsIsolated(before: seq<Provider>, p: Provider, after: seq<Provider>)
    requires !p.answer.Finds? && DistinctNames(before + [p] + after)
    ensures var snap, without := Merged(before + [p] + after), Merged(before + after);
            && snap.assets == without.assets && snap.relations == without.relations
            && snap.syncStatus == without.syncStatus[p.name := StatusFrom(p)]
            && p.name !in without.syncStatus
  {
    WithoutAssets(before, p, after);
    WithoutRelations(before, p, after);
    NameAbsent(before, p, after);
    WithoutStatus(before, p, after);
  }

  /** The assets that the statuses claim for the given providers, in all. */
  function Claimed(providers: seq<Provider>, syncStatus: map<string, ProviderStatus>): nat
    requires forall i | 0 <= i < |providers| :: providers[i].name in syncStatus
  {
    if providers == [] then 0
    else
      var n := |providers| - 1;
      Claimed(providers[..n], syncStatus) + syncStatus[providers[n].name].assetCount
  }

  lemma {:induction false} ClaimedAgree(providers: seq<Provider>, a: map<string, ProviderStatus>,
                                       b: map<string, ProviderStatus>)
    requires forall i | 0 <= i < |providers| ::
               providers[i].name in a && providers[i].name in b && a[providers[i].name] == b[providers[i].name]
    ensures Claimed(providers, a) == Claimed(providers, b)
  {
    if providers != [] {
      ClaimedAgree(providers[..|providers| - 1], a, b);
    }
  }

  /** No asset is lost or counted twice: the reported counts add up to the assets of the snapshot. */
  lemma {:induction false} CountsAddUp(providers: seq<Provider>)
    requires DistinctNames(providers)
    ensures forall i | 0 <= i < |providers| :: providers[i].name in Merged(providers).syncStatus
    ensures Claimed(providers, Merged(providers).syncStatus) == |Merged(providers).assets|
  {
    MergedNames(providers);
    if providers != [] {
      var n := |providers| - 1;
      CountsAddUp(providers[..n]);
      ClaimedAgree(providers[..n], Merged(providers[..n]).syncStatus, Merged(providers).syncStatus);
    }
  }

  /** One correlator adds exactly its links; it changes neither assets nor statuses. */
  lemma {:induction false} LinkedKeeps(snap: Snapshot, linkers: seq<Linker>)
    ensures Linked(snap, linkers).assets == snap.assets && Linked(snap, linkers).syncStatus == snap.syncStatus
    ensures snap.relations <= Linked(snap, linkers).relations
    ensures forall r | r in Linked(snap, linkers).relations :: r in snap.relations || r in Correlated(snap.assets)
  {
    if linkers != [] {
      LinkedKeeps(snap, linkers[..|linkers| - 1]);
    }
  }

  predicate BothEnds(assets: seq<Asset>, r: Relation) {
    HasAsset(assets, r.sourceProvider, r.source) && HasAsset(assets, r.targetProvider, r.target)
  }

  lemma BothEndsMore(assets: seq<Asset>, more: seq<Asset>, r: Relation)
    requires BothEnds(assets, r)
    ensures BothEnds(assets + more, r) && BothEnds(more + assets, r)
  {
    var a :| a in assets && a.provider == r.sourceProvider && a.externalID == r.source;
    var b :| b in assets && b.provider == r.targetProvider && b.externalID == r.target;
    assert a in assets + more && b in assets + more && a in more + assets && b in more + assets;
  }

  /** A relation whose ends are in its own provider's subgraph keeps them in the snapshot. */
  lemma {:induction false} EndsSurviveMerge(providers: seq<Provider>, r: Relation)
    requires r in Merged(providers).relations
    requires forall p | p in providers && r in RelationsFrom(p) :: BothEnds(AssetsFrom(p), r)
    ensures BothEnds(Merged(providers).assets, r)
  {
    var init, last := providers[..|providers| - 1], providers[|providers| - 1];
    if r in RelationsFrom(last) {
      BothEndsMore(AssetsFrom(last), Merged(init).assets, r);
    } else {
      EndsSurviveMerge(init, r);
      BothEndsMore(Merged(init).assets, AssetsFrom(last), r);
    }
  }

  /** The same after the correlators: their own links also have both ends in the snapshot. */
  lemma EndsSurvive(providers: seq<Provider>, linkers: seq<Linker>, r: Relation)
    requires r in Linked(Merged(providers), linkers).relations
    requires forall p | p in providers && r in RelationsFrom(p) :: BothEnds(AssetsFrom(p), r)
    ensures BothEnds(Linked(Merged(providers), linkers).assets, r)
  {
    var snap := Merged(providers);
    LinkedKeeps(snap, linkers);
    if r in snap.relations {
      EndsSurviveMerge(providers, r);
    } else {
      LinksAreGrounded(snap.assets, r);
    }
  }
}
