/** What a scan posts, read off the deployments and the ConfigMaps (src/internal/controller/queue_link_runner.go). */
module QueueLinkContract {
  import opened Wrappers
  import opened Text
  import opened QueueLink

  // --- the values a deployment can see ---

  /** A variable has a value of its own, or else that of a ConfigMap's key. */
  predicate VarGives(store: Store, ns: Namespace, e: EnvVar, v: string) {
    if e.value != "" then v == e.value
    else
      && e.configMapKey.Some? && store(ns, e.configMapKey.value.name).Some?
      && e.configMapKey.value.key in store(ns, e.configMapKey.value.name).value
      && v == store(ns, e.configMapKey.value.name).value[e.configMapKey.value.key]
  }

  /** A whole ConfigMap gives all its values. */
  predicate MapGives(store: Store, ns: Namespace, name: Option<string>, v: string) {
    && name.Some? && store(ns, name.value).Some?
    && exists key :: key in store(ns, name.value).value && store(ns, name.value).value[key] == v
  }

  predicate ContainerSees(store: Store, ns: Namespace, k: Container, v: string) {
    || (exists e :: e in k.env && VarGives(store, ns, e, v))
    || (exists name :: name in k.envFrom && MapGives(store, ns, name, v))
  }

  /** One of the deployment's containers, init containers included, gets the value. */
  predicate Sees(store: Store, d: Deployment, v: string) {
    || (exists k :: k in d.containers && ContainerSees(store, d.namespace, k, v))
    || (exists k :: k in d.initContainers && ContainerSees(store, d.namespace, k, v))
  }

  lemma VarExact(store: Store, ns: Namespace, e: EnvVar, v: string)
    ensures v in EnvValues(store, ns, e) <==> VarGives(store, ns, e, v)
  {
  }

  lemma MapExact(store: Store, ns: Namespace, name: Option<string>, v: string)
    ensures v in EnvFromValues(store, ns, name) <==> MapGives(store, ns, name, v)
  {
  }

  lemma {:induction false} EnvExact(store: Store, ns: Namespace, es: seq<EnvVar>, v: string)
    ensures v in AllEnv(store, ns, es) <==> exists e :: e in es && VarGives(store, ns, e, v)
  {
    if es != [] {
      var init, last := es[..|es| - 1], es[|es| - 1];
      EnvExact(store, ns, init, v);
      VarExact(store, ns, last, v);
      assert last in es;
      if e :| e in init && VarGives(store, ns, e, v) {
        assert e in es;
      }
      if e :| e in es && VarGives(store, ns, e, v) {
        assert e in init || e == last;
      }
    }
  }

  lemma {:induction false} EnvFromExact(store: Store, ns: Namespace, names: seq<Option<string>>, v: string)
    ensures v in AllEnvFrom(store, ns, names) <==> exists name :: name in names && MapGives(store, ns, name, v)
  {
    if names != [] {
      var init, last := names[..|names| - 1], names[|names| - 1];
      EnvFromExact(store, ns, init, v);
      MapExact(store, ns, last, v);
      assert last in names;
      if name :| name in init && MapGives(store, ns, name, v) {
        assert name in names;
      }
      if name :| name in names && MapGives(store, ns, name, v) {
        assert name in init || name == last;
      }
    }
  }

  lemma {:induction false} ContainersExact(store: Store, ns: Namespace, ks: seq<Container>, v: string)
    ensures v in AllContainers(store, ns, ks) <==> exists k :: k in ks && ContainerSees(store, ns, k, v)
  {
    if ks != [] {
      var init, last := ks[..|ks| - 1], ks[|ks| - 1];
      ContainersExact(store, ns, init, v);
      EnvExact(store, ns, last.env, v);
      EnvFromExact(store, ns, last.envFrom, v);
      assert last in ks;
      if k :| k in init && ContainerSees(store, ns, k, v) {
        assert k in ks;
      }
      if k :| k in ks && ContainerSees(store, ns, k, v) {
        assert k in init || k == last;
      }
    }
  }

  lemma CandidatesExact(store: Store, d: Deployment, v: string)
    ensures v in Candidates(store, d) <==> Sees(store, d, v)
  {
    ContainersExact(store, d.namespace, d.containers + d.initContainers, v);
    assert forall k :: k in d.containers + d.initContainers <==> k in d.containers || k in d.initContainers;
  }

  // --- which values refer to a queue ---

  ghost predicate Occurs(part: string, s: string) {
    exists a, b :: s == a + part + b
  }

  lemma ContainsIff(s: string, part: string)
    ensures Contains(s, part) <==> Occurs(part, s)
  {
    if Contains(s, part) {
      var k :| 0 <= k <= |s| && part <= s[k..];
      assert s == s[..k] + part + s[k + |part|..];
    }
    if Occurs(part, s) {
      var a, b :| s == a + part + b;
      assert part <= s[|a|..];
    }
  }

  /**
   The value is one of the queue's names, or has its id in it, or its display name, when that is at least four bytes
   long.
   */
  ghost predicate Refers(v: string, q: QueueName) {
    || v == q.externalID || v == q.displayName
    || (q.externalID != "" && Occurs(q.externalID, v))
    || (ByteLength(q.displayName) >= 4 && Occurs(q.displayName, v))
  }

  ghost predicate UsesQueue(store: Store, d: Deployment, q: QueueName) {
    exists v :: Sees(store, d, v) && Refers(v, q)
  }

  lemma UsesIff(store: Store, d: Deployment, q: QueueName)
    ensures Uses(store, d, q) <==> UsesQueue(store, d, q)
  {
    forall v ensures v in Candidates(store, d) && RefersTo(v, q) <==> Sees(store, d, v) && Refers(v, q) {
      CandidatesExact(store, d, v);
      ContainsIff(v, q.externalID);
      ContainsIff(v, q.displayName);
    }
  }

  // --- what is posted ---

  predicate Tells(h: Hint, d: Deployment, q: QueueName) {
    && h.externalID == q.externalID && h.displayName == q.displayName
    && h.workloadUID == d.uid && h.workloadName == d.name && h.namespace == d.namespace
  }

  function Hints(names: seq<QueueName>, ds: seq<Deployment>, store: Store): seq<Hint> {
    var sent := Posted(Ok(names), Ok(ds), store);
    if sent.Some? then sent.value else []
  }

  lemma PairIff(store: Store, ds: seq<Deployment>, names: seq<QueueName>, d: Deployment, q: QueueName)
    ensures Pair(store, ds, names, d, q) <==> d in ds && q in names && UsesQueue(store, d, q)
  {
    UsesIff(store, d, q);
  }

  /** Every hint tells of a deployment and a queue it uses, and no two of the same queue and workload. */
  lemma HintsSound(names: seq<QueueName>, ds: seq<Deployment>, store: Store, i: nat)
      returns (d: Deployment, q: QueueName)
    requires i < |Hints(names, ds, store)|
    ensures d in ds && q in names && UsesQueue(store, d, q) && Tells(Hints(names, ds, store)[i], d, q)
    ensures forall j | 0 <= j < |Hints(names, ds, store)| && j != i ::
              var g, h := Hints(names, ds, store)[i], Hints(names, ds, store)[j];
              g.externalID != h.externalID || g.workloadUID != h.workloadUID
  {
    PostedExact(names, ds, store);
    var hints := Hints(names, ds, store);
    assert hints[i] in hints;
    d, q :| Pair(store, ds, names, d, q) && hints[i] == HintOf(d, q);
    PairIff(store, ds, names, d, q);
    forall j | 0 <= j < |hints| && j != i
      ensures hints[i].externalID != hints[j].externalID || hints[i].workloadUID != hints[j].workloadUID
    {
      assert Key(hints[i]) != Key(hints[j]);
    }
  }

  /** Every deployment that uses a queue has a hint for it. */
  lemma HintsComplete(names: seq<QueueName>, ds: seq<Deployment>, store: Store, d: Deployment, q: QueueName)
    requires d in ds && q in names && UsesQueue(store, d, q)
    ensures exists h :: h in Hints(names, ds, store) && h.externalID == q.externalID && h.workloadUID == d.uid
  {
    PostedExact(names, ds, store);
    PairIff(store, ds, names, d, q);
    var h :| h in Hints(names, ds, store) && Key(h) == HintKey(q.externalID, d.uid);
  }

  /** Without queue names or deployments nothing is posted, and an empty list never is. */
  lemma NothingPosted(names: Result<seq<QueueName>>, deployments: Result<seq<Deployment>>, store: Store)
    ensures names.Err? || deployments.Err? || names.value == [] ==> Posted(names, deployments, store) == None
    ensures Posted(names, deployments, store) != Some([])
  {
  }

  lemma MatchesSnoc(store: Store, ds: seq<Deployment>, d: Deployment, names: seq<QueueName>)
    ensures Matches(store, ds + [d], names) == Matches(store, ds, names) + UsedBy(store, d, names)
  {
    assert (ds + [d])[..|ds|] == ds;
  }

  /** Matches come deployment by deployment, and for each of them queue by queue. */
  lemma {:induction false} MatchesInOrder(store: Store, ds: seq<Deployment>, more: seq<Deployment>,
                                          names: seq<QueueName>)
    ensures Matches(store, ds + more, names) == Matches(store, ds, names) + Matches(store, more, names)
  {
    if more == [] {
      EmptyRight(ds);
      EmptyRight(Matches(store, ds, names));
    } else {
      var init, last := more[..|more| - 1], more[|more| - 1];
      MatchesInOrder(store, ds, init, names);
      assert more == init + [last];
      Assoc(ds, init, [last]);
      MatchesSnoc(store, ds + init, last, names);
      Assoc(Matches(store, ds, names), Matches(store, init, names), UsedBy(store, last, names));
    }
  }

  lemma UsedSnoc(store: Store, d: Deployment, names: seq<QueueName>, q: QueueName)
    ensures UsedBy(store, d, names + [q]) == UsedBy(store, d, names) + if Uses(store, d, q) then [HintOf(d, q)] else []
  {
    assert (names + [q])[..|names|] == names;
  }

  lemma {:induction false} UsedInOrder(store: Store, d: Deployment, names: seq<QueueName>, more: seq<QueueName>)
    ensures UsedBy(store, d, names + more) == UsedBy(store, d, names) + UsedBy(store, d, more)
  {
    if more == [] {
      EmptyRight(names);
      EmptyRight(UsedBy(store, d, names));
    } else {
      var init, last := more[..|more| - 1], more[|more| - 1];
      UsedInOrder(store, d, names, init);
      assert more == init + [last];
      Assoc(names, init, [last]);
      UsedSnoc(store, d, names + init, last);
      Assoc(UsedBy(store, d, names), UsedBy(store, d, init), if Uses(store, d, last) then [HintOf(d, last)] else []);
    }
  }

  /** The hints of one deployment and one queue. */
  lemma OneMatch(store: Store, d: Deployment, q: QueueName)
    ensures if UsesQueue(store, d, q) then |Matches(store, [d], [q])| == 1 && Tells(Matches(store, [d], [q])[0], d, q)
            else Matches(store, [d], [q]) == []
  {
    UsesIff(store, d, q);
    assert [d][..0] == [] && [q][..0] == [];
    assert UsedBy(store, d, [q]) == if Uses(store, d, q) then [HintOf(d, q)] else [];
    EmptyLeft(UsedBy(store, d, [q]));
    assert Matches(store, [d], [q]) == [] + UsedBy(store, d, [q]);
  }
}
