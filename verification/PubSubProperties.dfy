/** What a collection of Pub/Sub metrics guarantees to the cycle that consumes it. */
module PubSubProperties {
  import opened Wrappers
  import opened Orders
  import opened Text
  import opened Queue
  import opened PubSub
  import opened MonitorStore
  import opened MonitorManager
  import opened QueueRunner
  import opened QueueRace

  function ProjectOf(labels: Labels, id: string): string {
    Get(TagsOf(labels, id), "project_id")
  }

  /** A path is read back in one way only, when its project has no slash. */
  lemma FullPathInjective(p: string, a: string, q: string, b: string)
    requires '/' !in p && '/' !in q && FullPath(p, a) == FullPath(q, b)
    ensures p == q && a == b
  {
    FullPathParts(p, a);
    FullPathParts(q, b);
    CutFirst(p, "subscriptions/" + a, q, "subscriptions/" + b, '/');
    assert a == ("subscriptions/" + a)[14..] == ("subscriptions/" + b)[14..] == b;
  }

  lemma FullPathParts(p: string, a: string)
    ensures |PROJECTS| <= |FullPath(p, a)| && FullPath(p, a)[|PROJECTS|..] == p + ['/'] + ("subscriptions/" + a)
  {
    assert "/subscriptions/" == ['/'] + "subscriptions/";
    assert FullPath(p, a) == PROJECTS + (p + ['/'] + ("subscriptions/" + a));
  }

  /** One collected id is the full path of another. */
  predicate Shadows(labels: Labels, a: string, b: string) {
    Qualified(a, ProjectOf(labels, a)) && b == FullPath(ProjectOf(labels, a), a)
  }

  function ExternalOf(labels: Labels, id: string): string {
    ExternalID(id, ProjectOf(labels, id))
  }

  lemma SameExternalID(labels: Labels, a: string, b: string)
    requires '/' !in ProjectOf(labels, a) && '/' !in ProjectOf(labels, b)
    ensures ExternalOf(labels, a) == ExternalOf(labels, b) <==> a == b || Shadows(labels, a, b) || Shadows(labels, b, a)
    ensures !Shadows(labels, a, a)
  {
    var p, q := ProjectOf(labels, a), ProjectOf(labels, b);
    assert PROJECTS <= FullPath(p, a) && PROJECTS <= FullPath(q, b);
    if Qualified(a, p) && Qualified(b, q) && FullPath(p, a) == FullPath(q, b) {
      FullPathInjective(p, a, q, b);
    }
  }

  lemma ExternalsOf(answers: Answers, labels: Labels, ids: seq<string>, i: nat)
    requires i < |ids|
    ensures Flagged(SnapshotsFor(answers, labels, ids))[i].externalID == ExternalOf(labels, ids[i])
    ensures Flagged(SnapshotsFor(answers, labels, ids))[i].projectID == ProjectOf(labels, ids[i])
  {
  }

  /**
   With slash-free project ids, the external ids of a collection are pairwise distinct exactly when no collected
   id is already the full path of another.
   */
  lemma ExternalIDsDistinctIff(answers: Answers, labels: Labels, ids: seq<string>)
    requires NoDup(ids)
    requires forall id | id in ids :: '/' !in ProjectOf(labels, id)
    ensures DistinctIDs(Flagged(SnapshotsFor(answers, labels, ids)))
            <==> forall a, b | a in ids && b in ids :: !Shadows(labels, a, b)
  {
    var snaps := Flagged(SnapshotsFor(answers, labels, ids));
    forall i | 0 <= i < |ids| ensures snaps[i].externalID == ExternalOf(labels, ids[i]) {
      ExternalsOf(answers, labels, ids, i);
    }
    if DistinctIDs(snaps) {
      forall a, b | a in ids && b in ids ensures !Shadows(labels, a, b) {
        var i :| 0 <= i < |ids| && ids[i] == a;
        var j :| 0 <= j < |ids| && ids[j] == b;
        SameExternalID(labels, a, b);
        assert i < j || j < i || a == b;
      }
    }
    if forall a, b | a in ids && b in ids :: !Shadows(labels, a, b) {
      forall i, j | 0 <= i < j < |snaps| ensures snaps[i].externalID != snaps[j].externalID {
        SameExternalID(labels, ids[i], ids[j]);
      }
    }
  }

  /**
   Ids as Datadog reports them, without the "projects/" path, give distinct external ids: this is what lets the
   workers of a cycle run side by side.
   */
  lemma CollectionFeedsTheCycle(answers: Answers, labels: Labels, ids: seq<string>, r: Replies, learningCycles: int)
    requires NoDup(ids) && forall id | id in ids :: '/' !in ProjectOf(labels, id)
    requires forall id | id in ids :: !(PROJECTS <= id)
    requires r.snapshots == Ok(Flagged(SnapshotsFor(answers, labels, ids))) && Plan(r, learningCycles).Some?
    ensures Planned(Plan(r, learningCycles).value) && QueueConfluence.Coherent(Plan(r, learningCycles).value)
  {
    forall a, b | a in ids && b in ids ensures !Shadows(labels, a, b) {
      assert PROJECTS <= FullPath(ProjectOf(labels, a), a);
    }
    ExternalIDsDistinctIff(answers, labels, ids);
    PlannedCoherent(Plan(r, learningCycles).value);
  }

  /**
   An id that is the full path of another is not harmless: the two snapshots then share one external id, and their
   workers can give the subscription its monitors twice.
   */
  lemma ShadowedIDsRace(answers: Answers, labels: Labels, ids: seq<string>, r: Replies, learningCycles: int,
                        store: Store, i: nat, j: nat)
    requires i < |ids| && j < |ids| && Shadows(labels, ids[i], ids[j])
    requires '/' !in ProjectOf(labels, ids[i]) && '/' !in ProjectOf(labels, ids[j])
    requires r.snapshots == Ok(Flagged(SnapshotsFor(answers, labels, ids))) && Plan(r, learningCycles).Some?
    requires var c := Plan(r, learningCycles).value;
             WillCreate(c, store, c.tasks[i]) && WillCreate(c, store, c.tasks[j])
    ensures !DistinctIDs(r.snapshots.value)
    ensures CanDuplicate(Plan(r, learningCycles).value, store, LookupTags(0, ids[j]))
  {
    SameExternalID(labels, ids[i], ids[j]);
    ExternalsOf(answers, labels, ids, i);
    ExternalsOf(answers, labels, ids, j);
    SharedIDsRace(r, learningCycles, store, i, j);
  }

  // --- the dead-letter flag ---

  lemma SameTopicKey(s: Snapshot, t: Snapshot)
    requires '/' !in s.projectID && '/' !in t.projectID
    ensures TopicKey(s) == TopicKey(t) <==> s.projectID == t.projectID && s.topicID == t.topicID
  {
    assert TopicKey(s) == s.projectID + ['/'] + s.topicID && TopicKey(t) == t.projectID + ['/'] + t.topicID;
    if TopicKey(s) == TopicKey(t) {
      CutFirst(s.projectID, s.topicID, t.projectID, t.topicID, '/');
    }
  }

  /** A subscription has a dead-letter queue exactly when a dead-letter subscription shares its project and topic. */
  lemma FlagExact(snaps: seq<Snapshot>, i: nat)
    requires i < |snaps| && forall s | s in snaps :: '/' !in s.projectID && !s.hasDLQConfigured
    ensures Flagged(snaps)[i].hasDLQConfigured
            <==> !snaps[i].isDLQ
                 && exists t :: t in snaps && t.isDLQ
                                && t.projectID == snaps[i].projectID && t.topicID == snaps[i].topicID
  {
    var s := snaps[i];
    assert s in snaps;
    if TopicKey(s) in DLQKeys(snaps) {
      var t :| t in snaps && t.isDLQ && TopicKey(t) == TopicKey(s);
      SameTopicKey(s, t);
    }
    if t :| t in snaps && t.isDLQ && t.projectID == s.projectID && t.topicID == s.topicID {
      SameTopicKey(s, t);
    }
  }

  // --- independence of the visiting order ---

  predicate SameNumbers(s: Snapshot, t: Snapshot) {
    && s.backlog == t.backlog && s.ageSec == t.ageSec && s.pullRate == t.pullRate && s.ackRate == t.ackRate
    && s.deadLetters == t.deadLetters
  }

  lemma NumbersOf(answers: Answers, l1: Labels, l2: Labels, id: string)
    ensures SameNumbers(SnapshotFor(answers, l1, id), SnapshotFor(answers, l2, id))
  {
  }

  lemma NumbersAt(answers: Answers, l1: Labels, ids1: seq<string>, i: nat, l2: Labels, ids2: seq<string>, j: nat)
    requires i < |ids1| && j < |ids2| && ids1[i] == ids2[j]
    ensures SameNumbers(Flagged(SnapshotsFor(answers, l1, ids1))[i], Flagged(SnapshotsFor(answers, l2, ids2))[j])
  {
    NumbersOf(answers, l1, l2, ids1[i]);
    FlagKeepsNumbers(SnapshotsFor(answers, l1, ids1), i);
    FlagKeepsNumbers(SnapshotsFor(answers, l2, ids2), j);
  }

  lemma FlagKeepsNumbers(snaps: seq<Snapshot>, i: nat)
    requires i < |snaps|
    ensures SameNumbers(Flagged(snaps)[i], snaps[i])
  {
  }

  /**
   Two collections of the same answers, whatever the order of queries and subscriptions, cover the same
   subscriptions with the same numbers.
   */
  lemma NumbersIgnoreOrder(answers: Answers, l1: Labels, ids1: seq<string>, l2: Labels, ids2: seq<string>, i: nat)
    requires Enumerates(ids1, IDs(answers)) && Enumerates(ids2, IDs(answers)) && i < |ids1|
    ensures exists j :: 0 <= j < |ids2| && ids2[j] == ids1[i]
              && SameNumbers(Flagged(SnapshotsFor(answers, l1, ids1))[i], Flagged(SnapshotsFor(answers, l2, ids2))[j])
  {
    assert ids1[i] in ids1;
    var j :| 0 <= j < |ids2| && ids2[j] == ids1[i];
    NumbersAt(answers, l1, ids1, i, l2, ids2, j);
  }

  /** The tags that one answer alone would give a subscription. */
  function LabelsFrom(answers: Answers, m: Metric): Labels {
    Labelled(map[], SeriesOf(answers, m))
  }

  lemma {:induction false} LabelledKeeps(seen: Labels, ss: seq<Series>)
    ensures Labelled(seen, ss) == Labelled(map[], ss) + seen
  {
    if ss != [] {
      LabelledKeeps(seen, ss[..|ss| - 1]);
    }
  }

  /** The first answer that mentions the subscription decides. */
  lemma {:induction false} FirstDecides(answers: Answers, order: seq<Metric>, id: string)
    ensures id in LabelsAfter(answers, order) <==> exists m :: m in order && id in LabelsFrom(answers, m)
    ensures id in LabelsAfter(answers, order) ==>
              exists m :: m in order && id in LabelsFrom(answers, m)
                          && LabelsAfter(answers, order)[id] == LabelsFrom(answers, m)[id]
    ensures order != [] && id in LabelsFrom(answers, order[0]) ==>
              id in LabelsAfter(answers, order) && LabelsAfter(answers, order)[id] == LabelsFrom(answers, order[0])[id]
  {
    if order != [] {
      var init, last := order[..|order| - 1], order[|order| - 1];
      FirstDecides(answers, init, id);
      LabelledKeeps(LabelsAfter(answers, init), SeriesOf(answers, last));
      assert order == init + [last];
      if id in LabelsAfter(answers, init) {
        var m :| m in init && id in LabelsFrom(answers, m)
                 && LabelsAfter(answers, init)[id] == LabelsFrom(answers, m)[id];
        assert m in order;
      } else if id in LabelsFrom(answers, last) {
        assert last in order;
      }
    }
  }

  /** An order that starts with the given query. */
  lemma OrderFrom(m: Metric) returns (order: seq<Metric>)
    ensures Enumerates(order, METRICS) && order[0] == m
  {
    AllMetrics();
    order := Completed([m], METRICS);
  }

  ghost predicate OrderMatters(answers: Answers, id: string) {
    exists a, b | Enumerates(a, METRICS) && Enumerates(b, METRICS) ::
      TagsOf(LabelsAfter(answers, a), id) != TagsOf(LabelsAfter(answers, b), id)
  }

  /** A subscription's labels depend on the visiting order exactly when two answers tag it differently. */
  lemma LabelsDependOnOrderIff(answers: Answers, id: string)
    ensures OrderMatters(answers, id)
            <==> exists m, n | id in LabelsFrom(answers, m) && id in LabelsFrom(answers, n) ::
                   LabelsFrom(answers, m)[id] != LabelsFrom(answers, n)[id]
  {
    if OrderMatters(answers, id) {
      var a, b :| Enumerates(a, METRICS) && Enumerates(b, METRICS)
                  && TagsOf(LabelsAfter(answers, a), id) != TagsOf(LabelsAfter(answers, b), id);
      FirstDecides(answers, a, id);
      FirstDecides(answers, b, id);
    }
    if m, n :| id in LabelsFrom(answers, m) && id in LabelsFrom(answers, n)
               && LabelsFrom(answers, m)[id] != LabelsFrom(answers, n)[id] {
      var a := OrderFrom(m);
      var b := OrderFrom(n);
      FirstDecides(answers, a, id);
      FirstDecides(answers, b, id);
    }
  }

  // --- independence of the visiting order, for the identity ---

  /** The external id of a collected subscription depends on the order in which the queries are visited. */
  ghost predicate IdentityDependsOnOrder(answers: Answers, id: string) {
    exists a, b | Enumerates(a, METRICS) && Enumerates(b, METRICS) ::
      ExternalOf(LabelsAfter(answers, a), id) != ExternalOf(LabelsAfter(answers, b), id)
  }

  /** Two answers that mention the subscription name different projects, an absent one counting as empty. */
  ghost predicate ProjectsDiffer(answers: Answers, id: string) {
    exists m, n | id in LabelsFrom(answers, m) && id in LabelsFrom(answers, n) ::
      ProjectOf(LabelsFrom(answers, m), id) != ProjectOf(LabelsFrom(answers, n), id)
  }

  /** The project decides the external id, unless the id is a full path already. */
  lemma ExternalIDByProject(id: string, p: string, q: string)
    ensures ExternalID(id, p) != ExternalID(id, q) <==> !(PROJECTS <= id) && p != q
  {
    if p != "" && ExternalID(id, p) == id {
      assert Qualified(id, p) ==> |FullPath(p, id)| > |id|;
    }
    FullPathLength(p, id);
    FullPathLength(q, id);
    FullPathTail(p, q, id);
  }

  lemma FullPathLength(p: string, id: string)
    ensures |FullPath(p, id)| == |PROJECTS| + |p| + |"/subscriptions/"| + |id|
  {
  }

  /** One id under two projects gives two paths. */
  lemma FullPathTail(p: string, q: string, id: string)
    ensures FullPath(p, id) == FullPath(q, id) <==> p == q
  {
    FullPathLength(p, id);
    FullPathLength(q, id);
    if FullPath(p, id) == FullPath(q, id) {
      assert p == FullPath(p, id)[|PROJECTS|..|PROJECTS| + |p|];
      assert q == FullPath(q, id)[|PROJECTS|..|PROJECTS| + |q|];
    }
  }

  /** The project after any order is the one of some answer that mentions the subscription; each can come first. */
  lemma ProjectAfter(answers: Answers, order: seq<Metric>, id: string)
    ensures id !in LabelsAfter(answers, order) ==> ProjectOf(LabelsAfter(answers, order), id) == ""
    ensures id in LabelsAfter(answers, order) ==>
              exists m :: id in LabelsFrom(answers, m)
                          && ProjectOf(LabelsAfter(answers, order), id) == ProjectOf(LabelsFrom(answers, m), id)
    ensures order != [] && id in LabelsFrom(answers, order[0]) ==>
              ProjectOf(LabelsAfter(answers, order), id) == ProjectOf(LabelsFrom(answers, order[0]), id)
  {
    FirstDecides(answers, order, id);
  }

  /**
   External ids, by which the monitors of a subscription are found, depend on the visiting order exactly for an id
   that is not a full path and that two answers place in different projects.
   */
  lemma IdentityDependsOnOrderIff(answers: Answers, id: string)
    ensures IdentityDependsOnOrder(answers, id) <==> !(PROJECTS <= id) && ProjectsDiffer(answers, id)
  {
    if IdentityDependsOnOrder(answers, id) {
      var a, b :| Enumerates(a, METRICS) && Enumerates(b, METRICS)
                  && ExternalOf(LabelsAfter(answers, a), id) != ExternalOf(LabelsAfter(answers, b), id);
      ExternalIDByProject(id, ProjectOf(LabelsAfter(answers, a), id), ProjectOf(LabelsAfter(answers, b), id));
      MentionedAlike(answers, a, b, id);
      ProjectAfter(answers, a, id);
      ProjectAfter(answers, b, id);
    }
    if !(PROJECTS <= id) && ProjectsDiffer(answers, id) {
      var m, n :| id in LabelsFrom(answers, m) && id in LabelsFrom(answers, n)
                  && ProjectOf(LabelsFrom(answers, m), id) != ProjectOf(LabelsFrom(answers, n), id);
      var a := OrderFrom(m);
      var b := OrderFrom(n);
      ProjectAfter(answers, a, id);
      ProjectAfter(answers, b, id);
      ExternalIDByProject(id, ProjectOf(LabelsAfter(answers, a), id), ProjectOf(LabelsAfter(answers, b), id));
    }
  }

  lemma MentionedAlike(answers: Answers, a: seq<Metric>, b: seq<Metric>, id: string)
    requires Enumerates(a, METRICS) && Enumerates(b, METRICS)
    ensures id in LabelsAfter(answers, a) <==> id in LabelsAfter(answers, b)
  {
    FirstDecides(answers, a, id);
    FirstDecides(answers, b, id);
    assert forall m :: m in a <==> m in b;
  }

  // --- what never depends on the order ---

  lemma {:induction false} SplitLast(a: string, b: string, sep: char)
    ensures var whole, tail := Split(a + [sep] + b, sep), Split(b, sep);
            whole[|whole| - 1] == tail[|tail| - 1]
  {
    var s := a + [sep] + b;
    if a == "" {
      assert s[1..] == b;
    } else {
      assert s[1..] == a[1..] + [sep] + b;
      SplitLast(a[1..], b, sep);
      SplitLong(a[1..], b, sep);
    }
  }

  lemma {:induction false} SplitLong(a: string, b: string, sep: char)
    ensures |Split(a + [sep] + b, sep)| >= 2
  {
    var s := a + [sep] + b;
    if a == "" {
      assert s[1..] == b;
    } else {
      assert s[1..] == a[1..] + [sep] + b;
      SplitLong(a[1..], b, sep);
    }
  }

  lemma SubNameOfPath(prefix: string, id: string)
    ensures SubName(prefix + ['/'] + id) == SubName(id)
  {
    SplitLast(prefix, id, '/');
  }

  lemma FullPathEnds(project: string, id: string) returns (prefix: string)
    ensures FullPath(project, id) == prefix + ['/'] + id
  {
    prefix := PROJECTS + project + "/subscriptions";
    assert "/subscriptions/" == "/subscriptions" + ['/'];
  }

  /** The short name is the id's own, whatever project it is placed in. */
  lemma ShortNameIsOwn(id: string, project: string)
    ensures SubName(ExternalID(id, project)) == SubName(id)
  {
    var prefix := FullPathEnds(project, id);
    SubNameOfPath(prefix, id);
  }

  /** Display name, and with it whether the queue is a dead-letter queue, never depend on the visiting order. */
  lemma NamesIgnoreOrder(answers: Answers, l1: Labels, l2: Labels, id: string)
    ensures var s, t := SnapshotFor(answers, l1, id), SnapshotFor(answers, l2, id);
            s.displayName == t.displayName == SubName(id) && s.isDLQ == t.isDLQ == Contains(Lower(SubName(id)), "dlq")
  {
    ShortNameIsOwn(id, ProjectOf(l1, id));
    ShortNameIsOwn(id, ProjectOf(l2, id));
  }
}
