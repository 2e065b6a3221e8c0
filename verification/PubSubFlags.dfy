/**
 When the dead-letter flag of a subscription depends on the order in which the five answers are visited.
 */
module PubSubFlags {
  import opened Wrappers
  import opened Orders
  import opened Text
  import opened Queue
  import opened PubSub
  import opened PubSubProperties

  function TopicOf(labels: Labels, id: string): string {
    Get(TagsOf(labels, id), "topic_id")
  }

  /** All answers that mention the subscription place it in one project and topic. */
  ghost predicate PlacedOnce(answers: Answers, id: string) {
    forall m, n | id in LabelsFrom(answers, m) && id in LabelsFrom(answers, n) ::
      && ProjectOf(LabelsFrom(answers, m), id) == ProjectOf(LabelsFrom(answers, n), id)
      && TopicOf(LabelsFrom(answers, m), id) == TopicOf(LabelsFrom(answers, n), id)
  }

  lemma PlaceIgnoresOrder(answers: Answers, a: seq<Metric>, b: seq<Metric>, id: string)
    requires Enumerates(a, METRICS) && Enumerates(b, METRICS) && PlacedOnce(answers, id)
    ensures ProjectOf(LabelsAfter(answers, a), id) == ProjectOf(LabelsAfter(answers, b), id)
    ensures TopicOf(LabelsAfter(answers, a), id) == TopicOf(LabelsAfter(answers, b), id)
  {
    MentionedAlike(answers, a, b, id);
    FirstDecides(answers, a, id);
    FirstDecides(answers, b, id);
  }

  lemma SameKeyAndKind(answers: Answers, l1: Labels, l2: Labels, id: string)
    requires ProjectOf(l1, id) == ProjectOf(l2, id) && TopicOf(l1, id) == TopicOf(l2, id)
    ensures var s, t := SnapshotFor(answers, l1, id), SnapshotFor(answers, l2, id);
            TopicKey(s) == TopicKey(t) && s.isDLQ == t.isDLQ
  {
    NamesIgnoreOrder(answers, l1, l2, id);
  }

  /** Which topics have a dead-letter queue. */
  lemma DLQKeyOf(answers: Answers, labels: Labels, ids: seq<string>, key: string)
    ensures key in DLQKeys(SnapshotsFor(answers, labels, ids)) <==>
            exists id :: id in ids && SnapshotFor(answers, labels, id).isDLQ
                         && TopicKey(SnapshotFor(answers, labels, id)) == key
  {
    var snaps := SnapshotsFor(answers, labels, ids);
    if key in DLQKeys(snaps) {
      var s :| s in snaps && s.isDLQ && TopicKey(s) == key;
      var i :| 0 <= i < |snaps| && snaps[i] == s;
      assert ids[i] in ids;
    }
    if id :| id in ids && SnapshotFor(answers, labels, id).isDLQ && TopicKey(SnapshotFor(answers, labels, id)) == key {
      var i :| 0 <= i < |ids| && ids[i] == id;
      assert snaps[i] in snaps;
    }
  }

  lemma DLQKeysWithin(answers: Answers, l1: Labels, ids1: seq<string>, l2: Labels, ids2: seq<string>)
    requires forall id | id in ids1 :: id in ids2
    requires forall id | id in ids1 :: ProjectOf(l1, id) == ProjectOf(l2, id) && TopicOf(l1, id) == TopicOf(l2, id)
    ensures DLQKeys(SnapshotsFor(answers, l1, ids1)) <= DLQKeys(SnapshotsFor(answers, l2, ids2))
  {
    var keys1, keys2 := DLQKeys(SnapshotsFor(answers, l1, ids1)), DLQKeys(SnapshotsFor(answers, l2, ids2));
    forall key | key in keys1 ensures key in keys2 {
      DLQKeyMoves(answers, l1, ids1, l2, ids2, key);
    }
  }

  lemma DLQKeyMoves(answers: Answers, l1: Labels, ids1: seq<string>, l2: Labels, ids2: seq<string>, key: string)
    requires forall id | id in ids1 :: id in ids2
    requires forall id | id in ids1 :: ProjectOf(l1, id) == ProjectOf(l2, id) && TopicOf(l1, id) == TopicOf(l2, id)
    requires key in DLQKeys(SnapshotsFor(answers, l1, ids1))
    ensures key in DLQKeys(SnapshotsFor(answers, l2, ids2))
  {
    DLQKeyOf(answers, l1, ids1, key);
    DLQKeyOf(answers, l2, ids2, key);
    var id :| id in ids1 && SnapshotFor(answers, l1, id).isDLQ && TopicKey(SnapshotFor(answers, l1, id)) == key;
    SameKeyAndKind(answers, l1, l2, id);
  }

  /**
   When no collected subscription is placed in two projects or topics, the dead-letter flags do not depend on the order
   of the queries or of the subscriptions.
   */
  lemma FlagsIgnoreOrder(answers: Answers, a: seq<Metric>, ids1: seq<string>, i: nat,
                         b: seq<Metric>, ids2: seq<string>, j: nat)
    requires Enumerates(a, METRICS) && Enumerates(b, METRICS)
    requires Enumerates(ids1, IDs(answers)) && Enumerates(ids2, IDs(answers))
    requires forall id | id in IDs(answers) :: PlacedOnce(answers, id)
    requires i < |ids1| && j < |ids2| && ids1[i] == ids2[j]
    ensures Flagged(SnapshotsFor(answers, LabelsAfter(answers, a), ids1))[i].hasDLQConfigured
            == Flagged(SnapshotsFor(answers, LabelsAfter(answers, b), ids2))[j].hasDLQConfigured
  {
    var l1, l2 := LabelsAfter(answers, a), LabelsAfter(answers, b);
    forall id | id in ids1 ensures ProjectOf(l1, id) == ProjectOf(l2, id) && TopicOf(l1, id) == TopicOf(l2, id) {
      PlaceIgnoresOrder(answers, a, b, id);
    }
    DLQKeysWithin(answers, l1, ids1, l2, ids2);
    DLQKeysWithin(answers, l2, ids2, l1, ids1);
    SameKeyAndKind(answers, l1, l2, ids1[i]);
    FlagOf(SnapshotsFor(answers, l1, ids1), i);
    FlagOf(SnapshotsFor(answers, l2, ids2), j);
    UnflaggedAt(answers, l1, ids1, i);
    UnflaggedAt(answers, l2, ids2, j);
  }

  lemma FlagOf(snaps: seq<Snapshot>, i: nat)
    requires i < |snaps|
    ensures Flagged(snaps)[i].hasDLQConfigured
            == if snaps[i].isDLQ then snaps[i].hasDLQConfigured else TopicKey(snaps[i]) in DLQKeys(snaps)
  {
  }

  lemma UnflaggedAt(answers: Answers, labels: Labels, ids: seq<string>, i: nat)
    requires i < |ids|
    ensures SnapshotsFor(answers, labels, ids)[i] == SnapshotFor(answers, labels, ids[i])
    ensures !SnapshotsFor(answers, labels, ids)[i].hasDLQConfigured
  {
  }

  // --- which placements can meet in one order ---

  predicate Mentions(answers: Answers, m: Metric, id: string) {
    id in LabelsFrom(answers, m)
  }

  /** Project and topic of a subscription, as the flags compare them. */
  function KeyOf(labels: Labels, id: string): string {
    ProjectOf(labels, id) + "/" + TopicOf(labels, id)
  }

  predicate IsDLQ(id: string) {
    Contains(Lower(SubName(id)), "dlq")
  }

  /** Answer m places id and answer n places d, and neither needs to come before the other comes before it. */
  predicate Meet(answers: Answers, id: string, m: Metric, d: string, n: Metric) {
    && Mentions(answers, m, id) && Mentions(answers, n, d)
    && (m == n || !Mentions(answers, m, d) || !Mentions(answers, n, id))
  }

  lemma {:induction false} FirstMention(answers: Answers, order: seq<Metric>, id: string) returns (p: nat)
    requires id in LabelsAfter(answers, order)
    ensures p < |order| && Mentions(answers, order[p], id)
    ensures LabelsAfter(answers, order)[id] == LabelsFrom(answers, order[p])[id]
    ensures forall q | 0 <= q < p :: !Mentions(answers, order[q], id)
  {
    var init, last := order[..|order| - 1], order[|order| - 1];
    LabelledKeeps(LabelsAfter(answers, init), SeriesOf(answers, last));
    if id in LabelsAfter(answers, init) {
      p := FirstMention(answers, init, id);
    } else {
      p := |init|;
      FirstDecides(answers, init, id);
      assert forall q | 0 <= q < p :: order[q] in init;
    }
  }

  /** In any order, the two answers that place two subscriptions can meet. */
  lemma PlacersMeet(answers: Answers, order: seq<Metric>, id: string, d: string) returns (m: Metric, n: Metric)
    requires id in LabelsAfter(answers, order) && d in LabelsAfter(answers, order)
    ensures Meet(answers, id, m, d, n)
    ensures LabelsAfter(answers, order)[id] == LabelsFrom(answers, m)[id]
    ensures LabelsAfter(answers, order)[d] == LabelsFrom(answers, n)[d]
  {
    var p := FirstMention(answers, order, id);
    var q := FirstMention(answers, order, d);
    m, n := order[p], order[q];
    assert p < q || p == q || q < p;
  }

  lemma FirstPlaces(answers: Answers, order: seq<Metric>, id: string, p: nat)
    requires p < |order| && Mentions(answers, order[p], id)
    requires forall q | 0 <= q < p :: !Mentions(answers, order[q], id)
    ensures id in LabelsAfter(answers, order)
    ensures LabelsAfter(answers, order)[id] == LabelsFrom(answers, order[p])[id]
  {
    FirstDecides(answers, order, id);
    var q := FirstMention(answers, order, id);
    assert p < q || p == q || q < p;
  }

  /** Answers that can meet do so in some order. */
  lemma OrderFor(answers: Answers, id: string, m: Metric, d: string, n: Metric) returns (order: seq<Metric>)
    requires Meet(answers, id, m, d, n)
    ensures Enumerates(order, METRICS)
    ensures id in LabelsAfter(answers, order) && LabelsAfter(answers, order)[id] == LabelsFrom(answers, m)[id]
    ensures d in LabelsAfter(answers, order) && LabelsAfter(answers, order)[d] == LabelsFrom(answers, n)[d]
  {
    AllMetrics();
    if m == n {
      order := Completed([m], METRICS);
      FirstPlaces(answers, order, id, 0);
      FirstPlaces(answers, order, d, 0);
    } else if !Mentions(answers, m, d) {
      order := Completed([m, n], METRICS);
      FirstPlaces(answers, order, id, 0);
      FirstPlaces(answers, order, d, 1);
    } else {
      order := Completed([n, m], METRICS);
      FirstPlaces(answers, order, d, 0);
      FirstPlaces(answers, order, id, 1);
    }
  }

  // --- every subscription is mentioned ---

  lemma {:induction false} ColumnMentioned(ss: seq<Series>, id: string)
    ensures id in Column(ss) ==> id in Labelled(map[], ss)
  {
    if ss != [] {
      ColumnMentioned(ss[..|ss| - 1], id);
    }
  }

  lemma Mentioned(answers: Answers, order: seq<Metric>, id: string)
    requires Enumerates(order, METRICS) && id in IDs(answers)
    ensures id in LabelsAfter(answers, order)
  {
    var m :| m in METRICS && id in ColumnOf(answers, m);
    ColumnMentioned(SeriesOf(answers, m), id);
    assert m in order && id in LabelsFrom(answers, m);
    FirstDecides(answers, order, id);
  }

  // --- the flag ---

  /** A collection that visits the answers in this order gives the subscription this flag. */
  ghost predicate FlagIs(answers: Answers, order: seq<Metric>, id: string, flag: bool) {
    exists ids, i :: 0 <= i < |ids| && Enumerates(ids, IDs(answers)) && ids[i] == id
                     && Flagged(SnapshotsFor(answers, LabelsAfter(answers, order), ids))[i].hasDLQConfigured == flag
  }

  /** Some dead-letter subscription has the project and topic of id. */
  ghost predicate Shared(answers: Answers, labels: Labels, id: string) {
    exists d :: d in IDs(answers) && IsDLQ(d) && KeyOf(labels, d) == KeyOf(labels, id)
  }

  lemma FlagIsShared(answers: Answers, labels: Labels, ids: seq<string>, i: nat)
    requires i < |ids| && Enumerates(ids, IDs(answers)) && !IsDLQ(ids[i])
    ensures Flagged(SnapshotsFor(answers, labels, ids))[i].hasDLQConfigured <==> Shared(answers, labels, ids[i])
  {
    var s := SnapshotFor(answers, labels, ids[i]);
    NamesIgnoreOrder(answers, labels, labels, ids[i]);
    FlagOf(SnapshotsFor(answers, labels, ids), i);
    UnflaggedAt(answers, labels, ids, i);
    DLQKeyOf(answers, labels, ids, TopicKey(s));
    if d :| d in ids && SnapshotFor(answers, labels, d).isDLQ
            && TopicKey(SnapshotFor(answers, labels, d)) == TopicKey(s)
    {
      NamesIgnoreOrder(answers, labels, labels, d);
      assert d in IDs(answers) && IsDLQ(d) && KeyOf(labels, d) == KeyOf(labels, ids[i]);
    }
    if d :| d in IDs(answers) && IsDLQ(d) && KeyOf(labels, d) == KeyOf(labels, ids[i]) {
      NamesIgnoreOrder(answers, labels, labels, d);
    }
  }

  lemma FlagIsIff(answers: Answers, order: seq<Metric>, id: string, flag: bool)
    requires id in IDs(answers) && !IsDLQ(id)
    ensures FlagIs(answers, order, id, flag) <==> flag == Shared(answers, LabelsAfter(answers, order), id)
  {
    var labels := LabelsAfter(answers, order);
    var all := Completed([], IDs(answers));
    var k :| 0 <= k < |all| && all[k] == id;
    FlagIsShared(answers, labels, all, k);
    if FlagIs(answers, order, id, flag) {
      var ids, i :| 0 <= i < |ids| && Enumerates(ids, IDs(answers)) && ids[i] == id
                    && Flagged(SnapshotsFor(answers, labels, ids))[i].hasDLQConfigured == flag;
      FlagIsShared(answers, labels, ids, i);
    }
  }

  /** This order places the two subscriptions in one project and topic. */
  predicate Together(answers: Answers, order: seq<Metric>, id: string, d: string) {
    KeyOf(LabelsAfter(answers, order), id) == KeyOf(LabelsAfter(answers, order), d)
  }

  /** Two answers that can meet place the two subscriptions in one project and topic, or else in two. */
  ghost predicate CanBe(answers: Answers, id: string, d: string, together: bool) {
    exists m, n :: Meet(answers, id, m, d, n)
                   && (KeyOf(LabelsFrom(answers, m), id) == KeyOf(LabelsFrom(answers, n), d)) == together
  }

  lemma CanBeIff(answers: Answers, id: string, d: string, together: bool)
    requires id in IDs(answers) && d in IDs(answers)
    ensures CanBe(answers, id, d, together) <==>
            exists order :: Enumerates(order, METRICS) && Together(answers, order, id, d) == together
  {
    if CanBe(answers, id, d, together) {
      var m, n :| Meet(answers, id, m, d, n)
                  && (KeyOf(LabelsFrom(answers, m), id) == KeyOf(LabelsFrom(answers, n), d)) == together;
      var order := OrderFor(answers, id, m, d, n);
      assert Together(answers, order, id, d) == together;
    }
    if order :| Enumerates(order, METRICS) && Together(answers, order, id, d) == together {
      Mentioned(answers, order, id);
      Mentioned(answers, order, d);
      var m, n := PlacersMeet(answers, order, id, d);
      assert (KeyOf(LabelsFrom(answers, m), id) == KeyOf(LabelsFrom(answers, n), d)) == together;
    }
  }

  /**
   Some order of visiting the answers flags the subscription exactly when two answers that can meet place it and a
   dead-letter subscription together.
   */
  lemma FlagCanBeSetIff(answers: Answers, id: string)
    requires id in IDs(answers) && !IsDLQ(id)
    ensures (exists order :: Enumerates(order, METRICS) && FlagIs(answers, order, id, true)) <==>
            exists d :: d in IDs(answers) && IsDLQ(d) && CanBe(answers, id, d, true)
  {
    if order :| Enumerates(order, METRICS) && FlagIs(answers, order, id, true) {
      FlagIsIff(answers, order, id, true);
      var labels := LabelsAfter(answers, order);
      var d :| d in IDs(answers) && IsDLQ(d) && KeyOf(labels, d) == KeyOf(labels, id);
      assert Together(answers, order, id, d) == true;
      CanBeIff(answers, id, d, true);
    }
    if d :| d in IDs(answers) && IsDLQ(d) && CanBe(answers, id, d, true) {
      CanBeIff(answers, id, d, true);
      var order :| Enumerates(order, METRICS) && Together(answers, order, id, d) == true;
      FlagIsIff(answers, order, id, true);
    }
  }

  // --- when an order clears the flag ---

  predicate MentionedBy(answers: Answers, visited: set<Metric>, id: string) {
    exists m :: m in visited && Mentions(answers, m, id)
  }

  /** Answer x places the dead-letter subscription d under this key. */
  predicate PutsAt(answers: Answers, x: Metric, d: string, key: string) {
    Mentions(answers, x, d) && KeyOf(LabelsFrom(answers, x), d) == key
  }

  /**
   With m to place id, answer x may come once these are visited: it does not place id instead of m, nor any dead-letter
   subscription beside id.
   */
  ghost predicate MayCome(answers: Answers, id: string, m: Metric, visited: set<Metric>, x: Metric) {
    && (Mentions(answers, x, id) && x != m ==> m in visited)
    && forall d | d in IDs(answers) && IsDLQ(d) && PutsAt(answers, x, d, KeyOf(LabelsFrom(answers, m), id)) ::
         MentionedBy(answers, visited, d)
  }

  ghost function Waits(answers: Answers, id: string, m: Metric): (set<Metric>, Metric) -> bool {
    (visited: set<Metric>, x: Metric) => MayCome(answers, id, m, visited, x)
  }

  /** Answer m may place id: no set of answers is stuck, each waiting for another of the set. */
  ghost predicate MayPlace(answers: Answers, id: string, m: Metric) {
    Mentions(answers, m, id) && Unblocked(Waits(answers, id, m), METRICS)
  }

  lemma WaitsMonotone(answers: Answers, id: string, m: Metric)
    ensures Monotone(Waits(answers, id, m))
  {
    forall some, more, x | some <= more && Waits(answers, id, m)(some, x) ensures Waits(answers, id, m)(more, x) {
      assert forall d | MentionedBy(answers, some, d) :: MentionedBy(answers, more, d);
    }
  }

  /** A good order places id by m, and no dead-letter subscription beside it. */
  lemma GoodOrderClears(answers: Answers, id: string, m: Metric, order: seq<Metric>)
    requires Enumerates(order, METRICS) && InGoodOrder(Waits(answers, id, m), order) && Mentions(answers, m, id)
    requires id in IDs(answers)
    ensures !Shared(answers, LabelsAfter(answers, order), id)
  {
    Mentioned(answers, order, id);
    var p := FirstMention(answers, order, id);
    assert order[p] == m by {
      assert Waits(answers, id, m)(Elements(order[..p]), order[p]);
    }
    forall d | d in IDs(answers) && IsDLQ(d)
      ensures KeyOf(LabelsAfter(answers, order), d) != KeyOf(LabelsAfter(answers, order), id)
    {
      Mentioned(answers, order, d);
      var q := FirstMention(answers, order, d);
      assert Waits(answers, id, m)(Elements(order[..q]), order[q]);
    }
  }

  /** An answer that would put d under a key it does not end up with comes after another one that places d. */
  lemma PlacedBefore(answers: Answers, order: seq<Metric>, k: nat, d: string, key: string)
    requires Enumerates(order, METRICS) && d in IDs(answers) && k < |order|
    requires KeyOf(LabelsAfter(answers, order), d) != key && PutsAt(answers, order[k], d, key)
    ensures MentionedBy(answers, Elements(order[..k]), d)
  {
    Mentioned(answers, order, d);
    var q := FirstMention(answers, order, d);
    assert q < k || q == k || k < q;
    assert q < k ==> order[..k][q] == order[q];
  }

  /** No dead-letter subscription ends up under the key. */
  ghost predicate NoneAt(answers: Answers, labels: Labels, key: string) {
    forall d | d in IDs(answers) && IsDLQ(d) :: KeyOf(labels, d) != key
  }

  lemma ComesWhenItMay(answers: Answers, id: string, order: seq<Metric>, p: nat, k: nat)
    requires Enumerates(order, METRICS) && p < |order| && k < |order|
    requires NoneAt(answers, LabelsAfter(answers, order), KeyOf(LabelsFrom(answers, order[p]), id))
    requires forall q | 0 <= q < p :: !Mentions(answers, order[q], id)
    ensures MayCome(answers, id, order[p], Elements(order[..k]), order[k])
  {
    if p < k {
      assert order[..k][p] == order[p];
    }
    var key := KeyOf(LabelsFrom(answers, order[p]), id);
    forall d | d in IDs(answers) && IsDLQ(d) && PutsAt(answers, order[k], d, key)
      ensures MentionedBy(answers, Elements(order[..k]), d)
    {
      PlacedBefore(answers, order, k, d, key);
    }
  }

  /** An order that clears the flag is good for the answer that places id in it. */
  lemma ClearedIsGood(answers: Answers, id: string, order: seq<Metric>, p: nat)
    requires Enumerates(order, METRICS) && p < |order|
    requires NoneAt(answers, LabelsAfter(answers, order), KeyOf(LabelsFrom(answers, order[p]), id))
    requires forall q | 0 <= q < p :: !Mentions(answers, order[q], id)
    ensures InGoodOrder(Waits(answers, id, order[p]), order)
  {
    forall k | 0 <= k < |order| ensures Waits(answers, id, order[p])(Elements(order[..k]), order[k]) {
      ComesWhenItMay(answers, id, order, p, k);
    }
  }

  /** Some order of visiting the answers clears the flag exactly when some answer may place the subscription. */
  lemma FlagCanBeClearedIff(answers: Answers, id: string)
    requires id in IDs(answers) && !IsDLQ(id)
    ensures (exists order :: Enumerates(order, METRICS) && FlagIs(answers, order, id, false)) <==>
            exists m :: MayPlace(answers, id, m)
  {
    if order :| Enumerates(order, METRICS) && FlagIs(answers, order, id, false) {
      FlagIsIff(answers, order, id, false);
      Mentioned(answers, order, id);
      var p := FirstMention(answers, order, id);
      ClearedIsGood(answers, id, order, p);
      WaitsMonotone(answers, id, order[p]);
      GoodOrderIff(Waits(answers, id, order[p]), METRICS);
      assert MayPlace(answers, id, order[p]);
    }
    if m :| MayPlace(answers, id, m) {
      var order := GoodOrder(Waits(answers, id, m), METRICS, []);
      GoodOrderClears(answers, id, m, order);
      FlagIsIff(answers, order, id, false);
    }
  }

  /** One order of visiting the answers flags the subscription, another does not. */
  ghost predicate FlagDependsOnOrder(answers: Answers, id: string) {
    exists a, b :: Enumerates(a, METRICS) && Enumerates(b, METRICS)
                   && FlagIs(answers, a, id, true) && FlagIs(answers, b, id, false)
  }

  /** However many dead-letter queues there are, the flag depends on the order exactly when it can be set and unset. */
  lemma FlagDependsOnOrderIff(answers: Answers, id: string)
    requires id in IDs(answers) && !IsDLQ(id)
    ensures FlagDependsOnOrder(answers, id) <==>
            && (exists d :: d in IDs(answers) && IsDLQ(d) && CanBe(answers, id, d, true))
            && (exists m :: MayPlace(answers, id, m))
  {
    FlagCanBeSetIff(answers, id);
    FlagCanBeClearedIff(answers, id);
  }

  predicate OnlyDLQ(answers: Answers, d: string) {
    d in IDs(answers) && forall x | x in IDs(answers) :: IsDLQ(x) <==> x == d
  }

  lemma FlagIsTogether(answers: Answers, order: seq<Metric>, id: string, d: string, flag: bool)
    requires id in IDs(answers) && !IsDLQ(id) && OnlyDLQ(answers, d)
    ensures FlagIs(answers, order, id, flag) <==> Together(answers, order, id, d) == flag
  {
    FlagIsIff(answers, order, id, flag);
  }

  /** With one dead-letter subscription, that is when the two can be together and apart. */
  lemma FlagDependsOnOneIff(answers: Answers, id: string, d: string)
    requires id in IDs(answers) && !IsDLQ(id) && OnlyDLQ(answers, d)
    ensures FlagDependsOnOrder(answers, id) <==> CanBe(answers, id, d, true) && CanBe(answers, id, d, false)
  {
    CanBeIff(answers, id, d, true);
    CanBeIff(answers, id, d, false);
    if CanBe(answers, id, d, true) && CanBe(answers, id, d, false) {
      var a :| Enumerates(a, METRICS) && Together(answers, a, id, d) == true;
      var b :| Enumerates(b, METRICS) && Together(answers, b, id, d) == false;
      FlagIsTogether(answers, a, id, d, true);
      FlagIsTogether(answers, b, id, d, false);
    }
    if a, b :| Enumerates(a, METRICS) && Enumerates(b, METRICS)
               && FlagIs(answers, a, id, true) && FlagIs(answers, b, id, false)
    {
      FlagIsTogether(answers, a, id, d, true);
      FlagIsTogether(answers, b, id, d, false);
    }
  }

  // --- an input on which it does ---

  function SeriesFor(id: string, topic: string): Series {
    Series([SUBSCRIPTION + ":" + id, "topic_id:" + topic], "", [[Some(0.0), Some(1.0)]])
  }

  lemma SeriesRead(id: string, topic: string)
    requires id != ""
    ensures var s := SeriesFor(id, topic);
            SubscriptionOf(s) == id && LastValue(s) == Some(1.0)
            && ParseTags(s.tagSet) == map[SUBSCRIPTION := id, "topic_id" := topic]
  {
    var tags := SeriesFor(id, topic).tagSet;
    assert tags[0] == SUBSCRIPTION + [':'] + id && tags[1] == "topic_id" + [':'] + topic;
    BeforeCut(SUBSCRIPTION, id, ':');
    BeforeCut("topic_id", topic, ':');
    assert tags[..1] == [tags[0]] && tags[..0] == [];
    assert ParseTags(tags[..1]) == map[SUBSCRIPTION := id];
  }

  /** One answer puts a queue and its dead-letter queue on topic t, another puts the queue on topic u. */
  function TwoTopics(id: string, d: string, t: string, u: string): Answers {
    (m: Metric) =>
      match m
      case Backlog => Ok([SeriesFor(id, t), SeriesFor(d, t)])
      case Age => Ok([SeriesFor(id, u)])
      case _ => Ok([])
  }

  function TopicTags(id: string, topic: string): map<string, string> {
    map[SUBSCRIPTION := id, "topic_id" := topic]
  }

  lemma OneSeries(id: string, topic: string)
    requires id != ""
    ensures Column([SeriesFor(id, topic)]) == map[id := 1.0]
    ensures Labelled(map[], [SeriesFor(id, topic)]) == map[id := TopicTags(id, topic)]
  {
    var ss := [SeriesFor(id, topic)];
    SeriesRead(id, topic);
    assert ss[..0] == [] && Column(ss[..0]) == map[] && Labelled(map[], ss[..0]) == map[];
  }

  lemma TwoTopicsRead(id: string, d: string, t: string, u: string)
    requires id != "" && d != "" && id != d
    ensures var answers := TwoTopics(id, d, t, u);
            && IDs(answers) == {id, d}
            && LabelsFrom(answers, Backlog) == map[id := TopicTags(id, t), d := TopicTags(d, t)]
            && LabelsFrom(answers, Age) == map[id := TopicTags(id, u)]
  {
    SeriesRead(d, t);
    var one := [SeriesFor(id, t), SeriesFor(d, t)];
    OneSeries(id, t);
    OneSeries(id, u);
    assert one[..1] == [SeriesFor(id, t)];
  }

  lemma KeyOfTopic(labels: Labels, id: string, topic: string)
    requires id in labels && labels[id] == TopicTags(id, topic)
    ensures KeyOf(labels, id) == "/" + topic
  {
  }

  /** Backlog has the two together, age has the first one elsewhere. */
  lemma Moves(answers: Answers, id: string, d: string, t: string, u: string)
    requires Mentions(answers, Backlog, id) && LabelsFrom(answers, Backlog)[id] == TopicTags(id, t)
    requires Mentions(answers, Backlog, d) && LabelsFrom(answers, Backlog)[d] == TopicTags(d, t)
    requires Mentions(answers, Age, id) && LabelsFrom(answers, Age)[id] == TopicTags(id, u)
    requires !Mentions(answers, Age, d) && t != u
    ensures CanBe(answers, id, d, true) && CanBe(answers, id, d, false)
  {
    KeyOfTopic(LabelsFrom(answers, Backlog), id, t);
    KeyOfTopic(LabelsFrom(answers, Backlog), d, t);
    KeyOfTopic(LabelsFrom(answers, Age), id, u);
    assert ("/" + t)[1..] == t && ("/" + u)[1..] == u;
    assert Meet(answers, id, Backlog, d, Backlog) && Meet(answers, id, Age, d, Backlog);
  }

  lemma TwoSubscriptions(answers: Answers, id: string, d: string)
    requires IDs(answers) == {id, d} && !IsDLQ(id) && IsDLQ(d)
    requires CanBe(answers, id, d, true) && CanBe(answers, id, d, false)
    ensures FlagDependsOnOrder(answers, id)
  {
    FlagDependsOnOneIff(answers, id, d);
  }

  /** On these answers one order sees the dead-letter queue of the subscription, and another does not. */
  lemma FlagCanDependOnOrder(id: string, d: string, t: string, u: string)
    requires id != "" && d != "" && !IsDLQ(id) && IsDLQ(d) && t != u
    ensures FlagDependsOnOrder(TwoTopics(id, d, t, u), id)
  {
    TwoTopicsRead(id, d, t, u);
    Moves(TwoTopics(id, d, t, u), id, d, t, u);
    TwoSubscriptions(TwoTopics(id, d, t, u), id, d);
  }
}
