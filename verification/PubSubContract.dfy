/**
 What a collected snapshot says, read off the series that Datadog answered
 (src/internal/observability/datadog/pubsub.go).
 */
module PubSubContract {
  import opened Wrappers
  import opened Orders
  import opened Text
  import opened Queue
  import opened PubSub

  // --- one series ---

  /** The value of a key is that of the first tag with this key. */
  lemma {:induction false} TagValueExact(tags: seq<string>, key: string) returns (p: nat)
    ensures p <= |tags| && forall q | 0 <= q < p :: !(key + ":" <= tags[q])
    ensures if p == |tags| then TagValue(tags, key) == "" else tags[p] == key + ":" + TagValue(tags, key)
  {
    if tags == [] || key + ":" <= tags[0] {
      p := 0;
    } else {
      p := TagValueExact(tags[1..], key);
      p := p + 1;
      assert forall q | 0 < q < p :: tags[q] == tags[1..][q - 1];
    }
  }

  /** White space is these twenty-five characters. */
  lemma SpacesExact(c: char)
    ensures IsSpace(c) <==>
            c as int in {0x09, 0x0A, 0x0B, 0x0C, 0x0D, 0x20, 0x85, 0xA0, 0x1680, 0x2000, 0x2001, 0x2002, 0x2003, 0x2004,
                         0x2005, 0x2006, 0x2007, 0x2008, 0x2009, 0x200A, 0x2028, 0x2029, 0x202F, 0x205F, 0x3000}
  {
  }

  /** Trimming takes white space off both ends, all of it and nothing else. */
  lemma {:induction false} TrimExact(s: string) returns (i: nat, j: nat)
    ensures i <= j <= |s| && TrimSpace(s) == s[i..j]
    ensures forall k | 0 <= k < |s| && !(i <= k < j) :: IsSpace(s[k])
    ensures i < j ==> !IsSpace(s[i]) && !IsSpace(s[j - 1])
    decreases |s|
  {
    i, j := 0, |s|;
    if s != "" {
      if IsSpace(s[0]) {
        i, j := TrimExact(s[1..]);
        assert s[1..][i..j] == s[i + 1..j + 1];
        assert forall k | 0 < k < |s| :: s[k] == s[1..][k - 1];
        i, j := i + 1, j + 1;
      } else if IsSpace(s[|s| - 1]) {
        i, j := TrimExact(s[..|s| - 1]);
        assert s[..|s| - 1][i..j] == s[i..j];
      }
    }
    assert s[..|s|] == s;
  }

  /**
   The subscription of a series: its `subscription_id` tag, or when that is missing or empty, the first part of its
   scope with that key, white space around it apart.
   */
  lemma SubscriptionExact(s: Series)
    ensures var tagged := TagValue(s.tagSet, "subscription_id");
            && (tagged != "" ==> SubscriptionOf(s) == tagged)
            && (tagged == "" ==> SubscriptionOf(s) == TagValue(Trimmed(Split(s.scope, ',')), "subscription_id"))
  {
  }

  /** The p-th tag gives the key this value: it is cut at its first colon, which is not its first character. */
  predicate TagGives(tags: seq<string>, p: int, key: string, value: string) {
    0 <= p < |tags| && key != "" && ':' !in key && tags[p] == key + ":" + value
  }

  /** The last tag that gives a key decides what the key is read as. */
  lemma {:induction false} TagsReadExact(tags: seq<string>, key: string) returns (p: int)
    ensures -1 <= p < |tags| && forall q, v | p < q :: !TagGives(tags, q, key, v)
    ensures if p < 0 then key !in ParseTags(tags)
            else key in ParseTags(tags) && TagGives(tags, p, key, ParseTags(tags)[key])
  {
    p := -1;
    if tags != [] {
      var init, last := tags[..|tags| - 1], tags[|tags| - 1];
      var k := Before(last, ':');
      p := TagsReadExact(init, key);
      ColonCut(last);
      forall q, v ensures TagGives(init, q, key, v) <==> TagGives(tags, q, key, v) && q < |init| {
      }
      forall v | TagGives(tags, |init|, key, v) ensures key == k && |k| < |last| {
        assert last == key + [':'] + v;
        BeforeCut(key, v, ':');
      }
      if key == k && 0 < |k| < |last| {
        p := |init|;
      }
    }
  }

  lemma {:induction false} ColonCut(t: string)
    ensures ':' !in Before(t, ':') && |Before(t, ':')| <= |t|
    ensures |Before(t, ':')| < |t| ==> t == Before(t, ':') + ":" + t[|Before(t, ':')| + 1..]
    ensures |Before(t, ':')| == |t| ==> ':' !in t
  {
    if t != "" && t[0] != ':' {
      ColonCut(t[1..]);
    }
  }

  /** The tags of a subscription in one answer are those of the first series that is its own. */
  lemma {:induction false} FirstSeriesTags(ss: seq<Series>, id: string) returns (p: nat)
    requires id != ""
    ensures p <= |ss| && forall q | 0 <= q < p :: SubscriptionOf(ss[q]) != id
    ensures if p == |ss| then id !in Labelled(map[], ss)
            else SubscriptionOf(ss[p]) == id && id in Labelled(map[], ss)
                 && Labelled(map[], ss)[id] == ParseTags(ss[p].tagSet)
  {
    p := 0;
    if ss != [] {
      var init, last := ss[..|ss| - 1], ss[|ss| - 1];
      p := FirstSeriesTags(init, id);
      assert forall q | 0 <= q < |init| :: ss[q] == init[q];
      if p == |init| && SubscriptionOf(last) != id {
        p := |ss|;
      }
    }
  }

  // --- one answer ---

  /** The p-th series has this value for the subscription: the second entry of its last point. */
  predicate Reports(ss: seq<Series>, p: int, id: string, x: real) {
    && 0 <= p < |ss| && id != "" && SubscriptionOf(ss[p]) == id
    && ss[p].points != []
    && var last := ss[p].points[|ss[p].points| - 1]; |last| >= 2 && last[1] == Some(x)
  }

  /** The answer's value for a subscription is that of the last series that has one; zero without any. */
  ghost predicate ReadsAs(answer: Result<seq<Series>>, id: string, x: real) {
    if answer.Ok? && exists p, y :: Reports(answer.value, p, id, y) then
      exists p :: Reports(answer.value, p, id, x) && forall q, y | p < q :: !Reports(answer.value, q, id, y)
    else x == 0.0
  }

  lemma {:induction false} ColumnExact(ss: seq<Series>, id: string) returns (p: int)
    ensures -1 <= p < |ss| && forall q, y | p < q :: !Reports(ss, q, id, y)
    ensures if p < 0 then id !in Column(ss) else id in Column(ss) && Reports(ss, p, id, Column(ss)[id])
  {
    p := -1;
    if ss != [] {
      var init, last := ss[..|ss| - 1], ss[|ss| - 1];
      var k := ColumnExact(init, id);
      forall q, y ensures Reports(init, q, id, y) <==> Reports(ss, q, id, y) && q < |init| {
      }
      if SubscriptionOf(last) == id != "" && LastValue(last).Some? {
        p := |init|;
        assert Reports(ss, p, id, LastValue(last).value);
      } else {
        p := k;
        assert forall y :: !Reports(ss, |init|, id, y);
      }
    }
  }

  lemma ValueExact(answers: Answers, m: Metric, id: string)
    ensures ReadsAs(answers(m), id, Value(answers, m, id))
    ensures id in ColumnOf(answers, m) <==> answers(m).Ok? && exists p, x :: Reports(answers(m).value, p, id, x)
  {
    if answers(m).Ok? {
      var p := ColumnExact(answers(m).value, id);
      if p >= 0 {
        assert Reports(answers(m).value, p, id, Value(answers, m, id));
      }
    }
  }

  /** n is x without its fraction. */
  predicate WholePart(x: real, n: int) {
    if x >= 0.0 then n as real <= x < n as real + 1.0 else n as real - 1.0 < x <= n as real
  }

  // --- the snapshots ---

  /** The snapshot has the subscription's numbers, each from the answer to its own query. */
  ghost predicate HasNumbers(s: Snapshot, answers: Answers, id: string) {
    && ReadsAs(answers(Pull), id, s.pullRate) && ReadsAs(answers(Ack), id, s.ackRate)
    && (exists x :: ReadsAs(answers(Backlog), id, x) && WholePart(x, s.backlog))
    && (exists x :: ReadsAs(answers(Age), id, x) && WholePart(x, s.ageSec))
    && (exists x :: ReadsAs(answers(DeadLetters), id, x) && WholePart(x, s.deadLetters))
  }

  lemma WholePartOf(answers: Answers, m: Metric, id: string)
    ensures exists x :: ReadsAs(answers(m), id, x) && WholePart(x, Truncate(Value(answers, m, id)))
  {
    ValueExact(answers, m, id);
    var x := Value(answers, m, id);
    assert ReadsAs(answers(m), id, x) && WholePart(x, Truncate(x));
  }

  lemma NumbersOf(answers: Answers, labels: Labels, id: string)
    ensures HasNumbers(SnapshotFor(answers, labels, id), answers, id)
  {
    ValueExact(answers, Pull, id);
    ValueExact(answers, Ack, id);
    WholePartOf(answers, Backlog, id);
    WholePartOf(answers, Age, id);
    WholePartOf(answers, DeadLetters, id);
  }

  /** The subscription has a value in some answer that came. */
  ghost predicate Mentioned(answers: Answers, id: string) {
    exists m, p, x :: answers(m).Ok? && Reports(answers(m).value, p, id, x)
  }

  lemma MentionedIff(answers: Answers, id: string)
    ensures id in IDs(answers) <==> Mentioned(answers, id)
  {
    InIDs(answers, id);
    if m :| id in ColumnOf(answers, m) {
      ValueExact(answers, m, id);
      var p, x :| Reports(answers(m).value, p, id, x);
    }
    if m, p, x :| answers(m).Ok? && Reports(answers(m).value, p, id, x) {
      ValueExact(answers, m, id);
    }
  }

  /** What identifies the snapshot, given the tags of the subscription. */
  predicate IdentifiedBy(s: Snapshot, id: string) {
    && s.provider == "gcp_pubsub" && s.tenantID == 0
    && s.projectID == Get(s.labels, "project_id") && s.topicID == Get(s.labels, "topic_id")
    && s.externalID == (if "projects/" <= id || s.projectID == "" then id
                        else "projects/" + s.projectID + "/subscriptions/" + id)
    && s.displayName == SubName(s.externalID) && (s.isDLQ <==> Contains(Lower(s.displayName), "dlq"))
    && !s.hasMonitorBacklog && !s.hasMonitorAge && !s.hasMonitorDLQ
  }

  lemma SnapshotExact(answers: Answers, labels: Labels, ids: seq<string>, i: nat)
    requires i < |ids|
    ensures var s := Flagged(SnapshotsFor(answers, labels, ids))[i];
            HasNumbers(s, answers, ids[i]) && IdentifiedBy(s, ids[i])
  {
    var s := SnapshotFor(answers, labels, ids[i]);
    NumbersOf(answers, labels, ids[i]);
    assert IdentifiedBy(s, ids[i]);
    SameNumbersWhenFlagged(s, answers, ids[i], DLQKeys(SnapshotsFor(answers, labels, ids)));
  }

  lemma SameNumbersWhenFlagged(s: Snapshot, answers: Answers, id: string, keys: set<string>)
    requires HasNumbers(s, answers, id) && IdentifiedBy(s, id)
    ensures HasNumbers(Flag(keys, s), answers, id) && IdentifiedBy(Flag(keys, s), id)
  {
  }

  /**
   Every snapshot of a collection is that of a subscription mentioned in some answer, with its numbers, and every such
   subscription has exactly one, in whatever order the answers and the subscriptions are visited.
   */
  lemma CollectedExact(answers: Answers, snaps: seq<Snapshot>) returns (ids: seq<string>)
    requires IsCollection(answers, snaps)
    ensures |ids| == |snaps| && NoDup(ids) && forall id :: id in ids <==> Mentioned(answers, id)
    ensures forall i | 0 <= i < |snaps| :: HasNumbers(snaps[i], answers, ids[i]) && IdentifiedBy(snaps[i], ids[i])
  {
    var order, found :| Enumerates(order, METRICS) && Enumerates(found, IDs(answers))
                        && snaps == Flagged(SnapshotsFor(answers, LabelsAfter(answers, order), found));
    ids := found;
    forall id ensures id in ids <==> Mentioned(answers, id) {
      MentionedIff(answers, id);
    }
    forall i | 0 <= i < |snaps| ensures HasNumbers(snaps[i], answers, ids[i]) && IdentifiedBy(snaps[i], ids[i]) {
      SnapshotExact(answers, LabelsAfter(answers, order), ids, i);
    }
  }

  // --- names ---

  /** The short name is what follows the last slash. */
  lemma SubNameExact(s: string) returns (path: string)
    ensures '/' !in SubName(s) && (s == SubName(s) || s == path + "/" + SubName(s))
  {
    var parts := Split(s, '/');
    JoinUndoesSplit(s, '/');
    assert SubName(s) in parts;
    path := "";
    if |parts| >= 2 {
      JoinLast(parts, '/');
      path := Join(parts[..|parts| - 1], '/');
    }
  }

  /** Lower-casing changes the letters A to Z and nothing else. */
  lemma {:induction false} LowerExact(s: string)
    ensures |Lower(s)| == |s|
    ensures forall k | 0 <= k < |s| ::
              Lower(s)[k] as int == s[k] as int + if 'A' <= s[k] <= 'Z' then 'a' as int - 'A' as int else 0
  {
    if s != "" {
      LowerExact(s[1..]);
      assert forall k | 0 < k < |s| :: Lower(s)[k] == Lower(s[1..])[k - 1] && s[k] == s[1..][k - 1];
    }
  }
}
