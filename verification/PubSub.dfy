/**
 Turning the five Pub/Sub metric queries into one snapshot per subscription
 (src/internal/observability/datadog/pubsub.go).
 */
module PubSub {
  import opened Wrappers
  import opened Orders
  import opened Text
  import opened Queue

  datatype Metric = Backlog | Age | Pull | Ack | DeadLetters

  /** A series of a query answer; each point is a timestamp and a value. */
  datatype Series = Series(tagSet: seq<string>, scope: string, points: seq<seq<Option<real>>>)

  type Answers = Metric -> Result<seq<Series>>

  const SUBSCRIPTION := "subscription_id"
  const PROJECTS := "projects/"

  // --- reading one series ---

  /** The value of the first tag with this key. */
  function TagValue(tags: seq<string>, key: string): string {
    if tags == [] then ""
    else if key + ":" <= tags[0] then tags[0][|key| + 1..]
    else TagValue(tags[1..], key)
  }

  /** `unicode.IsSpace`: the characters of the property White_Space. */
  predicate IsSpace(c: char) {
    || 9 <= c as int <= 13 || 0x2000 <= c as int <= 0x200A
    || c as int in {0x20, 0x85, 0xA0, 0x1680, 0x2028, 0x2029, 0x202F, 0x205F, 0x3000}
  }

  /** `strings.TrimSpace`. */
  function TrimSpace(s: string): string {
    if s == "" then ""
    else if IsSpace(s[0]) then TrimSpace(s[1..])
    else if IsSpace(s[|s| - 1]) then TrimSpace(s[..|s| - 1])
    else s
  }

  function Trimmed(parts: seq<string>): (r: seq<string>)
    ensures |r| == |parts| && forall i | 0 <= i < |parts| :: r[i] == TrimSpace(parts[i])
  {
    if parts == [] then [] else [TrimSpace(parts[0])] + Trimmed(parts[1..])
  }

  function ScopeValue(scope: string, key: string): string {
    TagValue(Trimmed(Split(scope, ',')), key)
  }

  function SubscriptionOf(s: Series): string {
    var tagged := TagValue(s.tagSet, SUBSCRIPTION);
    if tagged != "" then tagged else ScopeValue(s.scope, SUBSCRIPTION)
  }

  function LastValue(s: Series): Option<real> {
    if s.points == [] then None
    else
      var last := s.points[|s.points| - 1];
      if |last| >= 2 then last[1] else None
  }

  /** parseTags: tags with a colon that is not their first character; the last of a key wins. */
  function ParseTags(tags: seq<string>): map<string, string> {
    if tags == [] then map[]
    else
      var t, rest := tags[|tags| - 1], ParseTags(tags[..|tags| - 1]);
      var key := Before(t, ':');
      if 0 < |key| < |t| then rest[key := t[|key| + 1..]] else rest
  }

  method ExtractTagValue(tags: seq<string>, key: string) returns (v: string)
    ensures v == TagValue(tags, key)
  {
    var prefix := key + ":";
    for i := 0 to |tags|
      invariant TagValue(tags, key) == TagValue(tags[i..], key)
    {
      if prefix <= tags[i] {
        return tags[i][|prefix|..];
      }
    }
    return "";
  }

  method ExtractScopeValue(scope: string, key: string) returns (v: string)
    ensures v == ScopeValue(scope, key)
  {
    var parts, prefix := Split(scope, ','), key + ":";
    ghost var trimmed := Trimmed(parts);
    for i := 0 to |parts|
      invariant TagValue(trimmed, key) == TagValue(trimmed[i..], key)
    {
      var p := TrimSpace(parts[i]);
      if prefix <= p {
        return p[|prefix|..];
      }
    }
    return "";
  }

  method ParseTagSet(tags: seq<string>) returns (out: map<string, string>)
    ensures out == ParseTags(tags)
  {
    out := map[];
    for i := 0 to |tags|
      invariant out == ParseTags(tags[..i])
    {
      assert tags[..i + 1][..i] == tags[..i];
      var key := Before(tags[i], ':');
      if 0 < |key| < |tags[i]| {
        out := out[key := tags[i][|key| + 1..]];
      }
    }
    assert tags[..|tags|] == tags;
  }

  // --- reading one answer ---

  type Labels = map<string, map<string, string>>

  /** The last value of each subscription. */
  function Column(ss: seq<Series>): map<string, real> {
    if ss == [] then map[]
    else
      var s, rest := ss[|ss| - 1], Column(ss[..|ss| - 1]);
      if SubscriptionOf(s) != "" && LastValue(s).Some? then rest[SubscriptionOf(s) := LastValue(s).value] else rest
  }

  /** The tags of the first series of each subscription that has none yet. */
  function Labelled(seen: Labels, ss: seq<Series>): Labels {
    if ss == [] then seen
    else
      var s, rest := ss[|ss| - 1], Labelled(seen, ss[..|ss| - 1]);
      if SubscriptionOf(s) == "" || SubscriptionOf(s) in rest then rest
      else rest[SubscriptionOf(s) := ParseTags(s.tagSet)]
  }

  method SubscriptionID(s: Series) returns (id: string)
    ensures id == SubscriptionOf(s)
  {
    id := ExtractTagValue(s.tagSet, SUBSCRIPTION);
    if id == "" {
      id := ExtractScopeValue(s.scope, SUBSCRIPTION);
    }
  }

  method ReadAnswer(seen: Labels, ss: seq<Series>) returns (column: map<string, real>, labels: Labels)
    ensures column == Column(ss) && labels == Labelled(seen, ss)
  {
    column, labels := map[], seen;
    for i := 0 to |ss|
      invariant column == Column(ss[..i]) && labels == Labelled(seen, ss[..i])
    {
      var s := ss[i];
      assert ss[..i + 1][..i] == ss[..i];
      var id := SubscriptionID(s);
      if id == "" {
        continue;
      }
      if id !in labels {
        var tags := ParseTagSet(s.tagSet);
        labels := labels[id := tags];
      }
      var last := LastValue(s);
      if last.Some? {
        column := column[id := last.value];
      }
    }
    assert ss[..|ss|] == ss;
  }

  // --- the five answers ---

  function SeriesOf(answers: Answers, m: Metric): seq<Series> {
    if answers(m).Ok? then answers(m).value else []
  }

  function LabelsAfter(answers: Answers, order: seq<Metric>): Labels {
    if order == [] then map[]
    else Labelled(LabelsAfter(answers, order[..|order| - 1]), SeriesOf(answers, order[|order| - 1]))
  }

  function ColumnOf(answers: Answers, m: Metric): map<string, real> {
    Column(SeriesOf(answers, m))
  }

  function Value(answers: Answers, m: Metric, id: string): real {
    if id in ColumnOf(answers, m) then ColumnOf(answers, m)[id] else 0.0
  }

  /** Every subscription with a value in some answer. */
  function IDs(answers: Answers): set<string> {
    ColumnOf(answers, Backlog).Keys + ColumnOf(answers, Age).Keys + ColumnOf(answers, Pull).Keys
    + ColumnOf(answers, Ack).Keys + ColumnOf(answers, DeadLetters).Keys
  }

  function FullPath(projectID: string, id: string): string {
    PROJECTS + projectID + "/subscriptions/" + id
  }

  predicate Qualified(id: string, projectID: string) {
    !(PROJECTS <= id) && projectID != ""
  }

  function ExternalID(id: string, projectID: string): string {
    if Qualified(id, projectID) then FullPath(projectID, id) else id
  }

  /** subName: the last of the parts between slashes. */
  function SubName(s: string): string {
    var parts := Split(s, '/');
    parts[|parts| - 1]
  }

  function Lower(s: string): string {
    if s == "" then ""
    else
      var c := s[0];
      [if 'A' <= c <= 'Z' then (c as int + 32) as char else c] + Lower(s[1..])
  }

  /** Go's conversion of a float to an integer: towards zero. */
  function Truncate(x: real): int {
    if x >= 0.0 then x.Floor else -((-x).Floor)
  }

  function TagsOf(labels: Labels, id: string): map<string, string> {
    if id in labels then labels[id] else map[]
  }

  function SnapshotFor(answers: Answers, labels: Labels, id: string): Snapshot {
    var tags := TagsOf(labels, id);
    var project := Get(tags, "project_id");
    var external := ExternalID(id, project);
    Snapshot("gcp_pubsub", external, SubName(external), project, Get(tags, "topic_id"),
             Contains(Lower(SubName(external)), "dlq"), 0,
             Truncate(Value(answers, Backlog, id)), Truncate(Value(answers, Age, id)), Value(answers, Pull, id),
             Value(answers, Ack, id), Truncate(Value(answers, DeadLetters, id)), tags, false, false, false, false)
  }

  function SnapshotsFor(answers: Answers, labels: Labels, ids: seq<string>): (r: seq<Snapshot>)
    ensures |r| == |ids| && forall i | 0 <= i < |ids| :: r[i] == SnapshotFor(answers, labels, ids[i])
  {
    seq(|ids|, i requires 0 <= i < |ids| => SnapshotFor(answers, labels, ids[i]))
  }

  function TopicKey(s: Snapshot): string {
    s.projectID + "/" + s.topicID
  }

  function DLQKeys(snaps: seq<Snapshot>): set<string> {
    set s | s in snaps && s.isDLQ :: TopicKey(s)
  }

  function Flag(keys: set<string>, s: Snapshot): Snapshot {
    if s.isDLQ then s else s.(hasDLQConfigured := TopicKey(s) in keys)
  }

  function Flagged(snaps: seq<Snapshot>): (r: seq<Snapshot>)
    ensures |r| == |snaps| && forall i | 0 <= i < |snaps| :: r[i] == Flag(DLQKeys(snaps), snaps[i])
  {
    seq(|snaps|, i requires 0 <= i < |snaps| => Flag(DLQKeys(snaps), snaps[i]))
  }

  const METRICS: set<Metric> := {Backlog, Age, Pull, Ack, DeadLetters}

  lemma AllMetrics()
    ensures forall m: Metric :: m in METRICS
  {
    forall m: Metric ensures m in METRICS {
      match m
      case Backlog =>
      case Age =>
      case Pull =>
      case Ack =>
      case DeadLetters =>
    }
  }

  /** The queries, one after the other in any order. */
  method QueryAll(answers: Answers)
      returns (results: map<Metric, map<string, real>>, labels: Labels, ghost order: seq<Metric>)
    ensures Enumerates(order, METRICS) && labels == LabelsAfter(answers, order)
    ensures forall m :: m in results <==> answers(m).Ok?
    ensures forall m | m in results :: results[m] == ColumnOf(answers, m)
  {
    results, labels, order := map[], map[], [];
    var todo := METRICS;
    AllMetrics();
    assert METRICS - todo == {};
    while todo != {}
      invariant todo <= METRICS && Enumerates(order, METRICS - todo) && labels == LabelsAfter(answers, order)
      invariant forall m :: m in results <==> m !in todo && answers(m).Ok?
      invariant forall m | m in results :: results[m] == ColumnOf(answers, m)
      decreases |todo|
    {
      var m :| m in todo;
      todo := todo - {m};
      assert (order + [m])[..|order|] == order;
      order := order + [m];
      match answers(m) {
        case Err(_) =>
        case Ok(ss) =>
          var column;
          column, labels := ReadAnswer(labels, ss);
          results := results[m := column];
      }
    }
  }

  /** The subscriptions with a value, in any order. */
  method Subscriptions(results: map<Metric, map<string, real>>) returns (seen: set<string>)
    ensures forall id :: id in seen <==> exists m :: m in results && id in results[m]
  {
    seen := {};
    var todo := results.Keys;
    while todo != {}
      invariant todo <= results.Keys
      invariant forall id :: id in seen <==> exists m :: m in results.Keys - todo && id in results[m]
      decreases |todo|
    {
      var m :| m in todo;
      todo := todo - {m};
      seen := seen + results[m].Keys;
    }
  }

  function Read(results: map<Metric, map<string, real>>, m: Metric, id: string): real {
    if m in results && id in results[m] then results[m][id] else 0.0
  }

  method BuildSnapshot(results: map<Metric, map<string, real>>, labels: Labels, id: string, ghost answers: Answers)
      returns (s: Snapshot)
    requires forall m :: Read(results, m, id) == Value(answers, m, id)
    ensures s == SnapshotFor(answers, labels, id)
  {
    var tags := TagsOf(labels, id);
    var project := Get(tags, "project_id");
    var external := id;
    if !(PROJECTS <= id) && project != "" {
      external := PROJECTS + project + "/subscriptions/" + id;
    }
    var display := SubName(external);
    s := Snapshot("gcp_pubsub", external, display, project, Get(tags, "topic_id"), Contains(Lower(display), "dlq"), 0,
                  Truncate(Read(results, Backlog, id)), Truncate(Read(results, Age, id)), Read(results, Pull, id),
                  Read(results, Ack, id), Truncate(Read(results, DeadLetters, id)), tags, false, false, false, false);
  }

  method MarkDLQ(snaps: seq<Snapshot>) returns (r: seq<Snapshot>)
    ensures r == Flagged(snaps)
  {
    var keys: set<string> := {};
    for i := 0 to |snaps|
      invariant keys == DLQKeys(snaps[..i])
    {
      DLQKeysSnoc(snaps, i);
      if snaps[i].isDLQ {
        keys := keys + {TopicKey(snaps[i])};
      }
    }
    assert snaps[..|snaps|] == snaps;
    r := snaps;
    for i := 0 to |snaps|
      invariant |r| == |snaps| && forall j | 0 <= j < i :: r[j] == Flag(keys, snaps[j])
      invariant forall j | i <= j < |snaps| :: r[j] == snaps[j]
    {
      if !r[i].isDLQ {
        r := r[i := r[i].(hasDLQConfigured := TopicKey(r[i]) in keys)];
      }
    }
  }

  lemma DLQKeysSnoc(snaps: seq<Snapshot>, i: nat)
    requires i < |snaps|
    ensures DLQKeys(snaps[..i + 1]) == DLQKeys(snaps[..i]) + if snaps[i].isDLQ then {TopicKey(snaps[i])} else {}
  {
    var init := snaps[..i];
    assert snaps[..i + 1] == init + [snaps[i]];
    assert forall s | s in init :: s in snaps[..i + 1];
  }

  lemma InIDs(answers: Answers, id: string)
    ensures id in IDs(answers) <==> exists m :: id in ColumnOf(answers, m)
  {
    if m :| id in ColumnOf(answers, m) {
      match m
      case Backlog =>
      case Age =>
      case Pull =>
      case Ack =>
      case DeadLetters =>
    }
  }

  lemma SeenIsIDs(answers: Answers, results: map<Metric, map<string, real>>, seen: set<string>)
    requires forall m :: m in results <==> answers(m).Ok?
    requires forall m | m in results :: results[m] == ColumnOf(answers, m)
    requires forall id :: id in seen <==> exists m :: m in results && id in results[m]
    ensures seen == IDs(answers)
  {
    forall id ensures id in seen <==> id in IDs(answers) {
      InIDs(answers, id);
      if m :| id in ColumnOf(answers, m) {
        assert m in results && id in results[m];
      }
    }
  }

  method BuildAll(results: map<Metric, map<string, real>>, labels: Labels, seen: set<string>, ghost answers: Answers)
      returns (snaps: seq<Snapshot>, ghost ids: seq<string>)
    requires forall m, id :: Read(results, m, id) == Value(answers, m, id)
    ensures Enumerates(ids, seen) && snaps == SnapshotsFor(answers, labels, ids)
  {
    snaps, ids := [], [];
    var todo := seen;
    assert seen - todo == {};
    while todo != {}
      invariant todo <= seen && Enumerates(ids, seen - todo)
      invariant snaps == SnapshotsFor(answers, labels, ids)
      decreases |todo|
    {
      var id :| id in todo;
      todo := todo - {id};
      var s := BuildSnapshot(results, labels, id, answers);
      SnapshotsSnoc(answers, labels, ids, id);
      snaps, ids := snaps + [s], ids + [id];
    }
  }

  lemma SnapshotsSnoc(answers: Answers, labels: Labels, ids: seq<string>, id: string)
    ensures SnapshotsFor(answers, labels, ids + [id])
            == SnapshotsFor(answers, labels, ids) + [SnapshotFor(answers, labels, id)]
  {
  }

  /** Some order of the queries and some order of the subscriptions give these snapshots. */
  ghost predicate IsCollection(answers: Answers, snaps: seq<Snapshot>) {
    exists order, ids :: Enumerates(order, METRICS) && Enumerates(ids, IDs(answers))
                         && snaps == Flagged(SnapshotsFor(answers, LabelsAfter(answers, order), ids))
  }

  /** CollectAll, after the queries are answered. */
  method CollectAll(answers: Answers) returns (snaps: seq<Snapshot>)
    ensures IsCollection(answers, snaps)
  {
    var results, labels;
    ghost var order, ids;
    results, labels, order := QueryAll(answers);
    var seen := Subscriptions(results);
    SeenIsIDs(answers, results, seen);
    snaps, ids := BuildAll(results, labels, seen, answers);
    snaps := MarkDLQ(snaps);
  }
}
