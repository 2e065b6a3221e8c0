/**
 What a cycle leaves behind, in the operator's own terms: which thresholds the monitors carry and what
 the evaluation reports about them.
 */
module QueueOutcome {
  import opened Text
  import opened Queue
  import opened PubSub
  import opened MonitorStore
  import opened MonitorJob
  import opened MonitorManager
  import opened QueueCycle
  import opened QueueConfluence
  import opened QueueRunner

  /** The monitors of one name in the subscription's listing, before and after the call. */
  function Before(st: Store, job: Job, n: string): seq<Content> {
    OfName(View(st, job.lookup), n)
  }

  function AfterCall(st: Store, job: Job, f: Faults, n: string): seq<Content> {
    OfName(View(Ensured(st, job, f).store, job.lookup), n)
  }

  /** The monitor of this title alerts on the subscription's metric, above its own critical threshold. */
  predicate Watches(c: Content, title: string, metric: string, subscription: string) {
    && c.name == title + SubName(subscription)
    && c.query == "avg(last_5m):" + metric + "{subscription_id:" + subscription + "} by {subscription_id} > "
                  + Decimal(c.critical)
  }

  lemma BacklogWatches(ext: string, t: Thresholds, tags: seq<string>)
    ensures var s := BacklogSlot(ext, t);
            Watches(Content(s.name, s.query, tags, s.warning, s.critical),
                    "[Titlis] PubSub Backlog por Subscription — ",
                    "avg:gcp.pubsub.subscription.num_undelivered_messages", ext)
  {
  }

  lemma AgeWatches(ext: string, t: Thresholds, tags: seq<string>)
    ensures var s := AgeSlot(ext, t);
            Watches(Content(s.name, s.query, tags, s.warning, s.critical),
                    "[Titlis] PubSub Mensagem Mais Antiga — ",
                    "avg:gcp.pubsub.subscription.oldest_unacked_message_age", ext)
  {
  }

  lemma DLQWatches(ext: string, tags: seq<string>)
    ensures var s := DLQSlot(ext);
            Watches(Content(s.name, s.query, tags, s.warning, s.critical),
                    "[Titlis] PubSub DLQ com Itens — ",
                    "sum:gcp.pubsub.subscription.num_undelivered_messages", ext)
  {
  }

  /** The backlog monitors after a call: c is what a missing one is created as. */
  lemma BacklogAfterEnsure(st: Store, snap: Snapshot, t: Thresholds, registry: LabelRegistry, f: Faults)
      returns (c: Content)
    requires ValidStore(st)
    ensures Watches(c, "[Titlis] PubSub Backlog por Subscription — ",
                    "avg:gcp.pubsub.subscription.num_undelivered_messages", snap.externalID)
    ensures var job := JobOf(snap, t, registry);
            && c.tags == job.tags && c.warning == t.backlogWarning && c.critical == t.backlogCritical
            && AfterCall(st, job, f, c.name)
               == Ended(Before(st, job, c.name), f.list && Before(st, job, c.name) != [], Succeeds(f, 0),
                        t.backlogWarning > 0, c)
  {
    var job := JobOf(snap, t, registry);
    JobWellFormed(snap, t, registry);
    assert job.slots[0] == BacklogSlot(snap.externalID, t);
    c := SlotContent(job, 0);
    BacklogWatches(snap.externalID, t, job.tags);
    SlotOutcome(st, job, f, 0);
  }

  lemma AgeAfterEnsure(st: Store, snap: Snapshot, t: Thresholds, registry: LabelRegistry, f: Faults)
      returns (c: Content)
    requires ValidStore(st)
    ensures Watches(c, "[Titlis] PubSub Mensagem Mais Antiga — ",
                    "avg:gcp.pubsub.subscription.oldest_unacked_message_age", snap.externalID)
    ensures var job := JobOf(snap, t, registry);
            && c.tags == job.tags && c.warning == t.ageWarningSec && c.critical == t.ageCriticalSec
            && AfterCall(st, job, f, c.name)
               == Ended(Before(st, job, c.name), f.list && Before(st, job, c.name) != [], Succeeds(f, 1),
                        t.ageWarningSec > 0, c)
  {
    var job := JobOf(snap, t, registry);
    JobWellFormed(snap, t, registry);
    assert job.slots[1] == AgeSlot(snap.externalID, t);
    c := SlotContent(job, 1);
    AgeWatches(snap.externalID, t, job.tags);
    SlotOutcome(st, job, f, 1);
  }

  /** Any message in a dead-letter queue warns and ten are critical; an existing monitor is never rewritten. */
  lemma DLQAfterEnsure(st: Store, snap: Snapshot, t: Thresholds, registry: LabelRegistry, f: Faults)
      returns (c: Content)
    requires ValidStore(st)
    ensures Watches(c, "[Titlis] PubSub DLQ com Itens — ",
                    "sum:gcp.pubsub.subscription.num_undelivered_messages", snap.externalID)
    ensures var job := JobOf(snap, t, registry);
            && c.tags == job.tags && c.warning == 0 && c.critical == 10
            && AfterCall(st, job, f, c.name)
               == if snap.isDLQ then
                    Ended(Before(st, job, c.name), f.list && Before(st, job, c.name) != [], Succeeds(f, 2), false, c)
                  else Before(st, job, c.name)
  {
    var job, s := JobOf(snap, t, registry), DLQSlot(snap.externalID);
    JobWellFormed(snap, t, registry);
    c := Content(s.name, s.query, job.tags, s.warning, s.critical);
    DLQWatches(snap.externalID, job.tags);
    if snap.isDLQ {
      assert job.slots[2] == s;
      SlotOutcome(st, job, f, 2);
    } else {
      NamesDiffer(snap.externalID);
      OtherNamesKept(st, job, f, DLQName(snap.externalID));
    }
  }

  lemma BaseTagsExact(snap: Snapshot, tag: string)
    ensures tag in BaseTags(snap) <==>
            || tag == "managed_by:titlis" || tag == "titlis_feature:queue_monitoring"
            || tag == "titlis_tenant_id:" + Decimal(snap.tenantID) || tag == "subscription_id:" + snap.externalID
            || tag == "provider:" + snap.provider
  {
  }

  /** The label is set, and the registry allows its value. */
  predicate Allowed(labels: map<string, string>, registry: LabelRegistry, k: string) {
    k in labels && labels[k] != "" && k in registry && labels[k] in registry[k]
  }

  lemma KeyTagsExact(labels: map<string, string>, registry: LabelRegistry, k: string, tag: string)
    ensures tag in KeyTags(labels, registry, k) <==> Allowed(labels, registry, k) && tag == k + ":" + labels[k]
  {
  }

  lemma RequiredKeys()
    ensures forall k :: k in REQUIRED_KEYS <==> k in {"env", "team", "service"}
  {
  }

  lemma RegistryTagsExact(labels: map<string, string>, registry: LabelRegistry, tag: string)
    ensures tag in RegistryTags(labels, registry) <==>
            exists k :: k in {"env", "team", "service"} && Allowed(labels, registry, k) && tag == k + ":" + labels[k]
  {
    TagsOfKeysMembers(labels, registry, REQUIRED_KEYS);
    RequiredKeys();
    forall k
      ensures tag in KeyTags(labels, registry, k) <==> Allowed(labels, registry, k) && tag == k + ":" + labels[k]
    {
      KeyTagsExact(labels, registry, k, tag);
    }
  }

  /** The tags of a created monitor: the five that identify it, and each required label whose value is allowed. */
  lemma CreatedTags(snap: Snapshot, t: Thresholds, registry: LabelRegistry, tag: string)
    ensures tag in JobOf(snap, t, registry).tags <==>
            || tag == "managed_by:titlis" || tag == "titlis_feature:queue_monitoring"
            || tag == "titlis_tenant_id:" + Decimal(snap.tenantID) || tag == "subscription_id:" + snap.externalID
            || tag == "provider:" + snap.provider
            || exists k :: k in {"env", "team", "service"} && Allowed(snap.labels, registry, k)
                           && tag == k + ":" + snap.labels[k]
  {
    BaseTagsExact(snap, tag);
    RegistryTagsExact(snap.labels, registry, tag);
  }

  /** What the evaluation says about the three monitors. */
  predicate ReportsOn(snap: Snapshot, reported: Snapshot, names: set<string>) {
    && (reported.hasMonitorBacklog <==> BacklogName(snap.externalID) in names)
    && (reported.hasMonitorAge <==> AgeName(snap.externalID) in names)
    && (reported.hasMonitorDLQ <==> snap.isDLQ && DLQName(snap.externalID) in names)
    && reported == snap.(hasMonitorBacklog := reported.hasMonitorBacklog, hasMonitorAge := reported.hasMonitorAge,
                         hasMonitorDLQ := reported.hasMonitorDLQ)
  }

  /** The list succeeded, or every monitor that exists was created again. */
  predicate NothingOverlooked(v: seq<Content>, job: Job, f: Faults) {
    forall j | 0 <= j < |job.slots| :: !Overlooked(v, job, f, j)
  }

  lemma FlagsReport(snap: Snapshot, flags: seq<bool>, names: set<string>)
    requires |flags| == if snap.isDLQ then 3 else 2
    ensures ReportsOn(snap, WithStatus(snap, StatusOf(flags)), names)
            <==> && (flags[0] <==> BacklogName(snap.externalID) in names)
                 && (flags[1] <==> AgeName(snap.externalID) in names)
                 && (snap.isDLQ ==> (flags[2] <==> DLQName(snap.externalID) in names))
  {
  }

  lemma SlotNames(snap: Snapshot, t: Thresholds, registry: LabelRegistry)
    ensures var slots := JobOf(snap, t, registry).slots;
            && |slots| == (if snap.isDLQ then 3 else 2)
            && slots[0].name == BacklogName(snap.externalID) && slots[1].name == AgeName(snap.externalID)
            && (snap.isDLQ ==> slots[2].name == DLQName(snap.externalID))
  {
    var slots := JobOf(snap, t, registry).slots;
    assert slots[0] == BacklogSlot(snap.externalID, t) && slots[1] == AgeSlot(snap.externalID, t);
    assert snap.isDLQ ==> slots[2] == DLQSlot(snap.externalID);
  }

  /** Every flag tells whether the monitor of its slot exists. */
  predicate FlagsExact(job: Job, flags: seq<bool>, names: set<string>) {
    |flags| == |job.slots| && forall j | 0 <= j < |job.slots| :: flags[j] <==> job.slots[j].name in names
  }

  lemma ExactIff(v: seq<Content>, job: Job, f: Faults)
    requires WellFormed(job)
    ensures var r := Settle(v, job, SeenNames(v, f), 0, f);
            |r.flags| == |job.slots| && (FlagsExact(job, r.flags, Names(r.view)) <==> NothingOverlooked(v, job, f))
  {
    var r := Settle(v, job, SeenNames(v, f), 0, f);
    SettledFlags(v, job, f);
    if j :| 0 <= j < |job.slots| && Overlooked(v, job, f, j) {
      assert job.slots[j].name in Names(r.view) && !r.flags[j];
    }
  }

  lemma ReportsIff(snap: Snapshot, job: Job, flags: seq<bool>, names: set<string>)
    requires |flags| == |job.slots| == (if snap.isDLQ then 3 else 2)
    requires job.slots[0].name == BacklogName(snap.externalID) && job.slots[1].name == AgeName(snap.externalID)
    requires snap.isDLQ ==> job.slots[2].name == DLQName(snap.externalID)
    ensures ReportsOn(snap, WithStatus(snap, StatusOf(flags)), names) <==> FlagsExact(job, flags, names)
  {
    FlagsReport(snap, flags, names);
  }

  /** The status reports the truth exactly when no monitor is overlooked. */
  lemma StatusReports(v: seq<Content>, snap: Snapshot, t: Thresholds, registry: LabelRegistry, f: Faults)
    ensures var job := JobOf(snap, t, registry);
            var r := Settle(v, job, SeenNames(v, f), 0, f);
            ReportsOn(snap, WithStatus(snap, StatusOf(r.flags)), Names(r.view))
            <==> NothingOverlooked(v, job, f)
  {
    var job := JobOf(snap, t, registry);
    var r := Settle(v, job, SeenNames(v, f), 0, f);
    JobWellFormed(snap, t, registry);
    SlotNames(snap, t, registry);
    ExactIff(v, job, f);
    ReportsIff(snap, job, r.flags, Names(r.view));
  }

  /** The i-th queue is in the monitoring state, and monitor creation is on. */
  predicate Monitored(c: Config, i: nat) {
    && i < |c.tasks| && c.createMonitors
    && c.tasks[i].life.Some? && c.tasks[i].life.value.state.Monitoring? && c.tasks[i].life.value.thresholds.Some?
  }

  /** It was evaluated once, with its own thresholds. */
  predicate EvaluatedOnce(c: Config, i: nat, s: State)
    requires Monitored(c, i)
  {
    var calls := CallsOf(s.log, i);
    |calls| == 1 && calls[0].Evaluate? && calls[0].thresholds == c.tasks[i].life.value.thresholds.value
  }

  /** The evaluation reports on the store as it is now. */
  ghost predicate ReportedTruthfully(c: Config, i: nat, snap: Snapshot, s: State)
    requires Monitored(c, i) && EvaluatedOnce(c, i, s)
  {
    ReportsOn(snap, CallsOf(s.log, i)[0].snap, Names(View(s.store, LookupTags(snap.tenantID, snap.externalID))))
  }

  /**
   At the end of a complete cycle, whatever the schedule and whatever monitors there were, a monitored queue has been
   evaluated exactly once, with its own thresholds; the evaluation reports each standard monitor exactly when the store
   now has it, if and only if the list succeeded or every existing monitor was created again.
   */
  lemma EvaluationTellsTheTruth(r: Replies, learningCycles: int, store: Store, i: nat)
    requires Plan(r, learningCycles).Some? && DistinctIDs(r.snapshots.value)
    requires ValidStore(store) && Unshared(store, r.snapshots.value) && Monitored(Plan(r, learningCycles).value, i)
    ensures var c, snap := Plan(r, learningCycles).value, r.snapshots.value[i];
            var view := View(store, LookupTags(snap.tenantID, snap.externalID));
            forall schedule | Completes(c, store, schedule) ::
              && EvaluatedOnce(c, i, FinalState(c, store, schedule))
              && (ReportedTruthfully(c, i, snap, FinalState(c, store, schedule))
                  <==> NothingOverlooked(view, c.tasks[i].job, c.tasks[i].faults))
  {
    var c, snap := Plan(r, learningCycles).value, r.snapshots.value[i];
    var t := c.tasks[i];
    var view := View(store, LookupTags(snap.tenantID, snap.externalID));
    CycleOutcome(r, learningCycles, store);
    PlannedLookup(r, learningCycles, i, snap.tenantID, snap.externalID);
    MonitoredFate(c, t, view);
    StatusReports(view, snap, t.life.value.thresholds.value,
                  if r.registry.Ok? then r.registry.value else map[], t.faults);
    forall schedule | Completes(c, store, schedule)
      ensures && EvaluatedOnce(c, i, FinalState(c, store, schedule))
              && (ReportedTruthfully(c, i, snap, FinalState(c, store, schedule))
                  <==> NothingOverlooked(view, t.job, t.faults))
    {
      assert AsIfAlone(c, store, FinalState(c, store, schedule));
    }
  }

  /** What a queue in the monitoring state is owed. */
  lemma MonitoredFate(c: Config, t: Task, view: seq<Content>)
    requires c.createMonitors
    requires t.life.Some? && t.life.value.state.Monitoring? && t.life.value.thresholds.Some?
    ensures var r := Settle(view, t.job, SeenNames(view, t.faults), 0, t.faults);
            Expected(c, t, view)
            == Fate(r.view, [Evaluate(WithStatus(t.snap, StatusOf(r.flags)), t.life.value.thresholds.value)])
  {
  }

  /** The cycle leaves the queue without duplicates: its list succeeded, or no create repeats a monitor that exists. */
  predicate NoneRepeated(c: Config, i: nat, view: seq<Content>)
    requires i < |c.tasks|
  {
    var t := c.tasks[i];
    !Monitored(c, i) || t.faults.list
    || forall j | 0 <= j < |t.job.slots| && Succeeds(t.faults, j) :: t.job.slots[j].name !in Names(view)
  }

  lemma ExpectedUniqueIff(c: Config, i: nat, view: seq<Content>)
    requires i < |c.tasks| && WellFormed(c.tasks[i].job) && UniqueNames(view)
    ensures UniqueNames(Expected(c, c.tasks[i], view).view) <==> NoneRepeated(c, i, view)
  {
    var t := c.tasks[i];
    SettleUniqueIff(view, t.job, t.faults);
    if Monitored(c, i) {
      MonitoredFate(c, t, view);
    } else {
      assert Expected(c, t, view).view == view;
    }
  }

  /**
   A queue whose monitors have different names still has so at the end of a complete cycle, whatever the schedule,
   exactly when the cycle did not create a monitor that it failed to list.
   */
  lemma CycleKeepsNamesUniqueIff(r: Replies, learningCycles: int, store: Store, i: nat)
    requires Plan(r, learningCycles).Some? && DistinctIDs(r.snapshots.value) && i < |r.snapshots.value|
    requires ValidStore(store) && Unshared(store, r.snapshots.value)
    requires var snap := r.snapshots.value[i]; UniqueNames(View(store, LookupTags(snap.tenantID, snap.externalID)))
    ensures var c, snap := Plan(r, learningCycles).value, r.snapshots.value[i];
            var lookup := LookupTags(snap.tenantID, snap.externalID);
            forall schedule | Completes(c, store, schedule) ::
              UniqueNames(View(FinalState(c, store, schedule).store, lookup))
              <==> NoneRepeated(c, i, View(store, lookup))
  {
    var c, snap := Plan(r, learningCycles).value, r.snapshots.value[i];
    var t, lookup := c.tasks[i], LookupTags(snap.tenantID, snap.externalID);
    var view := View(store, lookup);
    CycleOutcome(r, learningCycles, store);
    PlannedLookup(r, learningCycles, i, snap.tenantID, snap.externalID);
    PlanFormed(r, learningCycles);
    ExpectedUniqueIff(c, i, view);
    forall schedule | Completes(c, store, schedule)
      ensures UniqueNames(View(FinalState(c, store, schedule).store, lookup)) <==> NoneRepeated(c, i, view)
    {
      assert AsIfAlone(c, store, FinalState(c, store, schedule));
    }
  }
}
