/** EnsureMonitors with the operator's own tags, names and thresholds. */
module MonitorManager {
  import opened MonitorStore
  import opened MonitorJob
  import opened Queue
  import opened Text
  import PubSub

  const MANAGED_BY := "managed_by:titlis"
  const FEATURE := "titlis_feature:queue_monitoring"
  const REQUIRED_KEYS := ["env", "team", "service"]

  function TenantTag(tenantID: int): string { "titlis_tenant_id:" + Decimal(tenantID) }

  function SubscriptionTag(externalID: string): string { "subscription_id:" + externalID }

  function LookupTags(tenantID: int, externalID: string): set<string> {
    {MANAGED_BY, FEATURE, TenantTag(tenantID), SubscriptionTag(externalID)}
  }

  function BaseTags(snap: Snapshot): seq<string> {
    [MANAGED_BY, FEATURE, TenantTag(snap.tenantID), SubscriptionTag(snap.externalID), "provider:" + snap.provider]
  }

  /** The registry tag of one label key, when the label's value is one the registry allows. */
  function KeyTags(labels: map<string, string>, registry: LabelRegistry, key: string): seq<string> {
    if key in labels && labels[key] != "" && key in registry && labels[key] in registry[key]
    then [key + ":" + labels[key]]
    else []
  }

  function TagsOfKeys(labels: map<string, string>, registry: LabelRegistry, keys: seq<string>): seq<string> {
    if keys == [] then []
    else TagsOfKeys(labels, registry, keys[..|keys| - 1]) + KeyTags(labels, registry, keys[|keys| - 1])
  }

  function RegistryTags(labels: map<string, string>, registry: LabelRegistry): seq<string> {
    TagsOfKeys(labels, registry, REQUIRED_KEYS)
  }

  function BacklogName(externalID: string): string {
    "[Titlis] PubSub Backlog por Subscription — " + PubSub.SubName(externalID)
  }

  function AgeName(externalID: string): string {
    "[Titlis] PubSub Mensagem Mais Antiga — " + PubSub.SubName(externalID)
  }

  function DLQName(externalID: string): string {
    "[Titlis] PubSub DLQ com Itens — " + PubSub.SubName(externalID)
  }

  function MetricQuery(metric: string, externalID: string, critical: int): string {
    "avg(last_5m):" + metric + "{subscription_id:" + externalID + "} by {subscription_id} > " + Decimal(critical)
  }

  function BacklogSlot(ext: string, t: Thresholds): Slot {
    Slot(BacklogName(ext), MetricQuery("avg:gcp.pubsub.subscription.num_undelivered_messages", ext, t.backlogCritical),
         t.backlogWarning, t.backlogCritical, t.backlogWarning > 0)
  }

  function AgeSlot(ext: string, t: Thresholds): Slot {
    Slot(AgeName(ext), MetricQuery("avg:gcp.pubsub.subscription.oldest_unacked_message_age", ext, t.ageCriticalSec),
         t.ageWarningSec, t.ageCriticalSec, t.ageWarningSec > 0)
  }

  /** Any message in a dead-letter queue warns, ten are critical; an existing monitor is never rewritten. */
  function DLQSlot(ext: string): Slot {
    Slot(DLQName(ext), MetricQuery("sum:gcp.pubsub.subscription.num_undelivered_messages", ext, 10), 0, 10, false)
  }

  function SlotsOf(snap: Snapshot, t: Thresholds): seq<Slot> {
    [BacklogSlot(snap.externalID, t), AgeSlot(snap.externalID, t)]
    + if snap.isDLQ then [DLQSlot(snap.externalID)] else []
  }

  function JobOf(snap: Snapshot, t: Thresholds, registry: LabelRegistry): Job {
    Job(LookupTags(snap.tenantID, snap.externalID),
        BaseTags(snap) + RegistryTags(snap.labels, registry),
        SlotsOf(snap, t))
  }

  // --- the tags identify the subscription ---

  lemma {:induction false} TagsOfKeysMembers(labels: map<string, string>, registry: LabelRegistry, keys: seq<string>)
    ensures forall t :: t in TagsOfKeys(labels, registry, keys) <==>
              exists k :: k in keys && t in KeyTags(labels, registry, k)
  {
    if keys != [] {
      TagsOfKeysMembers(labels, registry, keys[..|keys| - 1]);
      assert forall k :: k in keys <==> k in keys[..|keys| - 1] || k == keys[|keys| - 1];
    }
  }

  lemma RegistryTagPrefix(labels: map<string, string>, registry: LabelRegistry, t: string)
    requires t in RegistryTags(labels, registry)
    ensures "env:" <= t || "team:" <= t || "service:" <= t
  {
    TagsOfKeysMembers(labels, registry, REQUIRED_KEYS);
    var k :| k in REQUIRED_KEYS && t in KeyTags(labels, registry, k);
    assert k + ":" <= t;
    assert k == "env" || k == "team" || k == "service";
  }

  lemma TagCases(snap: Snapshot, registry: LabelRegistry, t: string)
    requires t in BaseTags(snap) + RegistryTags(snap.labels, registry)
    ensures || t == MANAGED_BY || t == FEATURE
            || t == TenantTag(snap.tenantID) || t == SubscriptionTag(snap.externalID)
            || "provider:" <= t || "env:" <= t || "team:" <= t || "service:" <= t
  {
    if t in RegistryTags(snap.labels, registry) {
      RegistryTagPrefix(snap.labels, registry, t);
    }
  }

  lemma TenantTagIn(snap: Snapshot, registry: LabelRegistry, tenantID: int)
    requires TenantTag(tenantID) in BaseTags(snap) + RegistryTags(snap.labels, registry)
    ensures tenantID == snap.tenantID
  {
    var t, d := TenantTag(tenantID), Decimal(tenantID);
    TagCases(snap, registry, t);
    assert t[0] == 't' && t[1] == 'i' && t[7] == 't';
    assert FEATURE[7] == 'f' && SubscriptionTag(snap.externalID)[0] == 's';
    assert t == TenantTag(snap.tenantID);
    assert d == t[17..] && Decimal(snap.tenantID) == TenantTag(snap.tenantID)[17..];
    DecimalInjective(tenantID, snap.tenantID);
  }

  lemma SubscriptionTagIn(snap: Snapshot, registry: LabelRegistry, externalID: string)
    requires SubscriptionTag(externalID) in BaseTags(snap) + RegistryTags(snap.labels, registry)
    ensures externalID == snap.externalID
  {
    var t := SubscriptionTag(externalID);
    TagCases(snap, registry, t);
    assert t[0] == 's' && t[1] == 'u' && TenantTag(snap.tenantID)[0] == 't';
    assert t == SubscriptionTag(snap.externalID);
    assert externalID == t[16..] && snap.externalID == SubscriptionTag(snap.externalID)[16..];
  }

  /** A lookup is answered by the monitors created for that tenant and subscription, and by no others. */
  lemma LookupIffOwner(snap: Snapshot, t: Thresholds, registry: LabelRegistry, tenantID: int, externalID: string)
    ensures Carries(JobOf(snap, t, registry).tags, LookupTags(tenantID, externalID)) <==>
            tenantID == snap.tenantID && externalID == snap.externalID
  {
    var tags := JobOf(snap, t, registry).tags;
    if Carries(tags, LookupTags(tenantID, externalID)) {
      assert TenantTag(tenantID) in LookupTags(tenantID, externalID);
      assert SubscriptionTag(externalID) in LookupTags(tenantID, externalID);
      TenantTagIn(snap, registry, tenantID);
      SubscriptionTagIn(snap, registry, externalID);
    }
    if tenantID == snap.tenantID && externalID == snap.externalID {
      var b := BaseTags(snap);
      assert b[0] in tags && b[1] in tags && b[2] in tags && b[3] in tags;
    }
  }

  lemma NamesDiffer(ext: string)
    ensures BacklogName(ext) != AgeName(ext) && AgeName(ext) != DLQName(ext) && BacklogName(ext) != DLQName(ext)
  {
    assert BacklogName(ext)[16] == 'B' && AgeName(ext)[16] == 'M' && DLQName(ext)[16] == 'D';
  }

  lemma JobWellFormed(snap: Snapshot, t: Thresholds, registry: LabelRegistry)
    ensures WellFormed(JobOf(snap, t, registry))
  {
    LookupIffOwner(snap, t, registry, snap.tenantID, snap.externalID);
    NamesDiffer(snap.externalID);
  }

  /**
   For a queue that is not a dead-letter queue, no listing of any store gains or loses a dead-letter monitor,
   whichever requests fail.
   */
  lemma NoDLQMonitorForOthers(st: Store, snap: Snapshot, t: Thresholds, registry: LabelRegistry, f: Faults,
                              lookup: set<string>)
    requires !snap.isDLQ
    ensures DLQName(snap.externalID) in Names(View(Ensured(st, JobOf(snap, t, registry), f).store, lookup)) <==>
            DLQName(snap.externalID) in Names(View(st, lookup))
  {
    var job := JobOf(snap, t, registry);
    NamesDiffer(snap.externalID);
    FromSlotOtherName(st, job, Lookup(st, job, f), 0, f, lookup, DLQName(snap.externalID));
  }

  // --- the imperative form ---

  /** The remote monitors API. Each call is told whether it succeeds; a failed call changes nothing. */
  class MonitorsAPI {
    var store: Store

    constructor (initial: Store)
      ensures store == initial
    {
      store := initial;
    }

    method ListMonitors(lookup: set<string>, ok: bool) returns (listed: seq<Monitor>)
      ensures listed == if ok then Listed(store.monitors, lookup) else []
    {
      listed := if ok then Listed(store.monitors, lookup) else [];
    }

    /** One more monitor, under an id that no monitor has; the others stay as they are. */
    method CreateMonitor(c: Content, ok: bool)
      modifies this
      ensures store == if ok then Create(old(store), c) else old(store)
      ensures ok && ValidStore(old(store)) ==>
                && ValidStore(store) && |store.monitors| == |old(store).monitors| + 1
                && store.monitors[..|old(store).monitors|] == old(store).monitors
                && (var m := store.monitors[|old(store).monitors|];
                    ContentOf(m) == c && forall x | x in old(store).monitors :: x.id != m.id)
    {
      if ok {
        store := Create(store, c);
      }
    }

    /** New thresholds for the monitor of that id alone; nothing else of it changes. */
    method UpdateMonitor(id: int, warning: int, critical: int, ok: bool)
      modifies this
      ensures store == if ok then Update(old(store), id, warning, critical) else old(store)
      ensures ok ==>
                && |store.monitors| == |old(store).monitors|
                && (ValidStore(old(store)) ==> ValidStore(store))
                && forall p | 0 <= p < |store.monitors| ::
                     store.monitors[p] == if old(store).monitors[p].id == id
                                          then old(store).monitors[p].(warning := warning, critical := critical)
                                          else old(store).monitors[p]
    {
      if ok {
        if ValidStore(store) {
          ValidAfterUpdate(store, id, warning, critical);
        }
        store := Update(store, id, warning, critical);
      }
    }
  }

  /** buildRegistryTags: nested loops over the required keys and the allowed values. */
  method BuildRegistryTags(snap: Snapshot, registry: LabelRegistry) returns (tags: seq<string>)
    ensures tags == RegistryTags(snap.labels, registry)
  {
    tags := [];
    for i := 0 to |REQUIRED_KEYS|
      invariant tags == TagsOfKeys(snap.labels, registry, REQUIRED_KEYS[..i])
    {
      var key := REQUIRED_KEYS[i];
      ghost var before := tags;
      assert REQUIRED_KEYS[..i + 1][..i] == REQUIRED_KEYS[..i];
      if key in snap.labels && snap.labels[key] != "" {
        var val := snap.labels[key];
        if key in registry {
          var vals := registry[key];
          for j := 0 to |vals|
            invariant tags == before && val !in vals[..j]
          {
            if vals[j] == val {
              tags := tags + [key + ":" + val];
              break;
            }
          }
        }
      }
    }
    assert REQUIRED_KEYS[..|REQUIRED_KEYS|] == REQUIRED_KEYS;
  }

  /** existingByName: later monitors of the same name replace earlier ones. */
  method IndexByName(listed: seq<Monitor>) returns (existingByName: map<string, int>)
    ensures existingByName == ByName(listed)
  {
    existingByName := map[];
    for i := 0 to |listed|
      invariant existingByName == ByName(listed[..i])
    {
      assert listed[..i + 1][..i] == listed[..i];
      existingByName := existingByName[listed[i].name := listed[i].id];
    }
    assert listed[..|listed|] == listed;
  }

  /** One monitor: update it when it exists and is to be refreshed, create it when it does not exist. */
  method EnsureSlot(api: MonitorsAPI, job: Job, existingByName: map<string, int>, k: nat, ok: bool)
    returns (present: bool)
    requires k < |job.slots|
    modifies api
    ensures api.store == SlotStep(old(api.store), job, existingByName, k, ok)
    ensures present == SlotFlag(job, existingByName.Keys, k, ok)
  {
    var slot := job.slots[k];
    if slot.name in existingByName {
      present := true;
      if slot.refresh {
        api.UpdateMonitor(existingByName[slot.name], slot.warning, slot.critical, ok);
      }
    } else {
      api.CreateMonitor(SlotContent(job, k), ok);
      present := ok;
    }
  }

  /** The store after the first k slots. */
  function StoreAfter(st: Store, job: Job, f: Faults, k: nat): Store
    requires k <= |job.slots|
  {
    if k == 0 then st
    else SlotStep(StoreAfter(st, job, f, k - 1), job, Lookup(st, job, f), k - 1, Succeeds(f, k - 1))
  }

  lemma {:induction false} FromSlotIsSteps(st: Store, job: Job, f: Faults, k: nat)
    requires k <= |job.slots|
    ensures FromSlot(StoreAfter(st, job, f, k), job, Lookup(st, job, f), k, f).store == Ensured(st, job, f).store
  {
    if k > 0 {
      FromSlotIsSteps(st, job, f, k - 1);
    }
  }

  lemma {:induction false} FromSlotFlags(st: Store, job: Job, found: map<string, int>, k: nat, f: Faults)
    requires k <= |job.slots|
    ensures var flags := FromSlot(st, job, found, k, f).flags;
            && |flags| == |job.slots| - k
            && forall j | 0 <= j < |flags| :: flags[j] == SlotFlag(job, found.Keys, k + j, Succeeds(f, k + j))
    decreases |job.slots| - k
  {
    if k < |job.slots| {
      FromSlotFlags(SlotStep(st, job, found, k, Succeeds(f, k)), job, found, k + 1, f);
    }
  }

  lemma StatusOfSlots(st: Store, job: Job, f: Faults)
    requires 2 <= |job.slots| <= 3
    ensures var names := Lookup(st, job, f).Keys;
            StatusOf(Ensured(st, job, f).flags)
            == MonitorStatus(SlotFlag(job, names, 0, Succeeds(f, 0)), SlotFlag(job, names, 1, Succeeds(f, 1)),
                             |job.slots| == 3 && SlotFlag(job, names, 2, Succeeds(f, 2)))
  {
    FromSlotFlags(st, job, Lookup(st, job, f), 0, f);
  }

  method EnsureJob(api: MonitorsAPI, job: Job, f: Faults) returns (status: MonitorStatus)
    requires 2 <= |job.slots| <= 3
    modifies api
    ensures api.store == Ensured(old(api.store), job, f).store
    ensures status == StatusOf(Ensured(old(api.store), job, f).flags)
  {
    ghost var st := api.store;
    FromSlotIsSteps(st, job, f, |job.slots|);
    StatusOfSlots(st, job, f);
    var listed := api.ListMonitors(job.lookup, f.list);
    var existingByName := IndexByName(listed);
    var backlog := EnsureSlot(api, job, existingByName, 0, Succeeds(f, 0));
    assert api.store == StoreAfter(st, job, f, 1);
    var age := EnsureSlot(api, job, existingByName, 1, Succeeds(f, 1));
    assert api.store == StoreAfter(st, job, f, 2);
    var dlq := false;
    if |job.slots| == 3 {
      dlq := EnsureSlot(api, job, existingByName, 2, Succeeds(f, 2));
    }
    assert api.store == StoreAfter(st, job, f, |job.slots|);
    status := MonitorStatus(backlog, age, dlq);
  }

  method EnsureMonitors(api: MonitorsAPI, snap: Snapshot, t: Thresholds, registry: LabelRegistry, f: Faults)
    returns (status: MonitorStatus)
    modifies api
    ensures api.store == Ensured(old(api.store), JobOf(snap, t, registry), f).store
    ensures status == StatusOf(Ensured(old(api.store), JobOf(snap, t, registry), f).flags)
  {
    var extraTags := BuildRegistryTags(snap, registry);
    var job := Job(LookupTags(snap.tenantID, snap.externalID), BaseTags(snap) + extraTags, SlotsOf(snap, t));
    status := EnsureJob(api, job, f);
  }
}
