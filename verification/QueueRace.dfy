/**
 Why the snapshots of a cycle need distinct external ids: two workers with one external id share a lookup, and when both
 list before either creates, the subscription gets its monitors twice.
 */
module QueueRace {
  import opened MonitorStore
  import opened MonitorJob
  import opened MonitorManager
  import opened QueueCycle
  import opened QueueInTurn
  import opened QueueRunner

  /** The first n snapshots have been handed to workers, none of which has a slot. */
  lemma {:induction false} SpawnFirst(c: Config, store: Store, n: nat) returns (schedule: seq<Actor>, s: State)
    requires Formed(c) && n <= |c.tasks|
    ensures Reached(c, store, schedule, s)
    ensures s.store == store && s.cursor == n && s.tokens == 0 && !s.returned
    ensures forall k | 0 <= k < n && c.tasks[k].life.Some? :: s.phases[k].Waiting?
  {
    if n == 0 {
      InitCounted(c, store);
      schedule, s := [], Init(c, store);
    } else {
      schedule, s := SpawnFirst(c, store, n - 1);
      ReachedStep(c, store, schedule, s, Main);
      schedule, s := schedule + [Main], Step(c, s, Main);
    }
  }

  /** A waiting worker goes on until it has listed its monitors. */
  lemma ListsNow(c: Config, store: Store, schedule: seq<Actor>, s: State, i: nat)
      returns (schedule': seq<Actor>, s': State)
    requires Reached(c, store, schedule, s) && i < |c.tasks| && s.phases[i].Waiting?
    requires s.tokens < MAX_QUEUE_GOROUTINES && EnsuresMonitors(c, c.tasks[i])
    ensures Reached(c, store, schedule', s') && s'.store == s.store && s'.tokens == s.tokens + 1
    ensures s'.phases == s.phases[i := Ensuring(Lookup(s.store, c.tasks[i].job, c.tasks[i].faults), [])]
  {
    var w := Worker(i);
    ReachedStep(c, store, schedule, s, w);
    var s1 := Step(c, s, w);
    ReachedStep(c, store, schedule + [w], s1, w);
    var s2 := Step(c, s1, w);
    assert s2.phases[i] == Listing;
    ReachedStep(c, store, schedule + [w] + [w], s2, w);
    schedule', s' := schedule + [w] + [w] + [w], Step(c, s2, w);
  }

  /** A worker that has not found its first monitor creates it. */
  lemma CreatesNow(c: Config, store: Store, schedule: seq<Actor>, s: State, i: nat)
      returns (schedule': seq<Actor>, s': State)
    requires Reached(c, store, schedule, s) && i < |c.tasks|
    requires s.phases[i].Ensuring? && s.phases[i].flags == []
    requires c.tasks[i].job.slots[0].name !in s.phases[i].found && Succeeds(c.tasks[i].faults, 0)
    ensures Reached(c, store, schedule', s') && s'.store == Create(s.store, SlotContent(c.tasks[i].job, 0))
    ensures forall k | 0 <= k < |c.tasks| && k != i :: s'.phases[k] == s.phases[k]
  {
    ReachedStep(c, store, schedule, s, Worker(i));
    schedule', s' := schedule + [Worker(i)], Step(c, s, Worker(i));
  }

  lemma CreatedTwice(st: Store, a: Content, b: Content, lookup: set<string>)
    requires Carries(a.tags, lookup) && Carries(b.tags, lookup) && a.name == b.name
    ensures !UniqueNames(View(Create(Create(st, a), b), lookup))
  {
    var st1, v := Create(st, a), View(st, lookup);
    ViewAppend(st.monitors, st1.monitors[|st.monitors|], lookup);
    ViewAppend(st1.monitors, Create(st1, b).monitors[|st1.monitors|], lookup);
    var w := (v + [a]) + [b];
    assert w[|v|].name == w[|v| + 1].name;
  }

  /** The worker has a first monitor to create, and can. */
  predicate WillCreate(c: Config, store: Store, t: Task) {
    && EnsuresMonitors(c, t) && |t.job.slots| > 0 && Succeeds(t.faults, 0)
    && t.job.slots[0].name !in Names(View(store, t.job.lookup))
  }

  /** Some schedule of the cycle leaves two monitors of one name under the lookup. */
  ghost predicate CanDuplicate(c: Config, store: Store, lookup: set<string>) {
    exists schedule, s :: Reached(c, store, schedule, s) && !UniqueNames(View(s.store, lookup))
  }

  lemma FoundBefore(store: Store, t: Task)
    requires |t.job.slots| > 0 && t.job.slots[0].name !in Names(View(store, t.job.lookup))
    ensures t.job.slots[0].name !in Lookup(store, t.job, t.faults)
  {
    LookupFacts(store, t.job, t.faults);
  }

  /** Two workers with one lookup and one first name race, even when every call succeeds. */
  lemma SharedLookupRaces(c: Config, store: Store, i: nat, j: nat)
    requires Formed(c) && i < |c.tasks| && j < |c.tasks| && i != j
    requires WillCreate(c, store, c.tasks[i]) && WillCreate(c, store, c.tasks[j])
    requires c.tasks[i].job.lookup == c.tasks[j].job.lookup
    requires c.tasks[i].job.slots[0].name == c.tasks[j].job.slots[0].name
    ensures CanDuplicate(c, store, c.tasks[i].job.lookup)
  {
    FoundBefore(store, c.tasks[i]);
    FoundBefore(store, c.tasks[j]);
    var x, s := SpawnFirst(c, store, |c.tasks|);
    var x1, s1 := ListsNow(c, store, x, s, i);
    var x2, s2 := ListsNow(c, store, x1, s1, j);
    var x3, s3 := CreatesNow(c, store, x2, s2, i);
    var x4, s4 := CreatesNow(c, store, x3, s3, j);
    CreatedTwice(store, SlotContent(c.tasks[i].job, 0), SlotContent(c.tasks[j].job, 0), c.tasks[i].job.lookup);
    assert Reached(c, store, x4, s4);
  }

  /** So do the workers of two snapshots of one tenant and external id. */
  lemma SharedIDsRace(r: Replies, learningCycles: int, store: Store, i: nat, j: nat)
    requires Plan(r, learningCycles).Some? && i < |r.snapshots.value| && j < |r.snapshots.value| && i != j
    requires r.snapshots.value[i].externalID == r.snapshots.value[j].externalID
    requires r.snapshots.value[i].tenantID == r.snapshots.value[j].tenantID
    requires var c := Plan(r, learningCycles).value;
             WillCreate(c, store, c.tasks[i]) && WillCreate(c, store, c.tasks[j])
    ensures var snap := r.snapshots.value[i];
            CanDuplicate(Plan(r, learningCycles).value, store, LookupTags(snap.tenantID, snap.externalID))
  {
    PlanFormed(r, learningCycles);
    SharedLookupRaces(Plan(r, learningCycles).value, store, i, j);
  }
}
