/** The whole cycle: early exits, the plan of work, and the run under any scheduler (queue_runner.go). */
module QueueRunner {
  import opened Wrappers
  import opened Queue
  import opened MonitorStore
  import opened MonitorJob
  import opened MonitorManager
  import opened QueueCycle
  import opened QueueConfluence
  import opened QueueInTurn
  import opened QueueSafety

  /** What the remote services answer during one cycle, and which monitor calls of each snapshot succeed. */
  datatype Replies = Replies(
    config: Result<Option<QueueConfig>>,
    creds: Result<Option<Credentials>>,
    registry: Result<LabelRegistry>,
    snapshots: Result<seq<Snapshot>>,
    lifecycles: Result<map<string, Lifecycle>>,
    faults: seq<Faults>)

  function TaskOf(snap: Snapshot, lifecycles: map<string, Lifecycle>, registry: LabelRegistry, f: Faults): Task {
    var life := if snap.externalID in lifecycles then Some(lifecycles[snap.externalID]) else None;
    var thresholds := if life.Some? && life.value.thresholds.Some? then life.value.thresholds.value else NO_THRESHOLDS;
    Task(snap, life, JobOf(snap, thresholds, registry), f)
  }

  function FaultsOf(r: Replies, i: nat): Faults {
    if i < |r.faults| then r.faults[i] else Faults(true, [])
  }

  /** The work of a cycle, or None when the cycle is skipped. */
  function Plan(r: Replies, learningCycles: int): Option<Config> {
    if r.config.Err? || r.config.value.None? || !r.config.value.value.enabled then None
    else if r.creds.Err? || r.creds.value.None? || r.creds.value.value.apiKey == "" then None
    else if r.snapshots.Err? || r.snapshots.value == [] || r.lifecycles.Err? then None
    else
      var cfg, snaps := r.config.value.value, r.snapshots.value;
      var registry := if r.registry.Ok? then r.registry.value else map[];
      Some(Config(
        seq(|snaps|, i requires 0 <= i < |snaps| => TaskOf(snaps[i], r.lifecycles.value, registry, FaultsOf(r, i))),
        if cfg.learningCycles > 0 then cfg.learningCycles else learningCycles,
        cfg.monitorCreationEnabled))
  }

  /** A failed label registry does not skip the cycle; every other missing answer does. */
  predicate CycleSkipped(r: Replies) {
    || r.config.Err? || r.config.value == None || !r.config.value.value.enabled
    || r.creds.Err? || r.creds.value == None || r.creds.value.value.apiKey == ""
    || r.snapshots.Err? || r.snapshots.value == []
    || r.lifecycles.Err?
  }

  lemma CycleSkippedIff(r: Replies, learningCycles: int)
    ensures Plan(r, learningCycles).None? <==> CycleSkipped(r)
  {
  }

  predicate DistinctIDs(snaps: seq<Snapshot>) {
    forall i, j | 0 <= i < j < |snaps| :: snaps[i].externalID != snaps[j].externalID
  }

  /** A config planned from some replies, over snapshots with distinct external ids. */
  ghost predicate Planned(c: Config) {
    exists r, d :: Plan(r, d) == Some(c) && DistinctIDs(r.snapshots.value)
  }

  lemma PlanFormed(r: Replies, learningCycles: int)
    requires Plan(r, learningCycles).Some?
    ensures Formed(Plan(r, learningCycles).value)
  {
    var c := Plan(r, learningCycles).value;
    var registry := if r.registry.Ok? then r.registry.value else map[];
    forall i | 0 <= i < |c.tasks| ensures WellFormed(c.tasks[i].job) {
      var t := c.tasks[i];
      var life := t.life;
      var th := if life.Some? && life.value.thresholds.Some? then life.value.thresholds.value else NO_THRESHOLDS;
      JobWellFormed(t.snap, th, registry);
    }
  }

  /** A planned task's monitors answer exactly the lookup of its own tenant and subscription. */
  lemma PlannedLookup(r: Replies, learningCycles: int, i: nat, tenantID: int, externalID: string)
    requires Plan(r, learningCycles).Some? && i < |Plan(r, learningCycles).value.tasks|
    ensures var t, snap := Plan(r, learningCycles).value.tasks[i], r.snapshots.value[i];
            && t.snap == snap
            && t.job.lookup == LookupTags(snap.tenantID, snap.externalID)
            && (Carries(t.job.tags, LookupTags(tenantID, externalID)) <==>
                tenantID == snap.tenantID && externalID == snap.externalID)
  {
    var t := Plan(r, learningCycles).value.tasks[i];
    var registry := if r.registry.Ok? then r.registry.value else map[];
    var th := if t.life.Some? && t.life.value.thresholds.Some? then t.life.value.thresholds.value else NO_THRESHOLDS;
    LookupIffOwner(t.snap, th, registry, tenantID, externalID);
  }

  lemma PlannedApart(r: Replies, learningCycles: int, i: nat, j: nat)
    requires Plan(r, learningCycles).Some? && DistinctIDs(r.snapshots.value) && i != j
    requires i < |r.snapshots.value| && j < |r.snapshots.value|
    ensures var c := Plan(r, learningCycles).value;
            !Carries(c.tasks[i].job.tags, c.tasks[j].job.lookup)
  {
    var si, sj := r.snapshots.value[i], r.snapshots.value[j];
    PlannedLookup(r, learningCycles, j, sj.tenantID, sj.externalID);
    PlannedLookup(r, learningCycles, i, sj.tenantID, sj.externalID);
    assert si.externalID != sj.externalID;
  }

  /** Distinct external ids are all the protocol needs: no monitor is claimed by two workers. */
  lemma PlannedCoherent(c: Config)
    requires Planned(c)
    ensures Coherent(c)
  {
    var r, d :| Plan(r, d) == Some(c) && DistinctIDs(r.snapshots.value);
    PlanFormed(r, d);
    forall i, j | 0 <= i < |c.tasks| && 0 <= j < |c.tasks| && i != j
      ensures !Carries(c.tasks[i].job.tags, c.tasks[j].job.lookup)
    {
      PlannedApart(r, d, i, j);
    }
  }

  lemma PlannedFits(c: Config, tenantID: int, externalID: string)
    requires Planned(c)
    ensures Fits(c, LookupTags(tenantID, externalID))
  {
    var r, d :| Plan(r, d) == Some(c) && DistinctIDs(r.snapshots.value);
    var lookup := LookupTags(tenantID, externalID);
    forall i | 0 <= i < |c.tasks| && Carries(c.tasks[i].job.tags, lookup) ensures c.tasks[i].job.lookup == lookup {
      PlannedLookup(r, d, i, tenantID, externalID);
    }
  }

  /** Every cycle over this history is planned, and its lists for this subscription succeed. */
  ghost predicate ListsInHistory(events: seq<Event>, tenantID: int, externalID: string) {
    forall e | e in events && e.Cycle? ::
      Planned(e.config) && ListsSucceed(e.config, LookupTags(tenantID, externalID))
  }

  /**
   Over any number of cycles, each interrupted anywhere or run to its end under any scheduler, and with
   monitors removed by hand in between: a subscription whose own lists succeed never gets a duplicate, whatever
   becomes of the lists of the others.
   */
  lemma NeverTwoMonitorsOfOneName(store: Store, events: seq<Event>, last: Store, tenantID: int, externalID: string)
    requires History(store, events, last) && UniqueNames(View(store, LookupTags(tenantID, externalID)))
    requires ListsInHistory(events, tenantID, externalID)
    ensures UniqueNames(View(last, LookupTags(tenantID, externalID)))
  {
    forall e | e in events && e.Cycle? ensures Fits(e.config, LookupTags(tenantID, externalID)) {
      PlannedFits(e.config, tenantID, externalID);
    }
    NamesStayUnique(store, events, last, LookupTags(tenantID, externalID));
  }

  lemma CreatesAll(job: Job, view: seq<Content>, f: Faults)
    requires WellFormed(job) && !f.list && forall j | 0 <= j < |job.slots| :: Succeeds(f, j)
    ensures Settle(view, job, {}, 0, f).view == view + Created(job, {}, 0, f)
    ensures |Created(job, {}, 0, f)| == |job.slots|
  {
    SettleExact(view, job, {}, 0, f);
    AllCreated(job, 0, f);
    var v' := Settle(view, job, {}, 0, f).view;
    forall p | 0 <= p < |view| ensures v'[p] == view[p] {
      RefreshedMeans(job, {}, 0, f, view[p]);
    }
    assert v' == view + v'[|view|..];
  }

  lemma {:induction false} AllCreated(job: Job, k: nat, f: Faults)
    requires k <= |job.slots| && forall j | k <= j < |job.slots| :: Succeeds(f, j)
    ensures |Created(job, {}, k, f)| == |job.slots| - k
    decreases |job.slots| - k
  {
    if k < |job.slots| {
      AllCreated(job, k + 1, f);
    }
  }

  /** Without the list, every call creates every monitor once more. */
  lemma FailedListDuplicates(st: Store, snap: Snapshot, t: Thresholds, registry: LabelRegistry, f: Faults)
    requires ValidStore(st) && !f.list && forall j | 0 <= j < 3 :: Succeeds(f, j)
    ensures var job := JobOf(snap, t, registry);
            var once := Ensured(st, job, f).store;
            var twice := Ensured(once, job, f).store;
            && View(once, job.lookup) == View(st, job.lookup) + Created(job, {}, 0, f)
            && View(twice, job.lookup) == View(once, job.lookup) + Created(job, {}, 0, f)
            && |Created(job, {}, 0, f)| == |job.slots| && !UniqueNames(View(twice, job.lookup))
  {
    var job := JobOf(snap, t, registry);
    JobWellFormed(snap, t, registry);
    EnsuredView(st, job, f);
    var once := Ensured(st, job, f).store;
    EnsuredView(once, job, f);
    var v, created := View(st, job.lookup), Created(job, {}, 0, f);
    CreatesAll(job, v, f);
    CreatesAll(job, View(once, job.lookup), f);
    var w := View(Ensured(once, job, f).store, job.lookup);
    assert w[|v|] == created[0] == w[|v| + |created|];
  }

  /** No monitor of the store belongs to two subscriptions of the cycle. */
  ghost predicate Unshared(store: Store, snaps: seq<Snapshot>) {
    forall i, j | 0 <= i < |snaps| && 0 <= j < |snaps| && i != j ::
      Exclusive(store, LookupTags(snaps[i].tenantID, snaps[i].externalID),
                LookupTags(snaps[j].tenantID, snaps[j].externalID))
  }

  /** The schedule runs the cycle to its end. */
  predicate Completes(c: Config, store: Store, schedule: seq<Actor>) {
    && Formed(c) && Shaped(c, Init(c, store))
    && Exec(c, Init(c, store), schedule).Some? && Exec(c, Init(c, store), schedule).value.returned
  }

  function FinalState(c: Config, store: Store, schedule: seq<Actor>): State
    requires Completes(c, store, schedule)
  {
    Exec(c, Init(c, store), schedule).value
  }

  /**
   The calls are those of handling the snapshots one after the other, the monitors of each subscription are those it
   then has, and both are what it would have been given alone.
   */
  ghost predicate AsIfAlone(c: Config, store: Store, s: State) {
    && multiset(s.log) == multiset(HandleAll(c, store, |c.tasks|).log)
    && forall i | 0 <= i < |c.tasks| ::
         && View(s.store, c.tasks[i].job.lookup) == View(HandleAll(c, store, |c.tasks|).state, c.tasks[i].job.lookup)
         && Fate(View(s.store, c.tasks[i].job.lookup), CallsOf(s.log, i))
            == Expected(c, c.tasks[i], View(store, c.tasks[i].job.lookup))
  }

  lemma UnsharedReady(r: Replies, learningCycles: int, store: Store)
    requires Plan(r, learningCycles).Some? && DistinctIDs(r.snapshots.value)
    requires ValidStore(store) && Unshared(store, r.snapshots.value)
    ensures ReadyStore(Plan(r, learningCycles).value, store)
  {
    var c := Plan(r, learningCycles).value;
    var snaps := r.snapshots.value;
    forall i, j | 0 <= i < |c.tasks| && 0 <= j < |c.tasks| && i != j
      ensures Exclusive(store, c.tasks[i].job.lookup, c.tasks[j].job.lookup)
    {
      PlannedLookup(r, learningCycles, i, snaps[i].tenantID, snaps[i].externalID);
      PlannedLookup(r, learningCycles, j, snaps[j].tenantID, snaps[j].externalID);
    }
  }

  /**
   The outcome of a complete cycle, for every schedule: the calls are those of handling the snapshots
   one after the other, and each subscription has the monitors it would have been given alone.
   */
  lemma CycleOutcome(r: Replies, learningCycles: int, store: Store)
    requires Plan(r, learningCycles).Some? && DistinctIDs(r.snapshots.value)
    requires ValidStore(store) && Unshared(store, r.snapshots.value)
    ensures var c := Plan(r, learningCycles).value;
            forall schedule | Completes(c, store, schedule) :: AsIfAlone(c, store, FinalState(c, store, schedule))
  {
    var c := Plan(r, learningCycles).value;
    assert Planned(c);
    PlannedCoherent(c);
    UnsharedReady(r, learningCycles, store);
    forall schedule | Completes(c, store, schedule) ensures AsIfAlone(c, store, FinalState(c, store, schedule)) {
      SameCallsAsSequential(c, store, schedule);
      forall i | 0 <= i < |c.tasks|
        ensures Fate(View(FinalState(c, store, schedule).store, c.tasks[i].job.lookup),
                     CallsOf(FinalState(c, store, schedule).log, i))
                == Expected(c, c.tasks[i], View(store, c.tasks[i].job.lookup))
      {
        EveryScheduleEndsTheSame(c, store, schedule, i);
      }
    }
  }

  // --- cycle after cycle ---

  /** No monitor of the store belongs to two subscriptions, of whatever tenants. */
  ghost predicate Apart(store: Store) {
    forall t1, e1, t2, e2 | t1 != t2 || e1 != e2 :: Exclusive(store, LookupTags(t1, e1), LookupTags(t2, e2))
  }

  ghost predicate Healthy(store: Store) {
    ValidStore(store) && Apart(store)
  }

  lemma PlannedForOne(c: Config, i: nat, t1: int, e1: string, t2: int, e2: string)
    requires Planned(c) && i < |c.tasks| && (t1 != t2 || e1 != e2)
    ensures !(Carries(c.tasks[i].job.tags, LookupTags(t1, e1)) && Carries(c.tasks[i].job.tags, LookupTags(t2, e2)))
  {
    var r, d :| Plan(r, d) == Some(c) && DistinctIDs(r.snapshots.value);
    PlannedLookup(r, d, i, t1, e1);
    PlannedLookup(r, d, i, t2, e2);
  }

  lemma ApartIsReady(c: Config, store: Store)
    requires Planned(c) && Healthy(store)
    ensures ReadyStore(c, store)
  {
    var r, d :| Plan(r, d) == Some(c) && DistinctIDs(r.snapshots.value);
    var snaps := r.snapshots.value;
    forall i, j | 0 <= i < |c.tasks| && 0 <= j < |c.tasks| && i != j
      ensures Exclusive(store, c.tasks[i].job.lookup, c.tasks[j].job.lookup)
    {
      PlannedLookup(r, d, i, snaps[i].tenantID, snaps[i].externalID);
      PlannedLookup(r, d, j, snaps[j].tenantID, snaps[j].externalID);
      assert snaps[i].externalID != snaps[j].externalID;
    }
  }

  lemma CycleKeepsHealthy(c: Config, store: Store, schedule: seq<Actor>)
    requires Planned(c) && Healthy(store) && Shaped(c, Init(c, store)) && Formed(c)
    requires Exec(c, Init(c, store), schedule).Some?
    ensures Healthy(Exec(c, Init(c, store), schedule).value.store)
  {
    PlannedCoherent(c);
    ApartIsReady(c, store);
    ExecTracked(c, Init(c, store), schedule);
    var last := Exec(c, Init(c, store), schedule).value.store;
    forall t1, e1, t2, e2 | t1 != t2 || e1 != e2 ensures Exclusive(last, LookupTags(t1, e1), LookupTags(t2, e2)) {
      forall i | 0 <= i < |c.tasks|
        ensures !(Carries(c.tasks[i].job.tags, LookupTags(t1, e1)) && Carries(c.tasks[i].job.tags, LookupTags(t2, e2)))
      {
        PlannedForOne(c, i, t1, e1, t2, e2);
      }
      ExecKeepsExclusive(c, Init(c, store), schedule, LookupTags(t1, e1), LookupTags(t2, e2));
    }
  }

  lemma RemovalKeepsHealthy(store: Store, id: int)
    requires Healthy(store)
    ensures Healthy(store.(monitors := Without(store.monitors, id)))
  {
    WithoutKeepsValid(store.monitors, id);
  }

  /** Through any history of planned cycles, interrupted anywhere, every monitor keeps belonging to one subscription. */
  lemma {:induction false} HistoryKeepsHealthy(store: Store, events: seq<Event>, last: Store)
    requires History(store, events, last) && Healthy(store)
    requires forall e | e in events && e.Cycle? :: Planned(e.config)
    ensures Healthy(last)
    decreases |events|
  {
    if events != [] {
      var e := events[0];
      assert e in events;
      match e {
        case Cycle(c, schedule) => CycleKeepsHealthy(c, store, schedule);
        case Removed(id) => RemovalKeepsHealthy(store, id);
      }
      HistoryKeepsHealthy(After(store, e), events[1..], last);
    }
  }

  lemma HealthyIsUnshared(store: Store, snaps: seq<Snapshot>)
    requires Healthy(store) && DistinctIDs(snaps)
    ensures Unshared(store, snaps)
  {
    forall i, j | 0 <= i < |snaps| && 0 <= j < |snaps| && i != j ensures snaps[i].externalID != snaps[j].externalID {
      assert i < j || j < i;
    }
  }

  /**
   At every point of a history, whatever cycle comes next and however it is scheduled: when it completes, its calls
   are the sequential ones, and each subscription has the monitors it would have been given alone.
   */
  lemma EveryCycleOfAHistory(store: Store, events: seq<Event>, current: Store, r: Replies, learningCycles: int)
    requires History(store, events, current) && Healthy(store)
    requires forall e | e in events && e.Cycle? :: Planned(e.config)
    requires Plan(r, learningCycles).Some? && DistinctIDs(r.snapshots.value)
    ensures var c := Plan(r, learningCycles).value;
            forall schedule | Completes(c, current, schedule) :: AsIfAlone(c, current, FinalState(c, current, schedule))
  {
    HistoryKeepsHealthy(store, events, current);
    HealthyIsUnshared(current, r.snapshots.value);
    CycleOutcome(r, learningCycles, current);
  }

  // --- the imperative form ---

  lemma {:induction false} ExecAppend(c: Config, s: State, schedule: seq<Actor>, a: Actor)
    requires Formed(c) && Shaped(c, s) && Exec(c, s, schedule).Some?
    requires Enabled(c, Exec(c, s, schedule).value, a)
    ensures Exec(c, s, schedule + [a]) == Some(Step(c, Exec(c, s, schedule).value, a))
    decreases |schedule|
  {
    if schedule == [] {
      assert (schedule + [a])[1..] == [];
      StepKeepsShape(c, s, a);
    } else {
      assert (schedule + [a])[1..] == schedule[1..] + [a];
      StepKeepsShape(c, s, schedule[0]);
      ExecAppend(c, Step(c, s, schedule[0]), schedule[1..], a);
    }
  }

  function ActorAt(c: Config, k: nat): Actor {
    if k == |c.tasks| then Main else Worker(k)
  }

  /** A schedule leads from the start of the cycle to s, with the counts in order. */
  predicate Reached(c: Config, store: Store, schedule: seq<Actor>, s: State) {
    && Formed(c) && Shaped(c, Init(c, store)) && Exec(c, Init(c, store), schedule) == Some(s)
    && Shaped(c, s) && Counted(s)
  }

  lemma SomeoneCanStep(c: Config, store: Store, schedule: seq<Actor>, s: State)
    requires Reached(c, store, schedule, s) && !s.returned
    ensures exists k: nat :: k <= |c.tasks| && Enabled(c, s, ActorAt(c, k))
  {
    Progress(c, s);
    if Enabled(c, s, Main) {
      assert Enabled(c, s, ActorAt(c, |c.tasks|));
    } else {
      var i :| 0 <= i < |c.tasks| && Enabled(c, s, Worker(i));
      assert Enabled(c, s, ActorAt(c, i));
    }
  }

  lemma ReachedStep(c: Config, store: Store, schedule: seq<Actor>, s: State, a: Actor)
    requires Reached(c, store, schedule, s) && Enabled(c, s, a)
    ensures Reached(c, store, schedule + [a], Step(c, s, a)) && Remaining(Step(c, s, a)) < Remaining(s)
  {
    StepCounted(c, s, a);
    StepKeepsShape(c, s, a);
    ExecAppend(c, Init(c, store), schedule, a);
  }

  class Runner {
    const api: MonitorsAPI
    const learningCycles: int
    var log: seq<Entry>

    constructor (api: MonitorsAPI, learningCycles: int)
      ensures this.api == api && this.learningCycles == learningCycles && log == []
    {
      this.api := api;
      this.learningCycles := learningCycles;
      log := [];
    }

    /** The spawn loop and the workers, under a scheduler that lets any enabled goroutine step next. */
    method RunPlan(c: Config) returns (ghost schedule: seq<Actor>, ghost s: State)
      requires Formed(c)
      modifies this`log, api
      ensures Reached(c, old(api.store), schedule, s) && s.returned
      ensures api.store == s.store && log == old(log) + s.log
    {
      ghost var store := api.store;
      var state := Init(c, api.store);
      schedule := [];
      InitCounted(c, api.store);
      while !state.returned
        invariant Reached(c, store, schedule, state) && api.store == state.store && log == old(log)
        decreases Remaining(state)
      {
        SomeoneCanStep(c, store, schedule, state);
        var k: nat :| k <= |c.tasks| && Enabled(c, state, ActorAt(c, k));
        ReachedStep(c, store, schedule, state, ActorAt(c, k));
        schedule := schedule + [ActorAt(c, k)];
        state := Step(c, state, ActorAt(c, k));
        api.store := state.store;
      }
      s := state;
      log := log + state.log;
    }

    /**
     One cycle. It always terminates; a skipped cycle changes nothing, any other ends in the final state
     of a complete schedule of its plan.
     */
    method Run(r: Replies) returns (ghost schedule: seq<Actor>, ghost s: State)
      modifies this`log, api
      ensures CycleSkipped(r) ==> api.store == old(api.store) && log == old(log)
      ensures !CycleSkipped(r) ==>
                && Plan(r, learningCycles).Some?
                && Reached(Plan(r, learningCycles).value, old(api.store), schedule, s) && s.returned
                && api.store == s.store && log == old(log) + s.log
    {
      CycleSkippedIff(r, learningCycles);
      var plan := Plan(r, learningCycles);
      if plan.None? {
        schedule, s := [], Init(Config([], 0, false), api.store);
        return;
      }
      PlanFormed(r, learningCycles);
      schedule, s := RunPlan(plan.value);
    }
  }
}
