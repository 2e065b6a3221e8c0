/**
 What a cycle does, read off what it is answered: when it is skipped, which calls each queue gets, and what becomes of
 its monitors (src/internal/controller/queue_runner.go).
 */
module QueueContract {
  import opened Wrappers
  import opened Queue
  import opened MonitorStore
  import opened MonitorJob
  import opened MonitorManager
  import opened QueueCycle
  import opened QueueConfluence
  import opened QueueInTurn
  import opened QueueRunner
  import opened QueueOutcome

  // --- the calls of a queue ---

  /** What titlis-api knows about the i-th queue. */
  function LifeOf(r: Replies, i: nat): Option<Lifecycle>
    requires !CycleSkipped(r) && i < |r.snapshots.value|
  {
    var ext := r.snapshots.value[i].externalID;
    if ext in r.lifecycles.value then Some(r.lifecycles.value[ext]) else None
  }

  /** The queue is learning, and has been observed often enough. */
  predicate DueForPromotion(r: Replies, learningCycles: int, i: nat)
    requires !CycleSkipped(r) && i < |r.snapshots.value|
  {
    && LifeOf(r, i).Some? && LifeOf(r, i).value.state == Learning
    && (r.config.value.value.learningCycles > 0 ==>
          LifeOf(r, i).value.observationCount >= r.config.value.value.learningCycles)
    && (r.config.value.value.learningCycles <= 0 ==> LifeOf(r, i).value.observationCount >= learningCycles)
  }

  /** The thresholds a monitored queue has. */
  function OwnThresholds(r: Replies, i: nat): Option<Thresholds>
    requires !CycleSkipped(r) && i < |r.snapshots.value|
  {
    if LifeOf(r, i).Some? && LifeOf(r, i).value.state == Monitoring then LifeOf(r, i).value.thresholds else None
  }

  /** The queue's monitors are ensured. */
  predicate MonitorsWanted(r: Replies, i: nat)
    requires !CycleSkipped(r) && i < |r.snapshots.value|
  {
    OwnThresholds(r, i).Some? && r.config.value.value.monitorCreationEnabled
  }

  /** A call without what it says about the monitors. */
  function Bare(call: Call): Call {
    match call
    case Evaluate(s, t) => Evaluate(s.(hasMonitorBacklog := false, hasMonitorAge := false, hasMonitorDLQ := false), t)
    case Promote(_, _) => call
  }

  /** The calls as far as they are decided in advance: all, or up to the monitor flags when monitors are ensured. */
  function Decided(c: Config, t: Task, calls: seq<Call>): seq<Call> {
    if EnsuresMonitors(c, t) then seq(|calls|, k requires 0 <= k < |calls| => Bare(calls[k])) else calls
  }

  /** The calls still to be made at each phase. */
  function ToCall(c: Config, t: Task, p: Phase): seq<Call>
    requires WellPlaced(t, p)
  {
    match p
    case Unspawned => AllCalls(c, t)
    case Waiting => AllCalls(c, t)
    case Entered => AllCalls(c, t)
    case Promoting => [Promote(t.snap.externalID, t.snap.provider)]
    case Listing => [Evaluate(t.snap, t.life.value.thresholds.value)]
    case Ensuring(_, _) => [Evaluate(t.snap, t.life.value.thresholds.value)]
    case Submitting(snap) => [Evaluate(snap, t.life.value.thresholds.value)]
    case _ => []
  }

  function AllCalls(c: Config, t: Task): seq<Call> {
    if t.life.None? then []
    else if t.life.value.state == Learning then
      [Evaluate(t.snap, NO_THRESHOLDS)]
      + if t.life.value.observationCount >= c.learningCycles
        then [Promote(t.snap.externalID, t.snap.provider)] else []
    else if t.life.value.state == Monitoring && t.life.value.thresholds.Some? then
      [Evaluate(t.snap, t.life.value.thresholds.value)]
    else []
  }

  /** Monitors are listed and ensured only where they are to be. */
  predicate InPlace(c: Config, s: State)
    requires Shaped(c, s)
  {
    forall i | 0 <= i < |c.tasks| && (s.phases[i].Listing? || s.phases[i].Ensuring?) :: EnsuresMonitors(c, c.tasks[i])
  }

  lemma DecidedConcat(c: Config, t: Task, a: seq<Call>, b: seq<Call>)
    ensures Decided(c, t, a + b) == Decided(c, t, a) + Decided(c, t, b)
  {
  }

  /** One step of a worker makes the first of the calls it still has to make, if any. */
  lemma WorkCalls(c: Config, t: Task, p: Phase, store: Store)
    requires Processing(p) && !p.Exiting? && WellPlaced(t, p) && WellFormed(t.job)
    requires p.Listing? || p.Ensuring? ==> EnsuresMonitors(c, t)
    ensures var e := Work(c, t, p, store);
            && WellPlaced(t, e.phase)
            && (e.phase.Listing? || e.phase.Ensuring? ==> EnsuresMonitors(c, t))
            && Decided(c, t, e.calls + ToCall(c, t, e.phase)) == Decided(c, t, ToCall(c, t, p))
            && (!EnsuresMonitors(c, t) ==> e.store == store)
  {
    WorkAdvances(c, t, p, store);
    var e := Work(c, t, p, store);
    EmptyRight(e.calls);
    EmptyLeft(ToCall(c, t, e.phase));
  }

  /** What worker i has called and still has to call. */
  function CallsInAll(c: Config, s: State, i: nat): seq<Call>
    requires Shaped(c, s) && i < |c.tasks|
  {
    Decided(c, c.tasks[i], CallsOf(s.log, i) + ToCall(c, c.tasks[i], s.phases[i]))
  }

  lemma WorkKeepsCalls(c: Config, s: State, i: nat)
    requires Formed(c) && Shaped(c, s) && InPlace(c, s) && Enabled(c, s, Worker(i)) && Works(c, s, Worker(i))
    requires Shaped(c, Step(c, s, Worker(i)))
    ensures CallsInAll(c, Step(c, s, Worker(i)), i) == CallsInAll(c, s, i)
  {
    var t, before := c.tasks[i], CallsOf(s.log, i);
    var e := Work(c, t, s.phases[i], s.store);
    StepWorks(c, s, Worker(i));
    WorkCalls(c, t, s.phases[i], s.store);
    OwnCallsAppended(s.log, i, e.calls);
    Assoc(before, e.calls, ToCall(c, t, e.phase));
    DecidedConcat(c, t, before, e.calls + ToCall(c, t, e.phase));
    DecidedConcat(c, t, before, ToCall(c, t, s.phases[i]));
  }

  lemma OthersKeepCalls(c: Config, s: State, a: Actor, i: nat)
    requires Formed(c) && Shaped(c, s) && Enabled(c, s, a) && Shaped(c, Step(c, s, a)) && i < |c.tasks|
    requires Works(c, s, a) ==> a.i != i
    ensures CallsInAll(c, Step(c, s, a), i) == CallsInAll(c, s, i)
  {
    if Works(c, s, a) {
      StepWorks(c, s, a);
      OtherCallsAppended(s.log, a.i, Work(c, c.tasks[a.i], s.phases[a.i], s.store).calls, i);
    }
  }

  /** No step changes what a worker calls in all; and only ensuring monitors changes the store. */
  lemma StepKeepsCalls(c: Config, s: State, a: Actor, i: nat)
    requires Formed(c) && Shaped(c, s) && InPlace(c, s) && Enabled(c, s, a) && i < |c.tasks|
    ensures Shaped(c, Step(c, s, a)) && InPlace(c, Step(c, s, a))
    ensures CallsInAll(c, Step(c, s, a), i) == CallsInAll(c, s, i)
    ensures (forall k | 0 <= k < |c.tasks| :: !EnsuresMonitors(c, c.tasks[k])) ==> Step(c, s, a).store == s.store
  {
    StepKeepsShape(c, s, a);
    StepWorks(c, s, a);
    if Works(c, s, a) {
      WorkCalls(c, c.tasks[a.i], s.phases[a.i], s.store);
    }
    if Works(c, s, a) && a.i == i {
      WorkKeepsCalls(c, s, i);
    } else {
      OthersKeepCalls(c, s, a, i);
    }
  }

  lemma {:induction false} ExecKeepsCalls(c: Config, s: State, schedule: seq<Actor>, i: nat)
    requires Formed(c) && Shaped(c, s) && InPlace(c, s) && Exec(c, s, schedule).Some? && i < |c.tasks|
    ensures CallsInAll(c, Exec(c, s, schedule).value, i) == CallsInAll(c, s, i)
    ensures (forall k | 0 <= k < |c.tasks| :: !EnsuresMonitors(c, c.tasks[k])) ==>
              Exec(c, s, schedule).value.store == s.store
    decreases |schedule|
  {
    if schedule != [] {
      StepKeepsCalls(c, s, schedule[0], i);
      ExecKeepsCalls(c, Step(c, s, schedule[0]), schedule[1..], i);
    }
  }

  lemma CompleteCalls(c: Config, store: Store, schedule: seq<Actor>, i: nat)
    requires Completes(c, store, schedule) && i < |c.tasks|
    ensures Decided(c, c.tasks[i], CallsOf(FinalState(c, store, schedule).log, i))
            == Decided(c, c.tasks[i], AllCalls(c, c.tasks[i]))
  {
    var s0, s := Init(c, store), FinalState(c, store, schedule);
    ExecKeepsCalls(c, s0, schedule, i);
    BoundedConcurrency(c, store, schedule);
    assert s.phases[i] in s.phases;
    EmptyRight(CallsOf(s.log, i));
    EmptyLeft(AllCalls(c, c.tasks[i]));
  }

  lemma DecidedExact(c: Config, t: Task, calls: seq<Call>)
    requires Decided(c, t, calls) == Decided(c, t, AllCalls(c, t))
    ensures !EnsuresMonitors(c, t) ==> calls == AllCalls(c, t)
    ensures EnsuresMonitors(c, t) ==>
              |calls| == 1 && Bare(calls[0]) == Bare(Evaluate(t.snap, t.life.value.thresholds.value))
  {
    if EnsuresMonitors(c, t) {
      var all := Decided(c, t, AllCalls(c, t));
      assert |all| == 1 && all[0] == Bare(Evaluate(t.snap, t.life.value.thresholds.value));
      assert Decided(c, t, calls)[0] == Bare(calls[0]);
    }
  }

  /** The plan is made of what was answered. */
  lemma PlannedTask(r: Replies, learningCycles: int, i: nat)
    requires !CycleSkipped(r) && i < |r.snapshots.value|
    ensures Plan(r, learningCycles).Some?
    ensures var c := Plan(r, learningCycles).value;
            && |c.tasks| == |r.snapshots.value|
            && c.tasks[i].snap == r.snapshots.value[i] && c.tasks[i].life == LifeOf(r, i)
            && c.createMonitors == r.config.value.value.monitorCreationEnabled
            && (EnsuresMonitors(c, c.tasks[i]) <==> MonitorsWanted(r, i))
            && (LifeOf(r, i).Some? && LifeOf(r, i).value.state == Learning ==>
                  (LifeOf(r, i).value.observationCount >= c.learningCycles <==> DueForPromotion(r, learningCycles, i)))
  {
  }

  /**
   Whatever the schedule of a complete cycle, and whatever the snapshots and the store, the calls for the i-th queue
   are: while it learns, one evaluation without thresholds, and its promotion when that is due; once it is monitored,
   one evaluation with its own thresholds; otherwise nothing. An evaluation carries the snapshot as it was collected,
   but for the monitor flags when the monitors were ensured.
   */
  lemma CallsOfAQueue(r: Replies, learningCycles: int, store: Store, schedule: seq<Actor>, i: nat)
    requires !CycleSkipped(r) && i < |r.snapshots.value| && Plan(r, learningCycles).Some?
    requires Completes(Plan(r, learningCycles).value, store, schedule)
    ensures var calls := CallsOf(FinalState(Plan(r, learningCycles).value, store, schedule).log, i);
            var snap, life := r.snapshots.value[i], LifeOf(r, i);
            if life.Some? && life.value.state == Learning then
              calls == [Evaluate(snap, Thresholds(0, 0, 0, 0))]
                       + if DueForPromotion(r, learningCycles, i) then [Promote(snap.externalID, snap.provider)] else []
            else if OwnThresholds(r, i).Some? then
              && |calls| == 1
              && Bare(calls[0]) == Bare(Evaluate(snap, OwnThresholds(r, i).value))
              && (!MonitorsWanted(r, i) ==> calls[0] == Evaluate(snap, OwnThresholds(r, i).value))
            else calls == []
  {
    var c := Plan(r, learningCycles).value;
    PlannedTask(r, learningCycles, i);
    CompleteCalls(c, store, schedule, i);
    DecidedExact(c, c.tasks[i], CallsOf(FinalState(c, store, schedule).log, i));
  }

  lemma PromoteAmong(calls: seq<Call>, r: Replies, learningCycles: int, i: nat)
    requires !CycleSkipped(r) && i < |r.snapshots.value|
    requires var snap, life := r.snapshots.value[i], LifeOf(r, i);
             if life.Some? && life.value.state == Learning then
               calls == [Evaluate(snap, NO_THRESHOLDS)]
                        + if DueForPromotion(r, learningCycles, i)
                          then [Promote(snap.externalID, snap.provider)] else []
             else if OwnThresholds(r, i).Some? then |calls| == 1 && Bare(calls[0]).Evaluate?
             else calls == []
    ensures var snap := r.snapshots.value[i];
            Promote(snap.externalID, snap.provider) in calls <==> DueForPromotion(r, learningCycles, i)
  {
  }

  lemma CallInLog(log: seq<Entry>, i: nat, call: Call)
    ensures Entry(i, call) in log <==> call in CallsOf(log, i)
  {
    CountInLog(log, Entry(i, call));
  }

  /**
   A queue is promoted exactly when it is learning and has been observed as often as the configuration says, or, when
   that says nothing, as often as the runner does by default.
   */
  lemma PromotedIff(r: Replies, learningCycles: int, store: Store, schedule: seq<Actor>, i: nat)
    requires !CycleSkipped(r) && i < |r.snapshots.value| && Plan(r, learningCycles).Some?
    requires Completes(Plan(r, learningCycles).value, store, schedule)
    ensures var log, snap := FinalState(Plan(r, learningCycles).value, store, schedule).log, r.snapshots.value[i];
            Entry(i, Promote(snap.externalID, snap.provider)) in log <==> DueForPromotion(r, learningCycles, i)
  {
    var log, snap := FinalState(Plan(r, learningCycles).value, store, schedule).log, r.snapshots.value[i];
    CallsOfAQueue(r, learningCycles, store, schedule, i);
    CallInLog(log, i, Promote(snap.externalID, snap.provider));
    PromoteAmong(CallsOf(log, i), r, learningCycles, i);
  }

  // --- the monitors of a queue ---

  /** However far a cycle gets, it leaves all monitors alone unless some queue's monitors are to be ensured. */
  lemma UntouchedUnlessEnsured(r: Replies, learningCycles: int, store: Store, schedule: seq<Actor>)
    requires !CycleSkipped(r) && Plan(r, learningCycles).Some? && Formed(Plan(r, learningCycles).value)
    requires var c := Plan(r, learningCycles).value;
             Shaped(c, Init(c, store)) && Exec(c, Init(c, store), schedule).Some?
    requires forall i | 0 <= i < |r.snapshots.value| :: !MonitorsWanted(r, i)
    ensures var c := Plan(r, learningCycles).value; Exec(c, Init(c, store), schedule).value.store == store
  {
    var c := Plan(r, learningCycles).value;
    forall k | 0 <= k < |c.tasks| ensures !EnsuresMonitors(c, c.tasks[k]) {
      PlannedTask(r, learningCycles, k);
    }
    ExecKeepsCalls(c, Init(c, store), schedule, 0);
  }

  /** The registry the tags are checked against: empty when it could not be read. */
  function RegistryOf(r: Replies): LabelRegistry {
    if r.registry.Ok? then r.registry.value else map[]
  }

  /** The monitors of a queue, and what those of one name become when it is ensured. */
  function ViewOf(store: Store, snap: Snapshot): seq<Content> {
    View(store, LookupTags(snap.tenantID, snap.externalID))
  }

  /**
   After a complete cycle over snapshots with distinct external ids, whatever the schedule: the monitors of a queue that
   is not to be ensured are as before; those of the others are what one call with the queue's own thresholds, and its
   own faults, leaves.
   */
  lemma MonitorsOfAQueue(r: Replies, learningCycles: int, store: Store, schedule: seq<Actor>, i: nat)
    requires !CycleSkipped(r) && i < |r.snapshots.value| && Plan(r, learningCycles).Some?
    requires Completes(Plan(r, learningCycles).value, store, schedule)
    requires DistinctIDs(r.snapshots.value) && ValidStore(store) && Unshared(store, r.snapshots.value)
    ensures var snap, last := r.snapshots.value[i], FinalState(Plan(r, learningCycles).value, store, schedule).store;
            if MonitorsWanted(r, i) then
              var job := JobOf(snap, OwnThresholds(r, i).value, RegistryOf(r));
              ViewOf(last, snap) == ViewOf(Ensured(store, job, FaultsOf(r, i)).store, snap)
            else ViewOf(last, snap) == ViewOf(store, snap)
  {
    var c, snap := Plan(r, learningCycles).value, r.snapshots.value[i];
    PlannedTask(r, learningCycles, i);
    CycleOutcome(r, learningCycles, store);
    PlannedLookup(r, learningCycles, i, snap.tenantID, snap.externalID);
    assert AsIfAlone(c, store, FinalState(c, store, schedule));
    if MonitorsWanted(r, i) {
      var job := JobOf(snap, OwnThresholds(r, i).value, RegistryOf(r));
      JobWellFormed(snap, OwnThresholds(r, i).value, RegistryOf(r));
      assert c.tasks[i].job == job && c.tasks[i].faults == FaultsOf(r, i);
      EnsuredView(store, job, FaultsOf(r, i));
    }
  }

  /** So the backlog monitors after a cycle are those of the queue's own thresholds. */
  lemma BacklogOfAQueue(r: Replies, learningCycles: int, store: Store, schedule: seq<Actor>, i: nat)
      returns (c: Content)
    requires !CycleSkipped(r) && i < |r.snapshots.value| && Plan(r, learningCycles).Some? && MonitorsWanted(r, i)
    requires Completes(Plan(r, learningCycles).value, store, schedule)
    requires DistinctIDs(r.snapshots.value) && ValidStore(store) && Unshared(store, r.snapshots.value)
    ensures var t := LifeOf(r, i).value.thresholds.value;
            && c.warning == t.backlogWarning && c.critical == t.backlogCritical
            && Watches(c, "[Titlis] PubSub Backlog por Subscription — ",
                       "avg:gcp.pubsub.subscription.num_undelivered_messages", r.snapshots.value[i].externalID)
    ensures var snap, t, f := r.snapshots.value[i], LifeOf(r, i).value.thresholds.value, FaultsOf(r, i);
            var before := OfName(ViewOf(store, snap), c.name);
            OfName(ViewOf(FinalState(Plan(r, learningCycles).value, store, schedule).store, snap), c.name)
            == Ended(before, f.list && before != [], Succeeds(f, 0), t.backlogWarning > 0, c)
  {
    MonitorsOfAQueue(r, learningCycles, store, schedule, i);
    c := BacklogAfterEnsure(store, r.snapshots.value[i], OwnThresholds(r, i).value, RegistryOf(r), FaultsOf(r, i));
  }

  /** The age monitors in the same way. */
  lemma AgeOfAQueue(r: Replies, learningCycles: int, store: Store, schedule: seq<Actor>, i: nat)
      returns (c: Content)
    requires !CycleSkipped(r) && i < |r.snapshots.value| && Plan(r, learningCycles).Some? && MonitorsWanted(r, i)
    requires Completes(Plan(r, learningCycles).value, store, schedule)
    requires DistinctIDs(r.snapshots.value) && ValidStore(store) && Unshared(store, r.snapshots.value)
    ensures var t := LifeOf(r, i).value.thresholds.value;
            && c.warning == t.ageWarningSec && c.critical == t.ageCriticalSec
            && Watches(c, "[Titlis] PubSub Mensagem Mais Antiga — ",
                       "avg:gcp.pubsub.subscription.oldest_unacked_message_age", r.snapshots.value[i].externalID)
    ensures var snap, t, f := r.snapshots.value[i], LifeOf(r, i).value.thresholds.value, FaultsOf(r, i);
            var before := OfName(ViewOf(store, snap), c.name);
            OfName(ViewOf(FinalState(Plan(r, learningCycles).value, store, schedule).store, snap), c.name)
            == Ended(before, f.list && before != [], Succeeds(f, 1), t.ageWarningSec > 0, c)
  {
    MonitorsOfAQueue(r, learningCycles, store, schedule, i);
    c := AgeAfterEnsure(store, r.snapshots.value[i], OwnThresholds(r, i).value, RegistryOf(r), FaultsOf(r, i));
  }

  /** The dead-letter monitors: kept, or created with its fixed thresholds, and untouched for any other queue. */
  lemma DLQOfAQueue(r: Replies, learningCycles: int, store: Store, schedule: seq<Actor>, i: nat)
      returns (c: Content)
    requires !CycleSkipped(r) && i < |r.snapshots.value| && Plan(r, learningCycles).Some? && MonitorsWanted(r, i)
    requires Completes(Plan(r, learningCycles).value, store, schedule)
    requires DistinctIDs(r.snapshots.value) && ValidStore(store) && Unshared(store, r.snapshots.value)
    ensures c.warning == 0 && c.critical == 10
            && Watches(c, "[Titlis] PubSub DLQ com Itens — ",
                       "sum:gcp.pubsub.subscription.num_undelivered_messages", r.snapshots.value[i].externalID)
    ensures var snap, f := r.snapshots.value[i], FaultsOf(r, i);
            var before := OfName(ViewOf(store, snap), c.name);
            OfName(ViewOf(FinalState(Plan(r, learningCycles).value, store, schedule).store, snap), c.name)
            == if snap.isDLQ then Ended(before, f.list && before != [], Succeeds(f, 2), false, c) else before
  {
    MonitorsOfAQueue(r, learningCycles, store, schedule, i);
    c := DLQAfterEnsure(store, r.snapshots.value[i], OwnThresholds(r, i).value, RegistryOf(r), FaultsOf(r, i));
  }
}
