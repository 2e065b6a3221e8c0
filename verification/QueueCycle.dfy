/**
 One cycle of the queue runner as a system of atomic steps (src/internal/controller/queue_runner.go).
 The main goroutine spawns one worker per snapshot that has a lifecycle and then waits for the
 WaitGroup. A worker takes one of ten semaphore slots, dispatches on the lifecycle state, gives its
 slot back and signs off. A schedule is the order in which the scheduler lets them step.
 */
module QueueCycle {
  import opened Wrappers
  import opened Queue
  import opened MonitorStore
  import opened MonitorJob
  import opened Sums

  const MAX_QUEUE_GOROUTINES: nat := 10

  datatype Call =
    | Evaluate(snap: Snapshot, thresholds: Thresholds)
    | Promote(externalID: string, provider: string)

  /** A snapshot, its lifecycle if titlis-api returned one, its monitors, and the fate of its remote calls. */
  datatype Task = Task(snap: Snapshot, life: Option<Lifecycle>, job: Job, faults: Faults)

  datatype Config = Config(tasks: seq<Task>, learningCycles: int, createMonitors: bool)

  datatype Phase =
    | Unspawned
    | Skipped
    | Waiting
    | Entered
    | Promoting
    | Listing
    | Ensuring(found: map<string, int>, flags: seq<bool>)
    | Submitting(snap: Snapshot)
    | Exiting
    | Released
    | Done

  /** A call to titlis-api, with the worker that made it. */
  datatype Entry = Entry(worker: nat, call: Call)

  datatype State = State(
    store: Store, cursor: nat, phases: seq<Phase>, tokens: nat, pending: nat, log: seq<Entry>, returned: bool)

  datatype Actor = Main | Worker(i: nat)

  predicate Formed(c: Config) {
    forall i | 0 <= i < |c.tasks| :: WellFormed(c.tasks[i].job)
  }

  function Init(c: Config, store: Store): State {
    State(store, 0, seq(|c.tasks|, i => Unspawned), 0, 0, [], false)
  }

  // --- steps ---

  predicate Processing(p: Phase) {
    p.Entered? || p.Promoting? || p.Listing? || p.Ensuring? || p.Submitting? || p.Exiting?
  }

  predicate Spawned(p: Phase) {
    Processing(p) || p.Waiting? || p.Released?
  }

  function WithStatus(snap: Snapshot, s: MonitorStatus): Snapshot {
    snap.(hasMonitorBacklog := s.backlog, hasMonitorAge := s.age, hasMonitorDLQ := s.dlq)
  }

  datatype Effect = Effect(phase: Phase, store: Store, calls: seq<Call>)

  /** The lifecycle dispatch. */
  function Dispatch(c: Config, t: Task, store: Store): Effect
    requires t.life.Some?
  {
    var life := t.life.value;
    match life.state
    case Learning =>
      Effect(if life.observationCount >= c.learningCycles then Promoting else Exiting, store,
             [Evaluate(t.snap, NO_THRESHOLDS)])
    case Monitoring =>
      Effect(if life.thresholds.None? then Exiting else if c.createMonitors then Listing else Submitting(t.snap),
             store, [])
    case Discovering => Effect(Exiting, store, [])
    case Unrecognised(_) => Effect(Exiting, store, [])
  }

  /** The phase after one more slot. */
  function AfterSlot(t: Task, found: map<string, int>, flags: seq<bool>): Phase {
    if |flags| < |t.job.slots| then Ensuring(found, flags) else Submitting(WithStatus(t.snap, StatusOf(flags)))
  }

  /** One step of a worker that holds a slot. */
  function Work(c: Config, t: Task, p: Phase, store: Store): Effect
    requires Processing(p) && !p.Exiting? && WellPlaced(t, p)
  {
    match p
    case Entered => Dispatch(c, t, store)
    case Promoting => Effect(Exiting, store, [Promote(t.snap.externalID, t.snap.provider)])
    case Listing => Effect(Ensuring(Lookup(store, t.job, t.faults), []), store, [])
    case Ensuring(found, flags) =>
      var ok := Succeeds(t.faults, |flags|);
      var flags' := flags + [SlotFlag(t.job, found.Keys, |flags|, ok)];
      Effect(AfterSlot(t, found, flags'), SlotStep(store, t.job, found, |flags|, ok), [])
    case Submitting(snap) => Effect(Exiting, store, [Evaluate(snap, t.life.value.thresholds.value)])
  }

  /** What a worker may rely on at each point of its code. */
  predicate WellPlaced(t: Task, p: Phase) {
    && (Spawned(p) || p.Done? ==> t.life.Some?)
    && (p.Skipped? ==> t.life.None?)
    && (p.Listing? || p.Ensuring? || p.Submitting? ==> t.life.Some? && t.life.value.thresholds.Some?)
    && (p.Ensuring? ==> |p.flags| < |t.job.slots|)
    && (p.Listing? ==> |t.job.slots| > 0)
  }

  predicate Shaped(c: Config, s: State) {
    && |s.phases| == |c.tasks|
    && s.cursor <= |c.tasks|
    && (forall i | 0 <= i < |s.phases| :: WellPlaced(c.tasks[i], s.phases[i]))
    && (forall i | 0 <= i < |s.phases| :: s.phases[i].Unspawned? <==> i >= s.cursor)
    && (s.returned ==> s.cursor == |c.tasks|)
  }

  predicate Enabled(c: Config, s: State, a: Actor)
    requires Shaped(c, s)
  {
    match a
    case Main => !s.returned && (s.cursor < |c.tasks| || s.pending == 0)
    case Worker(i) =>
      i < |c.tasks| && Spawned(s.phases[i])
      && (s.phases[i].Waiting? ==> s.tokens < MAX_QUEUE_GOROUTINES)
      && (s.phases[i].Exiting? ==> s.tokens > 0)
      && (s.phases[i].Released? ==> s.pending > 0)
  }

  function LogOf(i: nat, calls: seq<Call>): seq<Entry> {
    seq(|calls|, k requires 0 <= k < |calls| => Entry(i, calls[k]))
  }

  function Step(c: Config, s: State, a: Actor): State
    requires Shaped(c, s) && Enabled(c, s, a)
  {
    match a
    case Main =>
      if s.cursor == |c.tasks| then s.(returned := true)
      else if c.tasks[s.cursor].life.None? then
        s.(cursor := s.cursor + 1, phases := s.phases[s.cursor := Skipped])
      else
        s.(cursor := s.cursor + 1, phases := s.phases[s.cursor := Waiting], pending := s.pending + 1)
    case Worker(i) =>
      match s.phases[i]
      case Waiting => s.(phases := s.phases[i := Entered], tokens := s.tokens + 1)
      case Exiting => s.(phases := s.phases[i := Released], tokens := s.tokens - 1)
      case Released => s.(phases := s.phases[i := Done], pending := s.pending - 1)
      case _ =>
        var e := Work(c, c.tasks[i], s.phases[i], s.store);
        s.(phases := s.phases[i := e.phase], store := e.store, log := s.log + LogOf(i, e.calls))
  }

  // --- runs ---

  /** The states reached by letting the actors of a schedule step in turn; None when one could not. */
  function Exec(c: Config, s: State, schedule: seq<Actor>): (r: Option<State>)
    requires Formed(c) && Shaped(c, s)
    ensures r.Some? ==> Shaped(c, r.value)
    decreases |schedule|
  {
    if schedule == [] then Some(s)
    else if !Enabled(c, s, schedule[0]) then None
    else
      StepKeepsShape(c, s, schedule[0]);
      Exec(c, Step(c, s, schedule[0]), schedule[1..])
  }

  lemma WorkPlaced(c: Config, t: Task, p: Phase, store: Store)
    requires Processing(p) && !p.Exiting? && WellPlaced(t, p) && WellFormed(t.job)
    ensures WellPlaced(t, Work(c, t, p, store).phase) && Spawned(Work(c, t, p, store).phase)
  {
  }

  lemma MoveKeepsShape(c: Config, s: State, i: nat, p: Phase, s': State)
    requires Shaped(c, s) && i < |c.tasks| && WellPlaced(c.tasks[i], p)
    requires !p.Unspawned? && !s.phases[i].Unspawned?
    requires s'.phases == s.phases[i := p] && s'.cursor == s.cursor && s'.returned == s.returned
    ensures Shaped(c, s')
  {
  }

  lemma StepKeepsShape(c: Config, s: State, a: Actor)
    requires Formed(c) && Shaped(c, s) && Enabled(c, s, a)
    ensures Shaped(c, Step(c, s, a))
  {
    if a.Worker? {
      var p := s.phases[a.i];
      if !p.Waiting? && !p.Exiting? && !p.Released? {
        WorkPlaced(c, c.tasks[a.i], p, s.store);
      }
      MoveKeepsShape(c, s, a.i, Step(c, s, a).phases[a.i], Step(c, s, a));
    }
  }

  // --- bounded concurrency, progress, termination ---

  function Holds(p: Phase): nat { if Processing(p) then 1 else 0 }

  function Unfinished(p: Phase): nat { if Spawned(p) then 1 else 0 }

  /** The steps the phase still has ahead of it, at most. */
  function Rank(p: Phase): nat {
    match p
    case Unspawned => 10
    case Waiting => 9
    case Entered => 8
    case Listing => 7
    case Ensuring(_, flags) => if |flags| <= 2 then 6 - |flags| else 4
    case Promoting => 3
    case Submitting(_) => 3
    case Exiting => 2
    case Released => 1
    case Skipped => 0
    case Done => 0
  }

  /** The semaphore counts the workers that hold a slot and the WaitGroup the unfinished ones. */
  predicate Counted(s: State) {
    && s.tokens == Sum(s.phases, Holds) <= MAX_QUEUE_GOROUTINES
    && s.pending == Sum(s.phases, Unfinished)
    && (s.returned ==> s.pending == 0)
  }

  function Remaining(s: State): nat {
    Sum(s.phases, Rank) + if s.returned then 0 else 1
  }

  lemma InitCounted(c: Config, store: Store)
    ensures Shaped(c, Init(c, store)) && Counted(Init(c, store))
    ensures Remaining(Init(c, store)) == 10 * |c.tasks| + 1
  {
    var s := Init(c, store);
    SumUniform(s.phases, Holds, 0);
    SumUniform(s.phases, Unfinished, 0);
    SumUniform(s.phases, Rank, 10);
  }

  lemma WorkAdvances(c: Config, t: Task, p: Phase, store: Store)
    requires Processing(p) && !p.Exiting? && WellPlaced(t, p) && WellFormed(t.job)
    ensures var p' := Work(c, t, p, store).phase;
            Processing(p') && WellPlaced(t, p') && Rank(p') < Rank(p)
  {
  }

  /** The phase that a step changes, and its new value. */
  lemma StepEffect(c: Config, s: State, a: Actor) returns (i: nat, p': Phase)
    requires Formed(c) && Shaped(c, s) && Enabled(c, s, a)
    requires a.Worker? || s.cursor < |c.tasks|
    ensures i < |c.tasks| && Step(c, s, a).phases == s.phases[i := p'] && Rank(p') < Rank(s.phases[i])
    ensures Step(c, s, a).tokens + Holds(s.phases[i]) == s.tokens + Holds(p')
    ensures Step(c, s, a).pending + Unfinished(s.phases[i]) == s.pending + Unfinished(p')
    ensures Step(c, s, a).returned == s.returned
    ensures s.returned ==> Unfinished(s.phases[i]) == 1
    ensures Step(c, s, a).tokens <= s.tokens || s.tokens < MAX_QUEUE_GOROUTINES
  {
    match a
    case Main =>
      i := s.cursor;
      p' := Step(c, s, a).phases[i];
    case Worker(j) =>
      i := j;
      assert WellFormed(c.tasks[i].job) && WellPlaced(c.tasks[i], s.phases[i]);
      if Processing(s.phases[i]) && !s.phases[i].Exiting? {
        WorkAdvances(c, c.tasks[i], s.phases[i], s.store);
        p' := Work(c, c.tasks[i], s.phases[i], s.store).phase;
      } else {
        p' := Step(c, s, a).phases[i];
      }
  }

  /** Every step keeps the counts and uses up some of the remaining work. */
  lemma StepCounted(c: Config, s: State, a: Actor)
    requires Formed(c) && Shaped(c, s) && Counted(s) && Enabled(c, s, a)
    ensures Counted(Step(c, s, a)) && Remaining(Step(c, s, a)) < Remaining(s)
  {
    if a.Worker? || s.cursor < |c.tasks| {
      var i, p' := StepEffect(c, s, a);
      SumUpdate(s.phases, Holds, i, p');
      SumUpdate(s.phases, Unfinished, i, p');
      SumUpdate(s.phases, Rank, i, p');
      SumAtLeast(s.phases, Unfinished, i);
    }
  }

  /** Until the cycle returns, somebody can step: there is no deadlock. */
  lemma Progress(c: Config, s: State)
    requires Formed(c) && Shaped(c, s) && Counted(s) && !s.returned
    ensures Enabled(c, s, Main) || exists i :: 0 <= i < |c.tasks| && Enabled(c, s, Worker(i))
  {
    if s.cursor == |c.tasks| && s.pending > 0 {
      if s.tokens > 0 {
        SumWitness(s.phases, Holds);
        var i :| 0 <= i < |s.phases| && Holds(s.phases[i]) > 0;
        assert Enabled(c, s, Worker(i));
      } else {
        SumWitness(s.phases, Unfinished);
        var i :| 0 <= i < |s.phases| && Unfinished(s.phases[i]) > 0;
        SumAtLeast(s.phases, Holds, i);
        assert Enabled(c, s, Worker(i));
      }
    }
  }

  lemma {:induction false} ExecCounted(c: Config, s: State, schedule: seq<Actor>)
    requires Formed(c) && Shaped(c, s) && Counted(s)
    ensures var r := Exec(c, s, schedule);
            r.Some? ==> Counted(r.value) && Remaining(r.value) + |schedule| <= Remaining(s)
    decreases |schedule|
  {
    if schedule != [] && Enabled(c, s, schedule[0]) {
      StepCounted(c, s, schedule[0]);
      StepKeepsShape(c, s, schedule[0]);
      ExecCounted(c, Step(c, s, schedule[0]), schedule[1..]);
    }
  }

  /**
   In every reachable state of a cycle over n snapshots: at most ten workers hold a slot and the
   semaphore counts exactly them, the WaitGroup counts the unfinished workers, Wait has passed only
   when every worker is done and no slot is held, somebody can step until then, and no run is longer
   than 10n + 1 steps.
   */
  lemma BoundedConcurrency(c: Config, store: Store, schedule: seq<Actor>)
    requires Formed(c) && Shaped(c, Init(c, store)) && Exec(c, Init(c, store), schedule).Some?
    ensures var s := Exec(c, Init(c, store), schedule).value;
            && s.tokens == Sum(s.phases, Holds) <= 10
            && s.pending == Sum(s.phases, Unfinished)
            && (s.returned ==> s.tokens == 0 && forall p | p in s.phases :: p.Done? || p.Skipped?)
            && (!s.returned ==> Enabled(c, s, Main) || exists i :: 0 <= i < |c.tasks| && Enabled(c, s, Worker(i)))
            && |schedule| <= 10 * |c.tasks| + 1
  {
    InitCounted(c, store);
    ExecCounted(c, Init(c, store), schedule);
    var s := Exec(c, Init(c, store), schedule).value;
    if s.returned {
      forall i | 0 <= i < |s.phases| ensures s.phases[i].Done? || s.phases[i].Skipped? {
        SumAtLeast(s.phases, Unfinished, i);
      }
      if s.tokens > 0 {
        SumWitness(s.phases, Holds);
      }
    } else {
      Progress(c, s);
    }
  }
}
