/**
 Every interleaving of a cycle has the same outcome: what each subscription's monitors become and
 which calls each worker makes depend only on the snapshot, its lifecycle, the fate of its own remote
 calls and its own monitors at the start.
 */
module QueueConfluence {
  import opened Wrappers
  import opened Queue
  import opened MonitorStore
  import opened MonitorJob
  import opened QueueCycle

  /** Each task's monitors are found by its own lookup and by no other task's. */
  predicate Coherent(c: Config) {
    && Formed(c)
    && (forall i, j | 0 <= i < |c.tasks| && 0 <= j < |c.tasks| && i != j ::
          !Carries(c.tasks[i].job.tags, c.tasks[j].job.lookup))
  }

  /** What a worker is still to do to its monitors and to titlis-api. */
  datatype Fate = Fate(view: seq<Content>, calls: seq<Call>)

  /** The evaluation that follows ensuring the monitors: it reports which of them exist. */
  function EnsuredCall(t: Task, flags: seq<bool>): Call
    requires t.life.Some? && t.life.value.thresholds.Some?
  {
    Evaluate(WithStatus(t.snap, StatusOf(flags)), t.life.value.thresholds.value)
  }

  /** The outcome of one subscription, stated on its lifecycle. */
  function Expected(c: Config, t: Task, view: seq<Content>): Fate {
    if t.life.None? || t.life.value.state.Discovering? || t.life.value.state.Unrecognised? then
      Fate(view, [])
    else if t.life.value.state.Learning? then
      Fate(view,
           [Evaluate(t.snap, NO_THRESHOLDS)]
           + if t.life.value.observationCount >= c.learningCycles
             then [Promote(t.snap.externalID, t.snap.provider)] else [])
    else if t.life.value.thresholds.None? then
      Fate(view, [])
    else if !c.createMonitors then
      Fate(view, [Evaluate(t.snap, t.life.value.thresholds.value)])
    else
      var r := Settle(view, t.job, SeenNames(view, t.faults), 0, t.faults);
      Fate(r.view, [EnsuredCall(t, r.flags)])
  }

  /** What is left of ensuring the monitors once the flags of the first slots are known. */
  function OwedFrom(t: Task, view: seq<Content>, names: set<string>, flags: seq<bool>): Fate
    requires t.life.Some? && t.life.value.thresholds.Some? && |flags| <= |t.job.slots|
  {
    var r := Settle(view, t.job, names, |flags|, t.faults);
    Fate(r.view, [EnsuredCall(t, flags + r.flags)])
  }

  lemma OwedFromStep(t: Task, view: seq<Content>, names: set<string>, flags: seq<bool>)
    requires t.life.Some? && t.life.value.thresholds.Some? && |flags| < |t.job.slots|
    ensures var ok := Succeeds(t.faults, |flags|);
            var view' := SlotView(view, t.job, names, |flags|, ok);
            var flags' := flags + [SlotFlag(t.job, names, |flags|, ok)];
            && OwedFrom(t, view, names, flags) == OwedFrom(t, view', names, flags')
            && (|flags'| == |t.job.slots| ==>
                  OwedFrom(t, view', names, flags') == Fate(view', [EnsuredCall(t, flags')]))
  {
    var ok := Succeeds(t.faults, |flags|);
    var view', flag := SlotView(view, t.job, names, |flags|, ok), SlotFlag(t.job, names, |flags|, ok);
    var rest := Settle(view', t.job, names, |flags| + 1, t.faults);
    assert flags + ([flag] + rest.flags) == (flags + [flag]) + rest.flags;
    EmptyRight(flags + [flag]);
  }

  /** What is left of that outcome at each phase. */
  function Owed(c: Config, t: Task, p: Phase, view: seq<Content>): Fate
    requires WellPlaced(t, p)
  {
    match p
    case Unspawned => Expected(c, t, view)
    case Skipped => Fate(view, [])
    case Waiting => Expected(c, t, view)
    case Entered => Expected(c, t, view)
    case Promoting => Fate(view, [Promote(t.snap.externalID, t.snap.provider)])
    case Listing =>
      var r := Settle(view, t.job, SeenNames(view, t.faults), 0, t.faults);
      Fate(r.view, [EnsuredCall(t, r.flags)])
    case Ensuring(found, flags) => OwedFrom(t, view, found.Keys, flags)
    case Submitting(snap) => Fate(view, [Evaluate(snap, t.life.value.thresholds.value)])
    case Exiting => Fate(view, [])
    case Released => Fate(view, [])
    case Done => Fate(view, [])
  }

  function CallsOf(log: seq<Entry>, i: nat): seq<Call> {
    if log == [] then []
    else
      var last := log[|log| - 1];
      CallsOf(log[..|log| - 1], i) + if last.worker == i then [last.call] else []
  }

  lemma CallsOfSnoc(log: seq<Entry>, e: Entry, i: nat)
    ensures e.worker == i ==> CallsOf(log + [e], i) == CallsOf(log, i) + [e.call]
    ensures e.worker != i ==> CallsOf(log + [e], i) == CallsOf(log, i)
  {
    assert (log + [e])[..|log|] == log;
    EmptyRight(CallsOf(log, i));
  }

  lemma LogSnoc(log: seq<Entry>, j: nat, calls: seq<Call>, call: Call)
    ensures log + LogOf(j, calls + [call]) == (log + LogOf(j, calls)) + [Entry(j, call)]
  {
  }

  lemma {:induction false} OwnCallsAppended(log: seq<Entry>, i: nat, calls: seq<Call>)
    ensures CallsOf(log + LogOf(i, calls), i) == CallsOf(log, i) + calls
  {
    if calls == [] {
      EmptyRight(log);
      EmptyRight(CallsOf(log, i));
    } else {
      var init, last := calls[..|calls| - 1], calls[|calls| - 1];
      OwnCallsAppended(log, i, init);
      assert calls == init + [last];
      LogSnoc(log, i, init, last);
      CallsOfSnoc(log + LogOf(i, init), Entry(i, last), i);
      Assoc(CallsOf(log, i), init, [last]);
    }
  }

  lemma {:induction false} OtherCallsAppended(log: seq<Entry>, j: nat, calls: seq<Call>, i: nat)
    requires i != j
    ensures CallsOf(log + LogOf(j, calls), i) == CallsOf(log, i)
  {
    if calls == [] {
      EmptyRight(log);
    } else {
      var init, last := calls[..|calls| - 1], calls[|calls| - 1];
      OtherCallsAppended(log, j, init, i);
      assert calls == init + [last];
      LogSnoc(log, j, init, last);
      CallsOfSnoc(log + LogOf(j, init), Entry(j, last), i);
    }
  }

  /** The store invariants a cycle keeps. */
  ghost predicate Tracked(c: Config, s: State)
    requires Shaped(c, s)
  {
    && ValidStore(s.store)
    && (forall i, j | 0 <= i < |c.tasks| && 0 <= j < |c.tasks| && i != j ::
          Exclusive(s.store, c.tasks[i].job.lookup, c.tasks[j].job.lookup))
    && (forall i | 0 <= i < |c.tasks| && s.phases[i].Ensuring? ::
          Tracks(s.phases[i].found, Listed(s.store.monitors, c.tasks[i].job.lookup)))
  }

  ghost predicate ReadyStore(c: Config, store: Store) {
    && ValidStore(store)
    && (forall i, j | 0 <= i < |c.tasks| && 0 <= j < |c.tasks| && i != j ::
          Exclusive(store, c.tasks[i].job.lookup, c.tasks[j].job.lookup))
  }

  lemma EnsuringOwed(c: Config, t: Task, p: Phase, view: seq<Content>)
    requires p.Ensuring? && WellPlaced(t, p)
    ensures var names, ok := p.found.Keys, Succeeds(t.faults, |p.flags|);
            var next := AfterSlot(t, p.found, p.flags + [SlotFlag(t.job, names, |p.flags|, ok)]);
            && WellPlaced(t, next)
            && Owed(c, t, p, view) == Owed(c, t, next, SlotView(view, t.job, names, |p.flags|, ok))
  {
    OwedFromStep(t, view, p.found.Keys, p.flags);
  }

  lemma EnsuringOwn(c: Config, t: Task, p: Phase, store: Store)
    requires p.Ensuring? && WellPlaced(t, p) && WellFormed(t.job) && ValidStore(store)
    requires Tracks(p.found, Listed(store.monitors, t.job.lookup))
    ensures var e := Work(c, t, p, store);
            && ValidStore(e.store) && WellPlaced(t, e.phase)
            && (e.phase.Ensuring? ==> Tracks(e.phase.found, Listed(e.store.monitors, t.job.lookup)))
            && Owed(c, t, p, View(store, t.job.lookup)) == Owed(c, t, e.phase, View(e.store, t.job.lookup))
  {
    SlotStepOwn(store, t.job, p.found, |p.flags|, Succeeds(t.faults, |p.flags|));
    EnsuringOwed(c, t, p, View(store, t.job.lookup));
  }

  lemma ListingOwed(c: Config, t: Task, found: map<string, int>, view: seq<Content>)
    requires WellPlaced(t, Listing) && found.Keys == SeenNames(view, t.faults)
    ensures Owed(c, t, Listing, view) == Owed(c, t, Ensuring(found, []), view)
  {
    var r := Settle(view, t.job, found.Keys, 0, t.faults);
    EmptyLeft(r.flags);
  }

  lemma ListingOwn(c: Config, t: Task, store: Store)
    requires WellPlaced(t, Listing)
    ensures var e := Work(c, t, Listing, store);
            && Tracks(e.phase.found, Listed(e.store.monitors, t.job.lookup))
            && Owed(c, t, Listing, View(store, t.job.lookup)) == Owed(c, t, e.phase, View(e.store, t.job.lookup))
  {
    LookupFacts(store, t.job, t.faults);
    ListingOwed(c, t, Lookup(store, t.job, t.faults), View(store, t.job.lookup));
  }

  lemma DispatchOwn(c: Config, t: Task, store: Store)
    requires WellPlaced(t, Entered) && WellFormed(t.job)
    ensures var e := Work(c, t, Entered, store);
            && e.store == store && WellPlaced(t, e.phase) && !e.phase.Ensuring?
            && (var after := Owed(c, t, e.phase, View(store, t.job.lookup));
                Owed(c, t, Entered, View(store, t.job.lookup)) == Fate(after.view, e.calls + after.calls))
  {
    var life := t.life.value;
    match life.state
    case Learning =>
    case Monitoring =>
      var e := Work(c, t, Entered, store);
      var after := Owed(c, t, e.phase, View(store, t.job.lookup));
      EmptyLeft(after.calls);
    case Discovering =>
    case Unrecognised(_) =>
  }

  /** One step of a worker, on its own monitors: calls made plus what is still owed stay the same. */
  lemma WorkOwn(c: Config, t: Task, p: Phase, store: Store)
    requires Processing(p) && !p.Exiting? && WellPlaced(t, p) && WellFormed(t.job) && ValidStore(store)
    requires p.Ensuring? ==> Tracks(p.found, Listed(store.monitors, t.job.lookup))
    ensures var e := Work(c, t, p, store);
            && ValidStore(e.store) && WellPlaced(t, e.phase)
            && (e.phase.Ensuring? ==> Tracks(e.phase.found, Listed(e.store.monitors, t.job.lookup)))
            && (var after := Owed(c, t, e.phase, View(e.store, t.job.lookup));
                Owed(c, t, p, View(store, t.job.lookup)) == Fate(after.view, e.calls + after.calls))
  {
    var e := Work(c, t, p, store);
    WorkAdvances(c, t, p, store);
    if p.Entered? {
      DispatchOwn(c, t, store);
    } else if p.Listing? {
      ListingOwn(c, t, store);
      EmptyLeft(Owed(c, t, p, View(store, t.job.lookup)).calls);
    } else if p.Ensuring? {
      EnsuringOwn(c, t, p, store);
      EmptyLeft(Owed(c, t, p, View(store, t.job.lookup)).calls);
    }
  }

  /** One step of a worker, seen from any lookup that is not its own. */
  lemma WorkForeign(c: Config, t: Task, p: Phase, store: Store, other: set<string>)
    requires Processing(p) && !p.Exiting? && WellPlaced(t, p) && ValidStore(store)
    requires p.Ensuring? ==> Tracks(p.found, Listed(store.monitors, t.job.lookup))
    requires Exclusive(store, t.job.lookup, other) && !Carries(t.job.tags, other)
    ensures Listed(Work(c, t, p, store).store.monitors, other) == Listed(store.monitors, other)
  {
    if p.Ensuring? {
      SlotStepForeign(store, t.job, p.found, |p.flags|, Succeeds(t.faults, |p.flags|), other);
    }
  }

  lemma WorkKeepsExclusive(c: Config, t: Task, p: Phase, store: Store, a: set<string>, b: set<string>)
    requires Processing(p) && !p.Exiting? && WellPlaced(t, p)
    requires Exclusive(store, a, b) && !(Carries(t.job.tags, a) && Carries(t.job.tags, b))
    ensures Exclusive(Work(c, t, p, store).store, a, b)
  {
    if p.Ensuring? {
      SlotStepKeepsExclusive(store, t.job, p.found, |p.flags|, Succeeds(t.faults, |p.flags|), a, b);
    }
  }

  predicate Works(c: Config, s: State, a: Actor)
    requires Shaped(c, s) && Enabled(c, s, a)
  {
    a.Worker? && Processing(s.phases[a.i]) && !s.phases[a.i].Exiting?
  }

  /** Only a worker's own work touches the store or the log, or enters the middle of ensuring its monitors. */
  lemma StepWorks(c: Config, s: State, a: Actor)
    requires Shaped(c, s) && Enabled(c, s, a)
    ensures var s' := Step(c, s, a);
            if Works(c, s, a) then
              var e := Work(c, c.tasks[a.i], s.phases[a.i], s.store);
              s' == s.(phases := s.phases[a.i := e.phase], store := e.store, log := s.log + LogOf(a.i, e.calls))
            else
              s'.store == s.store && s'.log == s.log && |s'.phases| == |s.phases|
              && forall i | 0 <= i < |s'.phases| && s'.phases[i].Ensuring? :: s'.phases[i] == s.phases[i]
  {
  }

  lemma StepTracked(c: Config, s: State, a: Actor)
    requires Coherent(c) && Shaped(c, s) && Enabled(c, s, a) && Tracked(c, s)
    ensures Shaped(c, Step(c, s, a)) && Tracked(c, Step(c, s, a))
  {
    StepKeepsShape(c, s, a);
    StepWorks(c, s, a);
    var s' := Step(c, s, a);
    if Works(c, s, a) {
      var j := a.i;
      var t := c.tasks[j];
      WorkOwn(c, t, s.phases[j], s.store);
      forall i, k | 0 <= i < |c.tasks| && 0 <= k < |c.tasks| && i != k
        ensures Exclusive(s'.store, c.tasks[i].job.lookup, c.tasks[k].job.lookup)
      {
        WorkKeepsExclusive(c, t, s.phases[j], s.store, c.tasks[i].job.lookup, c.tasks[k].job.lookup);
      }
      forall i | 0 <= i < |c.tasks| && s'.phases[i].Ensuring?
        ensures Tracks(s'.phases[i].found, Listed(s'.store.monitors, c.tasks[i].job.lookup))
      {
        if i != j {
          WorkForeign(c, t, s.phases[j], s.store, c.tasks[i].job.lookup);
        }
      }
    }
  }

  /** What subscription i has got so far and is still owed, taken together. */
  function Total(c: Config, s: State, i: nat): Fate
    requires Shaped(c, s) && i < |c.tasks|
  {
    var owed := Owed(c, c.tasks[i], s.phases[i], View(s.store, c.tasks[i].job.lookup));
    Fate(owed.view, CallsOf(s.log, i) + owed.calls)
  }

  lemma WorkConservesOwn(c: Config, s: State, i: nat)
    requires Coherent(c) && Shaped(c, s) && Enabled(c, s, Worker(i)) && Tracked(c, s)
    requires Works(c, s, Worker(i)) && Shaped(c, Step(c, s, Worker(i)))
    ensures Total(c, Step(c, s, Worker(i)), i) == Total(c, s, i)
  {
    var t, p := c.tasks[i], s.phases[i];
    var e := Work(c, t, p, s.store);
    StepWorks(c, s, Worker(i));
    OwnCallsAppended(s.log, i, e.calls);
    WorkOwn(c, t, p, s.store);
    Assoc(CallsOf(s.log, i), e.calls, Owed(c, t, e.phase, View(e.store, t.job.lookup)).calls);
  }

  lemma WorkConservesForeign(c: Config, s: State, j: nat, i: nat)
    requires Coherent(c) && Shaped(c, s) && Enabled(c, s, Worker(j)) && Tracked(c, s) && i < |c.tasks| && i != j
    requires Works(c, s, Worker(j)) && Shaped(c, Step(c, s, Worker(j)))
    ensures Total(c, Step(c, s, Worker(j)), i) == Total(c, s, i)
  {
    OtherCallsAppended(s.log, j, Work(c, c.tasks[j], s.phases[j], s.store).calls, i);
    WorkForeign(c, c.tasks[j], s.phases[j], s.store, c.tasks[i].job.lookup);
  }

  lemma IdleConserves(c: Config, s: State, a: Actor, i: nat)
    requires Shaped(c, s) && Enabled(c, s, a) && !Works(c, s, a) && i < |c.tasks| && Shaped(c, Step(c, s, a))
    ensures Total(c, Step(c, s, a), i) == Total(c, s, i)
  {
  }

  /** No step changes that total. */
  lemma StepConserves(c: Config, s: State, a: Actor, i: nat)
    requires Coherent(c) && Shaped(c, s) && Enabled(c, s, a) && Tracked(c, s) && i < |c.tasks|
    ensures Shaped(c, Step(c, s, a)) && Total(c, Step(c, s, a), i) == Total(c, s, i)
  {
    StepKeepsShape(c, s, a);
    if Works(c, s, a) {
      if a.i == i {
        WorkConservesOwn(c, s, i);
      } else {
        WorkConservesForeign(c, s, a.i, i);
      }
    } else {
      IdleConserves(c, s, a, i);
    }
  }

  lemma {:induction false} ExecConserves(c: Config, s: State, schedule: seq<Actor>, i: nat)
    requires Coherent(c) && Shaped(c, s) && Tracked(c, s) && i < |c.tasks|
    requires Exec(c, s, schedule).Some?
    ensures Tracked(c, Exec(c, s, schedule).value)
    ensures Total(c, Exec(c, s, schedule).value, i) == Total(c, s, i)
    decreases |schedule|
  {
    if schedule != [] {
      StepTracked(c, s, schedule[0]);
      StepConserves(c, s, schedule[0], i);
      ExecConserves(c, Step(c, s, schedule[0]), schedule[1..], i);
    }
  }

  /** Every complete schedule gives subscription i exactly its expected monitors and calls. */
  lemma EveryScheduleEndsTheSame(c: Config, store: Store, schedule: seq<Actor>, i: nat)
    requires Coherent(c) && Shaped(c, Init(c, store)) && ReadyStore(c, store) && i < |c.tasks|
    requires Exec(c, Init(c, store), schedule).Some? && Exec(c, Init(c, store), schedule).value.returned
    ensures var s := Exec(c, Init(c, store), schedule).value;
            var lookup := c.tasks[i].job.lookup;
            Fate(View(s.store, lookup), CallsOf(s.log, i)) == Expected(c, c.tasks[i], View(store, lookup))
  {
    var s0 := Init(c, store);
    var s := Exec(c, s0, schedule).value;
    ExecConserves(c, s0, schedule, i);
    BoundedConcurrency(c, store, schedule);
    assert s.phases[i] in s.phases;
    var t := c.tasks[i];
    assert Owed(c, t, s.phases[i], View(s.store, t.job.lookup)) == Fate(View(s.store, t.job.lookup), []);
    EmptyRight(CallsOf(s.log, i));
    assert CallsOf(s0.log, i) == [];
    EmptyLeft(Expected(c, t, View(store, t.job.lookup)).calls);
  }

  /** No monitor found by `other` belongs to a task, now or later. */
  ghost predicate Outside(c: Config, store: Store, other: set<string>) {
    forall i | 0 <= i < |c.tasks| ::
      Exclusive(store, c.tasks[i].job.lookup, other) && !Carries(c.tasks[i].job.tags, other)
  }

  lemma StepOutside(c: Config, s: State, a: Actor, other: set<string>)
    requires Shaped(c, s) && Enabled(c, s, a) && Tracked(c, s) && Outside(c, s.store, other)
    ensures Outside(c, Step(c, s, a).store, other)
    ensures Listed(Step(c, s, a).store.monitors, other) == Listed(s.store.monitors, other)
  {
    StepWorks(c, s, a);
    if Works(c, s, a) {
      WorkForeign(c, c.tasks[a.i], s.phases[a.i], s.store, other);
      forall i | 0 <= i < |c.tasks| ensures Exclusive(Step(c, s, a).store, c.tasks[i].job.lookup, other) {
        WorkKeepsExclusive(c, c.tasks[a.i], s.phases[a.i], s.store, c.tasks[i].job.lookup, other);
      }
    }
  }

  /** Monitors that belong to none of the cycle's subscriptions are left alone. */
  lemma {:induction false} OthersUntouched(c: Config, s: State, schedule: seq<Actor>, other: set<string>)
    requires Coherent(c) && Shaped(c, s) && Tracked(c, s) && Exec(c, s, schedule).Some?
    requires Outside(c, s.store, other)
    ensures Listed(Exec(c, s, schedule).value.store.monitors, other) == Listed(s.store.monitors, other)
    decreases |schedule|
  {
    if schedule != [] {
      StepTracked(c, s, schedule[0]);
      StepOutside(c, s, schedule[0], other);
      OthersUntouched(c, Step(c, s, schedule[0]), schedule[1..], other);
    }
  }

  lemma {:induction false} ExecTracked(c: Config, s: State, schedule: seq<Actor>)
    requires Coherent(c) && Shaped(c, s) && Tracked(c, s) && Exec(c, s, schedule).Some?
    ensures Tracked(c, Exec(c, s, schedule).value)
    decreases |schedule|
  {
    if schedule != [] {
      StepTracked(c, s, schedule[0]);
      ExecTracked(c, Step(c, s, schedule[0]), schedule[1..]);
    }
  }

  /** Lookups that share no monitor still share none after any part of any schedule. */
  lemma {:induction false} ExecKeepsExclusive(c: Config, s: State, schedule: seq<Actor>, a: set<string>, b: set<string>)
    requires Formed(c) && Shaped(c, s) && Exec(c, s, schedule).Some? && Exclusive(s.store, a, b)
    requires forall i | 0 <= i < |c.tasks| :: !(Carries(c.tasks[i].job.tags, a) && Carries(c.tasks[i].job.tags, b))
    ensures Exclusive(Exec(c, s, schedule).value.store, a, b)
    decreases |schedule|
  {
    if schedule != [] {
      var actor := schedule[0];
      StepKeepsShape(c, s, actor);
      StepWorks(c, s, actor);
      if Works(c, s, actor) {
        WorkKeepsExclusive(c, c.tasks[actor.i], s.phases[actor.i], s.store, a, b);
      }
      ExecKeepsExclusive(c, Step(c, s, actor), schedule[1..], a, b);
    }
  }
}
