/**
 The cycle as a plain loop, one snapshot handled after the other, and what it shares with every schedule of the
 concurrent one.
 */
module QueueInTurn {
  import opened Queue
  import opened MonitorStore
  import opened MonitorJob
  import opened QueueCycle
  import opened QueueConfluence
  import opened Turns

  /** The store after handling something, and the calls it made. */
  datatype Handled = Handled(store: Store, calls: seq<Call>)

  /** processWithLifecycle, run to its end with nobody else at work. */
  function HandleOne(c: Config, t: Task, store: Store): Handled {
    if t.life.None? then Handled(store, [])
    else
      match t.life.value.state
      case Learning =>
        Handled(store,
                [Evaluate(t.snap, NO_THRESHOLDS)]
                + if t.life.value.observationCount >= c.learningCycles
                  then [Promote(t.snap.externalID, t.snap.provider)] else [])
      case Monitoring =>
        if t.life.value.thresholds.None? then Handled(store, [])
        else if !c.createMonitors then Handled(store, [Evaluate(t.snap, t.life.value.thresholds.value)])
        else
          var o := Ensured(store, t.job, t.faults);
          Handled(o.store, [EnsuredCall(t, o.flags)])
      case Discovering => Handled(store, [])
      case Unrecognised(_) => Handled(store, [])
  }

  function Handling(c: Config): (nat, Store) -> Turn<Store, Entry> {
    (i: nat, store: Store) =>
      if i < |c.tasks| then
        var h := HandleOne(c, c.tasks[i], store);
        Turn(h.store, LogOf(i, h.calls))
      else Turn(store, [])
  }

  /** The first n snapshots, one after the other, each on the store that the last one left. */
  function HandleAll(c: Config, store: Store, n: nat): Turn<Store, Entry> {
    InTurn(Handling(c), store, n)
  }

  // --- handling one ---

  /** The task ensures its monitors. */
  predicate EnsuresMonitors(c: Config, t: Task) {
    && t.life.Some? && t.life.value.state.Monitoring? && t.life.value.thresholds.Some? && c.createMonitors
  }

  lemma HandleOneCases(c: Config, t: Task, store: Store, view: seq<Content>)
    ensures var h := HandleOne(c, t, store);
            if EnsuresMonitors(c, t) then
              var o, r := Ensured(store, t.job, t.faults), Settle(view, t.job, SeenNames(view, t.faults), 0, t.faults);
              && h == Handled(o.store, [EnsuredCall(t, o.flags)])
              && Expected(c, t, view) == Fate(r.view, [EnsuredCall(t, r.flags)])
            else
              h.store == store && Expected(c, t, view) == Fate(view, h.calls)
  {
  }

  lemma HandleOneOwn(c: Config, t: Task, store: Store)
    requires WellFormed(t.job) && ValidStore(store)
    ensures var h := HandleOne(c, t, store);
            && ValidStore(h.store)
            && Fate(View(h.store, t.job.lookup), h.calls) == Expected(c, t, View(store, t.job.lookup))
  {
    EnsuredView(store, t.job, t.faults);
    HandleOneCases(c, t, store, View(store, t.job.lookup));
  }

  lemma HandleOneForeign(c: Config, t: Task, store: Store, other: set<string>)
    requires WellFormed(t.job) && ValidStore(store)
    requires Exclusive(store, t.job.lookup, other) && !Carries(t.job.tags, other)
    ensures View(HandleOne(c, t, store).store, other) == View(store, other)
  {
    EnsuredForeign(store, t.job, t.faults, other);
  }

  lemma HandleOneKeepsExclusive(c: Config, t: Task, store: Store, a: set<string>, b: set<string>)
    requires Exclusive(store, a, b) && !(Carries(t.job.tags, a) && Carries(t.job.tags, b))
    ensures Exclusive(HandleOne(c, t, store).store, a, b)
  {
    FromSlotKeepsExclusive(store, t.job, Lookup(store, t.job, t.faults), 0, t.faults, a, b);
  }

  // --- handling all of them ---

  function OwnView(c: Config): (nat, Store) -> seq<Content> {
    (i: nat, store: Store) => if i < |c.tasks| then View(store, c.tasks[i].job.lookup) else []
  }

  /** What each subscription gets out of a cycle, given its monitors. */
  function Dues(c: Config): (nat, seq<Content>) -> Turn<seq<Content>, Entry> {
    (i: nat, view: seq<Content>) =>
      if i < |c.tasks| then
        var fate := Expected(c, c.tasks[i], view);
        Turn(fate.view, LogOf(i, fate.calls))
      else Turn(view, [])
  }

  ghost function Ready(c: Config): Store -> bool {
    (store: Store) => ReadyStore(c, store)
  }

  lemma HandleOneKeepsReady(c: Config, i: nat, store: Store)
    requires Coherent(c) && ReadyStore(c, store) && i < |c.tasks|
    ensures ReadyStore(c, HandleOne(c, c.tasks[i], store).store)
  {
    HandleOneOwn(c, c.tasks[i], store);
    forall j, k | 0 <= j < |c.tasks| && 0 <= k < |c.tasks| && j != k
      ensures Exclusive(HandleOne(c, c.tasks[i], store).store, c.tasks[j].job.lookup, c.tasks[k].job.lookup)
    {
      HandleOneKeepsExclusive(c, c.tasks[i], store, c.tasks[j].job.lookup, c.tasks[k].job.lookup);
    }
  }

  lemma HandlingActsAt(c: Config, n: nat, store: Store)
    requires Coherent(c) && n < |c.tasks| && ReadyStore(c, store)
    ensures ActsAt(|c.tasks|, Handling(c), OwnView(c), Dues(c), n, store)
  {
    HandleOneOwn(c, c.tasks[n], store);
    forall i | 0 <= i < |c.tasks| && i != n
      ensures View(HandleOne(c, c.tasks[n], store).store, c.tasks[i].job.lookup)
              == View(store, c.tasks[i].job.lookup)
    {
      HandleOneForeign(c, c.tasks[n], store, c.tasks[i].job.lookup);
    }
  }

  lemma HandlingActsAlone(c: Config)
    requires Coherent(c)
    ensures ActsAlone(|c.tasks|, Handling(c), Ready(c), OwnView(c), Dues(c))
  {
    forall n: nat, store | n < |c.tasks| && ReadyStore(c, store)
      ensures ReadyStore(c, Handling(c)(n, store).state)
      ensures ActsAt(|c.tasks|, Handling(c), OwnView(c), Dues(c), n, store)
    {
      HandlingActsAt(c, n, store);
      HandleOneKeepsReady(c, n, store);
    }
  }

  /** The plain loop gives every subscription what its lifecycle prescribes. */
  lemma HandleAllOutcome(c: Config, store: Store, i: nat)
    requires Coherent(c) && ReadyStore(c, store) && i < |c.tasks|
    ensures var due := Expected(c, c.tasks[i], View(store, c.tasks[i].job.lookup));
            && View(HandleAll(c, store, |c.tasks|).state, c.tasks[i].job.lookup) == due.view
            && Handling(c)(i, HandleAll(c, store, i).state).log == LogOf(i, due.calls)
  {
    HandlingActsAlone(c);
    TurnsAreIndependent(|c.tasks|, Handling(c), Ready(c), OwnView(c), Dues(c), store, i);
  }

  // --- the log as a whole ---

  lemma {:induction false} CountInLogOf(j: nat, calls: seq<Call>, e: Entry)
    ensures multiset(LogOf(j, calls))[e] == if e.worker == j then multiset(calls)[e.call] else 0
  {
    if calls != [] {
      var init, last := calls[..|calls| - 1], calls[|calls| - 1];
      CountInLogOf(j, init, e);
      assert calls == init + [last];
      assert LogOf(j, calls) == LogOf(j, init) + [Entry(j, last)];
    }
  }

  /** The loop logs what each subscription is due, by its own worker. */
  lemma CountInLoop(c: Config, store: Store, e: Entry)
    requires Coherent(c) && ReadyStore(c, store)
    ensures multiset(HandleAll(c, store, |c.tasks|).log)[e]
            == if e.worker < |c.tasks|
               then multiset(Expected(c, c.tasks[e.worker], View(store, c.tasks[e.worker].job.lookup)).calls)[e.call]
               else 0
  {
    CountInTurn(Handling(c), store, |c.tasks|, e, e.worker);
    if e.worker < |c.tasks| {
      HandleAllOutcome(c, store, e.worker);
      CountInLogOf(e.worker, Expected(c, c.tasks[e.worker], View(store, c.tasks[e.worker].job.lookup)).calls, e);
    }
  }

  lemma {:induction false} CountInLog(log: seq<Entry>, e: Entry)
    ensures multiset(log)[e] == multiset(CallsOf(log, e.worker))[e.call]
  {
    if log != [] {
      var init, last := log[..|log| - 1], log[|log| - 1];
      CountInLog(init, e);
      assert log == init + [last];
    }
  }

  lemma {:induction false} WorkersInLog(c: Config, s: State, schedule: seq<Actor>, i: nat)
    requires Coherent(c) && Shaped(c, s) && Exec(c, s, schedule).Some? && i >= |c.tasks|
    ensures CallsOf(Exec(c, s, schedule).value.log, i) == CallsOf(s.log, i)
    decreases |schedule|
  {
    if schedule != [] {
      var a := schedule[0];
      StepKeepsShape(c, s, a);
      if Works(c, s, a) {
        OtherCallsAppended(s.log, a.i, Work(c, c.tasks[a.i], s.phases[a.i], s.store).calls, i);
      }
      WorkersInLog(c, Step(c, s, a), schedule[1..], i);
    }
  }

  /**
   Whatever the schedule, a complete cycle makes the same calls as handling the snapshots one after the other, and
   leaves each subscription the same monitors.
   */
  lemma SameCallsAsSequential(c: Config, store: Store, schedule: seq<Actor>)
    requires Coherent(c) && Shaped(c, Init(c, store)) && ReadyStore(c, store)
    requires Exec(c, Init(c, store), schedule).Some? && Exec(c, Init(c, store), schedule).value.returned
    ensures var s, fold := Exec(c, Init(c, store), schedule).value, HandleAll(c, store, |c.tasks|);
            && multiset(s.log) == multiset(fold.log)
            && forall i | 0 <= i < |c.tasks| ::
                 View(s.store, c.tasks[i].job.lookup) == View(fold.state, c.tasks[i].job.lookup)
  {
    var s, fold := Exec(c, Init(c, store), schedule).value, HandleAll(c, store, |c.tasks|);
    forall i | 0 <= i < |c.tasks|
      ensures View(s.store, c.tasks[i].job.lookup) == View(fold.state, c.tasks[i].job.lookup)
    {
      EveryScheduleEndsTheSame(c, store, schedule, i);
      HandleAllOutcome(c, store, i);
    }
    forall e: Entry ensures multiset(s.log)[e] == multiset(fold.log)[e] {
      CountInLog(s.log, e);
      CountInLoop(c, store, e);
      if e.worker >= |c.tasks| {
        WorkersInLog(c, Init(c, store), schedule, e.worker);
      } else {
        EveryScheduleEndsTheSame(c, store, schedule, e.worker);
      }
    }
  }
}
