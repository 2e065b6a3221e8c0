/**
 No subscription ever has two monitors of the same name: in every state of every interleaving of every
 cycle, over any number of cycles, with monitors removed by hand in between.
 */
module QueueSafety {
  import opened Wrappers
  import opened MonitorStore
  import opened MonitorJob
  import opened QueueCycle
  import opened QueueConfluence

  /** Monitors created by this cycle answer a given lookup only when they were created for it. */
  predicate Fits(c: Config, lookup: set<string>) {
    forall i | 0 <= i < |c.tasks| && Carries(c.tasks[i].job.tags, lookup) :: c.tasks[i].job.lookup == lookup
  }

  /** The lists made for this lookup succeed; those made for others may fail. */
  predicate ListsSucceed(c: Config, lookup: set<string>) {
    forall i | 0 <= i < |c.tasks| && Carries(c.tasks[i].job.tags, lookup) :: c.tasks[i].faults.list
  }

  /** What a worker has not found, its subscription does not have. */
  predicate Informed(t: Task, p: Phase, view: seq<Content>) {
    p.Ensuring? ==>
      forall k | |p.flags| <= k < |t.job.slots| && t.job.slots[k].name !in p.found ::
        t.job.slots[k].name !in Names(view)
  }

  predicate Safe(c: Config, s: State, lookup: set<string>)
    requires Shaped(c, s)
  {
    && UniqueNames(View(s.store, lookup))
    && forall i | 0 <= i < |c.tasks| && Carries(c.tasks[i].job.tags, lookup) ::
         Informed(c.tasks[i], s.phases[i], View(s.store, lookup))
  }

  lemma UpdateNames(st: Store, id: int, w: int, c: int, lookup: set<string>)
    requires UniqueNames(View(st, lookup))
    ensures UniqueNames(View(Update(st, id, w, c), lookup))
    ensures Names(View(Update(st, id, w, c), lookup)) == Names(View(st, lookup))
  {
    ListedRewritten(st.monitors, id, w, c, lookup);
    RewrittenKeepsNames(Listed(st.monitors, lookup), id, w, c);
  }

  /** A slot step keeps the names or appends the one it creates. */
  lemma SlotStepNames(st: Store, job: Job, found: map<string, int>, k: nat, ok: bool, lookup: set<string>)
    requires k < |job.slots| && UniqueNames(View(st, lookup))
    requires Carries(job.tags, lookup) && job.slots[k].name !in found ==> job.slots[k].name !in Names(View(st, lookup))
    ensures var view' := View(SlotStep(st, job, found, k, ok), lookup);
            && UniqueNames(view')
            && Names(view') == Names(View(st, lookup))
               + if job.slots[k].name !in found && ok && Carries(job.tags, lookup) then {job.slots[k].name} else {}
  {
    var s := job.slots[k];
    if s.name in found {
      if s.refresh && ok {
        UpdateNames(st, found[s.name], s.warning, s.critical, lookup);
      }
    } else if ok {
      var c := SlotContent(job, k);
      var m := Monitor(st.nextId, c.name, c.query, c.tags, c.warning, c.critical);
      ViewAppend(st.monitors, m, lookup);
      AppendNamed(View(st, lookup), c);
    }
  }

  lemma EnsuringSafe(t: Task, p: Phase, st: Store, lookup: set<string>)
    requires p.Ensuring? && |p.flags| < |t.job.slots| && WellFormed(t.job)
    requires UniqueNames(View(st, lookup)) && (Carries(t.job.tags, lookup) ==> Informed(t, p, View(st, lookup)))
    ensures var ok := Succeeds(t.faults, |p.flags|);
            var view' := View(SlotStep(st, t.job, p.found, |p.flags|, ok), lookup);
            && UniqueNames(view')
            && (!Carries(t.job.tags, lookup) ==> Names(view') == Names(View(st, lookup)))
            && (Carries(t.job.tags, lookup) ==>
                  forall flag :: Informed(t, Ensuring(p.found, p.flags + [flag]), view'))
  {
    SlotStepNames(st, t.job, p.found, |p.flags|, Succeeds(t.faults, |p.flags|), lookup);
  }

  lemma ListingSafe(t: Task, st: Store)
    requires t.faults.list
    ensures Informed(t, Ensuring(Lookup(st, t.job, t.faults), []), View(st, t.job.lookup))
  {
    NamesOfListed(st, t.job.lookup);
  }

  lemma WorkSafe(c: Config, t: Task, p: Phase, st: Store, lookup: set<string>)
    requires Processing(p) && !p.Exiting? && WellPlaced(t, p) && WellFormed(t.job)
    requires Carries(t.job.tags, lookup) ==>
               t.job.lookup == lookup && t.faults.list && Informed(t, p, View(st, lookup))
    requires UniqueNames(View(st, lookup))
    ensures var e := Work(c, t, p, st);
            && UniqueNames(View(e.store, lookup))
            && (Carries(t.job.tags, lookup) ==> Informed(t, e.phase, View(e.store, lookup)))
            && (!Carries(t.job.tags, lookup) ==> Names(View(e.store, lookup)) == Names(View(st, lookup)))
  {
    if p.Ensuring? {
      EnsuringSafe(t, p, st, lookup);
    } else if p.Listing? && Carries(t.job.tags, lookup) {
      ListingSafe(t, st);
    }
  }

  lemma StepSafe(c: Config, s: State, a: Actor, lookup: set<string>)
    requires Coherent(c) && Fits(c, lookup) && ListsSucceed(c, lookup)
    requires Shaped(c, s) && Enabled(c, s, a) && Safe(c, s, lookup)
    ensures Shaped(c, Step(c, s, a)) && Safe(c, Step(c, s, a), lookup)
  {
    StepKeepsShape(c, s, a);
    StepWorks(c, s, a);
    var s' := Step(c, s, a);
    if Works(c, s, a) {
      var j := a.i;
      WorkSafe(c, c.tasks[j], s.phases[j], s.store, lookup);
      forall i | 0 <= i < |c.tasks| && Carries(c.tasks[i].job.tags, lookup)
        ensures Informed(c.tasks[i], s'.phases[i], View(s'.store, lookup))
      {
        if i != j {
          assert !Carries(c.tasks[j].job.tags, c.tasks[i].job.lookup);
        }
      }
    }
  }

  /** In every state a cycle can reach, names are unique. */
  lemma {:induction false} ExecSafe(c: Config, s: State, schedule: seq<Actor>, lookup: set<string>)
    requires Coherent(c) && Fits(c, lookup) && ListsSucceed(c, lookup)
    requires Shaped(c, s) && Safe(c, s, lookup) && Exec(c, s, schedule).Some?
    ensures Safe(c, Exec(c, s, schedule).value, lookup)
    decreases |schedule|
  {
    if schedule != [] {
      StepSafe(c, s, schedule[0], lookup);
      ExecSafe(c, Step(c, s, schedule[0]), schedule[1..], lookup);
    }
  }

  // --- any number of cycles ---

  /** A cycle run up to some point (to its end or not), or a monitor removed by hand. */
  datatype Event = Cycle(config: Config, schedule: seq<Actor>) | Removed(id: int)

  function Without(ms: seq<Monitor>, id: int): seq<Monitor> {
    if ms == [] then []
    else Without(ms[..|ms| - 1], id) + if ms[|ms| - 1].id == id then [] else [ms[|ms| - 1]]
  }

  lemma {:induction false} WithoutKeepsValid(ms: seq<Monitor>, id: int)
    ensures forall m :: m in Without(ms, id) <==> m in ms && m.id != id
    ensures DistinctIds(ms) ==> DistinctIds(Without(ms, id))
  {
    if ms != [] {
      var init, last := ms[..|ms| - 1], ms[|ms| - 1];
      WithoutKeepsValid(init, id);
      assert ms == init + [last];
      if DistinctIds(ms) {
        var w := Without(init, id);
        forall p | 0 <= p < |w| ensures w[p].id != last.id {
          assert w[p] in init;
        }
      }
    }
  }

  predicate Possible(store: Store, e: Event) {
    e.Cycle? ==>
      && Coherent(e.config) && Shaped(e.config, Init(e.config, store))
      && Exec(e.config, Init(e.config, store), e.schedule).Some?
  }

  function After(store: Store, e: Event): Store
    requires Possible(store, e)
  {
    match e
    case Cycle(c, schedule) => Exec(c, Init(c, store), schedule).value.store
    case Removed(id) => store.(monitors := Without(store.monitors, id))
  }

  predicate History(store: Store, events: seq<Event>, last: Store)
    decreases |events|
  {
    if events == [] then last == store
    else Possible(store, events[0]) && History(After(store, events[0]), events[1..], last)
  }

  lemma WithoutLast(init: seq<Monitor>, last: Monitor, id: int, lookup: set<string>)
    ensures var v, w := Strip(Listed(init, lookup)), Strip(Listed(Without(init, id), lookup));
            && Strip(Listed(init + [last], lookup)) == (if Carries(last.tags, lookup) then v + [ContentOf(last)] else v)
            && Strip(Listed(Without(init + [last], id), lookup))
               == if last.id != id && Carries(last.tags, lookup) then w + [ContentOf(last)] else w
  {
    var v, w := Strip(Listed(init, lookup)), Strip(Listed(Without(init, id), lookup));
    assert (init + [last])[..|init|] == init;
    ViewAppend(init, last, lookup);
    ViewAppend(Without(init, id), last, lookup);
    EmptyRight(v);
    EmptyRight(w);
    EmptyRight(Without(init, id));
  }

  lemma {:induction false} WithoutKeepsUnique(ms: seq<Monitor>, id: int, lookup: set<string>)
    requires UniqueNames(Strip(Listed(ms, lookup)))
    ensures UniqueNames(Strip(Listed(Without(ms, id), lookup)))
    ensures Names(Strip(Listed(Without(ms, id), lookup))) <= Names(Strip(Listed(ms, lookup)))
  {
    if ms != [] {
      var init, last := ms[..|ms| - 1], ms[|ms| - 1];
      var v, w := Strip(Listed(init, lookup)), Strip(Listed(Without(init, id), lookup));
      assert ms == init + [last];
      WithoutLast(init, last, id, lookup);
      AppendNamed(v, ContentOf(last));
      AppendNamed(w, ContentOf(last));
      WithoutKeepsUnique(init, id, lookup);
    }
  }

  lemma {:induction false} NamesStayUnique(store: Store, events: seq<Event>, last: Store, lookup: set<string>)
    requires History(store, events, last) && UniqueNames(View(store, lookup))
    requires forall e | e in events && e.Cycle? :: Fits(e.config, lookup) && ListsSucceed(e.config, lookup)
    ensures UniqueNames(View(last, lookup))
    decreases |events|
  {
    if events != [] {
      var e := events[0];
      assert e in events;
      match e {
        case Cycle(c, schedule) => ExecSafe(c, Init(c, store), schedule, lookup);
        case Removed(id) => WithoutKeepsUnique(store.monitors, id, lookup);
      }
      NamesStayUnique(After(store, e), events[1..], last, lookup);
    }
  }
}
