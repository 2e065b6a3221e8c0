/**
 Ensuring the standard monitors of one subscription (src/internal/observability/datadog/queue_monitors.go), for any
 lookup, tags and monitors to ensure.
 */
module MonitorJob {
  import opened MonitorStore
  import opened Queue

  /** One standard monitor: what it is created with, and whether an existing one gets new thresholds. */
  datatype Slot = Slot(name: string, query: string, warning: int, critical: int, refresh: bool)

  /** Everything one call of EnsureMonitors works with. */
  datatype Job = Job(lookup: set<string>, tags: seq<string>, slots: seq<Slot>)

  /** Which remote calls of one EnsureMonitors succeed: the list, then one call per slot. */
  datatype Faults = Faults(list: bool, slots: seq<bool>)

  datatype Outcome = Outcome(store: Store, flags: seq<bool>)

  datatype Settled = Settled(view: seq<Content>, flags: seq<bool>)

  function Succeeds(f: Faults, k: nat): bool {
    k < |f.slots| && f.slots[k]
  }

  /** Flags in slot order: backlog, age and, for a dead-letter queue, the third. */
  function StatusOf(flags: seq<bool>): MonitorStatus {
    MonitorStatus(|flags| > 0 && flags[0], |flags| > 1 && flags[1], |flags| > 2 && flags[2])
  }

  predicate WellFormed(job: Job) {
    && Carries(job.tags, job.lookup)
    && 1 <= |job.slots| <= 3
    && forall j, k | 0 <= j < k < |job.slots| :: job.slots[j].name != job.slots[k].name
  }

  function SlotContent(job: Job, k: nat): Content
    requires k < |job.slots|
  {
    var s := job.slots[k];
    Content(s.name, s.query, job.tags, s.warning, s.critical)
  }

  /** What the lookup remembers: nothing when the list call fails. */
  function Lookup(st: Store, job: Job, f: Faults): map<string, int> {
    if f.list then ByName(Listed(st.monitors, job.lookup)) else map[]
  }

  /** Update an existing monitor, or create a missing one. */
  function SlotStep(st: Store, job: Job, found: map<string, int>, k: nat, ok: bool): Store
    requires k < |job.slots|
  {
    var s := job.slots[k];
    if s.name in found then
      if s.refresh && ok then Update(st, found[s.name], s.warning, s.critical) else st
    else if ok then Create(st, SlotContent(job, k))
    else st
  }

  function SlotFlag(job: Job, names: set<string>, k: nat, ok: bool): bool
    requires k < |job.slots|
  {
    job.slots[k].name in names || ok
  }

  /** The slots from k on, one after the other. */
  function FromSlot(st: Store, job: Job, found: map<string, int>, k: nat, f: Faults): Outcome
    requires k <= |job.slots|
    decreases |job.slots| - k
  {
    if k == |job.slots| then Outcome(st, [])
    else
      var ok := Succeeds(f, k);
      var rest := FromSlot(SlotStep(st, job, found, k, ok), job, found, k + 1, f);
      Outcome(rest.store, [SlotFlag(job, found.Keys, k, ok)] + rest.flags)
  }

  function Ensured(st: Store, job: Job, f: Faults): Outcome {
    FromSlot(st, job, Lookup(st, job, f), 0, f)
  }

  // --- the same on the subscription's own view ---

  function SlotView(view: seq<Content>, job: Job, names: set<string>, k: nat, ok: bool): seq<Content>
    requires k < |job.slots|
  {
    var s := job.slots[k];
    if s.name in names then
      if s.refresh && ok then UpdateLast(view, s.name, s.warning, s.critical) else view
    else if ok then view + [SlotContent(job, k)]
    else view
  }

  function Settle(view: seq<Content>, job: Job, names: set<string>, k: nat, f: Faults): Settled
    requires k <= |job.slots|
    decreases |job.slots| - k
  {
    if k == |job.slots| then Settled(view, [])
    else
      var ok := Succeeds(f, k);
      var rest := Settle(SlotView(view, job, names, k, ok), job, names, k + 1, f);
      Settled(rest.view, [SlotFlag(job, names, k, ok)] + rest.flags)
  }

  function SeenNames(view: seq<Content>, f: Faults): set<string> {
    if f.list then Names(view) else {}
  }

  lemma LookupFacts(st: Store, job: Job, f: Faults)
    ensures Lookup(st, job, f).Keys == SeenNames(View(st, job.lookup), f)
    ensures Tracks(Lookup(st, job, f), Listed(st.monitors, job.lookup))
  {
    NamesOfListed(st, job.lookup);
    ByNameTracks(Listed(st.monitors, job.lookup));
  }

  lemma RefreshOwn(st: Store, job: Job, found: map<string, int>, s: Slot)
    requires ValidStore(st) && Tracks(found, Listed(st.monitors, job.lookup)) && s.name in found
    ensures var st' := Update(st, found[s.name], s.warning, s.critical);
            && ValidStore(st') && Tracks(found, Listed(st'.monitors, job.lookup))
            && View(st', job.lookup) == UpdateLast(View(st, job.lookup), s.name, s.warning, s.critical)
  {
    var l, id := Listed(st.monitors, job.lookup), found[s.name];
    ValidAfterUpdate(st, id, s.warning, s.critical);
    ListedRewritten(st.monitors, id, s.warning, s.critical, job.lookup);
    TracksRewritten(found, l, id, s.warning, s.critical);
    ListedKeepsIdsDistinct(st.monitors, job.lookup);
    var p :| LastNamed(l, p, s.name) && l[p].id == id;
    RewriteActsOnLast(l, p, s.name, s.warning, s.critical);
  }

  lemma CreateOwn(st: Store, job: Job, found: map<string, int>, c: Content)
    requires ValidStore(st) && Tracks(found, Listed(st.monitors, job.lookup))
    requires c.name !in found && Carries(c.tags, job.lookup)
    ensures var st' := Create(st, c);
            && ValidStore(st') && Tracks(found, Listed(st'.monitors, job.lookup))
            && View(st', job.lookup) == View(st, job.lookup) + [c]
  {
    var m := Monitor(st.nextId, c.name, c.query, c.tags, c.warning, c.critical);
    ListedAppend(st.monitors, m, job.lookup);
    TracksAppend(found, Listed(st.monitors, job.lookup), m);
    ViewAppend(st.monitors, m, job.lookup);
  }

  /** One slot step acts on the owner's view alone, and keeps what the lookup remembers accurate. */
  lemma SlotStepOwn(st: Store, job: Job, found: map<string, int>, k: nat, ok: bool)
    requires k < |job.slots| && WellFormed(job) && ValidStore(st)
    requires Tracks(found, Listed(st.monitors, job.lookup))
    ensures var st' := SlotStep(st, job, found, k, ok);
            && ValidStore(st')
            && Tracks(found, Listed(st'.monitors, job.lookup))
            && View(st', job.lookup) == SlotView(View(st, job.lookup), job, found.Keys, k, ok)
  {
    if job.slots[k].name in found {
      RefreshOwn(st, job, found, job.slots[k]);
    } else {
      CreateOwn(st, job, found, SlotContent(job, k));
    }
  }

  /** What a lookup remembers never names a monitor of another subscription. */
  lemma FoundIsForeign(st: Store, lookup: set<string>, found: map<string, int>, name: string, other: set<string>)
    requires ValidStore(st) && Exclusive(st, lookup, other) && name in found
    requires Tracks(found, Listed(st.monitors, lookup))
    ensures forall m | m in Listed(st.monitors, other) :: m.id != found[name]
  {
    var l, l' := Listed(st.monitors, lookup), Listed(st.monitors, other);
    var p :| LastNamed(l, p, name) && l[p].id == found[name];
    var a :| 0 <= a < |st.monitors| && st.monitors[a] == l[p];
    forall m | m in l' ensures m.id != found[name] {
      var b :| 0 <= b < |st.monitors| && st.monitors[b] == m;
      assert a != b;
    }
  }

  /** One slot step leaves every other subscription's listing exactly as it was. */
  lemma SlotStepForeign(st: Store, job: Job, found: map<string, int>, k: nat, ok: bool, other: set<string>)
    requires k < |job.slots| && ValidStore(st) && Exclusive(st, job.lookup, other)
    requires Tracks(found, Listed(st.monitors, job.lookup))
    requires !Carries(job.tags, other)
    ensures Listed(SlotStep(st, job, found, k, ok).monitors, other) == Listed(st.monitors, other)
  {
    var s, l' := job.slots[k], Listed(st.monitors, other);
    if s.name in found {
      if s.refresh && ok {
        ListedRewritten(st.monitors, found[s.name], s.warning, s.critical, other);
        FoundIsForeign(st, job.lookup, found, s.name, other);
        assert Rewritten(l', found[s.name], s.warning, s.critical) == l';
      }
    } else if ok {
      ListedAppend(st.monitors, Create(st, SlotContent(job, k)).monitors[|st.monitors|], other);
    }
  }

  lemma SlotStepKeepsExclusive(st: Store, job: Job, found: map<string, int>, k: nat, ok: bool,
                              a: set<string>, b: set<string>)
    requires k < |job.slots| && Exclusive(st, a, b)
    requires !(Carries(job.tags, a) && Carries(job.tags, b))
    ensures Exclusive(SlotStep(st, job, found, k, ok), a, b)
  {
    var st' := SlotStep(st, job, found, k, ok);
    forall m | m in st'.monitors ensures !(Carries(m.tags, a) && Carries(m.tags, b)) {
      var p :| 0 <= p < |st'.monitors| && st'.monitors[p] == m;
      assert p < |st.monitors| ==> st.monitors[p] in st.monitors && m.tags == st.monitors[p].tags;
    }
  }

  lemma {:induction false} FromSlotView(st: Store, job: Job, found: map<string, int>, k: nat, f: Faults)
    requires k <= |job.slots| && WellFormed(job) && ValidStore(st)
    requires Tracks(found, Listed(st.monitors, job.lookup))
    ensures var o := FromSlot(st, job, found, k, f);
            && ValidStore(o.store)
            && Settled(View(o.store, job.lookup), o.flags)
               == Settle(View(st, job.lookup), job, found.Keys, k, f)
    decreases |job.slots| - k
  {
    if k < |job.slots| {
      SlotStepOwn(st, job, found, k, Succeeds(f, k));
      FromSlotView(SlotStep(st, job, found, k, Succeeds(f, k)), job, found, k + 1, f);
    }
  }

  /** EnsureMonitors, seen by its own subscription, is Settle on the view. */
  lemma EnsuredView(st: Store, job: Job, f: Faults)
    requires WellFormed(job) && ValidStore(st)
    ensures var o := Ensured(st, job, f);
            var v := View(st, job.lookup);
            && ValidStore(o.store)
            && Settled(View(o.store, job.lookup), o.flags) == Settle(v, job, SeenNames(v, f), 0, f)
  {
    LookupFacts(st, job, f);
    FromSlotView(st, job, Lookup(st, job, f), 0, f);
  }

  lemma {:induction false} FromSlotForeign(st: Store, job: Job, found: map<string, int>, k: nat, f: Faults,
                                           other: set<string>)
    requires k <= |job.slots| && WellFormed(job) && ValidStore(st)
    requires Tracks(found, Listed(st.monitors, job.lookup))
    requires Exclusive(st, job.lookup, other) && !Carries(job.tags, other)
    ensures Listed(FromSlot(st, job, found, k, f).store.monitors, other) == Listed(st.monitors, other)
    decreases |job.slots| - k
  {
    if k < |job.slots| {
      var st' := SlotStep(st, job, found, k, Succeeds(f, k));
      SlotStepOwn(st, job, found, k, Succeeds(f, k));
      SlotStepForeign(st, job, found, k, Succeeds(f, k), other);
      SlotStepKeepsExclusive(st, job, found, k, Succeeds(f, k), job.lookup, other);
      FromSlotForeign(st', job, found, k + 1, f, other);
    }
  }

  /** The whole call leaves every other subscription's listing exactly as it was. */
  lemma EnsuredForeign(st: Store, job: Job, f: Faults, other: set<string>)
    requires WellFormed(job) && ValidStore(st) && Exclusive(st, job.lookup, other) && !Carries(job.tags, other)
    ensures Listed(Ensured(st, job, f).store.monitors, other) == Listed(st.monitors, other)
  {
    LookupFacts(st, job, f);
    FromSlotForeign(st, job, Lookup(st, job, f), 0, f, other);
  }

  lemma {:induction false} FromSlotKeepsExclusive(st: Store, job: Job, found: map<string, int>, k: nat, f: Faults,
                                                  a: set<string>, b: set<string>)
    requires k <= |job.slots| && Exclusive(st, a, b) && !(Carries(job.tags, a) && Carries(job.tags, b))
    ensures Exclusive(FromSlot(st, job, found, k, f).store, a, b)
    decreases |job.slots| - k
  {
    if k < |job.slots| {
      SlotStepKeepsExclusive(st, job, found, k, Succeeds(f, k), a, b);
      FromSlotKeepsExclusive(SlotStep(st, job, found, k, Succeeds(f, k)), job, found, k + 1, f, a, b);
    }
  }

  // --- what Settle means ---

  /** The missing monitors whose creation succeeds, in slot order. */
  function Created(job: Job, names: set<string>, k: nat, f: Faults): seq<Content>
    requires k <= |job.slots|
    decreases |job.slots| - k
  {
    if k == |job.slots| then []
    else if job.slots[k].name !in names && Succeeds(f, k) then [SlotContent(job, k)] + Created(job, names, k + 1, f)
    else Created(job, names, k + 1, f)
  }

  /** Slot j refreshes the monitor c. */
  predicate Refreshes(job: Job, names: set<string>, j: nat, f: Faults, c: Content)
    requires j < |job.slots|
  {
    var s := job.slots[j];
    s.name == c.name && s.name in names && s.refresh && Succeeds(f, j)
  }

  /** c with the thresholds of the slots from k on that refresh it. */
  function Refreshed(job: Job, names: set<string>, k: nat, f: Faults, c: Content): (r: Content)
    requires k <= |job.slots|
    ensures r.name == c.name && r == c.(warning := r.warning, critical := r.critical)
    decreases |job.slots| - k
  {
    if k == |job.slots| then c
    else
      var s := job.slots[k];
      Refreshed(job, names, k + 1, f,
        if Refreshes(job, names, k, f, c) then c.(warning := s.warning, critical := s.critical) else c)
  }

  /** At most one slot refreshes a monitor, and it decides both thresholds. */
  lemma {:induction false} RefreshedMeans(job: Job, names: set<string>, k: nat, f: Faults, c: Content)
    requires k <= |job.slots| && WellFormed(job)
    ensures var r := Refreshed(job, names, k, f, c);
            && (forall j | k <= j < |job.slots| && Refreshes(job, names, j, f, c) ::
                  r == c.(warning := job.slots[j].warning, critical := job.slots[j].critical))
            && ((forall j | k <= j < |job.slots| :: !Refreshes(job, names, j, f, c)) ==> r == c)
    decreases |job.slots| - k
  {
    if k < |job.slots| {
      var s := job.slots[k];
      var c1 := if Refreshes(job, names, k, f, c) then c.(warning := s.warning, critical := s.critical) else c;
      RefreshedMeans(job, names, k + 1, f, c1);
      forall j | k < j < |job.slots| ensures Refreshes(job, names, j, f, c1) <==> Refreshes(job, names, j, f, c) {
      }
    }
  }

  /** No later monitor of the view has this name. */
  predicate LastOfName(view: seq<Content>, p: nat)
    requires p < |view|
  {
    forall q | p < q < |view| :: view[q].name != view[p].name
  }

  lemma LastOfNameAppend(view: seq<Content>, x: Content, p: nat)
    requires p < |view|
    ensures LastOfName(view + [x], p) <==> LastOfName(view, p) && x.name != view[p].name
  {
    var all := view + [x];
    assert all[|view|] == x;
    assert forall q | 0 <= q < |view| :: all[q] == view[q];
  }

  lemma {:induction false} UpdateLastExact(view: seq<Content>, n: string, w: int, c: int)
    ensures |UpdateLast(view, n, w, c)| == |view|
    ensures forall p | 0 <= p < |view| ::
              UpdateLast(view, n, w, c)[p]
              == if view[p].name == n && LastOfName(view, p) then view[p].(warning := w, critical := c) else view[p]
  {
    if view != [] {
      var init, last := view[..|view| - 1], view[|view| - 1];
      UpdateLastExact(init, n, w, c);
      forall p | 0 <= p < |init| ensures LastOfName(view, p) <==> LastOfName(init, p) && last.name != view[p].name {
      }
    }
  }

  lemma SlotViewExact(view: seq<Content>, job: Job, names: set<string>, k: nat, f: Faults)
    requires k < |job.slots|
    ensures var s, ok := job.slots[k], Succeeds(f, k);
            var v1 := SlotView(view, job, names, k, ok);
            if s.name !in names && ok then v1 == view + [SlotContent(job, k)]
            else |v1| == |view| && forall p | 0 <= p < |view| ::
                   v1[p] == if LastOfName(view, p) && Refreshes(job, names, k, f, view[p])
                            then view[p].(warning := s.warning, critical := s.critical) else view[p]
  {
    UpdateLastExact(view, job.slots[k].name, job.slots[k].warning, job.slots[k].critical);
  }

  /** A monitor after the slots from k on. */
  function Kept(job: Job, names: set<string>, k: nat, f: Faults, last: bool, c: Content): Content
    requires k <= |job.slots|
  {
    if last then Refreshed(job, names, k, f, c) else c
  }

  lemma SlotKeepsLast(view: seq<Content>, job: Job, names: set<string>, k: nat, f: Faults, p: nat)
    requires k < |job.slots| && WellFormed(job) && p < |view|
    ensures var v1 := SlotView(view, job, names, k, Succeeds(f, k));
            && |view| <= |v1| && v1[p].name == view[p].name
            && Kept(job, names, k + 1, f, LastOfName(v1, p), v1[p])
               == Kept(job, names, k, f, LastOfName(view, p), view[p])
  {
    var s, ok := job.slots[k], Succeeds(f, k);
    var v1 := SlotView(view, job, names, k, ok);
    SlotViewExact(view, job, names, k, f);
    if s.name !in names && ok {
      LastOfNameAppend(view, SlotContent(job, k), p);
      if s.name == view[p].name {
        RefreshedMeans(job, names, k + 1, f, view[p]);
      }
    } else {
      assert forall q | 0 <= q < |view| :: v1[q].name == view[q].name;
    }
  }

  lemma {:induction false} SettleKeepsAt(view: seq<Content>, job: Job, names: set<string>, k: nat, f: Faults, p: nat)
    requires k <= |job.slots| && WellFormed(job) && p < |view|
    ensures var v' := Settle(view, job, names, k, f).view;
            |view| <= |v'| && v'[p] == Kept(job, names, k, f, LastOfName(view, p), view[p])
    decreases |job.slots| - k
  {
    if k < |job.slots| {
      SlotKeepsLast(view, job, names, k, f, p);
      SettleKeepsAt(SlotView(view, job, names, k, Succeeds(f, k)), job, names, k + 1, f, p);
    }
  }

  lemma HeadOf<T>(s: seq<T>, i: nat)
    requires i < |s|
    ensures s[i..] == [s[i]] + s[i + 1..]
  {
  }

  lemma {:induction false} SettleAppends(view: seq<Content>, job: Job, names: set<string>, k: nat, f: Faults)
    requires k <= |job.slots| && WellFormed(job)
    ensures var v' := Settle(view, job, names, k, f).view;
            |v'| == |view| + |Created(job, names, k, f)| && v'[|view|..] == Created(job, names, k, f)
    decreases |job.slots| - k
  {
    if k < |job.slots| {
      var v1 := SlotView(view, job, names, k, Succeeds(f, k));
      SlotViewExact(view, job, names, k, f);
      SettleAppends(v1, job, names, k + 1, f);
      if job.slots[k].name !in names && Succeeds(f, k) {
        SettleKeepsAt(v1, job, names, k + 1, f, |view|);
        RefreshedMeans(job, names, k + 1, f, SlotContent(job, k));
        HeadOf(Settle(view, job, names, k, f).view, |view|);
      }
    }
  }

  /**
   Every monitor of the listing stays in its place: the last of each name with the thresholds of its slot, the others
   as they are; the missing ones are appended.
   */
  lemma SettleExact(view: seq<Content>, job: Job, names: set<string>, k: nat, f: Faults)
    requires k <= |job.slots| && WellFormed(job)
    ensures var v' := Settle(view, job, names, k, f).view;
            && |v'| == |view| + |Created(job, names, k, f)|
            && v'[|view|..] == Created(job, names, k, f)
            && (forall p | 0 <= p < |view| :: v'[p] == Kept(job, names, k, f, LastOfName(view, p), view[p]))
  {
    SettleAppends(view, job, names, k, f);
    forall p | 0 <= p < |view|
      ensures Settle(view, job, names, k, f).view[p] == Kept(job, names, k, f, LastOfName(view, p), view[p])
    {
      SettleKeepsAt(view, job, names, k, f, p);
    }
  }

  lemma {:induction false} CreatedMembers(job: Job, names: set<string>, k: nat, f: Faults)
    requires k <= |job.slots|
    ensures forall c :: c in Created(job, names, k, f) <==>
              exists j :: k <= j < |job.slots| && job.slots[j].name !in names && Succeeds(f, j)
                          && c == SlotContent(job, j)
    decreases |job.slots| - k
  {
    if k < |job.slots| {
      CreatedMembers(job, names, k + 1, f);
    }
  }

  lemma {:induction false} SettleFlags(view: seq<Content>, job: Job, names: set<string>, k: nat, f: Faults)
    requires k <= |job.slots|
    ensures var flags := Settle(view, job, names, k, f).flags;
            && |flags| == |job.slots| - k
            && forall j | 0 <= j < |flags| :: flags[j] == SlotFlag(job, names, k + j, Succeeds(f, k + j))
    decreases |job.slots| - k
  {
    if k < |job.slots| {
      SettleFlags(SlotView(view, job, names, k, Succeeds(f, k)), job, names, k + 1, f);
    }
  }

  /** The names afterwards are the old ones and those created, whatever was there before. */
  lemma {:induction false} SettleNames(v: seq<Content>, job: Job, names: set<string>, k: nat, f: Faults)
    requires k <= |job.slots|
    ensures Names(Settle(v, job, names, k, f).view) == Names(v) + Names(Created(job, names, k, f))
    decreases |job.slots| - k
  {
    if k < |job.slots| {
      var s, ok := job.slots[k], Succeeds(f, k);
      SettleNames(SlotView(v, job, names, k, ok), job, names, k + 1, f);
      if s.name in names {
        UpdateLastShape(v, s.name, s.warning, s.critical);
      } else if ok {
        AppendNamed(v, SlotContent(job, k));
        NamesConcat([SlotContent(job, k)], Created(job, names, k + 1, f));
        assert SlotContent(job, k) in [SlotContent(job, k)];
      }
    }
  }

  /** The list failed, and so did the create of a monitor that is there. */
  predicate Overlooked(v: seq<Content>, job: Job, f: Faults, j: nat)
    requires j < |job.slots|
  {
    !f.list && !Succeeds(f, j) && job.slots[j].name in Names(v)
  }

  lemma SettledFlags(v: seq<Content>, job: Job, f: Faults)
    requires WellFormed(job)
    ensures var r := Settle(v, job, SeenNames(v, f), 0, f);
            && |r.flags| == |job.slots|
            && forall j | 0 <= j < |job.slots| ::
                 r.flags[j] <==> job.slots[j].name in Names(r.view) && !Overlooked(v, job, f, j)
    ensures var r := Settle(v, job, SeenNames(v, f), 0, f);
            forall n :: n in Names(r.view) <==>
              n in Names(v) || exists j :: 0 <= j < |job.slots| && job.slots[j].name == n && Succeeds(f, j)
  {
    var seen := SeenNames(v, f);
    var created := Created(job, seen, 0, f);
    SettleFlags(v, job, seen, 0, f);
    SettleNames(v, job, seen, 0, f);
    CreatedMembers(job, seen, 0, f);
    forall j | 0 <= j < |job.slots| && Succeeds(f, j) ensures job.slots[j].name in Names(v) + Names(created) {
      if job.slots[j].name !in seen {
        assert SlotContent(job, j) in created;
      }
    }
  }

  /**
   A status flag is set exactly when that monitor exists afterwards, except where the list and its create failed
   although it exists; no name is lost, and none appears but those created.
   */
  lemma FlagsTellTheTruth(st: Store, job: Job, f: Faults)
    requires WellFormed(job) && ValidStore(st)
    ensures var o, before := Ensured(st, job, f), View(st, job.lookup);
            var names' := Names(View(o.store, job.lookup));
            && |o.flags| == |job.slots|
            && (forall j | 0 <= j < |job.slots| ::
                  o.flags[j] <==> job.slots[j].name in names' && !Overlooked(before, job, f, j))
            && (forall n :: n in names' <==>
                  n in Names(before) || exists j :: 0 <= j < |job.slots| && job.slots[j].name == n && Succeeds(f, j))
  {
    EnsuredView(st, job, f);
    SettledFlags(View(st, job.lookup), job, f);
  }

  // --- name by name ---

  /**
   What becomes of the monitors of one standard name, `found` telling whether the list showed any. The last of them
   gets new thresholds if they are to be refreshed and the update succeeds; a missing one is created if that succeeds;
   nothing else happens to them.
   */
  function Ended(before: seq<Content>, found: bool, ok: bool, refresh: bool, added: Content): seq<Content>
    requires found ==> before != []
  {
    if found then if refresh && ok then LastThresholded(before, added.warning, added.critical) else before
    else if ok then before + [added]
    else before
  }

  lemma SlotViewOther(view: seq<Content>, job: Job, names: set<string>, k: nat, ok: bool, n: string)
    requires k < |job.slots| && n != job.slots[k].name
    ensures OfName(SlotView(view, job, names, k, ok), n) == OfName(view, n)
  {
    var s := job.slots[k];
    OfNameUpdateOther(view, s.name, s.warning, s.critical, n);
    OfNameAppend(view, SlotContent(job, k), n);
  }

  lemma {:induction false} SettleOther(view: seq<Content>, job: Job, names: set<string>, k: nat, f: Faults, n: string)
    requires k <= |job.slots| && forall j | k <= j < |job.slots| :: job.slots[j].name != n
    ensures OfName(Settle(view, job, names, k, f).view, n) == OfName(view, n)
    decreases |job.slots| - k
  {
    if k < |job.slots| {
      SlotViewOther(view, job, names, k, Succeeds(f, k), n);
      SettleOther(SlotView(view, job, names, k, Succeeds(f, k)), job, names, k + 1, f, n);
    }
  }

  lemma {:induction false} SettleSlot(view: seq<Content>, job: Job, names: set<string>, k: nat, f: Faults, j: nat)
    requires k <= j < |job.slots| && WellFormed(job)
    requires job.slots[j].name in names ==> OfName(view, job.slots[j].name) != []
    ensures var s := job.slots[j];
            OfName(Settle(view, job, names, k, f).view, s.name)
            == Ended(OfName(view, s.name), s.name in names, Succeeds(f, j), s.refresh, SlotContent(job, j))
    decreases j - k
  {
    var s, v1 := job.slots[j], SlotView(view, job, names, k, Succeeds(f, k));
    if k < j {
      SlotViewOther(view, job, names, k, Succeeds(f, k), s.name);
      SettleSlot(v1, job, names, k + 1, f, j);
    } else {
      if s.name in names {
        OfNameUpdateLast(view, s.name, s.warning, s.critical);
      }
      OfNameAppend(view, SlotContent(job, j), s.name);
      SettleOther(v1, job, names, k + 1, f, s.name);
    }
  }

  /**
   The monitors of a standard name after a call: none of them is lost; found ones keep everything but the thresholds
   of the last, a missing one is appended, and a failed request changes nothing.
   */
  lemma SlotOutcome(st: Store, job: Job, f: Faults, j: nat)
    requires WellFormed(job) && ValidStore(st) && j < |job.slots|
    ensures var s, before := job.slots[j], OfName(View(st, job.lookup), job.slots[j].name);
            OfName(View(Ensured(st, job, f).store, job.lookup), s.name)
            == Ended(before, f.list && before != [], Succeeds(f, j), s.refresh, SlotContent(job, j))
  {
    var v := View(st, job.lookup);
    EnsuredView(st, job, f);
    OfNameEmpty(v, job.slots[j].name);
    SettleSlot(v, job, SeenNames(v, f), 0, f, j);
  }

  /** Monitors of any other name are untouched: the same ones, in the same order. */
  lemma OtherNamesKept(st: Store, job: Job, f: Faults, n: string)
    requires WellFormed(job) && ValidStore(st) && forall j | 0 <= j < |job.slots| :: job.slots[j].name != n
    ensures OfName(View(Ensured(st, job, f).store, job.lookup), n) == OfName(View(st, job.lookup), n)
  {
    var v := View(st, job.lookup);
    EnsuredView(st, job, f);
    SettleOther(v, job, SeenNames(v, f), 0, f, n);
  }

  lemma SlotStepOtherName(st: Store, job: Job, found: map<string, int>, k: nat, ok: bool,
                          lookup: set<string>, n: string)
    requires k < |job.slots| && job.slots[k].name != n
    ensures n in Names(View(SlotStep(st, job, found, k, ok), lookup)) <==> n in Names(View(st, lookup))
  {
    var s := job.slots[k];
    if s.name in found {
      if s.refresh && ok {
        ListedRewritten(st.monitors, found[s.name], s.warning, s.critical, lookup);
        RewrittenKeepsNames(Listed(st.monitors, lookup), found[s.name], s.warning, s.critical);
      }
    } else if ok {
      var c := SlotContent(job, k);
      ViewAppend(st.monitors, Monitor(st.nextId, c.name, c.query, c.tags, c.warning, c.critical), lookup);
      AppendNamed(View(st, lookup), c);
    }
  }

  /** No call makes a monitor of another name appear in or disappear from any listing, whatever the store. */
  lemma {:induction false} FromSlotOtherName(st: Store, job: Job, found: map<string, int>, k: nat, f: Faults,
                                             lookup: set<string>, n: string)
    requires k <= |job.slots| && forall j | k <= j < |job.slots| :: job.slots[j].name != n
    ensures n in Names(View(FromSlot(st, job, found, k, f).store, lookup)) <==> n in Names(View(st, lookup))
    decreases |job.slots| - k
  {
    if k < |job.slots| {
      SlotStepOtherName(st, job, found, k, Succeeds(f, k), lookup, n);
      FromSlotOtherName(SlotStep(st, job, found, k, Succeeds(f, k)), job, found, k + 1, f, lookup, n);
    }
  }

  // --- calling again ---

  lemma {:induction false} NothingToCreate(st: Store, job: Job, found: map<string, int>, k: nat, f: Faults)
    requires k <= |job.slots|
    requires forall j | k <= j < |job.slots| :: job.slots[j].name in found
    ensures var o := FromSlot(st, job, found, k, f);
            && o.store.nextId == st.nextId
            && |o.store.monitors| == |st.monitors|
            && (forall j | 0 <= j < |o.flags| :: o.flags[j])
            && forall p | 0 <= p < |st.monitors| ::
                 o.store.monitors[p].(warning := 0, critical := 0) == st.monitors[p].(warning := 0, critical := 0)
    decreases |job.slots| - k
  {
    if k < |job.slots| {
      NothingToCreate(SlotStep(st, job, found, k, Succeeds(f, k)), job, found, k + 1, f);
    }
  }

  lemma {:induction false} CreatesSome(st: Store, job: Job, found: map<string, int>, k: nat, f: Faults)
    requires k <= |job.slots|
    ensures FromSlot(st, job, found, k, f).store.nextId == st.nextId + |Created(job, found.Keys, k, f)|
    decreases |job.slots| - k
  {
    if k < |job.slots| {
      CreatesSome(SlotStep(st, job, found, k, Succeeds(f, k)), job, found, k + 1, f);
    }
  }

  lemma SecondWithList(st: Store, job: Job, f: Faults)
    requires f.list
    requires forall j | 0 <= j < |job.slots| :: job.slots[j].name in Names(View(st, job.lookup))
    ensures var o := Ensured(st, job, f);
            && o.store.nextId == st.nextId && |o.store.monitors| == |st.monitors|
            && (forall j | 0 <= j < |o.flags| :: o.flags[j])
            && forall p | 0 <= p < |st.monitors| ::
                 o.store.monitors[p].(warning := 0, critical := 0) == st.monitors[p].(warning := 0, critical := 0)
  {
    NamesOfListed(st, job.lookup);
    NothingToCreate(st, job, Lookup(st, job, f), 0, f);
  }

  lemma SecondWithoutList(st: Store, job: Job, f: Faults)
    requires !f.list
    ensures Ensured(st, job, f).store.nextId == st.nextId <==> forall j | 0 <= j < |job.slots| :: !Succeeds(f, j)
  {
    var found: map<string, int> := map[];
    CreatesSome(st, job, found, 0, f);
    CreatedMembers(job, found.Keys, 0, f);
    var created := Created(job, found.Keys, 0, f);
    if j :| 0 <= j < |job.slots| && Succeeds(f, j) {
      assert SlotContent(job, j) in created;
    }
    if created != [] {
      assert created[0] in created;
    }
  }

  /**
   After a call that reports every monitor, a second one creates nothing exactly when its list succeeds or all its
   creates fail; with the list, it reports every monitor again and changes thresholds only.
   */
  lemma SecondCallCreatesNothing(st: Store, job: Job, f: Faults, f2: Faults)
    requires WellFormed(job) && ValidStore(st)
    requires forall flag | flag in Ensured(st, job, f).flags :: flag
    ensures var st1 := Ensured(st, job, f).store;
            var o2 := Ensured(st1, job, f2);
            && (o2.store.nextId == st1.nextId <==> f2.list || forall j | 0 <= j < |job.slots| :: !Succeeds(f2, j))
            && (f2.list ==>
                  && |o2.store.monitors| == |st1.monitors|
                  && (forall j | 0 <= j < |o2.flags| :: o2.flags[j])
                  && forall p | 0 <= p < |st1.monitors| ::
                       o2.store.monitors[p].(warning := 0, critical := 0)
                       == st1.monitors[p].(warning := 0, critical := 0))
  {
    FlagsTellTheTruth(st, job, f);
    var st1 := Ensured(st, job, f).store;
    assert forall j | 0 <= j < |job.slots| :: Ensured(st, job, f).flags[j] in Ensured(st, job, f).flags;
    if f2.list {
      SecondWithList(st1, job, f2);
    } else {
      SecondWithoutList(st1, job, f2);
    }
  }

  lemma UniqueAppend(v: seq<Content>, new': seq<Content>)
    requires UniqueNames(v) && UniqueNames(new') && forall c | c in new' :: c.name !in Names(v)
    ensures UniqueNames(v + new')
  {
    var all := v + new';
    forall p, q | 0 <= p < q < |all| ensures all[p].name != all[q].name {
      if p < |v| <= q {
        assert v[p].name in Names(v) && new'[q - |v|] in new';
      } else if |v| <= p {
        assert new'[p - |v|].name != new'[q - |v|].name;
      }
    }
  }

  lemma SameNamesUnique(v: seq<Content>, w: seq<Content>)
    requires |v| == |w| && forall p | 0 <= p < |v| :: w[p].name == v[p].name
    ensures UniqueNames(v) <==> UniqueNames(w)
  {
    if UniqueNames(v) {
      assert forall p, q | 0 <= p < q < |w| :: v[p].name != v[q].name;
    }
    if UniqueNames(w) {
      assert forall p, q | 0 <= p < q < |v| :: w[p].name != w[q].name;
    }
  }

  lemma DuplicateAppend(v: seq<Content>, new': seq<Content>, c: Content)
    requires c in new' && c.name in Names(v)
    ensures !UniqueNames(v + new')
  {
    var q :| 0 <= q < |new'| && new'[q] == c;
    var p :| 0 <= p < |v| && v[p].name == c.name;
    assert (v + new')[p].name == (v + new')[|v| + q].name;
  }

  lemma SettleUniqueIff(v: seq<Content>, job: Job, f: Faults)
    requires WellFormed(job) && UniqueNames(v)
    ensures UniqueNames(Settle(v, job, SeenNames(v, f), 0, f).view) <==>
            (f.list || forall j | 0 <= j < |job.slots| && Succeeds(f, j) :: job.slots[j].name !in Names(v))
  {
    var seen := SeenNames(v, f);
    var v', new' := Settle(v, job, seen, 0, f).view, Created(job, seen, 0, f);
    SettleExact(v, job, seen, 0, f);
    CreatedMembers(job, seen, 0, f);
    CreatedNamesDistinct(job, seen, 0, f);
    SameNamesUnique(v + new', v');
    if j :| 0 <= j < |job.slots| && Succeeds(f, j) && job.slots[j].name in Names(v) && !f.list {
      DuplicateAppend(v, new', SlotContent(job, j));
    } else {
      UniqueAppend(v, new');
    }
  }

  /**
   Names stay unique exactly when the list succeeds or no monitor that already exists is created
   again.
   */
  lemma UniqueNamesIff(st: Store, job: Job, f: Faults)
    requires WellFormed(job) && ValidStore(st) && UniqueNames(View(st, job.lookup))
    ensures UniqueNames(View(Ensured(st, job, f).store, job.lookup)) <==>
            (f.list || forall j | 0 <= j < |job.slots| && Succeeds(f, j) ::
                         job.slots[j].name !in Names(View(st, job.lookup)))
  {
    EnsuredView(st, job, f);
    SettleUniqueIff(View(st, job.lookup), job, f);
  }

  lemma {:induction false} CreatedNamesDistinct(job: Job, names: set<string>, k: nat, f: Faults)
    requires k <= |job.slots| && WellFormed(job)
    ensures UniqueNames(Created(job, names, k, f))
    decreases |job.slots| - k
  {
    if k < |job.slots| {
      CreatedNamesDistinct(job, names, k + 1, f);
      CreatedMembers(job, names, k + 1, f);
      var rest := Created(job, names, k + 1, f);
      assert forall q | 0 <= q < |rest| :: rest[q] in rest;
    }
  }
}
