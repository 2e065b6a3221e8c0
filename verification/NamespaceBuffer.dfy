/**
 The digest buffer of the notifier: scorecards are collected per namespace and handed out in batches
 (src/internal/notification/buffer.go).
 */
module NamespaceBuffer {
  import opened Wrappers

  datatype Settings = Settings(digestInterval: int, batchSize: int)

  /** What the buffer holds, and when each namespace was last flushed. */
  datatype Contents<T> = Contents(buckets: map<string, seq<T>>, lastFlush: map<string, int>)

  /** The readings of the clock during one Add: for a new namespace, for the elapsed time, for the flush. */
  datatype Clock = Clock(first: int, since: int, flushed: int)

  datatype Added<T> = Added(contents: Contents<T>, batch: Option<seq<T>>)

  function Bucket<T>(c: Contents<T>, ns: string): seq<T> {
    if ns in c.buckets then c.buckets[ns] else []
  }

  function Started<T>(c: Contents<T>, ns: string, clock: Clock): int {
    if ns in c.lastFlush then c.lastFlush[ns] else clock.first
  }

  predicate Due<T>(s: Settings, c: Contents<T>, ns: string, clock: Clock) {
    clock.since - Started(c, ns, clock) >= s.digestInterval || |Bucket(c, ns)| + 1 >= s.batchSize
  }

  function AddTo<T>(s: Settings, c: Contents<T>, ns: string, item: T, clock: Clock): Added<T> {
    var items := Bucket(c, ns) + [item];
    if Due(s, c, ns, clock) then
      Added(Contents(c.buckets - {ns}, c.lastFlush[ns := clock.flushed]), Some(items))
    else
      Added(Contents(c.buckets[ns := items], c.lastFlush[ns := Started(c, ns, clock)]), None)
  }

  // --- the buffer in memory ---

  /** The backing storage of one bucket, appended to in place. */
  class Batch<T> {
    var items: seq<T>

    constructor ()
      ensures items == []
    {
      items := [];
    }

    method Append(item: T)
      modifies this
      ensures items == old(items) + [item]
    {
      items := items + [item];
    }
  }

  class Buffer<T> {
    var buckets: map<string, Batch<T>>
    var lastFlush: map<string, int>
    const settings: Settings

    constructor (intervalMinutes: int, batchSize: int)
      ensures Valid() && fresh(Footprint()) && settings == Settings(intervalMinutes * 60, batchSize)
      ensures Abstract() == Contents(map[], map[])
    {
      buckets, lastFlush := map[], map[];
      settings := Settings(intervalMinutes * 60, batchSize);
    }

    ghost function Footprint(): set<object>
      reads this`buckets
    {
      set n | n in buckets :: buckets[n]
    }

    /** No two namespaces share storage. */
    ghost predicate Valid()
      reads this`buckets
    {
      forall m, n | m in buckets && n in buckets && m != n :: buckets[m] != buckets[n]
    }

    ghost function Held(): map<string, seq<T>>
      reads this`buckets, Footprint()
    {
      map n | n in buckets :: buckets[n].items
    }

    ghost function Abstract(): Contents<T>
      reads this, Footprint()
    {
      Contents(Held(), lastFlush)
    }

    method Push(ns: string, item: T)
      requires Valid()
      modifies this`buckets, Footprint()
      ensures Valid() && ns in buckets
      ensures forall b | b in Footprint() :: b in old(Footprint()) || fresh(b)
      ensures Held() == old(Held())[ns := Bucket(old(Abstract()), ns) + [item]]
    {
      if ns !in buckets {
        var b := new Batch<T>();
        buckets := buckets[ns := b];
      }
      buckets[ns].Append(item);
    }

    method Take(ns: string) returns (out: Batch<T>)
      requires Valid() && ns in buckets
      modifies this`buckets
      ensures Valid() && Held() == old(Held()) - {ns}
      ensures out == old(buckets[ns]) && out !in Footprint() && Footprint() <= old(Footprint())
    {
      out := buckets[ns];
      buckets := buckets - {ns};
    }

    /** The flush timer of a namespace starts with its first item. */
    method Stamp(ns: string, now: int)
      modifies this`lastFlush
      ensures lastFlush == if ns in old(lastFlush) then old(lastFlush) else old(lastFlush)[ns := now]
    {
      if ns !in lastFlush {
        lastFlush := lastFlush[ns := now];
      }
    }

    method TakeIfDue(ns: string, clock: Clock) returns (out: Batch?<T>)
      requires Valid() && ns in buckets && ns in lastFlush
      modifies this`buckets, this`lastFlush
      ensures Valid() && Footprint() <= old(Footprint())
      ensures out != null <==>
              clock.since - old(lastFlush)[ns] >= settings.digestInterval || |old(Held())[ns]| >= settings.batchSize
      ensures out != null ==> out in old(Footprint()) && out !in Footprint() && out.items == old(Held())[ns]
      ensures Held() == if out != null then old(Held()) - {ns} else old(Held())
      ensures lastFlush == if out != null then old(lastFlush)[ns := clock.flushed] else old(lastFlush)
    {
      if clock.since - lastFlush[ns] >= settings.digestInterval || |buckets[ns].items| >= settings.batchSize {
        out := Take(ns);
        lastFlush := lastFlush[ns := clock.flushed];
      } else {
        out := null;
      }
    }

    /** A batch that is handed out leaves the buffer's storage for good. */
    method Add(ns: string, item: T, clock: Clock) returns (out: Batch?<T>)
      requires Valid()
      modifies this, Footprint()
      ensures Valid()
      ensures forall b | b in Footprint() :: b in old(Footprint()) || fresh(b)
      ensures out != null ==> out !in Footprint() && (out in old(Footprint()) || fresh(out))
      ensures Added(Abstract(), if out == null then None else Some(out.items))
              == AddTo(settings, old(Abstract()), ns, item, clock)
    {
      AddInSteps(settings, Abstract(), ns, item, clock);
      Stamp(ns, clock.first);
      Push(ns, item);
      out := TakeIfDue(ns, clock);
    }
  }

  lemma AddInSteps<T>(s: Settings, c: Contents<T>, ns: string, item: T, clock: Clock)
    ensures var items := Bucket(c, ns) + [item];
            var pushed := c.buckets[ns := items];
            var started := if ns in c.lastFlush then c.lastFlush else c.lastFlush[ns := clock.first];
            AddTo(s, c, ns, item, clock)
            == if clock.since - started[ns] >= s.digestInterval || |items| >= s.batchSize then
                 Added(Contents(pushed - {ns}, started[ns := clock.flushed]), Some(items))
               else
                 Added(Contents(pushed, started), None)
  {
    var items := Bucket(c, ns) + [item];
    assert c.buckets[ns := items] - {ns} == c.buckets - {ns};
  }

  /** Once handed out, a batch is never changed by later Adds. */
  method HandedOutIsFinal<T>(buffer: Buffer<T>, out: Batch<T>, ns: string, item: T, clock: Clock)
      returns (next: Batch?<T>)
    requires buffer.Valid() && out !in buffer.Footprint()
    modifies buffer, buffer.Footprint()
    ensures buffer.Valid() && out !in buffer.Footprint()
    ensures out.items == old(out.items) && next != out
  {
    next := buffer.Add(ns, item, clock);
  }

  // --- any sequence of Adds ---

  datatype Event<T> = Event(ns: string, item: T, clock: Clock)

  function Run<T>(s: Settings, c: Contents<T>, events: seq<Event<T>>): Contents<T> {
    if events == [] then c
    else
      var e := events[|events| - 1];
      AddTo(s, Run(s, c, events[..|events| - 1]), e.ns, e.item, e.clock).contents
  }

  /** The batches handed out for a namespace, one after the other. */
  function Delivered<T>(s: Settings, c: Contents<T>, events: seq<Event<T>>, ns: string): seq<T> {
    if events == [] then []
    else
      var init, e := events[..|events| - 1], events[|events| - 1];
      var r := AddTo(s, Run(s, c, init), e.ns, e.item, e.clock);
      Delivered(s, c, init, ns) + if e.ns == ns && r.batch.Some? then r.batch.value else []
  }

  function Items<T>(events: seq<Event<T>>, ns: string): seq<T> {
    if events == [] then []
    else
      var e := events[|events| - 1];
      Items(events[..|events| - 1], ns) + if e.ns == ns then [e.item] else []
  }

  /** The same bucket and flush time for a namespace. */
  predicate Agree<T(==)>(a: Contents<T>, b: Contents<T>, ns: string) {
    && Bucket(a, ns) == Bucket(b, ns)
    && (ns in a.lastFlush <==> ns in b.lastFlush)
    && (ns in a.lastFlush ==> a.lastFlush[ns] == b.lastFlush[ns])
  }

  /** An Add leaves the other namespaces alone. */
  lemma OthersUntouched<T>(s: Settings, c: Contents<T>, e: Event<T>, ns: string)
    requires ns != e.ns
    ensures Agree(AddTo(s, c, e.ns, e.item, e.clock).contents, c, ns)
  {
  }

  /** What one Add hands out and keeps is what was kept and the new item. */
  lemma AddConserves<T>(s: Settings, c: Contents<T>, e: Event<T>, ns: string)
    ensures var r := AddTo(s, c, e.ns, e.item, e.clock);
            (if e.ns == ns && r.batch.Some? then r.batch.value else []) + Bucket(r.contents, ns)
            == Bucket(c, ns) + (if e.ns == ns then [e.item] else [])
  {
    if e.ns != ns {
      OthersUntouched(s, c, e, ns);
    }
  }

  lemma Rejoin<T>(d: seq<T>, out: seq<T>, kept: seq<T>, held: seq<T>, item: seq<T>, start: seq<T>, items: seq<T>)
    requires out + kept == held + item && d + held == start + items
    ensures (d + out) + kept == start + (items + item)
  {
    assert (d + out) + kept == d + (out + kept);
    assert d + (held + item) == (d + held) + item;
    assert (start + items) + item == start + (items + item);
  }

  /** What was handed out, followed by what is still held, is what was added, in order. */
  lemma {:induction false} Conservation<T>(s: Settings, c: Contents<T>, events: seq<Event<T>>, ns: string)
    ensures Delivered(s, c, events, ns) + Bucket(Run(s, c, events), ns) == Bucket(c, ns) + Items(events, ns)
  {
    if events == [] {
      assert [] + Bucket(c, ns) == Bucket(c, ns) + [];
    } else {
      var init, e := events[..|events| - 1], events[|events| - 1];
      var before := Run(s, c, init);
      var r := AddTo(s, before, e.ns, e.item, e.clock);
      Conservation(s, c, init, ns);
      AddConserves(s, before, e, ns);
      Rejoin(Delivered(s, c, init, ns),
             if e.ns == ns && r.batch.Some? then r.batch.value else [], Bucket(r.contents, ns),
             Bucket(before, ns), if e.ns == ns then [e.item] else [], Bucket(c, ns), Items(init, ns));
    }
  }

  /** After every Add, a bucket is empty or shorter than the batch size. */
  lemma {:induction false} BucketsStayShort<T>(s: Settings, events: seq<Event<T>>, ns: string)
    ensures var c := Run(s, Contents(map[], map[]), events);
            Bucket(c, ns) == [] || |Bucket(c, ns)| < s.batchSize
  {
    if events != [] {
      BucketsStayShort(s, events[..|events| - 1], ns);
    }
  }

  function Only<T>(events: seq<Event<T>>, ns: string): seq<Event<T>> {
    if events == [] then []
    else
      var e := events[|events| - 1];
      Only(events[..|events| - 1], ns) + if e.ns == ns then [e] else []
  }

  lemma SameStep<T>(s: Settings, a: Contents<T>, b: Contents<T>, e: Event<T>)
    requires Agree(a, b, e.ns)
    ensures AddTo(s, a, e.ns, e.item, e.clock).batch == AddTo(s, b, e.ns, e.item, e.clock).batch
    ensures Agree(AddTo(s, a, e.ns, e.item, e.clock).contents, AddTo(s, b, e.ns, e.item, e.clock).contents, e.ns)
  {
  }

  /** What happens to a namespace depends on its own Adds alone. */
  lemma {:induction false} NamespacesAreIndependent<T>(s: Settings, c: Contents<T>, events: seq<Event<T>>, ns: string)
    ensures Agree(Run(s, c, events), Run(s, c, Only(events, ns)), ns)
    ensures Delivered(s, c, events, ns) == Delivered(s, c, Only(events, ns), ns)
  {
    if events != [] {
      var init, e := events[..|events| - 1], events[|events| - 1];
      NamespacesAreIndependent(s, c, init, ns);
      if e.ns == ns {
        assert Only(events, ns)[..|Only(events, ns)| - 1] == Only(init, ns);
        SameStep(s, Run(s, c, init), Run(s, c, Only(init, ns)), e);
      } else {
        assert Only(events, ns) == Only(init, ns);
        EmptyRight(Delivered(s, c, init, ns));
        OthersUntouched(s, Run(s, c, init), e, ns);
      }
    }
  }

  // --- the clock ---

  /** The readings of successive Adds never go back. */
  predicate Monotone<T>(events: seq<Event<T>>) {
    && (forall i | 0 <= i < |events| :: events[i].clock.first <= events[i].clock.since <= events[i].clock.flushed)
    && (forall i, j | 0 <= i < j < |events| :: events[i].clock.flushed <= events[j].clock.first)
  }

  /** No flush time lies in the future of the last Add. */
  lemma {:induction false} FlushesAreInThePast<T>(s: Settings, events: seq<Event<T>>, ns: string)
    requires Monotone(events) && events != []
    ensures var c := Run(s, Contents(map[], map[]), events);
            ns in c.lastFlush ==> c.lastFlush[ns] <= events[|events| - 1].clock.flushed
  {
    var init := events[..|events| - 1];
    if init != [] {
      FlushesAreInThePast(s, init, ns);
    }
  }

  /**
   Items are held only while the namespace is young: after any Add to it, either everything was handed out or
   less than the interval has passed since its last flush, or since its first item.
   */
  lemma HeldItemsAreYoung<T>(s: Settings, events: seq<Event<T>>)
    requires Monotone(events) && events != []
    ensures var e, c := events[|events| - 1], Run(s, Contents(map[], map[]), events);
            && e.ns in c.lastFlush
            && (Bucket(c, e.ns) != [] ==> 0 <= e.clock.since - c.lastFlush[e.ns] < s.digestInterval)
  {
    var init, e := events[..|events| - 1], events[|events| - 1];
    if init != [] {
      FlushesAreInThePast(s, init, e.ns);
    }
  }
}
