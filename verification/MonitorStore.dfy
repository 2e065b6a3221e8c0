/**
 The remote monitor store: a growing sequence of monitors with server-assigned ids, on which list,
 create and update are atomic. A subscription sees only the monitors that carry all of its lookup
 tags; that part, without the ids, is its view.
 */
module MonitorStore {
  import opened Wrappers

  datatype Monitor = Monitor(id: int, name: string, query: string, tags: seq<string>, warning: int, critical: int)

  datatype Store = Store(monitors: seq<Monitor>, nextId: int)

  /** A monitor without its server-assigned id. */
  datatype Content = Content(name: string, query: string, tags: seq<string>, warning: int, critical: int)

  predicate Carries(tags: seq<string>, lookup: set<string>) {
    forall t | t in lookup :: t in tags
  }

  /** ListMonitors with a tag filter: the monitors carrying every tag asked for, in store order. */
  function Listed(ms: seq<Monitor>, lookup: set<string>): (r: seq<Monitor>)
    ensures forall m :: m in r <==> m in ms && Carries(m.tags, lookup)
  {
    if ms == [] then []
    else
      var last := ms[|ms| - 1];
      Listed(ms[..|ms| - 1], lookup) + (if Carries(last.tags, lookup) then [last] else [])
  }

  function Create(st: Store, c: Content): Store {
    Store(st.monitors + [Monitor(st.nextId, c.name, c.query, c.tags, c.warning, c.critical)], st.nextId + 1)
  }

  function Rethreshold(m: Monitor, id: int, warning: int, critical: int): Monitor {
    if m.id == id then m.(warning := warning, critical := critical) else m
  }

  function Rewritten(ms: seq<Monitor>, id: int, warning: int, critical: int): seq<Monitor> {
    seq(|ms|, i requires 0 <= i < |ms| => Rethreshold(ms[i], id, warning, critical))
  }

  /** UpdateMonitor: new thresholds for the monitor with this id; everything else is kept. */
  function Update(st: Store, id: int, warning: int, critical: int): Store {
    st.(monitors := Rewritten(st.monitors, id, warning, critical))
  }

  function ContentOf(m: Monitor): Content {
    Content(m.name, m.query, m.tags, m.warning, m.critical)
  }

  function Strip(ms: seq<Monitor>): seq<Content> {
    seq(|ms|, i requires 0 <= i < |ms| => ContentOf(ms[i]))
  }

  function View(st: Store, lookup: set<string>): seq<Content> {
    Strip(Listed(st.monitors, lookup))
  }

  /** existingByName: the id of the last listed monitor of each name. */
  function ByName(listed: seq<Monitor>): (found: map<string, int>)
    ensures forall n :: n in found <==> exists m :: m in listed && m.name == n
  {
    if listed == [] then map[]
    else
      var last := listed[|listed| - 1];
      ByName(listed[..|listed| - 1])[last.name := last.id]
  }

  // --- invariants of the store ---

  predicate DistinctIds(ms: seq<Monitor>) {
    forall p, q | 0 <= p < q < |ms| :: ms[p].id != ms[q].id
  }

  /** Ids are unique and the next one is unused. */
  predicate ValidStore(st: Store) {
    DistinctIds(st.monitors) && forall m | m in st.monitors :: m.id < st.nextId
  }

  /** No monitor carries the tags of both lookups. */
  predicate Exclusive(st: Store, lookup: set<string>, other: set<string>) {
    forall m | m in st.monitors :: !(Carries(m.tags, lookup) && Carries(m.tags, other))
  }

  /** No two monitors of one subscription have the same name. */
  predicate UniqueNames(view: seq<Content>) {
    forall p, q | 0 <= p < q < |view| :: view[p].name != view[q].name
  }

  function Names(view: seq<Content>): set<string> {
    set c | c in view :: c.name
  }

  predicate LastNamed(ms: seq<Monitor>, p: int, n: string) {
    0 <= p < |ms| && ms[p].name == n && forall q | p < q < |ms| :: ms[q].name != n
  }

  /** Every remembered id belongs to the last monitor of its name. */
  ghost predicate Tracks(found: map<string, int>, ms: seq<Monitor>) {
    forall n | n in found :: exists p :: LastNamed(ms, p, n) && ms[p].id == found[n]
  }

  // --- how the operations act on listings and views ---

  lemma StripAppend(ms: seq<Monitor>, m: Monitor)
    ensures Strip(ms + [m]) == Strip(ms) + [ContentOf(m)]
  {
  }

  lemma ListedAppend(ms: seq<Monitor>, m: Monitor, lookup: set<string>)
    ensures Listed(ms + [m], lookup) == Listed(ms, lookup) + (if Carries(m.tags, lookup) then [m] else [])
  {
    assert (ms + [m])[..|ms|] == ms;
  }

  lemma RewrittenAppend(ms: seq<Monitor>, m: Monitor, id: int, w: int, c: int)
    ensures Rewritten(ms + [m], id, w, c) == Rewritten(ms, id, w, c) + [Rethreshold(m, id, w, c)]
  {
  }

  lemma {:induction false} ListedRewritten(ms: seq<Monitor>, id: int, w: int, c: int, lookup: set<string>)
    ensures Listed(Rewritten(ms, id, w, c), lookup) == Rewritten(Listed(ms, lookup), id, w, c)
  {
    if ms != [] {
      var init, last := ms[..|ms| - 1], ms[|ms| - 1];
      ListedRewritten(init, id, w, c, lookup);
      assert ms == init + [last];
      RewrittenAppend(init, last, id, w, c);
      ListedAppend(init, last, lookup);
      ListedAppend(Rewritten(init, id, w, c), Rethreshold(last, id, w, c), lookup);
      if Carries(last.tags, lookup) {
        RewrittenAppend(Listed(init, lookup), last, id, w, c);
      } else {
        EmptyRight(Listed(init, lookup));
      }
    }
  }

  lemma {:induction false} ListedKeepsIdsDistinct(ms: seq<Monitor>, lookup: set<string>)
    requires DistinctIds(ms)
    ensures DistinctIds(Listed(ms, lookup))
  {
    if ms != [] {
      var init, last := ms[..|ms| - 1], ms[|ms| - 1];
      ListedKeepsIdsDistinct(init, lookup);
      var l := Listed(init, lookup);
      forall p | 0 <= p < |l| ensures l[p].id != last.id {
        assert l[p] in init;
      }
    }
  }

  lemma LastNamedAppend(ms: seq<Monitor>, m: Monitor, p: int, n: string)
    requires LastNamed(ms, p, n) && m.name != n
    ensures LastNamed(ms + [m], p, n)
  {
  }

  lemma {:induction false} ByNameIsLast(listed: seq<Monitor>, n: string) returns (p: int)
    requires n in ByName(listed)
    ensures LastNamed(listed, p, n) && listed[p].id == ByName(listed)[n]
  {
    var init, last := listed[..|listed| - 1], listed[|listed| - 1];
    if n == last.name {
      p := |init|;
    } else {
      p := ByNameIsLast(init, n);
      LastNamedAppend(init, last, p, n);
      assert listed == init + [last];
    }
  }

  lemma ByNameTracks(listed: seq<Monitor>)
    ensures Tracks(ByName(listed), listed)
  {
    forall n | n in ByName(listed) ensures exists p :: LastNamed(listed, p, n) && listed[p].id == ByName(listed)[n] {
      var p := ByNameIsLast(listed, n);
    }
  }

  lemma TracksAppend(found: map<string, int>, ms: seq<Monitor>, m: Monitor)
    requires Tracks(found, ms) && m.name !in found
    ensures Tracks(found, ms + [m])
  {
    forall n | n in found ensures exists p :: LastNamed(ms + [m], p, n) && (ms + [m])[p].id == found[n] {
      var p :| LastNamed(ms, p, n) && ms[p].id == found[n];
      assert LastNamed(ms + [m], p, n);
    }
  }

  lemma TracksRewritten(found: map<string, int>, ms: seq<Monitor>, id: int, w: int, c: int)
    requires Tracks(found, ms)
    ensures Tracks(found, Rewritten(ms, id, w, c))
  {
    var ms' := Rewritten(ms, id, w, c);
    forall n | n in found ensures exists p :: LastNamed(ms', p, n) && ms'[p].id == found[n] {
      var p :| LastNamed(ms, p, n) && ms[p].id == found[n];
      assert LastNamed(ms', p, n);
    }
  }

  /** The view-level counterpart of Update: new thresholds for the last monitor of this name. */
  function UpdateLast(view: seq<Content>, n: string, warning: int, critical: int): seq<Content> {
    if view == [] then []
    else
      var init, last := view[..|view| - 1], view[|view| - 1];
      if last.name == n
      then init + [last.(warning := warning, critical := critical)]
      else UpdateLast(init, n, warning, critical) + [last]
  }

  lemma {:induction false} UpdateLastShape(view: seq<Content>, n: string, w: int, c: int)
    ensures |UpdateLast(view, n, w, c)| == |view|
    ensures forall p | 0 <= p < |view| ::
              var x := UpdateLast(view, n, w, c)[p];
              x == view[p] || (view[p].name == n && x == view[p].(warning := w, critical := c))
    ensures Names(UpdateLast(view, n, w, c)) == Names(view)
  {
    if view != [] {
      UpdateLastShape(view[..|view| - 1], n, w, c);
      var u := UpdateLast(view, n, w, c);
      assert forall p | 0 <= p < |view| :: u[p].name == view[p].name;
      forall x ensures x in Names(u) <==> x in Names(view) {
        if x in Names(u) {
          var p :| 0 <= p < |u| && u[p].name == x;
          assert view[p] in view;
        }
        if x in Names(view) {
          var p :| 0 <= p < |view| && view[p].name == x;
          assert u[p] in u;
        }
      }
    }
  }

  lemma {:induction false} RewriteActsOnLast(ms: seq<Monitor>, p: int, n: string, w: int, c: int)
    requires DistinctIds(ms) && LastNamed(ms, p, n)
    ensures Strip(Rewritten(ms, ms[p].id, w, c)) == UpdateLast(Strip(ms), n, w, c)
  {
    var init, last, id := ms[..|ms| - 1], ms[|ms| - 1], ms[p].id;
    assert Strip(ms)[..|ms| - 1] == Strip(init);
    assert Strip(Rewritten(ms, id, w, c))
        == Strip(Rewritten(init, id, w, c)) + [ContentOf(Rethreshold(last, id, w, c))];
    if p == |ms| - 1 {
      assert Rewritten(init, id, w, c) == init;
    } else {
      assert init[p] == ms[p];
      RewriteActsOnLast(init, p, n, w, c);
    }
  }

  lemma NamesOfListed(st: Store, lookup: set<string>)
    ensures ByName(Listed(st.monitors, lookup)).Keys == Names(View(st, lookup))
  {
    var l := Listed(st.monitors, lookup);
    var v := Strip(l);
    forall n ensures n in ByName(l) <==> n in Names(v) {
      if n in ByName(l) {
        var p :| 0 <= p < |l| && l[p].name == n;
        assert v[p] in v;
      }
      if n in Names(v) {
        var p :| 0 <= p < |v| && v[p].name == n;
        assert l[p] in l;
      }
    }
  }

  lemma ValidAfterUpdate(st: Store, id: int, w: int, c: int)
    requires ValidStore(st)
    ensures ValidStore(Update(st, id, w, c))
  {
    var ms' := Update(st, id, w, c).monitors;
    forall m | m in ms' ensures m.id < st.nextId {
      var p :| 0 <= p < |ms'| && ms'[p] == m;
      assert st.monitors[p] in st.monitors;
    }
  }

  // --- names ---

  lemma NamesConcat(a: seq<Content>, b: seq<Content>)
    ensures Names(a + b) == Names(a) + Names(b)
  {
    forall n | n in Names(a) + Names(b) ensures n in Names(a + b) {
      if n in Names(a) {
        var m :| m in a && m.name == n;
        assert m in a + b;
      } else {
        var m :| m in b && m.name == n;
        assert m in a + b;
      }
    }
  }

  lemma RewrittenKeepsNames(ms: seq<Monitor>, id: int, w: int, c: int)
    ensures Names(Strip(Rewritten(ms, id, w, c))) == Names(Strip(ms))
    ensures UniqueNames(Strip(ms)) ==> UniqueNames(Strip(Rewritten(ms, id, w, c)))
  {
    var v, v' := Strip(ms), Strip(Rewritten(ms, id, w, c));
    assert forall p | 0 <= p < |ms| :: v'[p].name == v[p].name;
    forall n ensures n in Names(v) <==> n in Names(v') {
      if n in Names(v) {
        var p :| 0 <= p < |v| && v[p].name == n;
        assert v'[p] in v';
      }
      if n in Names(v') {
        var p :| 0 <= p < |v'| && v'[p].name == n;
        assert v[p] in v;
      }
    }
  }

  lemma AppendNamed(view: seq<Content>, c: Content)
    ensures Names(view + [c]) == Names(view) + {c.name}
    ensures UniqueNames(view + [c]) <==> UniqueNames(view) && c.name !in Names(view)
  {
    var v := view + [c];
    assert c in v;
    assert forall x :: x in v <==> x in view || x == c;
    assert forall p | 0 <= p < |view| :: v[p] == view[p] && view[p].name in Names(view);
    if c.name in Names(view) {
      var p :| 0 <= p < |view| && view[p].name == c.name;
      assert v[p].name == v[|view|].name;
    }
    if UniqueNames(v) {
      forall p, q | 0 <= p < q < |view| ensures view[p].name != view[q].name {
        assert v[p].name != v[q].name;
      }
    }
  }

  /** The view after one more monitor in the store. */
  lemma ViewAppend(ms: seq<Monitor>, m: Monitor, lookup: set<string>)
    ensures Strip(Listed(ms + [m], lookup))
            == Strip(Listed(ms, lookup)) + if Carries(m.tags, lookup) then [ContentOf(m)] else []
  {
    var l := Listed(ms, lookup);
    ListedAppend(ms, m, lookup);
    if Carries(m.tags, lookup) {
      StripAppend(l, m);
    } else {
      EmptyRight(l);
      EmptyRight(Strip(l));
    }
  }

  // --- the monitors of one name ---

  function OfName(view: seq<Content>, n: string): seq<Content> {
    if view == [] then []
    else
      var last := view[|view| - 1];
      OfName(view[..|view| - 1], n) + if last.name == n then [last] else []
  }

  lemma OfNameAppend(view: seq<Content>, x: Content, n: string)
    ensures OfName(view + [x], n) == OfName(view, n) + if x.name == n then [x] else []
  {
    assert (view + [x])[..|view|] == view;
  }

  lemma {:induction false} OfNameEmpty(view: seq<Content>, n: string)
    ensures OfName(view, n) == [] <==> n !in Names(view)
    ensures forall x | x in OfName(view, n) :: x.name == n
  {
    if view != [] {
      var init, last := view[..|view| - 1], view[|view| - 1];
      OfNameEmpty(init, n);
      assert view == init + [last];
      AppendNamed(init, last);
      if last.name != n {
        EmptyRight(OfName(init, n));
      }
    }
  }

  /** The last one with new thresholds, the others as they are. */
  function LastThresholded(ms: seq<Content>, warning: int, critical: int): seq<Content>
    requires ms != []
  {
    ms[..|ms| - 1] + [ms[|ms| - 1].(warning := warning, critical := critical)]
  }

  lemma {:induction false} OfNameUpdateOther(view: seq<Content>, n: string, w: int, c: int, m: string)
    requires m != n
    ensures OfName(UpdateLast(view, n, w, c), m) == OfName(view, m)
  {
    if view != [] {
      var init, last := view[..|view| - 1], view[|view| - 1];
      if last.name == n {
        OfNameAppend(init, last.(warning := w, critical := c), m);
      } else {
        OfNameUpdateOther(init, n, w, c, m);
        OfNameAppend(UpdateLast(init, n, w, c), last, m);
      }
    }
  }

  lemma {:induction false} OfNameUpdateLast(view: seq<Content>, n: string, w: int, c: int)
    requires OfName(view, n) != []
    ensures OfName(UpdateLast(view, n, w, c), n) == LastThresholded(OfName(view, n), w, c)
  {
    var init, last := view[..|view| - 1], view[|view| - 1];
    if last.name == n {
      OfNameAppend(init, last.(warning := w, critical := c), n);
    } else {
      EmptyRight(OfName(init, n));
      OfNameUpdateLast(init, n, w, c);
      OfNameAppend(UpdateLast(init, n, w, c), last, n);
      EmptyRight(OfName(UpdateLast(init, n, w, c), n));
    }
  }
}
