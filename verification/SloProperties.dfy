/** One SLO per resource, its identity over time, and quiescence. */
module SloProperties {
  import opened Wrappers
  import opened Slo

  predicate DistinctIds(slos: seq<Stored>) {
    forall p, q | 0 <= p < q < |slos| :: slos[p].id != slos[q].id
  }

  predicate ValidStore(st: Store) {
    DistinctIds(st.slos) && forall p | 0 <= p < |st.slos| :: st.slos[p].id < st.nextId
  }

  /** An SLO names at most one resource. */
  predicate OneOwner(s: Stored) {
    forall t, u | t in s.tags && u in s.tags && IsUidTag(t) && IsUidTag(u) :: t == u
  }

  /** At most one SLO carries the tag. */
  predicate AtMostOne(st: Store, tag: string) {
    forall p, q | 0 <= p < q < |st.slos| :: !(tag in st.slos[p].tags && tag in st.slos[q].tags)
  }

  /** The whole invariant: valid ids, one owner per SLO and one SLO per owner. */
  ghost predicate OneToOne(st: Store) {
    && ValidStore(st)
    && (forall p | 0 <= p < |st.slos| :: OneOwner(st.slos[p]))
    && (forall uid :: AtMostOne(st, UidTag(uid)))
  }

  /** Every uid tag of the spec is the resource's own. */
  predicate OwnTags(spec: Spec, uid: string) {
    forall t | t in spec.tags && IsUidTag(t) :: t == UidTag(uid)
  }

  /** The uid that the update path extracts is the owner's. */
  lemma {:induction false} LastUidIsOwner(tags: seq<string>, uid: string)
    requires UidTag(uid) in tags
    requires forall t | t in tags && IsUidTag(t) :: t == UidTag(uid)
    ensures LastUid(tags) == uid
  {
    var last := tags[|tags| - 1];
    if IsUidTag(last) {
      assert last in tags && uid == UidTag(uid)[|UID_PREFIX|..];
    } else {
      assert UidTag(uid) in tags[..|tags| - 1] by {
        assert IsUidTag(UidTag(uid));
      }
      LastUidIsOwner(tags[..|tags| - 1], uid);
    }
  }

  /** A built SLO carries its resource's tag, and no other uid tag exactly when the spec brings none. */
  lemma BuiltTags(spec: Spec, uid: string, framework: string)
    ensures UidTag(uid) in BuildSLO(spec, uid, framework).tags
    ensures (forall t | t in BuildSLO(spec, uid, framework).tags && IsUidTag(t) :: t == UidTag(uid))
            <==> OwnTags(spec, uid)
  {
    var tags := BuildSLO(spec, uid, framework).tags;
    assert tags[1] == UidTag(uid);
    assert MANAGED_BY[0] == 'm' && UID_PREFIX[0] == 't';
    assert !IsUidTag(MANAGED_BY);
    assert forall t :: t in tags <==> t == MANAGED_BY || t == UidTag(uid) || t in spec.tags;
  }

  // --- what creating and updating do to the invariant ---

  /** Where the resource's SLO is, if it has one. */
  lemma Locate(st: Store, uid: string) returns (p: nat)
    requires FindIn(st.slos, UidTag(uid)).Some?
    ensures p < |st.slos| && st.slos[p] == FindIn(st.slos, UidTag(uid)).value && UidTag(uid) in st.slos[p].tags
  {
    p :| 0 <= p < |st.slos| && st.slos[p] == FindIn(st.slos, UidTag(uid)).value;
  }

  lemma CreateAtMostOne(st: Store, slo: Model, tag: string)
    requires AtMostOne(st, tag)
    ensures AtMostOne(CreateSLO(st, slo), tag) <==> tag !in slo.tags || FindIn(st.slos, tag).None?
  {
    var st', n := CreateSLO(st, slo), |st.slos|;
    assert st'.slos[n].tags == slo.tags;
    assert forall p | 0 <= p < n :: st'.slos[p] == st.slos[p] && st.slos[p] in st.slos;
    if FindIn(st.slos, tag).Some? {
      var p :| 0 <= p < n && st.slos[p] == FindIn(st.slos, tag).value;
      assert tag in st'.slos[p].tags;
    }
  }

  lemma CreateKeepsOneToOne(st: Store, slo: Model, uid: string)
    requires OneToOne(st) && FindIn(st.slos, UidTag(uid)).None?
    requires forall t | t in slo.tags && IsUidTag(t) :: t == UidTag(uid)
    ensures OneToOne(CreateSLO(st, slo))
  {
    var st', n := CreateSLO(st, slo), |st.slos|;
    assert st'.slos[n].tags == slo.tags;
    assert forall p | 0 <= p < n :: st'.slos[p] == st.slos[p];
    forall other ensures AtMostOne(st', UidTag(other)) {
      assert AtMostOne(st, UidTag(other)) && IsUidTag(UidTag(other));
      CreateAtMostOne(st, slo, UidTag(other));
    }
  }

  lemma CreateOneToOne(st: Store, spec: Spec, uid: string, framework: string)
    requires OneToOne(st)
    ensures var st' := CreateSLO(st, BuildSLO(spec, uid, framework));
            && UidTag(uid) in st'.slos[|st.slos|].tags
            && (AtMostOne(st', UidTag(uid)) <==> FindIn(st.slos, UidTag(uid)).None?)
            && (OneToOne(st') <==> FindIn(st.slos, UidTag(uid)).None? && OwnTags(spec, uid))
  {
    var slo := BuildSLO(spec, uid, framework);
    var st', n := CreateSLO(st, slo), |st.slos|;
    BuiltTags(spec, uid, framework);
    assert AtMostOne(st, UidTag(uid)) && IsUidTag(UidTag(uid));
    CreateAtMostOne(st, slo, UidTag(uid));
    if FindIn(st.slos, UidTag(uid)).Some? {
      assert !AtMostOne(st', UidTag(uid));
    } else if OwnTags(spec, uid) {
      CreateKeepsOneToOne(st, slo, uid);
    } else {
      assert st'.slos[n].tags == slo.tags && !OneOwner(st'.slos[n]);
    }
  }

  lemma UpdateOneToOne(st: Store, p: nat, spec: Spec, uid: string, framework: string)
    requires OneToOne(st) && p < |st.slos| && UidTag(uid) in st.slos[p].tags
    ensures var slo := BuildSLO(spec, LastUid(st.slos[p].tags), framework);
            var st' := UpdateSLO(st, st.slos[p].id, slo);
            && st'.slos == st.slos[p := Rewrite(st.slos[p], st.slos[p].id, slo)]
            && UidTag(uid) in st'.slos[p].tags && AtMostOne(st', UidTag(uid))
            && (OneToOne(st') <==> OwnTags(spec, uid))
  {
    assert IsUidTag(UidTag(uid)) && OneOwner(st.slos[p]);
    LastUidIsOwner(st.slos[p].tags, uid);
    var slo := BuildSLO(spec, uid, framework);
    var st' := UpdateSLO(st, st.slos[p].id, slo);
    BuiltTags(spec, uid, framework);
    assert st'.slos[p].tags == slo.tags;
    assert forall q | 0 <= q < |st.slos| && q != p :: st'.slos[q] == st.slos[q];
    assert AtMostOne(st, UidTag(uid));
    if OwnTags(spec, uid) {
      forall other ensures AtMostOne(st', UidTag(other)) {
        assert AtMostOne(st, UidTag(other)) && IsUidTag(UidTag(other));
      }
    } else {
      assert !OneOwner(st'.slos[p]);
    }
  }

  lemma FindsTheOne(st: Store, uid: string, p: nat)
    requires AtMostOne(st, UidTag(uid)) && p < |st.slos| && UidTag(uid) in st.slos[p].tags
    ensures FindIn(st.slos, UidTag(uid)) == Some(st.slos[p])
  {
    assert st.slos[p] in st.slos;
    var q :| 0 <= q < |st.slos| && st.slos[q] == FindIn(st.slos, UidTag(uid)).value;
    assert q == p || q < p || p < q;
  }

  /** x is the id of an SLO of the resource. */
  ghost predicate Owns(st: Store, uid: string, x: int) {
    exists p :: 0 <= p < |st.slos| && st.slos[p].id == x && UidTag(uid) in st.slos[p].tags
  }

  /** A lookup that works finds the resource's SLO through path A or path B alike. */
  lemma FoundThrough(st: Store, r: Resource, replies: Replies)
    requires replies.findB
    ensures Found(st, r, replies) == FindIn(st.slos, UidTag(r.uid))
  {
  }

  /** The reconcile changes the remote store: it updates what it found, or creates what it did not find. */
  predicate TakesEffect(st: Store, r: Resource, replies: Replies, requireService: bool) {
    var found := Found(st, r, replies);
    if found.Some? then NeedsUpdate(Decode(found.value), r.spec) && replies.update.None?
    else (requireService ==> replies.serviceKnown) && replies.create.None?
  }

  /** The SLO at p stays its owner's when it is checked and, if need be, updated, and nobody else loses one. */
  lemma UpdateKeeps(st: Store, r: Resource, p: nat, failure: Option<string>)
    requires OneToOne(st) && p < |st.slos| && UidTag(r.uid) in st.slos[p].tags
    ensures var o := CheckAndUpdate(st, st.slos[p], r.spec, failure);
            && AtMostOne(o.store, UidTag(r.uid)) && Owns(o.store, r.uid, st.slos[p].id)
            && (forall uid, x | Owns(st, uid, x) :: Owns(o.store, uid, x))
            && (OneToOne(o.store) <==>
                  !(NeedsUpdate(Decode(st.slos[p]), r.spec) && failure.None?) || OwnTags(r.spec, r.uid))
  {
    var o, tag := CheckAndUpdate(st, st.slos[p], r.spec, failure), UidTag(r.uid);
    UpdateOneToOne(st, p, r.spec, r.uid, r.spec.sloType);
    assert AtMostOne(st, tag) && o.store.slos[p].id == st.slos[p].id;
    forall uid, x | Owns(st, uid, x) ensures Owns(o.store, uid, x) {
      var q :| 0 <= q < |st.slos| && st.slos[q].id == x && UidTag(uid) in st.slos[q].tags;
      assert q == p ==> UidTag(uid) == tag by {
        assert OneOwner(st.slos[p]) && IsUidTag(UidTag(uid)) && IsUidTag(tag);
      }
      assert o.store.slos[q].id == x;
    }
  }

  lemma CreateKeeps(st: Store, r: Resource, framework: string)
    requires OneToOne(st)
    ensures var st' := CreateSLO(st, BuildSLO(r.spec, r.uid, framework));
            && Owns(st', r.uid, st.nextId)
            && (forall uid, x | Owns(st, uid, x) :: Owns(st', uid, x))
            && (OneToOne(st') <==> FindIn(st.slos, UidTag(r.uid)).None? && OwnTags(r.spec, r.uid))
  {
    var st' := CreateSLO(st, BuildSLO(r.spec, r.uid, framework));
    CreateOneToOne(st, r.spec, r.uid, framework);
    assert st'.slos[|st.slos|].id == st.nextId;
    forall uid, x | Owns(st, uid, x) ensures Owns(st', uid, x) {
      var q :| 0 <= q < |st.slos| && st.slos[q].id == x && UidTag(uid) in st.slos[q].tags;
      assert st'.slos[q] == st.slos[q];
    }
  }

  lemma OwnsOnlyFound(st: Store, uid: string, x: int)
    requires AtMostOne(st, UidTag(uid)) && Owns(st, uid, x)
    ensures FindIn(st.slos, UidTag(uid)).Some? && FindIn(st.slos, UidTag(uid)).value.id == x
  {
    var q :| 0 <= q < |st.slos| && st.slos[q].id == x && UidTag(uid) in st.slos[q].tags;
    FindsTheOne(st, uid, q);
  }

  lemma FoundIsFind(st: Store, r: Resource, replies: Replies)
    ensures Found(st, r, replies).Some? ==> Found(st, r, replies) == FindIn(st.slos, UidTag(r.uid))
  {
  }

  /**
   A reconcile keeps the invariant exactly when it does not change the store, or every uid tag of the spec is the
   resource's own and it does not create an SLO for a resource that has one.
   */
  lemma InvariantKeptIff(st: Store, r: Resource, replies: Replies, requireService: bool)
    requires OneToOne(st)
    ensures var o := Reconcile(st, r, replies, requireService);
            && (!TakesEffect(st, r, replies, requireService) ==> o.store == st)
            && (OneToOne(o.store) <==>
                  || !TakesEffect(st, r, replies, requireService)
                  || (OwnTags(r.spec, r.uid)
                      && (Found(st, r, replies).Some? || FindIn(st.slos, UidTag(r.uid)).None?)))
  {
    FoundIsFind(st, r, replies);
    if Found(st, r, replies).Some? {
      var p := Locate(st, r.uid);
      UpdateKeeps(st, r, p, replies.update);
    } else {
      CreateKeeps(st, r, DetectFramework(r, replies.framework));
    }
  }

  /**
   One reconcile, with path B working: no resource loses its SLO, the resource has at most one, a synced status
   names it, and it is the one the resource already had if any. The invariant is kept exactly when the store is not
   changed or the spec brings no foreign uid tag.
   */
  lemma ReconcileKeeps(st: Store, r: Resource, replies: Replies, requireService: bool)
    requires OneToOne(st) && replies.findB
    ensures var o := Reconcile(st, r, replies, requireService);
            && (OneToOne(o.store) <==> !TakesEffect(st, r, replies, requireService) || OwnTags(r.spec, r.uid))
            && AtMostOne(o.store, UidTag(r.uid))
            && (forall uid, x | Owns(st, uid, x) :: Owns(o.store, uid, x))
            && (o.status.Ok? && o.status.value.state.Synced? ==>
                  && o.status.value.sloID.Some? && Owns(o.store, r.uid, o.status.value.sloID.value)
                  && forall x | Owns(st, r.uid, x) :: x == o.status.value.sloID.value)
  {
    FoundThrough(st, r, replies);
    InvariantKeptIff(st, r, replies, requireService);
    assert AtMostOne(st, UidTag(r.uid));
    forall x | Owns(st, r.uid, x)
      ensures FindIn(st.slos, UidTag(r.uid)).Some? && FindIn(st.slos, UidTag(r.uid)).value.id == x
    {
      OwnsOnlyFound(st, r.uid, x);
    }
    if FindIn(st.slos, UidTag(r.uid)).Some? {
      var p := Locate(st, r.uid);
      UpdateKeeps(st, r, p, replies.update);
    } else {
      CreateOneToOne(st, r.spec, r.uid, DetectFramework(r, replies.framework));
      CreateKeeps(st, r, DetectFramework(r, replies.framework));
    }
  }

  // --- runs ---

  /** The cluster's resources by uid, and the remote store. */
  datatype World = World(store: Store, resources: map<string, Resource>)

  /** Reconciles, and everything others may do in between. */
  datatype Event =
    | Reconciled(uid: string, replies: Replies, requireService: bool)
    | Edited(uid: string, spec: Spec)
    | Applied(resource: Resource)
    | Deleted(uid: string)
    | Removed(id: int)

  function Without(slos: seq<Stored>, id: int): (r: seq<Stored>)
    ensures forall s :: s in r <==> s in slos && s.id != id
  {
    if slos == [] then []
    else
      var last := slos[|slos| - 1];
      Without(slos[..|slos| - 1], id) + if last.id == id then [] else [last]
  }

  function After(w: World, e: Event): World {
    match e
    case Reconciled(uid, replies, req) =>
      if uid !in w.resources then w
      else
        var step := Control(w.store, w.resources[uid], replies, req);
        World(step.store, w.resources[uid := step.resource])
    case Edited(uid, spec) =>
      if uid !in w.resources then w else w.(resources := w.resources[uid := w.resources[uid].(spec := spec)])
    case Applied(r) => w.(resources := w.resources[r.uid := r])
    case Deleted(uid) => w.(resources := w.resources - {uid})
    case Removed(id) => w.(store := w.store.(slos := Without(w.store.slos, id)))
  }

  function Replay(w: World, events: seq<Event>): World
    decreases |events|
  {
    if events == [] then w else Replay(After(w, events[0]), events[1..])
  }

  /** Path B never fails, and nobody puts another resource's uid tag into a spec. */
  predicate Fair(e: Event) {
    match e
    case Reconciled(_, replies, _) => replies.findB
    case Edited(uid, spec) => OwnTags(spec, uid)
    case Applied(r) => OwnTags(r.spec, r.uid)
    case Deleted(_) => true
    case Removed(_) => true
  }

  ghost predicate GoodWorld(w: World) {
    && OneToOne(w.store)
    && forall uid | uid in w.resources :: w.resources[uid].uid == uid && OwnTags(w.resources[uid].spec, uid)
  }

  /** Removing an SLO keeps the rest in order: each survivor has its own place before. */
  lemma {:induction false} WithoutOrder(slos: seq<Stored>, id: int, p: nat, q: nat) returns (p0: nat, q0: nat)
    requires p < q < |Without(slos, id)|
    ensures p0 < q0 < |slos| && slos[p0] == Without(slos, id)[p] && slos[q0] == Without(slos, id)[q]
  {
    var init, last := slos[..|slos| - 1], slos[|slos| - 1];
    var r := Without(init, id);
    if q < |r| {
      p0, q0 := WithoutOrder(init, id, p, q);
    } else {
      q0 := |init|;
      assert r[p] in init;
      p0 :| 0 <= p0 < |init| && init[p0] == r[p];
    }
  }

  lemma RemoveKeeps(st: Store, id: int)
    requires OneToOne(st)
    ensures OneToOne(st.(slos := Without(st.slos, id)))
    ensures forall uid, x | Owns(st, uid, x) && x != id :: Owns(st.(slos := Without(st.slos, id)), uid, x)
  {
    var st' := st.(slos := Without(st.slos, id));
    forall p, q | 0 <= p < q < |st'.slos| ensures st'.slos[p].id != st'.slos[q].id {
      var p0, q0 := WithoutOrder(st.slos, id, p, q);
    }
    forall uid ensures AtMostOne(st', UidTag(uid)) {
      assert AtMostOne(st, UidTag(uid));
      forall p, q | 0 <= p < q < |st'.slos|
        ensures !(UidTag(uid) in st'.slos[p].tags && UidTag(uid) in st'.slos[q].tags)
      {
        var p0, q0 := WithoutOrder(st.slos, id, p, q);
      }
    }
    forall p | 0 <= p < |st'.slos| ensures OneOwner(st'.slos[p]) && st'.slos[p].id < st'.nextId {
      assert st'.slos[p] in st.slos;
      var q :| 0 <= q < |st.slos| && st.slos[q] == st'.slos[p];
    }
    forall uid, x | Owns(st, uid, x) && x != id ensures Owns(st', uid, x) {
      var q :| 0 <= q < |st.slos| && st.slos[q].id == x && UidTag(uid) in st.slos[q].tags;
      assert st.slos[q] in st'.slos;
      var p :| 0 <= p < |st'.slos| && st'.slos[p] == st.slos[q];
    }
  }

  lemma EventKeeps(w: World, e: Event)
    requires GoodWorld(w) && Fair(e)
    ensures GoodWorld(After(w, e))
    ensures forall uid, x | Owns(w.store, uid, x) && e != Removed(x) :: Owns(After(w, e).store, uid, x)
  {
    match e {
      case Reconciled(uid, replies, req) =>
        if uid in w.resources && Invalid(w.resources[uid].spec).None? {
          ReconcileKeeps(w.store, w.resources[uid], replies, req);
        }
      case Edited(_, _) =>
      case Applied(_) =>
      case Deleted(_) =>
      case Removed(id) => RemoveKeeps(w.store, id);
    }
  }

  /**
   Over every run of reconciles, edits, deletions and SLOs removed by hand, with any failures but those
   of path B: at most one SLO carries each resource's tag, and an SLO stays its resource's until it is
   removed.
   */
  lemma {:induction false} AtMostOneForever(w: World, events: seq<Event>)
    requires GoodWorld(w) && forall e | e in events :: Fair(e)
    ensures GoodWorld(Replay(w, events))
    ensures forall uid, x | Owns(w.store, uid, x) && Removed(x) !in events :: Owns(Replay(w, events).store, uid, x)
    decreases |events|
  {
    if events != [] {
      assert events[0] in events;
      EventKeeps(w, events[0]);
      AtMostOneForever(After(w, events[0]), events[1..]);
    }
  }

  /** A synced status has an id, and an id names an SLO of the resource. */
  ghost predicate Names(st: Store, uid: string, status: Status) {
    && (status.state.Synced? ==> status.sloID.Some?)
    && (status.sloID.Some? ==> Owns(st, uid, status.sloID.value))
  }

  ghost predicate Named(w: World, uid: string) {
    uid in w.resources ==> Names(w.store, uid, w.resources[uid].status)
  }

  /** The event does not remove the very SLO the resource's status names, nor bring a synced status of its own. */
  predicate Undisturbed(w: World, e: Event, uid: string) {
    match e
    case Removed(x) => uid in w.resources ==> w.resources[uid].status.sloID != Some(x)
    case Applied(r) => r.uid == uid ==> r.status.sloID.None? && !r.status.state.Synced?
    case _ => true
  }

  predicate NeverDisturbed(w: World, events: seq<Event>, uid: string)
    decreases |events|
  {
    events == [] || (Undisturbed(w, events[0], uid) && NeverDisturbed(After(w, events[0]), events[1..], uid))
  }

  lemma ControlKeepsNamed(st: Store, r: Resource, replies: Replies, req: bool)
    requires OneToOne(st) && replies.findB
    requires Names(st, r.uid, r.status)
    ensures var step := Control(st, r, replies, req); Names(step.store, r.uid, step.resource.status)
  {
    ReconcileKeeps(st, r, replies, req);
  }

  lemma EventKeepsNamed(w: World, e: Event, uid: string)
    requires GoodWorld(w) && Named(w, uid) && Fair(e) && Undisturbed(w, e, uid)
    ensures GoodWorld(After(w, e)) && Named(After(w, e), uid)
  {
    EventKeeps(w, e);
    var w' := After(w, e);
    if uid in w'.resources && e.Reconciled? && e.uid == uid {
      ControlKeepsNamed(w.store, w.resources[uid], e.replies, e.requireService);
    }
  }

  /** A synced status always names an SLO of its resource, unless that very SLO is removed by hand. */
  lemma {:induction false} StatusStaysNamed(w: World, events: seq<Event>, uid: string)
    requires GoodWorld(w) && Named(w, uid) && NeverDisturbed(w, events, uid)
    requires forall e | e in events :: Fair(e)
    ensures Named(Replay(w, events), uid)
    decreases |events|
  {
    if events != [] {
      assert events[0] in events;
      EventKeepsNamed(w, events[0], uid);
      StatusStaysNamed(After(w, events[0]), events[1..], uid);
    }
  }

  /** A reconcile of a resource that owns x, with working lookups, reports x or was stopped while updating it. */
  lemma OwnerIsReported(st: Store, r: Resource, x: int, replies: Replies, req: bool)
    requires OneToOne(st) && replies.findB && Owns(st, r.uid, x)
    ensures var o := Reconcile(st, r, replies, req);
            && (o.status.Ok? && o.status.value.state.Synced? ==> o.status.value.sloID == Some(x))
            && (o.status.Err? ==> o.writes != [] && o.writes[0].Updated? && o.writes[0].id == x)
  {
    var p :| 0 <= p < |st.slos| && st.slos[p].id == x && UidTag(r.uid) in st.slos[p].tags;
    assert AtMostOne(st, UidTag(r.uid));
    FindsTheOne(st, r.uid, p);
    FoundThrough(st, r, replies);
  }

  /**
   Orphan recovery. Once a reconcile of the resource has synced with id x, then whatever happens later
   short of removing x (error statuses that erase the id, edits, even deleting and re-applying the
   resource), every later synced reconcile reports x again.
   */
  lemma IdentitySurvives(w: World, uid: string, replies: Replies, req: bool, events: seq<Event>,
                         replies2: Replies, req2: bool)
    requires GoodWorld(w) && uid in w.resources && replies.findB && replies2.findB
    requires Invalid(w.resources[uid].spec).None?
    requires var o := Reconcile(w.store, w.resources[uid], replies, req);
             o.status.Ok? && o.status.value.state.Synced?
    requires var x := Reconcile(w.store, w.resources[uid], replies, req).status.value.sloID;
             x.Some? ==> Removed(x.value) !in events
    requires forall e | e in events :: Fair(e)
    requires uid in Replay(After(w, Reconciled(uid, replies, req)), events).resources
    ensures var x := Reconcile(w.store, w.resources[uid], replies, req).status.value.sloID;
            var w2 := Replay(After(w, Reconciled(uid, replies, req)), events);
            var o2 := Reconcile(w2.store, w2.resources[uid], replies2, req2);
            && x.Some? && Owns(w2.store, uid, x.value)
            && (o2.status.Ok? && o2.status.value.state.Synced? ==> o2.status.value.sloID == x)
            && (o2.status.Err? ==> o2.writes != [] && o2.writes[0].Updated? && o2.writes[0].id == x.value)
  {
    var x := Reconcile(w.store, w.resources[uid], replies, req).status.value.sloID;
    var w1 := After(w, Reconciled(uid, replies, req));
    assert x.Some? && Owns(w1.store, uid, x.value) by {
      ReconcileKeeps(w.store, w.resources[uid], replies, req);
    }
    EventKeeps(w, Reconciled(uid, replies, req));
    AtMostOneForever(w1, events);
    var w2 := Replay(w1, events);
    OwnerIsReported(w2.store, w2.resources[uid], x.value, replies2, req2);
  }

  /**
   Exactly when a reconcile leaves a resource with two SLOs: it has one, no lookup that is made succeeds, and the
   create goes through.
   */
  lemma DuplicateIff(st: Store, r: Resource, replies: Replies, req: bool)
    requires OneToOne(st)
    ensures !AtMostOne(Reconcile(st, r, replies, req).store, UidTag(r.uid)) <==>
            && FindIn(st.slos, UidTag(r.uid)).Some?
            && !replies.findB && (r.status.sloID.None? || !replies.findA)
            && (req ==> replies.serviceKnown) && replies.create.None?
  {
    assert AtMostOne(st, UidTag(r.uid));
    if Found(st, r, replies).Some? {
      FoundIsFind(st, r, replies);
      var p := Locate(st, r.uid);
      UpdateKeeps(st, r, p, replies.update);
    } else {
      CreateOneToOne(st, r.spec, r.uid, DetectFramework(r, replies.framework));
    }
  }

  /** A foreign uid tag of a spec makes the new SLO answer another resource's lookup. */
  lemma ImpersonationDuplicates(st: Store, r: Resource, replies: Replies, req: bool, other: string)
    requires FindIn(st.slos, UidTag(r.uid)).None? && TakesEffect(st, r, replies, req)
    requires UidTag(other) in r.spec.tags && FindIn(st.slos, UidTag(other)).Some?
    ensures !AtMostOne(Reconcile(st, r, replies, req).store, UidTag(other))
  {
    var p := Locate(st, other);
    var st' := Reconcile(st, r, replies, req).store;
    assert UidTag(other) in st'.slos[p].tags && UidTag(other) in st'.slos[|st.slos|].tags;
  }

  /** An update leaves an SLO to its owner exactly when the last uid tag, or the new spec, names the owner. */
  lemma OwnerKeptIff(existing: Stored, spec: Spec, uid: string, framework: string)
    ensures UidTag(uid) in Rewrite(existing, existing.id, BuildSLO(spec, LastUid(existing.tags), framework)).tags
            <==> LastUid(existing.tags) == uid || UidTag(uid) in spec.tags
  {
    var tags := BuildSLO(spec, LastUid(existing.tags), framework).tags;
    assert MANAGED_BY[0] == 'm' && UidTag(uid)[0] == UID_PREFIX[0] == 't';
    assert forall t :: t in tags <==> t == MANAGED_BY || t == UidTag(LastUid(existing.tags)) || t in spec.tags;
    if UidTag(uid) == UidTag(LastUid(existing.tags)) {
      assert uid == UidTag(uid)[|UID_PREFIX|..] == UidTag(LastUid(existing.tags))[|UID_PREFIX|..];
    }
  }

  /** An update that gives the resource's only SLO tags without its own tag leaves the resource without an SLO. */
  lemma UpdateLosesTag(st: Store, p: nat, slo: Model, tag: string)
    requires ValidStore(st) && p < |st.slos| && AtMostOne(st, tag) && tag in st.slos[p].tags && tag !in slo.tags
    ensures FindIn(UpdateSLO(st, st.slos[p].id, slo).slos, tag).None?
  {
    var last := UpdateSLO(st, st.slos[p].id, slo);
    forall x | x in last.slos ensures tag !in x.tags {
      var q :| 0 <= q < |last.slos| && last.slos[q] == x;
      assert q < p || q == p || p < q;
    }
  }

  /** The first update with a foreign uid tag leaves the resource its SLO, now with the foreign tag read as owner. */
  lemma ForeignTagTakesOver(st: Store, r: Resource, v: string, replies: Replies, req: bool) returns (p: nat)
    requires OneToOne(st) && FindIn(st.slos, UidTag(r.uid)).Some? && v != r.uid && r.spec.tags == [UidTag(v)]
    requires replies.findB && TakesEffect(st, r, replies, req)
    ensures var st1 := Reconcile(st, r, replies, req).store;
            && p < |st1.slos| && FindIn(st1.slos, UidTag(r.uid)) == Some(st1.slos[p])
            && ValidStore(st1) && AtMostOne(st1, UidTag(r.uid)) && UidTag(r.uid) in st1.slos[p].tags
            && LastUid(st1.slos[p].tags) == v && Decode(st1.slos[p]).target == r.spec.target
  {
    var tag, slo := UidTag(r.uid), BuildSLO(r.spec, r.uid, r.spec.sloType);
    FoundThrough(st, r, replies);
    p := Locate(st, r.uid);
    assert OneOwner(st.slos[p]) && IsUidTag(tag);
    LastUidIsOwner(st.slos[p].tags, r.uid);
    UpdateOneToOne(st, p, r.spec, r.uid, r.spec.sloType);
    FindsTheOne(UpdateSLO(st, st.slos[p].id, slo), r.uid, p);
    assert slo.tags == [MANAGED_BY, tag, UidTag(v)];
    assert IsUidTag(UidTag(v)) && v == UidTag(v)[|UID_PREFIX|..];
  }

  /**
   Two updates with a foreign uid tag in the spec take the SLO away from its resource, whether or not anybody else
   has that uid: the second update reads the foreign tag back as the owner.
   */
  lemma ForeignTagLosesTheSLO(st: Store, r: Resource, v: string, target2: real,
                              replies: Replies, replies2: Replies, req: bool)
    requires OneToOne(st) && FindIn(st.slos, UidTag(r.uid)).Some? && v != r.uid && r.spec.tags == [UidTag(v)]
    requires replies.findB && TakesEffect(st, r, replies, req)
    requires replies2.findB && replies2.update.None? && target2 != r.spec.target
    ensures var o := Reconcile(st, r, replies, req);
            var r2 := r.(spec := r.spec.(target := target2));
            FindIn(Reconcile(o.store, r2, replies2, req).store.slos, UidTag(r.uid)).None?
  {
    var st1, tag := Reconcile(st, r, replies, req).store, UidTag(r.uid);
    var r2 := r.(spec := r.spec.(target := target2));
    var p := ForeignTagTakesOver(st, r, v, replies, req);
    FoundThrough(st1, r2, replies2);
    var slo := BuildSLO(r2.spec, v, r2.spec.sloType);
    OwnerKeptIff(st1.slos[p], r2.spec, r.uid, r2.spec.sloType);
    assert v == UidTag(v)[|UID_PREFIX|..] && r.uid == tag[|UID_PREFIX|..];
    UpdateLosesTag(st1, p, slo, tag);
  }

  // --- quiescence ---

  /**
   Reading an SLO back gives what was written, except that a warning of zero is lost; an update leaves type and
   query alone.
   */
  lemma StoredRoundTrip(st: Store, slo: Model, p: nat, update: Model)
    requires ValidStore(st) && p < |st.slos|
    ensures var s := CreateSLO(st, slo).slos[|st.slos|];
            && s.id == st.nextId && Decode(s).name == slo.name && Decode(s).sloType == slo.sloType
            && Decode(s).target == slo.target && Decode(s).timeframe == slo.timeframe && Decode(s).tags == slo.tags
            && (Decode(s).warning == slo.warning <==> slo.warning != Some(0.0))
    ensures var old', new' := st.slos[p], UpdateSLO(st, st.slos[p].id, update).slos[p];
            && Decode(new').name == update.name && Decode(new').target == update.target
            && Decode(new').tags == update.tags && Decode(new').timeframe == update.timeframe
            && (Decode(new').warning == update.warning <==> update.warning != Some(0.0))
            && new'.id == old'.id && new'.sloType == old'.sloType && new'.query == old'.query
    ensures forall q | 0 <= q < |st.slos| && q != p ::
              CreateSLO(st, slo).slos[q] == st.slos[q] == UpdateSLO(st, st.slos[p].id, update).slos[q]
  {
    forall q | 0 <= q < |st.slos| && q != p ensures st.slos[q].id != st.slos[p].id {
    }
  }

  /** The stored target is the spec's, and so is the warning when one is given, zero included. */
  predicate InSync(s: Stored, spec: Spec) {
    && Decode(s).target == spec.target
    && (spec.warning.Some? ==> s.thresholds != [] && s.thresholds[0].warning == spec.warning)
  }

  /** x is the id of an SLO that agrees with the spec. */
  ghost predicate InSyncAt(st: Store, x: int, spec: Spec) {
    exists p :: 0 <= p < |st.slos| && st.slos[p].id == x && InSync(st.slos[p], spec)
  }

  /** After a successful reconcile, the SLO it reports has the spec's target, and its warning when one is given. */
  lemma SyncedMatchesSpec(st: Store, r: Resource, replies: Replies, req: bool)
    requires ValidStore(st)
    requires var o := Reconcile(st, r, replies, req); o.status.Ok? && o.status.value.state.Synced?
    ensures var o := Reconcile(st, r, replies, req);
            o.status.value.sloID.Some? && InSyncAt(o.store, o.status.value.sloID.value, r.spec)
  {
    var o, found := Reconcile(st, r, replies, req), Found(st, r, replies);
    if found.Some? {
      FoundIsFind(st, r, replies);
      var p := Locate(st, r.uid);
      assert InSync(o.store.slos[p], r.spec) && o.store.slos[p].id == found.value.id;
    } else {
      assert InSync(o.store.slos[|st.slos|], r.spec) && o.store.slos[|st.slos|].id == st.nextId;
    }
  }

  // --- what the next lookup finds ---

  /** No lookup that is made succeeds, although the resource has an SLO. */
  predicate Overlooks(st: Store, r: Resource, replies: Replies) {
    Found(st, r, replies).None? && FindIn(st.slos, UidTag(r.uid)).Some?
  }

  /** The SLO found is updated with tags that do not name the resource. */
  predicate GivesAway(st: Store, r: Resource, replies: Replies) {
    var found := Found(st, r, replies);
    && found.Some? && NeedsUpdate(Decode(found.value), r.spec)
    && LastUid(found.value.tags) != r.uid && UidTag(r.uid) !in r.spec.tags
  }

  /** The second SLO carrying the tag. */
  function NextIn(slos: seq<Stored>, tag: string): (r: Option<Stored>)
    ensures r.Some? ==> r.value in slos && tag in r.value.tags
  {
    if slos == [] then None
    else if tag in slos[0].tags then FindIn(slos[1..], tag)
    else NextIn(slos[1..], tag)
  }

  lemma {:induction false} FindAppended(slos: seq<Stored>, s: Stored, tag: string)
    ensures FindIn(slos + [s], tag)
            == if FindIn(slos, tag).Some? then FindIn(slos, tag) else if tag in s.tags then Some(s) else None
  {
    if slos != [] {
      assert (slos + [s])[1..] == slos[1..] + [s];
      FindAppended(slos[1..], s, tag);
    }
  }

  lemma RewrittenHead(slos: seq<Stored>, id: int, slo: Model)
    requires slos != []
    ensures Rewritten(slos, id, slo) == [Rewrite(slos[0], id, slo)] + Rewritten(slos[1..], id, slo)
  {
  }

  lemma RewrittenNone(slos: seq<Stored>, id: int, slo: Model)
    requires forall s | s in slos :: s.id != id
    ensures Rewritten(slos, id, slo) == slos
  {
    assert forall p | 0 <= p < |slos| :: slos[p] in slos;
  }

  /** After the first carrier of the tag is rewritten, it is still the first one, or the second one is. */
  lemma {:induction false} FindRewritten(slos: seq<Stored>, slo: Model, tag: string)
    requires DistinctIds(slos) && FindIn(slos, tag).Some?
    ensures var first := FindIn(slos, tag).value;
            FindIn(Rewritten(slos, first.id, slo), tag)
            == if tag in slo.tags then Some(Rewrite(first, first.id, slo)) else NextIn(slos, tag)
  {
    var first := FindIn(slos, tag).value;
    RewrittenHead(slos, first.id, slo);
    if tag in slos[0].tags {
      forall s | s in slos[1..] ensures s.id != first.id {
        var p :| 0 <= p < |slos[1..]| && slos[1..][p] == s;
        assert slos[p + 1] == s;
      }
      RewrittenNone(slos[1..], first.id, slo);
    } else {
      var p :| 0 <= p < |slos[1..]| && slos[1..][p] == first;
      assert slos[p + 1] == first;
      FindRewritten(slos[1..], slo, tag);
    }
  }

  /** The SLO that a working lookup finds after a successful reconcile. */
  lemma FoundAfter(st: Store, r: Resource, replies: Replies, req: bool)
    requires ValidStore(st)
    requires var o := Reconcile(st, r, replies, req); o.status.Ok? && o.status.value.state.Synced?
    ensures var o, tag := Reconcile(st, r, replies, req), UidTag(r.uid);
            var next := FindIn(o.store.slos, tag);
            if Overlooks(st, r, replies) then next == FindIn(st.slos, tag)
            else if GivesAway(st, r, replies) then next == NextIn(st.slos, tag)
            else next.Some? && Some(next.value.id) == o.status.value.sloID && InSync(next.value, r.spec)
  {
    var tag, found := UidTag(r.uid), Found(st, r, replies);
    if found.Some? {
      FoundIsFind(st, r, replies);
      OwnerKeptIff(found.value, r.spec, r.uid, r.spec.sloType);
      FindRewritten(st.slos, BuildSLO(r.spec, LastUid(found.value.tags), r.spec.sloType), tag);
    } else {
      var slo := BuildSLO(r.spec, r.uid, DetectFramework(r, replies.framework));
      BuiltTags(r.spec, r.uid, DetectFramework(r, replies.framework));
      FindAppended(st.slos, CreateSLO(st, slo).slos[|st.slos|], tag);
    }
  }

  // --- the second reconcile ---

  /** What a second reconcile finds asks for no write. */
  predicate Quiet(st: Store, r: Resource, replies: Replies, replies2: Replies, req2: bool) {
    if Overlooks(st, r, replies) then !NeedsUpdate(Decode(FindIn(st.slos, UidTag(r.uid)).value), r.spec)
    else if GivesAway(st, r, replies) then
      var next := NextIn(st.slos, UidTag(r.uid));
      if next.Some? then !NeedsUpdate(Decode(next.value), r.spec) else req2 && !replies2.serviceKnown
    else r.spec.warning != Some(0.0)
  }

  lemma InSyncNeeds(s: Stored, spec: Spec)
    requires InSync(s, spec)
    ensures NeedsUpdate(Decode(s), spec) <==> spec.warning == Some(0.0)
  {
  }

  /**
   Exactly when a second reconcile with working lookups writes nothing. Where the first one left the resource's own SLO
   to be found, that is when the spec asks for no warning of zero, and the second one reports the same SLO; where it
   overlooked that SLO or gave it away, it depends on which other SLO is found next, if any.
   */
  lemma QuiescentIff(st: Store, r: Resource, replies: Replies, req: bool,
                     replies2: Replies, req2: bool, status2: Status)
    requires ValidStore(st) && replies2.findB
    requires var o := Reconcile(st, r, replies, req); o.status.Ok? && o.status.value.state.Synced?
    ensures var o := Reconcile(st, r, replies, req);
            var o2 := Reconcile(o.store, r.(status := status2), replies2, req2);
            && (o2.writes == [] <==> Quiet(st, r, replies, replies2, req2))
            && (o2.writes == [] ==> o2.store == o.store && o2.status.Ok?)
            && (o2.writes == [] && !Overlooks(st, r, replies) && !GivesAway(st, r, replies) ==>
                  o2.status.value.state.Synced? && o2.status.value.sloID == o.status.value.sloID)
  {
    var o := Reconcile(st, r, replies, req);
    FoundAfter(st, r, replies, req);
    FoundThrough(o.store, r.(status := status2), replies2);
    var next := FindIn(o.store.slos, UidTag(r.uid));
    if !Overlooks(st, r, replies) && !GivesAway(st, r, replies) {
      InSyncNeeds(next.value, r.spec);
    }
  }

  /** A working path B overlooks nothing, and an SLO that names no other resource is not given away. */
  lemma NothingLost(st: Store, r: Resource, replies: Replies)
    ensures replies.findB ==> !Overlooks(st, r, replies)
    ensures (forall p | 0 <= p < |st.slos| :: OneOwner(st.slos[p])) ==> !GivesAway(st, r, replies)
  {
    if Found(st, r, replies).Some? && forall p | 0 <= p < |st.slos| :: OneOwner(st.slos[p]) {
      FoundIsFind(st, r, replies);
      var p := Locate(st, r.uid);
      assert OneOwner(st.slos[p]) && IsUidTag(UidTag(r.uid));
      LastUidIsOwner(st.slos[p].tags, r.uid);
    }
  }

  /**
   The duplicate that a failed path B leaves is not quiescent: the next reconcile finds the old SLO, and rewrites it
   when it is out of date.
   */
  lemma OverlookedIsRewritten(st: Store, r: Resource, replies: Replies, req: bool, replies2: Replies, req2: bool)
    requires ValidStore(st) && replies2.findB && Overlooks(st, r, replies) && TakesEffect(st, r, replies, req)
    requires NeedsUpdate(Decode(FindIn(st.slos, UidTag(r.uid)).value), r.spec)
    ensures var o, old' := Reconcile(st, r, replies, req), FindIn(st.slos, UidTag(r.uid)).value;
            var o2 := Reconcile(o.store, r.(status := o.status.value), replies2, req2);
            && o.status.value.sloID == Some(st.nextId) && old'.id < st.nextId
            && o2.writes == [Updated(old'.id, BuildSLO(r.spec, LastUid(old'.tags), r.spec.sloType))]
  {
    var o := Reconcile(st, r, replies, req);
    FoundAfter(st, r, replies, req);
    FoundThrough(o.store, r.(status := o.status.value), replies2);
    var p := Locate(st, r.uid);
  }

  /** A spec that passes validation with a target of zero or more asks for no warning of zero. */
  lemma ValidatedSpecIsQuiescent(st: Store, r: Resource, replies: Replies, req: bool, replies2: Replies)
    requires ValidStore(st) && Invalid(r.spec).None? && r.spec.target >= 0.0
    requires replies2.findB && replies.patch
    requires Control(st, r, replies, req).resource.status.state.Synced?
    ensures var first := Control(st, r, replies, req);
            var second := Control(first.store, first.resource, replies2, req);
            && (second.writes == [] <==> Quiet(st, r, replies, replies2, req))
            && (second.writes == [] ==> second.store == first.store)
            && (!Overlooks(st, r, replies) && !GivesAway(st, r, replies) ==>
                  && second.writes == [] && second.resource.status.state.Synced?
                  && second.resource.status.sloID == first.resource.status.sloID)
  {
    QuiescentIff(st, r, replies, req, replies2, req, Control(st, r, replies, req).resource.status);
  }
}
