/**
 What a reconcile leaves in the remote store and in the status, in terms of the resource it reconciles
 (src/internal/slo/service.go and src/internal/controller/sloconfig.go).
 */
module SloContract {
  import opened Wrappers
  import opened Slo
  import opened SloProperties

  // --- what an SLO of a resource looks like ---

  /** What both writes take from the spec: the thresholds, and the tags, which name the owner first. */
  predicate FollowsSpec(s: Stored, spec: Spec, owner: string) {
    && s.thresholds == [Threshold(spec.target, if spec.timeframe == "" then "30d" else spec.timeframe, spec.warning)]
    && s.tags == ["managed_by:titlis_operator", "titlis_resource_uid:" + owner] + spec.tags
  }

  /** The places a framework is looked for, in order. */
  function FrameworkSources(r: Resource, catalog: Result<Option<string>>): seq<Option<string>> {
    var key := "titlis.io/app-framework";
    [r.spec.appFramework,
     if Get(r.annotations, key) == "" then None else Some(Get(r.annotations, key)),
     if catalog.Err? then None else catalog.value,
     Some("wsgi")]
  }

  /** The first of the sources that has one. */
  predicate FirstGiven(sources: seq<Option<string>>, framework: string) {
    exists k :: 0 <= k < |sources| && sources[k] == Some(framework) && forall q | 0 <= q < k :: sources[q].None?
  }

  lemma DetectsFirst(r: Resource, catalog: Result<Option<string>>)
    ensures FirstGiven(FrameworkSources(r, catalog), DetectFramework(r, catalog))
  {
    var sources, f := FrameworkSources(r, catalog), DetectFramework(r, catalog);
    assert sources[0] == Some(f) || sources[1] == Some(f) || sources[2] == Some(f) || sources[3] == Some(f);
  }

  // --- path C ---

  /** The new SLO, down to its query, which needs both a numerator and a denominator. */
  ghost predicate CreatedFor(s: Stored, r: Resource, framework: string) {
    && s.name == r.spec.service + "-" + framework + "-slo"
    && s.sloType == (if r.spec.sloType == "" then "metric" else r.spec.sloType)
    && FollowsSpec(s, r.spec, r.uid)
    && (forall good, total :: s.query == Some((good, total)) <==>
                                r.spec.numerator == Some(good) && r.spec.denominator == Some(total))
    && (s.query == None <==> r.spec.numerator == None || r.spec.denominator == None)
  }

  /**
   A reconcile that finds no SLO and may create one adds one SLO for the resource behind the others, and reports its id
   and framework; when the create fails it changes nothing and returns the error.
   */
  lemma CreatesForResource(st: Store, r: Resource, replies: Replies, req: bool) returns (framework: string)
    requires Found(st, r, replies).None? && (req ==> replies.serviceKnown)
    ensures FirstGiven(FrameworkSources(r, replies.framework), framework)
    ensures var o := Reconcile(st, r, replies, req);
            && |o.writes| == 1 && o.writes[0].Created?
            && (replies.create == None ==>
                  && |o.store.slos| == |st.slos| + 1 && o.store.slos[..|st.slos|] == st.slos
                  && CreatedFor(o.store.slos[|st.slos|], r, framework) && o.store.slos[|st.slos|].id == st.nextId
                  && o.store.nextId == st.nextId + 1
                  && o.status == Ok(Status(Some(st.nextId), Synced, None, Some(framework))))
            && (replies.create != None ==> o.store == st && o.status == Err(replies.create.value))
  {
    framework := DetectFramework(r, replies.framework);
    DetectsFirst(r, replies.framework);
    assert BuildSLO(r.spec, r.uid, framework).tags
        == ["managed_by:titlis_operator", "titlis_resource_uid:" + r.uid] + r.spec.tags;
  }

  /** A service that has to be in the catalog and is not stops the reconcile without an error, and without an id. */
  lemma MissingServiceStops(st: Store, r: Resource, replies: Replies)
    requires Found(st, r, replies).None? && !replies.serviceKnown
    ensures var o := Reconcile(st, r, replies, true);
            && o.store == st && o.writes == [] && o.status.Ok?
            && o.status.value.state == Error && o.status.value.sloID == None
            && o.status.value.error == Some("serviço \"" + r.spec.service + "\" não encontrado no catálogo Datadog")
  {
  }

  // --- paths A and B ---

  /** What is found is checked against the spec: the target, and the warning when the spec has one. */
  predicate OutOfDate(s: Stored, spec: Spec) {
    || (s.thresholds == [] && spec.target != 0.0)
    || (s.thresholds != [] && s.thresholds[0].target != spec.target)
    || (spec.warning.Some? &&
          (s.thresholds == [] || s.thresholds[0].warning != spec.warning || spec.warning.value == 0.0))
  }

  /**
   A reconcile that finds an SLO reports its id; it writes to it exactly when it is out of date, and then everything the
   spec says about it is new but its type and query, for the owner that its last uid tag names. All other SLOs stay.
   */
  lemma UpdatesFound(st: Store, r: Resource, replies: Replies, req: bool) returns (p: nat)
    requires ValidStore(st) && Found(st, r, replies).Some?
    ensures p < |st.slos| && UidTag(r.uid) in st.slos[p].tags && st.slos[p] == Found(st, r, replies).value
    ensures var o, old', owner := Reconcile(st, r, replies, req), st.slos[p], LastUid(st.slos[p].tags);
            && (o.writes != [] <==> OutOfDate(old', r.spec))
            && (OutOfDate(old', r.spec) ==> |o.writes| == 1 && o.writes[0].Updated? && o.writes[0].id == old'.id)
            && (OutOfDate(old', r.spec) && replies.update == None ==>
                  && |o.store.slos| == |st.slos| && FollowsSpec(o.store.slos[p], r.spec, owner)
                  && o.store.slos[p].name == r.spec.service + "-" + r.spec.sloType + "-slo"
                  && o.store.slos[p].id == old'.id && o.store.slos[p].sloType == old'.sloType
                  && o.store.slos[p].query == old'.query
                  && forall q | 0 <= q < |st.slos| && q != p :: o.store.slos[q] == st.slos[q])
            && (OutOfDate(old', r.spec) && replies.update != None ==>
                  o.store == st && o.status == Err(replies.update.value))
            && (!OutOfDate(old', r.spec) ==> o.store == st)
            && (!OutOfDate(old', r.spec) || replies.update == None ==>
                  o.status == Ok(Status(Some(old'.id), Synced, None, None)))
  {
    FoundIsFind(st, r, replies);
    p := Locate(st, r.uid);
    var old', owner := st.slos[p], LastUid(st.slos[p].tags);
    var slo := BuildSLO(r.spec, owner, r.spec.sloType);
    assert slo.tags == ["managed_by:titlis_operator", "titlis_resource_uid:" + owner] + r.spec.tags;
    assert NeedsUpdate(Decode(old'), r.spec) <==> OutOfDate(old', r.spec);
    forall q | 0 <= q < |st.slos| && q != p ensures st.slos[q].id != old'.id {
    }
  }

  /** The owner read off the tags is the one that the last uid tag names, and nobody without such a tag. */
  lemma {:induction false} LastUidExact(tags: seq<string>) returns (p: int)
    ensures -1 <= p < |tags| && forall q | p < q < |tags| :: !("titlis_resource_uid:" <= tags[q])
    ensures if p < 0 then LastUid(tags) == "" else tags[p] == "titlis_resource_uid:" + LastUid(tags)
  {
    p := -1;
    if tags != [] {
      var init, last := tags[..|tags| - 1], tags[|tags| - 1];
      if "titlis_resource_uid:" <= last {
        p := |init|;
      } else {
        p := LastUidExact(init);
        assert forall q | 0 <= q < |init| :: tags[q] == init[q];
      }
    }
  }

  /** The service of a stored SLO is that of its last `service:` tag. */
  lemma {:induction false} ServiceExact(tags: seq<string>) returns (p: int)
    ensures -1 <= p < |tags| && forall q | p < q < |tags| :: !("service:" <= tags[q])
    ensures if p < 0 then ServiceOf(tags) == "" else tags[p] == "service:" + ServiceOf(tags)
  {
    p := -1;
    if tags != [] {
      var init, last := tags[..|tags| - 1], tags[|tags| - 1];
      if "service:" <= last {
        p := |init|;
      } else {
        p := ServiceExact(init);
        assert forall q | 0 <= q < |init| :: tags[q] == init[q];
      }
    }
  }

  // --- the controller ---

  /**
   A resource without a service, or else with a warning that is not above the target, is not reconciled: nothing is
   written, and of its status only the state and the error change.
   */
  lemma ValidationStops(st: Store, r: Resource, replies: Replies, req: bool)
    requires r.spec.service == "" || (r.spec.warning.Some? && r.spec.warning.value <= r.spec.target)
    ensures var step := Control(st, r, replies, req);
            && step.store == st && step.writes == [] && step.resource.spec == r.spec && step.resource.uid == r.uid
            && step.resource.annotations == r.annotations
            && (!replies.patch ==> step.resource.status == r.status)
            && (replies.patch ==>
                  && step.resource.status.state == Error
                  && step.resource.status.error == Some(if r.spec.service == "" then "spec.service é obrigatório"
                                                        else "warning deve ser maior que target")
                  && step.resource.status.sloID == r.status.sloID
                  && step.resource.status.detectedFramework == r.status.detectedFramework)
  {
  }

  /** Any other resource is reconciled, and its status replaced as a whole; an error that is returned leaves no id. */
  lemma OthersAreReconciled(st: Store, r: Resource, replies: Replies, req: bool)
    requires r.spec.service != "" && (r.spec.warning.Some? ==> r.spec.warning.value > r.spec.target)
    ensures var step, o := Control(st, r, replies, req), Reconcile(st, r, replies, req);
            && step.store == o.store && step.writes == o.writes
            && step.resource.spec == r.spec && step.resource.uid == r.uid && step.resource.annotations == r.annotations
            && (!replies.patch ==> step.resource.status == r.status)
            && (replies.patch && o.status.Ok? ==> step.resource.status == o.status.value)
            && (replies.patch && o.status.Err? ==>
                  step.resource.status == Status(None, Error, Some(o.status.error), None))
  {
  }
}
