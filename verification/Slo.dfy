/**
 The SLO reconciler as a function on the remote SLO store and one resource
 (src/internal/slo/service.go, src/internal/observability/datadog/slo.go, src/internal/controller/sloconfig.go).
 */
module Slo {
  import opened Wrappers

  const UID_PREFIX := "titlis_resource_uid:"
  const MANAGED_BY := "managed_by:titlis_operator"

  datatype Threshold = Threshold(target: real, timeframe: string, warning: Option<real>)

  /** An SLO as the remote store keeps it. */
  datatype Stored = Stored(id: int, name: string, sloType: string, thresholds: seq<Threshold>, tags: seq<string>,
                           query: Option<(string, string)>)

  datatype Store = Store(slos: seq<Stored>, nextId: int)

  /** An SLO as the operator sees it. */
  datatype Model = Model(name: string, serviceName: string, sloType: string, target: real, warning: Option<real>,
                         timeframe: string, tags: seq<string>, numerator: Option<string>, denominator: Option<string>)

  datatype Spec = Spec(service: string, sloType: string, appFramework: Option<string>, target: real,
                       warning: Option<real>, timeframe: string, numerator: Option<string>,
                       denominator: Option<string>, tags: seq<string>)

  datatype State = Pending | Synced | Error

  datatype Status = Status(sloID: Option<int>, state: State, error: Option<string>, detectedFramework: Option<string>)

  datatype Resource = Resource(uid: string, annotations: map<string, string>, spec: Spec, status: Status)

  /** What the remote services answer during one reconcile; create and update answer with an error, or none. */
  datatype Replies = Replies(findA: bool, findB: bool, serviceKnown: bool, framework: Result<Option<string>>,
                             create: Option<string>, update: Option<string>, patch: bool)

  datatype Write = Created(slo: Model) | Updated(id: int, slo: Model)

  // --- the store operations ---

  function UidTag(uid: string): string { UID_PREFIX + uid }

  predicate IsUidTag(t: string) { UID_PREFIX <= t }

  function Encode(slo: Model): Threshold {
    Threshold(slo.target, slo.timeframe, slo.warning)
  }

  function CreateSLO(st: Store, slo: Model): Store {
    var query := if slo.numerator.Some? && slo.denominator.Some?
                 then Some((slo.numerator.value, slo.denominator.value)) else None;
    Store(st.slos + [Stored(st.nextId, slo.name, slo.sloType, [Encode(slo)], slo.tags, query)], st.nextId + 1)
  }

  function Rewrite(s: Stored, id: int, slo: Model): Stored {
    if s.id == id then s.(name := slo.name, thresholds := [Encode(slo)], tags := slo.tags) else s
  }

  function Rewritten(slos: seq<Stored>, id: int, slo: Model): seq<Stored> {
    seq(|slos|, i requires 0 <= i < |slos| => Rewrite(slos[i], id, slo))
  }

  /** UpdateSLO sends a name, one threshold and the tags; type and query stay as they are. */
  function UpdateSLO(st: Store, id: int, slo: Model): Store {
    st.(slos := Rewritten(st.slos, id, slo))
  }

  /** The first SLO carrying the tag. */
  function FindIn(slos: seq<Stored>, tag: string): (r: Option<Stored>)
    ensures r.Some? ==> r.value in slos && tag in r.value.tags
    ensures r.None? ==> forall s | s in slos :: tag !in s.tags
  {
    if slos == [] then None
    else if tag in slos[0].tags then Some(slos[0])
    else FindIn(slos[1..], tag)
  }

  function ServiceOf(tags: seq<string>): string {
    if tags == [] then ""
    else
      var last := tags[|tags| - 1];
      if "service:" <= last then last[|"service:"|..] else ServiceOf(tags[..|tags| - 1])
  }

  /** ddSLOToModel: the first threshold counts, and a warning of zero reads as none. */
  function Decode(s: Stored): Model {
    var none := s.thresholds == [];
    var w := if none then None else s.thresholds[0].warning;
    Model(s.name, ServiceOf(s.tags), s.sloType,
          if none then 0.0 else s.thresholds[0].target,
          if w.None? || w.value == 0.0 then None else w,
          if none then "" else s.thresholds[0].timeframe,
          s.tags, None, None)
  }

  // --- the service ---

  function LastUid(tags: seq<string>): string {
    if tags == [] then ""
    else
      var last := tags[|tags| - 1];
      if IsUidTag(last) then last[|UID_PREFIX|..] else LastUid(tags[..|tags| - 1])
  }

  function BuildSLO(spec: Spec, uid: string, framework: string): Model {
    Model(spec.service + "-" + framework + "-slo", spec.service,
          if spec.sloType == "" then "metric" else spec.sloType,
          spec.target, spec.warning,
          if spec.timeframe == "" then "30d" else spec.timeframe,
          [MANAGED_BY, UidTag(uid)] + spec.tags, spec.numerator, spec.denominator)
  }

  function DetectFramework(r: Resource, fromCatalog: Result<Option<string>>): string {
    if r.spec.appFramework.Some? then r.spec.appFramework.value
    else if "titlis.io/app-framework" in r.annotations && r.annotations["titlis.io/app-framework"] != "" then
      r.annotations["titlis.io/app-framework"]
    else if fromCatalog.Ok? && fromCatalog.value.Some? then fromCatalog.value.value
    else "wsgi"
  }

  predicate NeedsUpdate(existing: Model, spec: Spec) {
    existing.target != spec.target || (spec.warning.Some? && existing.warning != spec.warning)
  }

  /** The store after a reconcile, the status it reports or the error it returns, and the writes it tried. */
  datatype Outcome = Outcome(store: Store, status: Result<Status>, writes: seq<Write>)

  function SyncedStatus(id: int, framework: Option<string>): Status {
    Status(Some(id), Synced, None, framework)
  }

  function MissingService(service: string): Status {
    Status(None, Error, Some("serviço \"" + service + "\" não encontrado no catálogo Datadog"), None)
  }

  function CheckAndUpdate(st: Store, existing: Stored, spec: Spec, failure: Option<string>): Outcome {
    if NeedsUpdate(Decode(existing), spec) then
      var slo := BuildSLO(spec, LastUid(existing.tags), spec.sloType);
      var writes := [Updated(existing.id, slo)];
      if failure.None? then Outcome(UpdateSLO(st, existing.id, slo), Ok(SyncedStatus(existing.id, None)), writes)
      else Outcome(st, Err(failure.value), writes)
    else Outcome(st, Ok(SyncedStatus(existing.id, None)), [])
  }

  /** Path A needs an id in the status and a lookup that succeeds; path B only the lookup. */
  function Found(st: Store, r: Resource, replies: Replies): Option<Stored> {
    if r.status.sloID.Some? && replies.findA && FindIn(st.slos, UidTag(r.uid)).Some? then FindIn(st.slos, UidTag(r.uid))
    else if replies.findB then FindIn(st.slos, UidTag(r.uid))
    else None
  }

  function Reconcile(st: Store, r: Resource, replies: Replies, requireService: bool): Outcome {
    var found := Found(st, r, replies);
    if found.Some? then CheckAndUpdate(st, found.value, r.spec, replies.update)
    else if requireService && !replies.serviceKnown then
      Outcome(st, Ok(MissingService(r.spec.service)), [])
    else
      var framework := DetectFramework(r, replies.framework);
      var slo := BuildSLO(r.spec, r.uid, framework);
      if replies.create.None? then
        Outcome(CreateSLO(st, slo), Ok(SyncedStatus(st.nextId, Some(framework))), [Created(slo)])
      else Outcome(st, Err(replies.create.value), [Created(slo)])
  }

  // --- the controller ---

  /** The first validation that fails. */
  function Invalid(spec: Spec): Option<string> {
    if spec.service == "" then Some("spec.service é obrigatório")
    else if spec.warning.Some? && spec.warning.value <= spec.target then Some("warning deve ser maior que target")
    else None
  }

  datatype Step = Step(store: Store, resource: Resource, writes: seq<Write>)

  /** Validation keeps the rest of the status; anything else replaces it, if the patch goes through. */
  function Control(st: Store, r: Resource, replies: Replies, requireService: bool): Step {
    if Invalid(r.spec).Some? then
      Step(st, if replies.patch then r.(status := r.status.(state := Error, error := Invalid(r.spec))) else r, [])
    else
      var o := Reconcile(st, r, replies, requireService);
      var status := if o.status.Ok? then o.status.value else Status(None, Error, Some(o.status.error), None);
      Step(o.store, if replies.patch then r.(status := status) else r, o.writes)
  }
}
