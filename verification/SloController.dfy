/** The SLO reconciler in the form of the source: a provider, a service and a controller that update in place. */
module SloController {
  import opened Wrappers
  import opened Slo

  /** The remote provider. A failed call changes nothing. */
  class Provider {
    var store: Store
    var writes: seq<Write>

    constructor (initial: Store)
      ensures store == initial && writes == []
    {
      store, writes := initial, [];
    }

    method FindSLOByTag(tag: string, ok: bool) returns (found: Result<Option<Stored>>)
      ensures found.Ok? <==> ok
      ensures ok ==> found.value == FindIn(store.slos, tag)
    {
      if !ok {
        return Err("list failed");
      }
      for i := 0 to |store.slos|
        invariant FindIn(store.slos, tag) == FindIn(store.slos[i..], tag)
      {
        if tag in store.slos[i].tags {
          return Ok(Some(store.slos[i]));
        }
      }
      return Ok(None);
    }

    method Create(slo: Model, failure: Option<string>) returns (id: Result<int>)
      modifies this
      ensures writes == old(writes) + [Created(slo)]
      ensures store == if failure.None? then CreateSLO(old(store), slo) else old(store)
      ensures id == if failure.None? then Ok(old(store.nextId)) else Err(failure.value)
    {
      writes := writes + [Created(slo)];
      if failure.Some? {
        return Err(failure.value);
      }
      id := Ok(store.nextId);
      store := CreateSLO(store, slo);
    }

    method Update(id: int, slo: Model, failure: Option<string>)
      modifies this
      ensures writes == old(writes) + [Updated(id, slo)]
      ensures store == if failure.None? then UpdateSLO(old(store), id, slo) else old(store)
    {
      writes := writes + [Updated(id, slo)];
      if failure.None? {
        store := UpdateSLO(store, id, slo);
      }
    }
  }

  /** ddSLOToModel: the loops over thresholds (only the first counts) and tags (the last service tag counts). */
  method DecodeSLO(s: Stored) returns (slo: Model)
    ensures slo == Decode(s)
  {
    var target, timeframe, warning := 0.0, "", None;
    for i := 0 to |s.thresholds|
      invariant i == 0 && target == 0.0 && timeframe == "" && warning == None
    {
      target, timeframe := s.thresholds[i].target, s.thresholds[i].timeframe;
      if s.thresholds[i].warning.Some? && s.thresholds[i].warning.value != 0.0 {
        warning := s.thresholds[i].warning;
      }
      break;
    }
    var serviceName := "";
    for i := 0 to |s.tags|
      invariant serviceName == ServiceOf(s.tags[..i])
    {
      assert s.tags[..i + 1][..i] == s.tags[..i];
      if "service:" <= s.tags[i] {
        serviceName := s.tags[i][|"service:"|..];
      }
    }
    assert s.tags[..|s.tags|] == s.tags;
    slo := Model(s.name, serviceName, s.sloType, target, warning, timeframe, s.tags, None, None);
  }

  /** The owner named by the last uid tag. */
  method ExtractUid(tags: seq<string>) returns (uid: string)
    ensures uid == LastUid(tags)
  {
    uid := "";
    for i := 0 to |tags|
      invariant uid == LastUid(tags[..i])
    {
      assert tags[..i + 1][..i] == tags[..i];
      if IsUidTag(tags[i]) {
        uid := tags[i][|UID_PREFIX|..];
      }
    }
    assert tags[..|tags|] == tags;
  }

  class Service {
    const provider: Provider
    const requireService: bool

    constructor (provider: Provider, requireService: bool)
      ensures this.provider == provider && this.requireService == requireService
    {
      this.provider := provider;
      this.requireService := requireService;
    }

    method CheckExisting(existing: Stored, spec: Spec, failure: Option<string>) returns (status: Result<Status>)
      modifies provider
      ensures var o := CheckAndUpdate(old(provider.store), existing, spec, failure);
              provider.store == o.store && status == o.status && provider.writes == old(provider.writes) + o.writes
    {
      var current := DecodeSLO(existing);
      var needsUpdate := current.target != spec.target;
      if spec.warning.Some? && (current.warning.None? || current.warning.value != spec.warning.value) {
        needsUpdate := true;
      }
      if needsUpdate {
        var uid := ExtractUid(existing.tags);
        provider.Update(existing.id, BuildSLO(spec, uid, spec.sloType), failure);
        if failure.Some? {
          return Err(failure.value);
        }
      }
      status := Ok(SyncedStatus(existing.id, None));
    }

    method ReconcileResource(r: Resource, replies: Replies) returns (status: Result<Status>)
      modifies provider
      ensures var o := Reconcile(old(provider.store), r, replies, requireService);
              provider.store == o.store && status == o.status && provider.writes == old(provider.writes) + o.writes
    {
      // Path A: the status already names an SLO.
      if r.status.sloID.Some? {
        var existing := provider.FindSLOByTag(UidTag(r.uid), replies.findA);
        if existing.Ok? && existing.value.Some? {
          status := CheckExisting(existing.value.value, r.spec, replies.update);
          return;
        }
      }
      // Path B: an SLO the status has lost.
      var existing := provider.FindSLOByTag(UidTag(r.uid), replies.findB);
      if existing.Ok? && existing.value.Some? {
        status := CheckExisting(existing.value.value, r.spec, replies.update);
        return;
      }
      // Path C: a new SLO.
      if requireService && !replies.serviceKnown {
        return Ok(MissingService(r.spec.service));
      }
      var framework := DetectFramework(r, replies.framework);
      var id := provider.Create(BuildSLO(r.spec, r.uid, framework), replies.create);
      if id.Err? {
        return Err(id.error);
      }
      status := Ok(SyncedStatus(id.value, Some(framework)));
    }
  }

  /** The custom resource as the API server holds it. */
  class SLOConfig {
    const uid: string
    var annotations: map<string, string>
    var spec: Spec
    var status: Status

    constructor (r: Resource)
      ensures Value() == r
    {
      uid, annotations, spec, status := r.uid, r.annotations, r.spec, r.status;
    }

    function Value(): Resource
      reads this
    {
      Resource(uid, annotations, spec, status)
    }
  }

  class Controller {
    const service: Service

    constructor (service: Service)
      ensures this.service == service
    {
      this.service := service;
    }

    /** Validation errors keep the recorded id; any other outcome replaces the whole status, if the patch succeeds. */
    method ReconcileConfig(config: SLOConfig, replies: Replies)
      modifies config`status, service.provider
      ensures var step := Control(old(service.provider.store), old(config.Value()), replies, service.requireService);
              && service.provider.store == step.store
              && config.Value() == step.resource
              && service.provider.writes == old(service.provider.writes) + step.writes
    {
      var invalid := Invalid(config.spec);
      if invalid.Some? {
        if replies.patch {
          config.status := config.status.(state := Error, error := invalid);
        }
        return;
      }
      var newStatus := service.ReconcileResource(config.Value(), replies);
      if newStatus.Err? {
        newStatus := Ok(Status(None, Error, Some(newStatus.error), None));
      }
      if replies.patch {
        config.status := newStatus.value;
      }
    }
  }
}
