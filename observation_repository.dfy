/**
 * The legacy observation repository: building a new observation, building the
 * mutation that records a create, update or delete of an observation, and handing
 * that mutation to the local store and the sync scheduler.
 */
module ObservationRepository {
  import opened Common
  import opened Model
  import opened Mutations

  datatype Project = Project(id: string)

  datatype Form = Form(id: string)

  datatype Layer = Layer(id: string, forms: seq<Form>)

  datatype Feature = Feature(id: string, project: Project, layer: Layer)

  datatype Observation = Observation(
    id: string, project: Project, feature: Feature, form: Form, created: AuditInfo, lastModified: AuditInfo)

  /**
   * The legacy mutation record. Its type and response deltas deliberately reuse
   * `Mutations.MutationType` and `Mutations.ResponseDelta`: the repository only ever
   * sets CREATE, UPDATE or DELETE and passes the deltas through unchanged, so the
   * legacy enum and delta class add nothing to what is stated here.
   */
  datatype ObservationMutation = ObservationMutation(
    mutationType: MutationType,
    projectId: string,
    featureId: string,
    layerId: string,
    observationId: string,
    formId: string,
    responseDeltas: seq<ResponseDelta>,
    clientTimestamp: Date,
    userId: string)

  datatype RepositoryException =
    | NotFoundException(message: string)
    /** `Optional.get()` on an absent form. */
    | NoSuchElementException

  /** `Layer.getForm`: the first form of the layer with that id, if any. */
  function GetForm(layer: Layer, formId: string): (r: Option<Form>)
    ensures r.None? <==> forall i :: 0 <= i < |layer.forms| ==> layer.forms[i].id != formId
    ensures r.Some? ==> r.value.id == formId && r.value in layer.forms
    decreases |layer.forms|
  {
    if layer.forms == [] then None
    else if layer.forms[0].id == formId then Some(layer.forms[0])
    else GetForm(layer.(forms := layer.forms[1..]), formId)
  }

  /**
   * `createObservation`. `found` is what the feature repository returned for the
   * feature id, `uuid` the id the offline generator produced and `auditInfo` the
   * audit record for the current user and time. Fails when the feature is not
   * found or its layer has no such form; the new observation is created and last
   * modified by the same audit record.
   */
  function CreateObservation(found: Option<Feature>, featureId: string, formId: string, uuid: string, auditInfo: AuditInfo)
    : (r: Result<Observation, RepositoryException>)
    ensures found.None? ==> r == Err(NotFoundException("Feature " + featureId))
    ensures found.Some? && GetForm(found.value.layer, formId).None? ==> r == Err(NoSuchElementException)
    ensures r.Ok? <==> found.Some? && GetForm(found.value.layer, formId).Some?
    ensures r.Ok? ==>
      && r.value.created == auditInfo && r.value.lastModified == auditInfo
      && r.value.id == uuid && r.value.feature == found.value && r.value.project == found.value.project
      && r.value.form.id == formId && r.value.form in found.value.layer.forms
  {
    match found
    case None => Err(NotFoundException("Feature " + featureId))
    case Some(feature) =>
      match GetForm(feature.layer, formId)
      case None => Err(NoSuchElementException)
      case Some(form) => Ok(Observation(uuid, feature.project, feature, form, auditInfo, auditInfo))
  }

  /** The mutation names the observation's project, feature, layer, form and itself. */
  predicate Identifies(m: ObservationMutation, obs: Observation)
  {
    && m.projectId == obs.project.id
    && m.featureId == obs.feature.id
    && m.layerId == obs.feature.layer.id
    && m.observationId == obs.id
    && m.formId == obs.form.id
  }

  /**
   * The mutation `addObservationMutation` builds: CREATE for a new observation and
   * UPDATE otherwise, the observation's ids, the given deltas unchanged, the current
   * time `now` and the current user's id.
   */
  function SaveMutation(obs: Observation, deltas: seq<ResponseDelta>, isNew: bool, userId: string, now: Date)
    : (m: ObservationMutation)
    ensures m.mutationType == (if isNew then MutationType.Create else MutationType.Update)
    ensures m.mutationType != MutationType.Delete
    ensures Identifies(m, obs) && m.responseDeltas == deltas
    ensures m.clientTimestamp == now && m.userId == userId
  {
    ObservationMutation(
      if isNew then MutationType.Create else MutationType.Update,
      obs.project.id, obs.feature.id, obs.feature.layer.id, obs.id, obs.form.id,
      deltas, now, userId)
  }

  /** The mutation `deleteObservation` builds: DELETE, the observation's ids and no deltas. */
  function DeleteMutation(obs: Observation, userId: string, now: Date): (m: ObservationMutation)
    ensures m.mutationType == MutationType.Delete
    ensures Identifies(m, obs) && m.responseDeltas == []
    ensures m.clientTimestamp == now && m.userId == userId
  {
    ObservationMutation(MutationType.Delete, obs.project.id, obs.feature.id, obs.feature.layer.id, obs.id, obs.form.id, [], now, userId)
  }

  /** A delete and a save of the same observation differ in their type and their deltas only. */
  lemma DeleteMatchesSave(obs: Observation, deltas: seq<ResponseDelta>, isNew: bool, userId: string, now: Date)
    ensures DeleteMutation(obs, userId, now) ==
      SaveMutation(obs, deltas, isNew, userId, now).(mutationType := MutationType.Delete, responseDeltas := [])
  {
  }

  /** A freshly created observation yields a CREATE mutation that identifies it by its feature's ids. */
  lemma CreatedObservationMutation(found: Option<Feature>, featureId: string, formId: string, uuid: string,
                                   auditInfo: AuditInfo, deltas: seq<ResponseDelta>, userId: string, now: Date)
    requires CreateObservation(found, featureId, formId, uuid, auditInfo).Ok?
    ensures var m := SaveMutation(CreateObservation(found, featureId, formId, uuid, auditInfo).value, deltas, true, userId, now);
      && m.mutationType == MutationType.Create
      && m.projectId == found.value.project.id && m.featureId == found.value.id
      && m.layerId == found.value.layer.id && m.formId == formId && m.observationId == uuid
  {
  }

  /** What the repository asks of the local store and the sync scheduler, in the order asked. */
  datatype StoreEvent =
    | Enqueued(mutation: ObservationMutation)
    | AppliedAndEnqueued(mutation: ObservationMutation)
    | SyncScheduled(featureId: string)

  datatype LocalStoreException = LocalStoreException

  /**
   * The order the repository keeps: a delete is never applied locally, and each
   * scheduling of the sync worker directly follows the local-store step for a
   * mutation of the same feature.
   */
  ghost predicate WellOrdered(events: seq<StoreEvent>)
  {
    && (forall i :: 0 <= i < |events| && events[i].AppliedAndEnqueued? ==>
          events[i].mutation.mutationType != MutationType.Delete)
    && (forall i :: 0 <= i < |events| && events[i].SyncScheduled? ==>
          0 < i && !events[i - 1].SyncScheduled? && events[i - 1].mutation.featureId == events[i].featureId)
  }

  /**
   * The repository. The local data store and the sync work manager are foreign; what
   * they were asked to do is the event log, and whether the local store succeeds is a
   * parameter of each call.
   */
  class Repository {
    var events: seq<StoreEvent>

    ghost predicate Valid()
      reads this
    {
      WellOrdered(events)
    }

    constructor ()
      ensures Valid() && events == []
    {
      events := [];
    }

    /** `enqueue`: queue the mutation locally, and only once that completed schedule the sync worker. */
    method Enqueue(m: ObservationMutation, localStoreSucceeds: bool) returns (outcome: Outcome<LocalStoreException>)
      requires Valid()
      modifies this
      ensures Valid()
      ensures outcome.Pass? <==> localStoreSucceeds
      ensures events == old(events) + (if localStoreSucceeds then [Enqueued(m), SyncScheduled(m.featureId)] else [])
    {
      if !localStoreSucceeds {
        return Fail(LocalStoreException);
      }
      events := events + [Enqueued(m)];
      events := events + [SyncScheduled(m.featureId)];
      outcome := Pass;
    }

    /** `applyAndEnqueue`: apply the mutation to the local copy and queue it, then schedule the sync worker. */
    method ApplyAndEnqueue(m: ObservationMutation, localStoreSucceeds: bool) returns (outcome: Outcome<LocalStoreException>)
      requires Valid()
      requires m.mutationType != MutationType.Delete
      modifies this
      ensures Valid()
      ensures outcome.Pass? <==> localStoreSucceeds
      ensures events == old(events) + (if localStoreSucceeds then [AppliedAndEnqueued(m), SyncScheduled(m.featureId)] else [])
    {
      if !localStoreSucceeds {
        return Fail(LocalStoreException);
      }
      events := events + [AppliedAndEnqueued(m)];
      events := events + [SyncScheduled(m.featureId)];
      outcome := Pass;
    }

    /** `deleteObservation`: the delete is only queued; it is not applied to the local copy first. */
    method DeleteObservation(obs: Observation, userId: string, now: Date, localStoreSucceeds: bool)
      returns (outcome: Outcome<LocalStoreException>)
      requires Valid()
      modifies this
      ensures Valid()
      ensures outcome.Pass? <==> localStoreSucceeds
      ensures events == old(events) +
        (if localStoreSucceeds then [Enqueued(DeleteMutation(obs, userId, now)), SyncScheduled(obs.feature.id)] else [])
    {
      outcome := Enqueue(DeleteMutation(obs, userId, now), localStoreSucceeds);
    }

    /** `addObservationMutation`: a create or an update is applied locally and queued. */
    method AddObservationMutation(obs: Observation, deltas: seq<ResponseDelta>, isNew: bool, userId: string, now: Date,
                                  localStoreSucceeds: bool)
      returns (outcome: Outcome<LocalStoreException>)
      requires Valid()
      modifies this
      ensures Valid()
      ensures outcome.Pass? <==> localStoreSucceeds
      ensures events == old(events) +
        (if localStoreSucceeds then [AppliedAndEnqueued(SaveMutation(obs, deltas, isNew, userId, now)), SyncScheduled(obs.feature.id)]
         else [])
    {
      outcome := ApplyAndEnqueue(SaveMutation(obs, deltas, isNew, userId, now), localStoreSucceeds);
    }
  }
}
