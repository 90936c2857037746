# Ground: mutations, wire encoding and polygon drawing, modelled in Dafny

A model of the core of the Ground field-data-collection app. It covers five parts.

- **Wire encoding** (`ModelToProto`). Audit records and geometries are translated into their protocol-buffer form. A decoder defined by the model shows that no coordinate is lost.
- **Submission mutations** (`Mutations`). This part covers the `SubmissionMutation` record and its defaults, the mutable `Builder` with its copy-with idiom, and `filter`, which projects a mixed mutation list onto its submission mutations.
- **Routing mutations into a remote write batch** (`FirestoreBatch`). Each mutation is sent to its document by variant. A mutation whose addition fails is skipped and reported. The batch is committed once.
- **The legacy observation repository** (`ObservationRepository`). It creates observations and builds CREATE, UPDATE and DELETE mutations. A delete is only queued; a create or update is applied locally and queued. In both cases the sync worker is scheduled once the local step has completed; the call that builds the scheduling step is foreign, as "## Left out" says.
- **The polygon-drawing state machine** (`PolygonDrawing`). This is a class with a vertex list whose last entry is the live vertex, plus a completion flag. Its tests appear as verified scenario methods.

Files: `common.dfy` (Option, Result, Outcome, 64-bit `Long`), `model.dfy` (the app's value types and the wire messages), `model_to_proto.dfy`, `mutations.dfy`, `firestore_batch.dfy`, `observation_repository.dfy`, `polygon_drawing.dfy`.

Design choices:

- The foreign collaborators become parameters of the operations that use them:
  - the per-document `addMutationToBatch` of a Firestore document reference;
  - the outcome of the local data store;
  - the feature lookup, the UUID generator, the clock, the current user;
  - the pixel-distance function.
- Stores and schedulers become state the methods append to: a `WriteBatch` object with its writes and commit count, and the repository's event log.
- `Date.toTimestamp` puts the epoch time in **milliseconds times 1000** into the `seconds` field. The protobuf `Timestamp` field is named `seconds`; the model follows the code. The product is computed with Kotlin's 64-bit wrap-around. `TimestampRoundTrip` shows that nothing is lost while the product fits. `TimestampWrapsPastRange` shows the first time at which the product wraps to a negative value.
- The implementation of the polygon-drawing view model is not part of this model. Its behaviour is reconstructed from its tests:
  - moving the live vertex replaces it;
  - with three or more committed vertices and a distance of at most the threshold, the live vertex snaps onto the first vertex and the polygon is complete;
  - adding commits the live vertex and opens a copy of it as the new live vertex;
  - removing drops the last vertex and re-opens the polygon, and does nothing on an empty polygon;
  - the completion button fails unless the polygon is complete.

## Model

| member | source | states |
|---|---|---|
| Common.WrapLong | ground/src/main/java/com/google/android/ground/persistence/remote/firebase/ModelToProtoExt.kt:49 | the result is a 64-bit value congruent to the exact product, and equals it when it fits |
| ModelToProto.ToTimestamp | ground/src/main/java/com/google/android/ground/persistence/remote/firebase/ModelToProtoExt.kt:49 | seconds hold milliseconds times 1000 (64-bit); nanos are 0 |
| ModelToProto.TimestampRoundTrip | ground/src/main/java/com/google/android/ground/persistence/remote/firebase/ModelToProtoExt.kt:49 | for times whose product fits a Long, reading the seconds back recovers the date |
| ModelToProto.TimestampWrapsPastRange | ground/src/main/java/com/google/android/ground/persistence/remote/firebase/ModelToProtoExt.kt:49 | one millisecond past that range the seconds field turns negative |
| ModelToProto.EncodeAuditInfo | ground/src/main/java/com/google/android/ground/persistence/remote/firebase/ModelToProtoExt.kt:36-47 | user id, photo URL, display name and client time are copied; the server time is set if and only if present |
| ModelToProto.AuditInfoRoundTrip | ground/src/main/java/com/google/android/ground/persistence/remote/firebase/ModelToProtoExt.kt:36-49 | every audit field except the user's e-mail is recovered from the wire form when times fit |
| ModelToProto.EncodeCoordinates | ground/src/main/java/com/google/android/ground/persistence/remote/firebase/ModelToProtoExt.kt:63-64 | lat becomes latitude and lng becomes longitude |
| ModelToProto.EncodePoint | ground/src/main/java/com/google/android/ground/persistence/remote/firebase/ModelToProtoExt.kt:66-67 | a point proto holds exactly its coordinates |
| ModelToProto.EncodeLinearRing | ground/src/main/java/com/google/android/ground/persistence/remote/firebase/ModelToProtoExt.kt:69-70 | same number of coordinates, same order, each mapped lat→latitude, lng→longitude |
| ModelToProto.EncodePolygon | ground/src/main/java/com/google/android/ground/persistence/remote/firebase/ModelToProtoExt.kt:72-76 | the shell is set, and exactly as many holes as the polygon has, in order |
| ModelToProto.EncodeMultiPolygon | ground/src/main/java/com/google/android/ground/persistence/remote/firebase/ModelToProtoExt.kt:78-79 | one polygon proto per polygon, same order and count |
| ModelToProto.EncodeGeometry | ground/src/main/java/com/google/android/ground/persistence/remote/firebase/ModelToProtoExt.kt:51-61 | succeeds exactly for point, polygon and multi-polygon, setting only the matching oneof case; line strings and linear rings throw |
| ModelToProto.LinearRingRoundTrip | ground/src/main/java/com/google/android/ground/persistence/remote/firebase/ModelToProtoExt.kt:69-70 | decoding an encoded ring gives the ring back |
| ModelToProto.PolygonRoundTrip | ground/src/main/java/com/google/android/ground/persistence/remote/firebase/ModelToProtoExt.kt:72-76 | decoding an encoded polygon gives the polygon back |
| ModelToProto.PolygonsRoundTrip | ground/src/main/java/com/google/android/ground/persistence/remote/firebase/ModelToProtoExt.kt:78-79 | decoding the polygons of an encoded multi-polygon gives them all back, in order |
| ModelToProto.GeometryRoundTrip | ground/src/main/java/com/google/android/ground/persistence/remote/firebase/ModelToProtoExt.kt:51-79 | every supported geometry encodes and decodes back to itself: no coordinate is dropped |
| Mutations.NewSubmissionMutation | ground/src/main/java/com/google/android/ground/model/mutation/SubmissionMutation.kt:24-36 | the defaults: no id, UNKNOWN type and status, empty ids, retry count 0, no error, no job, no deltas |
| Mutations.Builder.constructor | ground/src/main/java/com/google/android/ground/model/mutation/SubmissionMutation.kt:51-57 | a new builder has no job, an empty submission id and no deltas |
| Mutations.Builder.FromMutation | ground/src/main/java/com/google/android/ground/model/mutation/SubmissionMutation.kt:46 | takes the base properties of the mutation and keeps the builder's own three |
| Mutations.Builder.SetJob | ground/src/main/java/com/google/android/ground/model/mutation/SubmissionMutation.kt:59 | sets only the job and returns the same builder |
| Mutations.Builder.SetSubmissionId | ground/src/main/java/com/google/android/ground/model/mutation/SubmissionMutation.kt:61 | sets only the submission id and returns the same builder |
| Mutations.Builder.SetResponseDeltas | ground/src/main/java/com/google/android/ground/model/mutation/SubmissionMutation.kt:63-65 | sets only the deltas and returns the same builder |
| Mutations.Builder.Build | ground/src/main/java/com/google/android/ground/model/mutation/SubmissionMutation.kt:67-81 | a new mutation whose every property is the builder's property of the same name |
| Mutations.ToBuilder | ground/src/main/java/com/google/android/ground/model/mutation/SubmissionMutation.kt:39-47 | a fresh builder whose build gives back a mutation equal to the original |
| Mutations.NewBuilder | ground/src/main/java/com/google/android/ground/model/mutation/SubmissionMutation.kt:85 | a fresh builder that builds the default mutation |
| Mutations.WithResponseDeltas | ground/src/main/java/com/google/android/ground/model/mutation/SubmissionMutation.kt:39-81 | toBuilder, setResponseDeltas, build: a new mutation that differs from the original in its deltas only |
| Mutations.WithSubmissionId | ground/src/main/java/com/google/android/ground/model/mutation/SubmissionMutation.kt:39-81 | toBuilder, setSubmissionId, build: a new mutation that differs from the original in its submission id only |
| Mutations.Filter | ground/src/main/java/com/google/android/ground/model/mutation/SubmissionMutation.kt:87-100 | no longer than the input; every element is a submission mutation of the input, and every submission mutation of the input is kept |
| Mutations.FilterAppend | ground/src/main/java/com/google/android/ground/model/mutation/SubmissionMutation.kt:88-100 | filtering distributes over concatenation, so relative order is preserved |
| Mutations.DropsOtherVariants | ground/src/main/java/com/google/android/ground/model/mutation/SubmissionMutation.kt:91-97 | a location-of-interest mutation or other variant is dropped wherever it stands |
| Mutations.FilterLift | ground/src/main/java/com/google/android/ground/model/mutation/SubmissionMutation.kt:91-98 | a list of submission mutations passes through unchanged |
| Mutations.FilterIdempotent | ground/src/main/java/com/google/android/ground/model/mutation/SubmissionMutation.kt:87-100 | filtering the output of filter returns it unchanged |
| Mutations.FilterKeepsAll | ground/src/main/java/com/google/android/ground/model/mutation/SubmissionMutation.kt:91-97 | the output is as long as the input exactly when every element is a submission mutation |
| FirestoreBatch.DocumentFor | ground/src/main/java/com/google/android/ground/persistence/remote/firestore/FirestoreDataStore.java:164-191 | LOI mutation → surveys/{surveyId}/lois/{loiId}; submission mutation → surveys/{surveyId}/submissions/{submissionId}; anything else → "Unsupported mutation" |
| FirestoreBatch.RouteIsRecoverable | ground/src/main/java/com/google/android/ground/persistence/remote/firestore/FirestoreDataStore.java:175-191 | the document path gives back the variant, survey id and entity id of the mutation |
| FirestoreBatch.FailureMessageNamesSubject | ground/src/main/java/com/google/android/ground/persistence/remote/firestore/FirestoreDataStore.java:147-157 | the failure message names the submission id of a submission mutation and the LOI id otherwise |
| FirestoreBatch.WritesAreRouted | ground/src/main/java/com/google/android/ground/persistence/remote/firestore/FirestoreDataStore.java:143-145 | every write goes to its mutation's document, for the acting user; unsupported mutations are never written |
| FirestoreBatch.EveryMutationAccounted | ground/src/main/java/com/google/android/ground/persistence/remote/firestore/FirestoreDataStore.java:143-160 | each mutation either produces one write or one failure report |
| FirestoreBatch.WritesAppend | ground/src/main/java/com/google/android/ground/persistence/remote/firestore/FirestoreDataStore.java:143-160 | the batch follows the iteration order of the input |
| FirestoreBatch.SkipsAppend | ground/src/main/java/com/google/android/ground/persistence/remote/firestore/FirestoreDataStore.java:143-160 | the failure reports follow the iteration order of the input |
| FirestoreBatch.FailureIsSkipped | ground/src/main/java/com/google/android/ground/persistence/remote/firestore/FirestoreDataStore.java:144-159 | a failing mutation adds no write and one report; the mutations after it are still processed |
| FirestoreBatch.WriteBatch.constructor | ground/src/main/java/com/google/android/ground/persistence/remote/firestore/FirestoreDataStore.java:142 | a new batch is empty and uncommitted |
| FirestoreBatch.WriteBatch.Commit | ground/src/main/java/com/google/android/ground/persistence/remote/firestore/FirestoreDataStore.java:161 | commit counts once and leaves the writes alone |
| FirestoreBatch.AddMutationToBatch | ground/src/main/java/com/google/android/ground/persistence/remote/firestore/FirestoreDataStore.java:164-191 | appends the routed write exactly when routing and the document add succeed, otherwise returns the exception |
| FirestoreBatch.ApplyMutationsInternal | ground/src/main/java/com/google/android/ground/persistence/remote/firestore/FirestoreDataStore.java:141-162 | a fresh batch holding the writes of all mutations that could be added, in input order, the skipped ones reported, committed exactly once |
| ObservationRepository.GetForm | gnd/src/main/java/com/google/android/gnd/repository/ObservationRepository.java:142 | the form found has the requested id and belongs to the layer; nothing is found only when no form has that id |
| ObservationRepository.CreateObservation | gnd/src/main/java/com/google/android/gnd/repository/ObservationRepository.java:129-146 | fails for a missing feature or form; otherwise a new observation with the generated id, the feature and its project, and created equal to lastModified |
| ObservationRepository.SaveMutation | gnd/src/main/java/com/google/android/gnd/repository/ObservationRepository.java:181-192 | CREATE when new, UPDATE otherwise, never DELETE; the observation's ids; the deltas unchanged |
| ObservationRepository.DeleteMutation | gnd/src/main/java/com/google/android/gnd/repository/ObservationRepository.java:149-160 | DELETE, the observation's ids, no deltas |
| ObservationRepository.DeleteMatchesSave | gnd/src/main/java/com/google/android/gnd/repository/ObservationRepository.java:149-192 | a delete and a save of the same observation differ only in type and deltas |
| ObservationRepository.CreatedObservationMutation | gnd/src/main/java/com/google/android/gnd/repository/ObservationRepository.java:129-192 | saving a freshly created observation gives a CREATE naming its feature's project, feature, layer, form and the new id |
| ObservationRepository.Repository.constructor | gnd/src/main/java/com/google/android/gnd/repository/ObservationRepository.java:57-72 | the repository starts with an empty event log |
| ObservationRepository.Repository.Enqueue | gnd/src/main/java/com/google/android/gnd/repository/ObservationRepository.java:173-177 | the mutation is queued, then the sync worker is scheduled for its feature; nothing happens after a local failure |
| ObservationRepository.Repository.ApplyAndEnqueue | gnd/src/main/java/com/google/android/gnd/repository/ObservationRepository.java:196-200 | the mutation is applied and queued, then the sync worker is scheduled; nothing happens after a local failure |
| ObservationRepository.Repository.DeleteObservation | gnd/src/main/java/com/google/android/gnd/repository/ObservationRepository.java:148-171 | a delete goes through enqueue only and is never applied locally |
| ObservationRepository.Repository.AddObservationMutation | gnd/src/main/java/com/google/android/gnd/repository/ObservationRepository.java:179-194 | a create or update goes through apply-and-enqueue |
| PolygonDrawing.Updated | ground/src/test/java/com/google/android/ground/ui/datacollection/PolygonDrawingTaskFragmentModelTest.kt:67-88 | the committed vertices are kept; the polygon completes if and only if at least 3 are committed and the distance is at most the threshold (inclusive) |
| PolygonDrawing.WithLastVertexAdded | ground/src/test/java/com/google/android/ground/ui/datacollection/PolygonDrawingTaskFragmentModelTest.kt:48-65 | the live vertex becomes committed and a copy of it is the new live vertex; empty stays empty |
| PolygonDrawing.WithLastVertexRemoved | ground/src/test/java/com/google/android/ground/ui/datacollection/PolygonDrawingTaskFragmentModelTest.kt:90-132 | exactly one vertex fewer and not complete; a no-op on an empty polygon |
| PolygonDrawing.RemoveUndoesAdd | ground/src/test/java/com/google/android/ground/ui/datacollection/PolygonDrawingTaskFragmentModelTest.kt:90-98 | removing right after adding restores the vertices |
| PolygonDrawing.UpdateIsIdempotent | ground/src/test/java/com/google/android/ground/ui/datacollection/PolygonDrawingTaskFragmentModelTest.kt:188-193 | moving the live vertex to the same place twice is the same as moving it once |
| PolygonDrawing.RemovalsBottomOut | ground/src/test/java/com/google/android/ground/ui/datacollection/PolygonDrawingTaskFragmentModelTest.kt:110-119 | n removals leave max(size − n, 0) vertices: never below empty |
| PolygonDrawing.DrawnFeatures | ground/src/test/java/com/google/android/ground/ui/datacollection/PolygonDrawingTaskFragmentModelTest.kt:158-170 | exactly one polygon feature when there is a vertex, none otherwise |
| PolygonDrawing.PolygonDrawingViewModel.constructor | ground/src/test/java/com/google/android/ground/ui/datacollection/PolygonDrawingTaskFragmentModelTest.kt:37-46 | a new view model has no vertices and is not complete |
| PolygonDrawing.PolygonDrawingViewModel.Features | ground/src/test/java/com/google/android/ground/ui/datacollection/PolygonDrawingTaskFragmentModelTest.kt:158-170 | the features published: one polygon feature over exactly the current vertices while there is a vertex, none otherwise |
| PolygonDrawing.PolygonDrawingViewModel.UpdateLastVertexAndMaybeCompletePolygon | ground/src/test/java/com/google/android/ground/ui/datacollection/PolygonDrawingTaskFragmentModelTest.kt:188-193 | the new state is Updated of the old one; the completed shape stays closed |
| PolygonDrawing.PolygonDrawingViewModel.AddLastVertex | ground/src/test/java/com/google/android/ground/ui/datacollection/PolygonDrawingTaskFragmentModelTest.kt:182-186 | the new state is WithLastVertexAdded of the old one |
| PolygonDrawing.PolygonDrawingViewModel.RemoveLastVertex | ground/src/test/java/com/google/android/ground/ui/datacollection/PolygonDrawingTaskFragmentModelTest.kt:90-132 | the new state is WithLastVertexRemoved of the old one |
| PolygonDrawing.PolygonDrawingViewModel.OnCompletePolygonButtonClick | ground/src/test/java/com/google/android/ground/ui/datacollection/PolygonDrawingTaskFragmentModelTest.kt:134-156 | fails with IllegalStateException (message "Polygon is not complete", a modelled choice) exactly when the polygon is not complete; changes nothing |
| PolygonDrawing.UpdateLastVertex | ground/src/test/java/com/google/android/ground/ui/datacollection/PolygonDrawingTaskFragmentModelTest.kt:188-193 | the tests' helper: the injected distance is the threshold when near, threshold + 1 otherwise |
| PolygonDrawing.UpdateLastVertexAndAdd | ground/src/test/java/com/google/android/ground/ui/datacollection/PolygonDrawingTaskFragmentModelTest.kt:182-186 | the tests' helper: move the live vertex (not near), then add |
| PolygonDrawing.ThreeCommitted | ground/src/test/java/com/google/android/ground/ui/datacollection/PolygonDrawingTaskFragmentModelTest.kt:57-63 | after three update-and-add steps: vertices (0,0), (10,10), (20,20) and a live (20,20), not complete |
| PolygonDrawing.TestAddVertex | ground/src/test/java/com/google/android/ground/ui/datacollection/PolygonDrawingTaskFragmentModelTest.kt:48-55 | 2 vertices, not complete, one polygon drawn |
| PolygonDrawing.TestAddVertexMultiplePoints | ground/src/test/java/com/google/android/ground/ui/datacollection/PolygonDrawingTaskFragmentModelTest.kt:57-65 | 4 vertices, not complete, one polygon drawn |
| PolygonDrawing.TestUpdateLastVertexCloseToFirstVertexWithTwoCommitted | ground/src/test/java/com/google/android/ground/ui/datacollection/PolygonDrawingTaskFragmentModelTest.kt:67-76 | near with 2 committed: 3 vertices, not complete |
| PolygonDrawing.TestUpdateLastVertexCloseToFirstVertexWithThreeCommitted | ground/src/test/java/com/google/android/ground/ui/datacollection/PolygonDrawingTaskFragmentModelTest.kt:78-88 | near with 3 committed: 4 vertices, complete |
| PolygonDrawing.TestRemoveLastVertexTwoVertices | ground/src/test/java/com/google/android/ground/ui/datacollection/PolygonDrawingTaskFragmentModelTest.kt:90-98 | 1 vertex, not complete, one polygon drawn |
| PolygonDrawing.TestRemoveLastVertexOneVertex | ground/src/test/java/com/google/android/ground/ui/datacollection/PolygonDrawingTaskFragmentModelTest.kt:100-108 | 0 vertices, nothing drawn |
| PolygonDrawing.TestRemoveLastVertexWhenEmptyDoesNothing | ground/src/test/java/com/google/android/ground/ui/datacollection/PolygonDrawingTaskFragmentModelTest.kt:110-119 | removing from an empty polygon leaves 0 vertices, nothing drawn |
| PolygonDrawing.TestRemoveLastVertexWhenPolygonIsComplete | ground/src/test/java/com/google/android/ground/ui/datacollection/PolygonDrawingTaskFragmentModelTest.kt:121-132 | 3 vertices and no longer complete |
| PolygonDrawing.TestOnCompletePolygonButtonClickWhenPolygonIsIncomplete | ground/src/test/java/com/google/android/ground/ui/datacollection/PolygonDrawingTaskFragmentModelTest.kt:134-143 | fails with IllegalStateException (message "Polygon is not complete", a modelled choice) |
| PolygonDrawing.TestOnCompletePolygonButtonClickWhenPolygonIsComplete | ground/src/test/java/com/google/android/ground/ui/datacollection/PolygonDrawingTaskFragmentModelTest.kt:145-156 | succeeds and leaves 4 vertices, complete |

## Left out

- Rx, scheduler and error-interception plumbing is not modelled. This includes `subscribeOn`, `onErrorResumeNext`, `ApplicationErrorManager`, Crashlytics and Timber logging. The failure reports of `applyMutationsInternal` are returned instead of logged. This is I/O and asynchrony.
- The load methods of the remote data store are not modelled: they are thin wrappers over network code. The same goes for `getObservations` and `mergeRemoteObservations` of the repository (network loads, a 5-second timeout, swallowed errors).
- `getObservation` of the repository is not modelled. It is a local lookup of the feature and then of the observation in the local data store, that is, query plumbing with no mutation.
- The Firestore document converter is not modelled. `addMutationToBatch` of a document reference is the parameter `addToDocument`, and it may fail. `WriteBatch` is reduced to its list of writes and a commit count. The commit's own asynchronous result is not modelled.
- FirestoreBatch.AddMutationToBatch: the document add writes into the batch itself in the source. The model assumes that a successful add contributes exactly one write and that a failing add leaves the batch untouched. It does not model several writes per add, or a partial write before the `DataStoreException`. `EveryMutationAccounted` and `FailureIsSkipped` rely on this assumption.
- FirestoreBatch.ApplyMutationsInternal: only `DataStoreException` failures of the document add are modelled, since that is the only exception the loop catches. Any other exception from the path builders or the document add would end the call before `batch.commit()`. That path is not modelled, so `commitCount == 1`, and the promise of `FailureIsSkipped` that later mutations are still processed, hold only within this abstraction.
- FirestoreBatch.DocumentFor: the unsupported-variant message appends the mutation's simple class name. The source appends `getClass()`, which prints "class " and the fully qualified name.
- The abstract `Mutation` class and `LocationOfInterestMutation` are not part of this model. They appear only as the minimal `MutationBase` and `LocationOfInterestMutation` datatypes, plus an `OtherMutation` case for any further subclass.
- Mutations.Builder.FromMutation is assumed to copy all base properties; the base builder is not shown.
- Mutations.Builder.constructor: the base builder's initial properties are a constructor parameter, because they are not shown.
- `SubmissionMutation.submissionId` and `responseDeltas` are `var` properties. The model treats the record as an immutable value, since nothing shown reassigns them. `toString` is left out.
- The user's `photoUrl` is taken to be a non-null string. A null would make the protobuf setter throw; that case is not modelled.
- Coordinates and pixel distances are Kotlin doubles. They are `real` here: coordinates are only copied, and distances are only compared with `<=`.
- `AuditInfo.now`, the UUID generator, the clock, the current user and the feature repository are foreign. Their results are parameters.
- The sync scheduler's own failure is not modelled.
- ObservationRepository.Repository.Enqueue: `enqueueSyncWorker(featureId)` is called eagerly, as the argument of `andThen`, while the chain is being built. `DataSyncWorkManager` is not part of this model. The model assumes that the call only schedules the worker when the returned Completable is subscribed, after the local step completes, and that it does nothing when the local step fails.
- ObservationRepository.Repository.ApplyAndEnqueue: the same eager `enqueueSyncWorker(featureId)` argument of `andThen`. The model makes the same assumption: scheduling happens only on subscription, after the local apply-and-enqueue completes.
- ObservationRepository.GetForm: `Layer.getForm` is not part of this model. It is taken to be a lookup by form id that returns the first matching form. The contract promises only that the form found has the requested id and belongs to the layer, and that nothing is found exactly when no form has that id; it does not depend on which matching form is returned.
- The polygon-drawing view model's source is not part of this model. Its behaviour is reconstructed from its tests, and the lines below name each choice the tests do not fix.
- PolygonDrawing.Updated: when it closes the polygon, the live vertex snaps onto the first vertex. With fewer than 3 committed vertices a near update does not snap; the live vertex simply moves to the target. The tests check only the size and completeness.
- PolygonDrawing.WithLastVertexAdded: adding on an empty polygon leaves it empty, and adding on a complete polygon re-opens it. No test covers either case.
- PolygonDrawing.PolygonDrawingViewModel.OnCompletePolygonButtonClick: the message "Polygon is not complete" is the model's choice, because the tests check only the exception class. A click on a complete polygon leaves it unchanged.
- PolygonDrawing.TestOnCompletePolygonButtonClickWhenPolygonIsIncomplete: the exception message it states is the same modelled choice.
- PolygonDrawing.DrawnFeatures: the drawn set holds exactly one feature while there is a vertex. The tests count only polygon features, so they do not rule out further features of other kinds.
- The numeric value of `DISTANCE_THRESHOLD_DP` is left out. It is a constructor parameter, and every scenario holds for any value.
- Sync-status transitions, retry counting, listing pending mutations and purging them are not modelled. None of them appears in the modelled code.
- UI fragments, UI tests, the LOI Firestore document record, build configuration and test scaffolding are not modelled.
